/** A caller's check of a header's work is on record, even when the header was there already. */
module BlockIndexWork {
  import opened Wrappers
  import opened BlockIndexMachine
  import opened BlockIndexTheorems

  /** Blocks whose header some call brought with its work checked. */
  ghost function WorkCalls(u: Headers, run: seq<Action>): set<Id> {
    if run == [] then {}
    else
      var init, a := run[..|run| - 1], run[|run| - 1];
      WorkCalls(u, init) + (if a.AddHeader? && a.workOk && a.c !in Exec(u, init).calls then {a.x} else {})
  }

  /** Some call is about to put the check of `b` on record. */
  ghost predicate Recording(s: State, b: Id) { exists c :: c in s.calls && s.calls[c] == HeaderElect(b, true) }

  lemma BuildKeepsWork(u: Headers, s: State, c: CallId, q: seq<Entry>, best: Option<Id>, pc: BuildPc, b: Id)
    ensures Get(StepBuild(u, s, c, q, best, pc), b).workChecked == Get(s, b).workChecked
  {
  }

  lemma WorkSteps(u: Headers, s: State, c: CallId, call: Call, spurious: bool, b: Id)
    ensures Get(StepCall(u, s, c, call, spurious), b).workChecked <==>
        Get(s, b).workChecked || call == HeaderElect(b, true)
  {
    if call.Build? {
      BuildKeepsWork(u, s, c, call.queue, call.best, call.pc, b);
    }
  }

  lemma BuildElectsNobody(u: Headers, s: State, c: CallId, q: seq<Entry>, best: Option<Id>, pc: BuildPc)
    requires c in s.calls && s.calls[c].Build?
    ensures c in StepBuild(u, s, c, q, best, pc).calls && !StepBuild(u, s, c, q, best, pc).calls[c].HeaderElect?
  {
  }

  /** A call is past its own election after one step, and begins no other. */
  lemma ElectsOnce(u: Headers, s: State, c: CallId, spurious: bool)
    requires c in s.calls
    ensures
      var s' := StepCall(u, s, c, s.calls[c], spurious);
      c in s'.calls && !s'.calls[c].HeaderElect?
  {
    if s.calls[c].Build? {
      BuildElectsNobody(u, s, c, s.calls[c].queue, s.calls[c].best, s.calls[c].pc);
    }
  }

  lemma SameElections(u: Headers, s: State, c: CallId, spurious: bool, d: CallId)
    requires c in s.calls && d != c
    ensures
      var s' := StepCall(u, s, c, s.calls[c], spurious);
      (d in s'.calls <==> d in s.calls) && (d in s.calls ==> s'.calls[d] == s.calls[d])
  {
  }

  lemma {:induction false} WorkFollows(u: Headers, run: seq<Action>, b: Id)
    ensures
      var s := Exec(u, run);
      && (Get(s, b).workChecked ==> b == u.genesis || b in WorkCalls(u, run))
      && (forall c :: c in s.calls && s.calls[c] == HeaderElect(b, true) ==> b in WorkCalls(u, run))
      && (b == u.genesis || b in WorkCalls(u, run) ==> Get(s, b).workChecked || Recording(s, b))
  {
    if run != [] {
      hide StepCall;
      var init, a := run[..|run| - 1], run[|run| - 1];
      var s, s' := Exec(u, init), Exec(u, run);
      WorkFollows(u, init, b);
      if a.Run? && a.c in s.calls {
        WorkSteps(u, s, a.c, s.calls[a.c], a.spurious, b);
        ElectsOnce(u, s, a.c, a.spurious);
        forall d | d != a.c ensures (d in s'.calls <==> d in s.calls) && (d in s.calls ==> s'.calls[d] == s.calls[d]) {
          SameElections(u, s, a.c, a.spurious, d);
        }
      }
      if Recording(s, b) {
        var c :| c in s.calls && s.calls[c] == HeaderElect(b, true);
        assert Get(s', b).workChecked || (c in s'.calls && s'.calls[c] == HeaderElect(b, true));
      }
      if a.AddHeader? && a.workOk && a.c !in s.calls && a.x == b {
        assert s'.calls[a.c] == HeaderElect(b, true);
      }
    }
  }

  /** Once every call has returned, the check is on record exactly for headers that a caller brought checked. */
  lemma WorkIsRecorded(u: Headers, run: seq<Action>, b: Id)
    requires AllReturned(Exec(u, run))
    ensures Get(Exec(u, run), b).workChecked <==> b == u.genesis || b in WorkCalls(u, run)
  {
    WorkFollows(u, run, b);
  }
}
