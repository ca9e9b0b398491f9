/**
What invalidation stops. A call looks at the block's own mark and then at its parent's; a mark set before
the look keeps the block's data, and all that stands on it, from ever being published or reported.
 */
module BlockIndexInvalid {
  import opened Wrappers
  import opened BlockIndexMachine
  import opened BlockIndexInvariant
  import opened BlockIndexTheorems

  /** The call is about to set DataReady of `b`. */
  predicate Publishing(call: Call, b: Id) {
    call.Build? && call.pc.PublishReady? && call.pc.cur == b && call.pc.readyData
  }

  /** The call has found `b` itself valid. */
  predicate PastOwnCheck(call: Call, b: Id) {
    (call.Build? && call.pc.CheckPrevInvalid? && call.pc.cur == b) || Publishing(call, b)
  }

  /** Marked before anybody who could still publish it has looked at the mark. */
  ghost predicate Rejected(s: State, b: Id) {
    && Get(s, b).invalid && !Get(s, b).dataReady
    && forall c :: c in s.calls ==> !PastOwnCheck(s.calls[c], b)
  }

  /** The parent is marked, and nobody has looked past that mark. */
  ghost predicate Orphaned(u: Headers, s: State, b: Id) {
    && Get(s, u.parent(b)).invalid && !Get(s, b).dataReady
    && forall c :: c in s.calls ==> !Publishing(s.calls[c], b)
  }

  // ---- one action ----------------------------------------------------------------------------

  lemma BuildKeepsMark(u: Headers, s: State, c: CallId, q: seq<Entry>, best: Option<Id>, pc: BuildPc, b: Id)
    requires Get(s, b).invalid
    ensures Get(StepBuild(u, s, c, q, best, pc), b).invalid
  {
    hide Better, StartEntry, AfterHeader, AfterMeet, AfterInvalid, SuccessorEvents;
  }

  lemma CallKeepsMark(u: Headers, s: State, c: CallId, call: Call, spurious: bool, b: Id)
    requires Get(s, b).invalid
    ensures Get(StepCall(u, s, c, call, spurious), b).invalid
  {
    hide StepBuild, StartBuild, SuccessorEvents;
    if call.Build? {
      BuildKeepsMark(u, s, c, call.queue, call.best, call.pc, b);
    }
  }

  /** A mark is never taken back. */
  lemma MarkStays(u: Headers, s: State, a: Action, b: Id)
    requires Get(s, b).invalid
    ensures Get(Apply(u, s, a), b).invalid
  {
    hide StepCall;
    if a.Run? && a.c in s.calls {
      CallKeepsMark(u, s, a.c, s.calls[a.c], a.spurious, b);
    }
  }

  lemma OtherCalls(u: Headers, s: State, c: CallId, spurious: bool, d: CallId)
    requires c in s.calls && d != c && d in StepCall(u, s, c, s.calls[c], spurious).calls
    ensures d in s.calls && StepCall(u, s, c, s.calls[c], spurious).calls[d] == s.calls[d]
  {
  }

  /** The step of a call that gets it to where it may publish, if it does. */
  lemma StepChecks(u: Headers, s: State, c: CallId, call: Call, spurious: bool, b: Id)
    requires c in s.calls && s.calls[c] == call
    ensures
      var s' := StepCall(u, s, c, call, spurious);
      c in s'.calls && s'.calls[c] != call ==>
        && (PastOwnCheck(s'.calls[c], b) && !PastOwnCheck(call, b) ==> !Get(s, b).invalid)
        && (Publishing(s'.calls[c], b) ==>
              call.Build? && call.pc.CheckPrevInvalid? && call.pc.cur == b
              && Get(s, b).prev.Some? && !Get(s, Get(s, b).prev.value).invalid)
  {
  }

  lemma RejectedStays(u: Headers, s: State, a: Action, b: Id)
    requires Rejected(s, b)
    ensures Rejected(Apply(u, s, a), b)
  {
    var s' := Apply(u, s, a);
    MarkStays(u, s, a, b);
    if Get(s', b).dataReady {
      DataReadyOrigin(u, s, a, b);
    }
    forall d | d in s'.calls ensures !PastOwnCheck(s'.calls[d], b) {
      if a.Run? && a.c in s.calls {
        if d == a.c {
          StepChecks(u, s, d, s.calls[d], a.spurious, b);
        } else {
          OtherCalls(u, s, a.c, a.spurious, d);
        }
      }
    }
  }

  lemma OrphanedStays(u: Headers, run: seq<Action>, a: Action, b: Id)
    requires Orphaned(u, Exec(u, run), b)
    ensures Orphaned(u, Exec(u, run + [a]), b)
  {
    assert (run + [a])[..|run|] == run;
    var s, s' := Exec(u, run), Exec(u, run + [a]);
    MarkStays(u, s, a, u.parent(b));
    if Get(s', b).dataReady {
      DataReadyOrigin(u, s, a, b);
    }
    forall d | d in s'.calls ensures !Publishing(s'.calls[d], b) {
      if a.Run? && a.c in s.calls {
        if d == a.c {
          StepChecks(u, s, d, s.calls[d], a.spurious, b);
          if s.calls[d].Build? && s.calls[d].pc.CheckPrevInvalid? && s.calls[d].pc.cur == b {
            NeverStuck(u, run, d, b);
          }
        } else {
          OtherCalls(u, s, a.c, a.spurious, d);
        }
      }
    }
  }

  // ---- every extension -------------------------------------------------------------------------

  lemma {:induction false} StoppedStays(u: Headers, run: seq<Action>, more: seq<Action>, b: Id)
    requires Rejected(Exec(u, run), b) || Orphaned(u, Exec(u, run), b)
    ensures Rejected(Exec(u, run + more), b) || Orphaned(u, Exec(u, run + more), b)
  {
    if more == [] {
      assert run + more == run;
    } else {
      var init, a := more[..|more| - 1], more[|more| - 1];
      StoppedStays(u, run, init, b);
      assert run + more == (run + init) + [a];
      assert ((run + init) + [a])[..|run + init|] == run + init;
      if Rejected(Exec(u, run + init), b) {
        RejectedStays(u, Exec(u, run + init), a, b);
      } else {
        OrphanedStays(u, run + init, a, b);
      }
    }
  }

  /** `x` stands `d` blocks above `b`. */
  ghost predicate StandsOn(u: Headers, x: Id, b: Id, d: nat)
    decreases d
  {
    if d == 0 then x == b else x != u.genesis && StandsOn(u, u.parent(x), b, d - 1)
  }

  lemma {:induction false} NothingAbove(u: Headers, run: seq<Action>, x: Id, b: Id, d: nat)
    requires !Get(Exec(u, run), b).dataReady && StandsOn(u, x, b, d)
    ensures !Get(Exec(u, run), x).dataReady
    decreases d
  {
    if d > 0 {
      AlwaysSafe(u, run, x);
      NothingAbove(u, run, u.parent(x), b, d - 1);
    }
  }

  /** Nobody names, or is going to name, a block whose data is not ready. */
  lemma UnreadyIsUnnamed(u: Headers, run: seq<Action>, x: Id, c: CallId)
    requires !Get(Exec(u, run), x).dataReady && c in Exec(u, run).calls
    ensures BestOf(Exec(u, run).calls[c]) != Some(x)
  {
    var g := RunInv(u, run);
    var s := Exec(u, run);
    assert CallOk(u, s, g, CallOf(s, c), g.rest(c));
  }

  /**
  From a mark that nobody has looked past: however the run goes on, neither the block nor any block that stands
  on it ever has its data ready, and no call reports one of them.
   */
  lemma InvalidIsStopped(u: Headers, run: seq<Action>, more: seq<Action>, b: Id, x: Id, d: nat)
    requires Rejected(Exec(u, run), b) || Orphaned(u, Exec(u, run), b)
    requires StandsOn(u, x, b, d)
    ensures
      var s := Exec(u, run + more);
      && !Get(s, x).dataReady
      && forall c :: c in s.calls ==> BestOf(s.calls[c]) != Some(x) && !Publishing(s.calls[c], x)
  {
    StoppedStays(u, run, more, b);
    NothingAbove(u, run + more, x, b, d);
    var s := Exec(u, run + more);
    forall c | c in s.calls ensures BestOf(s.calls[c]) != Some(x) && !Publishing(s.calls[c], x) {
      UnreadyIsUnnamed(u, run + more, x, c);
      if Publishing(s.calls[c], x) {
        PublisherHasParent(u, run + more, c, x);
        if d > 0 {
          NothingAbove(u, run + more, u.parent(x), b, d - 1);
        }
      }
    }
  }
}
