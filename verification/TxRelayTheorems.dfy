/** What the relay promises: one live mark per request, a bound on firings, and a wake-up in time. */
module TxRelayTheorems {
  import opened Wrappers
  import opened TxRelayModel
  import opened TxRelayInvariant
  import opened TxRelaySteps
  import opened TxRelayRuns

  // ---- one live mark ---------------------------------------------------------------------------

  predicate LiveAt(s: State, marks: seq<Mark>, k: nat, id: TxId) {
    k < |marks| && marks[k].id == id && IsLive(s.requests, marks[k])
  }

  /** A request has exactly one live mark: among the deadlines if somebody is asked, else among the delayed asks. */
  lemma OneLiveMark(steps: seq<Step>, clocks: seq<int>, states: seq<State>, n: nat, id: TxId)
    requires Run(steps, clocks, states) && n <= |steps| && id in states[n].requests
    ensures var s := states[n];
            var mine, other := if s.requests[id].requested.Some? then s.order
                else s.delayed, if s.requests[id].requested.Some? then s.delayed else s.order;
            && (exists k :: LiveAt(s, mine, k, id))
                 && (forall k, k' :: LiveAt(s, mine, k, id) && LiveAt(s, mine, k', id) ==> k == k')
            && (forall k :: !LiveAt(s, other, k, id))
  {
    RunKeeps(steps, clocks, states, n);
    var s := states[n];
    assert Placed(s.requests[id], id, s.order, s.delayed);
    var mine, other := if s.requests[id].requested.Some? then s.order
        else s.delayed, if s.requests[id].requested.Some? then s.delayed else s.order;
    var m :| m in mine && m.id == id && m.number == s.requests[id].mark;
    var k :| 0 <= k < |mine| && mine[k] == m;
    assert LiveAt(s, mine, k, id);
    forall j: nat ensures !LiveAt(s, other, j, id) {
      assert j < |other| ==> other[j] in other;
    }
  }

  /** The counters of every peer, in every state of every run. */
  lemma CountersAreCounts(steps: seq<Step>, clocks: seq<int>, states: seq<State>, n: nat, p: Peer)
    requires Run(steps, clocks, states) && n <= |steps| && p in states[n].peers
    ensures states[n].peers[p].announced == |AnnouncedBy(states[n].requests, p)| <= MAX_PEER_ANNOUNCEMENTS
    ensures states[n].peers[p].inFlight == |AskedOf(states[n].requests, p)|
  {
    RunKeeps(steps, clocks, states, n);
    assert CountOk(states[n].requests, states[n].peers[p], p);
  }

  /** Announcers are distinct, have state, and the one asked is one of them, in every state of every run. */
  lemma AnnouncersAreReal(steps: seq<Step>, clocks: seq<int>, states: seq<State>, n: nat, id: TxId)
    requires Run(steps, clocks, states) && n <= |steps| && id in states[n].requests
    ensures var r := states[n].requests[id];
            && Once(r.announcers) && r.announcers != [] && (forall p :: p in r.announcers ==> p in states[n].peers)
            && (r.requested.Some? ==> r.requested.value in r.announcers)
  {
    RunKeeps(steps, clocks, states, n);
    assert RequestOk(states[n].requests[id], states[n].peers, states[n].markSeq)
        && Placed(states[n].requests[id], id, states[n].order, states[n].delayed);
  }

  // ---- how often a request can fire ----------------------------------------------------------------

  function Rank(s: State, id: TxId): nat {
    if id !in s.requests then 0 else 2 * |s.requests[id].announcers| + if s.requests[id].requested.None? then 1 else 0
  }

  /** The step fires the live mark of `id`. */
  predicate Fires(s: State, step: Step, id: TxId) {
    || (step.Timeout? && Due(s.order, step.seen) && s.order[0].id == id && IsLive(s.requests, s.order[0]))
    || (step.Waited? && Due(s.delayed, step.seen) && s.delayed[0].id == id && IsLive(s.requests, s.delayed[0]))
  }

  /** Dropping the one asked: one announcer less, at worst a wait. */
  lemma DropAskedRank(s: State, id: TxId, p: Peer, now: int)
    requires id in s.requests && InvBut(s, now, Some(id)) && s.requests[id].requested == Some(p)
    ensures Rank(DropRequest(s, id, p, now), id) < Rank(s, id)
  {
    assert RequestOk(s.requests[id], s.peers, s.markSeq);
    DropAskedKeeps(s, id, p, now);
  }

  lemma DropOtherRank(s: State, id: TxId, p: Peer, now: int)
    requires id in s.requests && Inv(s, now) && s.requests[id].requested != Some(p) && p in s.requests[id].announcers
    ensures Rank(DropRequest(s, id, p, now), id) <= Rank(s, id)
  {
    assert RequestOk(s.requests[id], s.peers, s.markSeq);
    WithoutIs(s.requests[id].announcers, p);
  }

  lemma DropRank(s: State, x: TxId, p: Peer, now: int, id: TxId)
    requires Inv(s, now)
    ensures Rank(DropRequest(s, x, p, now), id) <= Rank(s, id)
  {
    if x != id {
      DropRequestLocal(s, x, p, now);
    } else if id in s.requests && p in s.requests[id].announcers {
      if s.requests[id].requested == Some(p) {
        DropAskedRank(s, id, p, now);
      } else {
        DropOtherRank(s, id, p, now);
      }
    }
  }

  lemma {:induction false} DropAllRank(s: State, ids: seq<TxId>, p: Peer, nows: seq<int>, clock: int, now: int,
        id: TxId)
    requires Inv(s, clock) && |nows| == |ids| && Readings(clock, nows, now)
    ensures Rank(DropAll(s, ids, p, nows), id) <= Rank(s, id)
  {
    if ids != [] {
      var n := |ids| - 1;
      DropAllRank(s, ids[..n], p, nows[..n], clock, nows[n], id);
      DropAllKeeps(s, ids[..n], p, nows[..n], clock, nows[n]);
      DropRank(DropAll(s, ids[..n], p, nows[..n]), ids[n], p, nows[n], id);
    }
  }

  lemma FireOrderRank(s: State, seen: int, now: int, id: TxId)
    requires Inv(s, now) && Due(s.order, seen)
    ensures Rank(FireOrder(s, now), id) + (if Fires(s, Timeout(seen), id) then 1 else 0) <= Rank(s, id)
  {
    PopOrderKeeps(s, now);
    var m, s1 := s.order[0], s.(order := s.order[1..]);
    if IsLive(s.requests, m) {
      DropAskedRank(s1, m.id, s.requests[m.id].requested.value, now);
      if m.id != id {
        DropRequestLocal(s1, m.id, s.requests[m.id].requested.value, now);
      }
    }
  }

  lemma AskNextLocal(s: State, id: TxId, waited: bool, now: int)
    requires id in s.requests
    ensures OthersSame(s.requests, AskNext(s, id, waited, now).requests, id)
  {
  }

  lemma FireDelayedRank(s: State, seen: int, now: int, id: TxId)
    requires Inv(s, now) && Due(s.delayed, seen)
    ensures Rank(FireDelayed(s, now), id) + (if Fires(s, Waited(seen), id) then 1 else 0) <= Rank(s, id)
  {
    PopDelayedKeeps(s, now);
    var m, s1 := s.delayed[0], s.(delayed := s.delayed[1..]);
    if IsLive(s.requests, m) {
      AskNextKeeps(s1, m.id, true, now);
      AskNextLocal(s1, m.id, true, now);
    }
  }

  lemma AnnounceLocal(s: State, p: Peer, gone: bool, known: bool, id: TxId, now: int)
    ensures OthersSame(s.requests, Announce(s, p, gone, known, id, now).requests, id)
  {
    hide Pushed;
  }

  /** A step that does not announce `id` never raises its rank, and lowers it when it fires its mark. */
  lemma RankFalls(s: State, step: Step, clock: int, now: int, id: TxId)
    requires Inv(s, clock) && Allowed(s, step, clock, now)
    requires step.Announced? ==> step.id != id
    ensures Rank(Next(s, step, now), id) + (if Fires(s, step, id) then 1 else 0) <= Rank(s, id)
  {
    InvLater(s, clock, now);
    match step
    case Announced(p, gone, known, x) => AnnounceLocal(s, p, gone, known, x, now);
    case NotFound(x, p) => DropRank(s, x, p, now, id);
    case Known(x) =>
    case Gone(p, ids, nows) =>
      var s1 := WithoutOrphansOf(s, p);
      assert Inv(s1, clock);
      DropAllRank(s1, ids, p, nows, clock, now, id);
    case Timeout(seen) => if Due(s.order, seen) { FireOrderRank(s, seen, now, id); }
    case Waited(seen) => if Due(s.delayed, seen) { FireDelayedRank(s, seen, now, id); }
    case OrphanKept(x, source, expire) =>
    case OrphanGone(x) =>
  }

  /** Firings of the live mark of `id` in steps `n` to `m` of a run. */
  ghost function Firings(steps: seq<Step>, states: seq<State>, n: nat, m: nat, id: TxId): nat
    requires n <= m <= |steps| && |states| == |steps| + 1
  {
    if n == m then 0 else Firings(steps, states, n, m - 1, id) + if Fires(states[m - 1], steps[m - 1], id) then 1 else 0
  }

  /**
  While nobody announces it again, a request with k announcers fires at most 2k times if somebody
  is asked and 2k + 1 times if it waits, and by then it is gone.
   */
  lemma {:induction false} FiringsAreBounded(steps: seq<Step>, clocks: seq<int>, states: seq<State>, n: nat, m: nat,
        id: TxId)
    requires Run(steps, clocks, states) && n <= m <= |steps|
    requires forall k :: n <= k < m && steps[k].Announced? ==> steps[k].id != id
    ensures Firings(steps, states, n, m, id) + Rank(states[m], id) <= Rank(states[n], id)
    ensures Firings(steps, states, n, m, id) == Rank(states[n], id) ==> id !in states[m].requests
    decreases m
  {
    hide Next, Inv, Fires, Readings, Collected;
    if n < m {
      FiringsAreBounded(steps, clocks, states, n, m - 1, id);
      RunKeeps(steps, clocks, states, m - 1);
      assert states[m - 1 + 1] == Next(states[m - 1], steps[m - 1], clocks[m - 1]);
      RankFalls(states[m - 1], steps[m - 1], ClockAt(clocks, m - 1), clocks[m - 1], id);
    }
    if id in states[m].requests {
      AnnouncersAreReal(steps, clocks, states, m, id);
    }
  }

  // ---- the wake-up ---------------------------------------------------------------------------------------

  ghost predicate AllAfter(marks: seq<Mark>, now: int) { forall m :: m in marks ==> now < m.time }

  /** A deadline is zero when nothing is pending, else the earliest mark or expiry. */
  ghost predicate IsDeadline(s: State, d: int) {
    && (d == 0 <==> s.order == [] && s.delayed == [] && s.orphans == map[])
    && (d != 0 ==>
        && (forall m :: m in s.order || m in s.delayed ==> d <= m.time)
        && (forall id :: id in s.orphans ==> d <= s.orphans[id].expire)
        && ((exists m :: (m in s.order || m in s.delayed) && m.time == d)
             || (exists id :: id in s.orphans && s.orphans[id].expire == d)))
  }

  lemma FrontIsFirst(marks: seq<Mark>, top: nat, latest: int)
    requires marks != [] && DequeOk(marks, top, latest)
    ensures 0 < marks[0].time && forall m :: m in marks ==> marks[0].time <= m.time
  {
    forall m | m in marks ensures marks[0].time <= m.time {
      var k :| 0 <= k < |marks| && marks[k] == m;
      assert k > 0 ==> marks[0].time <= marks[k].time;
    }
  }

  /** The two fronts give the earliest mark. */
  lemma MarkDeadlineIs(s: State, clock: int)
    requires Inv(s, clock)
    ensures var d := MarkDeadline(s);
            && (d == 0 <==> s.order == [] && s.delayed == []) && 0 <= d
            && (forall m :: m in s.order || m in s.delayed ==> d <= m.time)
            && (d != 0 ==> exists m :: (m in s.order || m in s.delayed) && m.time == d)
  {
    if s.order != [] {
      FrontIsFirst(s.order, s.markSeq, clock + REQUEST_TIMEOUT);
      assert s.order[0] in s.order;
    }
    if s.delayed != [] {
      FrontIsFirst(s.delayed, s.markSeq, clock + OVERLOADED_PEER_DELAY);
      assert s.delayed[0] in s.delayed;
    }
  }

  // ---- the loops that fire marks -----------------------------------------------------------------------------

  lemma {:induction false} LiveOnlyDue(requests: Requests, marks: seq<Mark>, now: int)
    ensures DueCount(LiveOnly(requests, marks), now) <= DueCount(marks, now)
  {
    if marks != [] {
      var rest, last := LiveOnly(requests, marks[..|marks| - 1]), marks[|marks| - 1];
      LiveOnlyDue(requests, marks[..|marks| - 1], now);
      assert (rest + [last])[..|rest|] == rest;
    }
  }

  lemma PushedDue(requests: Requests, marks: seq<Mark>, m: Mark, seen: int)
    requires seen < m.time
    ensures DueCount(Pushed(requests, marks, m), seen) <= DueCount(marks, seen)
  {
    assert (marks + [m])[..|marks|] == marks;
    LiveOnlyDue(requests, marks + [m], seen);
  }

  lemma {:induction false} PopDue(marks: seq<Mark>, seen: int)
    requires marks != []
    ensures DueCount(marks, seen) == DueCount(marks[1..], seen) + if marks[0].time <= seen then 1 else 0
  {
    if |marks| > 1 {
      var init := marks[..|marks| - 1];
      PopDue(init, seen);
      assert init[1..] == marks[1..][..|marks| - 2];
    }
  }

  lemma AskDue(s: State, id: TxId, p: Peer, now: int, seen: int)
    requires id in s.requests && seen <= now
    ensures DueCount(Ask(s, id, p, now).order, seen) <= DueCount(s.order, seen)
        && Ask(s, id, p, now).delayed == s.delayed
  {
    if p in s.peers {
      var a := Asked(s, id, p);
      PushedDue(Renumbered(a, id), s.order, Mark(now + REQUEST_TIMEOUT, id, s.markSeq + 1), seen);
    }
  }

  lemma AskNextDue(s: State, id: TxId, waited: bool, now: int, seen: int)
    requires id in s.requests && seen <= now
    ensures DueCount(AskNext(s, id, waited, now).order, seen) <= DueCount(s.order, seen)
    ensures waited ==> AskNext(s, id, waited, now).delayed == s.delayed
  {
    match FirstFree(s.peers, s.requests[id].announcers)
    case Some(p) => AskDue(s, id, p, now, seen);
    case None => if s.requests[id].announcers != [] { AskDue(s, id, s.requests[id].announcers[0], now, seen); }
  }

  lemma FireOrderDue(s: State, now: int, seen: int)
    requires Due(s.order, seen) && seen <= now
    ensures DueCount(FireOrder(s, now).order, seen) < DueCount(s.order, seen)
  {
    PopDue(s.order, seen);
    var m, s1 := s.order[0], s.(order := s.order[1..]);
    if IsLive(s.requests, m) && s.requests[m.id].requested.Some?
        && s.requests[m.id].requested.value in s.requests[m.id].announcers {
      AskNextDue(Leave(s1, m.id, s.requests[m.id].requested.value), m.id, false, now, seen);
    }
  }

  lemma FireDelayedDue(s: State, now: int, seen: int)
    requires Due(s.delayed, seen) && seen <= now
    ensures DueCount(FireDelayed(s, now).delayed, seen) < DueCount(s.delayed, seen)
  {
    PopDue(s.delayed, seen);
    var m, s1 := s.delayed[0], s.(delayed := s.delayed[1..]);
    if IsLive(s.requests, m) {
      AskNextDue(s1, m.id, true, now, seen);
    }
  }

  /** The readings of a clock that never goes back, one after the other. */
  type Clock = nat -> int

  ghost predicate Ticking(tick: Clock) { forall k, k' :: 0 <= k <= k' ==> tick(k) <= tick(k') }

  /** Where a loop has left the relay, and which reading of the clock comes next. */
  datatype Turn = Turn(state: State, next: nat)

  /** The loop of `timeouts`, compared with the reading `tick(at)`: it ends, because a mark it makes is not due then. */
  ghost function FireOrders(s: State, at: nat, tick: Clock, k: nat): Turn
    requires Ticking(tick) && at <= k
    decreases DueCount(s.order, tick(at))
  {
    if Due(s.order, tick(at)) then
      FireOrderDue(s, tick(k), tick(at));
      FireOrders(FireOrder(s, tick(k)), at, tick, k + 1)
    else Turn(s, k)
  }

  /** `timeouts`. */
  ghost function Timeouts(s: State, tick: Clock, k: nat): Turn
    requires Ticking(tick)
  {
    FireOrders(s, k, tick, k + 1)
  }

  ghost function FireWaits(s: State, at: nat, tick: Clock, k: nat): Turn
    requires Ticking(tick) && at <= k
    decreases DueCount(s.delayed, tick(at))
  {
    if Due(s.delayed, tick(at)) then
      FireDelayedDue(s, tick(k), tick(at));
      FireWaits(FireDelayed(s, tick(k)), at, tick, k + 1)
    else Turn(s, k)
  }

  /** `delayed`. */
  ghost function DelayedAsks(s: State, tick: Clock, k: nat): Turn
    requires Ticking(tick)
  {
    FireWaits(s, k, tick, k + 1)
  }

  /** The tail of `onWake` that minds the time, each part with its own readings. */
  ghost function Wake(s: State, tick: Clock): State
    requires Ticking(tick)
  {
    var t := Timeouts(ExpireOrphans(s, tick(0)), tick, 1);
    DelayedAsks(t.state, tick, t.next).state
  }

  lemma NotDue(marks: seq<Mark>, top: nat, latest: int, now: int)
    requires DequeOk(marks, top, latest) && !Due(marks, now)
    ensures AllAfter(marks, now)
  {
    if marks != [] {
      FrontIsFirst(marks, top, latest);
    }
  }

  lemma FireOrderOrphans(s: State, now: int)
    requires s.order != []
    ensures FireOrder(s, now).orphans == s.orphans
  {
    hide Pushed, FirstFree, Without;
  }

  lemma QuietOrder(s: State, clock: int, seen: int)
    requires Inv(s, clock) && !Due(s.order, seen)
    ensures AllAfter(s.order, seen)
  {
    NotDue(s.order, s.markSeq, clock + REQUEST_TIMEOUT, seen);
  }

  lemma {:induction false} FireOrdersKeep(s: State, at: nat, tick: Clock, k: nat)
    requires Ticking(tick) && at <= k && Inv(s, tick(k))
    ensures
      var t := FireOrders(s, at, tick, k);
      k <= t.next && Inv(t.state, tick(t.next)) && AllAfter(t.state.order, tick(at)) && t.state.orphans == s.orphans
    decreases DueCount(s.order, tick(at))
  {
    hide Inv, FireOrder, DueCount, AllAfter;
    if Due(s.order, tick(at)) {
      FireOrderDue(s, tick(k), tick(at));
      FireOrderKeeps(s, tick(k));
      FireOrderOrphans(s, tick(k));
      InvLater(FireOrder(s, tick(k)), tick(k), tick(k + 1));
      FireOrdersKeep(FireOrder(s, tick(k)), at, tick, k + 1);
    } else {
      QuietOrder(s, tick(k), tick(at));
    }
  }

  lemma FireDelayedAfter(s: State, now: int, early: int)
    requires Inv(s, now) && s.delayed != [] && AllAfter(s.order, early) && early <= now
    ensures AllAfter(FireDelayed(s, now).order, early)
  {
    PopDelayedKeeps(s, now);
    var m, s1 := s.delayed[0], s.(delayed := s.delayed[1..]);
    if IsLive(s.requests, m) {
      AskNextAfter(s1, m.id, now, early);
    }
  }

  lemma AskNextAfter(s: State, id: TxId, now: int, early: int)
    requires id in s.requests && InvBut(s, now, Some(id)) && AllAfter(s.order, early) && early <= now
    ensures AllAfter(AskNext(s, id, true, now).order, early)
  {
    var m := Mark(now + REQUEST_TIMEOUT, id, s.markSeq + 1);
    forall requests: Requests ensures AllAfter(Pushed(requests, s.order, m), early) {
      PushedOk(requests, s.order, m, now + REQUEST_TIMEOUT);
    }
  }

  lemma {:induction false} FireWaitsKeep(s: State, at: nat, tick: Clock, k: nat, early: int)
    requires Ticking(tick) && at <= k && Inv(s, tick(k)) && early <= tick(at) && AllAfter(s.order, early)
    ensures
      var t := FireWaits(s, at, tick, k);
      && k <= t.next && Inv(t.state, tick(t.next)) && AllAfter(t.state.order, early)
           && AllAfter(t.state.delayed, tick(at))
      && t.state.orphans == s.orphans
    decreases DueCount(s.delayed, tick(at))
  {
    if Due(s.delayed, tick(at)) {
      var s1 := FireDelayed(s, tick(k));
      FireDelayedDue(s, tick(k), tick(at));
      FireDelayedKeeps(s, tick(k));
      FireDelayedAfter(s, tick(k), early);
      InvLater(s1, tick(k), tick(k + 1));
      FireWaitsKeep(s1, at, tick, k + 1, early);
    } else {
      NotDue(s.delayed, s.markSeq, tick(k) + OVERLOADED_PEER_DELAY, tick(at));
    }
  }

  /** After a wake nothing pending was due when it began: the next deadline is none or later than its first reading. */
  lemma WakeSettles(s: State, clock: int, tick: Clock, d: int)
    requires Ticking(tick) && Inv(s, clock) && clock <= tick(0) && IsDeadline(Wake(s, tick), d)
    ensures exists n: nat :: Inv(Wake(s, tick), tick(n))
    ensures d == 0 || tick(0) < d
  {
    hide FireOrders, FireWaits, DueCount;
    var s1 := ExpireOrphans(s, tick(0));
    InvLater(s, clock, tick(2));
    assert Inv(s1, tick(2));
    FireOrdersKeep(s1, 1, tick, 2);
    var t := Timeouts(s1, tick, 1);
    InvLater(t.state, tick(t.next), tick(t.next + 1));
    FireWaitsKeep(t.state, t.next, tick, t.next + 1, tick(1));
    assert Inv(Wake(s, tick), tick(DelayedAsks(t.state, tick, t.next).next));
  }
}
