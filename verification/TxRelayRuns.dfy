/** Whole runs of the relay: the invariant, how often a request can fire, and the wake-up time. */
module TxRelayRuns {
  import opened Wrappers
  import opened TxRelayModel
  import opened TxRelayInvariant
  import opened TxRelaySteps

  // ---- forget -----------------------------------------------------------------------------------

  lemma {:induction false} ReleasedAt(peers: Peers, announcers: seq<Peer>, requested: Option<Peer>)
    requires Once(announcers)
    ensures Released(peers, announcers, requested).Keys == peers.Keys
    ensures forall p :: p in peers ==>
              var q := Released(peers, announcers, requested)[p];
              && q.announced == peers[p].announced - (if p in announcers then 1 else 0)
              && q.inFlight == peers[p].inFlight - (if p in announcers && requested == Some(p) then 1 else 0)
  {
    if announcers != [] {
      var init, last := announcers[..|announcers| - 1], announcers[|announcers| - 1];
      assert announcers == init + [last];
      assert last !in init;
      ReleasedAt(peers, init, requested);
    }
  }

  lemma ForgetKeeps(s: State, id: TxId, now: int)
    requires Inv(s, now)
    ensures Inv(Forget(s, id), now) && id !in Forget(s, id).requests
  {
    if id in s.requests {
      var s', r := Forget(s, id), s.requests[id];
      assert RequestOk(r, s.peers, s.markSeq);
      ReleasedAt(s.peers, r.announcers, r.requested);
      forall q | q in s'.peers ensures CountOk(s'.requests, s'.peers[q], q) {
        assert CountOk(s.requests, s.peers[q], q);
        CountGoes(s.requests, id, q);
      }
      forall x | x in s'.requests ensures RequestOk(s'.requests[x], s'.peers, s'.markSeq)
          && Placed(s'.requests[x], x, s.order, s.delayed) {
        assert RequestOk(s.requests[x], s.peers, s.markSeq) && Placed(s.requests[x], x, s.order, s.delayed);
      }
    }
  }

  // ---- marks firing --------------------------------------------------------------------------------

  lemma PopOk(marks: seq<Mark>, top: nat, latest: int)
    requires marks != [] && DequeOk(marks, top, latest)
    ensures DequeOk(marks[1..], top, latest) && marks[0] !in marks[1..]
    ensures forall m :: m in marks <==> m == marks[0] || m in marks[1..]
  {
    assert marks == [marks[0]] + marks[1..];
  }

  /** Taking the front mark off leaves every other request's mark where it is. */
  lemma PopOrderKeeps(s: State, now: int)
    requires Inv(s, now) && s.order != []
    ensures var s1, m := s.(order := s.order[1..]), s.order[0];
            && InvBut(s1, now, Some(m.id)) && (!IsLive(s.requests, m) ==> Inv(s1, now))
            && (IsLive(s.requests, m) ==> s.requests[m.id].requested.Some?)
  {
    var s1, front := s.(order := s.order[1..]), s.order[0];
    PopOk(s.order, s.markSeq, now + REQUEST_TIMEOUT);
    forall x | x in s.requests && !(x == front.id && IsLive(s.requests, front))
        ensures Placed(s.requests[x], x, s1.order, s.delayed) {
      assert Placed(s.requests[x], x, s.order, s.delayed);
      if s.requests[x].requested.Some? {
        var m :| m in s.order && m.id == x && m.number == s.requests[x].mark;
        assert m in s1.order;
      }
    }
    assert front.id in s.requests ==> Placed(s.requests[front.id], front.id, s.order, s.delayed);
  }

  lemma PopDelayedKeeps(s: State, now: int)
    requires Inv(s, now) && s.delayed != []
    ensures var s1, m := s.(delayed := s.delayed[1..]), s.delayed[0];
            && InvBut(s1, now, Some(m.id)) && (!IsLive(s.requests, m) ==> Inv(s1, now))
            && (IsLive(s.requests, m) ==> s.requests[m.id].requested.None? && s.requests[m.id].announcers != [])
  {
    var s1, front := s.(delayed := s.delayed[1..]), s.delayed[0];
    PopOk(s.delayed, s.markSeq, now + OVERLOADED_PEER_DELAY);
    forall x | x in s.requests && !(x == front.id && IsLive(s.requests, front))
        ensures Placed(s.requests[x], x, s.order, s1.delayed) {
      assert Placed(s.requests[x], x, s.order, s.delayed);
      if s.requests[x].requested.None? {
        var m :| m in s.delayed && m.id == x && m.number == s.requests[x].mark;
        assert m in s1.delayed;
      }
    }
    assert front.id in s.requests ==> Placed(s.requests[front.id], front.id, s.order, s.delayed);
  }

  lemma FireOrderKeeps(s: State, now: int)
    requires Inv(s, now) && s.order != []
    ensures Inv(FireOrder(s, now), now)
  {
    PopOrderKeeps(s, now);
    var m := s.order[0];
    if IsLive(s.requests, m) {
      DropAskedKeeps(s.(order := s.order[1..]), m.id, s.requests[m.id].requested.value, now);
    }
  }

  lemma FireDelayedKeeps(s: State, now: int)
    requires Inv(s, now) && s.delayed != []
    ensures Inv(FireDelayed(s, now), now)
  {
    PopDelayedKeeps(s, now);
    var m := s.delayed[0];
    if IsLive(s.requests, m) {
      AskNextKeeps(s.(delayed := s.delayed[1..]), m.id, true, now);
    }
  }

  // ---- a peer goes -------------------------------------------------------------------------------------

  /** An operation on one request leaves the others as they are. */
  ghost predicate OthersSame(requests: Requests, requests': Requests, id: TxId) {
    forall x :: x != id ==> (x in requests <==> x in requests') && (x in requests ==> requests'[x] == requests[x])
  }

  lemma DropRequestLocal(s: State, id: TxId, p: Peer, now: int)
    ensures OthersSame(s.requests, DropRequest(s, id, p, now).requests, id)
  {
    hide Pushed, FirstFree, Without;
  }

  /** Readings of a clock that never goes back, from one time to another. */
  ghost predicate Readings(clock: int, nows: seq<int>, now: int) {
    && clock <= now && (forall k :: 0 <= k < |nows| ==> clock <= nows[k] <= now)
    && (forall k, k' :: 0 <= k < k' < |nows| ==> nows[k] <= nows[k'])
  }

  lemma {:induction false} DropAllKeeps(s: State, ids: seq<TxId>, p: Peer, nows: seq<int>, clock: int, now: int)
    requires Inv(s, clock) && |nows| == |ids| && Readings(clock, nows, now)
    ensures Inv(DropAll(s, ids, p, nows), now)
    ensures forall x :: x in ids && x in DropAll(s, ids, p, nows).requests ==>
        p !in DropAll(s, ids, p, nows).requests[x].announcers
    ensures forall x :: x !in ids && x in DropAll(s, ids, p, nows).requests ==>
        x in s.requests && DropAll(s, ids, p, nows).requests[x] == s.requests[x]
  {
    if ids == [] {
      InvLater(s, clock, now);
    } else {
      var n := |ids| - 1;
      var init, last, at := ids[..n], ids[n], nows[n];
      assert ids == init + [last];
      DropAllKeeps(s, init, p, nows[..n], clock, at);
      var s1 := DropAll(s, init, p, nows[..n]);
      DropRequestKeeps(s1, last, p, at);
      DropRequestLocal(s1, last, p, at);
      InvLater(DropRequest(s1, last, p, at), at, now);
    }
  }

  /** The ids `onPeerGone` collects: the requests the peer announced, each once. */
  ghost predicate Collected(s: State, p: Peer, ids: seq<TxId>) {
    Once(ids) && forall id :: id in ids <==> id in s.requests && p in s.requests[id].announcers
  }

  lemma PeerErased(s: State, p: Peer, now: int)
    requires Inv(s, now) && forall id :: id in s.requests ==> p !in s.requests[id].announcers
    ensures Inv(s.(peers := s.peers - {p}), now)
  {
    forall x | x in s.requests ensures RequestOk(s.requests[x], s.peers - {p}, s.markSeq) {
      assert RequestOk(s.requests[x], s.peers, s.markSeq);
    }
  }

  /** A peer without state announces nothing. */
  lemma StatelessAnnouncesNothing(s: State, p: Peer, clock: int)
    requires Inv(s, clock) && p !in s.peers
    ensures forall id :: id in s.requests ==> p !in s.requests[id].announcers
  {
    forall x | x in s.requests ensures p !in s.requests[x].announcers {
      assert RequestOk(s.requests[x], s.peers, s.markSeq);
    }
  }

  lemma PeerGoneKeeps(s: State, p: Peer, ids: seq<TxId>, nows: seq<int>, clock: int, now: int)
    requires Inv(s, clock) && Collected(s, p, ids) && |nows| == |ids| && Readings(clock, nows, now)
    ensures Inv(PeerGone(s, p, ids, nows), now) && p !in PeerGone(s, p, ids, nows).peers
    ensures forall id :: id in PeerGone(s, p, ids, nows).requests ==>
        p !in PeerGone(s, p, ids, nows).requests[id].announcers
  {
    var s1 := WithoutOrphansOf(s, p);
    assert Inv(s1, clock);
    InvLater(s1, clock, now);
    if p in s.peers {
      DropAllKeeps(s1, ids, p, nows, clock, now);
      PeerErased(DropAll(s1, ids, p, nows), p, now);
    } else {
      StatelessAnnouncesNothing(s, p, clock);
    }
  }

  // ---- runs --------------------------------------------------------------------------------------------------

  datatype Step =
    | Announced(peer: Peer, gone: bool, known: bool, id: TxId)
    | NotFound(id: TxId, peer: Peer)
    | Known(id: TxId)
    | Gone(peer: Peer, ids: seq<TxId>, nows: seq<int>)
    | Timeout(seen: int)
    | Waited(seen: int)
    | OrphanKept(id: TxId, source: Peer, expire: int)
    | OrphanGone(id: TxId)

  /**
  One step of the writer thread, over by `now`. The loops that fire marks compare with a reading taken
  before they started; a leaving peer's requests are dropped each at a reading of its own.
   */
  function Next(s: State, step: Step, now: int): State
    requires step.Gone? ==> |step.nows| == |step.ids|
  {
    match step
    case Announced(p, gone, known, id) => Announce(s, p, gone, known, id, now)
    case NotFound(id, p) => DropRequest(s, id, p, now)
    case Known(id) => Forget(s, id)
    case Gone(p, ids, nows) => PeerGone(s, p, ids, nows)
    case Timeout(seen) => if Due(s.order, seen) then FireOrder(s, now) else s
    case Waited(seen) => if Due(s.delayed, seen) then FireDelayed(s, now) else s
    case OrphanKept(id, source, expire) => s.(orphans := s.orphans[id := Orphan(source, expire)])
    case OrphanGone(id) => s.(orphans := s.orphans - {id})
  }

  /** What the surrounding code sees to: a leaving peer's requests are all collected, lifetimes end in the future. */
  ghost predicate Allowed(s: State, step: Step, clock: int, now: int) {
    && clock <= now
    && (step.Gone? ==>
         Collected(s, step.peer, step.ids) && |step.nows| == |step.ids| && Readings(clock, step.nows, now))
    && (step.Timeout? || step.Waited? ==> step.seen <= now)
    && (step.OrphanKept? ==> 0 < step.expire)
  }

  lemma NextKeeps(s: State, step: Step, clock: int, now: int)
    requires Inv(s, clock) && Allowed(s, step, clock, now)
    ensures Inv(Next(s, step, now), now)
  {
    InvLater(s, clock, now);
    match step
    case Announced(p, gone, known, id) => AnnounceKeeps(s, p, gone, known, id, now);
    case NotFound(id, p) => DropRequestKeeps(s, id, p, now);
    case Known(id) => ForgetKeeps(s, id, now);
    case Gone(p, ids, nows) => PeerGoneKeeps(s, p, ids, nows, clock, now);
    case Timeout(seen) => if Due(s.order, seen) { FireOrderKeeps(s, now); }
    case Waited(seen) => if Due(s.delayed, seen) { FireDelayedKeeps(s, now); }
    case OrphanKept(id, source, expire) =>
    case OrphanGone(id) =>
  }

  /** A run from the empty relay: each step with its reading of a clock that never goes back. */
  ghost predicate Run(steps: seq<Step>, clocks: seq<int>, states: seq<State>) {
    && |clocks| == |steps| && |states| == |steps| + 1 && states[0] == EMPTY
    && (forall k :: 0 <= k < |clocks| ==> 0 <= clocks[k])
         && (forall k, k' :: 0 <= k < k' < |clocks| ==> clocks[k] <= clocks[k'])
    && (forall k :: 0 <= k < |steps| ==>
         Allowed(states[k], steps[k], ClockAt(clocks, k), clocks[k])
         && states[k + 1] == Next(states[k], steps[k], clocks[k]))
  }

  function ClockAt(clocks: seq<int>, n: nat): int { if 0 < n <= |clocks| then clocks[n - 1] else 0 }

  /** Every state of every run satisfies the invariant. */
  lemma {:induction false} RunKeeps(steps: seq<Step>, clocks: seq<int>, states: seq<State>, n: nat)
    requires Run(steps, clocks, states) && n <= |steps|
    ensures Inv(states[n], ClockAt(clocks, n))
  {
    if n > 0 {
      RunKeeps(steps, clocks, states, n - 1);
      assert states[n - 1 + 1] == Next(states[n - 1], steps[n - 1], clocks[n - 1]);
      NextKeeps(states[n - 1], steps[n - 1], ClockAt(clocks, n - 1), clocks[n - 1]);
    }
  }
}
