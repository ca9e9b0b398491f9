/**
What each operation of the relay does, said of the containers before and after it and in plain numbers: who
is listed, who is asked, when the request is looked at again, and that nothing else changes.
 */
module TxRelayMeaning {
  import opened Wrappers
  import opened TxRelayModel
  import opened TxRelayInvariant
  import opened TxRelaySteps
  import opened TxRelayRuns

  /** A peer that can be asked for more. */
  predicate CanTake(s: State, p: Peer) { p in s.peers && s.peers[p].inFlight < 100 }

  function Listed(s: State, id: TxId): seq<Peer> { if id in s.requests then s.requests[id].announcers else [] }

  function AskedFor(s: State, id: TxId): Option<Peer> { if id in s.requests then s.requests[id].requested else None }

  function StateOf(s: State, p: Peer): PeerState { if p in s.peers then s.peers[p] else PeerState(0, 0, []) }

  /** The request is looked at again at `time`, from one deque. */
  ghost predicate Pending(s: State, marks: seq<Mark>, id: TxId, time: int) {
    id in s.requests && Mark(time, id, s.requests[id].mark) in marks
  }

  ghost predicate SameMarks(s: State, s': State) { s'.order == s.order && s'.delayed == s.delayed }

  ghost predicate OtherPeersSame(s: State, s': State, p: Peer) {
    forall q :: q != p ==> (q in s'.peers <==> q in s.peers) && (q in s.peers ==> s'.peers[q] == s.peers[q])
  }

  // ---- marks ---------------------------------------------------------------------------------

  lemma PushedHas(requests: Requests, marks: seq<Mark>, m: Mark)
    requires IsLive(requests, m)
    ensures m in Pushed(requests, marks, m)
  {
    LiveOnlyIs(requests, marks + [m]);
    assert m in marks + [m];
  }

  /** `p` is asked at `now`: it has one more in flight and the id last in its batch, and sixty seconds. */
  ghost predicate AskedNow(s: State, s': State, id: TxId, p: Peer, now: int) {
    && p in s.peers && id in s.requests && OthersSame(s.requests, s'.requests, id) && s'.orphans == s.orphans
    && s'.peers == s.peers[p := PeerState(s.peers[p].inFlight + 1, s.peers[p].announced, s.peers[p].batch + [id])]
    && Pending(s', s'.order, id, now + 60) && s'.delayed == s.delayed
    && s'.requests[id].requested == Some(p) && s'.requests[id].announcers == s.requests[id].announcers
  }

  /** Nobody is asked now; the request is looked at again in two seconds. */
  ghost predicate PutOffNow(s: State, s': State, id: TxId, now: int) {
    && id in s.requests && OthersSame(s.requests, s'.requests, id) && s'.orphans == s.orphans && s'.peers == s.peers
    && Pending(s', s'.delayed, id, now + 2) && s'.order == s.order
    && s'.requests[id].requested == s.requests[id].requested
    && s'.requests[id].announcers == s.requests[id].announcers
  }

  lemma AskIs(s: State, id: TxId, p: Peer, now: int)
    requires id in s.requests && p in s.peers
    ensures AskedNow(s, Ask(s, id, p, now), id, p, now)
  {
    hide Pushed;
    PushedHas(Renumbered(Asked(s, id, p), id), s.order, Mark(now + 60, id, s.markSeq + 1));
  }

  lemma DelayIs(s: State, id: TxId, now: int)
    requires id in s.requests
    ensures PutOffNow(s, Delay(s, id, now), id, now)
  {
    hide Pushed;
    PushedHas(Renumbered(s, id), s.delayed, Mark(now + 2, id, s.markSeq + 1));
  }

  // ---- announce -------------------------------------------------------------------------------

  /** The announcement counts: the transaction is new, the peer has or gets state, is not listed and has room. */
  predicate Counts(s: State, p: Peer, gone: bool, known: bool, id: TxId) {
    !known && (p in s.peers || !gone) && StateOf(s, p).announced < 5000 && p !in Listed(s, id)
  }

  lemma IgnoredAnnouncement(s: State, p: Peer, gone: bool, known: bool, id: TxId, now: int)
    requires !Counts(s, p, gone, known, id)
    ensures
      var s' := Announce(s, p, gone, known, id, now);
      && s'.requests == s.requests && SameMarks(s, s') && s'.orphans == s.orphans && OtherPeersSame(s, s', p)
      && (known || gone || p in s.peers ==> s' == s)
      && (p in s'.peers ==> s'.peers[p] == StateOf(s, p))
  {
  }

  /** The peer is the last announcer, and nothing else is listed or counted. */
  ghost predicate ListedLast(s: State, s': State, p: Peer, id: TxId) {
    && id in s'.requests && s'.requests[id].announcers == Listed(s, id) + [p]
    && OthersSame(s.requests, s'.requests, id) && s'.orphans == s.orphans
    && OtherPeersSame(s, s', p) && p in s'.peers && s'.peers[p].announced == StateOf(s, p).announced + 1
  }

  lemma AnnouncedAndAsked(s: State, p: Peer, gone: bool, id: TxId, now: int)
    requires Counts(s, p, gone, false, id) && AskedFor(s, id).None? && StateOf(s, p).inFlight < 100
    ensures
      var s', was := Announce(s, p, gone, false, id, now), StateOf(s, p);
      && ListedLast(s, s', p, id)
      && s'.requests[id].requested == Some(p) && Pending(s', s'.order, id, now + 60) && s'.delayed == s.delayed
      && s'.peers[p].inFlight == was.inFlight + 1 && s'.peers[p].batch == was.batch + [id]
  {
    hide Ask, Delay;
    AskIs(Join(WithPeer(s, p, gone), id, p), id, p, now);
  }

  /** The peer's batch and what it owes are as before, and so is whoever is asked. */
  ghost predicate NobodyAsked(s: State, s': State, p: Peer, id: TxId) {
    && id in s'.requests && s'.requests[id].requested == AskedFor(s, id) && s'.order == s.order && p in s'.peers
    && s'.peers[p].inFlight == StateOf(s, p).inFlight && s'.peers[p].batch == StateOf(s, p).batch
  }

  lemma AnnouncedAndPutOff(s: State, p: Peer, gone: bool, id: TxId, now: int)
    requires Counts(s, p, gone, false, id) && AskedFor(s, id).None? && StateOf(s, p).inFlight >= 100
    requires Listed(s, id) == []
    ensures
      var s' := Announce(s, p, gone, false, id, now);
      ListedLast(s, s', p, id) && NobodyAsked(s, s', p, id) && Pending(s', s'.delayed, id, now + 2)
  {
    hide Ask, Delay;
    DelayIs(Join(WithPeer(s, p, gone), id, p), id, now);
  }

  lemma AnnouncedOnly(s: State, p: Peer, gone: bool, id: TxId, now: int)
    requires Counts(s, p, gone, false, id)
    requires AskedFor(s, id).Some? || (StateOf(s, p).inFlight >= 100 && Listed(s, id) != [])
    ensures
      var s' := Announce(s, p, gone, false, id, now);
      && ListedLast(s, s', p, id) && NobodyAsked(s, s', p, id) && s'.delayed == s.delayed
      && (id in s.requests ==> s'.requests[id].mark == s.requests[id].mark)
  {
    hide Ask, Delay;
  }

  /**
  An announcement that counts: the peer is listed last. If nobody is asked and it can take more, it is asked; if
  it cannot and is the only one listed, the request is put off; else whatever was pending stays.
   */
  lemma NewAnnouncement(s: State, p: Peer, gone: bool, known: bool, id: TxId, now: int)
    requires Counts(s, p, gone, known, id)
    ensures
      var s', was := Announce(s, p, gone, known, id, now), StateOf(s, p);
      && ListedLast(s, s', p, id)
      && if AskedFor(s, id).None? && was.inFlight < 100 then
           && s'.requests[id].requested == Some(p) && Pending(s', s'.order, id, now + 60) && s'.delayed == s.delayed
           && s'.peers[p].inFlight == was.inFlight + 1 && s'.peers[p].batch == was.batch + [id]
         else
           && NobodyAsked(s, s', p, id)
           && if AskedFor(s, id).None? && Listed(s, id) == [] then Pending(s', s'.delayed, id, now + 2)
              else s'.delayed == s.delayed && (id in s.requests ==> s'.requests[id].mark == s.requests[id].mark)
  {
    hide Announce, NobodyAsked, Pending;
    if AskedFor(s, id).None? && StateOf(s, p).inFlight < 100 {
      AnnouncedAndAsked(s, p, gone, id, now);
    } else if AskedFor(s, id).None? && Listed(s, id) == [] {
      AnnouncedAndPutOff(s, p, gone, id, now);
    } else {
      AnnouncedOnly(s, p, gone, id, now);
    }
  }

  // ---- requestNext ----------------------------------------------------------------------------

  lemma {:induction false} FirstFreeAt(peers: Peers, announcers: seq<Peer>, k: nat)
    requires k < |announcers| && Free(peers, announcers[k]) && forall j :: 0 <= j < k ==> !Free(peers, announcers[j])
    ensures FirstFree(peers, announcers) == Some(announcers[k])
  {
    if k > 0 {
      assert !Free(peers, announcers[0]);
      forall j | 0 <= j < k - 1 ensures !Free(peers, announcers[1..][j]) {
        assert announcers[1..][j] == announcers[j + 1];
      }
      FirstFreeAt(peers, announcers[1..], k - 1);
    }
  }

  /** The first listed peer that can take more is asked. */
  lemma AsksTheFirstFree(s: State, id: TxId, waited: bool, now: int, k: nat)
    requires id in s.requests && k < |Listed(s, id)| && CanTake(s, Listed(s, id)[k])
    requires forall j :: 0 <= j < k ==> !CanTake(s, Listed(s, id)[j])
    ensures AskedNow(s, AskNext(s, id, waited, now), id, Listed(s, id)[k], now)
  {
    hide Ask;
    forall j | 0 <= j < k ensures !Free(s.peers, s.requests[id].announcers[j]) {
      assert !CanTake(s, Listed(s, id)[j]);
    }
    FirstFreeAt(s.peers, s.requests[id].announcers, k);
    AskIs(s, id, Listed(s, id)[k], now);
  }

  /** None of them can: later, or the first all the same if the request has waited. */
  lemma AsksLater(s: State, id: TxId, waited: bool, now: int)
    requires id in s.requests && forall q :: q in Listed(s, id) ==> !CanTake(s, q)
    ensures
      var s', ps := AskNext(s, id, waited, now), Listed(s, id);
      && (ps == [] ==> s' == s)
      && (ps != [] && !waited ==> PutOffNow(s, s', id, now))
      && (ps != [] && waited && ps[0] in s.peers ==> AskedNow(s, s', id, ps[0], now))
  {
    hide Ask, Delay;
    var ps := s.requests[id].announcers;
    FirstFreeIs(s.peers, ps);
    assert FirstFree(s.peers, ps).Some? ==> CanTake(s, FirstFree(s.peers, ps).value);
    DelayIs(s, id, now);
    if ps != [] && ps[0] in s.peers {
      AskIs(s, id, ps[0], now);
    }
  }

  // ---- dropRequest ----------------------------------------------------------------------------

  lemma {:induction false} WithoutAt(announcers: seq<Peer>, k: nat)
    requires k < |announcers| && Once(announcers)
    ensures Without(announcers, announcers[k]) == announcers[..k] + announcers[k + 1..]
  {
    if k > 0 {
      assert announcers[0] != announcers[k];
      var rest := announcers[1..];
      WithoutAt(rest, k - 1);
      assert rest[..k - 1] + rest[k..] == announcers[1..k] + announcers[k + 1..];
    }
  }

  /** The peer's counts after it is taken off a request. */
  function Less(s: State, p: Peer, asked: bool): PeerState
    requires p in s.peers
  {
    PeerState(s.peers[p].inFlight - if asked then 1 else 0, s.peers[p].announced - 1, s.peers[p].batch)
  }

  /** A peer that is not listed cannot be taken off. */
  lemma DropsNothing(s: State, id: TxId, p: Peer, now: int)
    requires p !in Listed(s, id)
    ensures DropRequest(s, id, p, now) == s
  {
  }

  /** The last one listed: the request is over. */
  lemma DropsTheRequest(s: State, id: TxId, p: Peer, now: int)
    requires Inv(s, now) && Listed(s, id) == [p]
    ensures p in s.peers
    ensures DropRequest(s, id, p, now)
         == s.(requests := s.requests - {id}, peers := s.peers[p := Less(s, p, AskedFor(s, id) == Some(p))])
  {
    assert RequestOk(s.requests[id], s.peers, s.markSeq);
    assert Without([p], p) == [];
  }

  /** One of several, and not the one asked: it goes from the list, and that is all. */
  lemma DropsTheListing(s: State, id: TxId, p: Peer, now: int, k: nat)
    requires Inv(s, now) && k < |Listed(s, id)| && Listed(s, id)[k] == p && |Listed(s, id)| > 1
    requires AskedFor(s, id) != Some(p)
    ensures p in s.peers
    ensures
      var rest := Listed(s, id)[..k] + Listed(s, id)[k + 1..];
      DropRequest(s, id, p, now) == s.(requests := s.requests[id := s.requests[id].(announcers := rest)],
                                       peers := s.peers[p := Less(s, p, false)])
  {
    assert RequestOk(s.requests[id], s.peers, s.markSeq);
    WithoutAt(s.requests[id].announcers, k);
  }

  /** The one asked: it goes, and the first of the rest that can take more is asked, or the request is put off. */
  lemma DropsTheAsked(s: State, id: TxId, p: Peer, now: int, k: nat, n: nat)
    requires Inv(s, now) && k < |Listed(s, id)| && Listed(s, id)[k] == p && |Listed(s, id)| > 1
    requires AskedFor(s, id) == Some(p)
    requires
      var rest := Listed(s, id)[..k] + Listed(s, id)[k + 1..];
      && n <= |rest| && (forall j :: 0 <= j < n ==> !CanTake(s, rest[j])) && (n < |rest| ==> CanTake(s, rest[n]))
    ensures p in s.peers
    ensures
      var rest := Listed(s, id)[..k] + Listed(s, id)[k + 1..];
      var s1 := s.(requests := s.requests[id := Request(rest, None, s.requests[id].mark)],
                   peers := s.peers[p := Less(s, p, true)]);
      var s' := DropRequest(s, id, p, now);
      if n < |rest| then AskedNow(s1, s', id, rest[n], now) else PutOffNow(s1, s', id, now)
  {
    hide AskNext;
    assert RequestOk(s.requests[id], s.peers, s.markSeq);
    WithoutAt(s.requests[id].announcers, k);
    var rest := Listed(s, id)[..k] + Listed(s, id)[k + 1..];
    var s1 := s.(requests := s.requests[id := Request(rest, None, s.requests[id].mark)],
                 peers := s.peers[p := Less(s, p, true)]);
    assert Leave(s, id, p) == s1;
    NotInRest(Listed(s, id), k, p);
    assert forall j :: 0 <= j < |rest| ==> rest[j] != p && (CanTake(s1, rest[j]) <==> CanTake(s, rest[j]));
    if n < |rest| {
      AsksTheFirstFree(s1, id, false, now, n);
    } else {
      AsksLater(s1, id, false, now);
    }
  }

  lemma NotInRest(ps: seq<Peer>, k: nat, p: Peer)
    requires k < |ps| && ps[k] == p && Once(ps)
    ensures p !in ps[..k] + ps[k + 1..]
  {
  }

  // ---- forget ---------------------------------------------------------------------------------

  lemma {:induction false} ReleasedIs(peers: Peers, announcers: seq<Peer>, requested: Option<Peer>, q: Peer)
    requires Once(announcers)
    ensures
      var peers' := Released(peers, announcers, requested);
      && (q in peers' <==> q in peers)
      && (q in peers ==>
            peers'[q] == if q !in announcers then peers[q]
                         else PeerState(peers[q].inFlight - (if requested == Some(q) then 1 else 0),
                                        peers[q].announced - 1, peers[q].batch))
  {
    if announcers != [] {
      var init, last := announcers[..|announcers| - 1], announcers[|announcers| - 1];
      ReleasedIs(peers, init, requested, q);
      ReleasedIs(peers, init, requested, last);
      assert announcers == init + [last];
    }
  }

  /** A transaction that is known is asked of nobody any more, and everybody's counts say so. */
  lemma ForgetsTheRequest(s: State, id: TxId, clock: int, q: Peer)
    requires Inv(s, clock)
    ensures
      var s' := Forget(s, id);
      && s'.requests == s.requests - {id} && SameMarks(s, s') && s'.orphans == s.orphans
      && (q in s'.peers <==> q in s.peers)
      && (q in s.peers ==>
            s'.peers[q] == if q in Listed(s, id) then Less(s, q, AskedFor(s, id) == Some(q)) else s.peers[q])
  {
    if id in s.requests {
      assert RequestOk(s.requests[id], s.peers, s.markSeq);
      ReleasedIs(s.peers, s.requests[id].announcers, s.requests[id].requested, q);
    } else {
      assert s.requests - {id} == s.requests;
    }
  }

  // ---- orphans --------------------------------------------------------------------------------

  /** Exactly the orphans whose time has come go. */
  lemma ExpiresTheDue(s: State, now: int, x: TxId)
    ensures
      var s' := ExpireOrphans(s, now);
      && s' == s.(orphans := s'.orphans)
      && (x in s'.orphans <==> x in s.orphans && now < s.orphans[x].expire)
      && (x in s'.orphans ==> s'.orphans[x] == s.orphans[x])
  {
  }

  // ---- onPeerGone -----------------------------------------------------------------------------

  /** What becomes of a request when the peer is taken off it. */
  ghost predicate TakenOff(s: State, s': State, x: TxId, p: Peer) {
    if p !in Listed(s, x) then
      (x in s'.requests <==> x in s.requests) && (x in s.requests ==> s'.requests[x] == s.requests[x])
    else if Listed(s, x) == [p] then x !in s'.requests
    else
      && x in s'.requests
      && forall k :: 0 <= k < |Listed(s, x)| && Listed(s, x)[k] == p ==>
           s'.requests[x].announcers == Listed(s, x)[..k] + Listed(s, x)[k + 1..]
  }

  lemma DropTakesOff(s: State, id: TxId, p: Peer, now: int)
    requires Inv(s, now)
    ensures TakenOff(s, DropRequest(s, id, p, now), id, p)
    ensures DropRequest(s, id, p, now).orphans == s.orphans
  {
    if p in Listed(s, id) {
      assert RequestOk(s.requests[id], s.peers, s.markSeq);
      var k :| 0 <= k < |Listed(s, id)| && Listed(s, id)[k] == p;
      assert forall j :: 0 <= j < |Listed(s, id)| && Listed(s, id)[j] == p ==> j == k;
      if Listed(s, id) == [p] {
        DropsTheRequest(s, id, p, now);
      } else if AskedFor(s, id) != Some(p) {
        DropsTheListing(s, id, p, now, k);
      } else {
        DropAskedKeeps(s, id, p, now);
        var rest := Listed(s, id)[..k] + Listed(s, id)[k + 1..];
        var n := FirstTaker(s, rest);
        DropsTheAsked(s, id, p, now, k, n);
      }
    }
  }

  lemma {:induction false} FirstTaker(s: State, ps: seq<Peer>) returns (n: nat)
    ensures n <= |ps| && (forall j :: 0 <= j < n ==> !CanTake(s, ps[j])) && (n < |ps| ==> CanTake(s, ps[n]))
  {
    n := 0;
    while n < |ps| && !CanTake(s, ps[n])
      invariant n <= |ps| && forall j :: 0 <= j < n ==> !CanTake(s, ps[j])
    {
      n := n + 1;
    }
  }

  lemma {:induction false} DropAllTakesOff(s: State, ids: seq<TxId>, p: Peer, nows: seq<int>, clock: int, now: int,
        x: TxId)
    requires Inv(s, clock) && |nows| == |ids| && Readings(clock, nows, now) && Once(ids)
    ensures
      var s' := DropAll(s, ids, p, nows);
      && s'.orphans == s.orphans
      && if x in ids then TakenOff(s, s', x, p)
         else (x in s'.requests <==> x in s.requests) && (x in s.requests ==> s'.requests[x] == s.requests[x])
  {
    if ids != [] {
      var n := |ids| - 1;
      var init, last, at := ids[..n], ids[n], nows[n];
      assert ids == init + [last];
      var s1 := DropAll(s, init, p, nows[..n]);
      DropAllTakesOff(s, init, p, nows[..n], clock, at, x);
      DropAllTakesOff(s, init, p, nows[..n], clock, at, last);
      DropAllKeeps(s, init, p, nows[..n], clock, at);
      DropTakesOff(s1, last, p, at);
      DropRequestLocal(s1, last, p, at);
    }
  }

  /** A peer leaves every request it is listed in and no other request changes; its orphans go, the others stay. */
  lemma LeavesEverywhere(s: State, p: Peer, ids: seq<TxId>, nows: seq<int>, clock: int, now: int, x: TxId)
    requires Inv(s, clock) && Collected(s, p, ids) && |nows| == |ids| && Readings(clock, nows, now)
    ensures
      var s' := PeerGone(s, p, ids, nows);
      && TakenOff(s, s', x, p)
      && (x in s'.orphans <==> x in s.orphans && s.orphans[x].source != p)
      && (x in s'.orphans ==> s'.orphans[x] == s.orphans[x])
  {
    var s1 := WithoutOrphansOf(s, p);
    assert Inv(s1, clock);
    if p in s.peers {
      DropAllTakesOff(s1, ids, p, nows, clock, now, x);
    } else {
      StatelessAnnouncesNothing(s, p, clock);
    }
  }
}
