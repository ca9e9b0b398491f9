/** Every operation of the relay keeps the invariant. */
module TxRelaySteps {
  import opened Wrappers
  import opened TxRelayModel
  import opened TxRelayInvariant

  // ---- an announcer joins ---------------------------------------------------------------------

  lemma JoinCounts(s: State, id: TxId, p: Peer)
    requires p in s.peers && CountsOk(s.requests, s.peers) && p !in EntryOf(s, id).announcers
        && s.peers[p].announced < MAX_PEER_ANNOUNCEMENTS
    ensures CountsOk(Join(s, id, p).requests, Join(s, id, p).peers)
  {
    var s' := Join(s, id, p);
    forall q | q in s'.peers ensures CountOk(s'.requests, s'.peers[q], q) {
      assert CountOk(s.requests, s.peers[q], q);
      CountMoves(s.requests, id, s'.requests[id], q);
    }
  }

  lemma JoinKeeps(s: State, id: TxId, p: Peer, now: int)
    requires Inv(s, now) && p in s.peers && p !in EntryOf(s, id).announcers
        && s.peers[p].announced < MAX_PEER_ANNOUNCEMENTS
    ensures InvBut(Join(s, id, p), now, Some(id))
    ensures id in s.requests ==> Inv(Join(s, id, p), now)
  {
    var s' := Join(s, id, p);
    JoinCounts(s, id, p);
    assert id in s.requests ==>
        RequestOk(s.requests[id], s.peers, s.markSeq) && Placed(s.requests[id], id, s.order, s.delayed);
    forall x | x in s'.requests ensures RequestOk(s'.requests[x], s'.peers, s'.markSeq) {
      assert x != id ==> RequestOk(s.requests[x], s.peers, s.markSeq);
    }
    StillPlaced(s.requests, id, s'.requests[id], s.order, s.delayed);
  }

  // ---- a peer is asked ----------------------------------------------------------------------------

  function Asked(s: State, id: TxId, p: Peer): State
    requires id in s.requests && p in s.peers
  {
    s.(requests := s.requests[id := s.requests[id].(requested := Some(p))],
       peers := s.peers[p := s.peers[p].(inFlight := s.peers[p].inFlight + 1, batch := s.peers[p].batch + [id])])
  }

  lemma AskedCounts(s: State, id: TxId, p: Peer)
    requires id in s.requests && p in s.peers && s.requests[id].requested.None? && CountsOk(s.requests, s.peers)
    ensures CountsOk(Asked(s, id, p).requests, Asked(s, id, p).peers)
  {
    var s' := Asked(s, id, p);
    forall q | q in s'.peers ensures CountOk(s'.requests, s'.peers[q], q) {
      assert CountOk(s.requests, s.peers[q], q);
      CountMoves(s.requests, id, s'.requests[id], q);
    }
  }

  lemma AskedKeeps(s: State, id: TxId, p: Peer, now: int)
    requires id in s.requests && InvBut(s, now, Some(id)) && s.requests[id].requested.None?
        && p in s.requests[id].announcers && p in s.peers
    ensures InvBut(Asked(s, id, p), now, Some(id))
  {
    var s' := Asked(s, id, p);
    AskedCounts(s, id, p);
    forall x | x in s'.requests ensures RequestOk(s'.requests[x], s'.peers, s'.markSeq) {
      assert RequestOk(s.requests[x], s.peers, s.markSeq);
    }
    StillPlaced(s.requests, id, s'.requests[id], s.order, s.delayed);
  }

  lemma AskKeeps(s: State, id: TxId, p: Peer, now: int)
    requires id in s.requests && InvBut(s, now, Some(id)) && s.requests[id].requested.None?
        && p in s.requests[id].announcers
    ensures p in s.peers && Inv(Ask(s, id, p, now), now)
    ensures |Ask(s, id, p, now).order| <= 2 * |Ask(s, id, p, now).requests| + MARKS_SLACK
    ensures id in Ask(s, id, p, now).requests && Ask(s, id, p, now).requests[id].announcers == s.requests[id].announcers
    ensures Ask(s, id, p, now).requests[id].requested == Some(p)
  {
    assert RequestOk(s.requests[id], s.peers, s.markSeq);
    AskedKeeps(s, id, p, now);
    MarkOrderKeeps(Asked(s, id, p), id, now);
  }

  lemma {:induction false} FirstFreeIs(peers: Peers, announcers: seq<Peer>)
    ensures FirstFree(peers, announcers).Some? ==>
        FirstFree(peers, announcers).value in announcers && Free(peers, FirstFree(peers, announcers).value)
    ensures FirstFree(peers, announcers).None? ==> forall p :: p in announcers ==> !Free(peers, p)
  {
    if announcers != [] {
      FirstFreeIs(peers, announcers[1..]);
      assert announcers == [announcers[0]] + announcers[1..];
    }
  }

  /** Whoever is left is asked, or asked later: the request has its mark again. */
  lemma AskNextKeeps(s: State, id: TxId, waited: bool, now: int)
    requires id in s.requests && InvBut(s, now, Some(id)) && s.requests[id].requested.None?
        && s.requests[id].announcers != []
    ensures Inv(AskNext(s, id, waited, now), now)
    ensures var s' := AskNext(s, id, waited, now);
            && id in s'.requests && s'.requests[id].announcers == s.requests[id].announcers
            && (waited ==> s'.requests[id].requested.Some?)
  {
    FirstFreeIs(s.peers, s.requests[id].announcers);
    match FirstFree(s.peers, s.requests[id].announcers)
    case Some(p) => AskKeeps(s, id, p, now);
    case None =>
      if waited {
        AskKeeps(s, id, s.requests[id].announcers[0], now);
      } else {
        MarkDelayedKeeps(s, id, now);
      }
  }

  lemma WithPeerKeeps(s: State, p: Peer, gone: bool, now: int)
    requires Inv(s, now)
    ensures Inv(WithPeer(s, p, gone), now)
  {
    var s' := WithPeer(s, p, gone);
    forall x | x in s'.requests ensures RequestOk(s'.requests[x], s'.peers, s'.markSeq) {
      assert RequestOk(s.requests[x], s.peers, s.markSeq);
    }
    forall q | q in s'.peers ensures CountOk(s'.requests, s'.peers[q], q) {
      if q in s.peers {
        assert CountOk(s.requests, s.peers[q], q);
      } else {
        assert AnnouncedBy(s.requests, q) == {} && AskedOf(s.requests, q) == {} by {
          assert forall x :: x in s.requests ==> RequestOk(s.requests[x], s.peers, s.markSeq);
        }
      }
    }
  }

  lemma AnnounceKeeps(s: State, p: Peer, gone: bool, known: bool, id: TxId, now: int)
    requires Inv(s, now)
    ensures Inv(Announce(s, p, gone, known, id, now), now)
  {
    hide Ask, MarkDelayed, CountsOk, RequestsOk, DequeOk;
    var s1 := WithPeer(s, p, gone);
    WithPeerKeeps(s, p, gone, now);
    if !known && p in s1.peers && s1.peers[p].announced < MAX_PEER_ANNOUNCEMENTS && p !in EntryOf(s1, id).announcers {
      var s2 := Join(s1, id, p);
      JoinKeeps(s1, id, p, now);
      assert id in s1.requests ==> Placed(s1.requests[id], id, s1.order, s1.delayed);
      if s2.requests[id].requested.None? {
        if s2.peers[p].inFlight < MAX_PEER_REQUESTS_IN_FLIGHT {
          AskKeeps(s2, id, p, now);
        } else if |s2.requests[id].announcers| == 1 {
          MarkDelayedKeeps(s2, id, now);
        }
      }
    }
  }

  // ---- an announcer leaves -----------------------------------------------------------------------------

  lemma {:induction false} WithoutIs(announcers: seq<Peer>, p: Peer)
    requires Once(announcers)
    ensures Once(Without(announcers, p)) && forall q :: q in Without(announcers, p) <==> q in announcers && q != p
    ensures |Without(announcers, p)| == |announcers| - (if p in announcers then 1 else 0)
  {
    if announcers != [] {
      var rest := announcers[1..];
      WithoutIs(rest, p);
      assert announcers == [announcers[0]] + rest;
      assert announcers[0] !in rest;
    }
  }

  lemma LeaveCounts(s: State, id: TxId, p: Peer)
    requires id in s.requests && CountsOk(s.requests, s.peers) && RequestOk(s.requests[id], s.peers, s.markSeq)
        && p in s.requests[id].announcers
    ensures CountsOk(Leave(s, id, p).requests, Leave(s, id, p).peers)
  {
    var s' := Leave(s, id, p);
    WithoutIs(s.requests[id].announcers, p);
    forall q | q in s'.peers ensures CountOk(s'.requests, s'.peers[q], q) {
      assert CountOk(s.requests, s.peers[q], q);
      CountMoves(s.requests, id, s'.requests[id], q);
    }
  }

  lemma LeaveKeeps(s: State, id: TxId, p: Peer, now: int)
    requires id in s.requests && InvBut(s, now, Some(id)) && p in s.requests[id].announcers
    ensures InvBut(Leave(s, id, p), now, Some(id))
    ensures |Leave(s, id, p).requests[id].announcers| == |s.requests[id].announcers| - 1
        && p !in Leave(s, id, p).requests[id].announcers
  {
    var s' := Leave(s, id, p);
    assert RequestOk(s.requests[id], s.peers, s.markSeq);
    WithoutIs(s.requests[id].announcers, p);
    LeaveCounts(s, id, p);
    var r' := s'.requests[id];
    assert r'.requested.Some? ==> r'.requested == s.requests[id].requested && r'.requested.value != p;
    forall x | x in s'.requests ensures RequestOk(s'.requests[x], s'.peers, s'.markSeq) {
      assert RequestOk(s.requests[x], s.peers, s.markSeq);
    }
    StillPlaced(s.requests, id, s'.requests[id], s.order, s.delayed);
  }

  lemma SweptKeeps(s: State, id: TxId, now: int)
    requires id in s.requests && InvBut(s, now, Some(id)) && s.requests[id].requested.None?
        && s.requests[id].announcers == []
    ensures Inv(Swept(s, id), now)
  {
    var requests' := s.requests - {id};
    forall q | q in s.peers ensures CountOk(requests', s.peers[q], q) {
      assert CountOk(s.requests, s.peers[q], q);
      CountGoes(s.requests, id, q);
    }
    forall x | x in requests' ensures Placed(requests'[x], x, s.order, s.delayed) {
      assert Placed(s.requests[x], x, s.order, s.delayed);
    }
  }

  /** The one asked will not deliver; its mark may be gone already. */
  lemma DropAskedKeeps(s: State, id: TxId, p: Peer, now: int)
    requires id in s.requests && InvBut(s, now, Some(id)) && s.requests[id].requested == Some(p)
    ensures Inv(DropRequest(s, id, p, now), now)
    ensures var s' := DropRequest(s, id, p, now);
            id in s'.requests ==>
                |s'.requests[id].announcers| == |s.requests[id].announcers| - 1 && p !in s'.requests[id].announcers
  {
    assert RequestOk(s.requests[id], s.peers, s.markSeq);
    var s1 := Leave(s, id, p);
    LeaveKeeps(s, id, p, now);
    if s1.requests[id].announcers == [] {
      SweptKeeps(s1, id, now);
    } else {
      AskNextKeeps(s1, id, false, now);
    }
  }

  /** An announcer nobody is waiting for leaves. */
  lemma DropOtherKeeps(s: State, id: TxId, p: Peer, now: int)
    requires id in s.requests && Inv(s, now) && s.requests[id].requested != Some(p) && p in s.requests[id].announcers
    ensures Inv(DropRequest(s, id, p, now), now)
    ensures var s' := DropRequest(s, id, p, now);
            id in s'.requests ==>
                |s'.requests[id].announcers| == |s.requests[id].announcers| - 1 && p !in s'.requests[id].announcers
  {
    var r := s.requests[id];
    assert RequestOk(r, s.peers, s.markSeq) && Placed(r, id, s.order, s.delayed);
    WithoutIs(r.announcers, p);
    var s1 := Leave(s, id, p);
    LeaveKeeps(s, id, p, now);
    if s1.requests[id].announcers == [] {
      SweptKeeps(s1, id, now);
    }
  }

  lemma DropRequestKeeps(s: State, id: TxId, p: Peer, now: int)
    requires Inv(s, now)
    ensures Inv(DropRequest(s, id, p, now), now)
    ensures var s' := DropRequest(s, id, p, now); id in s'.requests ==> p !in s'.requests[id].announcers
  {
    if id in s.requests && p in s.requests[id].announcers {
      if s.requests[id].requested == Some(p) {
        DropAskedKeeps(s, id, p, now);
      } else {
        DropOtherKeeps(s, id, p, now);
      }
    }
  }
}
