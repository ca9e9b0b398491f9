/** The relay as it runs: maps, deques and counters changed in place by every method. */
module TxRelay {
  import opened Wrappers
  import opened TxRelayModel
  import opened TxRelayInvariant
  import opened TxRelayRuns
  import opened TxRelayTheorems

  class CTxRelay {
    var requests: Requests
    var order: seq<Mark>
    var delayed: seq<Mark>
    var markSeq: nat
    var peers: Peers
    var orphans: map<TxId, Orphan>

    ghost function View(): State
      reads this
    {
      State(requests, order, delayed, markSeq, peers, orphans)
    }

    constructor ()
      ensures View() == EMPTY && Inv(View(), 0)
    {
      requests, order, delayed, markSeq, peers, orphans := map[], [], [], 0, map[], map[];
    }

    /** The `erase_if` of `mark`. */
    method Compact(marks: seq<Mark>) returns (kept: seq<Mark>)
      ensures kept == LiveOnly(requests, marks)
    {
      kept := [];
      for k := 0 to |marks|
        invariant kept == LiveOnly(requests, marks[..k])
      {
        assert marks[..k + 1][..k] == marks[..k];
        if marks[k].id in requests && requests[marks[k].id].mark == marks[k].number {
          kept := kept + [marks[k]];
        }
      }
      assert marks[..|marks|] == marks;
    }

    method PutOrder(id: TxId, time: int)
      requires id in requests
      modifies this
      ensures View() == MarkOrder(old(View()), id, time)
    {
      markSeq := markSeq + 1;
      requests := requests[id := requests[id].(mark := markSeq)];
      order := order + [Mark(time, id, markSeq)];
      if |order| > 2 * |requests| + MARKS_SLACK {
        order := Compact(order);
      }
    }

    method PutDelayed(id: TxId, time: int)
      requires id in requests
      modifies this
      ensures View() == MarkDelayed(old(View()), id, time)
    {
      markSeq := markSeq + 1;
      requests := requests[id := requests[id].(mark := markSeq)];
      delayed := delayed + [Mark(time, id, markSeq)];
      if |delayed| > 2 * |requests| + MARKS_SLACK {
        delayed := Compact(delayed);
      }
    }

    /** `request`. */
    method RequestFrom(id: TxId, p: Peer, now: int)
      requires id in requests && p in peers
      modifies this
      ensures View() == Ask(old(View()), id, p, now)
    {
      requests := requests[id := requests[id].(requested := Some(p))];
      PutOrder(id, now + REQUEST_TIMEOUT);
      peers := peers[p := peers[p].(inFlight := peers[p].inFlight + 1, batch := peers[p].batch + [id])];
    }

    /** `requestNext`: announcers have state. */
    method RequestNext(id: TxId, waited: bool, now: int)
      requires id in requests && forall p :: p in requests[id].announcers ==> p in peers
      modifies this
      ensures View() == AskNext(old(View()), id, waited, now)
    {
      var announcers := requests[id].announcers;
      for k := 0 to |announcers|
        invariant View() == old(View()) && FirstFree(peers, announcers) == FirstFree(peers, announcers[k..])
      {
        assert announcers[k..][1..] == announcers[k + 1..];
        if announcers[k] in peers && peers[announcers[k]].inFlight < MAX_PEER_REQUESTS_IN_FLIGHT {
          RequestFrom(id, announcers[k], now);
          return;
        }
      }
      if announcers == [] {
        return;
      }
      if waited {
        RequestFrom(id, announcers[0], now);
      } else {
        PutDelayed(id, now + OVERLOADED_PEER_DELAY);
      }
    }

    /** `peerState`: made on first use, and none for a peer that is gone. */
    method StateOf(p: Peer, gone: bool) returns (there: bool)
      modifies this
      ensures View() == WithPeer(old(View()), p, gone) && there == (p in peers)
    {
      if p !in peers && !gone {
        peers := peers[p := PeerState(0, 0, [])];
      }
      there := p in peers;
    }

    /** `announce`. */
    method OnAnnounce(p: Peer, gone: bool, known: bool, id: TxId, now: int)
      modifies this
      ensures View() == Announce(old(View()), p, gone, known, id, now)
    {
      if known {
        return;
      }
      var there := StateOf(p, gone);
      if !there || peers[p].announced >= MAX_PEER_ANNOUNCEMENTS {
        return;
      }
      var entry := if id in requests then requests[id] else Request([], None, 0);
      if p in entry.announcers {
        return;
      }
      entry := entry.(announcers := entry.announcers + [p]);
      requests := requests[id := entry];
      peers := peers[p := peers[p].(announced := peers[p].announced + 1)];
      if entry.requested.Some? {
        return;
      }
      if peers[p].inFlight < MAX_PEER_REQUESTS_IN_FLIGHT {
        RequestFrom(id, p, now);
      } else if |entry.announcers| == 1 {
        PutDelayed(id, now + OVERLOADED_PEER_DELAY);
      }
    }

    method Erase(announcers: seq<Peer>, p: Peer) returns (rest: seq<Peer>)
      ensures rest == Without(announcers, p)
      decreases announcers
    {
      if announcers == [] {
        return [];
      }
      if announcers[0] == p {
        return announcers[1..];
      }
      rest := Erase(announcers[1..], p);
      rest := [announcers[0]] + rest;
    }

    /** `dropRequest`: announcers have state. */
    method OnDrop(id: TxId, p: Peer, now: int)
      requires id in requests ==> forall q :: q in requests[id].announcers ==> q in peers
      requires id in requests ==> Once(requests[id].announcers)
      modifies this
      ensures View() == DropRequest(old(View()), id, p, now)
    {
      if id !in requests || p !in requests[id].announcers {
        return;
      }
      TxRelaySteps.WithoutIs(requests[id].announcers, p);
      var entry := requests[id];
      var rest := Erase(entry.announcers, p);
      entry := entry.(announcers := rest);
      peers := peers[p := peers[p].(announced := peers[p].announced - 1)];
      if entry.requested == Some(p) {
        peers := peers[p := peers[p].(inFlight := peers[p].inFlight - 1)];
        requests := requests[id := entry.(requested := None)];
        assert View() == Leave(old(View()), id, p);
        RequestNext(id, false, now);
      } else {
        requests := requests[id := entry];
        assert View() == Leave(old(View()), id, p);
      }
      if id in requests && requests[id].requested.None? && requests[id].announcers == [] {
        requests := requests - {id};
      }
    }

    /** `forget`. */
    method OnKnown(id: TxId)
      modifies this
      ensures View() == Forget(old(View()), id)
    {
      if id !in requests {
        return;
      }
      var entry := requests[id];
      for k := 0 to |entry.announcers|
        invariant View() == old(View()).(peers := Released(old(peers), entry.announcers[..k], entry.requested))
      {
        var p := entry.announcers[k];
        assert entry.announcers[..k + 1][..k] == entry.announcers[..k];
        if p in peers {
          var state := peers[p];
          state := state.(announced := state.announced - 1);
          if entry.requested == Some(p) {
            state := state.(inFlight := state.inFlight - 1);
          }
          peers := peers[p := state];
        }
      }
      assert entry.announcers[..|entry.announcers|] == entry.announcers;
      requests := requests - {id};
    }

    /** One turn of the loop of `timeouts`. */
    method FireFirst(now: int)
      requires Inv(View(), now) && order != []
      modifies this
      ensures View() == FireOrder(old(View()), now) && Inv(View(), now)
    {
      ghost var s := View();
      FireOrderKeeps(s, now);
      var item := order[0];
      order := order[1..];
      if item.id in requests && requests[item.id].mark == item.number && requests[item.id].requested.Some? {
        assert RequestOk(s.requests[item.id], s.peers, s.markSeq);
        OnDrop(item.id, requests[item.id].requested.value, now);
      }
    }

    /** `timeouts`: one reading of the clock to compare with, and one for every mark made. */
    method OnTimeouts(tick: Clock, at: nat) returns (next: nat)
      requires Ticking(tick) && Inv(View(), tick(at + 1))
      modifies this
      ensures Turn(View(), next) == Timeouts(old(View()), tick, at) && Inv(View(), tick(next))
    {
      hide Inv, FireOrder, DueCount;
      var now := tick(at);
      next := at + 1;
      while order != [] && order[0].time <= now
        invariant at < next && Inv(View(), tick(next))
        invariant FireOrders(View(), at, tick, next) == Timeouts(old(View()), tick, at)
        decreases DueCount(order, now)
      {
        FireOrderDue(View(), tick(next), now);
        FireFirst(tick(next));
        InvLater(View(), tick(next), tick(next + 1));
        next := next + 1;
      }
    }

    /** One turn of the loop of `delayed`. */
    method FireFirstDelayed(now: int)
      requires Inv(View(), now) && delayed != []
      modifies this
      ensures View() == FireDelayed(old(View()), now) && Inv(View(), now)
    {
      ghost var s := View();
      FireDelayedKeeps(s, now);
      var item := delayed[0];
      delayed := delayed[1..];
      if item.id in requests && requests[item.id].mark == item.number {
        assert RequestOk(s.requests[item.id], s.peers, s.markSeq);
        RequestNext(item.id, true, now);
      }
    }

    /** `delayed`. */
    method OnDelayed(tick: Clock, at: nat) returns (next: nat)
      requires Ticking(tick) && Inv(View(), tick(at + 1))
      modifies this
      ensures Turn(View(), next) == DelayedAsks(old(View()), tick, at) && Inv(View(), tick(next))
    {
      hide Inv, FireDelayed, DueCount;
      var now := tick(at);
      next := at + 1;
      while delayed != [] && delayed[0].time <= now
        invariant at < next && Inv(View(), tick(next))
        invariant FireWaits(View(), at, tick, next) == DelayedAsks(old(View()), tick, at)
        decreases DueCount(delayed, now)
      {
        FireDelayedDue(View(), tick(next), now);
        FireFirstDelayed(tick(next));
        InvLater(View(), tick(next), tick(next + 1));
        next := next + 1;
      }
    }

    method DropEach(ids: seq<TxId>, p: Peer, tick: Clock)
      requires Ticking(tick) && Inv(View(), tick(0))
      modifies this
      ensures View() == DropAll(old(View()), ids, p, Ticks(tick, |ids|))
    {
      ghost var s := View();
      for k := 0 to |ids|
        invariant View() == DropAll(s, ids[..k], p, Ticks(tick, k)) && Inv(View(), tick(k))
      {
        assert ids[..k + 1][..k] == ids[..k] && Ticks(tick, k + 1)[..k] == Ticks(tick, k);
        var id := ids[k];
        ghost var now1 := View();
        assert id in now1.requests ==> RequestOk(now1.requests[id], now1.peers, now1.markSeq);
        TxRelaySteps.DropRequestKeeps(now1, id, p, tick(k));
        OnDrop(id, p, tick(k));
        InvLater(View(), tick(k), tick(k + 1));
      }
      assert ids[..|ids|] == ids;
    }

    /** `onPeerGone`, the requests collected first. */
    method OnPeerGone(p: Peer, tick: Clock) returns (ids: seq<TxId>)
      requires Ticking(tick) && Inv(View(), tick(0))
      modifies this
      ensures Collected(old(View()), p, ids)
      ensures View() == PeerGone(old(View()), p, ids, Ticks(tick, |ids|)) && Inv(View(), tick(|ids|)) && p !in peers
    {
      ghost var s := View();
      orphans := map id | id in orphans && orphans[id].source != p :: orphans[id];
      assert View() == WithoutOrphansOf(s, p);
      if p !in peers {
        StatelessAnnouncesNothing(s, p, tick(0));
        return [];
      }
      ids := Collect(p);
      TicksAreReadings(tick, |ids|);
      PeerGoneKeeps(s, p, ids, Ticks(tick, |ids|), tick(0), tick(|ids|));
      assert Inv(View(), tick(0));
      DropEach(ids, p, tick);
      peers := peers - {p};
    }

    method Collect(p: Peer) returns (ids: seq<TxId>)
      ensures Collected(View(), p, ids)
    {
      ids := [];
      var rest := requests.Keys;
      while rest != {}
        invariant rest <= requests.Keys && Once(ids) && (forall id :: id in ids ==> id !in rest)
        invariant forall id :: id in ids <==> id in requests && id !in rest && p in requests[id].announcers
        decreases rest
      {
        Inhabited(rest);
        var id :| id in rest;
        rest := rest - {id};
        if p in requests[id].announcers {
          ids := ids + [id];
        }
      }
    }

    /** `deadline`. */
    method Deadline(ghost clock: int) returns (d: int)
      requires Inv(View(), clock)
      ensures IsDeadline(View(), d)
    {
      MarkDeadlineIs(View(), clock);
      d := if order == [] then 0 else order[0].time;
      if delayed != [] && (d == 0 || delayed[0].time < d) {
        d := delayed[0].time;
      }
      var rest := orphans.Keys;
      ghost var marks := d;
      while rest != {}
        invariant rest <= orphans.Keys && 0 <= d
        invariant d == 0 <==> marks == 0 && rest == orphans.Keys
        invariant marks != 0 ==> d <= marks
        invariant forall id :: id in orphans && id !in rest ==> d <= orphans[id].expire
        invariant d == marks || exists id :: id in orphans && orphans[id].expire == d
        decreases rest
      {
        Inhabited(rest);
        var id :| id in rest;
        rest := rest - {id};
        if d == 0 || orphans[id].expire < d {
          d := orphans[id].expire;
        }
      }
      assert orphans.Keys == {} <==> orphans == map[];
    }
  }

  lemma Inhabited(ids: set<TxId>)
    requires ids != {}
    ensures exists id :: id in ids
  {
    assert (forall id :: id !in ids) ==> ids == {};
  }

  /** The first readings of a clock. */
  function Ticks(tick: Clock, n: nat): (nows: seq<int>)
    ensures |nows| == n
  {
    seq(n, k requires 0 <= k < n => tick(k))
  }

  lemma TicksAreReadings(tick: Clock, n: nat)
    requires Ticking(tick)
    ensures Readings(tick(0), Ticks(tick, n), tick(n))
  {
  }
}
