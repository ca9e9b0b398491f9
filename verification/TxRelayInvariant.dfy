/** What holds between any two operations of the relay, and the small steps operations are made of. */
module TxRelayInvariant {
  import opened Wrappers
  import opened TxRelayModel

  // ---- marks ----------------------------------------------------------------------------

  /** Numbers rise along a deque and times never fall; nothing fires after `latest`. */
  ghost predicate DequeOk(marks: seq<Mark>, top: nat, latest: int) {
    && (forall k, k' :: 0 <= k < k' < |marks| ==> marks[k].number < marks[k'].number && marks[k].time <= marks[k'].time)
    && (forall k :: 0 <= k < |marks| ==> marks[k].number <= top && 0 < marks[k].time <= latest)
  }

  ghost predicate HasMark(marks: seq<Mark>, id: TxId, number: nat) {
    exists m :: m in marks && m.id == id && m.number == number
  }

  ghost predicate NoMark(marks: seq<Mark>, number: nat) { forall m :: m in marks ==> m.number != number }

  lemma {:induction false} LiveOnlyIs(requests: Requests, marks: seq<Mark>)
    ensures forall m :: m in LiveOnly(requests, marks) <==> m in marks && IsLive(requests, m)
  {
    if marks != [] {
      var init, last := marks[..|marks| - 1], marks[|marks| - 1];
      LiveOnlyIs(requests, init);
      assert marks == init + [last];
    }
  }

  lemma {:induction false} LiveOnlyOk(requests: Requests, marks: seq<Mark>, top: nat, latest: int)
    requires DequeOk(marks, top, latest)
    ensures DequeOk(LiveOnly(requests, marks), top, latest)
  {
    if marks != [] {
      var init, last := marks[..|marks| - 1], marks[|marks| - 1];
      LiveOnlyOk(requests, init, top, latest);
      LiveOnlyIs(requests, init);
      forall k | 0 <= k < |LiveOnly(requests, init)| ensures LiveOnly(requests, init)[k] in init {
        assert LiveOnly(requests, init)[k] in LiveOnly(requests, init);
      }
    }
  }

  lemma HasMarkMore(init: seq<Mark>, last: Mark, id: TxId, number: nat)
    requires HasMark(init, id, number) || (last.id == id && last.number == number)
    ensures HasMark(init + [last], id, number)
  {
    if HasMark(init, id, number) {
      var m :| m in init && m.id == id && m.number == number;
      assert m in init + [last];
    } else {
      assert last in init + [last];
    }
  }

  lemma LastIsNew(init: seq<Mark>, last: Mark, top: nat, latest: int)
    requires DequeOk(init + [last], top, latest)
    ensures DequeOk(init, top, latest) && !HasMark(init, last.id, last.number)
  {
    var marks := init + [last];
    assert forall k :: 0 <= k < |init| ==> marks[k] == init[k];
    forall m | m in init ensures m.number < last.number {
      var k :| 0 <= k < |init| && init[k] == m;
      assert marks[k].number < marks[|init|].number;
    }
  }

  /** Live marks of one deque name different requests, so there are no more of them than requests. */
  lemma {:induction false} LiveOnlyShort(requests: Requests, marks: seq<Mark>, top: nat, latest: int)
        returns (ids: set<TxId>)
    requires DequeOk(marks, top, latest)
    ensures |LiveOnly(requests, marks)| == |ids| && ids <= requests.Keys
    ensures forall id :: id in ids ==> HasMark(marks, id, requests[id].mark)
  {
    hide DequeOk, HasMark;
    ids := {};
    if marks != [] {
      var init, last := marks[..|marks| - 1], marks[|marks| - 1];
      assert marks == init + [last];
      LastIsNew(init, last, top, latest);
      ids := LiveOnlyShort(requests, init, top, latest);
      if IsLive(requests, last) {
        ids := ids + {last.id};
      }
      forall id | id in ids ensures HasMark(marks, id, requests[id].mark) {
        HasMarkMore(init, last, id, requests[id].mark);
      }
    }
  }

  lemma Subset(a: set<TxId>, b: set<TxId>)
    requires a <= b
    ensures |a| <= |b|
  {
    assert b == a + (b - a);
  }

  /** A deque right after `mark`: in order, with every live mark it had and the new one, and not long. */
  lemma PushedOk(requests: Requests, marks: seq<Mark>, m: Mark, latest: int)
    requires m.number > 0 && DequeOk(marks, m.number - 1, latest) && latest <= m.time && 0 < m.time
    ensures DequeOk(Pushed(requests, marks, m), m.number, m.time)
    ensures forall x :: x in Pushed(requests, marks, m) ==> x in marks || x == m
    ensures forall x :: (x in marks || x == m) && IsLive(requests, x) ==> x in Pushed(requests, marks, m)
    ensures |Pushed(requests, marks, m)| <= 2 * |requests| + MARKS_SLACK
  {
    var longer := marks + [m];
    assert DequeOk(longer, m.number, m.time);
    LiveOnlyOk(requests, longer, m.number, m.time);
    LiveOnlyIs(requests, longer);
    var ids := LiveOnlyShort(requests, longer, m.number, m.time);
    Subset(ids, requests.Keys);
    assert |requests.Keys| == |requests|;
  }

  // ---- counts -----------------------------------------------------------------------------

  ghost function AnnouncedBy(requests: Requests, p: Peer): set<TxId> {
    set id | id in requests && p in requests[id].announcers
  }

  ghost function AskedOf(requests: Requests, p: Peer): set<TxId> {
    set id | id in requests && requests[id].requested == Some(p)
  }

  ghost predicate CountOk(requests: Requests, state: PeerState, p: Peer) {
    state.announced == |AnnouncedBy(requests, p)| <= MAX_PEER_ANNOUNCEMENTS && state.inFlight == |AskedOf(requests, p)|
  }

  /** Every peer's counters count the requests that list it and the requests asked of it. */
  ghost predicate CountsOk(requests: Requests, peers: Peers) {
    forall p :: p in peers ==> CountOk(requests, peers[p], p)
  }

  // ---- requests ------------------------------------------------------------------------------

  predicate Once<T(==)>(s: seq<T>) {
    forall k, k' :: 0 <= k < k' < |s| ==> s[k] != s[k']
  }

  predicate RequestOk(r: Request, peers: Peers, top: nat) {
    && Once(r.announcers) && (forall p :: p in r.announcers ==> p in peers)
    && (r.requested.Some? ==> r.requested.value in r.announcers)
    && r.mark <= top
  }

  ghost predicate RequestsOk(requests: Requests, peers: Peers, top: nat) {
    forall id :: id in requests ==> RequestOk(requests[id], peers, top)
  }

  /** The one live mark of a request sits where its state says. */
  ghost predicate Placed(r: Request, id: TxId, order: seq<Mark>, delayed: seq<Mark>) {
    && r.announcers != []
    && (r.requested.Some? ==> HasMark(order, id, r.mark) && NoMark(delayed, r.mark))
    && (r.requested.None? ==> HasMark(delayed, id, r.mark) && NoMark(order, r.mark))
  }

  /** Every request but `x` has its mark. */
  ghost predicate AllPlaced(requests: Requests, order: seq<Mark>, delayed: seq<Mark>, x: Option<TxId>) {
    forall id :: id in requests && Some(id) != x ==> Placed(requests[id], id, order, delayed)
  }

  /** Everything but the mark of the request being worked on. */
  ghost predicate InvBut(s: State, clock: int, x: Option<TxId>) {
    && 0 <= clock
    && CountsOk(s.requests, s.peers) && RequestsOk(s.requests, s.peers, s.markSeq)
    && DequeOk(s.order, s.markSeq, clock + REQUEST_TIMEOUT)
         && DequeOk(s.delayed, s.markSeq, clock + OVERLOADED_PEER_DELAY)
    && AllPlaced(s.requests, s.order, s.delayed, x)
    && (forall id :: id in s.orphans ==> 0 < s.orphans[id].expire)
  }

  ghost predicate Inv(s: State, clock: int) { InvBut(s, clock, None) }

  lemma DequeLater(marks: seq<Mark>, top: nat, latest: int, latest': int)
    requires DequeOk(marks, top, latest) && latest <= latest'
    ensures DequeOk(marks, top, latest')
  {
  }

  lemma InvLater(s: State, clock: int, now: int)
    requires Inv(s, clock) && clock <= now
    ensures Inv(s, now)
  {
    DequeLater(s.order, s.markSeq, clock + REQUEST_TIMEOUT, now + REQUEST_TIMEOUT);
    DequeLater(s.delayed, s.markSeq, clock + OVERLOADED_PEER_DELAY, now + OVERLOADED_PEER_DELAY);
  }

  // ---- a mark -----------------------------------------------------------------------------------

  lemma RenumberedCounts(requests: Requests, peers: Peers, id: TxId, mark: nat)
    requires id in requests && CountsOk(requests, peers)
    ensures CountsOk(requests[id := requests[id].(mark := mark)], peers)
  {
    var requests' := requests[id := requests[id].(mark := mark)];
    forall p | p in peers ensures CountOk(requests', peers[p], p) {
      assert AnnouncedBy(requests', p) == AnnouncedBy(requests, p);
      assert AskedOf(requests', p) == AskedOf(requests, p);
      assert CountOk(requests, peers[p], p);
    }
  }

  /** Pushing a mark on one deque keeps every other request's mark in place. */
  lemma OthersPlaced(requests: Requests, requests': Requests, marks: seq<Mark>, marks': seq<Mark>, id: TxId,
        number: nat)
    requires forall x :: x in marks' ==> x in marks || x.number == number
    requires forall x :: x in marks && IsLive(requests', x) ==> x in marks'
    requires id in requests' && id in requests && requests[id] == requests'[id] && requests[id].mark != number
    ensures HasMark(marks, id, requests[id].mark) ==> HasMark(marks', id, requests[id].mark)
    ensures NoMark(marks, requests[id].mark) ==> NoMark(marks', requests[id].mark)
  {
    if HasMark(marks, id, requests[id].mark) {
      var m :| m in marks && m.id == id && m.number == requests[id].mark;
      assert IsLive(requests', m);
    }
  }

  /** What a push does to a deque, seen from the requests. */
  ghost predicate PushedFor(requests: Requests, marks: seq<Mark>, marks': seq<Mark>, m: Mark) {
    && (forall x :: x in marks' ==> x in marks || x == m)
    && (forall x :: (x in marks || x == m) && IsLive(requests, x) ==> x in marks')
  }

  lemma OrderPlaced(requests: Requests, requests': Requests, order: seq<Mark>, order': seq<Mark>, delayed: seq<Mark>,
        m: Mark, top: nat)
    requires m.id in requests && requests' == requests[m.id := requests[m.id].(mark := m.number)] && top < m.number
    requires requests[m.id].requested.Some? && requests[m.id].announcers != []
        && forall id :: id in requests ==> requests[id].mark <= top
    requires PushedFor(requests', order, order', m) && NoMark(delayed, m.number)
        && AllPlaced(requests, order, delayed, Some(m.id))
    ensures AllPlaced(requests', order', delayed, None)
  {
    forall x | x in requests' ensures Placed(requests'[x], x, order', delayed) {
      if x == m.id {
        assert IsLive(requests', m);
      } else {
        assert Placed(requests[x], x, order, delayed);
        OthersPlaced(requests, requests', order, order', x, m.number);
      }
    }
  }

  lemma DelayedPlaced(requests: Requests, requests': Requests, order: seq<Mark>, delayed: seq<Mark>,
        delayed': seq<Mark>, m: Mark, top: nat)
    requires m.id in requests && requests' == requests[m.id := requests[m.id].(mark := m.number)] && top < m.number
    requires requests[m.id].requested.None? && requests[m.id].announcers != []
        && forall id :: id in requests ==> requests[id].mark <= top
    requires PushedFor(requests', delayed, delayed', m) && NoMark(order, m.number)
        && AllPlaced(requests, order, delayed, Some(m.id))
    ensures AllPlaced(requests', order, delayed', None)
  {
    forall x | x in requests' ensures Placed(requests'[x], x, order, delayed') {
      if x == m.id {
        assert IsLive(requests', m);
      } else {
        assert Placed(requests[x], x, order, delayed);
        OthersPlaced(requests, requests', delayed, delayed', x, m.number);
      }
    }
  }

  lemma MarksRise(marks: seq<Mark>, top: nat, latest: int)
    requires DequeOk(marks, top, latest)
    ensures DequeOk(marks, top + 1, latest) && NoMark(marks, top + 1)
  {
  }

  lemma RenumberedOk(s: State, id: TxId)
    requires id in s.requests && RequestsOk(s.requests, s.peers, s.markSeq)
    ensures RequestsOk(Renumbered(s, id), s.peers, s.markSeq + 1)
  {
    forall x | x in Renumbered(s, id) ensures RequestOk(Renumbered(s, id)[x], s.peers, s.markSeq + 1) {
      assert RequestOk(s.requests[x], s.peers, s.markSeq);
    }
  }

  lemma MarkOrderKeeps(s: State, id: TxId, now: int)
    requires id in s.requests && InvBut(s, now, Some(id)) && s.requests[id].requested.Some?
    ensures Inv(MarkOrder(s, id, now + REQUEST_TIMEOUT), now)
    ensures |MarkOrder(s, id, now + REQUEST_TIMEOUT).order| <= 2 * |MarkOrder(s, id, now + REQUEST_TIMEOUT).requests|
        + MARKS_SLACK
  {
    var n, requests' := s.markSeq + 1, Renumbered(s, id);
    var m := Mark(now + REQUEST_TIMEOUT, id, n);
    assert RequestOk(s.requests[id], s.peers, s.markSeq);
    PushedOk(requests', s.order, m, now + REQUEST_TIMEOUT);
    RenumberedCounts(s.requests, s.peers, id, n);
    RenumberedOk(s, id);
    MarksRise(s.delayed, s.markSeq, now + OVERLOADED_PEER_DELAY);
    OrderPlaced(s.requests, requests', s.order, Pushed(requests', s.order, m), s.delayed, m, s.markSeq);
  }

  lemma MarkDelayedKeeps(s: State, id: TxId, now: int)
    requires id in s.requests && InvBut(s, now, Some(id)) && s.requests[id].requested.None?
        && s.requests[id].announcers != []
    ensures Inv(MarkDelayed(s, id, now + OVERLOADED_PEER_DELAY), now)
    ensures |MarkDelayed(s, id, now + OVERLOADED_PEER_DELAY).delayed|
        <= 2 * |MarkDelayed(s, id, now + OVERLOADED_PEER_DELAY).requests| + MARKS_SLACK
  {
    var n, requests' := s.markSeq + 1, Renumbered(s, id);
    var m := Mark(now + OVERLOADED_PEER_DELAY, id, n);
    assert RequestOk(s.requests[id], s.peers, s.markSeq);
    PushedOk(requests', s.delayed, m, now + OVERLOADED_PEER_DELAY);
    RenumberedCounts(s.requests, s.peers, id, n);
    RenumberedOk(s, id);
    MarksRise(s.order, s.markSeq, now + REQUEST_TIMEOUT);
    DelayedPlaced(s.requests, requests', s.order, s.delayed, Pushed(requests', s.delayed, m), m, s.markSeq);
  }

  // ---- one entry changes --------------------------------------------------------------------------

  lemma MemberCount(a: set<TxId>, a': set<TxId>, id: TxId)
    requires a - {id} == a' - {id}
    ensures |a'| == |a| - (if id in a then 1 else 0) + (if id in a' then 1 else 0)
  {
    assert id !in a ==> a - {id} == a;
    assert id !in a' ==> a' - {id} == a';
  }

  /** The counts of a peer after one entry changed, from its membership before and after. */
  lemma CountMoves(requests: Requests, id: TxId, r: Request, p: Peer)
    ensures var requests' := requests[id := r];
            && |AnnouncedBy(requests', p)| == |AnnouncedBy(requests,
                 p)| - (if id in AnnouncedBy(requests, p) then 1 else 0) + (if p in r.announcers then 1 else 0)
            && |AskedOf(requests', p)| == |AskedOf(requests, p)| - (if id in AskedOf(requests, p) then 1 else 0)
                 + (if r.requested == Some(p) then 1 else 0)
  {
    var requests' := requests[id := r];
    assert AnnouncedBy(requests', p) - {id} == AnnouncedBy(requests, p) - {id};
    assert AskedOf(requests', p) - {id} == AskedOf(requests, p) - {id};
    MemberCount(AnnouncedBy(requests, p), AnnouncedBy(requests', p), id);
    MemberCount(AskedOf(requests, p), AskedOf(requests', p), id);
  }

  /** The counts of a peer after one entry went. */
  lemma CountGoes(requests: Requests, id: TxId, p: Peer)
    ensures |AnnouncedBy(requests - {id}, p)|
        == |AnnouncedBy(requests, p)| - (if id in AnnouncedBy(requests, p) then 1 else 0)
    ensures |AskedOf(requests - {id}, p)| == |AskedOf(requests, p)| - (if id in AskedOf(requests, p) then 1 else 0)
  {
    assert AnnouncedBy(requests - {id}, p) - {id} == AnnouncedBy(requests, p) - {id};
    assert AskedOf(requests - {id}, p) - {id} == AskedOf(requests, p) - {id};
    MemberCount(AnnouncedBy(requests, p), AnnouncedBy(requests - {id}, p), id);
    MemberCount(AskedOf(requests, p), AskedOf(requests - {id}, p), id);
  }

  /** Requests other than the one changed keep their marks. */
  lemma StillPlaced(requests: Requests, id: TxId, r: Request, order: seq<Mark>, delayed: seq<Mark>)
    requires AllPlaced(requests, order, delayed, Some(id))
    ensures AllPlaced(requests[id := r], order, delayed, Some(id))
  {
    forall x | x in requests[id := r] && Some(x) != Some(id) ensures Placed(requests[id := r][x], x, order, delayed) {
      assert Placed(requests[x], x, order, delayed);
    }
  }
}
