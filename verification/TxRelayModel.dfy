/**
The request half of the transaction relay: who announced a transaction, who is asked for it, and
the marks that fire when nobody delivers. Every operation is a function from the relay's state and
its readings of the clock to the next state.
 */
module TxRelayModel {
  import opened Wrappers

  type Peer = int
  type TxId = int

  /** `CRequest`: its announcers in order, the one asked, and the number of its live mark. */
  datatype Request = Request(announcers: seq<Peer>, requested: Option<Peer>, mark: nat)

  /** `CMark`: fires at a time, and stands for a request only while the request carries its number. */
  datatype Mark = Mark(time: int, id: TxId, number: nat)

  /** `CPeerState`. */
  datatype PeerState = PeerState(inFlight: int, announced: int, batch: seq<TxId>)

  datatype Orphan = Orphan(source: Peer, expire: int)

  type Requests = map<TxId, Request>
  type Peers = map<Peer, PeerState>

  /** `Requests_`, `RequestOrder_`, `Delayed_`, `MarkSeq_`, `Peers_`, `Orphans_`. */
  datatype State = State(requests: Requests, order: seq<Mark>, delayed: seq<Mark>, markSeq: nat, peers: Peers,
      orphans: map<TxId, Orphan>)

  const EMPTY := State(map[], [], [], 0, map[], map[])

  const REQUEST_TIMEOUT := 60
  const MAX_PEER_REQUESTS_IN_FLIGHT := 100
  const OVERLOADED_PEER_DELAY := 2
  const MAX_PEER_ANNOUNCEMENTS := 5000
  const MARKS_SLACK := 1024

  // ---- marks ----------------------------------------------------------------------

  predicate IsLive(requests: Requests, m: Mark) { m.id in requests && requests[m.id].mark == m.number }

  /** The compaction: stale marks go, the order stays. */
  function LiveOnly(requests: Requests, marks: seq<Mark>): seq<Mark> {
    if marks == [] then []
    else
      var rest := LiveOnly(requests, marks[..|marks| - 1]);
      if IsLive(requests, marks[|marks| - 1]) then rest + [marks[|marks| - 1]] else rest
  }

  function Pushed(requests: Requests, marks: seq<Mark>, m: Mark): seq<Mark> {
    var longer := marks + [m];
    if |longer| > 2 * |requests| + MARKS_SLACK then LiveOnly(requests, longer) else longer
  }

  function Renumbered(s: State, id: TxId): Requests
    requires id in s.requests
  {
    s.requests[id := s.requests[id].(mark := s.markSeq + 1)]
  }

  /** `mark` on the deque of deadlines. */
  function MarkOrder(s: State, id: TxId, time: int): State
    requires id in s.requests
  {
    var requests := Renumbered(s, id);
    s.(requests := requests, markSeq := s.markSeq + 1,
        order := Pushed(requests, s.order, Mark(time, id, s.markSeq + 1)))
  }

  /** `mark` on the deque of delayed asks. */
  function MarkDelayed(s: State, id: TxId, time: int): State
    requires id in s.requests
  {
    var requests := Renumbered(s, id);
    s.(requests := requests, markSeq := s.markSeq + 1,
        delayed := Pushed(requests, s.delayed, Mark(time, id, s.markSeq + 1)))
  }

  // ---- asking ---------------------------------------------------------------------

  /** A peer not overloaded. */
  predicate Free(peers: Peers, p: Peer) { p in peers && peers[p].inFlight < MAX_PEER_REQUESTS_IN_FLIGHT }

  function FirstFree(peers: Peers, announcers: seq<Peer>): Option<Peer> {
    if announcers == [] then None
    else if Free(peers, announcers[0]) then Some(announcers[0])
    else FirstFree(peers, announcers[1..])
  }

  /** `request`. An announcer has state; the source asserts it, and it is proved here. */
  function Ask(s: State, id: TxId, p: Peer, now: int): State
    requires id in s.requests
  {
    if p !in s.peers then s
    else
      var asked := s.(requests := s.requests[id := s.requests[id].(requested := Some(p))],
                      peers := s.peers[p := s.peers[p].(inFlight := s.peers[p].inFlight + 1,
                          batch := s.peers[p].batch + [id])]);
      MarkOrder(asked, id, now + REQUEST_TIMEOUT)
  }

  /** `delay`. */
  function Delay(s: State, id: TxId, now: int): State
    requires id in s.requests
  {
    MarkDelayed(s, id, now + OVERLOADED_PEER_DELAY)
  }

  /** `requestNext`. */
  function AskNext(s: State, id: TxId, waited: bool, now: int): State
    requires id in s.requests
  {
    var announcers := s.requests[id].announcers;
    match FirstFree(s.peers, announcers)
    case Some(p) => Ask(s, id, p, now)
    case None =>
      if announcers == [] then s
      else if waited then Ask(s, id, announcers[0], now)
      else Delay(s, id, now)
  }

  // ---- announcing and dropping ------------------------------------------------------

  /** `peerState`: a peer on its way out gets no new state. */
  function WithPeer(s: State, p: Peer, gone: bool): State {
    if p in s.peers || gone then s else s.(peers := s.peers[p := PeerState(0, 0, [])])
  }

  function EntryOf(s: State, id: TxId): Request {
    if id in s.requests then s.requests[id] else Request([], None, 0)
  }

  /** One more announcer, and the peer's count of it. */
  function Join(s: State, id: TxId, p: Peer): State
    requires p in s.peers
  {
    s.(requests := s.requests[id := EntryOf(s, id).(announcers := EntryOf(s, id).announcers + [p])],
       peers := s.peers[p := s.peers[p].(announced := s.peers[p].announced + 1)])
  }

  /** `announce`; `known` is the mempool's and the filters' answer. */
  function Announce(s: State, p: Peer, gone: bool, known: bool, id: TxId, now: int): State {
    if known then s
    else
      var s1 := WithPeer(s, p, gone);
      if p !in s1.peers || s1.peers[p].announced >= MAX_PEER_ANNOUNCEMENTS || p in EntryOf(s1, id).announcers then s1
      else
        var s2 := Join(s1, id, p);
        if s2.requests[id].requested.Some? then s2
        else if s2.peers[p].inFlight < MAX_PEER_REQUESTS_IN_FLIGHT then Ask(s2, id, p, now)
        else if |s2.requests[id].announcers| == 1 then Delay(s2, id, now)
        else s2
  }

  /** The first occurrence goes. */
  function Without(announcers: seq<Peer>, p: Peer): seq<Peer> {
    if announcers == [] then []
    else if announcers[0] == p then announcers[1..]
    else [announcers[0]] + Without(announcers[1..], p)
  }

  /** The announcer leaves the request, and its counts follow. */
  function Leave(s: State, id: TxId, p: Peer): State
    requires id in s.requests
  {
    var entry := s.requests[id];
    var asked := entry.requested == Some(p);
    s.(requests := s.requests[id := entry.(announcers := Without(entry.announcers, p),
        requested := if asked then None else entry.requested)],
       peers := if p !in s.peers then s.peers
                else s.peers[p := s.peers[p].(announced := s.peers[p].announced - 1,
                    inFlight := s.peers[p].inFlight - if asked then 1 else 0)])
  }

  /** A request nobody announces is over. */
  function Swept(s: State, id: TxId): State {
    if id in s.requests && s.requests[id].requested.None?
        && s.requests[id].announcers == [] then s.(requests := s.requests - {id}) else s
  }

  /** `dropRequest`. */
  function DropRequest(s: State, id: TxId, p: Peer, now: int): State {
    if id !in s.requests || p !in s.requests[id].announcers then s
    else
      var s1 := Leave(s, id, p);
      Swept(if s.requests[id].requested == Some(p) then AskNext(s1, id, false, now) else s1, id)
  }

  function Released(peers: Peers, announcers: seq<Peer>, requested: Option<Peer>): Peers {
    if announcers == [] then peers
    else
      var p, rest := announcers[|announcers| - 1], Released(peers, announcers[..|announcers| - 1], requested);
      if p !in rest then rest
      else rest[p := rest[p].(announced := rest[p].announced - 1,
          inFlight := rest[p].inFlight - if requested == Some(p) then 1 else 0)]
  }

  /** `forget`. */
  function Forget(s: State, id: TxId): State {
    if id !in s.requests then s
    else s.(peers := Released(s.peers, s.requests[id].announcers, s.requests[id].requested),
        requests := s.requests - {id})
  }

  /** The requests a leaving peer announced, dropped in the order found, each at its own reading of the clock. */
  function DropAll(s: State, ids: seq<TxId>, p: Peer, nows: seq<int>): State
    requires |nows| == |ids|
  {
    if ids == [] then s
    else
      var n := |ids| - 1;
      DropRequest(DropAll(s, ids[..n], p, nows[..n]), ids[n], p, nows[n])
  }

  function WithoutOrphansOf(s: State, p: Peer): State {
    s.(orphans := map id | id in s.orphans && s.orphans[id].source != p :: s.orphans[id])
  }

  /** `onPeerGone`; `ids` lists the requests it announced, in the order of the hash map. */
  function PeerGone(s: State, p: Peer, ids: seq<TxId>, nows: seq<int>): State
    requires |nows| == |ids|
  {
    var s1 := WithoutOrphansOf(s, p);
    if p !in s.peers then s1
    else
      var s2 := DropAll(s1, ids, p, nows);
      s2.(peers := s2.peers - {p})
  }

  // ---- marks firing -------------------------------------------------------------------

  predicate Due(marks: seq<Mark>, now: int) { marks != [] && marks[0].time <= now }

  /** One turn of `timeouts`: the asked announcer did not deliver. */
  function FireOrder(s: State, now: int): State
    requires s.order != []
  {
    var m, s1 := s.order[0], s.(order := s.order[1..]);
    if IsLive(s.requests, m)
        && s.requests[m.id].requested.Some? then DropRequest(s1, m.id, s.requests[m.id].requested.value, now) else s1
  }

  /** One turn of `delayed`: the request has waited. */
  function FireDelayed(s: State, now: int): State
    requires s.delayed != []
  {
    var m, s1 := s.delayed[0], s.(delayed := s.delayed[1..]);
    if IsLive(s.requests, m) then AskNext(s1, m.id, true, now) else s1
  }

  function DueCount(marks: seq<Mark>, now: int): nat {
    if marks == [] then 0 else DueCount(marks[..|marks| - 1], now) + if marks[|marks| - 1].time <= now then 1 else 0
  }

  /** `expireOrphans`. */
  function ExpireOrphans(s: State, now: int): State {
    s.(orphans := map id | id in s.orphans && s.orphans[id].expire > now :: s.orphans[id])
  }

  // ---- when to wake ---------------------------------------------------------------------

  function Earlier(deadline: int, time: int): int { if deadline == 0 || time < deadline then time else deadline }

  /** What `deadline` starts from: the two deques, each by its front. */
  function MarkDeadline(s: State): int {
    var first := if s.order == [] then 0 else s.order[0].time;
    if s.delayed == [] then first else Earlier(first, s.delayed[0].time)
  }
}
