/**
The relay's admission gate: network threads add a message's bytes to its peer's counter and to
everyone's before they know whether it fits, and take them back when it does not; the writer takes
them back when it is done with the message. One atomic operation is one step.
 */
module ByteGate {

  type Peer = int

  const MAX_PEER := 8 * 1024 * 1024
  const MAX_TOTAL := 64 * 1024 * 1024

  /** Where a message stands.
      `Arriving`: nothing added. `PeerFits`: added to its peer's counter and fits there.
      `Admitted`: added to both and fits.
      `TotalOver`: added to both, too much in all. `PeerOver`: to be taken back from its peer's counter.
      `Releasing`: the writer has taken it back from its peer's counter. `Over`: nothing is held. */
  datatype Phase = Arriving | PeerFits | Admitted | TotalOver | PeerOver | Releasing | Over

  datatype Message = Message(peer: Peer, bytes: nat, phase: Phase)

  /** `QueuedBytes_`, each peer's `RelayQueuedBytes`, and every message there ever was. */
  datatype State = State(total: int, queued: map<Peer, int>, messages: seq<Message>)

  function QueuedOf(s: State, p: Peer): int { if p in s.queued then s.queued[p] else 0 }

  /** A message's counter operation that comes next. */
  function Step(s: State, k: nat): State
    requires k < |s.messages|
  {
    var m := s.messages[k];
    var peerNow := QueuedOf(s, m.peer);
    match m.phase
    case Arriving =>
      Moved(s.(queued := s.queued[m.peer := peerNow + m.bytes]), k,
          if peerNow + m.bytes <= MAX_PEER then PeerFits else PeerOver)
    case PeerFits =>
      Moved(s.(total := s.total + m.bytes), k, if s.total + m.bytes <= MAX_TOTAL then Admitted else TotalOver)
    case TotalOver => Moved(s.(total := s.total - m.bytes), k, PeerOver)
    case PeerOver => Moved(s.(queued := s.queued[m.peer := peerNow - m.bytes]), k, Over)
    case Admitted => Moved(s.(queued := s.queued[m.peer := peerNow - m.bytes]), k, Releasing)
    case Releasing => Moved(s.(total := s.total - m.bytes), k, Over)
    case Over => s
  }

  function Moved(s: State, k: nat, phase: Phase): State
    requires k < |s.messages|
  {
    s.(messages := s.messages[k := s.messages[k].(phase := phase)])
  }

  datatype Action = Arrive(peer: Peer, bytes: nat) | Next(k: nat)

  function Apply(s: State, a: Action): State {
    match a
    case Arrive(p, bytes) => s.(messages := s.messages + [Message(p, bytes, Arriving)])
    case Next(k) => if k < |s.messages| then Step(s, k) else s
  }

  function Run(actions: seq<Action>): State {
    if actions == [] then State(0, map[], []) else Apply(Run(actions[..|actions| - 1]), actions[|actions| - 1])
  }

  // ---- sums ---------------------------------------------------------------------------------------

  function Sum(ms: seq<Message>, weight: Message -> int): int {
    if ms == [] then 0 else Sum(ms[..|ms| - 1], weight) + weight(ms[|ms| - 1])
  }

  lemma {:induction false} SumMoves(ms: seq<Message>, k: nat, m: Message, weight: Message -> int)
    requires k < |ms|
    ensures Sum(ms[k := m], weight) == Sum(ms, weight) - weight(ms[k]) + weight(m)
  {
    var init := ms[..|ms| - 1];
    if k < |ms| - 1 {
      SumMoves(init, k, m, weight);
      assert ms[k := m][..|ms| - 1] == init[k := m];
    } else {
      assert ms[k := m][..|ms| - 1] == init;
    }
  }

  lemma SumGrows(ms: seq<Message>, m: Message, weight: Message -> int)
    ensures Sum(ms + [m], weight) == Sum(ms, weight) + weight(m)
  {
    assert (ms + [m])[..|ms|] == ms;
  }

  lemma {:induction false} SumLess(ms: seq<Message>, a: Message -> int, b: Message -> int)
    requires forall m :: a(m) <= b(m)
    ensures Sum(ms, a) <= Sum(ms, b)
  {
    if ms != [] {
      SumLess(ms[..|ms| - 1], a, b);
    }
  }

  lemma {:induction false} SumNone(ms: seq<Message>, weight: Message -> int)
    requires forall k :: 0 <= k < |ms| ==> weight(ms[k]) == 0
    ensures Sum(ms, weight) == 0
  {
    if ms != [] {
      SumNone(ms[..|ms| - 1], weight);
    }
  }

  // ---- who holds what ---------------------------------------------------------------------------------

  /** Bytes of a message in its peer's counter. */
  function HeldOf(p: Peer): Message -> int {
    (m: Message) => if m.peer == p
        && (m.phase.PeerFits? || m.phase.Admitted? || m.phase.TotalOver? || m.phase.PeerOver?) then m.bytes else 0
  }

  /** Bytes of a message that passed its peer's limit and is still held. */
  function PassedOf(p: Peer): Message -> int {
    (m: Message) => if m.peer == p && (m.phase.PeerFits? || m.phase.Admitted? || m.phase.TotalOver?) then m.bytes else 0
  }

  function Held(): Message -> int {
    (m: Message) => if m.phase.Admitted? || m.phase.TotalOver? || m.phase.Releasing? then m.bytes else 0
  }

  /** Bytes of a message that passed both limits and is not fully released. */
  function Passed(): Message -> int {
    (m: Message) => if m.phase.Admitted? || m.phase.Releasing? then m.bytes else 0
  }

  /** Admitted and not released. */
  function AdmittedOf(p: Peer): Message -> int {
    (m: Message) => if m.peer == p && m.phase.Admitted? then m.bytes else 0
  }

  ghost predicate PeerOk(s: State, p: Peer) {
    QueuedOf(s, p) == Sum(s.messages, HeldOf(p)) && Sum(s.messages, PassedOf(p)) <= MAX_PEER
  }

  ghost predicate Inv(s: State) {
    && s.total == Sum(s.messages, Held()) && Sum(s.messages, Passed()) <= MAX_TOTAL
    && forall p :: PeerOk(s, p)
  }

  lemma PeerStep(s: State, k: nat, p: Peer)
    requires k < |s.messages| && PeerOk(s, p)
    ensures PeerOk(Step(s, k), p)
  {
    var m' := Step(s, k).messages[k];
    SumMoves(s.messages, k, m', HeldOf(p));
    SumMoves(s.messages, k, m', PassedOf(p));
    SumLess(s.messages, PassedOf(p), HeldOf(p));
  }

  lemma StepKeeps(s: State, k: nat)
    requires k < |s.messages| && Inv(s)
    ensures Inv(Step(s, k))
  {
    var m' := Step(s, k).messages[k];
    SumMoves(s.messages, k, m', Held());
    SumMoves(s.messages, k, m', Passed());
    SumLess(s.messages, Passed(), Held());
    forall p ensures PeerOk(Step(s, k), p) {
      assert PeerOk(s, p);
      PeerStep(s, k, p);
    }
  }

  lemma ArriveKeeps(s: State, m: Message)
    requires Inv(s) && m.phase == Arriving
    ensures Inv(s.(messages := s.messages + [m]))
  {
    SumGrows(s.messages, m, Held());
    SumGrows(s.messages, m, Passed());
    forall p ensures PeerOk(s.(messages := s.messages + [m]), p) {
      assert PeerOk(s, p);
      SumGrows(s.messages, m, HeldOf(p));
      SumGrows(s.messages, m, PassedOf(p));
    }
  }

  lemma {:induction false} RunKeeps(actions: seq<Action>)
    ensures Inv(Run(actions))
  {
    if actions != [] {
      var s, a := Run(actions[..|actions| - 1]), actions[|actions| - 1];
      RunKeeps(actions[..|actions| - 1]);
      match a
      case Arrive(p, bytes) => ArriveKeeps(s, Message(p, bytes, Arriving));
      case Next(k) => if k < |s.messages| { StepKeeps(s, k); }
    }
  }

  /**
  In every interleaving the messages admitted and not released stay within each peer's share and
  within everyone's, though the counters themselves may for a moment stand above them.
   */
  lemma AdmittedFits(actions: seq<Action>, p: Peer)
    ensures Sum(Run(actions).messages, AdmittedOf(p)) <= MAX_PEER
    ensures Sum(Run(actions).messages, Passed()) <= MAX_TOTAL
  {
    RunKeeps(actions);
    var s := Run(actions);
    assert PeerOk(s, p);
    SumLess(s.messages, AdmittedOf(p), PassedOf(p));
  }

  /**
  A message is turned away only when it would not fit with what is held at that moment: by its peer, of eight
  mebibytes, or by everyone, of sixty-four. Otherwise it goes on.
   */
  lemma RefusedOnlyWhenFull(actions: seq<Action>, k: nat)
    requires k < |Run(actions).messages|
    ensures
      var ms := Run(actions).messages;
      var m, m' := ms[k], Step(Run(actions), k).messages[k];
      && m' == m.(phase := m'.phase)
      && (m.phase.Arriving? ==>
            m'.phase == if Sum(ms, HeldOf(m.peer)) + m.bytes <= 8388608 then PeerFits else PeerOver)
      && (m.phase.PeerFits? ==> m'.phase == if Sum(ms, Held()) + m.bytes <= 67108864 then Admitted else TotalOver)
      && (m.phase.TotalOver? ==> m'.phase == PeerOver) && (m.phase.PeerOver? ==> m'.phase == Over)
  {
    RunKeeps(actions);
    assert PeerOk(Run(actions), Run(actions).messages[k].peer);
  }

  lemma RunMore(actions: seq<Action>, a: Action)
    ensures Run(actions + [a]) == Apply(Run(actions), a)
  {
    assert (actions + [a])[..|actions|] == actions;
  }

  /** With nothing else on its way, every message of up to eight mebibytes gets in. */
  lemma AloneGetsIn(actions: seq<Action>, p: Peer, bytes: nat)
    requires bytes <= 8388608
    requires forall k :: 0 <= k < |Run(actions).messages| ==>
        Run(actions).messages[k].phase.Over? || Run(actions).messages[k].phase.Arriving?
    ensures
      var n := |Run(actions).messages|;
      Run(actions + [Arrive(p, bytes), Next(n), Next(n)]).messages
        == Run(actions).messages + [Message(p, bytes, Admitted)]
  {
    CountersReturn(actions, p);
    var s, n := Run(actions), |Run(actions).messages|;
    var a1 := actions + [Arrive(p, bytes)];
    var a2 := a1 + [Next(n)];
    RunMore(actions, Arrive(p, bytes));
    RunMore(a1, Next(n));
    RunMore(a2, Next(n));
    assert actions + [Arrive(p, bytes), Next(n), Next(n)] == a2 + [Next(n)];
    hide Run;
    assert Run(a1).messages[n] == Message(p, bytes, Arriving);
    assert Run(a2).messages == s.messages + [Message(p, bytes, PeerFits)];
  }

  /** With every message dropped or released the counters are back at zero. */
  lemma CountersReturn(actions: seq<Action>, p: Peer)
    requires forall k :: 0 <= k < |Run(actions).messages| ==>
        Run(actions).messages[k].phase.Over? || Run(actions).messages[k].phase.Arriving?
    ensures Run(actions).total == 0 && QueuedOf(Run(actions), p) == 0
  {
    RunKeeps(actions);
    var s := Run(actions);
    assert PeerOk(s, p);
    SumNone(s.messages, Held());
    SumNone(s.messages, HeldOf(p));
  }

  /** The counters never go below zero, so the unsigned subtractions do not wrap. */
  lemma CountersStayUp(actions: seq<Action>, p: Peer)
    ensures 0 <= Run(actions).total && 0 <= QueuedOf(Run(actions), p)
  {
    RunKeeps(actions);
    var s := Run(actions);
    assert PeerOk(s, p);
    SumUp(s.messages, Held());
    SumUp(s.messages, HeldOf(p));
  }

  lemma {:induction false} SumUp(ms: seq<Message>, weight: Message -> int)
    requires forall m :: 0 <= weight(m)
    ensures 0 <= Sum(ms, weight)
  {
    if ms != [] {
      SumUp(ms[..|ms| - 1], weight);
    }
  }
}
