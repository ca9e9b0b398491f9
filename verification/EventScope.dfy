/**
The scope around a peer's two timer events: any number of threads enter and leave, any of them may
ask for the deletion, and whoever leaves last carries it out. One atomic operation is one step.
 */
module EventScope {

  type Thread = int

  /** Where a thread stands.
      `Inside`: `enterEventScope` returned true. `Leaving`: about to take its user count back.
      `Retrying`: in the loop of `leaveEventScope`, its last value being one.
      `Requesting`: counted, about to set the bit.
      `DeletingFirst`, `DeletingSecond`: it owns the deletion. */
  datatype Pc = Idle | Inside | Leaving | Retrying | Requesting | DeletingFirst | DeletingSecond

  /** `EventUsers_`, the threads, and how often each event was deleted. */
  datatype State = State(word: int, threads: map<Thread, Pc>, blockDeleted: nat, pingDeleted: nat)

  datatype Action =
    | Enter(t: Thread)
    | Leave(t: Thread)
    | Retry(t: Thread, spurious: bool)
    | Request(t: Thread)
    | SetBit(t: Thread)
    | Delete(t: Thread)

  function PcOf(s: State, t: Thread): Pc { if t in s.threads then s.threads[t] else Idle }

  function Goto(s: State, t: Thread, pc: Pc): State { s.(threads := s.threads[t := pc]) }

  /** One atomic operation; an action the thread is not at does nothing. */
  function Step(s: State, a: Action): State {
    match a
    case Enter(t) =>
      if PcOf(s, t) != Idle then s
      else Goto(s.(word := s.word + 4), t, if s.word % 2 == 0 then Inside else Leaving)
    case Leave(t) =>
      if PcOf(s, t) != Inside && PcOf(s, t) != Leaving then s
      else Goto(s.(word := s.word - 4), t, if s.word - 4 == 1 then Retrying else Idle)
    case Retry(t, spurious) =>
      if PcOf(s, t) != Retrying then s
      else if s.word == 1 && !spurious then Goto(s.(word := 3), t, DeletingFirst)
      else Goto(s, t, if s.word == 1 then Retrying else Idle)
    case Request(t) =>
      if PcOf(s, t) != Idle then s else Goto(s.(word := s.word + 4), t, Requesting)
    case SetBit(t) =>
      if PcOf(s, t) != Requesting then s
          else Goto(s.(word := if s.word % 2 == 0 then s.word + 1 else s.word), t, Leaving)
    case Delete(t) =>
      if PcOf(s, t) == DeletingFirst then Goto(s.(blockDeleted := s.blockDeleted + 1), t, DeletingSecond)
      else if PcOf(s, t) == DeletingSecond then Goto(s.(pingDeleted := s.pingDeleted + 1), t, Idle)
      else s
  }

  function Run(actions: seq<Action>): State {
    if actions == [] then State(0, map[], 0, 0) else Step(Run(actions[..|actions| - 1]), actions[|actions| - 1])
  }

  // ---- the invariant -------------------------------------------------------------------------------

  /** A thread whose four are in the word. */
  predicate Counted(pc: Pc) { pc == Inside || pc == Leaving || pc == Requesting }

  predicate Deleting(pc: Pc) { pc == DeletingFirst || pc == DeletingSecond }

  ghost function Users(threads: map<Thread, Pc>): set<Thread> { set t | t in threads && Counted(threads[t]) }

  /** The word: four for each user, one for the request, two for the deletion taken on. */
  ghost predicate WordOk(s: State, bits: int) {
    s.word == 4 * |Users(s.threads)| + bits && (bits == 0 || bits == 1 || bits == 3)
  }

  /** Before the deletion is taken on nobody deletes and nothing is deleted. */
  ghost predicate NotYet(s: State) {
    s.blockDeleted == 0 && s.pingDeleted == 0 && forall t :: !Deleting(PcOf(s, t))
  }

  /** After it, nobody is inside, one thread deletes, and the counts say how far it is. */
  ghost predicate Taken(s: State) {
    && (forall t :: PcOf(s, t) != Inside)
    && (forall t, t' :: Deleting(PcOf(s, t)) && Deleting(PcOf(s, t')) ==> t == t')
    && (forall t :: PcOf(s, t) == DeletingFirst ==> s.blockDeleted == 0 && s.pingDeleted == 0)
    && (forall t :: PcOf(s, t) == DeletingSecond ==> s.blockDeleted == 1 && s.pingDeleted == 0)
    && ((forall t :: !Deleting(PcOf(s, t))) ==> s.blockDeleted == 1 && s.pingDeleted == 1)
  }

  /** Asked for and no users left: somebody is about to take it on. */
  ghost predicate SomebodyRetries(s: State) { exists t :: PcOf(s, t) == Retrying }

  ghost predicate InvWith(s: State, bits: int) {
    && WordOk(s, bits)
    && (if bits == 3 then Taken(s) else NotYet(s))
    && (s.word == 1 ==> SomebodyRetries(s))
  }

  ghost predicate Inv(s: State) { exists bits :: InvWith(s, bits) }

  /** How the count changes when one thread moves. */
  lemma Moves(threads: map<Thread, Pc>, t: Thread, pc: Pc)
    ensures var was := if t in threads then threads[t] else Idle;
            |Users(threads[t := pc])| == |Users(threads)| - (if Counted(was) then 1 else 0)
                + (if Counted(pc) then 1 else 0)
  {
    var a, a' := Users(threads), Users(threads[t := pc]);
    assert a - {t} == a' - {t};
    SameApart(a, a', t);
  }

  lemma SameApart(a: set<Thread>, a': set<Thread>, t: Thread)
    requires a - {t} == a' - {t}
    ensures |a'| == |a| - (if t in a then 1 else 0) + (if t in a' then 1 else 0)
  {
    assert t !in a ==> a - {t} == a;
    assert t !in a' ==> a' - {t} == a';
  }

  lemma HasUser(s: State, t: Thread)
    requires Counted(PcOf(s, t))
    ensures |Users(s.threads)| > 0
  {
    assert t in Users(s.threads);
  }

  lemma NoUsers(s: State, t: Thread)
    requires |Users(s.threads)| == 0
    ensures !Counted(PcOf(s, t))
  {
    if Counted(PcOf(s, t)) {
      HasUser(s, t);
    }
  }

  lemma InvEnter(s: State, t: Thread, bits: int, s': State)
    requires InvWith(s, bits) && PcOf(s, t) == Idle && (s' == Step(s, Enter(t)) || s' == Step(s, Request(t)))
    ensures InvWith(s', bits)
  {
    Moves(s.threads, t, PcOf(s', t));
    forall x ensures PcOf(s', x) == if x == t then s'.threads[t] else PcOf(s, x) {
    }
  }

  lemma InvLeave(s: State, t: Thread, bits: int)
    requires InvWith(s, bits) && (PcOf(s, t) == Inside || PcOf(s, t) == Leaving)
    ensures InvWith(Step(s, Leave(t)), bits)
  {
    var s' := Step(s, Leave(t));
    Moves(s.threads, t, PcOf(s', t));
    HasUser(s, t);
    forall x ensures PcOf(s', x) == if x == t then s'.threads[t] else PcOf(s, x) {
    }
  }

  lemma InvRetry(s: State, t: Thread, spurious: bool, bits: int)
    requires InvWith(s, bits) && PcOf(s, t) == Retrying
    ensures InvWith(Step(s, Retry(t, spurious)), if s.word == 1 && !spurious then 3 else bits)
  {
    var s' := Step(s, Retry(t, spurious));
    Moves(s.threads, t, PcOf(s', t));
    forall x ensures PcOf(s', x) == if x == t then s'.threads[t] else PcOf(s, x) {
    }
    if s.word == 1 && !spurious {
      forall x ensures PcOf(s', x) != Inside {
        NoUsers(s, x);
      }
    }
  }

  lemma Parity(s: State, bits: int)
    requires WordOk(s, bits)
    ensures s.word % 2 == 0 <==> bits == 0
  {
    var n := |Users(s.threads)|;
    assert s.word == 2 * (2 * n) + bits;
  }

  lemma InvSetBit(s: State, t: Thread, bits: int)
    requires InvWith(s, bits) && PcOf(s, t) == Requesting
    ensures InvWith(Step(s, SetBit(t)), if bits == 0 then 1 else bits)
  {
    var s' := Step(s, SetBit(t));
    Moves(s.threads, t, Leaving);
    HasUser(s, t);
    Parity(s, bits);
    forall x ensures PcOf(s', x) == if x == t then s'.threads[t] else PcOf(s, x) {
    }
  }

  lemma InvDelete(s: State, t: Thread, bits: int)
    requires InvWith(s, bits) && Deleting(PcOf(s, t))
    ensures InvWith(Step(s, Delete(t)), bits)
  {
    var s' := Step(s, Delete(t));
    Moves(s.threads, t, PcOf(s', t));
    forall x ensures PcOf(s', x) == if x == t then s'.threads[t] else PcOf(s, x) {
    }
  }

  lemma StepKeeps(s: State, a: Action)
    requires Inv(s)
    ensures Inv(Step(s, a))
  {
    var bits :| InvWith(s, bits);
    match a
    case Enter(t) => if PcOf(s, t) == Idle { InvEnter(s, t, bits, Step(s, a)); }
    case Leave(t) => if PcOf(s, t) == Inside || PcOf(s, t) == Leaving { InvLeave(s, t, bits); }
    case Retry(t, spurious) => if PcOf(s, t) == Retrying { InvRetry(s, t, spurious, bits); }
    case Request(t) => if PcOf(s, t) == Idle { InvEnter(s, t, bits, Step(s, a)); }
    case SetBit(t) => if PcOf(s, t) == Requesting { InvSetBit(s, t, bits); }
    case Delete(t) => if Deleting(PcOf(s, t)) { InvDelete(s, t, bits); }
  }

  lemma {:induction false} RunKeeps(actions: seq<Action>)
    ensures Inv(Run(actions))
  {
    if actions == [] {
      assert Users(map[]) == {};
      assert InvWith(Run([]), 0);
    } else {
      RunKeeps(actions[..|actions| - 1]);
      StepKeeps(Run(actions[..|actions| - 1]), actions[|actions| - 1]);
    }
  }

  // ---- what is promised -------------------------------------------------------------------------------

  /** In every interleaving each event is deleted at most once. */
  lemma DeletedAtMostOnce(actions: seq<Action>)
    ensures Run(actions).blockDeleted <= 1 && Run(actions).pingDeleted <= 1
  {
    RunKeeps(actions);
  }

  /** No event goes while a thread that was let in is still inside. */
  lemma NeverWhileInside(actions: seq<Action>, a: Action, t: Thread)
    requires PcOf(Run(actions), t) == Inside
    ensures var s, s' := Run(actions), Step(Run(actions), a);
        s'.blockDeleted == s.blockDeleted == 0 && s'.pingDeleted == s.pingDeleted == 0
  {
    RunKeeps(actions);
  }

  /** Once the deletion was asked for and every thread is out, both events are gone, each deleted once. */
  lemma DeletedWhenAllOut(actions: seq<Action>)
    requires Run(actions).word % 2 == 1 && forall t :: PcOf(Run(actions), t) == Idle
    ensures Run(actions).blockDeleted == 1 && Run(actions).pingDeleted == 1
  {
    RunKeeps(actions);
    var s := Run(actions);
    var bits :| InvWith(s, bits);
    forall t ensures t !in Users(s.threads) {
      assert PcOf(s, t) == Idle;
    }
    assert Users(s.threads) == {};
  }

  /** A request once made stays made, and nobody is let in after it. */
  lemma RequestStands(s: State, a: Action)
    requires s.word % 2 == 1
    ensures Step(s, a).word % 2 == 1 && forall t :: PcOf(Step(s, a), t) == Inside ==> PcOf(s, t) == Inside
  {
    match a
    case Enter(t) =>
    case Leave(t) =>
    case Retry(t, spurious) =>
    case Request(t) =>
    case SetBit(t) =>
    case Delete(t) =>
  }

  /** As long as nobody has asked for the deletion, whoever comes is let in and nothing is deleted. */
  lemma OpenUntilAsked(actions: seq<Action>, t: Thread)
    requires Run(actions).word % 2 == 0
    ensures Run(actions).blockDeleted == 0 && Run(actions).pingDeleted == 0
    ensures PcOf(Run(actions), t) == Idle ==> PcOf(Step(Run(actions), Enter(t)), t) == Inside
  {
    RunKeeps(actions);
    var bits :| InvWith(Run(actions), bits);
    Parity(Run(actions), bits);
  }

  /** Who asks for the deletion has it on record before leaving. */
  lemma AskingIsRecorded(s: State, t: Thread)
    requires PcOf(s, t) == Requesting
    ensures Step(s, SetBit(t)).word % 2 == 1 && PcOf(Step(s, SetBit(t)), t) == Leaving
  {
  }

  /** The operation a thread does next on its way out. */
  function Onward(s: State, t: Thread): Action {
    match PcOf(s, t)
    case Idle => Enter(t)
    case Inside => Leave(t)
    case Leaving => Leave(t)
    case Retrying => Retry(t, false)
    case Requesting => SetBit(t)
    case DeletingFirst => Delete(t)
    case DeletingSecond => Delete(t)
  }

  function StepsOut(pc: Pc): nat {
    match pc
    case Idle => 0
    case DeletingSecond => 1
    case DeletingFirst => 2
    case Retrying => 3
    case Inside => 4
    case Leaving => 4
    case Requesting => 5
  }

  /** A thread gets out by its own steps, five at most, whatever the others do in between; it waits for nobody. */
  lemma GetsOut(s: State, t: Thread)
    requires PcOf(s, t) != Idle
    ensures StepsOut(PcOf(Step(s, Onward(s, t)), t)) < StepsOut(PcOf(s, t))
  {
  }
}
