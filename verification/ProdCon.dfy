/** The bounded buffer of assignment2/prod_con.c, with atomic counting
    semaphores: any number of producers and consumers, any buffer size, any
    number of rounds. */
module ProdCon {
  import opened Counting
  import opened BoundedBuffer
  import opened Steps
  import D = Delivery

  datatype Config = Config(size: nat, rounds: nat, producers: nat, consumers: nat)

  /** `full`, `empty`: the values of full_sem (free slots) and empty_sem (items). */
  datatype State = State(full: int, empty: int, b: Shared, ths: seq<Thread>)

  function IsProducer(th: Thread): int { Ind(th.role == Producer) }

  function IsConsumer(th: Thread): int { Ind(th.role == Consumer) }

  ghost predicate Init(c: Config, s: State) {
    && s.full == c.size && s.empty == 0
    && |s.b.data| == c.size && s.b.idx == 0 && s.b.lock == 1
    && s.b.log == [] && s.b.produced == multiset{} && s.b.faults == 0
    && (forall t | 0 <= t < |s.ths| :: s.ths[t].phase == Loop && s.ths[t].i == 0)
    && Sum(s.ths, IsProducer) == c.producers
    && Sum(s.ths, IsConsumer) == c.consumers
  }

  /** Such a state, for every number of producers and consumers. */
  lemma {:induction false} CanStart(c: Config) returns (s: State)
    ensures Init(c, s)
    decreases c.producers + c.consumers
  {
    if c.producers == 0 && c.consumers == 0 {
      s := State(c.size, 0, Shared(1, seq(c.size, _ => 0), 0, [], multiset{}, 0), []);
    } else {
      var role := if c.producers > 0 then Producer else Consumer;
      var fewer := if c.producers > 0 then c.(producers := c.producers - 1) else c.(consumers := c.consumers - 1);
      var s1 := CanStart(fewer);
      s := s1.(ths := [Thread(role, Loop, 0, 0)] + s1.ths);
      assert s.ths[1..] == s1.ths;
    }
  }

  function Step(rounds: nat, s: State, t: nat, v: int): Option<State>
    requires t < |s.ths|
  {
    var th := s.ths[t];
    if th.phase == Waiting then
      var s' := s.(ths := s.ths[t := th.(phase := Locking)]);
      if th.role == Producer then
        if s.full > 0 then Some(s'.(full := s.full - 1)) else None
      else
        if s.empty > 0 then Some(s'.(empty := s.empty - 1)) else None
    else if th.phase == Posting then
      var s' := s.(ths := s.ths[t := th.(phase := Loop)]);
      if th.role == Producer then Some(s'.(empty := s.empty + 1)) else Some(s'.(full := s.full + 1))
    else
      match BodyStep(rounds, s.b, th, v)
      case None => None
      case Some((b, th')) => Some(s.(b := b, ths := s.ths[t := th']))
  }

  /** A step is one statement of one thread and leaves the others as they are;
      only the semaphore calls touch the semaphores, and nothing else. */
  lemma OneThreadMoves(rounds: nat, s: State, t: nat, v: int)
    requires t < |s.ths| && Step(rounds, s, t, v).Some?
    ensures var s' := Step(rounds, s, t, v).value; var calls := s.ths[t].phase in {Waiting, Posting};
      && |s'.ths| == |s.ths| && (forall u | 0 <= u < |s.ths| && u != t :: s'.ths[u] == s.ths[u])
      && (calls ==> s'.b == s.b && s'.ths[t] == s.ths[t].(phase := s'.ths[t].phase))
      && (!calls ==> s'.full == s.full && s'.empty == s.empty
                     && Some((s'.b, s'.ths[t])) == BodyStep(rounds, s.b, s.ths[t], v))
  {
  }

  ghost predicate Next(c: Config, s: State, s': State) {
    exists t: nat, v: int :: t < |s.ths| && Step(c.rounds, s, t, v) == Some(s')
  }

  ghost predicate Run(c: Config, tr: seq<State>) {
    && |tr| > 0
    && Init(c, tr[0])
    && forall j | 0 <= j < |tr| - 1 :: Next(c, tr[j], tr[j + 1])
  }

  lemma RunExtend(c: Config, tr: seq<State>, s': State)
    requires Run(c, tr) && Next(c, tr[|tr| - 1], s')
    ensures Run(c, tr + [s'])
  {
  }

  // ---- where slots, items and the mutex can be ----

  function InCS(th: Thread): int {
    Ind(th.phase in {Testing, Storing, Bumping, Dropping, Fetching, Unlocking})
  }

  /** A producer that holds a slot it has not filled. */
  function SlotHeld(th: Thread): int {
    Ind(th.role == Producer && th.phase in {Locking, Testing, Storing, Bumping})
  }

  /** A producer whose insert is not announced yet. */
  function ItemUnposted(th: Thread): int {
    Ind(th.role == Producer && th.phase in {Unlocking, Posting})
  }

  /** A consumer that holds an item it has not taken. */
  function ItemHeld(th: Thread): int {
    Ind(th.role == Consumer && th.phase in {Locking, Testing, Dropping})
  }

  /** A consumer whose removal is not announced yet. */
  function SlotUnposted(th: Thread): int {
    Ind(th.role == Consumer && th.phase in {Fetching, Unlocking, Posting})
  }

  function AtFetch(th: Thread): int { Ind(th.phase == Fetching) }

  /** Inserts (negative) or removals (positive) the thread has yet to make. */
  function LeftOf(rounds: nat, th: Thread): int {
    match th.role
    case Producer => if th.phase in {Waiting, Locking, Testing, Storing, Bumping, Done} then th.i - 1 - rounds else th.i - rounds
    case Consumer => if th.phase in {Waiting, Locking, Testing, Dropping, Done} then rounds + 1 - th.i else rounds - th.i
  }

  function Left(rounds: nat): Thread -> int {
    th => LeftOf(rounds, th)
  }

  /** Inserts minus removals over a whole run. */
  ghost function Surplus(c: Config): int {
    c.rounds * (c.producers - c.consumers)
  }

  /** A producer that has drawn the value x and not inserted it. */
  function HoldsValue(x: int, th: Thread): int {
    Ind(th.role == Producer && th.phase in {Waiting, Locking, Testing, Storing, Bumping} && th.item == x)
  }

  function Holds(x: int): Thread -> int {
    th => HoldsValue(x, th)
  }

  // ---- the invariant ----

  ghost predicate Tokens(c: Config, s: State) {
    && s.full >= 0 && s.empty >= 0
    && s.b.lock + Sum(s.ths, InCS) == 1
    && c.size == s.b.idx + s.full + Sum(s.ths, SlotHeld) + Sum(s.ths, SlotUnposted)
    && s.b.idx == s.empty + Sum(s.ths, ItemUnposted) + Sum(s.ths, ItemHeld)
    && s.b.idx == Sum(s.ths, Left(c.rounds)) + Surplus(c)
  }

  predicate LastIs(log: seq<Event>, e: Event) {
    log != [] && log[|log| - 1] == e
  }

  ghost predicate ThreadOK(rounds: nat, b: Shared, th: Thread) {
    && (th.phase in {Storing, Bumping} ==> th.role == Producer)
    && (th.phase in {Dropping, Fetching} ==> th.role == Consumer)
    && (if th.phase == Loop then th.i <= rounds else if th.phase == Done then th.i == rounds + 1 else 1 <= th.i <= rounds)
    && (th.phase == Bumping ==> 0 <= b.idx < |b.data| && b.data[b.idx] == th.item)
    && (th.phase == Unlocking ==> LastIs(b.log, if th.role == Producer then Inserted(th.item) else Removed(th.item)))
  }

  ghost predicate Threads(c: Config, s: State) {
    && |s.b.data| == c.size && s.b.faults == 0
    && forall t | 0 <= t < |s.ths| :: ThreadOK(c.rounds, s.b, s.ths[t])
  }

  /** The buffer is the stack that the log leaves; an item being fetched is
      still its top. */
  ghost predicate Stack(s: State) {
    var top := s.b.idx + Sum(s.ths, AtFetch);
    && 0 <= s.b.idx <= top <= |s.b.data|
    && Replay(s.b.log) == Some(s.b.data[..top])
  }

  /** Every value drawn is inserted once or still in one producer's hands. */
  ghost predicate Ledger(s: State) {
    forall x :: s.b.produced[x] == Inserts(s.b.log)[x] + Sum(s.ths, Holds(x))
  }

  ghost predicate Inv(c: Config, s: State) {
    Tokens(c, s) && Threads(c, s) && Stack(s) && Ledger(s)
  }

  lemma {:induction false} CountsFit(ths: seq<Thread>)
    ensures Sum(ths, SlotHeld) >= 0 && Sum(ths, SlotUnposted) >= 0 && Sum(ths, ItemUnposted) >= 0
    ensures Sum(ths, ItemHeld) >= 0 && Sum(ths, AtFetch) >= 0
    ensures Sum(ths, AtFetch) <= Sum(ths, InCS)
  {
    if ths == [] {
    } else {
      CountsFit(ths[1..]);
    }
  }

  /** What the tokens give one thread: the index tests succeed. */
  lemma RoomForThread(c: Config, s: State, t: nat)
    requires Tokens(c, s) && t < |s.ths|
    ensures 0 <= s.b.idx <= c.size
    ensures SlotHeld(s.ths[t]) == 1 ==> s.b.idx < c.size
    ensures ItemHeld(s.ths[t]) == 1 ==> s.b.idx > 0
    ensures SlotUnposted(s.ths[t]) == 1 ==> s.b.idx < c.size
  {
    CountsFit(s.ths);
    SumAtLeast(s.ths, t, SlotHeld);
    SumAtLeast(s.ths, t, ItemHeld);
    SumAtLeast(s.ths, t, SlotUnposted);
  }

  /** The index tests and accesses of this thread are in range. */
  ghost predicate Safe(b: Shared, th: Thread) {
    && (SlotHeld(th) == 1 || SlotUnposted(th) == 1 ==> 0 <= b.idx < |b.data|)
    && (ItemHeld(th) == 1 ==> 0 < b.idx <= |b.data|)
  }

  /** Outside the semaphore calls, a step moves the tokens and nothing else. */
  lemma BodyStepMovesTokens(rounds: nat, b: Shared, th: Thread, v: int)
    requires ThreadOK(rounds, b, th) && Safe(b, th) && BodyStep(rounds, b, th, v).Some?
    ensures var (b', th') := BodyStep(rounds, b, th, v).value;
      && b'.lock + InCS(th') == b.lock + InCS(th)
      && b'.idx + SlotHeld(th') + SlotUnposted(th') == b.idx + SlotHeld(th) + SlotUnposted(th)
      && b'.idx - ItemUnposted(th') - ItemHeld(th') == b.idx - ItemUnposted(th) - ItemHeld(th)
      && b'.idx - LeftOf(rounds, th') == b.idx - LeftOf(rounds, th)
      && b'.faults == b.faults && |b'.data| == |b.data|
  {
  }

  lemma StepMovesTokens(c: Config, s: State, t: nat, v: int)
    requires t < |s.ths| && ThreadOK(c.rounds, s.b, s.ths[t]) && Safe(s.b, s.ths[t])
    requires Step(c.rounds, s, t, v).Some?
    ensures var s' := Step(c.rounds, s, t, v).value; var th, th' := s.ths[t], s'.ths[t];
      && s'.ths == s.ths[t := th']
      && (s.full >= 0 ==> s'.full >= 0) && (s.empty >= 0 ==> s'.empty >= 0)
      && s'.b.lock + InCS(th') == s.b.lock + InCS(th)
      && s'.b.idx + s'.full + SlotHeld(th') + SlotUnposted(th') == s.b.idx + s.full + SlotHeld(th) + SlotUnposted(th)
      && s'.b.idx - s'.empty - ItemUnposted(th') - ItemHeld(th') == s.b.idx - s.empty - ItemUnposted(th) - ItemHeld(th)
      && s'.b.idx - LeftOf(c.rounds, th') == s.b.idx - LeftOf(c.rounds, th)
  {
  }

  lemma StepKeepsTokens(c: Config, s: State, t: nat, v: int)
    requires Tokens(c, s) && Threads(c, s) && t < |s.ths| && Step(c.rounds, s, t, v).Some?
    ensures Tokens(c, Step(c.rounds, s, t, v).value)
  {
    var th := Step(c.rounds, s, t, v).value.ths[t];
    RoomForThread(c, s, t);
    StepMovesTokens(c, s, t, v);
    SumUpdate(s.ths, t, th, InCS);
    SumUpdate(s.ths, t, th, SlotHeld);
    SumUpdate(s.ths, t, th, SlotUnposted);
    SumUpdate(s.ths, t, th, ItemUnposted);
    SumUpdate(s.ths, t, th, ItemHeld);
    SumUpdate(s.ths, t, th, Left(c.rounds));
  }

  /** Only one thread is in the critical section. */
  lemma AloneInCS(c: Config, s: State, t: nat)
    requires Tokens(c, s) && t < |s.ths| && InCS(s.ths[t]) == 1
    ensures forall u | 0 <= u < |s.ths| && u != t :: InCS(s.ths[u]) == 0
    ensures Sum(s.ths, AtFetch) == AtFetch(s.ths[t])
  {
    forall u | 0 <= u < |s.ths| && u != t ensures InCS(s.ths[u]) == 0 {
      SumAtLeastTwo(s.ths, t, u, InCS);
    }
    CountsFit(s.ths);
    SumAtLeast(s.ths, t, AtFetch);
    SumUpdate(s.ths, t, s.ths[t].(phase := Loop), AtFetch);
    SumZero(s.ths[t := s.ths[t].(phase := Loop)], AtFetch);
  }

  lemma BodyStepKeepsReplay(rounds: nat, b: Shared, th: Thread, v: int)
    requires ThreadOK(rounds, b, th) && Safe(b, th) && BodyStep(rounds, b, th, v).Some?
    requires InCS(th) == 1 && 0 <= b.idx && b.idx + AtFetch(th) <= |b.data|
    requires Replay(b.log) == Some(b.data[..b.idx + AtFetch(th)])
    ensures var (b', th') := BodyStep(rounds, b, th, v).value;
      && 0 <= b'.idx && b'.idx + AtFetch(th') <= |b'.data|
      && Replay(b'.log) == Some(b'.data[..b'.idx + AtFetch(th')])
  {
    match th.phase
    case Storing => assert b.data[b.idx := th.item][..b.idx] == b.data[..b.idx];
    case Bumping =>
      LogInsert(b.log, b.data[..b.idx], th.item);
      assert b.data[..b.idx] + [th.item] == b.data[..b.idx + 1];
    case Fetching =>
      assert b.data[..b.idx] + [b.data[b.idx]] == b.data[..b.idx + 1];
      LogRemove(b.log, b.data[..b.idx], b.data[b.idx]);
    case _ =>
  }

  /** A value leaves the hand where it is logged ... */
  lemma BodyStepMovesHand(rounds: nat, b: Shared, th: Thread, v: int, x: int)
    requires ThreadOK(rounds, b, th) && Safe(b, th) && BodyStep(rounds, b, th, v).Some?
    ensures var (b', th') := BodyStep(rounds, b, th, v).value;
      b'.produced[x] - HoldsValue(x, th') == b.produced[x] - HoldsValue(x, th) + Ind(th.phase == Bumping && th.item == x)
  {
  }

  /** ... as inserted. */
  lemma BodyStepLogs(rounds: nat, b: Shared, th: Thread, v: int, x: int)
    requires ThreadOK(rounds, b, th) && Safe(b, th) && BodyStep(rounds, b, th, v).Some?
    ensures Inserts(BodyStep(rounds, b, th, v).value.0.log)[x] == Inserts(b.log)[x] + Ind(th.phase == Bumping && th.item == x)
  {
    var log := BodyStep(rounds, b, th, v).value.0.log;
    if th.phase == Bumping {
      assert log == b.log + [Inserted(th.item)];
      InsertsAppend(b.log, Inserted(th.item), x);
    } else if th.phase == Fetching {
      assert log == b.log + [Removed(b.data[b.idx])];
      InsertsAppend(b.log, Removed(b.data[b.idx]), x);
    } else {
      assert log == b.log;
    }
  }

  lemma BodyStepKeepsHand(rounds: nat, b: Shared, th: Thread, v: int, x: int)
    requires ThreadOK(rounds, b, th) && Safe(b, th) && BodyStep(rounds, b, th, v).Some?
    ensures var (b', th') := BodyStep(rounds, b, th, v).value;
      b'.produced[x] - Inserts(b'.log)[x] - HoldsValue(x, th') == b.produced[x] - Inserts(b.log)[x] - HoldsValue(x, th)
  {
    BodyStepMovesHand(rounds, b, th, v, x);
    BodyStepLogs(rounds, b, th, v, x);
  }

  lemma BodyStepKeepsThreads(rounds: nat, b: Shared, th: Thread, v: int)
    requires ThreadOK(rounds, b, th) && Safe(b, th) && BodyStep(rounds, b, th, v).Some?
    ensures var (b', th') := BodyStep(rounds, b, th, v).value;
      && ThreadOK(rounds, b', th')
      && forall u | ThreadOK(rounds, b, u) && (InCS(th) == 0 || InCS(u) == 0) :: ThreadOK(rounds, b', u)
  {
  }

  lemma StepKeepsThreads(c: Config, s: State, t: nat, v: int)
    requires Tokens(c, s) && Threads(c, s) && t < |s.ths| && Step(c.rounds, s, t, v).Some?
    ensures Threads(c, Step(c.rounds, s, t, v).value)
  {
    assert ThreadOK(c.rounds, s.b, s.ths[t]);
    if s.ths[t].phase !in {Waiting, Posting} {
      RoomForThread(c, s, t);
      BodyStepMovesTokens(c.rounds, s.b, s.ths[t], v);
      BodyStepKeepsThreads(c.rounds, s.b, s.ths[t], v);
      if InCS(s.ths[t]) == 1 {
        AloneInCS(c, s, t);
      }
    }
  }

  /** Outside the critical section a step leaves the buffer alone. */
  lemma OutsideCS(rounds: nat, b: Shared, th: Thread, v: int)
    requires InCS(th) == 0 && BodyStep(rounds, b, th, v).Some?
    ensures var (b', th') := BodyStep(rounds, b, th, v).value;
      b'.data == b.data && b'.idx == b.idx && b'.log == b.log && AtFetch(th') == AtFetch(th) == 0
  {
  }

  /** A step inside the critical section keeps the buffer the log's stack. */
  ghost predicate SectionKeepsStack(rounds: nat, s: State, t: nat, v: int)
    requires t < |s.ths|
  {
    match BodyStep(rounds, s.b, s.ths[t], v)
    case None => true
    case Some((b, th)) =>
      && Sum(s.ths, AtFetch) == AtFetch(s.ths[t])
      && 0 <= b.idx && b.idx + AtFetch(th) <= |b.data|
      && Replay(b.log) == Some(b.data[..b.idx + AtFetch(th)])
  }

  lemma StackInCS(c: Config, s: State, t: nat, v: int)
    requires Tokens(c, s) && Threads(c, s) && Stack(s)
    requires t < |s.ths| && InCS(s.ths[t]) == 1
    ensures SectionKeepsStack(c.rounds, s, t, v)
  {
    AloneInCS(c, s, t);
    RoomForThread(c, s, t);
    assert ThreadOK(c.rounds, s.b, s.ths[t]) && Safe(s.b, s.ths[t]);
    BodyStepKeepsReplay(c.rounds, s.b, s.ths[t], v);
  }

  lemma BodyKeepsStack(rounds: nat, s: State, t: nat, v: int)
    requires Stack(s) && t < |s.ths| && s.ths[t].phase !in {Waiting, Posting} && Step(rounds, s, t, v).Some?
    requires InCS(s.ths[t]) == 1 ==> SectionKeepsStack(rounds, s, t, v)
    ensures Stack(Step(rounds, s, t, v).value)
  {
    var s' := Step(rounds, s, t, v).value;
    OneThreadMoves(rounds, s, t, v);
    SumUpdate(s.ths, t, s'.ths[t], AtFetch);
    assert s'.ths == s.ths[t := s'.ths[t]];
    if InCS(s.ths[t]) == 0 {
      OutsideCS(rounds, s.b, s.ths[t], v);
    }
  }

  lemma SemKeepsStack(rounds: nat, s: State, t: nat, v: int)
    requires Stack(s) && t < |s.ths| && s.ths[t].phase in {Waiting, Posting} && Step(rounds, s, t, v).Some?
    ensures Stack(Step(rounds, s, t, v).value)
  {
    var s' := Step(rounds, s, t, v).value;
    assert s'.b == s.b && s'.ths == s.ths[t := s'.ths[t]] && AtFetch(s'.ths[t]) == 0;
    SumUpdate(s.ths, t, s'.ths[t], AtFetch);
  }

  lemma StepKeepsStack(rounds: nat, s: State, t: nat, v: int)
    requires Stack(s) && t < |s.ths| && Step(rounds, s, t, v).Some?
    requires InCS(s.ths[t]) == 1 ==> SectionKeepsStack(rounds, s, t, v)
    ensures Stack(Step(rounds, s, t, v).value)
  {
    if s.ths[t].phase in {Waiting, Posting} {
      SemKeepsStack(rounds, s, t, v);
    } else {
      BodyKeepsStack(rounds, s, t, v);
    }
  }

  lemma StepKeepsLedger(c: Config, s: State, t: nat, v: int)
    requires Tokens(c, s) && Threads(c, s) && Ledger(s) && t < |s.ths| && Step(c.rounds, s, t, v).Some?
    ensures Ledger(Step(c.rounds, s, t, v).value)
  {
    var s' := Step(c.rounds, s, t, v).value;
    assert ThreadOK(c.rounds, s.b, s.ths[t]);
    RoomForThread(c, s, t);
    forall x ensures s'.b.produced[x] == Inserts(s'.b.log)[x] + Sum(s'.ths, Holds(x)) {
      SumUpdate(s.ths, t, s'.ths[t], Holds(x));
      if s.ths[t].phase !in {Waiting, Posting} {
        BodyStepKeepsHand(c.rounds, s.b, s.ths[t], v, x);
      }
    }
  }

  lemma StepKeepsInv(c: Config, s: State, t: nat, v: int)
    requires Inv(c, s) && t < |s.ths| && Step(c.rounds, s, t, v).Some?
    ensures Inv(c, Step(c.rounds, s, t, v).value)
  {
    StepKeepsTokens(c, s, t, v);
    StepKeepsThreads(c, s, t, v);
    if InCS(s.ths[t]) == 1 {
      StackInCS(c, s, t, v);
    }
    StepKeepsStack(c.rounds, s, t, v);
    StepKeepsLedger(c, s, t, v);
  }

  lemma {:induction false} InitialLeft(rounds: nat, ths: seq<Thread>)
    requires forall t | 0 <= t < |ths| :: ths[t].phase == Loop && ths[t].i == 0
    ensures Sum(ths, Left(rounds)) == rounds * (Sum(ths, IsConsumer) - Sum(ths, IsProducer))
  {
    if ths == [] {
    } else {
      InitialLeft(rounds, ths[1..]);
      var d := Sum(ths[1..], IsConsumer) - Sum(ths[1..], IsProducer);
      assert rounds * (d + 1) == rounds * d + rounds && rounds * (d - 1) == rounds * d - rounds;
    }
  }

  lemma InitHasInv(c: Config, s: State)
    requires Init(c, s)
    ensures Inv(c, s)
  {
    SumZero(s.ths, InCS);
    SumZero(s.ths, SlotHeld);
    SumZero(s.ths, SlotUnposted);
    SumZero(s.ths, ItemUnposted);
    SumZero(s.ths, ItemHeld);
    SumZero(s.ths, AtFetch);
    InitialLeft(c.rounds, s.ths);
    assert c.rounds * (c.consumers - c.producers) == -Surplus(c);
    forall x ensures Sum(s.ths, Holds(x)) == 0 {
      SumZero(s.ths, Holds(x));
    }
  }

  lemma {:induction false} RunHasInv(c: Config, tr: seq<State>)
    requires Run(c, tr)
    ensures Inv(c, tr[|tr| - 1])
  {
    if |tr| == 1 {
      InitHasInv(c, tr[0]);
    } else {
      var s := tr[|tr| - 2];
      RunHasInv(c, tr[..|tr| - 1]);
      assert Next(c, s, tr[|tr| - 2 + 1]);
      var t: nat, v :| t < |s.ths| && Step(c.rounds, s, t, v) == Some(tr[|tr| - 1]);
      StepKeepsInv(c, s, t, v);
    }
  }

  // ---- main results, for every run ----

  /** A producer between its wait and its post. */
  function HoldsSlot(th: Thread): int {
    Ind(th.role == Producer && th.phase in {Locking, Testing, Storing, Bumping, Unlocking, Posting})
  }

  /** A consumer between its wait and its post. */
  function HoldsItem(th: Thread): int {
    Ind(th.role == Consumer && th.phase in {Locking, Testing, Dropping, Fetching, Unlocking, Posting})
  }

  lemma {:induction false} HoldersSplit(c: Config, b: Shared, ths: seq<Thread>)
    requires forall t | 0 <= t < |ths| :: ThreadOK(c.rounds, b, ths[t])
    ensures Sum(ths, HoldsSlot) == Sum(ths, SlotHeld) + Sum(ths, ItemUnposted)
    ensures Sum(ths, HoldsItem) == Sum(ths, ItemHeld) + Sum(ths, SlotUnposted)
  {
    if ths == [] {
    } else {
      assert forall t | 0 <= t < |ths[1..]| :: ths[1..][t] == ths[t + 1];
      assert ThreadOK(c.rounds, b, ths[0]);
      HoldersSplit(c, b, ths[1..]);
    }
  }

  /** The tokens of the two semaphores, and the race the source comments fear
      does not exist: the index test of every insert and every removal
      succeeds, so no run overflows or underflows. */
  lemma NoOverflowNoUnderflow(c: Config, tr: seq<State>)
    requires Run(c, tr)
    ensures var s := tr[|tr| - 1];
      && s.full + s.empty + Sum(s.ths, HoldsSlot) + Sum(s.ths, HoldsItem) == c.size
      && s.b.idx == s.empty + Sum(s.ths, ItemUnposted) + Sum(s.ths, ItemHeld)
      && s.b.faults == 0 && 0 <= s.b.idx <= c.size == |s.b.data|
      && forall t | 0 <= t < |s.ths| && s.ths[t].phase == Testing ::
           if s.ths[t].role == Producer then s.b.idx < c.size else s.b.idx > 0
  {
    RunHasInv(c, tr);
    var s := tr[|tr| - 1];
    HoldersSplit(c, s.b, s.ths);
    CountsFit(s.ths);
    forall t | 0 <= t < |s.ths| && s.ths[t].phase == Testing
      ensures if s.ths[t].role == Producer then s.b.idx < c.size else s.b.idx > 0
    {
      RoomForThread(c, s, t);
    }
  }

  /** Last in, first out: every removal returned the item inserted last and not
      yet removed. */
  lemma BufferReplays(c: Config, tr: seq<State>)
    requires Run(c, tr)
    ensures var s := tr[|tr| - 1]; var top := s.b.idx + Sum(s.ths, AtFetch);
      0 <= s.b.idx <= top <= |s.b.data| && Replay(s.b.log) == Some(s.b.data[..top])
  {
    RunHasInv(c, tr);
  }

  /** The value x, as often as it was produced, has been consumed, or is in the
      buffer, or is in a producer's hands. */
  ghost predicate AccountedFor(s: State, x: int) {
    var top := s.b.idx + Sum(s.ths, AtFetch);
    && 0 <= s.b.idx <= top <= |s.b.data|
    && s.b.produced[x] == Removals(s.b.log)[x] + multiset(s.b.data[..top])[x] + Sum(s.ths, Holds(x))
  }

  lemma StackAndLedger(s: State, x: int)
    requires Stack(s) && Ledger(s)
    ensures AccountedFor(s, x)
  {
    var stack := s.b.data[..s.b.idx + Sum(s.ths, AtFetch)];
    ghost var inserts, removals := Inserts(s.b.log)[x], Removals(s.b.log)[x];
    assert s.b.produced[x] == inserts + Sum(s.ths, Holds(x));
    assert inserts == removals + multiset(stack)[x] by {
      ReplayBalancesAt(s.b.log, stack, x);
    }
  }

  /** Last in, first out, and conservation: every value produced has been consumed
      once, or is in the buffer, or is in one producer's hands. */
  lemma BufferIsAStack(c: Config, tr: seq<State>, x: int)
    requires Run(c, tr)
    ensures Stack(tr[|tr| - 1]) && AccountedFor(tr[|tr| - 1], x)
  {
    RunHasInv(c, tr);
    StackAndLedger(tr[|tr| - 1], x);
  }

  /** The log tells the truth about the threads: a producer leaves the critical
      section having inserted its own value, and a consumer with the value
      that was removed. */
  lemma ItemIsTheEvent(c: Config, tr: seq<State>, t: nat)
    requires Run(c, tr) && t < |tr[|tr| - 1].ths|
    ensures var s := tr[|tr| - 1]; var th := s.ths[t]; th.phase == Unlocking ==>
      LastIs(s.b.log, if th.role == Producer then Inserted(th.item) else Removed(th.item))
  {
    RunHasInv(c, tr);
    assert ThreadOK(c.rounds, tr[|tr| - 1].b, tr[|tr| - 1].ths[t]);
  }

  // ---- the values, against the draws of the run ----

  ghost predicate Follows(c: Config, s: State, l: D.Label, s': State) {
    l.t < |s.ths| && Step(c.rounds, s, l.t, l.v) == Some(s')
  }

  /** A run together with the thread and the draw of every step. */
  ghost predicate Labelled(c: Config, tr: seq<State>, ls: seq<D.Label>) {
    && |tr| == |ls| + 1 && Init(c, tr[0])
    && forall j | 0 <= j < |ls| :: Follows(c, tr[j], ls[j], tr[j + 1])
  }

  /** Every run has labels, and what has labels is a run. */
  lemma {:induction false} RunHasLabels(c: Config, tr: seq<State>) returns (ls: seq<D.Label>)
    requires Run(c, tr)
    ensures Labelled(c, tr, ls)
  {
    if |tr| == 1 {
      ls := [];
    } else {
      var s, s' := tr[|tr| - 2], tr[|tr| - 1];
      assert Next(c, s, tr[|tr| - 2 + 1]);
      var before := RunHasLabels(c, tr[..|tr| - 1]);
      var t: nat, v: int :| t < |s.ths| && Step(c.rounds, s, t, v) == Some(s');
      ls := before + [D.Label(t, v)];
      assert Follows(c, s, D.Label(t, v), s');
      forall j | 0 <= j < |ls| ensures Follows(c, tr[j], ls[j], tr[j + 1]) {
        if j < |before| {
          assert Follows(c, tr[..|tr| - 1][j], before[j], tr[..|tr| - 1][j + 1]);
        }
      }
    }
  }

  lemma LabelledIsRun(c: Config, tr: seq<State>, ls: seq<D.Label>)
    requires Labelled(c, tr, ls)
    ensures Run(c, tr)
  {
    forall j | 0 <= j < |tr| - 1 ensures Next(c, tr[j], tr[j + 1]) {
      assert Follows(c, tr[j], ls[j], tr[j + 1]);
    }
  }

  function ViewOf(s: State): D.View {
    D.View(s.b, s.ths)
  }

  function Views(tr: seq<State>): seq<D.View> {
    seq(|tr|, j requires 0 <= j < |tr| => ViewOf(tr[j]))
  }

  lemma StepAccounts(c: Config, s: State, l: D.Label, s': State)
    requires Inv(c, s) && Follows(c, s, l, s')
    ensures D.Moves(c.rounds, ViewOf(s), l, ViewOf(s'))
  {
    assert ThreadOK(c.rounds, s.b, s.ths[l.t]);
    RoomForThread(c, s, l.t);
    if s.ths[l.t].phase !in {Waiting, Posting} {
      D.BodyStepAccounts(c.rounds, s.b, s.ths[l.t], l.v);
    }
  }

  lemma LabelledAccounts(c: Config, tr: seq<State>, ls: seq<D.Label>)
    requires Labelled(c, tr, ls)
    ensures D.Run(c.rounds, Views(tr), ls)
  {
    LabelledIsRun(c, tr, ls);
    forall j | 0 <= j < |ls| ensures D.Moves(c.rounds, Views(tr)[j], ls[j], Views(tr)[j + 1]) {
      RunHasInv(c, tr[..j + 1]);
      assert Follows(c, tr[j], ls[j], tr[j + 1]);
      StepAccounts(c, tr[j], ls[j], tr[j + 1]);
    }
  }

  /** Conservation against the draws: `produced` is what the producers drew, the
      removals are what the consumers took, and every value drawn was taken once,
      or is in the buffer, or is in the hands of a producer. */
  lemma DrawnIsAccountedFor(c: Config, tr: seq<State>, ls: seq<D.Label>, x: int)
    requires Labelled(c, tr, ls)
    ensures var s := tr[|tr| - 1];
      && s.b.produced == D.Drawn(c.rounds, Views(tr), ls, |ls|)
      && Removals(s.b.log) == D.Taken(Views(tr), ls, |ls|)
      && AccountedFor(s, x)
  {
    LabelledIsRun(c, tr, ls);
    LabelledAccounts(c, tr, ls);
    RunHasInv(c, tr);
    StackAndLedger(tr[|tr| - 1], x);
    D.Balance(c.rounds, Views(tr), ls);
  }

  /** From the step in which a producer draws to its next draw, its item is the
      value drawn; so that is what it inserts. */
  lemma ProducerKeepsDraw(c: Config, tr: seq<State>, ls: seq<D.Label>, t: nat, a: nat, b: nat)
    requires Labelled(c, tr, ls) && a < b <= |ls|
    requires ls[a].t == t && D.DrawsAt(c.rounds, ViewOf(tr[a]), ls[a])
    requires forall j | a < j < b && ls[j].t == t :: !D.DrawsAt(c.rounds, ViewOf(tr[j]), ls[j])
    ensures t < |tr[b].ths| && tr[b].ths[t].role == Producer && tr[b].ths[t].item == ls[a].v
    ensures b < |ls| && ls[b].t == t && tr[b].ths[t].phase == Bumping ==>
      tr[b + 1].b.log == tr[b].b.log + [Inserted(ls[a].v)]
  {
    LabelledAccounts(c, tr, ls);
    var xs := Views(tr);
    forall j | a < j < b && ls[j].t == t ensures !D.DrawsAt(c.rounds, xs[j], ls[j]) {
      assert xs[j] == ViewOf(tr[j]);
    }
    D.ItemIsDrawn(c.rounds, xs, ls, t, a, b);
    if b < |ls| && ls[b].t == t && tr[b].ths[t].phase == Bumping {
      D.InsertsTheDraw(c.rounds, xs, ls, t, a, b);
    }
  }

  /** From the step in which a consumer reads the buffer to its next one, its item
      is the value that was removed. */
  lemma ConsumerKeepsItem(c: Config, tr: seq<State>, ls: seq<D.Label>, t: nat, a: nat, b: nat)
    requires Labelled(c, tr, ls) && a < b <= |ls|
    requires ls[a].t == t && D.FetchesAt(ViewOf(tr[a]), ls[a])
    requires forall j | a < j < b && ls[j].t == t :: !D.FetchesAt(ViewOf(tr[j]), ls[j])
    ensures t < |tr[b].ths| && tr[b].ths[t].role == Consumer
    ensures tr[a + 1].b.log == tr[a].b.log + [Removed(tr[b].ths[t].item)]
  {
    LabelledAccounts(c, tr, ls);
    var xs := Views(tr);
    forall j | a < j < b && ls[j].t == t ensures !D.FetchesAt(xs[j], ls[j]) {
      assert xs[j] == ViewOf(tr[j]);
    }
    D.ItemIsTaken(c.rounds, xs, ls, t, a, b);
  }

  // ---- total correctness ----

  ghost predicate AllDone(s: State) {
    forall t | 0 <= t < |s.ths| :: s.ths[t].phase == Done
  }

  ghost predicate Stuck(c: Config, s: State) {
    forall t: nat, v: int | t < |s.ths| :: Step(c.rounds, s, t, v).None?
  }

  /** With nobody able to move, every unfinished thread waits on a semaphore. */
  lemma StuckAtSemaphores(c: Config, s: State)
    requires Inv(c, s) && Stuck(c, s)
    ensures forall t | 0 <= t < |s.ths| :: s.ths[t].phase in {Waiting, Done}
    ensures forall t | 0 <= t < |s.ths| && s.ths[t].phase == Waiting ::
      if s.ths[t].role == Producer then s.full == 0 else s.empty == 0
    ensures s.b.lock == 1 && c.size == s.b.idx + s.full && s.b.idx == s.empty
    ensures Sum(s.ths, AtFetch) == 0 && Sum(s.ths, InCS) == 0
  {
    forall t | 0 <= t < |s.ths|
      ensures s.ths[t].phase in {Waiting, Done, Locking} && (s.ths[t].phase == Locking ==> s.b.lock == 0)
    {
      assert Step(c.rounds, s, t, 0).None?;
    }
    SumZero(s.ths, InCS);
    forall t | 0 <= t < |s.ths| && s.ths[t].phase == Waiting
      ensures if s.ths[t].role == Producer then s.full == 0 else s.empty == 0
    {
      assert Step(c.rounds, s, t, 0).None?;
    }
    SumZero(s.ths, SlotHeld);
    SumZero(s.ths, SlotUnposted);
    SumZero(s.ths, ItemUnposted);
    SumZero(s.ths, ItemHeld);
    SumZero(s.ths, AtFetch);
  }

  /** The final state, and which run-outs are final: with a buffer of at least
      one slot, a state without moves has all threads finished if and only if
      the inserts exceed the removals by between 0 and `size`.  As many
      producers as consumers, as in the source, is the case of excess 0. */
  lemma StuckMeansDone(c: Config, s: State)
    requires Inv(c, s) && Stuck(c, s) && c.size > 0
    ensures AllDone(s) <==> 0 <= Surplus(c) <= c.size
    ensures AllDone(s) ==> s.b.idx == s.empty == Surplus(c)
  {
    StuckAtSemaphores(c, s);
    if AllDone(s) {
      forall t | 0 <= t < |s.ths| ensures LeftOf(c.rounds, s.ths[t]) == 0 {
        assert ThreadOK(c.rounds, s.b, s.ths[t]);
      }
      SumZero(s.ths, Left(c.rounds));
    } else {
      var t :| 0 <= t < |s.ths| && s.ths[t].phase == Waiting;
      WaiterLeft(c, s, t);
    }
  }

  /** A blocked thread leaves work over, all on its own side. */
  lemma WaiterLeft(c: Config, s: State, t: nat)
    requires Inv(c, s) && Stuck(c, s) && c.size > 0 && t < |s.ths| && s.ths[t].phase == Waiting
    ensures if s.ths[t].role == Producer then Surplus(c) > c.size else Surplus(c) < 0
  {
    StuckAtSemaphores(c, s);
    var sign := if s.ths[t].role == Producer then -1 else 1;
    var w := th => sign * LeftOf(c.rounds, th);
    forall u | 0 <= u < |s.ths| ensures 0 <= w(s.ths[u]) {
      assert ThreadOK(c.rounds, s.b, s.ths[u]);
    }
    assert ThreadOK(c.rounds, s.b, s.ths[t]);
    SumAtLeast(s.ths, t, w);
    SumScaled(s.ths, sign, Left(c.rounds), w);
  }

  lemma {:induction false} SumScaled(ths: seq<Thread>, k: int, v: Thread -> int, w: Thread -> int)
    requires k == 1 || k == -1
    requires forall th :: w(th) == k * v(th)
    ensures Sum(ths, w) == k * Sum(ths, v)
  {
    if ths == [] {
    } else {
      SumScaled(ths[1..], k, v, w);
    }
  }

  /** Steps a thread can still take. */
  function StepsOf(rounds: nat, th: Thread): int {
    10 * (rounds - th.i) +
    match th.phase
    case Loop => 1
    case Waiting => 10
    case Locking => 9
    case Testing => 8
    case Storing => 7
    case Dropping => 7
    case Bumping => 6
    case Fetching => 6
    case Unlocking => 5
    case Posting => 4
    case Done => 10
  }

  function StepsLeft(rounds: nat): Thread -> int {
    th => StepsOf(rounds, th)
  }

  lemma BodyStepUsesAStep(rounds: nat, b: Shared, th: Thread, v: int)
    requires BodyStep(rounds, b, th, v).Some?
    ensures StepsOf(rounds, BodyStep(rounds, b, th, v).value.1) < StepsOf(rounds, th)
  {
  }

  lemma StepUsesAStep(c: Config, s: State, t: nat, v: int)
    requires t < |s.ths| && Step(c.rounds, s, t, v).Some?
    ensures Sum(Step(c.rounds, s, t, v).value.ths, StepsLeft(c.rounds)) < Sum(s.ths, StepsLeft(c.rounds))
  {
    SumUpdate(s.ths, t, Step(c.rounds, s, t, v).value.ths[t], StepsLeft(c.rounds));
    if s.ths[t].phase !in {Waiting, Posting} {
      BodyStepUsesAStep(c.rounds, s.b, s.ths[t], v);
    }
  }

  lemma StepsLeftNonNegative(c: Config, s: State)
    requires Inv(c, s)
    ensures Sum(s.ths, StepsLeft(c.rounds)) >= 0
  {
    forall u | 0 <= u < |s.ths| ensures 0 <= StepsOf(c.rounds, s.ths[u]) {
      assert ThreadOK(c.rounds, s.b, s.ths[u]);
    }
    SumNonNegative(s.ths, StepsLeft(c.rounds));
  }

  lemma {:induction false} RunsEnd(c: Config, tr: seq<State>)
    requires Run(c, tr)
    ensures 0 <= Sum(tr[|tr| - 1].ths, StepsLeft(c.rounds)) <= Sum(tr[0].ths, StepsLeft(c.rounds)) - (|tr| - 1)
  {
    RunHasInv(c, tr);
    StepsLeftNonNegative(c, tr[|tr| - 1]);
    if |tr| == 1 {
    } else {
      var s := tr[|tr| - 2];
      RunsEnd(c, tr[..|tr| - 1]);
      assert Next(c, s, tr[|tr| - 2 + 1]);
      var t: nat, v :| t < |s.ths| && Step(c.rounds, s, t, v) == Some(tr[|tr| - 1]);
      StepUsesAStep(c, s, t, v);
    }
  }

  lemma DoneLedger(s: State)
    requires Ledger(s) && AllDone(s)
    ensures s.b.produced == Inserts(s.b.log)
  {
    ghost var inserts := Inserts(s.b.log);
    forall x ensures s.b.produced[x] == inserts[x] {
      SumZero(s.ths, Holds(x));
    }
  }

  lemma DoneStack(s: State)
    requires Stack(s) && AllDone(s)
    ensures 0 <= s.b.idx <= |s.b.data| && Replay(s.b.log) == Some(s.b.data[..s.b.idx])
  {
    SumZero(s.ths, AtFetch);
  }

  lemma DoneBalances(c: Config, s: State)
    requires Inv(c, s) && AllDone(s)
    ensures 0 <= s.b.idx <= |s.b.data|
    ensures s.b.produced == Removals(s.b.log) + multiset(s.b.data[..s.b.idx])
  {
    DoneLedger(s);
    DoneStack(s);
    ReplayBalances(s.b.log);
  }

  /** Total correctness: no run is longer than the steps its threads start
      with; and a run that can go no further has finished, with the semaphores
      and the buffer as they should be and every value produced accounted for,
      if and only if the inserts exceed the removals by between 0 and `size`. */
  lemma TotalCorrectness(c: Config, tr: seq<State>)
    requires Run(c, tr) && c.size > 0
    ensures 0 <= Sum(tr[|tr| - 1].ths, StepsLeft(c.rounds)) <= Sum(tr[0].ths, StepsLeft(c.rounds)) - (|tr| - 1)
    ensures var s := tr[|tr| - 1]; Stuck(c, s) ==>
      && (AllDone(s) <==> 0 <= Surplus(c) <= c.size)
      && (AllDone(s) ==>
            && s.empty == s.b.idx == Surplus(c) && s.full == c.size - Surplus(c) && s.b.lock == 1
            && 0 <= s.b.idx <= |s.b.data|
            && s.b.produced == Removals(s.b.log) + multiset(s.b.data[..s.b.idx]))
  {
    RunsEnd(c, tr);
    RunHasInv(c, tr);
    var s := tr[|tr| - 1];
    if Stuck(c, s) {
      StuckAtSemaphores(c, s);
      StuckMeansDone(c, s);
      if AllDone(s) {
        DoneBalances(c, s);
      }
    }
  }

  /** Where a finished run ends, what the producers drew is what the consumers
      took and what is left in the buffer. */
  lemma AllDelivered(c: Config, tr: seq<State>, ls: seq<D.Label>)
    requires Labelled(c, tr, ls) && AllDone(tr[|tr| - 1])
    ensures var s := tr[|tr| - 1];
      && 0 <= s.b.idx <= |s.b.data|
      && D.Drawn(c.rounds, Views(tr), ls, |ls|) == D.Taken(Views(tr), ls, |ls|) + multiset(s.b.data[..s.b.idx])
  {
    LabelledIsRun(c, tr, ls);
    RunHasInv(c, tr);
    DoneBalances(c, tr[|tr| - 1]);
    LabelledAccounts(c, tr, ls);
    D.Balance(c.rounds, Views(tr), ls);
  }

  // ---- whole rounds, by one thread that is not interrupted ----

  function Own(rounds: nat, t: nat, v: int): State -> Option<State> {
    (s: State) => if t < |s.ths| then Step(rounds, s, t, v) else None
  }

  /** Thread t alone gets from `a` to here, with itself at `th` and the others as
      in a. */
  ghost predicate Gets(rounds: nat, t: nat, v: int, a: State, full: int, empty: int, b: Shared, th: Thread) {
    t < |a.ths| && Leads(Own(rounds, t, v), a, State(full, empty, b, a.ths[t := th]))
  }

  lemma GetsMore(rounds: nat, t: nat, v: int, a: State, full: int, empty: int, b: Shared, th: Thread)
    requires Gets(rounds, t, v, a, full, empty, b, th)
    requires Step(rounds, State(full, empty, b, a.ths[t := th]), t, v).Some?
    ensures var s' := Step(rounds, State(full, empty, b, a.ths[t := th]), t, v).value;
      Gets(rounds, t, v, a, s'.full, s'.empty, s'.b, s'.ths[t])
  {
    var s := State(full, empty, b, a.ths[t := th]);
    var s' := Step(rounds, s, t, v).value;
    LeadsMore(Own(rounds, t, v), a, s);
    assert s'.ths == a.ths[t := s'.ths[t]];
  }

  /** The same, for a statement other than a semaphore call. */
  lemma GetsBody(rounds: nat, t: nat, v: int, a: State, full: int, empty: int, b: Shared, th: Thread)
    requires Gets(rounds, t, v, a, full, empty, b, th) && BodyStep(rounds, b, th, v).Some?
    ensures var (b', th') := BodyStep(rounds, b, th, v).value; Gets(rounds, t, v, a, full, empty, b', th')
  {
    GetsMore(rounds, t, v, a, full, empty, b, th);
  }

  lemma GetsZero(rounds: nat, t: nat, v: int, a: State)
    requires t < |a.ths|
    ensures Gets(rounds, t, v, a, a.full, a.empty, a.b, a.ths[t])
  {
    LeadsZero(Own(rounds, t, v), a);
    assert a.ths[t := a.ths[t]] == a.ths;
  }

  /** A producer's round as far as its critical section ... */
  lemma ProducerEnters(rounds: nat, s: State, t: nat, v: int)
    requires t < |s.ths| && D.Draws(rounds, s.ths[t]) && s.full > 0 && s.b.lock > 0
    ensures Gets(rounds, t, v, s, s.full - 1, s.empty, s.b.(lock := s.b.lock - 1, produced := s.b.produced + multiset{v}),
                 Thread(Producer, Testing, s.ths[t].i + 1, v))
  {
    var th, b := Thread(Producer, Waiting, s.ths[t].i + 1, v), s.b.(produced := s.b.produced + multiset{v});
    GetsZero(rounds, t, v, s);
    GetsBody(rounds, t, v, s, s.full, s.empty, s.b, s.ths[t]);
    GetsMore(rounds, t, v, s, s.full, s.empty, b, th);
    GetsBody(rounds, t, v, s, s.full - 1, s.empty, b, th.(phase := Locking));
  }

  lemma ProducerStores(rounds: nat, a: State, t: nat, v: int, full: int, empty: int, b: Shared, th: Thread)
    requires Gets(rounds, t, v, a, full, empty, b, th)
    requires th.role == Producer && th.phase == Testing && 0 <= b.idx < |b.data|
    ensures Gets(rounds, t, v, a, full, empty,
                 b.(data := b.data[b.idx := th.item], idx := b.idx + 1, log := b.log + [Inserted(th.item)]),
                 th.(phase := Unlocking))
  {
    GetsBody(rounds, t, v, a, full, empty, b, th);
    GetsBody(rounds, t, v, a, full, empty, b, th.(phase := Storing));
    GetsBody(rounds, t, v, a, full, empty, b.(data := b.data[b.idx := th.item]), th.(phase := Bumping));
  }

  /** ... and all of it: the value drawn is behind the others in the buffer, and
      one free slot has become one item. */
  lemma ProducerRound(rounds: nat, s: State, t: nat, v: int)
    requires t < |s.ths| && D.Draws(rounds, s.ths[t]) && s.full > 0 && s.b.lock > 0 && 0 <= s.b.idx < |s.b.data|
    ensures Gets(rounds, t, v, s, s.full - 1, s.empty + 1,
                 s.b.(data := s.b.data[s.b.idx := v], idx := s.b.idx + 1, log := s.b.log + [Inserted(v)],
                      produced := s.b.produced + multiset{v}),
                 Thread(Producer, Loop, s.ths[t].i + 1, v))
  {
    var th := Thread(Producer, Testing, s.ths[t].i + 1, v);
    var b := s.b.(lock := s.b.lock - 1, produced := s.b.produced + multiset{v});
    var bumped := b.(data := s.b.data[s.b.idx := v], idx := s.b.idx + 1, log := s.b.log + [Inserted(v)]);
    ProducerEnters(rounds, s, t, v);
    ProducerStores(rounds, s, t, v, s.full - 1, s.empty, b, th);
    GetsBody(rounds, t, v, s, s.full - 1, s.empty, bumped, th.(phase := Unlocking));
    GetsMore(rounds, t, v, s, s.full - 1, s.empty, bumped.(lock := s.b.lock), th.(phase := Posting));
  }

  lemma ConsumerEnters(rounds: nat, s: State, t: nat)
    requires t < |s.ths| && s.ths[t].role == Consumer && s.ths[t].phase == Loop && s.ths[t].i < rounds
    requires s.empty > 0 && s.b.lock > 0
    ensures Gets(rounds, t, 0, s, s.full, s.empty - 1, s.b.(lock := s.b.lock - 1),
                 Thread(Consumer, Testing, s.ths[t].i + 1, s.ths[t].item))
  {
    var th := Thread(Consumer, Waiting, s.ths[t].i + 1, s.ths[t].item);
    GetsZero(rounds, t, 0, s);
    GetsBody(rounds, t, 0, s, s.full, s.empty, s.b, s.ths[t]);
    GetsMore(rounds, t, 0, s, s.full, s.empty, s.b, th);
    GetsBody(rounds, t, 0, s, s.full, s.empty - 1, s.b, th.(phase := Locking));
  }

  lemma ConsumerDrops(rounds: nat, a: State, t: nat, full: int, empty: int, b: Shared, th: Thread)
    requires Gets(rounds, t, 0, a, full, empty, b, th) && th.phase == Dropping && 0 < b.idx <= |b.data|
    ensures var last := b.data[b.idx - 1];
      Gets(rounds, t, 0, a, full, empty, b.(idx := b.idx - 1, log := b.log + [Removed(last)]),
           th.(phase := Unlocking, item := last))
  {
    GetsBody(rounds, t, 0, a, full, empty, b, th);
    GetsBody(rounds, t, 0, a, full, empty, b.(idx := b.idx - 1), th.(phase := Fetching));
  }

  lemma ConsumerTakes(rounds: nat, a: State, t: nat, full: int, empty: int, b: Shared, th: Thread)
    requires Gets(rounds, t, 0, a, full, empty, b, th)
    requires th.role == Consumer && th.phase == Testing && 0 < b.idx <= |b.data|
    ensures var last := b.data[b.idx - 1];
      Gets(rounds, t, 0, a, full, empty, b.(idx := b.idx - 1, log := b.log + [Removed(last)]),
           th.(phase := Unlocking, item := last))
  {
    GetsBody(rounds, t, 0, a, full, empty, b, th);
    ConsumerDrops(rounds, a, t, full, empty, b, th.(phase := Dropping));
  }

  /** A consumer's round: it ends with the last item, which has left the buffer,
      and one item has become one free slot. */
  lemma ConsumerRound(rounds: nat, s: State, t: nat)
    requires t < |s.ths| && s.ths[t].role == Consumer && s.ths[t].phase == Loop && s.ths[t].i < rounds
    requires s.empty > 0 && s.b.lock > 0 && 0 < s.b.idx <= |s.b.data|
    ensures var last := s.b.data[s.b.idx - 1];
      Gets(rounds, t, 0, s, s.full + 1, s.empty - 1, s.b.(idx := s.b.idx - 1, log := s.b.log + [Removed(last)]),
           Thread(Consumer, Loop, s.ths[t].i + 1, last))
  {
    var th, b := Thread(Consumer, Testing, s.ths[t].i + 1, s.ths[t].item), s.b.(lock := s.b.lock - 1);
    var dropped := b.(idx := s.b.idx - 1);
    var last := s.b.data[s.b.idx - 1];
    var fetched := dropped.(log := s.b.log + [Removed(last)]);
    ConsumerEnters(rounds, s, t);
    ConsumerTakes(rounds, s, t, s.full, s.empty - 1, b, th);
    GetsBody(rounds, t, 0, s, s.full, s.empty - 1, fetched, th.(phase := Unlocking, item := last));
    GetsMore(rounds, t, 0, s, s.full, s.empty - 1, fetched.(lock := s.b.lock), th.(phase := Posting, item := last));
  }

  // ---- the C functions, run by one thread that is not interrupted ----

  class Program {
    const buffer: Buffer
    var fullSem: nat
    var emptySem: nat

    /** Between the rounds of all threads. */
    ghost predicate Valid()
      reads this, buffer
    {
      buffer.Valid() && fullSem + emptySem == buffer.data.Length && emptySem == buffer.index
    }

    /** main, up to the creation of the threads. */
    constructor (size: nat)
      ensures Valid() && fresh(buffer) && fresh(buffer.data) && buffer.data.Length == size && buffer.Contents() == []
    {
      buffer := new Buffer(size);
      fullSem := size;
      emptySem := 0;
    }

    /** producer(), drawing `values`, with room for all of them. */
    method Produce(values: seq<int>)
      requires Valid() && |values| <= fullSem
      modifies this, buffer, buffer.data
      ensures Valid() && buffer.Contents() == old(buffer.Contents()) + values
      ensures fullSem == old(fullSem) - |values|
    {
      var i := 0;
      while i < |values|
        invariant 0 <= i <= |values| && Valid()
        invariant fullSem == old(fullSem) - i
        invariant buffer.Contents() == old(buffer.Contents()) + values[..i]
      {
        fullSem := fullSem - 1;
        var overflow := buffer.InsertBuffer(values[i]);
        emptySem := emptySem + 1;
        i := i + 1;
      }
    }

    /** consumer(), for `rounds` rounds, with an item for each: it gets the items
        inserted last, the last one first. */
    method Consume(rounds: nat) returns (got: seq<int>)
      requires Valid() && rounds <= emptySem
      modifies this, buffer, buffer.data
      ensures Valid() && old(buffer.Contents()) == buffer.Contents() + Reversed(got)
      ensures |got| == rounds && emptySem == old(emptySem) - rounds
    {
      got := [];
      var i := 0;
      while i < rounds
        invariant 0 <= i <= rounds && Valid() && |got| == i
        invariant emptySem == old(emptySem) - i
        invariant old(buffer.Contents()) == buffer.Contents() + Reversed(got)
      {
        emptySem := emptySem - 1;
        var value, underflow := buffer.DequeueBuffer();
        fullSem := fullSem + 1;
        ReversedAppend(got, value);
        got := got + [value];
        i := i + 1;
      }
    }
  }
}
