/** The dining-philosophers monitor of chopsticks/chopsticks0.c, on a ring of
    any size n >= 2, with one thread per philosopher, interleaved at every
    statement, and with spurious wakeups. */
module Chopsticks {
  import opened Counting
  import opened Steps

  datatype Phil = Thinking | Hungry | Eating

  // ---- the ring ----

  function Left(n: nat, i: nat): nat
    requires i < n
  {
    if i == 0 then n - 1 else i - 1
  }

  function Right(n: nat, i: nat): nat
    requires i < n
  {
    if i == n - 1 then 0 else i + 1
  }

  /** They are the source's macros LEFT and RIGHT. */
  lemma RingMacros(n: nat, i: nat)
    requires i < n
    ensures Left(n, i) == (i + n - 1) % n && Right(n, i) == (i + 1) % n
  {
  }

  /** The test of update_state. */
  predicate CanEat(st: seq<Phil>, i: nat)
    requires i < |st|
  {
    st[i] == Hungry && st[Left(|st|, i)] != Eating && st[Right(|st|, i)] != Eating
  }

  // ---- threads ----

  /** Position inside update_state: before the test, before the write, before
      the signal. */
  datatype Stage = UTest | UGrant | USignal

  datatype PC =
    | Outside                                                    // thinking; may call take
    | TLock | TSet | TUpdate(u: Stage) | TCheck | TWait          // chopsticks_take ...
    | Parked | Woken                                             // ... inside pthread_cond_wait
    | TUnlock
    | Dining                                                     // take has returned; may call put
    | PLock | PSet | PLeft(u: Stage) | PRight(u: Stage) | PUnlock // chopsticks_put

  datatype State = State(st: seq<Phil>, m: nat, pcs: seq<PC>)

  /** The philosopher that the thread i is updating. */
  function Target(n: nat, pc: PC, i: nat): nat
    requires i < n
  {
    match pc
    case PLeft(_) => Left(n, i)
    case PRight(_) => Right(n, i)
    case _ => i
  }

  function Updating(pc: PC): Option<Stage> {
    match pc
    case TUpdate(u) => Some(u)
    case PLeft(u) => Some(u)
    case PRight(u) => Some(u)
    case _ => None
  }

  function WithStage(pc: PC, u: Stage): PC {
    match pc
    case TUpdate(_) => TUpdate(u)
    case PLeft(_) => PLeft(u)
    case PRight(_) => PRight(u)
    case _ => pc
  }

  /** What follows the call of update_state. */
  function AfterUpdate(pc: PC): PC {
    match pc
    case PLeft(_) => PRight(UTest)
    case PRight(_) => PUnlock
    case _ => TCheck
  }

  /** pthread_cond_signal(&CV[j]): wakes philosopher j's thread if it is parked. */
  function Signal(pcs: seq<PC>, j: nat): seq<PC>
    requires j < |pcs|
  {
    if pcs[j] == Parked then pcs[j := Woken] else pcs
  }

  ghost predicate Shape(s: State) {
    |s.st| == |s.pcs| >= 2
  }

  function UpdateStep(s: State, i: nat): State
    requires |s.st| == |s.pcs| && i < |s.pcs| && Updating(s.pcs[i]).Some?
  {
    var pc := s.pcs[i];
    var j := Target(|s.st|, pc, i);
    match Updating(pc).value
    case UTest => s.(pcs := s.pcs[i := if CanEat(s.st, j) then WithStage(pc, UGrant) else AfterUpdate(pc)])
    case UGrant => s.(st := s.st[j := Eating], pcs := s.pcs[i := WithStage(pc, USignal)])
    case USignal => s.(pcs := Signal(s.pcs, j)[i := AfterUpdate(pc)])
  }

  /** A step outside update_state: from the value of M, the philosopher's own
      state and the position, to the new ones; None when it blocks.  `Parked`
      has no step of its own: it needs a signal, or a spurious wakeup. */
  function LocalStep(m: nat, p: Phil, pc: PC): Option<(nat, Phil, PC)> {
    match pc
    case Outside => Some((m, p, TLock))
    case TLock => if m > 0 then Some((m - 1, p, TSet)) else None
    case TSet => Some((m, Hungry, TUpdate(UTest)))
    case TUpdate(_) => None
    case TCheck => Some((m, p, if p == Hungry then TWait else TUnlock))
    case TWait => Some((m + 1, p, Parked))
    case Parked => None
    case Woken => if m > 0 then Some((m - 1, p, TCheck)) else None
    case TUnlock => Some((m + 1, p, Dining))
    case Dining => Some((m, p, PLock))
    case PLock => if m > 0 then Some((m - 1, p, PSet)) else None
    case PSet => Some((m, Thinking, PLeft(UTest)))
    case PLeft(_) => None
    case PRight(_) => None
    case PUnlock => Some((m + 1, p, Outside))
  }

  /** One step of philosopher i's thread. */
  function Step(s: State, i: nat): Option<State>
    requires |s.st| == |s.pcs| && i < |s.pcs|
  {
    if Updating(s.pcs[i]).Some? then Some(UpdateStep(s, i))
    else
      match LocalStep(s.m, s.st[i], s.pcs[i])
      case None => None
      case Some((m, p, pc)) => Some(State(s.st[i := p], m, s.pcs[i := pc]))
  }

  /** pthread_cond_wait may return without a signal. */
  ghost predicate SpuriousWakeup(s: State, i: nat, s': State) {
    i < |s.pcs| && s.pcs[i] == Parked && s' == s.(pcs := s.pcs[i := Woken])
  }

  ghost predicate Move(s: State, i: nat, s': State)
    requires |s.st| == |s.pcs|
  {
    i < |s.pcs| && (Step(s, i) == Some(s') || SpuriousWakeup(s, i, s'))
  }

  ghost predicate Next(s: State, s': State) {
    |s.st| == |s.pcs| && exists i: nat :: Move(s, i, s')
  }

  ghost predicate Init(n: nat, s: State) {
    && n >= 2 && |s.st| == |s.pcs| == n && s.m == 1
    && forall i | 0 <= i < n :: s.st[i] == Thinking && s.pcs[i] == Outside
  }

  ghost predicate Run(n: nat, tr: seq<State>) {
    && |tr| > 0
    && Init(n, tr[0])
    && forall j | 0 <= j < |tr| - 1 :: Next(tr[j], tr[j + 1])
  }

  // ---- the invariant ----

  /** The thread holds the monitor mutex M. */
  function HoldsM(pc: PC): int {
    Ind(match pc
        case TSet => true
        case TUpdate(_) => true
        case TCheck => true
        case TWait => true
        case TUnlock => true
        case PSet => true
        case PLeft(_) => true
        case PRight(_) => true
        case PUnlock => true
        case _ => false)
  }

  /** What a thread's position says about its philosopher's state. */
  predicate Agrees(p: Phil, pc: PC) {
    match pc
    case Outside => p == Thinking
    case TLock => p == Thinking
    case TSet => p == Thinking
    case TUpdate(u) => if u == USignal then p == Eating else p == Hungry
    case TCheck => p != Thinking
    case TWait => p == Hungry
    case Parked => p != Thinking
    case Woken => p != Thinking
    case TUnlock => p == Eating
    case Dining => p == Eating
    case PLock => p == Eating
    case PSet => p == Eating
    case PLeft(_) => p == Thinking
    case PRight(_) => p == Thinking
    case PUnlock => p == Thinking
  }

  /** Thread i is in update_state for j, after a test that succeeded. */
  predicate Granting(n: nat, pc: PC, i: nat, j: nat)
    requires i < n
  {
    Updating(pc) == Some(UGrant) && Target(n, pc, i) == j
  }

  predicate Signalling(n: nat, pc: PC, i: nat, j: nat)
    requires i < n
  {
    Updating(pc) == Some(USignal) && Target(n, pc, i) == j
  }

  /** Thread i will still run update_state for j before it releases M. */
  predicate WillUpdate(n: nat, pc: PC, i: nat, j: nat)
    requires i < n
  {
    match pc
    case TUpdate(u) => u != USignal && j == i
    case PLeft(u) => (u != USignal && j == Left(n, i)) || j == Right(n, i)
    case PRight(u) => u != USignal && j == Right(n, i)
    case _ => false
  }

  predicate EatingNeighbour(st: seq<Phil>, i: nat)
    requires i < |st|
  {
    st[Left(|st|, i)] == Eating || st[Right(|st|, i)] == Eating
  }

  ghost predicate NeighboursExclusive(st: seq<Phil>) {
    forall i | 0 <= i < |st| :: !(st[i] == Eating && st[Right(|st|, i)] == Eating)
  }

  ghost predicate NobodyForgotten(st: seq<Phil>) {
    forall i | 0 <= i < |st| :: st[i] == Hungry ==> EatingNeighbour(st, i)
  }

  ghost predicate Basics(s: State) {
    && Shape(s)
    && s.m + Sum(s.pcs, HoldsM) == 1
    && (forall i | 0 <= i < |s.pcs| :: Agrees(s.st[i], s.pcs[i]))
  }

  ghost predicate Safety(s: State)
    requires Shape(s)
  {
    && NeighboursExclusive(s.st)
    && forall i, j | 0 <= i < |s.pcs| && 0 <= j < |s.pcs| && Granting(|s.pcs|, s.pcs[i], i, j) :: CanEat(s.st, j)
  }

  ghost predicate HungryCovered(s: State, j: nat)
    requires Shape(s) && j < |s.st|
  {
    s.st[j] == Hungry ==> EatingNeighbour(s.st, j) || exists i :: 0 <= i < |s.pcs| && WillUpdate(|s.pcs|, s.pcs[i], i, j)
  }

  ghost predicate ParkedCovered(s: State, j: nat)
    requires Shape(s) && j < |s.st|
  {
    s.pcs[j] == Parked && s.st[j] == Eating ==> exists i :: 0 <= i < |s.pcs| && Signalling(|s.pcs|, s.pcs[i], i, j)
  }

  ghost predicate Inv(s: State) {
    && Basics(s)
    && Safety(s)
    && (forall j | 0 <= j < |s.st| :: HungryCovered(s, j))
    && (forall j | 0 <= j < |s.st| :: ParkedCovered(s, j))
  }

  lemma HolderIsUnique(s: State, i: nat, j: nat)
    requires Basics(s) && i < |s.pcs| && j < |s.pcs| && HoldsM(s.pcs[i]) == 1 && HoldsM(s.pcs[j]) == 1
    ensures i == j && s.m == 0
  {
    SumAtLeast(s.pcs, i, HoldsM);
    if i != j {
      SumAtLeastTwo(s.pcs, i, j, HoldsM);
    }
  }

  lemma LocalStepAgrees(m: nat, p: Phil, pc: PC)
    requires Agrees(p, pc) && LocalStep(m, p, pc).Some?
    ensures var (m', p', pc') := LocalStep(m, p, pc).value;
      Agrees(p', pc') && m' + HoldsM(pc') == m + HoldsM(pc)
  {
  }

  lemma UpdateAgrees(p: Phil, pc: PC, u: Stage)
    requires Agrees(p, pc) && Updating(pc).Some?
    ensures HoldsM(pc) == HoldsM(WithStage(pc, u)) == HoldsM(AfterUpdate(pc)) == 1
    ensures (pc.TUpdate? ==> p == Hungry || pc.u == USignal) ==> Agrees(p, AfterUpdate(pc))
    ensures pc.TUpdate? && pc.u != USignal ==> Agrees(Hungry, WithStage(pc, UGrant)) && Agrees(Eating, WithStage(pc, USignal))
    ensures !pc.TUpdate? ==> Agrees(p, WithStage(pc, u))
  {
  }

  lemma TestKeepsBasics(s: State, i: nat)
    requires Basics(s) && i < |s.pcs| && Updating(s.pcs[i]) == Some(UTest)
    ensures Basics(UpdateStep(s, i))
  {
    assert Agrees(s.st[i], s.pcs[i]);
    UpdateAgrees(s.st[i], s.pcs[i], UGrant);
    SumUpdate(s.pcs, i, UpdateStep(s, i).pcs[i], HoldsM);
  }

  lemma GrantKeepsBasics(s: State, i: nat)
    requires Basics(s) && Safety(s) && i < |s.pcs| && Updating(s.pcs[i]) == Some(UGrant)
    ensures Basics(UpdateStep(s, i))
  {
    var j := Target(|s.pcs|, s.pcs[i], i);
    assert Granting(|s.pcs|, s.pcs[i], i, j);
    assert Agrees(s.st[i], s.pcs[i]) && Agrees(s.st[j], s.pcs[j]);
    UpdateAgrees(s.st[i], s.pcs[i], USignal);
    SumUpdate(s.pcs, i, UpdateStep(s, i).pcs[i], HoldsM);
    assert CanEat(s.st, j);
    if i != j {
      if HoldsM(s.pcs[j]) == 1 {
        HolderIsUnique(s, i, j);
      }
      assert HoldsM(s.pcs[j]) == 0 && s.st[j] == Hungry;
      assert s.pcs[j] in {Parked, Woken};
    } else {
      assert s.pcs[i] == TUpdate(UGrant);
    }
    forall k | 0 <= k < |s.pcs| ensures Agrees(UpdateStep(s, i).st[k], UpdateStep(s, i).pcs[k]) {
      assert Agrees(s.st[k], s.pcs[k]);
    }
  }

  lemma SignalKeepsBasics(s: State, i: nat)
    requires Basics(s) && i < |s.pcs| && Updating(s.pcs[i]) == Some(USignal)
    ensures Basics(UpdateStep(s, i))
  {
    var j := Target(|s.pcs|, s.pcs[i], i);
    var woken := Signal(s.pcs, j);
    assert Agrees(s.st[i], s.pcs[i]) && Agrees(s.st[j], s.pcs[j]);
    UpdateAgrees(s.st[i], s.pcs[i], USignal);
    SumUpdate(s.pcs, j, woken[j], HoldsM);
    assert s.pcs[j := woken[j]] == woken;
    SumUpdate(woken, i, AfterUpdate(s.pcs[i]), HoldsM);
  }

  lemma MoveKeepsBasics(s: State, i: nat, s': State)
    requires Basics(s) && Safety(s) && Move(s, i, s')
    ensures Basics(s')
  {
    assert Agrees(s.st[i], s.pcs[i]);
    if SpuriousWakeup(s, i, s') {
      SumUpdate(s.pcs, i, Woken, HoldsM);
    } else if Updating(s.pcs[i]).Some? {
      match Updating(s.pcs[i]).value
      case UTest => TestKeepsBasics(s, i);
      case UGrant => GrantKeepsBasics(s, i);
      case USignal => SignalKeepsBasics(s, i);
    } else {
      SumUpdate(s.pcs, i, s'.pcs[i], HoldsM);
      LocalStepAgrees(s.m, s.st[i], s.pcs[i]);
    }
  }

  /** Everything that update_state is in the middle of belongs to the holder of M. */
  lemma PendingIsHeld(n: nat, pc: PC, i: nat, j: nat)
    requires i < n && (Granting(n, pc, i, j) || Signalling(n, pc, i, j) || WillUpdate(n, pc, i, j))
    ensures HoldsM(pc) == 1
  {
  }

  /** If thread i holds M, nothing is pending in any other thread. */
  lemma OthersIdle(s: State, i: nat, k: nat, j: nat)
    requires Basics(s) && i < |s.pcs| && k < |s.pcs| && i != k && HoldsM(s.pcs[i]) == 1
    ensures !Granting(|s.pcs|, s.pcs[k], k, j) && !Signalling(|s.pcs|, s.pcs[k], k, j) && !WillUpdate(|s.pcs|, s.pcs[k], k, j)
  {
    if HoldsM(s.pcs[k]) == 1 {
      HolderIsUnique(s, i, k);
    }
  }

  lemma MoveKeepsExclusive(s: State, i: nat, s': State)
    requires Basics(s) && Safety(s) && Move(s, i, s')
    ensures NeighboursExclusive(s'.st)
  {
    var n := |s.st|;
    assert Agrees(s.st[i], s.pcs[i]);
    if Updating(s.pcs[i]) == Some(UGrant) {
      var q := Target(n, s.pcs[i], i);
      assert Granting(n, s.pcs[i], i, q);
      assert CanEat(s.st, q);
      forall k | 0 <= k < n ensures !(s'.st[k] == Eating && s'.st[Right(n, k)] == Eating) {
        assert !(s.st[k] == Eating && s.st[Right(n, k)] == Eating);
      }
    } else {
      forall k | 0 <= k < n ensures !(s'.st[k] == Eating && s'.st[Right(n, k)] == Eating) {
        assert !(s.st[k] == Eating && s.st[Right(n, k)] == Eating);
      }
    }
  }

  /** A thread gets to the write only by a test that succeeds. */
  lemma GrantingIsTested(s: State, i: nat, s': State, j: nat)
    requires Shape(s) && Move(s, i, s') && j < |s.pcs| && Granting(|s.pcs|, s'.pcs[i], i, j)
    ensures s.pcs[i] == WithStage(s'.pcs[i], UTest) && CanEat(s.st, j) && s'.st == s.st
  {
  }

  /** A step without M changes no state and no other thread. */
  lemma OutsideM(s: State, i: nat, s': State)
    requires Basics(s) && Move(s, i, s') && HoldsM(s.pcs[i]) == 0
    ensures s'.st == s.st && s'.pcs == s.pcs[i := s'.pcs[i]]
  {
  }

  lemma OthersGranting(s: State, i: nat, s': State, k: nat, j: nat)
    requires Shape(s) && Move(s, i, s') && k < |s.pcs| && j < |s.pcs| && k != i
    requires Granting(|s'.pcs|, s'.pcs[k], k, j)
    ensures Granting(|s.pcs|, s.pcs[k], k, j)
  {
  }

  lemma MoveKeepsGranting(s: State, i: nat, s': State, k: nat, j: nat)
    requires Basics(s) && Safety(s) && Move(s, i, s') && k < |s.pcs| && j < |s.pcs|
    requires |s'.pcs| == |s.pcs| && |s'.st| == |s.st| && Granting(|s'.pcs|, s'.pcs[k], k, j)
    ensures CanEat(s'.st, j)
  {
    if k == i {
      GrantingIsTested(s, i, s', j);
    } else {
      OthersGranting(s, i, s', k, j);
      PendingIsHeld(|s.pcs|, s.pcs[k], k, j);
      if HoldsM(s.pcs[i]) == 1 {
        HolderIsUnique(s, i, k);
      } else {
        OutsideM(s, i, s');
      }
    }
  }

  lemma LocalKeepsHungry(s: State, i: nat, j: nat)
    requires Inv(s) && i < |s.pcs| && j < |s.pcs| && Updating(s.pcs[i]).None? && LocalStep(s.m, s.st[i], s.pcs[i]).Some?
    ensures HungryCovered(Step(s, i).value, j)
  {
    var s', n := Step(s, i).value, |s.pcs|;
    assert Agrees(s.st[i], s.pcs[i]);
    if s'.st[j] == Hungry {
      if s.pcs[i] == TSet && j == i {
        assert WillUpdate(n, s'.pcs[i], i, j);
      } else if s.pcs[i] == PSet && (j == Left(n, i) || j == Right(n, i)) {
        assert WillUpdate(n, s'.pcs[i], i, j);
      } else {
        assert HungryCovered(s, j);
        if !EatingNeighbour(s.st, j) {
          var k :| 0 <= k < n && WillUpdate(n, s.pcs[k], k, j);
          PendingIsHeld(n, s.pcs[k], k, j);
          if HoldsM(s.pcs[i]) == 1 {
            HolderIsUnique(s, i, k);
          } else {
            assert WillUpdate(n, s'.pcs[k], k, j);
          }
        }
      }
    }
  }

  /** update_state drops a philosopher that it was going to update only when
      somebody next to it eats, or it eats itself. */
  lemma UpdateServes(s: State, i: nat, j: nat)
    requires Shape(s) && i < |s.pcs| && j < |s.pcs| && Updating(s.pcs[i]).Some?
    requires WillUpdate(|s.pcs|, s.pcs[i], i, j) && UpdateStep(s, i).st[j] == Hungry
    ensures EatingNeighbour(UpdateStep(s, i).st, j) || WillUpdate(|s.pcs|, UpdateStep(s, i).pcs[i], i, j)
  {
  }

  lemma UpdateKeepsHungry(s: State, i: nat, j: nat)
    requires Inv(s) && i < |s.pcs| && j < |s.pcs| && Updating(s.pcs[i]).Some?
    ensures HungryCovered(UpdateStep(s, i), j)
  {
    var s', n := UpdateStep(s, i), |s.pcs|;
    assert HungryCovered(s, j);
    if s'.st[j] == Hungry && !EatingNeighbour(s.st, j) {
      var k :| 0 <= k < n && WillUpdate(n, s.pcs[k], k, j);
      PendingIsHeld(n, s.pcs[k], k, j);
      HolderIsUnique(s, i, k);
      UpdateServes(s, i, j);
    }
  }

  lemma LocalKeepsParked(s: State, i: nat, j: nat)
    requires Inv(s) && i < |s.pcs| && j < |s.pcs| && Updating(s.pcs[i]).None? && LocalStep(s.m, s.st[i], s.pcs[i]).Some?
    ensures ParkedCovered(Step(s, i).value, j)
  {
    var s', n := Step(s, i).value, |s.pcs|;
    assert Agrees(s.st[i], s.pcs[i]);
    if s'.pcs[j] == Parked && s'.st[j] == Eating {
      assert j != i;
      assert ParkedCovered(s, j);
      var k :| 0 <= k < n && Signalling(n, s.pcs[k], k, j);
      assert Signalling(n, s'.pcs[k], k, j);
    }
  }

  lemma UpdateKeepsParked(s: State, i: nat, j: nat)
    requires Inv(s) && i < |s.pcs| && j < |s.pcs| && Updating(s.pcs[i]).Some?
    ensures ParkedCovered(UpdateStep(s, i), j)
  {
    var s', n := UpdateStep(s, i), |s.pcs|;
    var q := Target(n, s.pcs[i], i);
    assert Agrees(s.st[i], s.pcs[i]);
    if s'.pcs[j] == Parked && s'.st[j] == Eating {
      assert s.pcs[j] == Parked;
      if Updating(s.pcs[i]) == Some(UGrant) && j == q {
        assert Signalling(n, s'.pcs[i], i, j);
      } else {
        assert ParkedCovered(s, j);
        var k :| 0 <= k < n && Signalling(n, s.pcs[k], k, j);
        PendingIsHeld(n, s.pcs[k], k, j);
        HolderIsUnique(s, i, k);
        assert false;
      }
    }
  }

  lemma WakeupKeepsCover(s: State, i: nat, s': State, j: nat)
    requires Inv(s) && SpuriousWakeup(s, i, s') && j < |s.pcs|
    ensures HungryCovered(s', j) && ParkedCovered(s', j)
  {
    var n := |s.pcs|;
    assert HungryCovered(s, j) && ParkedCovered(s, j);
    if s'.st[j] == Hungry && !EatingNeighbour(s.st, j) {
      var k :| 0 <= k < n && WillUpdate(n, s.pcs[k], k, j);
      assert WillUpdate(n, s'.pcs[k], k, j);
    }
    if s'.pcs[j] == Parked && s'.st[j] == Eating {
      var k :| 0 <= k < n && Signalling(n, s.pcs[k], k, j);
      assert Signalling(n, s'.pcs[k], k, j);
    }
  }

  lemma MoveKeepsInv(s: State, i: nat, s': State)
    requires Inv(s) && Move(s, i, s')
    ensures Inv(s')
  {
    MoveKeepsBasics(s, i, s');
    MoveKeepsExclusive(s, i, s');
    forall k, j | 0 <= k < |s'.pcs| && 0 <= j < |s'.pcs| && Granting(|s'.pcs|, s'.pcs[k], k, j) ensures CanEat(s'.st, j) {
      MoveKeepsGranting(s, i, s', k, j);
    }
    forall j | 0 <= j < |s'.st| ensures HungryCovered(s', j) && ParkedCovered(s', j) {
      if SpuriousWakeup(s, i, s') {
        WakeupKeepsCover(s, i, s', j);
      } else if Updating(s.pcs[i]).Some? {
        UpdateKeepsHungry(s, i, j);
        UpdateKeepsParked(s, i, j);
      } else {
        LocalKeepsHungry(s, i, j);
        LocalKeepsParked(s, i, j);
      }
    }
  }

  lemma InitHasInv(n: nat, s: State)
    requires Init(n, s)
    ensures Inv(s)
  {
    SumZero(s.pcs, HoldsM);
  }

  lemma RunPrefix(n: nat, tr: seq<State>)
    requires Run(n, tr) && |tr| > 1
    ensures Run(n, tr[..|tr| - 1]) && Next(tr[|tr| - 2], tr[|tr| - 1])
  {
  }

  lemma {:induction false} RunHasInv(n: nat, tr: seq<State>)
    requires Run(n, tr)
    ensures Inv(tr[|tr| - 1]) && |tr[|tr| - 1].st| == n
  {
    if |tr| == 1 {
      InitHasInv(n, tr[0]);
    } else {
      var s := tr[|tr| - 2];
      RunPrefix(n, tr);
      RunHasInv(n, tr[..|tr| - 1]);
      var i: nat :| Move(s, i, tr[|tr| - 1]);
      MoveKeepsInv(s, i, tr[|tr| - 1]);
    }
  }

  // ---- main results, for every run ----

  /** The monitor invariant: no two neighbours ever eat at the same time, and
      whenever M is free every hungry philosopher has an eating neighbour. */
  lemma MonitorInvariant(n: nat, tr: seq<State>)
    requires Run(n, tr)
    ensures var s := tr[|tr| - 1];
      && NeighboursExclusive(s.st)
      && (s.m > 0 ==> NobodyForgotten(s.st))
  {
    RunHasInv(n, tr);
    var s := tr[|tr| - 1];
    if s.m > 0 {
      forall j | 0 <= j < |s.st| && s.st[j] == Hungry ensures EatingNeighbour(s.st, j) {
        assert HungryCovered(s, j);
        forall i | 0 <= i < |s.pcs| ensures !WillUpdate(|s.pcs|, s.pcs[i], i, j) {
          SumAtLeast(s.pcs, i, HoldsM);
        }
      }
    }
  }

  /** Philosopher i eats already and the holder of M is about to signal it. */
  ghost predicate SignalPending(s: State, i: nat)
    requires i < |s.st|
  {
    && s.st[i] == Eating && s.m == 0
    && exists k :: 0 <= k < |s.pcs| && Signalling(|s.pcs|, s.pcs[k], k, i)
  }

  /** chopsticks_take returns only to an eating philosopher; and a parked thread
      is hungry, or its signal is on the way from the holder of M. */
  lemma TakeAndWait(n: nat, tr: seq<State>, i: nat)
    requires Run(n, tr) && i < n
    ensures var s := tr[|tr| - 1];
      && |s.st| == |s.pcs| == n
      && (s.pcs[i] == Dining ==> s.st[i] == Eating)
      && (s.pcs[i] == Parked ==> s.st[i] == Hungry || SignalPending(s, i))
  {
    RunHasInv(n, tr);
    var s := tr[|tr| - 1];
    assert Agrees(s.st[i], s.pcs[i]) && ParkedCovered(s, i);
    if s.pcs[i] == Parked && s.st[i] == Eating {
      var k :| 0 <= k < n && Signalling(n, s.pcs[k], k, i);
      HolderIsUnique(s, k, k);
    }
  }

  /** No lost wakeup: while a thread is parked, another thread, one inside the
      monitor or one whose philosopher eats and may call put, can take a step.
      Spurious wakeups are not needed for it. */
  lemma ParkedIsNotAbandoned(n: nat, tr: seq<State>, i: nat) returns (j: nat)
    requires Run(n, tr) && i < n && |tr[|tr| - 1].pcs| == n && tr[|tr| - 1].pcs[i] == Parked
    ensures var s := tr[|tr| - 1];
      && |s.st| == |s.pcs| == n && j < n && j != i
      && s.pcs[j] != Outside && Step(s, j).Some?
  {
    RunHasInv(n, tr);
    MonitorInvariant(n, tr);
    var s := tr[|tr| - 1];
    assert Agrees(s.st[i], s.pcs[i]) && ParkedCovered(s, i);
    if s.m == 0 {
      j := SumWitness(s.pcs, HoldsM);
    } else {
      TakeAndWait(n, tr, i);
      j := if s.st[Left(n, i)] == Eating then Left(n, i) else Right(n, i);
      assert Agrees(s.st[j], s.pcs[j]);
      TakeAndWait(n, tr, j);
    }
  }

  /** A step inside a call that was already made; no new call of take or put. */
  ghost predicate Go(s: State, s': State) {
    |s.st| == |s.pcs| && exists i :: 0 <= i < |s.pcs| && s.pcs[i] !in {Outside, Dining} && Step(s, i) == Some(s')
  }

  function StageWeight(u: Stage): nat {
    match u
    case UTest => 2
    case UGrant => 1
    case USignal => 0
  }

  /** Steps left in the call, and in the calls that it may wake up. */
  function Weight(pc: PC): int {
    match pc
    case Outside => 0
    case TLock => 12
    case TSet => 11
    case TUpdate(u) => 8 + StageWeight(u)
    case TCheck => 3
    case TWait => 1
    case Parked => 0
    case Woken => 4
    case TUnlock => 1
    case Dining => 0
    case PLock => 17
    case PSet => 16
    case PLeft(u) => 13 + StageWeight(u)
    case PRight(u) => 6 + StageWeight(u)
    case PUnlock => 1
  }

  lemma StepWeights(m: nat, p: Phil, pc: PC)
    ensures pc !in {Outside, Dining} && LocalStep(m, p, pc).Some? ==> Weight(LocalStep(m, p, pc).value.2) < Weight(pc)
    ensures Updating(pc) == Some(UTest) ==>
      Weight(WithStage(pc, UGrant)) < Weight(pc) && Weight(AfterUpdate(pc)) < Weight(pc)
    ensures Updating(pc) == Some(UGrant) ==> Weight(WithStage(pc, USignal)) < Weight(pc)
    ensures Updating(pc) == Some(USignal) ==> Weight(AfterUpdate(pc)) + Weight(Woken) < Weight(pc)
  {
  }

  lemma SignalLosesWeight(s: State, i: nat)
    requires Shape(s) && i < |s.pcs| && Updating(s.pcs[i]) == Some(USignal)
    ensures Sum(UpdateStep(s, i).pcs, Weight) < Sum(s.pcs, Weight)
  {
    var pc := s.pcs[i];
    var j := Target(|s.st|, pc, i);
    var woken := Signal(s.pcs, j);
    StepWeights(s.m, s.st[i], pc);
    SumUpdate(s.pcs, j, woken[j], Weight);
    assert s.pcs[j := woken[j]] == woken;
    SumUpdate(woken, i, AfterUpdate(pc), Weight);
  }

  lemma StepLosesWeight(s: State, i: nat)
    requires Shape(s) && i < |s.pcs| && s.pcs[i] !in {Outside, Dining} && Step(s, i).Some?
    ensures Sum(Step(s, i).value.pcs, Weight) < Sum(s.pcs, Weight)
  {
    if Updating(s.pcs[i]) == Some(USignal) {
      SignalLosesWeight(s, i);
    } else {
      StepWeights(s.m, s.st[i], s.pcs[i]);
      SumUpdate(s.pcs, i, Step(s, i).value.pcs[i], Weight);
    }
  }

  lemma GoLosesWeight(s: State, s': State)
    requires Shape(s) && Go(s, s')
    ensures Sum(s'.pcs, Weight) < Sum(s.pcs, Weight)
  {
    var i :| 0 <= i < |s.pcs| && s.pcs[i] !in {Outside, Dining} && Step(s, i) == Some(s');
    StepLosesWeight(s, i);
  }

  /** Without new calls and without spurious wakeups every run ends. */
  lemma {:induction false} CallsEnd(tr: seq<State>)
    requires |tr| > 0 && Shape(tr[0])
    requires forall j | 0 <= j < |tr| - 1 :: Go(tr[j], tr[j + 1])
    ensures |tr[|tr| - 1].pcs| == |tr[0].pcs| && Shape(tr[|tr| - 1])
    ensures 0 <= Sum(tr[|tr| - 1].pcs, Weight) <= Sum(tr[0].pcs, Weight) - (|tr| - 1)
  {
    SumNonNegative(tr[|tr| - 1].pcs, Weight);
    if |tr| == 1 {
    } else {
      CallsEnd(tr[..|tr| - 1]);
      assert Go(tr[|tr| - 2], tr[|tr| - 2 + 1]);
      GoLosesWeight(tr[|tr| - 2], tr[|tr| - 1]);
    }
  }

  /** No thread inside a call can take a step. */
  ghost predicate Settled(s: State) {
    |s.st| == |s.pcs| && forall i | 0 <= i < |s.pcs| && s.pcs[i] !in {Outside, Dining} :: Step(s, i).None?
  }

  /** Philosopher i has no call open, or is hungry, parked, and beside a
      neighbour that is eating and free to call put. */
  ghost predicate Served(s: State, i: nat)
    requires |s.st| == |s.pcs| && i < |s.pcs|
  {
    match s.st[i]
    case Thinking => s.pcs[i] == Outside
    case Eating => s.pcs[i] == Dining
    case Hungry => s.pcs[i] == Parked && (s.pcs[Left(|s.st|, i)] == Dining || s.pcs[Right(|s.st|, i)] == Dining)
  }

  /** Where such a run ends, M is free and every call has returned, except the
      takes of the hungry philosophers that have to wait for a neighbour. */
  lemma CallsReturn(n: nat, tr: seq<State>)
    requires Run(n, tr) && Settled(tr[|tr| - 1])
    ensures var s := tr[|tr| - 1];
      |s.st| == |s.pcs| == n && s.m == 1 && forall i | 0 <= i < n :: Served(s, i)
  {
    RunHasInv(n, tr);
    MonitorInvariant(n, tr);
    var s := tr[|tr| - 1];
    forall i | 0 <= i < n ensures HoldsM(s.pcs[i]) == 0 {
      assert s.pcs[i] !in {Outside, Dining} ==> Step(s, i).None?;
    }
    SumZero(s.pcs, HoldsM);
    forall i | 0 <= i < n
      ensures Agrees(s.st[i], s.pcs[i]) && s.pcs[i] in {Outside, Dining, Parked}
      ensures s.pcs[i] == Parked ==> s.st[i] == Hungry
    {
      TakeAndWait(n, tr, i);
    }
  }

  // ---- whom a signal wakes ----

  /** pthread_cond_signal(&CV[j]) touches no thread but j's, apart from the
      caller's own, and wakes it exactly if it is parked. */
  lemma SignalTouchesOnly(s: State, i: nat, s': State, j: nat, k: nat)
    requires Shape(s) && Move(s, i, s') && Signalling(|s.pcs|, s.pcs[i], i, j) && k < |s.pcs| && k != i
    ensures |s'.pcs| == |s.pcs| && s'.pcs[k] == if k == j && s.pcs[k] == Parked then Woken else s.pcs[k]
  {
  }

  /** A parked thread is moved only by a spurious wakeup or by a signal to its own
      condition variable. */
  lemma WokenBySignal(s: State, i: nat, s': State, k: nat)
    requires Shape(s) && Move(s, i, s') && k < |s.pcs| == |s'.pcs| && s.pcs[k] == Parked && s'.pcs[k] != Parked
    ensures s'.pcs[k] == Woken
    ensures SpuriousWakeup(s, k, s') || Signalling(|s.pcs|, s.pcs[i], i, k)
  {
  }

  /** A move changes no other thread but the one it signals, and no philosopher
      but its own, or the one it hands the chopsticks to. */
  lemma MoveTouchesOnly(s: State, i: nat, s': State, k: nat)
    requires Shape(s) && Move(s, i, s') && k < |s.pcs| && k != i
    ensures |s'.pcs| == |s.pcs| && |s'.st| == |s.st|
    ensures s'.pcs[k] != s.pcs[k] ==> Signalling(|s.pcs|, s.pcs[i], i, k) && s.pcs[k] == Parked && s'.pcs[k] == Woken
    ensures s'.st[k] != s.st[k] ==> Granting(|s.pcs|, s.pcs[i], i, k) && s'.st[k] == Eating
  {
  }

  /** Whoever is being signalled eats already. */
  ghost predicate SignalsEaters(s: State)
    requires Shape(s)
  {
    forall i, j | 0 <= i < |s.pcs| && 0 <= j < |s.pcs| && Signalling(|s.pcs|, s.pcs[i], i, j) :: s.st[j] == Eating
  }

  /** A thread gets to the signal only by the write. */
  lemma SignallingHasWritten(s: State, i: nat, s': State, j: nat)
    requires Shape(s) && Move(s, i, s') && j < |s.pcs| && Signalling(|s.pcs|, s'.pcs[i], i, j)
    ensures s'.st[j] == Eating
  {
  }

  lemma OthersSignalling(s: State, i: nat, s': State, k: nat, j: nat)
    requires Shape(s) && Move(s, i, s') && k < |s.pcs| && j < |s.pcs| && k != i
    requires Signalling(|s'.pcs|, s'.pcs[k], k, j)
    ensures Signalling(|s.pcs|, s.pcs[k], k, j)
  {
  }

  lemma MoveKeepsSignalsEaters(s: State, i: nat, s': State)
    requires Basics(s) && SignalsEaters(s) && Move(s, i, s') && Shape(s')
    ensures SignalsEaters(s')
  {
    forall k, j | 0 <= k < |s'.pcs| && 0 <= j < |s'.pcs| && Signalling(|s'.pcs|, s'.pcs[k], k, j)
      ensures s'.st[j] == Eating
    {
      if k == i {
        SignallingHasWritten(s, i, s', j);
      } else {
        OthersSignalling(s, i, s', k, j);
        PendingIsHeld(|s.pcs|, s.pcs[k], k, j);
        if HoldsM(s.pcs[i]) == 1 {
          HolderIsUnique(s, i, k);
        } else {
          OutsideM(s, i, s');
        }
      }
    }
  }

  lemma {:induction false} RunSignalsEaters(n: nat, tr: seq<State>)
    requires Run(n, tr)
    ensures Shape(tr[|tr| - 1]) && SignalsEaters(tr[|tr| - 1])
  {
    RunHasInv(n, tr);
    if |tr| == 1 {
    } else {
      var s := tr[|tr| - 2];
      RunPrefix(n, tr);
      RunSignalsEaters(n, tr[..|tr| - 1]);
      RunHasInv(n, tr[..|tr| - 1]);
      var i: nat :| Move(s, i, tr[|tr| - 1]);
      MoveKeepsSignalsEaters(s, i, tr[|tr| - 1]);
    }
  }

  /** In every run a thread leaves its wait spuriously or because its philosopher
      has been made to eat: a hungry one is never signalled. */
  lemma OnlyEatersAreSignalled(n: nat, tr: seq<State>, i: nat, s': State, k: nat)
    requires Run(n, tr) && Shape(tr[|tr| - 1]) && Move(tr[|tr| - 1], i, s')
    requires k < |tr[|tr| - 1].pcs| == |s'.pcs| && tr[|tr| - 1].pcs[k] == Parked && s'.pcs[k] != Parked
    ensures var s := tr[|tr| - 1]; s'.pcs[k] == Woken && (SpuriousWakeup(s, k, s') || (k != i && s.st[k] == Eating))
  {
    RunSignalsEaters(n, tr);
    WokenBySignal(tr[|tr| - 1], i, s', k);
  }

  // ---- chopstick ownership ----

  /** An eating philosopher i owns the sticks i and (i + 1) mod n. */
  predicate Owns(st: seq<Phil>, i: nat, k: nat)
    requires i < |st|
  {
    st[i] == Eating && (k == i || k == Right(|st|, i))
  }

  ghost predicate OneOwner(st: seq<Phil>) {
    forall i, j, k: nat | 0 <= i < |st| && 0 <= j < |st| && Owns(st, i, k) && Owns(st, j, k) :: i == j
  }

  ghost predicate Free(st: seq<Phil>, k: nat) {
    forall i | 0 <= i < |st| :: !Owns(st, i, k)
  }

  /** Neighbours exclude each other iff no stick has two owners. */
  lemma ExclusiveIffOneOwner(st: seq<Phil>)
    requires |st| >= 2
    ensures NeighboursExclusive(st) <==> OneOwner(st)
  {
    if NeighboursExclusive(st) {
      forall i, j, k: nat | 0 <= i < |st| && 0 <= j < |st| && Owns(st, i, k) && Owns(st, j, k) ensures i == j {
        assert !(st[i] == Eating && st[Right(|st|, i)] == Eating);
        assert !(st[j] == Eating && st[Right(|st|, j)] == Eating);
      }
    }
    if OneOwner(st) {
      forall i | 0 <= i < |st| ensures !(st[i] == Eating && st[Right(|st|, i)] == Eating) {
        var r := Right(|st|, i);
        assert Owns(st, i, r) <==> st[i] == Eating;
        assert Owns(st, r, r) <==> st[r] == Eating;
      }
    }
  }

  /** The test of update_state is "hungry and both sticks free". */
  lemma TestMeansBothFree(st: seq<Phil>, i: nat)
    requires |st| >= 2 && i < |st|
    ensures CanEat(st, i) <==> st[i] == Hungry && Free(st, i) && Free(st, Right(|st|, i))
  {
    var n := |st|;
    var l, r := Left(n, i), Right(n, i);
    if Free(st, i) && Free(st, r) {
      assert !Owns(st, l, i) && !Owns(st, r, r);
    }
  }

  /** The table of owners, stick by stick. */
  function Owner(st: seq<Phil>, k: nat): Option<nat>
    requires k < |st|
  {
    if st[k] == Eating then Some(k)
    else if st[Left(|st|, k)] == Eating then Some(Left(|st|, k))
    else None
  }

  function Table(st: seq<Phil>): seq<Option<nat>> {
    seq(|st|, k requires 0 <= k < |st| => Owner(st, k))
  }

  lemma OwnerIsTheOwner(st: seq<Phil>, k: nat)
    requires NeighboursExclusive(st) && |st| >= 2 && k < |st|
    ensures forall i | 0 <= i < |st| :: Owner(st, k) == Some(i) <==> Owns(st, i, k)
    ensures Owner(st, k) == None <==> Free(st, k)
  {
  }

  /** What the header promises: taking two free sticks at once, or releasing
      both at once. */
  predicate TakesBoth(before: seq<Option<nat>>, after: seq<Option<nat>>, i: nat) {
    && i < |before|
    && before[i] == None && before[Right(|before|, i)] == None
    && after == before[i := Some(i)][Right(|before|, i) := Some(i)]
  }

  predicate ReleasesBoth(before: seq<Option<nat>>, after: seq<Option<nat>>, i: nat) {
    && i < |before|
    && before[i] == Some(i) && before[Right(|before|, i)] == Some(i)
    && after == before[i := None][Right(|before|, i) := None]
  }

  lemma GrantTakesBoth(st: seq<Phil>, j: nat)
    requires |st| >= 2 && j < |st| && NeighboursExclusive(st) && CanEat(st, j)
    ensures TakesBoth(Table(st), Table(st[j := Eating]), j)
  {
  }

  lemma PutReleasesBoth(st: seq<Phil>, i: nat)
    requires |st| >= 2 && i < |st| && NeighboursExclusive(st) && st[i] == Eating
    ensures ReleasesBoth(Table(st), Table(st[i := Thinking]), i)
  {
    var n := |st|;
    var before, after := Table(st), Table(st[i := Thinking]);
    var l := Left(n, i);
    assert Right(n, l) == i;
    assert st[Right(n, i)] != Eating && st[l] != Eating;
    forall k | 0 <= k < n ensures after[k] == before[i := None][Right(n, i) := None][k] {
      if k != i && k != Right(n, i) {
        assert Left(n, k) != i;
      }
    }
  }

  /** Ownership refinement: every move of every run leaves the table of owners
      alone, or one hungry philosopher takes two free sticks at once (in take, or
      handed over by a neighbour's put), or one eating philosopher in put
      releases both of its own, before any hand-over. */
  lemma MoveRefinesSticks(n: nat, tr: seq<State>, i: nat, s': State)
    requires Run(n, tr) && |tr[|tr| - 1].st| == |tr[|tr| - 1].pcs| && Move(tr[|tr| - 1], i, s')
    ensures var s := tr[|tr| - 1]; var before, after := Table(s.st), Table(s'.st); var pc := s.pcs[i];
      if Updating(pc) == Some(UGrant) then TakesBoth(before, after, Target(|s.pcs|, pc, i))
      else if pc == PSet then ReleasesBoth(before, after, i)
      else after == before
  {
    RunHasInv(n, tr);
    var s := tr[|tr| - 1];
    var pc := s.pcs[i];
    assert Agrees(s.st[i], pc);
    if Updating(pc) == Some(UGrant) {
      assert Granting(n, pc, i, Target(n, pc, i));
      GrantTakesBoth(s.st, Target(n, pc, i));
    } else if pc == PSet {
      PutReleasesBoth(s.st, i);
    } else {
      QuietMove(s, i, s');
    }
  }

  lemma QuietMove(s: State, i: nat, s': State)
    requires Basics(s) && Move(s, i, s') && Updating(s.pcs[i]) != Some(UGrant) && s.pcs[i] != PSet
    ensures |s'.st| == |s.st| && forall k | 0 <= k < |s.st| :: s'.st[k] == Eating <==> s.st[k] == Eating
    ensures Table(s'.st) == Table(s.st)
  {
  }

  // ---- how many can eat ----

  function Eats(p: Phil): int { Ind(p == Eating) }

  function Hungers(p: Phil): int { Ind(p == Hungry) }

  lemma {:induction false} PairBound(s: seq<Phil>, t: seq<Phil>)
    requires |s| == |t| && forall i | 0 <= i < |s| :: Eats(s[i]) + Eats(t[i]) <= 1
    ensures Sum(s, Eats) + Sum(t, Eats) <= |s|
  {
    if s == [] {
    } else {
      assert forall i | 0 <= i < |s[1..]| :: s[1..][i] == s[i + 1] && t[1..][i] == t[i + 1];
      PairBound(s[1..], t[1..]);
    }
  }

  lemma {:induction false} CoverBound(s: seq<Phil>, l: seq<Phil>, r: seq<Phil>)
    requires |s| == |l| == |r| && forall i | 0 <= i < |s| :: Hungers(s[i]) <= Eats(l[i]) + Eats(r[i])
    ensures Sum(s, Hungers) <= Sum(l, Eats) + Sum(r, Eats)
  {
    if s == [] {
    } else {
      assert forall i | 0 <= i < |s[1..]| :: s[1..][i] == s[i + 1] && l[1..][i] == l[i + 1] && r[1..][i] == r[i + 1];
      CoverBound(s[1..], l[1..], r[1..]);
    }
  }

  /** The ring turned by one place has the same philosophers in it. */
  lemma Turned(st: seq<Phil>) returns (l: seq<Phil>, r: seq<Phil>)
    requires st != []
    ensures |l| == |r| == |st|
    ensures forall i | 0 <= i < |st| :: l[i] == st[Left(|st|, i)]
    ensures forall i | 0 <= i < |st| :: r[i] == st[Right(|st|, i)]
    ensures Sum(l, Eats) == Sum(r, Eats) == Sum(st, Eats)
  {
    var n := |st|;
    r := st[1..] + [st[0]];
    l := [st[n - 1]] + st[..n - 1];
    SumConcat(st[1..], [st[0]], Eats);
    SumConcat([st[n - 1]], st[..n - 1], Eats);
    SumConcat([st[0]], st[1..], Eats);
    SumConcat(st[..n - 1], [st[n - 1]], Eats);
    assert st == [st[0]] + st[1..] == st[..n - 1] + [st[n - 1]];
  }

  lemma ExclusiveBound(st: seq<Phil>)
    requires st != [] && NeighboursExclusive(st)
    ensures 2 * Sum(st, Eats) <= |st|
  {
    var l, r := Turned(st);
    forall i | 0 <= i < |st| ensures Eats(st[i]) + Eats(r[i]) <= 1 {
      assert !(st[i] == Eating && st[Right(|st|, i)] == Eating);
    }
    PairBound(st, r);
  }

  lemma CoveredBound(st: seq<Phil>)
    requires st != [] && NobodyForgotten(st)
    ensures Sum(st, Hungers) <= 2 * Sum(st, Eats)
  {
    var l, r := Turned(st);
    forall i | 0 <= i < |st| ensures Hungers(st[i]) <= Eats(l[i]) + Eats(r[i]) {
      assert st[i] == Hungry ==> EatingNeighbour(st, i);
    }
    CoverBound(st, l, r);
  }

  /** At most every other philosopher eats; and with M free there are at most
      two hungry philosophers for each one that eats. */
  lemma EatingBound(n: nat, tr: seq<State>)
    requires Run(n, tr)
    ensures var s := tr[|tr| - 1];
      && 2 * Sum(s.st, Eats) <= n
      && (s.m > 0 ==> Sum(s.st, Hungers) <= 2 * Sum(s.st, Eats))
  {
    RunHasInv(n, tr);
    MonitorInvariant(n, tr);
    ExclusiveBound(tr[|tr| - 1].st);
    if tr[|tr| - 1].m > 0 {
      CoveredBound(tr[|tr| - 1].st);
    }
  }

  // ---- the C functions, run with M held throughout ----

  /** What update_state does to the states. */
  function Updated(st: seq<Phil>, i: nat): (r: seq<Phil>)
    requires i < |st|
    ensures |r| == |st|
  {
    if CanEat(st, i) then st[i := Eating] else st
  }

  /** The steps of a whole call of update_state. */
  function UpdateRun(s: State, i: nat): (s': State)
    requires |s.st| == |s.pcs| && i < |s.pcs|
    ensures |s'.st| == |s'.pcs| == |s.pcs|
  {
    if Updating(s.pcs[i]) != Some(UTest) then s
    else
      var s1 := UpdateStep(s, i);
      if Updating(s1.pcs[i]) == Some(UGrant) then UpdateStep(UpdateStep(s1, i), i) else s1
  }

  /** They add up to update_state: if the test holds the target eats, and its
      thread wakes up if it is parked; no other philosopher and no other thread
      but the caller changes. */
  lemma UpdateRunIsUpdated(s: State, i: nat)
    requires |s.st| == |s.pcs| && i < |s.pcs| && Updating(s.pcs[i]) == Some(UTest)
    ensures var j := Target(|s.st|, s.pcs[i], i); var s' := UpdateRun(s, i);
      && s'.st == Updated(s.st, j) && s'.m == s.m && s'.pcs[i] == AfterUpdate(s.pcs[i])
      && forall k | 0 <= k < |s.pcs| && k != i ::
           s'.pcs[k] == if k == j && s.pcs[k] == Parked && CanEat(s.st, j) then Woken else s.pcs[k]
  {
  }

  /** The invariant whenever M is free. */
  ghost predicate Good(st: seq<Phil>) {
    |st| >= 2 && NeighboursExclusive(st) && NobodyForgotten(st)
  }

  function AfterTake(st: seq<Phil>, i: nat): seq<Phil>
    requires i < |st|
  {
    Updated(st[i := Hungry], i)
  }

  function AfterPut(st: seq<Phil>, i: nat): seq<Phil>
    requires i < |st|
  {
    Updated(Updated(st[i := Thinking], Left(|st|, i)), Right(|st|, i))
  }

  /** The steps of take up to its loop, and of put, are these two functions:
      left is updated before right. */
  lemma TakeRun(s: State, i: nat)
    requires |s.st| == |s.pcs| && i < |s.pcs| && s.pcs[i] == TSet
    ensures UpdateRun(Step(s, i).value, i).st == AfterTake(s.st, i)
    ensures UpdateRun(Step(s, i).value, i).pcs[i] == TCheck
  {
    UpdateRunIsUpdated(Step(s, i).value, i);
  }

  lemma PutRun(s: State, i: nat)
    requires |s.st| == |s.pcs| >= 2 && i < |s.pcs| && s.pcs[i] == PSet
    ensures UpdateRun(UpdateRun(Step(s, i).value, i), i).st == AfterPut(s.st, i)
    ensures UpdateRun(UpdateRun(Step(s, i).value, i), i).pcs[i] == PUnlock
  {
    var s1 := Step(s, i).value;
    UpdateRunIsUpdated(s1, i);
    UpdateRunIsUpdated(UpdateRun(s1, i), i);
  }

  // ---- whole calls, by one thread that is not interrupted ----

  function Own(i: nat): State -> Option<State> {
    (s: State) => if |s.st| == |s.pcs| && i < |s.pcs| then Step(s, i) else None
  }

  lemma OwnMore(i: nat, a: State, s: State)
    requires Leads(Own(i), a, s) && |s.st| == |s.pcs| && i < |s.pcs| && Step(s, i).Some?
    ensures Leads(Own(i), a, Step(s, i).value)
  {
    LeadsMore(Own(i), a, s);
  }

  lemma OwnUpdates(i: nat, a: State, s: State)
    requires Leads(Own(i), a, s) && |s.st| == |s.pcs| && i < |s.pcs| && Updating(s.pcs[i]) == Some(UTest)
    ensures Leads(Own(i), a, UpdateRun(s, i))
  {
    var s1 := UpdateStep(s, i);
    OwnMore(i, a, s);
    if Updating(s1.pcs[i]) == Some(UGrant) {
      OwnMore(i, a, s1);
      OwnMore(i, a, UpdateStep(s1, i));
    }
  }

  /** take as far as the first test of its loop. */
  lemma TakeAsks(s: State, i: nat)
    requires Shape(s) && s.m > 0 && i < |s.pcs| && s.pcs[i] == Outside
    ensures Leads(Own(i), s, State(AfterTake(s.st, i), s.m - 1, s.pcs[i := TCheck]))
  {
    var asked := State(s.st[i := Hungry], s.m - 1, s.pcs[i := TUpdate(UTest)]);
    LeadsZero(Own(i), s);
    OwnMore(i, s, s);
    OwnMore(i, s, s.(pcs := s.pcs[i := TLock]));
    OwnMore(i, s, s.(m := s.m - 1, pcs := s.pcs[i := TSet]));
    assert s.(m := s.m - 1, pcs := s.pcs[i := TSet]).pcs[i := TUpdate(UTest)] == asked.pcs;
    OwnUpdates(i, s, asked);
    UpdateRunIsUpdated(asked, i);
    assert UpdateRun(asked, i).pcs == s.pcs[i := TCheck];
  }

  /** The loop of take, from its test: out of the call to eat, or to wait. */
  lemma TakeDecides(a: State, s: State, i: nat)
    requires Shape(s) && i < |s.pcs| && s.pcs[i] == TCheck && Leads(Own(i), a, s)
    ensures Leads(Own(i), a, State(s.st, s.m + 1, s.pcs[i := if s.st[i] == Hungry then Parked else Dining]))
  {
    var pc := if s.st[i] == Hungry then TWait else TUnlock;
    OwnMore(i, a, s);
    assert s.st[i := s.st[i]] == s.st;
    OwnMore(i, a, s.(pcs := s.pcs[i := pc]));
    assert s.pcs[i := pc][i := if s.st[i] == Hungry then Parked else Dining]
      == s.pcs[i := if s.st[i] == Hungry then Parked else Dining];
  }

  /** chopsticks_take, all of it: the philosopher eats and has returned, or is
      hungry and waits, exactly if a neighbour eats; nothing else changes. */
  lemma TakeAlone(s: State, i: nat)
    requires Shape(s) && s.m > 0 && i < |s.pcs| && s.pcs[i] == Outside
    ensures var waits := EatingNeighbour(s.st, i);
      Leads(Own(i), s, State(s.st[i := if waits then Hungry else Eating], s.m, s.pcs[i := if waits then Parked else Dining]))
  {
    TakeAsks(s, i);
    var asked := State(AfterTake(s.st, i), s.m - 1, s.pcs[i := TCheck]);
    TakeDecides(s, asked, i);
    assert AfterTake(s.st, i) == s.st[i := if EatingNeighbour(s.st, i) then Hungry else Eating];
    assert asked.pcs[i := Parked] == s.pcs[i := Parked] && asked.pcs[i := Dining] == s.pcs[i := Dining];
  }

  /** The return from pthread_cond_wait: on to eat, or to wait again. */
  lemma WakeAlone(s: State, i: nat)
    requires Shape(s) && s.m > 0 && i < |s.pcs| && s.pcs[i] == Woken
    ensures Leads(Own(i), s, s.(pcs := s.pcs[i := if s.st[i] == Hungry then Parked else Dining]))
  {
    var checks := s.(m := s.m - 1, pcs := s.pcs[i := TCheck]);
    LeadsZero(Own(i), s);
    OwnMore(i, s, s);
    assert s.st[i := s.st[i]] == s.st;
    TakeDecides(s, checks, i);
    assert checks.pcs[i := Parked] == s.pcs[i := Parked] && checks.pcs[i := Dining] == s.pcs[i := Dining];
  }

  /** put as far as its two calls of update_state. */
  lemma PutBegins(s: State, i: nat)
    requires Shape(s) && s.m > 0 && i < |s.pcs| && s.pcs[i] == Dining
    ensures Leads(Own(i), s, State(s.st[i := Thinking], s.m - 1, s.pcs[i := PLeft(UTest)]))
  {
    LeadsZero(Own(i), s);
    OwnMore(i, s, s);
    assert s.st[i := s.st[i]] == s.st;
    OwnMore(i, s, s.(pcs := s.pcs[i := PLock]));
    assert s.pcs[i := PLock][i := PSet] == s.pcs[i := PSet];
    OwnMore(i, s, s.(m := s.m - 1, pcs := s.pcs[i := PSet]));
    assert s.pcs[i := PSet][i := PLeft(UTest)] == s.pcs[i := PLeft(UTest)];
  }

  /** chopsticks_put, all of it: the states are AfterPut, the caller is outside,
      M is free again, and of the other threads those that are parked and whose
      philosophers it makes eat wake up, and no others. */
  lemma PutAlone(s: State, i: nat) returns (s': State)
    requires Shape(s) && s.m > 0 && i < |s.pcs| && s.pcs[i] == Dining
    requires NeighboursExclusive(s.st) && s.st[i] == Eating
    ensures Leads(Own(i), s, s') && s'.st == AfterPut(s.st, i) && s'.m == s.m
    ensures |s'.pcs| == |s.pcs| && s'.pcs[i] == Outside
    ensures forall k | 0 <= k < |s.pcs| && k != i ::
      s'.pcs[k] == if s.pcs[k] == Parked && s'.st[k] == Eating && s.st[k] != Eating then Woken else s.pcs[k]
  {
    var s1 := State(s.st[i := Thinking], s.m - 1, s.pcs[i := PLeft(UTest)]);
    PutBegins(s, i);
    var s3 := PutUpdates(s, s1, i);
    s' := PutEnds(s, s3, i);
    PutWakes(s.st, i, s1.st, Updated(s1.st, Left(|s.st|, i)), s3.st);
  }

  /** The two calls of update_state in put: left, then right. */
  lemma PutUpdates(a: State, s: State, i: nat) returns (s': State)
    requires Shape(s) && i < |s.pcs| && s.pcs[i] == PLeft(UTest) && Leads(Own(i), a, s)
    ensures var l, r := Left(|s.st|, i), Right(|s.st|, i); var mid := Updated(s.st, l);
      && Leads(Own(i), a, s') && s'.st == Updated(mid, r) && s'.m == s.m
      && |s'.pcs| == |s.pcs| && s'.pcs[i] == PUnlock
      && forall k | 0 <= k < |s.pcs| && k != i ::
           s'.pcs[k] == if s.pcs[k] == Parked && ((k == l && CanEat(s.st, k)) || (k == r && CanEat(mid, k))) then Woken
                        else s.pcs[k]
  {
    OwnUpdates(i, a, s);
    var s2 := UpdateRun(s, i);
    UpdateRunIsUpdated(s, i);
    OwnUpdates(i, a, s2);
    s' := UpdateRun(s2, i);
    UpdateRunIsUpdated(s2, i);
  }

  lemma PutEnds(a: State, s: State, i: nat) returns (s': State)
    requires Shape(s) && i < |s.pcs| && s.pcs[i] == PUnlock && Leads(Own(i), a, s)
    ensures Leads(Own(i), a, s') && s' == State(s.st, s.m + 1, s.pcs[i := Outside])
  {
    OwnMore(i, a, s);
    s' := Step(s, i).value;
    assert s.st[i := s.st[i]] == s.st;
  }

  /** Whom they make eat. */
  lemma PutWakes(st: seq<Phil>, i: nat, x: seq<Phil>, y: seq<Phil>, z: seq<Phil>)
    requires |st| >= 2 && i < |st| && NeighboursExclusive(st) && st[i] == Eating
    requires x == st[i := Thinking] && y == Updated(x, Left(|x|, i)) && z == Updated(y, Right(|y|, i))
    ensures forall k | 0 <= k < |st| && k != i ::
      (z[k] == Eating && st[k] != Eating)
      <==> (k == Left(|x|, i) && CanEat(x, k)) || (k == Right(|y|, i) && CanEat(y, k))
  {
  }

  // ---- the same within a run, whatever the other threads do ----

  /** How far put has got in changing the states `x` it found, by the position
      of its thread. */
  ghost predicate PutAt(x: seq<Phil>, i: nat, s: State) {
    && i < |x| == |s.st| == |s.pcs|
    && var mid, l, r := x[i := Thinking], Left(|x|, i), Right(|x|, i);
      match s.pcs[i]
      case PSet => s.st == x
      case PLeft(UTest) => s.st == mid
      case PLeft(UGrant) => s.st == mid && CanEat(mid, l)
      case PLeft(USignal) => s.st == Updated(mid, l)
      case PRight(UTest) => s.st == Updated(mid, l)
      case PRight(UGrant) => s.st == Updated(mid, l) && CanEat(Updated(mid, l), r)
      case PRight(USignal) => s.st == AfterPut(x, i)
      case PUnlock => s.st == AfterPut(x, i)
      case _ => false
  }

  ghost predicate TakeAt(x: seq<Phil>, i: nat, s: State) {
    && i < |x| == |s.st| == |s.pcs|
    && var asked := x[i := Hungry];
      match s.pcs[i]
      case TSet => s.st == x
      case TUpdate(UTest) => s.st == asked
      case TUpdate(UGrant) => s.st == asked && CanEat(asked, i)
      case TUpdate(USignal) => s.st == AfterTake(x, i)
      case TCheck => s.st == AfterTake(x, i)
      case _ => false
  }

  /** While thread i holds M, no other thread changes a state or moves i. */
  lemma OthersLeaveHolder(s: State, i: nat, k: nat, s': State)
    requires Basics(s) && i < |s.pcs| && HoldsM(s.pcs[i]) == 1 && k != i && Move(s, k, s')
    ensures s'.st == s.st && |s'.pcs| == |s.pcs| && s'.pcs[i] == s.pcs[i]
  {
    if HoldsM(s.pcs[k]) == 1 {
      HolderIsUnique(s, i, k);
    }
  }

  lemma MoveKeepsPutAt(x: seq<Phil>, i: nat, s: State, k: nat, s': State)
    requires Basics(s) && PutAt(x, i, s) && s.pcs[i] != PUnlock && Move(s, k, s')
    ensures PutAt(x, i, s')
  {
    if k != i {
      OthersLeaveHolder(s, i, k, s');
    }
  }

  lemma MoveKeepsTakeAt(x: seq<Phil>, i: nat, s: State, k: nat, s': State)
    requires Basics(s) && TakeAt(x, i, s) && s.pcs[i] != TCheck && Move(s, k, s')
    ensures TakeAt(x, i, s')
  {
    if k != i {
      OthersLeaveHolder(s, i, k, s');
    }
  }

  function PcOf(s: State, i: nat): PC {
    if i < |s.pcs| then s.pcs[i] else Outside
  }

  lemma StateInRun(n: nat, tr: seq<State>, b: nat)
    requires Run(n, tr) && b < |tr|
    ensures Inv(tr[b]) && |tr[b].st| == n
    ensures b > 0 ==> Next(tr[b - 1], tr[b])
  {
    RunHasInv(n, tr[..b + 1]);
    if b > 0 {
      assert Next(tr[b - 1], tr[b - 1 + 1]);
    }
  }

  lemma NextKeepsPutAt(x: seq<Phil>, i: nat, s: State, s': State)
    requires Basics(s) && PutAt(x, i, s) && PcOf(s, i) != PUnlock && Next(s, s')
    ensures PutAt(x, i, s')
  {
    var k: nat :| Move(s, k, s');
    MoveKeepsPutAt(x, i, s, k, s');
  }

  lemma NextKeepsTakeAt(x: seq<Phil>, i: nat, s: State, s': State)
    requires Basics(s) && TakeAt(x, i, s) && PcOf(s, i) != TCheck && Next(s, s')
    ensures TakeAt(x, i, s')
  {
    var k: nat :| Move(s, k, s');
    MoveKeepsTakeAt(x, i, s, k, s');
  }

  lemma {:induction false} PutProgress(n: nat, tr: seq<State>, i: nat, a: nat, b: nat)
    requires Run(n, tr) && a <= b < |tr|
    requires PcOf(tr[a], i) == PSet && forall j | a <= j < b :: PcOf(tr[j], i) != PUnlock
    ensures PutAt(tr[a].st, i, tr[b])
  {
    if b == a {
      StateInRun(n, tr, a);
    } else {
      PutProgress(n, tr, i, a, b - 1);
      StateInRun(n, tr, b - 1);
      StateInRun(n, tr, b);
      assert PcOf(tr[b - 1], i) != PUnlock;
      NextKeepsPutAt(tr[a].st, i, tr[b - 1], tr[b]);
    }
  }

  lemma {:induction false} TakeProgress(n: nat, tr: seq<State>, i: nat, a: nat, b: nat)
    requires Run(n, tr) && a <= b < |tr|
    requires PcOf(tr[a], i) == TSet && forall j | a <= j < b :: PcOf(tr[j], i) != TCheck
    ensures TakeAt(tr[a].st, i, tr[b])
  {
    if b == a {
      StateInRun(n, tr, a);
    } else {
      TakeProgress(n, tr, i, a, b - 1);
      StateInRun(n, tr, b - 1);
      StateInRun(n, tr, b);
      assert PcOf(tr[b - 1], i) != TCheck;
      NextKeepsTakeAt(tr[a].st, i, tr[b - 1], tr[b]);
    }
  }

  lemma EatersAwake(s: State, i: nat)
    requires Inv(s) && i < |s.pcs| && HoldsM(s.pcs[i]) == 1 && Updating(s.pcs[i]) != Some(USignal)
    ensures forall j | 0 <= j < |s.st| && s.st[j] == Eating :: s.pcs[j] != Parked
  {
    forall j | 0 <= j < |s.st| && s.st[j] == Eating && s.pcs[j] == Parked ensures false {
      assert ParkedCovered(s, j);
      var k :| 0 <= k < |s.pcs| && Signalling(|s.pcs|, s.pcs[k], k, j);
      PendingIsHeld(|s.pcs|, s.pcs[k], k, j);
      HolderIsUnique(s, i, k);
    }
  }

  /** put is atomic in every run: from where thread i holds M to where it is
      about to release it, whatever the other threads do and however often they
      wake up, the states go from x to AfterPut(x, i), and every philosopher
      that eats then is awake. */
  lemma PutIsAtomic(n: nat, tr: seq<State>, i: nat, a: nat, b: nat)
    requires Run(n, tr) && a <= b < |tr|
    requires PcOf(tr[a], i) == PSet && PcOf(tr[b], i) == PUnlock && forall j | a <= j < b :: PcOf(tr[j], i) != PUnlock
    ensures i < |tr[a].st| && NeighboursExclusive(tr[a].st) && tr[a].st[i] == Eating
    ensures tr[b].st == AfterPut(tr[a].st, i)
    ensures |tr[b].st| == |tr[b].pcs| && forall j | 0 <= j < |tr[b].st| && tr[b].st[j] == Eating :: tr[b].pcs[j] != Parked
  {
    PutProgress(n, tr, i, a, b);
    StateInRun(n, tr, a);
    StateInRun(n, tr, b);
    assert Agrees(tr[a].st[i], tr[a].pcs[i]);
    EatersAwake(tr[b], i);
  }

  /** And so is take, up to the first test of its loop. */
  lemma TakeIsAtomic(n: nat, tr: seq<State>, i: nat, a: nat, b: nat)
    requires Run(n, tr) && a <= b < |tr|
    requires PcOf(tr[a], i) == TSet && PcOf(tr[b], i) == TCheck && forall j | a <= j < b :: PcOf(tr[j], i) != TCheck
    ensures i < |tr[a].st| && tr[a].st[i] == Thinking
    ensures tr[b].st == AfterTake(tr[a].st, i)
  {
    TakeProgress(n, tr, i, a, b);
    StateInRun(n, tr, a);
    assert Agrees(tr[a].st[i], tr[a].pcs[i]);
  }

  lemma UpdatedKeepsExclusive(st: seq<Phil>, i: nat)
    requires |st| >= 2 && i < |st| && NeighboursExclusive(st)
    ensures NeighboursExclusive(Updated(st, i))
  {
  }

  lemma TakeKeepsGood(st: seq<Phil>, i: nat)
    requires Good(st) && i < |st| && st[i] == Thinking
    ensures Good(AfterTake(st, i))
    ensures AfterTake(st, i)[i] == if EatingNeighbour(st, i) then Hungry else Eating
    ensures forall k | 0 <= k < |st| && k != i :: AfterTake(st, i)[k] == st[k]
  {
  }

  lemma HandOver(st: seq<Phil>, i: nat)
    requires |st| >= 2 && i < |st| && NeighboursExclusive(st) && st[i] == Eating
    ensures var n := |st|; var st' := AfterPut(st, i); var l, r := Left(n, i), Right(n, i);
      && st'[i] == Thinking
      && (forall k | 0 <= k < n && k != i && k != l && k != r :: st'[k] == st[k])
      && st'[l] == (if st[l] == Hungry && (Left(n, l) == i || st[Left(n, l)] != Eating) then Eating else st[l])
      && st'[r] == (if st[r] == Hungry && st'[Right(n, r)] != Eating then Eating else st[r])
  {
  }

  /** put keeps the invariant, and hands over to a hungry left neighbour unless
      its other neighbour eats, and then to a hungry right neighbour unless its
      other neighbour eats now: on a ring of three that is the left one. */
  lemma PutKeepsGood(st: seq<Phil>, i: nat)
    requires Good(st) && i < |st| && st[i] == Eating
    ensures Good(AfterPut(st, i))
  {
    var n, st' := |st|, AfterPut(st, i);
    var mid := st[i := Thinking];
    forall k | 0 <= k < n ensures !(mid[k] == Eating && mid[Right(n, k)] == Eating) {
      assert !(st[k] == Eating && st[Right(n, k)] == Eating);
    }
    UpdatedKeepsExclusive(mid, Left(n, i));
    UpdatedKeepsExclusive(Updated(mid, Left(n, i)), Right(n, i));
    HandOver(st, i);
    forall k | 0 <= k < n && st'[k] == Hungry ensures EatingNeighbour(st', k) {
      assert EatingNeighbour(st, k);
    }
  }

  /** The philosophers that put signals, in order. */
  function HandedTo(st: seq<Phil>, i: nat): seq<nat>
    requires i < |st|
  {
    var n := |st|;
    var mid := st[i := Thinking];
    (if CanEat(mid, Left(n, i)) then [Left(n, i)] else [])
    + (if CanEat(Updated(mid, Left(n, i)), Right(n, i)) then [Right(n, i)] else [])
  }

  /** put signals exactly the philosophers that it makes eat ... */
  lemma HandedToExactly(st: seq<Phil>, i: nat, k: nat)
    requires |st| >= 2 && i < |st| && k < |st| && st[i] == Eating
    ensures k in HandedTo(st, i) <==> AfterPut(st, i)[k] == Eating && st[k] != Eating
  {
  }

  /** ... the left one first, and each once. */
  lemma HandedToInOrder(st: seq<Phil>, i: nat)
    requires |st| >= 2 && i < |st| && NeighboursExclusive(st) && st[i] == Eating
    ensures var st' := AfterPut(st, i); var l, r := Left(|st|, i), Right(|st|, i);
      HandedTo(st, i) == (if st'[l] == Eating && st[l] != Eating then [l] else [])
                         + (if r != l && st'[r] == Eating && st[r] != Eating then [r] else [])
  {
    PutWakes(st, i, st[i := Thinking], Updated(st[i := Thinking], Left(|st|, i)), AfterPut(st, i));
  }

  class Monitor {
    const state: array<Phil>
    var signals: seq<nat>  // the calls of pthread_cond_signal, in order

    ghost predicate Valid()
      reads this, state
    {
      Good(state[..])
    }

    /** chopsticks_init, for `n` philosophers. */
    constructor (n: nat)
      requires n >= 2
      ensures Valid() && fresh(state) && signals == []
      ensures |state[..]| == n && forall i | 0 <= i < n :: state[i] == Thinking
      ensures Init(n, State(state[..], 1, seq(n, _ => Outside)))
    {
      state := new Phil[n];
      signals := [];
      new;
      for i := 0 to n
        invariant signals == [] && forall k | 0 <= k < i :: state[k] == Thinking
      {
        state[i] := Thinking;
      }
    }

    method UpdateState(i: nat)
      requires i < state.Length
      modifies this, state
      ensures state[..] == Updated(old(state[..]), i)
      ensures signals == if CanEat(old(state[..]), i) then old(signals) + [i] else old(signals)
    {
      if state[i] == Hungry && state[Left(state.Length, i)] != Eating && state[Right(state.Length, i)] != Eating {
        state[i] := Eating;
        signals := signals + [i];
      }
    }

    /** chopsticks_take up to the first test of its loop; `wait`: the caller
        goes on to wait, else it returns and eats. */
    method Take(i: nat) returns (wait: bool)
      requires Valid() && i < state.Length && state[i] == Thinking
      modifies this, state
      ensures Valid() && state[..] == AfterTake(old(state[..]), i)
      ensures wait <==> EatingNeighbour(old(state[..]), i)
      ensures state[i] == if wait then Hungry else Eating
      ensures signals == old(signals) + (if wait then [] else [i])
    {
      TakeKeepsGood(state[..], i);
      ghost var was := state[..];
      state[i] := Hungry;
      assert state[..] == was[i := Hungry];
      UpdateState(i);
      wait := state[i] == Hungry;
    }

    method Put(i: nat)
      requires Valid() && i < state.Length && state[i] == Eating
      modifies this, state
      ensures Valid() && state[..] == AfterPut(old(state[..]), i)
      ensures state[i] == Thinking
      ensures var l, r := Left(state.Length, i), Right(state.Length, i);
        signals == old(signals)
          + (if state[l] == Eating && old(state[..])[l] != Eating then [l] else [])
          + (if r != l && state[r] == Eating && old(state[..])[r] != Eating then [r] else [])
    {
      PutKeepsGood(state[..], i);
      HandOver(state[..], i);
      HandedToInOrder(state[..], i);
      ghost var was := state[..];
      state[i] := Thinking;
      assert state[..] == was[i := Thinking];
      UpdateState(Left(state.Length, i));
      UpdateState(Right(state.Length, i));
    }
  }
}
