/** The counting semaphore of assignment3/correct.h: a counter `val` and two
    POSIX semaphores, `gate` and `mutex`.  Every sem_wait, every sem_post, every
    load, every store and every test of `val` is one atomic step. */
module CountingSemaphore {
  import opened Counting
  import opened Steps

  datatype Sem = Sem(val: int, gate: nat, mutex: nat)

  /** Where a thread stands inside semWait (W...) or semPost (P...).
      Idle: outside both.  `val -= 1` and `val += 1` are a load and a store of
      what was loaded, one less or one more. */
  datatype SemPC =
    | Idle
    | WGate | WMutex | WLoad | WStore(tmp: int) | WTest | WReopen | WRelease
    | PMutex | PLoad | PStore(tmp: int) | PTest | POpen | PRelease

  predicate InWait(pc: SemPC) {
    pc.WStore? || pc in {WGate, WMutex, WLoad, WTest, WReopen, WRelease}
  }

  predicate InPost(pc: SemPC) {
    pc.PStore? || pc in {PMutex, PLoad, PTest, POpen, PRelease}
  }

  function SemInit(k: int): Sem {
    Sem(k, if k >= 1 then 1 else 0, 1)
  }

  /** One atomic step at `pc`; None when the step blocks (or there is none). */
  function SemStep(s: Sem, pc: SemPC): Option<(Sem, SemPC)> {
    match pc
    case Idle => None
    case WGate => if s.gate > 0 then Some((s.(gate := s.gate - 1), WMutex)) else None
    case WMutex => if s.mutex > 0 then Some((s.(mutex := s.mutex - 1), WLoad)) else None
    case WLoad => Some((s, WStore(s.val)))
    case WStore(tmp) => Some((s.(val := tmp - 1), WTest))
    case WTest => Some((s, if s.val > 0 then WReopen else WRelease))
    case WReopen => Some((s.(gate := s.gate + 1), WRelease))
    case WRelease => Some((s.(mutex := s.mutex + 1), Idle))
    case PMutex => if s.mutex > 0 then Some((s.(mutex := s.mutex - 1), PLoad)) else None
    case PLoad => Some((s, PStore(s.val)))
    case PStore(tmp) => Some((s.(val := tmp + 1), PTest))
    case PTest => Some((s, if s.val == 1 then POpen else PRelease))
    case POpen => Some((s.(gate := s.gate + 1), PRelease))
    case PRelease => Some((s.(mutex := s.mutex + 1), Idle))
  }

  // ---- where the gate token and the mutex can be ----

  /** The thread holds `mutex`. */
  function InCrit(pc: SemPC): int {
    Ind(pc.WStore? || pc.PStore? || pc in {WLoad, WTest, WReopen, WRelease, PLoad, PTest, POpen, PRelease})
  }

  /** Passed the gate and not yet decremented. */
  function PastGate(pc: SemPC): int { Ind(pc.WStore? || pc in {WMutex, WLoad}) }

  /** About to post the gate. */
  function Opening(pc: SemPC): int { Ind(pc in {WReopen, POpen}) }

  function AtWTest(pc: SemPC): int { Ind(pc == WTest) }

  function AtPTest(pc: SemPC): int { Ind(pc == PTest) }

  function AtUpdate(pc: SemPC): int { Ind(pc.WStore? || pc.PStore? || pc in {WLoad, PLoad}) }

  /** The gate token, wherever it is: in the gate, inside a thread that passed
      the gate and has not decremented, or owed by a thread that is going to
      post the gate (already decided, or about to read a `val` that makes it). */
  ghost function GateTokens(s: Sem, pcs: seq<SemPC>): int {
    Tokens(s, Sum(pcs, PastGate), Sum(pcs, Opening), Sum(pcs, AtWTest), Sum(pcs, AtPTest))
  }

  /** The same from the numbers of threads. */
  function Tokens(s: Sem, past: int, opening: int, wtest: int, ptest: int): int {
    s.gate + past + opening + (if s.val > 0 then wtest else 0) + (if s.val == 1 then ptest else 0)
  }

  /** What a thread loaded is still the value of `val`. */
  predicate Loaded(s: Sem, pc: SemPC) {
    pc.WStore? || pc.PStore? ==> pc.tmp == s.val
  }

  ghost predicate SemInv(s: Sem, pcs: seq<SemPC>) {
    && s.mutex + Sum(pcs, InCrit) == 1
    && GateTokens(s, pcs) == Ind(s.val > 0)
    && forall t | 0 <= t < |pcs| :: Loaded(s, pcs[t])
  }

  /** The kinds of mutex holder are disjoint. */
  lemma {:induction false} CritSplit(pcs: seq<SemPC>)
    ensures Sum(pcs, AtUpdate) + Sum(pcs, AtWTest) + Sum(pcs, AtPTest) + Sum(pcs, Opening) <= Sum(pcs, InCrit)
    ensures Sum(pcs, AtUpdate) >= 0 && Sum(pcs, AtWTest) >= 0 && Sum(pcs, AtPTest) >= 0
    ensures Sum(pcs, Opening) >= 0 && Sum(pcs, PastGate) >= 0
  {
    if pcs == [] {
    } else {
      CritSplit(pcs[1..]);
    }
  }

  /** A thread about to decrement finds credit, and loaded it. */
  lemma DecHasCredit(s: Sem, pcs: seq<SemPC>, t: nat)
    requires SemInv(s, pcs) && t < |pcs| && (pcs[t] == WLoad || pcs[t].WStore?)
    ensures s.val > 0 && (pcs[t].WStore? ==> pcs[t].tmp == s.val)
  {
    CritSplit(pcs);
    SumAtLeast(pcs, t, PastGate);
    assert Loaded(s, pcs[t]);
  }

  lemma CritIsUnique(s: Sem, pcs: seq<SemPC>, t: nat, u: nat)
    requires s.mutex + Sum(pcs, InCrit) == 1 && t < |pcs| && u < |pcs|
    requires InCrit(pcs[t]) == 1 && InCrit(pcs[u]) == 1
    ensures t == u
  {
    if t != u {
      SumAtLeastTwo(pcs, t, u, InCrit);
    }
  }

  /** Thanks to the mutex, no store of another thread comes between the load
      and the store. */
  lemma SemStepKeepsLoaded(s: Sem, pcs: seq<SemPC>, t: nat, u: nat)
    requires s.mutex + Sum(pcs, InCrit) == 1 && t < |pcs| && u < |pcs| && SemStep(s, pcs[t]).Some?
    requires Loaded(s, pcs[u])
    ensures var (s', pc') := SemStep(s, pcs[t]).value; Loaded(s', pcs[t := pc'][u])
  {
    if u != t && InCrit(pcs[t]) == 1 && InCrit(pcs[u]) == 1 {
      CritIsUnique(s, pcs, t, u);
    }
  }

  /** The holder of the mutex is alone at every test and every post of the gate. */
  lemma HolderAlone(s: Sem, pcs: seq<SemPC>, t: nat)
    requires s.mutex + Sum(pcs, InCrit) == 1 && t < |pcs| && InCrit(pcs[t]) == 1
    ensures Sum(pcs, Opening) == Opening(pcs[t])
    ensures Sum(pcs, AtWTest) == AtWTest(pcs[t]) && Sum(pcs, AtPTest) == AtPTest(pcs[t])
  {
    SumUpdate(pcs, t, Idle, InCrit);
    SumUpdate(pcs, t, Idle, Opening);
    SumUpdate(pcs, t, Idle, AtWTest);
    SumUpdate(pcs, t, Idle, AtPTest);
    CritSplit(pcs[t := Idle]);
  }

  /** One thread's part in the tokens: without the mutex it moves one from the
      gate to itself; with it, it is alone. */
  lemma StepMovesTokens(s: Sem, pc: SemPC, past: int, opening: int, wtest: int, ptest: int)
    requires SemStep(s, pc).Some? && Loaded(s, pc) && past >= PastGate(pc)
    requires InCrit(pc) == 1 ==> opening == Opening(pc) && wtest == AtWTest(pc) && ptest == AtPTest(pc)
    requires Tokens(s, past, opening, wtest, ptest) == Ind(s.val > 0)
    ensures var (s', pc') := SemStep(s, pc).value;
      && s'.mutex + InCrit(pc') == s.mutex + InCrit(pc)
      && Tokens(s', past - PastGate(pc) + PastGate(pc'), opening - Opening(pc) + Opening(pc'),
                wtest - AtWTest(pc) + AtWTest(pc'), ptest - AtPTest(pc) + AtPTest(pc')) == Ind(s'.val > 0)
  {
  }

  lemma SemStepKeepsTokens(s: Sem, pcs: seq<SemPC>, t: nat)
    requires s.mutex + Sum(pcs, InCrit) == 1 && GateTokens(s, pcs) == Ind(s.val > 0)
    requires t < |pcs| && Loaded(s, pcs[t]) && SemStep(s, pcs[t]).Some?
    ensures var (s', pc') := SemStep(s, pcs[t]).value;
      s'.mutex + Sum(pcs[t := pc'], InCrit) == 1 && GateTokens(s', pcs[t := pc']) == Ind(s'.val > 0)
  {
    var pc' := SemStep(s, pcs[t]).value.1;
    SumUpdate(pcs, t, pc', InCrit);
    SumUpdate(pcs, t, pc', PastGate);
    SumUpdate(pcs, t, pc', Opening);
    SumUpdate(pcs, t, pc', AtWTest);
    SumUpdate(pcs, t, pc', AtPTest);
    SumAtLeast(pcs, t, PastGate);
    if InCrit(pcs[t]) == 1 {
      HolderAlone(s, pcs, t);
    }
    StepMovesTokens(s, pcs[t], Sum(pcs, PastGate), Sum(pcs, Opening), Sum(pcs, AtWTest), Sum(pcs, AtPTest));
  }

  lemma SemStepKeepsInv(s: Sem, pcs: seq<SemPC>, t: nat)
    requires SemInv(s, pcs) && t < |pcs| && SemStep(s, pcs[t]).Some?
    ensures var (s', pc') := SemStep(s, pcs[t]).value; SemInv(s', pcs[t := pc'])
  {
    var (s', pc') := SemStep(s, pcs[t]).value;
    var pcs' := pcs[t := pc'];
    SemStepKeepsTokens(s, pcs, t);
    forall u | 0 <= u < |pcs'| ensures Loaded(s', pcs'[u]) {
      SemStepKeepsLoaded(s, pcs, t, u);
    }
  }

  /** Entering a call, or any move that starts in Idle and touches neither the
      gate token nor the mutex. */
  lemma CallKeepsInv(s: Sem, pcs: seq<SemPC>, t: nat, pc: SemPC)
    requires SemInv(s, pcs) && t < |pcs| && pcs[t] == Idle && pc in {Idle, WGate, PMutex}
    ensures SemInv(s, pcs[t := pc])
  {
    SumUpdate(pcs, t, pc, InCrit);
    SumUpdate(pcs, t, pc, PastGate);
    SumUpdate(pcs, t, pc, Opening);
    SumUpdate(pcs, t, pc, AtWTest);
    SumUpdate(pcs, t, pc, AtPTest);
  }

  lemma InitHasInv(k: int, pcs: seq<SemPC>)
    requires forall t | 0 <= t < |pcs| :: pcs[t] in {Idle, WGate}
    ensures SemInv(SemInit(k), pcs)
  {
    SumZero(pcs, InCrit);
    SumZero(pcs, PastGate);
    SumZero(pcs, Opening);
    SumZero(pcs, AtWTest);
    SumZero(pcs, AtPTest);
  }

  /** When no thread can move, nobody is inside the two calls except waiters at
      the gate, and they are there only because the credit is used up. */
  lemma WhenStuck(s: Sem, pcs: seq<SemPC>)
    requires SemInv(s, pcs)
    requires forall t | 0 <= t < |pcs| :: SemStep(s, pcs[t]).None?
    ensures forall t | 0 <= t < |pcs| :: pcs[t] == Idle || (pcs[t] == WGate && s.val <= 0)
    ensures s.mutex == 1 && s.gate == Ind(s.val > 0)
  {
    if Sum(pcs, InCrit) > 0 {
      var t := SumWitness(pcs, InCrit);
      assert false;
    }
    CritSplit(pcs);
    assert s.mutex == 1;
    assert forall t | 0 <= t < |pcs| :: pcs[t] == Idle || (pcs[t] == WGate && s.gate == 0) by {
      forall t | 0 <= t < |pcs|
        ensures pcs[t] == Idle || (pcs[t] == WGate && s.gate == 0)
      {
        assert SemStep(s, pcs[t]).None?;
      }
    }
    SumZero(pcs, PastGate);
  }

  // ---- the system: any number of threads, any calls in any order ----

  /** `requested`: calls of semWait so far.  `decs`, `incs`: decrements and
      increments of `val` so far. */
  datatype System = System(sem: Sem, pcs: seq<SemPC>, requested: nat, decs: nat, incs: nat)

  datatype Move = CallWait | CallPost | Go

  ghost predicate Init(k: int, s: System) {
    && s.sem == SemInit(k)
    && (forall t | 0 <= t < |s.pcs| :: s.pcs[t] == Idle)
    && s.requested == s.decs == s.incs == 0
  }

  function Step(s: System, t: nat, m: Move): Option<System>
    requires t < |s.pcs|
  {
    match m
    case CallWait =>
      if s.pcs[t] == Idle then Some(s.(pcs := s.pcs[t := WGate], requested := s.requested + 1)) else None
    case CallPost =>
      if s.pcs[t] == Idle then Some(s.(pcs := s.pcs[t := PMutex])) else None
    case Go =>
      match SemStep(s.sem, s.pcs[t])
      case None => None
      case Some((sem, pc)) =>
        Some(System(sem, s.pcs[t := pc], s.requested,
                    s.decs + Ind(s.pcs[t].WStore?), s.incs + Ind(s.pcs[t].PStore?)))
  }

  /** A move is one statement of one thread, or the start of its call, and leaves
      every other thread where it is: no call is dropped or pushed on. */
  lemma OneThreadMoves(s: System, t: nat, m: Move)
    requires t < |s.pcs| && Step(s, t, m).Some?
    ensures var s' := Step(s, t, m).value;
      && |s'.pcs| == |s.pcs| && (forall u | 0 <= u < |s.pcs| && u != t :: s'.pcs[u] == s.pcs[u])
      && match m
         case CallWait => s.pcs[t] == Idle && s'.pcs[t] == WGate && s'.sem == s.sem && s'.requested == s.requested + 1
         case CallPost => s.pcs[t] == Idle && s'.pcs[t] == PMutex && s'.sem == s.sem && s'.requested == s.requested
         case Go => Some((s'.sem, s'.pcs[t])) == SemStep(s.sem, s.pcs[t]) && s'.requested == s.requested
  {
  }

  ghost predicate Next(s: System, s': System) {
    exists t: nat, m :: t < |s.pcs| && Step(s, t, m) == Some(s')
  }

  ghost predicate Run(k: int, tr: seq<System>) {
    && |tr| > 0
    && Init(k, tr[0])
    && forall j | 0 <= j < |tr| - 1 :: Next(tr[j], tr[j + 1])
  }

  function Undecremented(pc: SemPC): int { Ind(pc.WStore? || pc in {WGate, WMutex, WLoad}) }

  function Waiting(pc: SemPC): int { Ind(pc == WGate) }

  ghost predicate Inv(k: int, s: System) {
    && SemInv(s.sem, s.pcs)
    && s.sem.val == k + s.incs - s.decs
    && (s.sem.val >= 0 || s.decs == 0)
    && s.requested == s.decs + Sum(s.pcs, Undecremented)
  }

  /** Only a store changes val, by one. */
  lemma StepMovesVal(s: Sem, pc: SemPC)
    requires SemStep(s, pc).Some? && Loaded(s, pc)
    ensures var (s', pc') := SemStep(s, pc).value;
      && s'.val == s.val + Ind(pc.PStore?) - Ind(pc.WStore?)
      && Undecremented(pc') == Undecremented(pc) - Ind(pc.WStore?)
  {
  }

  lemma StepKeepsInv(k: int, s: System, t: nat, m: Move)
    requires Inv(k, s) && t < |s.pcs| && Step(s, t, m).Some?
    ensures Inv(k, Step(s, t, m).value)
  {
    var s' := Step(s, t, m).value;
    SumUpdate(s.pcs, t, s'.pcs[t], Undecremented);
    if m == Go {
      assert Loaded(s.sem, s.pcs[t]);
      StepMovesVal(s.sem, s.pcs[t]);
      SemStepKeepsInv(s.sem, s.pcs, t);
      if s.pcs[t].WStore? {
        DecHasCredit(s.sem, s.pcs, t);
      }
    } else {
      CallKeepsInv(s.sem, s.pcs, t, s'.pcs[t]);
    }
  }

  lemma {:induction false} RunHasInv(k: int, tr: seq<System>)
    requires Run(k, tr)
    ensures Inv(k, tr[|tr| - 1])
  {
    if |tr| == 1 {
      InitHasInv(k, tr[0].pcs);
      SumZero(tr[0].pcs, Undecremented);
    } else {
      var s := tr[|tr| - 2];
      RunHasInv(k, tr[..|tr| - 1]);
      assert Next(s, tr[|tr| - 2 + 1]);
      var t: nat, m :| t < |s.pcs| && Step(s, t, m) == Some(tr[|tr| - 1]);
      StepKeepsInv(k, s, t, m);
    }
  }

  // ---- main results, for every run, every number of threads, every k ----

  /** Gate accounting: there is one gate token if there is credit and none
      otherwise, and one mutex token always.  So the two semaphores only ever
      hold 0 or 1, and no step posts one that is already 1. */
  lemma BinarySemaphoresSuffice(k: int, tr: seq<System>, t: nat)
    requires Run(k, tr)
    ensures var s := tr[|tr| - 1];
      && GateTokens(s.sem, s.pcs) == Ind(s.sem.val > 0)
      && s.sem.gate <= 1 && s.sem.mutex <= 1
      && (t < |s.pcs| && s.pcs[t] in {WReopen, POpen} ==> s.sem.gate == 0)
      && (t < |s.pcs| && s.pcs[t] in {WRelease, PRelease} ==> s.sem.mutex == 0)
  {
    RunHasInv(k, tr);
    var s := tr[|tr| - 1];
    CritSplit(s.pcs);
    if t < |s.pcs| {
      SumAtLeast(s.pcs, t, Opening);
      SumAtLeast(s.pcs, t, InCrit);
    }
  }

  /** At most one thread is between taking and releasing the mutex. */
  lemma ValIsExclusive(k: int, tr: seq<System>, t: nat, u: nat)
    requires Run(k, tr)
    requires var s := tr[|tr| - 1];
      t < |s.pcs| && u < |s.pcs| && InCrit(s.pcs[t]) == 1 && InCrit(s.pcs[u]) == 1
    ensures t == u
  {
    RunHasInv(k, tr);
    CritIsUnique(tr[|tr| - 1].sem, tr[|tr| - 1].pcs, t, u);
  }

  /** The credit handed out so far: k plus the posts, or none while a negative
      k is still being paid back. */
  function Granted(k: int, incs: nat): nat {
    Pos(k + incs)
  }

  /** What a counting semaphore that starts at k promises: no more waits pass
      than it granted; and when no thread can move, just the other requests are
      blocked. */
  predicate MeetsSpec(k: int, passed: nat, posts: nat, stuck: bool, requested: nat, blocked: int) {
    && passed <= Granted(k, posts)
    && (stuck ==> blocked == Pos(requested - Granted(k, posts)))
  }

  /** Credit: val = k + posts - waits; no more waits pass than were granted, and
      a semaphore that starts at k >= 0 never goes negative. */
  lemma Credit(k: int, tr: seq<System>)
    requires Run(k, tr)
    ensures var s := tr[|tr| - 1];
      && s.sem.val == k + s.incs - s.decs
      && s.decs <= Granted(k, s.incs)
      && (k >= 0 ==> s.sem.val >= 0)
  {
    RunHasInv(k, tr);
  }

  /** Seen from outside, a step is a stutter, one atomic wait (which finds
      val > 0) or one atomic post. */
  lemma StepIsAtomicOrStutter(k: int, tr: seq<System>, t: nat, m: Move)
    requires Run(k, tr)
    requires t < |tr[|tr| - 1].pcs| && Step(tr[|tr| - 1], t, m).Some?
    ensures var s := tr[|tr| - 1]; var s' := Step(s, t, m).value;
      || (s'.sem.val == s.sem.val && s'.decs == s.decs && s'.incs == s.incs)
      || (s.sem.val > 0 && s'.sem.val == s.sem.val - 1 && s'.decs == s.decs + 1 && s'.incs == s.incs)
      || (s'.sem.val == s.sem.val + 1 && s'.decs == s.decs && s'.incs == s.incs + 1)
  {
    RunHasInv(k, tr);
    var s := tr[|tr| - 1];
    assert Loaded(s.sem, s.pcs[t]);
    if m == Go && s.pcs[t].WStore? {
      DecHasCredit(s.sem, s.pcs, t);
    }
  }

  /** No lost wakeup: with credit left and the mutex free, either the gate is
      open and no thread is past it, or it is shut and exactly one thread is
      between the gate and the mutex. */
  lemma NoLostWakeup(k: int, tr: seq<System>)
    requires Run(k, tr)
    requires tr[|tr| - 1].sem.val > 0 && tr[|tr| - 1].sem.mutex > 0
    ensures var s := tr[|tr| - 1];
      || (s.sem.gate == 1 && Sum(s.pcs, PastGate) == 0)
      || (s.sem.gate == 0 && Sum(s.pcs, PastGate) == 1)
  {
    RunHasInv(k, tr);
    CritSplit(tr[|tr| - 1].pcs);
  }

  ghost predicate Stuck(s: System) {
    forall t: nat | t < |s.pcs| :: Step(s, t, Go).None?
  }

  /** When all calls have run as far as they can, every post is complete, and
      the number of waiters left blocked is exactly what a counting semaphore
      would leave: the requests not covered by the credit granted. */
  lemma BlockedExactly(k: int, tr: seq<System>)
    requires Run(k, tr)
    requires Stuck(tr[|tr| - 1])
    ensures var s := tr[|tr| - 1];
      && (forall t | 0 <= t < |s.pcs| :: s.pcs[t] in {Idle, WGate})
      && Sum(s.pcs, Waiting) == Pos(s.requested - Granted(k, s.incs))
  {
    RunHasInv(k, tr);
    var s := tr[|tr| - 1];
    forall t | 0 <= t < |s.pcs| ensures SemStep(s.sem, s.pcs[t]).None? {
      assert Step(s, t, Go).None?;
    }
    WhenStuck(s.sem, s.pcs);
    SumMonotone(s.pcs, Waiting, Undecremented);
    SumMonotone(s.pcs, Undecremented, Waiting);
    if Sum(s.pcs, Waiting) > 0 {
      var t := SumWitness(s.pcs, Waiting);
      assert s.pcs[t] == WGate;
    } else {
      SumNonNegative(s.pcs, Waiting);
    }
  }

  /** The code is a counting semaphore, for every integer k. */
  lemma AsSpecified(k: int, tr: seq<System>)
    requires Run(k, tr)
    ensures var s := tr[|tr| - 1]; MeetsSpec(k, s.decs, s.incs, Stuck(s), s.requested, Sum(s.pcs, Waiting))
  {
    Credit(k, tr);
    if Stuck(tr[|tr| - 1]) {
      BlockedExactly(k, tr);
    }
  }

  /** Steps left in the current call. */
  function StepsLeft(pc: SemPC): int {
    match pc
    case Idle => 0
    case WGate => 7
    case WMutex => 6
    case WLoad => 5
    case WStore(_) => 4
    case WTest => 3
    case WReopen => 2
    case WRelease => 1
    case PMutex => 6
    case PLoad => 5
    case PStore(_) => 4
    case PTest => 3
    case POpen => 2
    case PRelease => 1
  }

  ghost predicate NextGo(s: System, s': System) {
    exists t: nat :: t < |s.pcs| && Step(s, t, Go) == Some(s')
  }

  lemma StepUsesAStep(s: Sem, pc: SemPC)
    requires SemStep(s, pc).Some?
    ensures StepsLeft(SemStep(s, pc).value.1) < StepsLeft(pc)
  {
  }

  lemma GoUsesAStep(s: System, s': System)
    requires NextGo(s, s')
    ensures Sum(s'.pcs, StepsLeft) < Sum(s.pcs, StepsLeft)
  {
    var t: nat :| t < |s.pcs| && Step(s, t, Go) == Some(s');
    StepUsesAStep(s.sem, s.pcs[t]);
    SumUpdate(s.pcs, t, s'.pcs[t], StepsLeft);
  }

  /** Without new calls a run ends: every step uses up the steps left. */
  lemma {:induction false} CallsFinish(tr: seq<System>)
    requires |tr| > 0
    requires forall j | 0 <= j < |tr| - 1 :: NextGo(tr[j], tr[j + 1])
    ensures |tr| - 1 + Sum(tr[|tr| - 1].pcs, StepsLeft) <= Sum(tr[0].pcs, StepsLeft)
  {
    if |tr| == 1 {
    } else {
      CallsFinish(tr[..|tr| - 1]);
      GoUsesAStep(tr[|tr| - 2], tr[|tr| - 2 + 1]);
    }
  }

  // ---- the C functions, run by one thread that is not interrupted ----

  function Own(x: (Sem, SemPC)): Option<(Sem, SemPC)> {
    SemStep(x.0, x.1)
  }

  /** The call at `pc` returns, its steps taken one after another, with s'. */
  ghost predicate Alone(s: Sem, pc: SemPC, s': Sem) {
    Leads(Own, (s, pc), (s', Idle))
  }

  lemma OwnMore(s: Sem, pc: SemPC, s1: Sem, pc1: SemPC)
    requires Leads(Own, (s, pc), (s1, pc1)) && SemStep(s1, pc1).Some?
    ensures Leads(Own, (s, pc), SemStep(s1, pc1).value)
  {
    LeadsMore(Own, (s, pc), (s1, pc1));
  }

  lemma WaitAlone(s: Sem)
    requires s.gate > 0 && s.mutex > 0
    ensures Alone(s, WGate, s.(val := s.val - 1, gate := if s.val > 1 then s.gate else s.gate - 1))
  {
    var taken := s.(gate := s.gate - 1, mutex := s.mutex - 1);
    var stored := taken.(val := s.val - 1);
    LeadsZero(Own, (s, WGate));
    OwnMore(s, WGate, s, WGate);
    OwnMore(s, WGate, s.(gate := s.gate - 1), WMutex);
    OwnMore(s, WGate, taken, WLoad);
    OwnMore(s, WGate, taken, WStore(s.val));
    OwnMore(s, WGate, stored, WTest);
    if s.val > 1 {
      OwnMore(s, WGate, stored, WReopen);
    }
    OwnMore(s, WGate, stored.(gate := if s.val > 1 then s.gate else s.gate - 1), WRelease);
  }

  lemma PostAlone(s: Sem)
    requires s.mutex > 0
    ensures Alone(s, PMutex, s.(val := s.val + 1, gate := s.gate + Ind(s.val == 0)))
  {
    var locked := s.(mutex := s.mutex - 1);
    var stored := locked.(val := s.val + 1);
    LeadsZero(Own, (s, PMutex));
    OwnMore(s, PMutex, s, PMutex);
    OwnMore(s, PMutex, locked, PLoad);
    OwnMore(s, PMutex, locked, PStore(s.val));
    OwnMore(s, PMutex, stored, PTest);
    if s.val == 0 {
      OwnMore(s, PMutex, stored, POpen);
    }
    OwnMore(s, PMutex, stored.(gate := s.gate + Ind(s.val == 0)), PRelease);
  }

  class CountSem {
    var val: int
    var gate: nat
    var mutex: nat

    ghost function State(): Sem
      reads this
    {
      Sem(val, gate, mutex)
    }

    constructor (k: int)
      ensures State() == SemInit(k)
    {
      val := k;
      if k >= 1 {
        gate := 1;
      } else {
        gate := 0;
      }
      mutex := 1;
    }

    method SemWait()
      requires gate > 0 && mutex > 0
      modifies this
      ensures Alone(old(State()), WGate, State())
      ensures val == old(val) - 1 && mutex == old(mutex)
      ensures gate == if val > 0 then old(gate) else old(gate) - 1
    {
      WaitAlone(State());
      gate := gate - 1;
      mutex := mutex - 1;
      val := val - 1;
      if val > 0 {
        gate := gate + 1;
      }
      mutex := mutex + 1;
    }

    method SemPost()
      requires mutex > 0
      modifies this
      ensures Alone(old(State()), PMutex, State())
      ensures val == old(val) + 1 && mutex == old(mutex)
      ensures gate == if val == 1 then old(gate) + 1 else old(gate)
    {
      PostAlone(State());
      mutex := mutex - 1;
      val := val + 1;
      if val == 1 {
        gate := gate + 1;
      }
      mutex := mutex + 1;
    }
  }
}
