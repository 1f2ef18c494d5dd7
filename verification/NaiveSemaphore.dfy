/** The decrement-first semaphore of assignment2/incorrect.h.  `B2` is the
    mutex.  `B1` is a sem_t, so it counts; the comment above semInit wants it
    binary, and a binary B1 forgets a post that finds it at 1. */
module NaiveSemaphore {
  import opened Counting
  import opened Steps
  import S = CountingSemaphore

  datatype Kind = CountingB1 | BinaryB1

  datatype Sem = Sem(val: int, B1: nat, B2: nat)

  /** Thread positions.  W...: in semWait, P...: in semPost.  An update of `val`
      is a load and a store. */
  datatype PC =
    | Idle
    | WMutex | WLoad | WStore(tmp: int) | WTest | WSlowRelease | WBlock | WFastRelease
    | PMutex | PLoad | PStore(tmp: int) | PTest | PSignal | PRelease

  function SemInit(k: int): Sem {
    Sem(k, 0, 1)
  }

  function PostB1(kind: Kind, b: nat): nat {
    match kind
    case CountingB1 => b + 1
    case BinaryB1 => 1
  }

  /** One atomic step at `pc`; None when it blocks. */
  function SemStep(kind: Kind, s: Sem, pc: PC): Option<(Sem, PC)> {
    match pc
    case Idle => None
    case WMutex => if s.B2 > 0 then Some((s.(B2 := s.B2 - 1), WLoad)) else None
    case WLoad => Some((s, WStore(s.val)))
    case WStore(tmp) => Some((s.(val := tmp - 1), WTest))
    case WTest => Some((s, if s.val < 0 then WSlowRelease else WFastRelease))
    case WSlowRelease => Some((s.(B2 := s.B2 + 1), WBlock))
    case WBlock => if s.B1 > 0 then Some((s.(B1 := s.B1 - 1), Idle)) else None
    case WFastRelease => Some((s.(B2 := s.B2 + 1), Idle))
    case PMutex => if s.B2 > 0 then Some((s.(B2 := s.B2 - 1), PLoad)) else None
    case PLoad => Some((s, PStore(s.val)))
    case PStore(tmp) => Some((s.(val := tmp + 1), PTest))
    case PTest => Some((s, if s.val <= 0 then PSignal else PRelease))
    case PSignal => Some((s.(B1 := PostB1(kind, s.B1)), PRelease))
    case PRelease => Some((s.(B2 := s.B2 + 1), Idle))
  }

  /** `requested`, `passed`: calls of semWait so far, and those that returned.
      `posts`: increments so far.  `lost`: posts of a binary B1 that found it set. */
  datatype System = System(sem: Sem, pcs: seq<PC>, requested: nat, passed: nat, posts: nat, lost: nat)

  datatype Move = CallWait | CallPost | Go

  ghost predicate Init(k: int, s: System) {
    && s.sem == SemInit(k)
    && (forall t | 0 <= t < |s.pcs| :: s.pcs[t] == Idle)
    && s.requested == s.passed == s.posts == s.lost == 0
  }

  /** 1 if the step at `pc` is a post that a binary B1 forgets. */
  function Loses(kind: Kind, s: Sem, pc: PC): nat {
    Ind(kind == BinaryB1 && pc == PSignal && s.B1 > 0)
  }

  function Step(kind: Kind, s: System, t: nat, m: Move): Option<System>
    requires t < |s.pcs|
  {
    match m
    case CallWait =>
      if s.pcs[t] == Idle then Some(s.(pcs := s.pcs[t := WMutex], requested := s.requested + 1)) else None
    case CallPost =>
      if s.pcs[t] == Idle then Some(s.(pcs := s.pcs[t := PMutex])) else None
    case Go =>
      match SemStep(kind, s.sem, s.pcs[t])
      case None => None
      case Some((sem, pc)) =>
        Some(System(sem, s.pcs[t := pc], s.requested,
                    s.passed + Ind(s.pcs[t] in {WBlock, WFastRelease}), s.posts + Ind(s.pcs[t].PStore?),
                    s.lost + Loses(kind, s.sem, s.pcs[t])))
  }

  /** A move is one statement of one thread, or the start of its call, and leaves
      every other thread where it is. */
  lemma OneThreadMoves(kind: Kind, s: System, t: nat, m: Move)
    requires t < |s.pcs| && Step(kind, s, t, m).Some?
    ensures var s' := Step(kind, s, t, m).value;
      && |s'.pcs| == |s.pcs| && (forall u | 0 <= u < |s.pcs| && u != t :: s'.pcs[u] == s.pcs[u])
      && match m
         case CallWait => s.pcs[t] == Idle && s'.pcs[t] == WMutex && s'.sem == s.sem && s'.requested == s.requested + 1
         case CallPost => s.pcs[t] == Idle && s'.pcs[t] == PMutex && s'.sem == s.sem && s'.requested == s.requested
         case Go => Some((s'.sem, s'.pcs[t])) == SemStep(kind, s.sem, s.pcs[t]) && s'.requested == s.requested
  {
  }

  ghost predicate Next(kind: Kind, s: System, s': System) {
    exists t: nat, m :: t < |s.pcs| && Step(kind, s, t, m) == Some(s')
  }

  ghost predicate Run(kind: Kind, k: int, tr: seq<System>) {
    && |tr| > 0
    && Init(k, tr[0])
    && forall j | 0 <= j < |tr| - 1 :: Next(kind, tr[j], tr[j + 1])
  }

  // ---- the account of the slow path, for either kind of B1 ----

  function InCrit(pc: PC): int {
    Ind(pc.WStore? || pc.PStore? || pc in {WLoad, WTest, WSlowRelease, WFastRelease, PLoad, PTest, PSignal, PRelease})
  }

  /** Sure to wait on B1, and not yet let through. */
  function Slow(pc: PC): int { Ind(pc in {WSlowRelease, WBlock}) }

  function AtWTest(pc: PC): int { Ind(pc == WTest) }

  function AtPTest(pc: PC): int { Ind(pc == PTest) }

  function AtSignal(pc: PC): int { Ind(pc == PSignal) }

  function AtUpdate(pc: PC): int { Ind(pc.WStore? || pc.PStore? || pc in {WLoad, PLoad}) }

  function AtFast(pc: PC): int { Ind(pc == WFastRelease) }

  function Undecremented(pc: PC): int { Ind(pc.WStore? || pc in {WMutex, WLoad}) }

  function InWait(pc: PC): int {
    Ind(pc.WStore? || pc in {WMutex, WLoad, WTest, WSlowRelease, WBlock, WFastRelease})
  }

  function Blocked(pc: PC): int { Ind(pc == WBlock) }

  /** Threads committed to the slow path and not yet released. */
  ghost function Committed(s: Sem, pcs: seq<PC>): int {
    Committing(s, Sum(pcs, Slow), Sum(pcs, AtWTest))
  }

  /** The same from the numbers of threads. */
  function Committing(s: Sem, slow: int, wtest: int): int {
    slow + (if s.val < 0 then wtest else 0)
  }

  /** Posts of B1 that are decided and not yet made. */
  ghost function PendingPosts(s: Sem, pcs: seq<PC>): int {
    Posting(s, Sum(pcs, AtSignal), Sum(pcs, AtPTest))
  }

  function Posting(s: Sem, signal: int, ptest: int): int {
    signal + (if s.val <= 0 then ptest else 0)
  }

  /** Debt: how far val is below zero. */
  function Debt(val: int): nat {
    Pos(-val)
  }

  /** What a thread loaded is still the value of `val`. */
  predicate Loaded(s: Sem, pc: PC) {
    pc.WStore? || pc.PStore? ==> pc.tmp == s.val
  }

  ghost predicate Account(kind: Kind, k: int, s: Sem, pcs: seq<PC>, lost: nat) {
    && s.B2 + Sum(pcs, InCrit) == 1
    && Committed(s, pcs) == s.B1 + PendingPosts(s, pcs) + Debt(s.val) - Debt(k) + lost
    && (kind == BinaryB1 ==> s.B1 <= 1)
    && (kind == CountingB1 ==> lost == 0)
  }

  ghost predicate SemInv(kind: Kind, k: int, s: Sem, pcs: seq<PC>, lost: nat) {
    && Account(kind, k, s, pcs, lost)
    && forall t | 0 <= t < |pcs| :: Loaded(s, pcs[t])
  }

  ghost predicate Inv(kind: Kind, k: int, s: System) {
    && SemInv(kind, k, s.sem, s.pcs, s.lost)
    && s.requested - Sum(s.pcs, Undecremented) == k + s.posts - s.sem.val
    && s.requested == s.passed + Sum(s.pcs, InWait)
  }

  lemma {:induction false} CritSplit(pcs: seq<PC>)
    ensures Sum(pcs, AtUpdate) + Sum(pcs, AtWTest) + Sum(pcs, AtPTest) + Sum(pcs, AtSignal) + Sum(pcs, AtFast) <= Sum(pcs, InCrit)
    ensures Sum(pcs, AtUpdate) >= 0 && Sum(pcs, AtWTest) >= 0 && Sum(pcs, AtPTest) >= 0
    ensures Sum(pcs, AtSignal) >= 0 && Sum(pcs, AtFast) >= 0 && Sum(pcs, Slow) >= 0
    ensures Sum(pcs, Blocked) >= 0 && Sum(pcs, Undecremented) >= 0
    ensures Sum(pcs, InWait) == Sum(pcs, Undecremented) + Sum(pcs, AtWTest) + Sum(pcs, AtFast) + Sum(pcs, Slow)
  {
    if pcs == [] {
    } else {
      CritSplit(pcs[1..]);
    }
  }

  /** The holder of the mutex is alone at every test and every post of B1. */
  lemma HolderAlone(s: Sem, pcs: seq<PC>, t: nat)
    requires s.B2 + Sum(pcs, InCrit) == 1 && t < |pcs| && InCrit(pcs[t]) == 1
    ensures Sum(pcs, AtWTest) == AtWTest(pcs[t]) && Sum(pcs, AtPTest) == AtPTest(pcs[t])
    ensures Sum(pcs, AtSignal) == AtSignal(pcs[t])
  {
    SumUpdate(pcs, t, Idle, InCrit);
    SumUpdate(pcs, t, Idle, AtWTest);
    SumUpdate(pcs, t, Idle, AtPTest);
    SumUpdate(pcs, t, Idle, AtSignal);
    CritSplit(pcs[t := Idle]);
  }

  /** One thread's part in the account; with the mutex it is alone. */
  lemma StepMovesAccount(kind: Kind, s: Sem, pc: PC, slow: int, wtest: int, signal: int, ptest: int, owed: int)
    requires SemStep(kind, s, pc).Some? && Loaded(s, pc) && (kind == BinaryB1 ==> s.B1 <= 1)
    requires InCrit(pc) == 1 ==> wtest == AtWTest(pc) && ptest == AtPTest(pc) && signal == AtSignal(pc)
    requires Committing(s, slow, wtest) == s.B1 + Posting(s, signal, ptest) + Debt(s.val) + owed
    ensures var (s', pc') := SemStep(kind, s, pc).value;
      && s'.B2 + InCrit(pc') == s.B2 + InCrit(pc)
      && (kind == BinaryB1 ==> s'.B1 <= 1)
      && Committing(s', slow - Slow(pc) + Slow(pc'), wtest - AtWTest(pc) + AtWTest(pc'))
         == s'.B1 + Posting(s', signal - AtSignal(pc) + AtSignal(pc'), ptest - AtPTest(pc) + AtPTest(pc'))
            + Debt(s'.val) + owed + Loses(kind, s, pc)
  {
  }

  lemma SemStepKeepsAccount(kind: Kind, k: int, s: Sem, pcs: seq<PC>, lost: nat, t: nat)
    requires Account(kind, k, s, pcs, lost) && t < |pcs| && Loaded(s, pcs[t]) && SemStep(kind, s, pcs[t]).Some?
    ensures var (s', pc') := SemStep(kind, s, pcs[t]).value;
      Account(kind, k, s', pcs[t := pc'], lost + Loses(kind, s, pcs[t]))
  {
    var pc' := SemStep(kind, s, pcs[t]).value.1;
    SumUpdate(pcs, t, pc', InCrit);
    SumUpdate(pcs, t, pc', Slow);
    SumUpdate(pcs, t, pc', AtWTest);
    SumUpdate(pcs, t, pc', AtPTest);
    SumUpdate(pcs, t, pc', AtSignal);
    if InCrit(pcs[t]) == 1 {
      HolderAlone(s, pcs, t);
    }
    StepMovesAccount(kind, s, pcs[t], Sum(pcs, Slow), Sum(pcs, AtWTest), Sum(pcs, AtSignal), Sum(pcs, AtPTest), lost - Debt(k));
  }

  /** Thanks to the mutex, no store of another thread comes between the load
      and the store. */
  lemma SemStepKeepsLoaded(kind: Kind, s: Sem, pcs: seq<PC>, t: nat, u: nat)
    requires s.B2 + Sum(pcs, InCrit) == 1 && t < |pcs| && u < |pcs| && SemStep(kind, s, pcs[t]).Some?
    requires Loaded(s, pcs[u])
    ensures var (s', pc') := SemStep(kind, s, pcs[t]).value; Loaded(s', pcs[t := pc'][u])
  {
    if u != t && InCrit(pcs[t]) == 1 && InCrit(pcs[u]) == 1 {
      SumAtLeastTwo(pcs, t, u, InCrit);
    }
  }

  lemma SemStepKeepsInv(kind: Kind, k: int, s: Sem, pcs: seq<PC>, lost: nat, t: nat)
    requires SemInv(kind, k, s, pcs, lost) && t < |pcs| && SemStep(kind, s, pcs[t]).Some?
    ensures var (s', pc') := SemStep(kind, s, pcs[t]).value;
      SemInv(kind, k, s', pcs[t := pc'], lost + Loses(kind, s, pcs[t]))
  {
    var (s', pc') := SemStep(kind, s, pcs[t]).value;
    var pcs' := pcs[t := pc'];
    SemStepKeepsAccount(kind, k, s, pcs, lost, t);
    forall u | 0 <= u < |pcs'| ensures Loaded(s', pcs'[u]) {
      SemStepKeepsLoaded(kind, s, pcs, t, u);
    }
  }

  lemma CallKeepsInv(kind: Kind, k: int, s: Sem, pcs: seq<PC>, lost: nat, t: nat, pc: PC)
    requires SemInv(kind, k, s, pcs, lost) && t < |pcs| && pcs[t] == Idle && pc in {WMutex, PMutex}
    ensures SemInv(kind, k, s, pcs[t := pc], lost)
  {
    SumUpdate(pcs, t, pc, InCrit);
    SumUpdate(pcs, t, pc, Slow);
    SumUpdate(pcs, t, pc, AtWTest);
    SumUpdate(pcs, t, pc, AtPTest);
    SumUpdate(pcs, t, pc, AtSignal);
  }

  /** Only a store changes val, by one. */
  lemma StepMovesVal(kind: Kind, s: Sem, pc: PC)
    requires SemStep(kind, s, pc).Some? && Loaded(s, pc)
    ensures var (s', pc') := SemStep(kind, s, pc).value;
      && s'.val == s.val + Ind(pc.PStore?) - Ind(pc.WStore?)
      && Undecremented(pc') == Undecremented(pc) - Ind(pc.WStore?)
      && InWait(pc') == InWait(pc) - Ind(pc in {WBlock, WFastRelease})
  {
  }

  lemma StepKeepsInv(kind: Kind, k: int, s: System, t: nat, m: Move)
    requires Inv(kind, k, s) && t < |s.pcs| && Step(kind, s, t, m).Some?
    ensures Inv(kind, k, Step(kind, s, t, m).value)
  {
    var pc := Step(kind, s, t, m).value.pcs[t];
    assert Loaded(s.sem, s.pcs[t]);
    if m == Go {
      StepMovesVal(kind, s.sem, s.pcs[t]);
      SemStepKeepsInv(kind, k, s.sem, s.pcs, s.lost, t);
    } else {
      CallKeepsInv(kind, k, s.sem, s.pcs, s.lost, t, pc);
    }
    SumUpdate(s.pcs, t, pc, Undecremented);
    SumUpdate(s.pcs, t, pc, InWait);
  }

  lemma RunPrefix(kind: Kind, k: int, tr: seq<System>)
    requires Run(kind, k, tr) && |tr| > 1
    ensures Run(kind, k, tr[..|tr| - 1]) && Next(kind, tr[|tr| - 2], tr[|tr| - 1])
  {
    assert Next(kind, tr[|tr| - 2], tr[|tr| - 2 + 1]);
  }

  lemma RunExtends(kind: Kind, k: int, tr: seq<System>)
    requires |tr| > 1 && Run(kind, k, tr[..|tr| - 1]) && Next(kind, tr[|tr| - 2], tr[|tr| - 1])
    ensures Run(kind, k, tr)
  {
    var before := tr[..|tr| - 1];
    forall j | 0 <= j < |tr| - 1 ensures Next(kind, tr[j], tr[j + 1]) {
      if j < |tr| - 2 {
        assert Next(kind, before[j], before[j + 1]);
      }
    }
  }

  lemma {:induction false} RunHasInv(kind: Kind, k: int, tr: seq<System>)
    requires Run(kind, k, tr)
    ensures Inv(kind, k, tr[|tr| - 1])
  {
    if |tr| == 1 {
      var pcs := tr[0].pcs;
      SumZero(pcs, InCrit);
      SumZero(pcs, Slow);
      SumZero(pcs, AtWTest);
      SumZero(pcs, AtPTest);
      SumZero(pcs, AtSignal);
      SumZero(pcs, InWait);
      SumZero(pcs, Undecremented);
    } else {
      RunPrefix(kind, k, tr);
      RunHasInv(kind, k, tr[..|tr| - 1]);
      var s := tr[|tr| - 2];
      var t: nat, m :| t < |s.pcs| && Step(kind, s, t, m) == Some(tr[|tr| - 1]);
      StepKeepsInv(kind, k, s, t, m);
    }
  }

  /** The slow-path account, for every integer k and either kind of B1, and the
      bound it gives: every post lets at most one wait through, a lost post
      none, and only a positive k lets more through. */
  lemma SlowPathAccount(kind: Kind, k: int, tr: seq<System>)
    requires Run(kind, k, tr)
    ensures var s := tr[|tr| - 1];
      && Committed(s.sem, s.pcs) == s.sem.B1 + PendingPosts(s.sem, s.pcs) + Debt(s.sem.val) - Debt(k) + s.lost
      && s.passed + s.lost <= Pos(k) + s.posts
      && (kind == CountingB1 ==> s.lost == 0)
      && (kind == BinaryB1 ==> s.sem.B1 <= 1)
  {
    RunHasInv(kind, k, tr);
    CritSplit(tr[|tr| - 1].pcs);
  }

  ghost predicate Stuck(kind: Kind, s: System) {
    forall t: nat | t < |s.pcs| :: Step(kind, s, t, Go).None?
  }

  /** With nobody able to move, the only threads inside a call wait on B1. */
  lemma StuckAtB1(kind: Kind, s: System)
    requires s.sem.B2 + Sum(s.pcs, InCrit) == 1 && Stuck(kind, s)
    ensures s.sem.B2 == 1
    ensures forall t | 0 <= t < |s.pcs| :: s.pcs[t] == Idle || (s.pcs[t] == WBlock && s.sem.B1 == 0)
  {
    forall t | 0 <= t < |s.pcs| ensures SemStep(kind, s.sem, s.pcs[t]).None? {
      assert Step(kind, s, t, Go).None?;
    }
    SumNonNegative(s.pcs, InCrit);
    if s.sem.B2 == 0 {
      var t := SumWitness(s.pcs, InCrit);
      assert false;
    }
    assert forall t | 0 <= t < |s.pcs| :: SemStep(kind, s.sem, s.pcs[t]).None?;
  }

  /** How many waiters stay blocked when no thread can move, for every integer k
      and either kind of B1. */
  lemma StuckBlocks(kind: Kind, k: int, tr: seq<System>)
    requires Run(kind, k, tr) && Stuck(kind, tr[|tr| - 1])
    ensures var s := tr[|tr| - 1];
      && (forall t | 0 <= t < |s.pcs| :: s.pcs[t] in {Idle, WBlock})
      && Sum(s.pcs, Blocked) == Pos(Pos(s.requested - k - s.posts) + s.lost - Debt(k))
      && s.passed == s.requested - Sum(s.pcs, Blocked)
  {
    RunHasInv(kind, k, tr);
    var s := tr[|tr| - 1];
    StuckAtB1(kind, s);
    CritSplit(s.pcs);
    SumZero(s.pcs, Undecremented);
    SumMonotone(s.pcs, Blocked, Slow);
    SumMonotone(s.pcs, Slow, Blocked);
    if Sum(s.pcs, Blocked) > 0 {
      var t := SumWitness(s.pcs, Blocked);
      assert s.pcs[t] == WBlock;
    }
  }

  /** No wakeup is lost with a counting B1: the waiters still blocked are exactly
      the requests that k, if positive, and the posts do not cover. */
  lemma CountingB1BlockedExactly(k: int, tr: seq<System>)
    requires Run(CountingB1, k, tr) && Stuck(CountingB1, tr[|tr| - 1])
    ensures var s := tr[|tr| - 1]; Sum(s.pcs, Blocked) == Pos(s.requested - Pos(k) - s.posts)
  {
    StuckBlocks(CountingB1, k, tr);
    SlowPathAccount(CountingB1, k, tr);
  }

  /** With a binary B1 the posts that found it set are missing, one waiter for
      each: the blocked ones are those specified iff no post was lost. */
  lemma BinaryB1BlockedIff(k: nat, tr: seq<System>)
    requires Run(BinaryB1, k, tr) && Stuck(BinaryB1, tr[|tr| - 1])
    ensures var s := tr[|tr| - 1];
      && Sum(s.pcs, Blocked) == Pos(s.requested - k - s.posts) + s.lost
      && (Sum(s.pcs, Blocked) == Pos(s.requested - k - s.posts) <==> s.lost == 0)
  {
    StuckBlocks(BinaryB1, k, tr);
  }

  // ---- binary against counting ----

  /** A step with a binary B1 differs from one with a counting B1 exactly when it
      posts a B1 that is set. */
  lemma BinaryAgreesUnlessSet(s: System, t: nat, m: Move)
    requires t < |s.pcs|
    ensures Step(BinaryB1, s, t, m) == Step(CountingB1, s, t, m)
      <==> !(m == Go && s.pcs[t] == PSignal && s.sem.B1 > 0)
  {
  }

  lemma BinaryStepWithoutLoss(s: System, s': System)
    requires Next(BinaryB1, s, s')
    ensures s.lost <= s'.lost
    ensures s'.lost == s.lost ==> Next(CountingB1, s, s')
  {
    var t: nat, m :| t < |s.pcs| && Step(BinaryB1, s, t, m) == Some(s');
    if s'.lost == s.lost {
      BinaryAgreesUnlessSet(s, t, m);
      assert Step(CountingB1, s, t, m) == Some(s');
    }
  }

  /** A run with a binary B1 is also a run with a counting B1 iff none of its
      posts found B1 set. */
  lemma {:induction false} BinaryRunIsCountingIff(k: int, tr: seq<System>)
    requires Run(BinaryB1, k, tr)
    ensures tr[|tr| - 1].lost == 0 <==> Run(CountingB1, k, tr)
  {
    if |tr| == 1 {
    } else {
      RunPrefix(BinaryB1, k, tr);
      BinaryRunIsCountingIff(k, tr[..|tr| - 1]);
      BinaryStepWithoutLoss(tr[|tr| - 2], tr[|tr| - 1]);
      if tr[|tr| - 1].lost == 0 {
        RunExtends(CountingB1, k, tr);
      }
      if Run(CountingB1, k, tr) {
        RunHasInv(CountingB1, k, tr);
      }
    }
  }

  // ---- building runs ----

  ghost predicate Reachable(kind: Kind, k: int, s0: System, s: System) {
    exists tr :: Run(kind, k, tr) && tr[0] == s0 && tr[|tr| - 1] == s
  }

  lemma ReachInit(kind: Kind, k: int, s0: System)
    requires Init(k, s0)
    ensures Reachable(kind, k, s0, s0)
  {
    assert Run(kind, k, [s0]) && [s0][0] == s0;
  }

  lemma ReachStep(kind: Kind, k: int, s0: System, s: System, t: nat, m: Move)
    requires Reachable(kind, k, s0, s) && t < |s.pcs| && Step(kind, s, t, m).Some?
    ensures Reachable(kind, k, s0, Step(kind, s, t, m).value)
  {
    var s' := Step(kind, s, t, m).value;
    var tr :| Run(kind, k, tr) && tr[0] == s0 && tr[|tr| - 1] == s;
    var tr' := tr + [s'];
    assert tr'[..|tr'| - 1] == tr;
    assert Next(kind, s, s');
    RunExtends(kind, k, tr');
    assert tr'[0] == s0 && tr'[|tr'| - 1] == s';
  }

  /** One Go step of thread t, with its position stated against fixed `pcs`. */
  lemma ReachGo(kind: Kind, k: int, s0: System, pcs: seq<PC>, t: nat, sem: Sem, pc: PC, q: nat, w: nat, p: nat, l: nat)
    requires t < |pcs| && Reachable(kind, k, s0, System(sem, pcs[t := pc], q, w, p, l))
    requires SemStep(kind, sem, pc).Some?
    ensures var (sem', pc') := SemStep(kind, sem, pc).value;
      Reachable(kind, k, s0, System(sem', pcs[t := pc'], q, w + Ind(pc in {WBlock, WFastRelease}), p + Ind(pc.PStore?),
                                l + Loses(kind, sem, pc)))
  {
    var (sem', pc') := SemStep(kind, sem, pc).value;
    ReachStep(kind, k, s0, System(sem, pcs[t := pc], q, w, p, l), t, Go);
    assert pcs[t := pc][t := pc'] == pcs[t := pc'];
  }

  /** An idle thread calls semWait and gets as far as the test of val. */
  lemma WaitToTest(kind: Kind, k: int, s0: System, s: System, t: nat)
    requires Reachable(kind, k, s0, s) && t < |s.pcs| && s.pcs[t] == Idle && s.sem.B2 == 1
    ensures Reachable(kind, k, s0, s.(sem := s.sem.(val := s.sem.val - 1, B2 := 0), pcs := s.pcs[t := WTest],
                                  requested := s.requested + 1))
  {
    ReachStep(kind, k, s0, s, t, CallWait);
    var q, w, p, l := s.requested + 1, s.passed, s.posts, s.lost;
    ReachGo(kind, k, s0, s.pcs, t, s.sem, WMutex, q, w, p, l);
    ReachGo(kind, k, s0, s.pcs, t, s.sem.(B2 := 0), WLoad, q, w, p, l);
    ReachGo(kind, k, s0, s.pcs, t, s.sem.(B2 := 0), WStore(s.sem.val), q, w, p, l);
  }

  /** Without credit it parks on B1. */
  lemma ParkOne(kind: Kind, k: int, s0: System, s: System, t: nat)
    requires Reachable(kind, k, s0, s) && t < |s.pcs| && s.pcs[t] == Idle && s.sem.B2 == 1 && s.sem.val <= 0
    ensures Reachable(kind, k, s0, s.(sem := s.sem.(val := s.sem.val - 1), pcs := s.pcs[t := WBlock],
                                  requested := s.requested + 1))
  {
    WaitToTest(kind, k, s0, s, t);
    var q, w, p, l := s.requested + 1, s.passed, s.posts, s.lost;
    var dec := s.sem.(val := s.sem.val - 1);
    ReachGo(kind, k, s0, s.pcs, t, dec.(B2 := 0), WTest, q, w, p, l);
    ReachGo(kind, k, s0, s.pcs, t, dec.(B2 := 0), WSlowRelease, q, w, p, l);
  }

  /** With credit it passes. */
  lemma PassOne(kind: Kind, k: int, s0: System, s: System, t: nat)
    requires Reachable(kind, k, s0, s) && t < |s.pcs| && s.pcs[t] == Idle && s.sem.B2 == 1 && s.sem.val > 0
    ensures Reachable(kind, k, s0, s.(sem := s.sem.(val := s.sem.val - 1), requested := s.requested + 1,
                                  passed := s.passed + 1))
  {
    WaitToTest(kind, k, s0, s, t);
    var q, w, p, l := s.requested + 1, s.passed, s.posts, s.lost;
    var dec := s.sem.(val := s.sem.val - 1);
    ReachGo(kind, k, s0, s.pcs, t, dec.(B2 := 0), WTest, q, w, p, l);
    ReachGo(kind, k, s0, s.pcs, t, dec.(B2 := 0), WFastRelease, q, w, p, l);
    assert s.pcs[t := Idle] == s.pcs;
  }

  /** The second half of a semPost that finds val <= 0. */
  lemma SignalOne(kind: Kind, k: int, s0: System, s: System, t: nat)
    requires t < |s.pcs| && s.pcs[t] == Idle && s.sem.B2 == 0 && s.sem.val <= 0
    requires Reachable(kind, k, s0, s.(pcs := s.pcs[t := PTest]))
    ensures Reachable(kind, k, s0, s.(sem := Sem(s.sem.val, PostB1(kind, s.sem.B1), 1),
                                  lost := s.lost + Loses(kind, s.sem, PSignal)))
  {
    var q, w, p, l := s.requested, s.passed, s.posts, s.lost;
    ReachGo(kind, k, s0, s.pcs, t, s.sem, PTest, q, w, p, l);
    ReachGo(kind, k, s0, s.pcs, t, s.sem, PSignal, q, w, p, l);
    ReachGo(kind, k, s0, s.pcs, t, s.sem.(B1 := PostB1(kind, s.sem.B1)), PRelease, q, w, p, l + Loses(kind, s.sem, PSignal));
    assert s.pcs[t := Idle] == s.pcs;
  }

  /** An idle thread calls semPost and gets as far as the test of val. */
  lemma PostToTest(kind: Kind, k: int, s0: System, s: System, t: nat)
    requires Reachable(kind, k, s0, s) && t < |s.pcs| && s.pcs[t] == Idle && s.sem.B2 == 1
    ensures Reachable(kind, k, s0, s.(sem := s.sem.(val := s.sem.val + 1, B2 := 0), pcs := s.pcs[t := PTest],
                                      posts := s.posts + 1))
  {
    ReachStep(kind, k, s0, s, t, CallPost);
    var q, w, p, l := s.requested, s.passed, s.posts, s.lost;
    ReachGo(kind, k, s0, s.pcs, t, s.sem, PMutex, q, w, p, l);
    ReachGo(kind, k, s0, s.pcs, t, s.sem.(B2 := 0), PLoad, q, w, p, l);
    ReachGo(kind, k, s0, s.pcs, t, s.sem.(B2 := 0), PStore(s.sem.val), q, w, p, l);
  }

  /** While val < 0 it goes on to post B1. */
  lemma PostOne(kind: Kind, k: int, s0: System, s: System, t: nat)
    requires Reachable(kind, k, s0, s) && t < |s.pcs| && s.pcs[t] == Idle && s.sem.B2 == 1 && s.sem.val < 0
    ensures Reachable(kind, k, s0, s.(sem := Sem(s.sem.val + 1, PostB1(kind, s.sem.B1), 1), posts := s.posts + 1,
                                  lost := s.lost + Loses(kind, s.sem, PSignal)))
  {
    PostToTest(kind, k, s0, s, t);
    SignalOne(kind, k, s0, s.(sem := s.sem.(B2 := 0, val := s.sem.val + 1), posts := s.posts + 1), t);
  }

  /** Of `size` threads the first j are parked on B1. */
  function Parked(size: nat, j: nat): seq<PC> {
    seq(size, i => if i < j then WBlock else Idle)
  }

  lemma StartIsIdle(k: int, s0: System)
    requires Init(k, s0)
    ensures s0 == System(SemInit(k), Parked(|s0.pcs|, 0), 0, 0, 0, 0)
  {
    assert s0.pcs == Parked(|s0.pcs|, 0);
  }

  /** The last thread uses up j units of the initial credit k. */
  lemma {:induction false} SpendAll(kind: Kind, k: nat, s0: System, j: nat)
    requires Init(k, s0) && |s0.pcs| > 0 && j <= k
    ensures Reachable(kind, k, s0, System(Sem(k - j, 0, 1), Parked(|s0.pcs|, 0), j, j, 0, 0))
  {
    var size := |s0.pcs|;
    if j == 0 {
      ReachInit(kind, k, s0);
      StartIsIdle(k, s0);
    } else {
      SpendAll(kind, k, s0, j - 1);
      PassOne(kind, k, s0, System(Sem(k - (j - 1), 0, 1), Parked(size, 0), j - 1, j - 1, 0, 0), size - 1);
    }
  }

  /** Then the others park ... */
  lemma {:induction false} ParkAll(kind: Kind, k: nat, s0: System, j: nat)
    requires Init(k, s0) && j < |s0.pcs|
    ensures Reachable(kind, k, s0, System(Sem(0 - j, 0, 1), Parked(|s0.pcs|, j), k + j, k, 0, 0))
  {
    var size := |s0.pcs|;
    if j == 0 {
      SpendAll(kind, k, s0, k);
    } else {
      ParkAll(kind, k, s0, j - 1);
      ParkOne(kind, k, s0, System(Sem(-(j - 1), 0, 1), Parked(size, j - 1), k + j - 1, k, 0, 0), j - 1);
      assert Parked(size, j - 1)[j - 1 := WBlock] == Parked(size, j);
    }
  }

  /** ... and the last one posts. */
  lemma {:induction false} PostAll(k: nat, s0: System, n: nat, j: nat)
    requires Init(k, s0) && j <= n < |s0.pcs|
    ensures Reachable(BinaryB1, k, s0, System(Sem(j - n, Ind(j > 0), 1), Parked(|s0.pcs|, n), k + n, k, j, Pos(j - 1)))
  {
    var size := |s0.pcs|;
    if j == 0 {
      ParkAll(BinaryB1, k, s0, n);
    } else {
      PostAll(k, s0, n, j - 1);
      PostOne(BinaryB1, k, s0, System(Sem(j - 1 - n, Ind(j > 1), 1), Parked(size, n), k + n, k, j - 1, Pos(j - 2)), size - 1);
    }
  }

  lemma {:induction false} ParkedCount(size: nat, j: nat)
    requires j <= size
    ensures Sum(Parked(size, j), Blocked) == j
  {
    if j == 0 {
      SumZero(Parked(size, 0), Blocked);
    } else {
      ParkedCount(size, j - 1);
      SumUpdate(Parked(size, j - 1), j - 1, WBlock, Blocked);
      assert Parked(size, j - 1)[j - 1 := WBlock] == Parked(size, j);
    }
  }

  /** k + n waits requested and n posts completed on a semaphore that started at
      k, yet n - 1 waiters are blocked and no thread can move. */
  ghost predicate LostWakeups(k: nat, n: nat, s: System) {
    && s.requested == k + n && s.posts == n && s.passed == k + 1 && s.lost == n - 1
    && (forall t | 0 <= t < |s.pcs| :: s.pcs[t] in {Idle, WBlock})
    && Stuck(BinaryB1, s)
    && Sum(s.pcs, Blocked) == n - 1
  }

  /** Why a binary B1 is not enough: from every start k >= 0 with more than n
      threads there is a run with k + n waits and n completed posts that leaves
      n - 1 waiters blocked for good. */
  lemma BinaryB1LosesWakeups(k: nat, s0: System, n: nat)
    requires Init(k, s0) && 0 < n < |s0.pcs|
    ensures exists s :: Reachable(BinaryB1, k, s0, s) && LostWakeups(k, n, s)
  {
    PostAll(k, s0, n, n);
    var s := System(Sem(0, 1, 1), Parked(|s0.pcs|, n), k + n, k, n, n - 1);
    ReachStep(BinaryB1, k, s0, s, 0, Go);
    var s' := Step(BinaryB1, s, 0, Go).value;
    ParkedCount(|s0.pcs|, n);
    SumUpdate(s.pcs, 0, Idle, Blocked);
    assert LostWakeups(k, n, s');
  }

  // ---- exactly when the semaphore is one ----

  /** With a binary B1 and a post about to find it set there are two threads
      that B1 has to let through, besides the poster. */
  lemma {:induction false} CommittedFit(pcs: seq<PC>)
    ensures Sum(pcs, Slow) + Sum(pcs, AtWTest) + Sum(pcs, AtSignal) <= |pcs|
  {
    if pcs == [] {
    } else {
      CommittedFit(pcs[1..]);
    }
  }

  lemma TwoThreadsLoseNothing(kind: Kind, k: nat, s: System, t: nat)
    requires Inv(kind, k, s) && t < |s.pcs| <= 2
    ensures Loses(kind, s.sem, s.pcs[t]) == 0
  {
    CommittedFit(s.pcs);
    CritSplit(s.pcs);
    SumAtLeast(s.pcs, t, AtSignal);
  }

  lemma {:induction false} SmallRunLosesNothing(kind: Kind, k: nat, tr: seq<System>)
    requires Run(kind, k, tr) && |tr[0].pcs| <= 2
    ensures |tr[|tr| - 1].pcs| == |tr[0].pcs| && tr[|tr| - 1].lost == 0
  {
    if |tr| == 1 {
    } else {
      RunPrefix(kind, k, tr);
      SmallRunLosesNothing(kind, k, tr[..|tr| - 1]);
      RunHasInv(kind, k, tr[..|tr| - 1]);
      var s := tr[|tr| - 2];
      var t: nat, m :| t < |s.pcs| && Step(kind, s, t, m) == Some(tr[|tr| - 1]);
      TwoThreadsLoseNothing(kind, k, s, t);
    }
  }

  ghost predicate AsSpecified(kind: Kind, k: int, s: System) {
    S.MeetsSpec(k, s.passed, s.posts, Stuck(kind, s), s.requested, Sum(s.pcs, Blocked))
  }

  /** A negative start: one thread that posts and then waits gets through,
      though nothing is granted yet. */
  lemma NegativeStartIsUnsafe(kind: Kind, k: int, s0: System)
    requires k < 0 && Init(k, s0) && |s0.pcs| > 0
    ensures exists s :: Reachable(kind, k, s0, s) && s.passed == 1 && s.posts == 1
  {
    ReachInit(kind, k, s0);
    PostOne(kind, k, s0, s0, 0);
    var s1 := System(Sem(k + 1, 1, 1), s0.pcs, 0, 0, 1, 0);
    ParkOne(kind, k, s0, s1, 0);
    var s2 := System(Sem(k, 1, 1), s0.pcs[0 := WBlock], 1, 0, 1, 0);
    ReachStep(kind, k, s0, s2, 0, Go);
    assert Step(kind, s2, 0, Go).value.passed == 1;
  }

  /** Without threads nothing happens. */
  lemma {:induction false} NoThreads(kind: Kind, k: int, tr: seq<System>)
    requires Run(kind, k, tr) && tr[0].pcs == []
    ensures tr[|tr| - 1] == tr[0]
  {
    if |tr| == 1 {
    } else {
      RunPrefix(kind, k, tr);
      NoThreads(kind, k, tr[..|tr| - 1]);
    }
  }

  lemma SafeStart(kind: Kind, k: int, s0: System, s: System)
    requires Init(k, s0) && Reachable(kind, k, s0, s) && (k >= 0 || s0.pcs == [])
    ensures s.passed <= S.Granted(k, s.posts)
  {
    var tr :| Run(kind, k, tr) && tr[0] == s0 && tr[|tr| - 1] == s;
    if k >= 0 {
      SlowPathAccount(kind, k, tr);
    } else {
      NoThreads(kind, k, tr);
    }
  }

  /** Safety, with either kind of B1, holds from a given start exactly for
      k >= 0, unless there is no thread at all. */
  lemma SafeIff(kind: Kind, k: int, s0: System)
    requires Init(k, s0)
    ensures (forall s | Reachable(kind, k, s0, s) :: s.passed <= S.Granted(k, s.posts)) <==> k >= 0 || s0.pcs == []
  {
    if k >= 0 || s0.pcs == [] {
      forall s | Reachable(kind, k, s0, s) ensures s.passed <= S.Granted(k, s.posts) {
        SafeStart(kind, k, s0, s);
      }
    } else {
      NegativeStartIsUnsafe(kind, k, s0);
    }
  }

  /** No post can find a binary B1 set with at most two threads. */
  predicate Adequate(kind: Kind, threads: nat) {
    kind == CountingB1 || threads <= 2
  }

  lemma CorrectStart(kind: Kind, k: int, s0: System, s: System)
    requires Init(k, s0) && Reachable(kind, k, s0, s)
    requires (k >= 0 && Adequate(kind, |s0.pcs|)) || s0.pcs == []
    ensures AsSpecified(kind, k, s)
  {
    SafeStart(kind, k, s0, s);
    var tr :| Run(kind, k, tr) && tr[0] == s0 && tr[|tr| - 1] == s;
    if s0.pcs == [] {
      NoThreads(kind, k, tr);
    } else if Stuck(kind, s) {
      StuckBlocks(kind, k, tr);
      if kind == BinaryB1 {
        SmallRunLosesNothing(kind, k, tr);
      } else {
        SlowPathAccount(kind, k, tr);
      }
    }
  }

  /** From a given start with any threads, the code is a counting semaphore iff
      the start is not negative and B1 counts or there are at most two of them. */
  lemma CorrectIff(kind: Kind, k: int, s0: System)
    requires Init(k, s0)
    ensures (forall s | Reachable(kind, k, s0, s) :: AsSpecified(kind, k, s))
      <==> (k >= 0 && Adequate(kind, |s0.pcs|)) || s0.pcs == []
  {
    if (k >= 0 && Adequate(kind, |s0.pcs|)) || s0.pcs == [] {
      forall s | Reachable(kind, k, s0, s) ensures AsSpecified(kind, k, s) {
        CorrectStart(kind, k, s0, s);
      }
    } else if k < 0 {
      NegativeStartIsUnsafe(kind, k, s0);
    } else {
      BinaryB1LosesWakeups(k, s0, 2);
    }
  }

  // ---- the C functions, run by one thread that is not interrupted ----

  function Own(x: (Sem, PC)): Option<(Sem, PC)> {
    SemStep(CountingB1, x.0, x.1)
  }

  /** The thread's own steps, taken one after another, lead from the one to the
      other. */
  ghost predicate Alone(s: Sem, pc: PC, s': Sem, pc': PC) {
    Leads(Own, (s, pc), (s', pc'))
  }

  lemma AloneMore(s: Sem, pc: PC, s1: Sem, pc1: PC)
    requires Alone(s, pc, s1, pc1) && SemStep(CountingB1, s1, pc1).Some?
    ensures var (s', pc') := SemStep(CountingB1, s1, pc1).value; Alone(s, pc, s', pc')
  {
    LeadsMore(Own, (s, pc), (s1, pc1));
  }

  lemma DecrementAlone(s: Sem)
    requires s.B2 > 0
    ensures Alone(s, WMutex, s.(val := s.val - 1), if s.val <= 0 then WBlock else Idle)
  {
    var locked := s.(B2 := s.B2 - 1);
    LeadsZero(Own, (s, WMutex));
    AloneMore(s, WMutex, s, WMutex);
    AloneMore(s, WMutex, locked, WLoad);
    AloneMore(s, WMutex, locked, WStore(s.val));
    AloneMore(s, WMutex, locked.(val := s.val - 1), WTest);
    AloneMore(s, WMutex, locked.(val := s.val - 1), if s.val <= 0 then WSlowRelease else WFastRelease);
  }

  lemma WaitAlone(s: Sem)
    requires s.B2 > 0
    ensures var dec := s.(val := s.val - 1);
      if s.val > 0 then Alone(s, WMutex, dec, Idle)
      else if s.B1 > 0 then Alone(s, WMutex, dec.(B1 := s.B1 - 1), Idle)
      else Alone(s, WMutex, dec, WBlock)
  {
    DecrementAlone(s);
    if s.val <= 0 && s.B1 > 0 {
      AloneMore(s, WMutex, s.(val := s.val - 1), WBlock);
    }
  }

  lemma PostAlone(s: Sem)
    requires s.B2 > 0
    ensures Alone(s, PMutex, s.(val := s.val + 1, B1 := s.B1 + Ind(s.val < 0)), Idle)
  {
    var locked := s.(B2 := s.B2 - 1);
    LeadsZero(Own, (s, PMutex));
    AloneMore(s, PMutex, s, PMutex);
    AloneMore(s, PMutex, locked, PLoad);
    AloneMore(s, PMutex, locked, PStore(s.val));
    AloneMore(s, PMutex, locked.(val := s.val + 1), PTest);
    if s.val < 0 {
      AloneMore(s, PMutex, locked.(val := s.val + 1), PSignal);
    }
    AloneMore(s, PMutex, locked.(val := s.val + 1, B1 := s.B1 + Ind(s.val < 0)), PRelease);
  }

  class CountSem {
    var val: int
    var B1: nat
    var B2: nat

    ghost function State(): Sem
      reads this
    {
      Sem(val, B1, B2)
    }

    constructor (k: int)
      ensures State() == SemInit(k)
    {
      val := k;
      B1 := 0;
      B2 := 1;
    }

    /** Runs semWait as far as it goes; `pc` is Idle, or WBlock when the call
        is left waiting on B1. */
    method SemWait() returns (pc: PC)
      requires B2 > 0
      modifies this
      ensures Alone(old(State()), WMutex, State(), pc)
      ensures val == old(val) - 1 && B2 == old(B2)
      ensures pc == (if val < 0 && old(B1) == 0 then WBlock else Idle)
      ensures B1 == if val < 0 && old(B1) > 0 then old(B1) - 1 else old(B1)
    {
      WaitAlone(State());
      B2 := B2 - 1;
      val := val - 1;
      if val < 0 {
        B2 := B2 + 1;
        if B1 == 0 {
          return WBlock;
        }
        B1 := B1 - 1;
      } else {
        B2 := B2 + 1;
      }
      pc := Idle;
    }

    method SemPost()
      requires B2 > 0
      modifies this
      ensures Alone(old(State()), PMutex, State(), Idle)
      ensures val == old(val) + 1 && B2 == old(B2)
      ensures B1 == if val <= 0 then old(B1) + 1 else old(B1)
    {
      PostAlone(State());
      B2 := B2 - 1;
      val := val + 1;
      if val <= 0 {
        B1 := B1 + 1;
      }
      B2 := B2 + 1;
    }
  }
}
