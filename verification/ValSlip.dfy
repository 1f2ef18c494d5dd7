/** The same semaphore with the slip of assignment2/correct.h: semPost writes
    `val = 1` where a test `val == 1` is meant.  The slip is harmless exactly
    when the semaphore starts with 0 <= k <= 1. */
module ValSlip {
  import opened Counting
  import opened CountingSemaphore
  import opened Steps

  function SlipStep(s: Sem, pc: SemPC): Option<(Sem, SemPC)> {
    if pc == PTest then Some((s.(val := 1), POpen)) else SemStep(s, pc)
  }

  function SlipOwn(x: (Sem, SemPC)): Option<(Sem, SemPC)> {
    SlipStep(x.0, x.1)
  }

  /** The call at `pc`, run without interruption, returns with s'. */
  ghost predicate Returns(slip: bool, s: Sem, pc: SemPC, s': Sem) {
    if slip then Leads(SlipOwn, (s, pc), (s', Idle)) else Alone(s, pc, s')
  }

  lemma ReturnsOnce(slip: bool, s: Sem, pc: SemPC, a: Sem, b: Sem)
    requires Returns(slip, s, pc, a) && Returns(slip, s, pc, b)
    ensures a == b
  {
    if slip {
      LeadsToOneEnd(SlipOwn, (s, pc), (a, Idle), (b, Idle));
    } else {
      LeadsToOneEnd(Own, (s, pc), (a, Idle), (b, Idle));
    }
  }

  lemma SlipMore(s: Sem, pc: SemPC, s1: Sem, pc1: SemPC)
    requires Leads(SlipOwn, (s, pc), (s1, pc1)) && SlipStep(s1, pc1).Some?
    ensures Leads(SlipOwn, (s, pc), SlipStep(s1, pc1).value)
  {
    LeadsMore(SlipOwn, (s, pc), (s1, pc1));
  }

  function Waited(s: Sem): Sem
    requires s.gate > 0
  {
    s.(val := s.val - 1, gate := if s.val > 1 then s.gate else s.gate - 1)
  }

  function Posted(slip: bool, s: Sem): Sem {
    if slip then s.(val := 1, gate := s.gate + 1) else s.(val := s.val + 1, gate := s.gate + Ind(s.val == 0))
  }

  lemma SlipWaitReturns(s: Sem)
    requires s.gate > 0 && s.mutex > 0
    ensures Returns(true, s, WGate, Waited(s))
  {
    var taken := s.(gate := s.gate - 1, mutex := s.mutex - 1);
    var stored := taken.(val := s.val - 1);
    LeadsZero(SlipOwn, (s, WGate));
    SlipMore(s, WGate, s, WGate);
    SlipMore(s, WGate, s.(gate := s.gate - 1), WMutex);
    SlipMore(s, WGate, taken, WLoad);
    SlipMore(s, WGate, taken, WStore(s.val));
    SlipMore(s, WGate, stored, WTest);
    if s.val > 1 {
      SlipMore(s, WGate, stored, WReopen);
    }
    SlipMore(s, WGate, Waited(s).(mutex := s.mutex - 1), WRelease);
  }

  lemma WaitReturns(slip: bool, s: Sem)
    requires s.gate > 0 && s.mutex > 0
    ensures Returns(slip, s, WGate, Waited(s))
  {
    if slip {
      SlipWaitReturns(s);
    } else {
      WaitAlone(s);
    }
  }

  lemma WaitBlocks(slip: bool, s: Sem, s': Sem)
    requires s.gate == 0
    ensures !Returns(slip, s, WGate, s')
  {
    LeadsZero(SlipOwn, (s, WGate));
    LeadsZero(Own, (s, WGate));
    if Returns(slip, s, WGate, s') {
      if slip {
        LeadsToOneEnd(SlipOwn, (s, WGate), (s, WGate), (s', Idle));
      } else {
        LeadsToOneEnd(Own, (s, WGate), (s, WGate), (s', Idle));
      }
      assert false;
    }
  }

  lemma SlipPostReturns(s: Sem)
    requires s.mutex > 0
    ensures Returns(true, s, PMutex, Posted(true, s))
  {
    var locked := s.(mutex := s.mutex - 1);
    LeadsZero(SlipOwn, (s, PMutex));
    SlipMore(s, PMutex, s, PMutex);
    SlipMore(s, PMutex, locked, PLoad);
    SlipMore(s, PMutex, locked, PStore(s.val));
    SlipMore(s, PMutex, locked.(val := s.val + 1), PTest);
    SlipMore(s, PMutex, locked.(val := 1), POpen);
    SlipMore(s, PMutex, locked.(val := 1, gate := s.gate + 1), PRelease);
  }

  lemma PostReturns(slip: bool, s: Sem)
    requires s.mutex > 0
    ensures Returns(slip, s, PMutex, Posted(slip, s))
  {
    if slip {
      SlipPostReturns(s);
    } else {
      PostAlone(s);
    }
  }

  /** n calls that enter at `pc`, one after another, all return, the last one
      with s'. */
  ghost predicate AllReturn(slip: bool, pc: SemPC, s: Sem, n: nat, s': Sem) {
    if n == 0 then s' == s
    else exists mid :: AllReturn(slip, pc, s, n - 1, mid) && Returns(slip, mid, pc, s')
  }

  lemma {:induction false} AllReturnOnce(slip: bool, pc: SemPC, s: Sem, n: nat, a: Sem, b: Sem)
    requires AllReturn(slip, pc, s, n, a) && AllReturn(slip, pc, s, n, b)
    ensures a == b
  {
    if n == 0 {
    } else {
      var m :| AllReturn(slip, pc, s, n - 1, m) && Returns(slip, m, pc, a);
      var m' :| AllReturn(slip, pc, s, n - 1, m') && Returns(slip, m', pc, b);
      AllReturnOnce(slip, pc, s, n - 1, m, m');
      ReturnsOnce(slip, m, pc, a, b);
    }
  }

  /** The semaphore after p posts in a row on one that starts at k. */
  function AfterPosts(slip: bool, k: int, p: nat): Sem {
    if slip && p > 0 then Sem(1, Ind(k >= 1) + p, 1) else Sem(k + p, Ind(k + p >= 1), 1)
  }

  lemma {:induction false} PostsReturn(slip: bool, k: int, p: nat)
    ensures AllReturn(slip, PMutex, SemInit(k), p, AfterPosts(slip, k, p))
  {
    if p == 0 {
    } else {
      PostsReturn(slip, k, p - 1);
      PostReturns(slip, AfterPosts(slip, k, p - 1));
      assert Posted(slip, AfterPosts(slip, k, p - 1)) == AfterPosts(slip, k, p);
    }
  }

  /** How many waits in a row can return: while val > 1 they reopen the gate. */
  function Room(s: Sem): nat {
    if s.gate > 0 then s.gate + Pos(s.val - 1) else 0
  }

  function AfterWaits(s: Sem, n: nat): Sem
    requires n <= Room(s)
  {
    s.(val := s.val - n, gate := s.gate - Pos(n - Pos(s.val - 1)))
  }

  lemma {:induction false} WaitsReturn(slip: bool, s: Sem, n: nat)
    requires s.mutex > 0 && n <= Room(s)
    ensures AllReturn(slip, WGate, s, n, AfterWaits(s, n))
  {
    if n == 0 {
    } else {
      WaitsReturn(slip, s, n - 1);
      WaitReturns(slip, AfterWaits(s, n - 1));
      assert Waited(AfterWaits(s, n - 1)) == AfterWaits(s, n);
    }
  }

  lemma {:induction false} NoMoreReturn(slip: bool, s: Sem, n: nat, s': Sem)
    requires s.mutex > 0 && AllReturn(slip, WGate, s, n, s')
    ensures n <= Room(s)
  {
    if n == 0 {
    } else {
      var mid :| AllReturn(slip, WGate, s, n - 1, mid) && Returns(slip, mid, WGate, s');
      NoMoreReturn(slip, s, n - 1, mid);
      if n - 1 == Room(s) {
        WaitsReturn(slip, s, n - 1);
        AllReturnOnce(slip, WGate, s, n - 1, mid, AfterWaits(s, n - 1));
        WaitBlocks(slip, mid, s');
      }
    }
  }

  /** After p posts in a row on a semaphore that starts at k, n waits in a row
      return. */
  ghost predicate Passes(slip: bool, k: int, p: nat, n: nat) {
    exists s, s' :: AllReturn(slip, PMutex, SemInit(k), p, s) && AllReturn(slip, WGate, s, n, s')
  }

  lemma PassesIff(slip: bool, k: int, p: nat, n: nat)
    requires p > 0
    ensures Passes(slip, k, p, n) <==> n <= if slip then p + Ind(k >= 1) else Granted(k, p)
  {
    var posted := AfterPosts(slip, k, p);
    PostsReturn(slip, k, p);
    assert Room(posted) == if slip then p + Ind(k >= 1) else Granted(k, p);
    if n <= Room(posted) {
      WaitsReturn(slip, posted, n);
    }
    if Passes(slip, k, p, n) {
      var s, s' :| AllReturn(slip, PMutex, SemInit(k), p, s) && AllReturn(slip, WGate, s, n, s');
      AllReturnOnce(slip, PMutex, SemInit(k), p, s, posted);
      NoMoreReturn(slip, s, n, s');
    }
  }

  /** After p posts on a semaphore that starts at k, the credit granted should
      pass.  With the test it does, always.  With the assignment p + 1 waits do
      (p when k <= 0), which loses credit for k >= 2 and invents some for k < 0. */
  lemma SlipLosesCredit(k: int, p: nat)
    requires p > 0
    ensures forall n: nat :: Passes(false, k, p, n) <==> n <= Granted(k, p)
    ensures forall n: nat :: Passes(true, k, p, n) <==> n <= p + Ind(k >= 1)
    ensures (forall n: nat :: Passes(true, k, p, n) <==> Passes(false, k, p, n)) <==> 0 <= k <= 1
  {
    forall n: nat ensures Passes(false, k, p, n) <==> n <= Granted(k, p) {
      PassesIff(false, k, p, n);
    }
    forall n: nat ensures Passes(true, k, p, n) <==> n <= p + Ind(k >= 1) {
      PassesIff(true, k, p, n);
    }
    var least := p + Ind(k >= 1);
    assert Passes(true, k, p, least) && !Passes(true, k, p, least + 1);
    assert Passes(false, k, p, least) <==> least <= Granted(k, p);
    assert Passes(false, k, p, least + 1) <==> least + 1 <= Granted(k, p);
  }

  // ---- the slip under interleaving ----

  function SlipMove(s: System, t: nat, m: Move): Option<System>
    requires t < |s.pcs|
  {
    if m != Go then Step(s, t, m)
    else
      match SlipStep(s.sem, s.pcs[t])
      case None => None
      case Some((sem, pc)) =>
        Some(System(sem, s.pcs[t := pc], s.requested,
                    s.decs + Ind(s.pcs[t].WStore?), s.incs + Ind(s.pcs[t].PStore?)))
  }

  lemma OneThreadSlips(s: System, t: nat)
    requires t < |s.pcs| && SlipMove(s, t, Go).Some?
    ensures var s' := SlipMove(s, t, Go).value;
      && |s'.pcs| == |s.pcs| && (forall u | 0 <= u < |s.pcs| && u != t :: s'.pcs[u] == s.pcs[u])
      && Some((s'.sem, s'.pcs[t])) == SlipStep(s.sem, s.pcs[t]) && s'.requested == s.requested
  {
  }

  ghost predicate SlipNext(s: System, s': System) {
    exists t: nat, m :: t < |s.pcs| && SlipMove(s, t, m) == Some(s')
  }

  ghost predicate SlipRun(k: int, tr: seq<System>) {
    && |tr| > 0
    && Init(k, tr[0])
    && forall j | 0 <= j < |tr| - 1 :: SlipNext(tr[j], tr[j + 1])
  }

  /** For k <= 1 the slip makes `gate` itself the counter: every post opens it
      once, and no wait reopens it, because no wait leaves val above 0. */
  ghost predicate SlipTokens(s: Sem, pcs: seq<SemPC>, credit: int) {
    && s.mutex + Sum(pcs, InCrit) == 1
    && s.gate + Sum(pcs, PastGate) + Sum(pcs, Opening) + Sum(pcs, AtPTest) == credit
    && s.val + Sum(pcs, AtWTest) <= 1 + Sum(pcs, AtPTest)
  }

  ghost predicate SlipSemInv(s: Sem, pcs: seq<SemPC>, credit: int) {
    && SlipTokens(s, pcs, credit)
    && forall t | 0 <= t < |pcs| :: Loaded(s, pcs[t])
  }

  ghost predicate SlipInv(k: int, s: System) {
    && SlipSemInv(s.sem, s.pcs, Ind(k >= 1) + s.incs - s.decs)
    && s.requested == s.decs + Sum(s.pcs, Undecremented)
  }

  /** One thread's part in it; with the mutex it is alone. */
  lemma SlipMovesTokens(s: Sem, pc: SemPC, credit: int, past: int, opening: int, wtest: int, ptest: int)
    requires SlipStep(s, pc).Some? && Loaded(s, pc)
    requires InCrit(pc) == 1 ==> opening == Opening(pc) && wtest == AtWTest(pc) && ptest == AtPTest(pc)
    requires s.gate + past + opening + ptest == credit && s.val + wtest <= 1 + ptest
    ensures var (s', pc') := SlipStep(s, pc).value;
      var ptest' := ptest - AtPTest(pc) + AtPTest(pc');
      && s'.mutex + InCrit(pc') == s.mutex + InCrit(pc)
      && s'.gate + past - PastGate(pc) + PastGate(pc') + opening - Opening(pc) + Opening(pc') + ptest'
         == credit + Ind(pc.PStore?) - Ind(pc.WStore?)
      && s'.val + wtest - AtWTest(pc) + AtWTest(pc') <= 1 + ptest'
  {
  }

  lemma SlipStepKeepsTokens(s: Sem, pcs: seq<SemPC>, credit: int, t: nat)
    requires SlipTokens(s, pcs, credit) && t < |pcs| && Loaded(s, pcs[t]) && SlipStep(s, pcs[t]).Some?
    ensures var (s', pc') := SlipStep(s, pcs[t]).value;
      SlipTokens(s', pcs[t := pc'], credit + Ind(pcs[t].PStore?) - Ind(pcs[t].WStore?))
  {
    var pc' := SlipStep(s, pcs[t]).value.1;
    SumUpdate(pcs, t, pc', InCrit);
    SumUpdate(pcs, t, pc', PastGate);
    SumUpdate(pcs, t, pc', Opening);
    SumUpdate(pcs, t, pc', AtWTest);
    SumUpdate(pcs, t, pc', AtPTest);
    if InCrit(pcs[t]) == 1 {
      HolderAlone(s, pcs, t);
    }
    SlipMovesTokens(s, pcs[t], credit, Sum(pcs, PastGate), Sum(pcs, Opening), Sum(pcs, AtWTest), Sum(pcs, AtPTest));
  }

  lemma SlipStepKeepsLoaded(s: Sem, pcs: seq<SemPC>, t: nat, u: nat)
    requires s.mutex + Sum(pcs, InCrit) == 1 && t < |pcs| && u < |pcs| && SlipStep(s, pcs[t]).Some?
    requires Loaded(s, pcs[u])
    ensures var (s', pc') := SlipStep(s, pcs[t]).value; Loaded(s', pcs[t := pc'][u])
  {
    if u != t && InCrit(pcs[t]) == 1 && InCrit(pcs[u]) == 1 {
      CritIsUnique(s, pcs, t, u);
    }
  }

  lemma SlipStepKeepsInv(s: Sem, pcs: seq<SemPC>, credit: int, t: nat)
    requires SlipSemInv(s, pcs, credit) && t < |pcs| && SlipStep(s, pcs[t]).Some?
    ensures var (s', pc') := SlipStep(s, pcs[t]).value;
      SlipSemInv(s', pcs[t := pc'], credit + Ind(pcs[t].PStore?) - Ind(pcs[t].WStore?))
  {
    var (s', pc') := SlipStep(s, pcs[t]).value;
    var pcs' := pcs[t := pc'];
    SlipStepKeepsTokens(s, pcs, credit, t);
    forall u | 0 <= u < |pcs'| ensures Loaded(s', pcs'[u]) {
      SlipStepKeepsLoaded(s, pcs, t, u);
    }
  }

  lemma SlipCallKeepsInv(s: Sem, pcs: seq<SemPC>, credit: int, t: nat, pc: SemPC)
    requires SlipSemInv(s, pcs, credit) && t < |pcs| && pcs[t] == Idle && pc in {WGate, PMutex}
    ensures SlipSemInv(s, pcs[t := pc], credit)
  {
    SumUpdate(pcs, t, pc, InCrit);
    SumUpdate(pcs, t, pc, PastGate);
    SumUpdate(pcs, t, pc, Opening);
    SumUpdate(pcs, t, pc, AtWTest);
    SumUpdate(pcs, t, pc, AtPTest);
  }

  lemma SlipDecrements(s: Sem, pc: SemPC)
    requires SlipStep(s, pc).Some?
    ensures Undecremented(SlipStep(s, pc).value.1) == Undecremented(pc) - Ind(pc.WStore?)
  {
  }

  lemma SlipMoveKeepsInv(k: int, s: System, t: nat, m: Move)
    requires SlipInv(k, s) && t < |s.pcs| && SlipMove(s, t, m).Some?
    ensures SlipInv(k, SlipMove(s, t, m).value)
  {
    var pc := SlipMove(s, t, m).value.pcs[t];
    SumUpdate(s.pcs, t, pc, Undecremented);
    if m == Go {
      SlipDecrements(s.sem, s.pcs[t]);
      SlipStepKeepsInv(s.sem, s.pcs, Ind(k >= 1) + s.incs - s.decs, t);
    } else {
      SlipCallKeepsInv(s.sem, s.pcs, Ind(k >= 1) + s.incs - s.decs, t, pc);
    }
  }

  lemma SlipRunPrefix(k: int, tr: seq<System>)
    requires SlipRun(k, tr) && |tr| > 1
    ensures SlipRun(k, tr[..|tr| - 1]) && SlipNext(tr[|tr| - 2], tr[|tr| - 1])
  {
    assert SlipNext(tr[|tr| - 2], tr[|tr| - 2 + 1]);
  }

  lemma {:induction false} SlipRunHasInv(k: int, tr: seq<System>)
    requires SlipRun(k, tr) && k <= 1
    ensures SlipInv(k, tr[|tr| - 1])
  {
    if |tr| == 1 {
      var pcs := tr[0].pcs;
      SumZero(pcs, InCrit);
      SumZero(pcs, PastGate);
      SumZero(pcs, Opening);
      SumZero(pcs, AtWTest);
      SumZero(pcs, AtPTest);
      SumZero(pcs, Undecremented);
    } else {
      SlipRunPrefix(k, tr);
      SlipRunHasInv(k, tr[..|tr| - 1]);
      var s := tr[|tr| - 2];
      var t: nat, m :| t < |s.pcs| && SlipMove(s, t, m) == Some(tr[|tr| - 1]);
      SlipMoveKeepsInv(k, s, t, m);
    }
  }

  ghost predicate SlipStuck(s: System) {
    forall t: nat | t < |s.pcs| :: SlipMove(s, t, Go).None?
  }

  ghost predicate SlipAsSpecified(k: int, s: System) {
    MeetsSpec(k, s.decs, s.incs, SlipStuck(s), s.requested, Sum(s.pcs, Waiting))
  }

  lemma SlipStuckWaits(s: System)
    requires SlipStuck(s) && s.sem.mutex + Sum(s.pcs, InCrit) == 1
    ensures forall t | 0 <= t < |s.pcs| :: s.pcs[t] == Idle || (s.pcs[t] == WGate && s.sem.gate == 0)
  {
    forall t | 0 <= t < |s.pcs| ensures SlipStep(s.sem, s.pcs[t]).None? {
      assert SlipMove(s, t, Go).None?;
    }
    if Sum(s.pcs, InCrit) > 0 {
      var t := SumWitness(s.pcs, InCrit);
      assert false;
    }
    SumNonNegative(s.pcs, InCrit);
    assert forall t | 0 <= t < |s.pcs| :: SlipStep(s.sem, s.pcs[t]).None?;
  }

  /** In every interleaving, for 0 <= k <= 1. */
  lemma SlipHarmless(k: int, tr: seq<System>)
    requires SlipRun(k, tr) && 0 <= k <= 1
    ensures SlipAsSpecified(k, tr[|tr| - 1])
  {
    SlipRunHasInv(k, tr);
    var s := tr[|tr| - 1];
    CritSplit(s.pcs);
    if SlipStuck(s) {
      SlipStuckWaits(s);
      SumZero(s.pcs, PastGate);
      SumZero(s.pcs, Opening);
      SumZero(s.pcs, AtPTest);
      SumMonotone(s.pcs, Waiting, Undecremented);
      SumMonotone(s.pcs, Undecremented, Waiting);
      if Sum(s.pcs, Waiting) > 0 {
        var t := SumWitness(s.pcs, Waiting);
        assert s.pcs[t] == WGate;
      } else {
        SumNonNegative(s.pcs, Waiting);
      }
    }
  }

  ghost predicate SlipReachable(k: int, s: System) {
    exists tr :: SlipRun(k, tr) && tr[|tr| - 1] == s
  }

  lemma ReachStart(k: int)
    ensures SlipReachable(k, System(SemInit(k), [Idle], 0, 0, 0))
  {
    assert SlipRun(k, [System(SemInit(k), [Idle], 0, 0, 0)]);
  }

  lemma ReachMove(k: int, s: System, t: nat, m: Move)
    requires SlipReachable(k, s) && t < |s.pcs| && SlipMove(s, t, m).Some?
    ensures SlipReachable(k, SlipMove(s, t, m).value)
  {
    var s' := SlipMove(s, t, m).value;
    var tr :| SlipRun(k, tr) && tr[|tr| - 1] == s;
    var tr' := tr + [s'];
    assert SlipNext(s, s');
    forall j | 0 <= j < |tr'| - 1 ensures SlipNext(tr'[j], tr'[j + 1]) {
      if j < |tr| - 1 {
        assert SlipNext(tr[j], tr[j + 1]);
      }
    }
    assert SlipRun(k, tr') && tr'[|tr'| - 1] == s';
  }

  /** The system of one thread gets to this state. */
  ghost predicate ReachAlone(k: int, s: Sem, pc: SemPC, requested: nat, decs: nat, incs: nat) {
    SlipReachable(k, System(s, [pc], requested, decs, incs))
  }

  lemma ReachOne(k: int, s: Sem, pc: SemPC, requested: nat, decs: nat, incs: nat)
    requires ReachAlone(k, s, pc, requested, decs, incs) && SlipStep(s, pc).Some?
    ensures var (s', pc') := SlipStep(s, pc).value;
      ReachAlone(k, s', pc', requested, decs + Ind(pc.WStore?), incs + Ind(pc.PStore?))
  {
    var pc' := SlipStep(s, pc).value.1;
    ReachMove(k, System(s, [pc], requested, decs, incs), 0, Go);
    assert [pc][0 := pc'] == [pc'];
  }

  /** One thread starts a call. */
  lemma ReachEnter(k: int, s: System)
    requires SlipReachable(k, s) && s.pcs == [Idle]
    ensures SlipReachable(k, s.(pcs := [WGate], requested := s.requested + 1))
    ensures SlipReachable(k, s.(pcs := [PMutex]))
  {
    ReachMove(k, s, 0, CallWait);
    ReachMove(k, s, 0, CallPost);
    assert [Idle][0 := WGate] == [WGate] && [Idle][0 := PMutex] == [PMutex];
  }

  lemma PostStores(k: int, v: int, g: nat, q: nat, d: nat, i: nat)
    requires ReachAlone(k, Sem(v, g, 1), PMutex, q, d, i)
    ensures ReachAlone(k, Sem(v + 1, g, 0), PTest, q, d, i + 1)
  {
    ReachOne(k, Sem(v, g, 1), PMutex, q, d, i);
    ReachOne(k, Sem(v, g, 0), PLoad, q, d, i);
    ReachOne(k, Sem(v, g, 0), PStore(v), q, d, i);
  }

  lemma PostOpens(k: int, v: int, g: nat, q: nat, d: nat, i: nat)
    requires ReachAlone(k, Sem(v, g, 0), PTest, q, d, i)
    ensures ReachAlone(k, Sem(1, g + 1, 1), Idle, q, d, i)
  {
    ReachOne(k, Sem(v, g, 0), PTest, q, d, i);
    ReachOne(k, Sem(1, g, 0), POpen, q, d, i);
    ReachOne(k, Sem(1, g + 1, 0), PRelease, q, d, i);
  }

  lemma ReachPost(k: int, s: System)
    requires SlipReachable(k, s) && s.pcs == [Idle] && s.sem.mutex == 1
    ensures SlipReachable(k, s.(sem := Sem(1, s.sem.gate + 1, 1), incs := s.incs + 1))
  {
    ReachEnter(k, s);
    PostStores(k, s.sem.val, s.sem.gate, s.requested, s.decs, s.incs);
    PostOpens(k, s.sem.val + 1, s.sem.gate, s.requested, s.decs, s.incs + 1);
  }

  lemma WaitLoads(k: int, v: int, g: nat, q: nat, d: nat, i: nat)
    requires ReachAlone(k, Sem(v, g, 1), WGate, q, d, i) && g > 0
    ensures ReachAlone(k, Sem(v, g - 1, 0), WStore(v), q, d, i)
  {
    ReachOne(k, Sem(v, g, 1), WGate, q, d, i);
    ReachOne(k, Sem(v, g - 1, 1), WMutex, q, d, i);
    ReachOne(k, Sem(v, g - 1, 0), WLoad, q, d, i);
  }

  lemma WaitLeaves(k: int, v: int, g: nat, q: nat, d: nat, i: nat)
    requires ReachAlone(k, Sem(v, g, 0), WStore(v), q, d, i) && v <= 1
    ensures ReachAlone(k, Sem(v - 1, g, 1), Idle, q, d + 1, i)
  {
    ReachOne(k, Sem(v, g, 0), WStore(v), q, d, i);
    ReachOne(k, Sem(v - 1, g, 0), WTest, q, d + 1, i);
    ReachOne(k, Sem(v - 1, g, 0), WRelease, q, d + 1, i);
  }

  /** With val at 1 or less a wait closes the gate by one. */
  lemma ReachWait(k: int, s: System)
    requires SlipReachable(k, s) && s.pcs == [Idle] && s.sem.mutex == 1 && s.sem.gate > 0 && s.sem.val <= 1
    ensures SlipReachable(k, System(Sem(s.sem.val - 1, s.sem.gate - 1, 1), [Idle], s.requested + 1, s.decs + 1, s.incs))
  {
    ReachEnter(k, s);
    WaitLoads(k, s.sem.val, s.sem.gate, s.requested + 1, s.decs, s.incs);
    WaitLeaves(k, s.sem.val, s.sem.gate - 1, s.requested + 1, s.decs, s.incs);
  }

  /** A negative start: one post lets a wait through that is not granted. */
  lemma SlipInventsCredit(k: int)
    requires k < 0
    ensures exists s :: SlipReachable(k, s) && s.decs > Granted(k, s.incs)
  {
    ReachStart(k);
    ReachPost(k, System(SemInit(k), [Idle], 0, 0, 0));
    ReachWait(k, System(Sem(1, 1, 1), [Idle], 0, 0, 1));
    assert System(Sem(0, 0, 1), [Idle], 1, 1, 1).decs > Granted(k, 1);
  }

  /** A start above 1: after one post the third wait blocks for good, though
      k + 1 >= 3 waits are granted. */
  lemma SlipBlocksGranted(k: int)
    requires k >= 2
    ensures exists s :: SlipReachable(k, s) && !SlipAsSpecified(k, s)
  {
    ReachStart(k);
    ReachPost(k, System(SemInit(k), [Idle], 0, 0, 0));
    ReachWait(k, System(Sem(1, 2, 1), [Idle], 0, 0, 1));
    ReachWait(k, System(Sem(0, 1, 1), [Idle], 1, 1, 1));
    ReachEnter(k, System(Sem(-1, 0, 1), [Idle], 2, 2, 1));
    var s := System(Sem(-1, 0, 1), [WGate], 3, 2, 1);
    assert [WGate][1..] == [];
    assert Sum(s.pcs, Waiting) == 1;
    assert SlipStuck(s);
    assert !SlipAsSpecified(k, s);
  }

  /** With the slip the code is a counting semaphore iff 0 <= k <= 1. */
  lemma SlipHarmlessIff(k: int)
    ensures 0 <= k <= 1 <==> forall s | SlipReachable(k, s) :: SlipAsSpecified(k, s)
  {
    if k < 0 {
      SlipInventsCredit(k);
    } else if k >= 2 {
      SlipBlocksGranted(k);
    } else {
      forall s | SlipReachable(k, s) ensures SlipAsSpecified(k, s) {
        var tr :| SlipRun(k, tr) && tr[|tr| - 1] == s;
        SlipHarmless(k, tr);
      }
    }
  }
}
