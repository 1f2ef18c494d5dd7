/** The readers-writers program of assignment2/reader-writer-correct.c: the lock
    of ReadersWriters, inside a counting semaphore that limits the readers
    between semWait and semPost (with the semaphore text of
    assignment3/correct.h).  The reading section reads cnt twice. */
module ReadersWritersLimit {
  import opened Counting
  import opened Steps
  import S = CountingSemaphore
  import L = ReadersWriters

  /** Where a reader stands with respect to the limit.  Entering, Leaving: inside
      semWait, semPost; Inside: between the two, before the first read;
      ReadOnce: between the two reads; Free: after semPost, and writers always. */
  datatype Stage = Entering(pc: S.SemPC) | Inside | ReadOnce | Leaving(pc: S.SemPC) | Free

  /** `th` is the thread as the plain lock knows it; `th.seen` is the second
      value read and `first` the first. */
  datatype Thread = Thread(th: L.Thread, stage: Stage, first: int)

  datatype Shared = Shared(sem: S.Sem, sh: L.Shared)

  function ThreadStep(g: Shared, lt: Thread): Option<(Shared, Thread)> {
    match lt.stage
    case Entering(pc) => (
      match S.SemStep(g.sem, pc)
      case None => None
      case Some((sem, pc')) => Some((g.(sem := sem), lt.(stage := if pc' == S.Idle then Inside else Entering(pc')))))
    case Leaving(pc) => (
      match S.SemStep(g.sem, pc)
      case None => None
      case Some((sem, pc')) => Some((g.(sem := sem), lt.(stage := if pc' == S.Idle then Free else Leaving(pc')))))
    case Inside =>
      if L.ReaderIn(lt.th, {L.Reading}) then Some((g, lt.(stage := ReadOnce, first := g.sh.cnt)))
      else PlainStep(g, lt, Inside)
    case ReadOnce => PlainStep(g, lt, Leaving(S.PMutex))
    case Free => PlainStep(g, lt, Free)
  }

  function PlainStep(g: Shared, lt: Thread, stage: Stage): Option<(Shared, Thread)> {
    match L.ThreadStep(g.sh, lt.th)
    case None => None
    case Some((sh, th)) => Some((g.(sh := sh), lt.(th := th, stage := stage)))
  }

  datatype State = State(g: Shared, ths: seq<Thread>)

  ghost predicate Fresh(lt: Thread) {
    L.AtStart(lt.th) && lt.stage == if lt.th.Reader? then Entering(S.WGate) else Free
  }

  ghost predicate Init(limit: int, s: State) {
    && s.g == Shared(S.SemInit(limit), L.START)
    && forall t | 0 <= t < |s.ths| :: Fresh(s.ths[t])
  }

  function Step(s: State, t: nat): Option<State>
    requires t < |s.ths|
  {
    match ThreadStep(s.g, s.ths[t])
    case None => None
    case Some((g, lt)) => Some(State(g, s.ths[t := lt]))
  }

  /** A step is one statement of one thread and leaves the others as they are. */
  lemma OneThreadMoves(s: State, t: nat)
    requires t < |s.ths| && Step(s, t).Some?
    ensures var s' := Step(s, t).value;
      && |s'.ths| == |s.ths| && (forall u | 0 <= u < |s.ths| && u != t :: s'.ths[u] == s.ths[u])
      && Some((s'.g, s'.ths[t])) == ThreadStep(s.g, s.ths[t])
  {
  }

  ghost predicate Next(s: State, s': State) {
    exists t: nat :: t < |s.ths| && Step(s, t) == Some(s')
  }

  ghost predicate Run(limit: int, tr: seq<State>) {
    && |tr| > 0
    && Init(limit, tr[0])
    && forall j | 0 <= j < |tr| - 1 :: Next(tr[j], tr[j + 1])
  }

  lemma RunPrefix(limit: int, tr: seq<State>)
    requires Run(limit, tr) && |tr| > 1
    ensures Run(limit, tr[..|tr| - 1]) && Next(tr[|tr| - 2], tr[|tr| - 1])
  {
  }

  // ---- the plain lock and the semaphore inside this system ----

  function PlainThreads(ths: seq<Thread>): seq<L.Thread> {
    seq(|ths|, t requires 0 <= t < |ths| => ths[t].th)
  }

  /** The state of the plain lock: forget the limit. */
  function Abs(s: State): L.State {
    L.State(s.g.sh, PlainThreads(s.ths))
  }

  function SemPcOf(lt: Thread): S.SemPC {
    match lt.stage
    case Entering(pc) => pc
    case Leaving(pc) => pc
    case _ => S.Idle
  }

  function Pcs(ths: seq<Thread>): seq<S.SemPC> {
    seq(|ths|, t requires 0 <= t < |ths| => SemPcOf(ths[t]))
  }

  /** The reader has taken a credit of the limit and not given it back. */
  function HoldsCredit(lt: Thread): int {
    Ind(match lt.stage
        case Entering(pc) => pc in {S.WTest, S.WReopen, S.WRelease}
        case Leaving(pc) => pc.PStore? || pc in {S.PMutex, S.PLoad}
        case Inside => true
        case ReadOnce => true
        case Free => false)
  }

  /** Between the return of semWait and the call of semPost. */
  function Between(lt: Thread): int { Ind(lt.stage in {Inside, ReadOnce}) }

  ghost predicate StageOK(cnt: int, lt: Thread) {
    match lt.stage
    case Entering(pc) => L.ReaderIn(lt.th, {L.RLock}) && S.InWait(pc)
    case Inside => L.ReaderIn(lt.th, {L.RLock, L.RLoad, L.RInc, L.RTest, L.RWaitWrt, L.RUnlock, L.Reading})
    case ReadOnce => L.ReaderIn(lt.th, {L.Reading}) && lt.first == cnt
    case Leaving(pc) =>
      L.ReaderIn(lt.th, {L.RLockAgain}) && S.InPost(pc) && lt.first == lt.th.seen
    case Free =>
      && (lt.th.Reader? ==> lt.th.rpc in {L.RLockAgain, L.RLoadAgain, L.RDec, L.RTestZero, L.RPostWrt, L.RUnlockAgain, L.RDone})
      && (lt.th.Reader? ==> lt.first == lt.th.seen)
  }

  ghost predicate Limited(limit: int, s: State) {
    && S.SemInv(s.g.sem, Pcs(s.ths))
    && s.g.sem.val + Sum(s.ths, HoldsCredit) == limit
    && (s.g.sem.val >= 0 || Sum(s.ths, HoldsCredit) == 0)
  }

  ghost predicate Inv(limit: int, s: State) {
    && L.Inv(Abs(s))
    && Limited(limit, s)
    && (forall t | 0 <= t < |s.ths| :: StageOK(s.g.sh.cnt, s.ths[t]))
    && (limit <= 0 ==> forall t | 0 <= t < |s.ths| :: ShutOut(s.ths[t]))
  }

  /** Without any credit a reader stays at the gate. */
  predicate ShutOut(lt: Thread) {
    lt.th.Reader? ==> lt.stage == Entering(S.WGate)
  }

  lemma UpdateCommutes(ths: seq<Thread>, t: nat, lt: Thread)
    requires t < |ths|
    ensures PlainThreads(ths[t := lt]) == PlainThreads(ths)[t := lt.th]
    ensures Pcs(ths[t := lt]) == Pcs(ths)[t := SemPcOf(lt)]
  {
  }

  /** Refinement, one step: forgetting the limit, a step is a stutter or the
      same thread's step of the plain lock. */
  lemma StepRefines(s: State, t: nat)
    requires t < |s.ths| && Step(s, t).Some?
    ensures var s' := Step(s, t).value; Abs(s') == Abs(s) || L.Step(Abs(s), t) == Some(Abs(s'))
  {
    var lt' := Step(s, t).value.ths[t];
    UpdateCommutes(s.ths, t, lt');
    assert PlainThreads(s.ths)[t] == s.ths[t].th;
    assert PlainThreads(s.ths)[t := s.ths[t].th] == PlainThreads(s.ths);
  }

  /** A step inside semWait or semPost is a step of the semaphore, and moves a
      credit between val and the reader. */
  lemma CallMovesCredit(g: Shared, lt: Thread)
    requires lt.stage.Entering? || lt.stage.Leaving?
    requires StageOK(g.sh.cnt, lt) && S.Loaded(g.sem, SemPcOf(lt)) && ThreadStep(g, lt).Some?
    ensures var (g', lt') := ThreadStep(g, lt).value;
      && S.SemStep(g.sem, SemPcOf(lt)) == Some((g'.sem, SemPcOf(lt')))
      && g'.sem.val + HoldsCredit(lt') == g.sem.val + HoldsCredit(lt)
      && (HoldsCredit(lt') > HoldsCredit(lt) ==> SemPcOf(lt).WStore?)
  {
  }

  lemma CallKeepsLimited(limit: int, s: State, t: nat)
    requires Limited(limit, s) && t < |s.ths| && StageOK(s.g.sh.cnt, s.ths[t])
    requires (s.ths[t].stage.Entering? || s.ths[t].stage.Leaving?) && Step(s, t).Some?
    ensures Limited(limit, Step(s, t).value)
  {
    var lt' := Step(s, t).value.ths[t];
    assert S.Loaded(s.g.sem, Pcs(s.ths)[t]);
    CallMovesCredit(s.g, s.ths[t]);
    UpdateCommutes(s.ths, t, lt');
    SumUpdate(s.ths, t, lt', HoldsCredit);
    S.SemStepKeepsInv(s.g.sem, Pcs(s.ths), t);
    if SemPcOf(s.ths[t]).WStore? {
      S.DecHasCredit(s.g.sem, Pcs(s.ths), t);
    }
    SumAtLeast(s.ths, t, HoldsCredit);
  }

  lemma StepKeepsLimited(limit: int, s: State, t: nat)
    requires Limited(limit, s) && t < |s.ths| && StageOK(s.g.sh.cnt, s.ths[t]) && Step(s, t).Some?
    ensures Limited(limit, Step(s, t).value)
  {
    if s.ths[t].stage.Entering? || s.ths[t].stage.Leaving? {
      CallKeepsLimited(limit, s, t);
    } else {
      var lt' := Step(s, t).value.ths[t];
      UpdateCommutes(s.ths, t, lt');
      SumUpdate(s.ths, t, lt', HoldsCredit);
      S.CallKeepsInv(s.g.sem, Pcs(s.ths), t, SemPcOf(lt'));
    }
  }

  /** While a reader reads, cnt does not change. */
  lemma ReadingFreezesCnt(s: State, t: nat, u: nat)
    requires L.Inv(Abs(s)) && t < |s.ths| && u < |s.ths| && L.InReading(s.ths[u].th) == 1
    requires Step(s, t).Some?
    ensures Step(s, t).value.g.sh.cnt == s.g.sh.cnt
  {
    assert Abs(s).ths[u] == s.ths[u].th && Abs(s).ths[t] == s.ths[t].th;
    L.ReadingHoldsWrt(Abs(s), u);
    SumAtLeast(Abs(s).ths, t, L.InSection);
  }

  lemma StepKeepsStage(g: Shared, lt: Thread)
    requires StageOK(g.sh.cnt, lt) && ThreadStep(g, lt).Some?
    ensures var (g', lt') := ThreadStep(g, lt).value; StageOK(g'.sh.cnt, lt')
  {
  }

  lemma NoCreditNoEntry(limit: int, s: State, t: nat)
    requires Inv(limit, s) && limit <= 0 && t < |s.ths| && Step(s, t).Some?
    ensures s.ths[t].th.Writer? && s.ths[t].stage == Free
  {
    assert ShutOut(s.ths[t]) && StageOK(s.g.sh.cnt, s.ths[t]);
    SumNonNegative(s.ths, HoldsCredit);
    S.CritSplit(Pcs(s.ths));
  }

  lemma StepKeepsInv(limit: int, s: State, t: nat)
    requires Inv(limit, s) && t < |s.ths| && Step(s, t).Some?
    ensures Inv(limit, Step(s, t).value)
  {
    var s' := Step(s, t).value;
    assert StageOK(s.g.sh.cnt, s.ths[t]);
    StepKeepsLimited(limit, s, t);
    StepRefines(s, t);
    if Abs(s') != Abs(s) {
      L.StepKeepsInv(Abs(s), t);
    }
    forall u | 0 <= u < |s'.ths| ensures StageOK(s'.g.sh.cnt, s'.ths[u]) {
      assert StageOK(s.g.sh.cnt, s.ths[u]);
      if u == t {
        StepKeepsStage(s.g, s.ths[t]);
      } else if s.ths[u].stage == ReadOnce {
        ReadingFreezesCnt(s, t, u);
      }
    }
    if limit <= 0 {
      NoCreditNoEntry(limit, s, t);
      forall u | 0 <= u < |s'.ths| ensures ShutOut(s'.ths[u]) {
        assert ShutOut(s.ths[u]);
      }
    }
  }

  lemma InitHasInv(limit: int, s: State)
    requires Init(limit, s)
    ensures Inv(limit, s)
  {
    forall t | 0 <= t < |s.ths|
      ensures StageOK(s.g.sh.cnt, s.ths[t]) && Pcs(s.ths)[t] in {S.Idle, S.WGate} && L.AtStart(Abs(s).ths[t])
    {
      assert Fresh(s.ths[t]);
    }
    L.InitHasInv(Abs(s));
    S.InitHasInv(limit, Pcs(s.ths));
    SumZero(s.ths, HoldsCredit);
  }

  lemma {:induction false} RunHasInv(limit: int, tr: seq<State>)
    requires Run(limit, tr)
    ensures Inv(limit, tr[|tr| - 1])
  {
    if |tr| == 1 {
      InitHasInv(limit, tr[0]);
    } else {
      var s := tr[|tr| - 2];
      RunPrefix(limit, tr);
      RunHasInv(limit, tr[..|tr| - 1]);
      var t: nat :| t < |s.ths| && Step(s, t) == Some(tr[|tr| - 1]);
      StepKeepsInv(limit, s, t);
    }
  }

  // ---- main results ----

  lemma NextRefines(s: State, s': State)
    requires Next(s, s')
    ensures Abs(s') == Abs(s) || L.Next(Abs(s), Abs(s'))
  {
    var t: nat :| t < |s.ths| && Step(s, t) == Some(s');
    StepRefines(s, t);
    assert |Abs(s).ths| == |s.ths|;
  }

  /** Refinement, whole runs: with the limit forgotten, every run is a run of
      the plain lock, so its exclusion and its cnt carry over. */
  lemma {:induction false} RunRefines(limit: int, tr: seq<State>) returns (atr: seq<L.State>)
    requires Run(limit, tr)
    ensures L.Run(atr) && atr[|atr| - 1] == Abs(tr[|tr| - 1])
  {
    if |tr| == 1 {
      atr := [Abs(tr[0])];
      forall t | 0 <= t < |atr[0].ths| ensures L.AtStart(atr[0].ths[t]) {
        assert Fresh(tr[0].ths[t]);
      }
    } else {
      var s, s' := tr[|tr| - 2], tr[|tr| - 1];
      RunPrefix(limit, tr);
      atr := RunRefines(limit, tr[..|tr| - 1]);
      NextRefines(s, s');
      if Abs(s') != Abs(s) {
        L.RunExtend(atr, Abs(s'));
        atr := atr + [Abs(s')];
      }
    }
  }

  /** The limit: at most `limit` readers are ever between semWait and semPost,
      none when the limit is not positive.  And the two reads of one reader
      agree: `first` is still cnt between them and equals `seen` afterwards. */
  lemma LimitHolds(limit: int, tr: seq<State>, t: nat)
    requires Run(limit, tr)
    ensures var s := tr[|tr| - 1];
      && Sum(s.ths, Between) <= Pos(limit)
      && (t < |s.ths| && s.ths[t].stage == ReadOnce ==> s.ths[t].first == s.g.sh.cnt)
      && (t < |s.ths| && s.ths[t].th.Reader? && (s.ths[t].stage.Leaving? || s.ths[t].stage.Free?) ==>
            s.ths[t].first == s.ths[t].th.seen)
  {
    RunHasInv(limit, tr);
    var s := tr[|tr| - 1];
    SumMonotone(s.ths, Between, HoldsCredit);
    if t < |s.ths| {
      assert StageOK(s.g.sh.cnt, s.ths[t]);
    }
  }

  /** Exclusion and no lost update, with the limit in place. */
  lemma ExclusionAndUpdates(limit: int, tr: seq<State>, t: nat, u: nat)
    requires Run(limit, tr)
    ensures var s := tr[|tr| - 1];
      && (t < |s.ths| && u < |s.ths| && L.InSection(s.ths[t].th) == 1 ==>
            L.InReading(s.ths[u].th) == 0 && (L.InSection(s.ths[u].th) == 1 ==> t == u))
      && Sum(Abs(s).ths, L.Updated) >= 0 && s.g.sh.cnt == L.Pow2(Sum(Abs(s).ths, L.Updated))
  {
    var atr := RunRefines(limit, tr);
    L.Exclusion(atr, t, u);
    L.NoLostUpdate(atr);
  }

  // ---- total correctness ----

  ghost predicate Stuck(s: State) {
    forall t | 0 <= t < |s.ths| :: Step(s, t).None?
  }

  ghost predicate AllDone(s: State) {
    forall t | 0 <= t < |s.ths| :: L.AtEnd(s.ths[t].th)
  }

  /** With nobody able to move, all that may be waiting is a reader at the gate
      of a semaphore without credit. */
  lemma StuckAtGate(limit: int, s: State)
    requires Inv(limit, s) && Stuck(s)
    ensures s.g.sem.mutex == 1 && s.g.sem.gate == Ind(s.g.sem.val > 0)
    ensures forall t | 0 <= t < |s.ths| ::
      s.ths[t].stage in {Inside, ReadOnce, Free} || (s.ths[t].stage == Entering(S.WGate) && s.g.sem.val <= 0)
    ensures L.Quiet(Abs(s))
  {
    var pcs := Pcs(s.ths);
    forall t | 0 <= t < |pcs| ensures S.SemStep(s.g.sem, pcs[t]).None? {
      assert Step(s, t).None?;
    }
    S.WhenStuck(s.g.sem, pcs);
    forall t | 0 <= t < |s.ths|
      ensures s.ths[t].stage in {Inside, ReadOnce, Free} || (s.ths[t].stage == Entering(S.WGate) && s.g.sem.val <= 0)
      ensures L.ReaderIn(Abs(s).ths[t], {L.RLock}) || L.ThreadStep(s.g.sh, Abs(s).ths[t]).None?
    {
      assert StageOK(s.g.sh.cnt, s.ths[t]) && Step(s, t).None?;
      assert pcs[t] == SemPcOf(s.ths[t]);
    }
  }

  function IsReader(lt: Thread): int { Ind(lt.th.Reader?) }

  lemma StuckMeansDone(limit: int, s: State)
    requires Inv(limit, s) && Stuck(s)
    ensures s.g.sem == S.SemInit(limit)
    ensures s.g.sh.numreader == 0 && s.g.sh.wrt == 1 && s.g.sh.mutex == 1
    ensures forall t | 0 <= t < |s.ths| :: L.AtEnd(s.ths[t].th) || (limit <= 0 && s.ths[t].stage == Entering(S.WGate))
  {
    StuckAtGate(limit, s);
    L.NobodyInside(Abs(s));
    forall t | 0 <= t < |s.ths|
      ensures HoldsCredit(s.ths[t]) == 0 && (s.ths[t].stage == Entering(S.WGate) || L.AtEnd(s.ths[t].th))
    {
      assert StageOK(s.g.sh.cnt, s.ths[t]) && Step(s, t).None?;
      assert Abs(s).ths[t] == s.ths[t].th;
    }
    SumZero(s.ths, HoldsCredit);
  }

  lemma WritersDone(limit: int, s: State)
    requires Inv(limit, s)
    requires forall t | 0 <= t < |s.ths| :: L.AtEnd(s.ths[t].th) || s.ths[t].stage == Entering(S.WGate)
    ensures Sum(Abs(s).ths, L.IsWriter) >= 0 && s.g.sh.cnt == L.Pow2(Sum(Abs(s).ths, L.IsWriter))
  {
    var ths := Abs(s).ths;
    forall t | 0 <= t < |ths| ensures ths[t].Reader? || ths[t].wpc == L.WDone {
      assert ths[t] == s.ths[t].th && StageOK(s.g.sh.cnt, s.ths[t]);
    }
    L.UpdatedAreWriters(ths);
  }

  /** Steps a thread can still take. */
  function StepsLeft(lt: Thread): int {
    L.StepsLeft(lt.th) +
    match lt.stage
    case Entering(pc) => 10 + S.StepsLeft(pc)
    case Inside => 9
    case ReadOnce => 8
    case Leaving(pc) => 1 + S.StepsLeft(pc)
    case Free => 0
  }

  lemma ThreadUsesAStep(g: Shared, lt: Thread)
    requires ThreadStep(g, lt).Some?
    ensures StepsLeft(ThreadStep(g, lt).value.1) < StepsLeft(lt)
  {
  }

  lemma NextUsesAStep(s: State, s': State)
    requires Next(s, s')
    ensures Sum(s'.ths, StepsLeft) < Sum(s.ths, StepsLeft)
  {
    var t: nat :| t < |s.ths| && Step(s, t) == Some(s');
    ThreadUsesAStep(s.g, s.ths[t]);
    SumUpdate(s.ths, t, s'.ths[t], StepsLeft);
  }

  lemma {:induction false} RunsEnd(limit: int, tr: seq<State>)
    requires Run(limit, tr)
    ensures 0 <= Sum(tr[|tr| - 1].ths, StepsLeft) <= Sum(tr[0].ths, StepsLeft) - (|tr| - 1)
  {
    SumNonNegative(tr[|tr| - 1].ths, StepsLeft);
    if |tr| == 1 {
    } else {
      RunPrefix(limit, tr);
      RunsEnd(limit, tr[..|tr| - 1]);
      NextUsesAStep(tr[|tr| - 2], tr[|tr| - 1]);
    }
  }

  /** Every run is bounded; where it can go no further the lock is as at the
      start, every credit is returned, and every thread has finished if and
      only if the limit is positive or there are no readers. */
  lemma TotalCorrectness(limit: int, tr: seq<State>)
    requires Run(limit, tr)
    ensures 0 <= Sum(tr[|tr| - 1].ths, StepsLeft) <= Sum(tr[0].ths, StepsLeft) - (|tr| - 1)
    ensures var s := tr[|tr| - 1]; Stuck(s) ==>
      && s.g.sem == S.SemInit(limit)
      && s.g.sh.numreader == 0 && s.g.sh.wrt == 1 && s.g.sh.mutex == 1
      && (AllDone(s) <==> limit > 0 || Sum(s.ths, IsReader) == 0)
      && Sum(Abs(s).ths, L.IsWriter) >= 0 && s.g.sh.cnt == L.Pow2(Sum(Abs(s).ths, L.IsWriter))
  {
    RunsEnd(limit, tr);
    RunHasInv(limit, tr);
    var s := tr[|tr| - 1];
    if Stuck(s) {
      StuckMeansDone(limit, s);
      WritersDone(limit, s);
      forall t | 0 <= t < |s.ths| ensures limit <= 0 ==> IsReader(s.ths[t]) == Ind(!L.AtEnd(s.ths[t].th)) {
        assert StageOK(s.g.sh.cnt, s.ths[t]);
        if limit <= 0 {
          assert ShutOut(s.ths[t]);
        }
      }
      if limit <= 0 {
        if AllDone(s) {
          SumZero(s.ths, IsReader);
        } else {
          var t :| 0 <= t < |s.ths| && !L.AtEnd(s.ths[t].th);
          SumAtLeast(s.ths, t, IsReader);
        }
      }
    }
  }

  // ---- a whole reader, by one thread that is not interrupted ----

  function Own(x: (Shared, Thread)): Option<(Shared, Thread)> {
    ThreadStep(x.0, x.1)
  }

  /** The thread's own steps lead from `a` to here. */
  ghost predicate Alone(a: (Shared, Thread), g: Shared, lt: Thread) {
    Leads(Own, a, (g, lt))
  }

  lemma AloneMore(a: (Shared, Thread), g: Shared, lt: Thread)
    requires Alone(a, g, lt) && ThreadStep(g, lt).Some?
    ensures var (g', lt') := ThreadStep(g, lt).value; Alone(a, g', lt')
  {
    LeadsMore(Own, a, (g, lt));
  }

  /** What a reader's variables hold. */
  datatype Vars = Vars(seen: int, first: int, tmp: int)

  function ReaderAt(pc: L.ReaderPC, stage: Stage, v: Vars): Thread {
    Thread(L.Reader(pc, v.seen, v.tmp), stage, v.first)
  }

  lemma ReaderDecrements(a: (Shared, Thread), g: Shared, v: Vars)
    requires Alone(a, g, ReaderAt(L.RLock, Entering(S.WGate), v)) && g.sem.gate == 1 && g.sem.mutex == 1
    ensures Alone(a, g.(sem := S.Sem(g.sem.val - 1, 0, 0)), ReaderAt(L.RLock, Entering(S.WTest), v))
  {
    var g1 := g.(sem := g.sem.(gate := 0));
    var g2 := g1.(sem := g1.sem.(mutex := 0));
    AloneMore(a, g, ReaderAt(L.RLock, Entering(S.WGate), v));
    AloneMore(a, g1, ReaderAt(L.RLock, Entering(S.WMutex), v));
    AloneMore(a, g2, ReaderAt(L.RLock, Entering(S.WLoad), v));
    AloneMore(a, g2, ReaderAt(L.RLock, Entering(S.WStore(g.sem.val)), v));
  }

  lemma ReaderEnters(a: (Shared, Thread), g: Shared, v: Vars)
    requires Alone(a, g, ReaderAt(L.RLock, Entering(S.WTest), v))
    requires g.sem.val >= 0 && g.sem.gate == 0 && g.sem.mutex == 0
    ensures Alone(a, g.(sem := S.SemInit(g.sem.val)), ReaderAt(L.RLock, Inside, v))
  {
    AloneMore(a, g, ReaderAt(L.RLock, Entering(S.WTest), v));
    if g.sem.val > 0 {
      AloneMore(a, g, ReaderAt(L.RLock, Entering(S.WReopen), v));
    }
    AloneMore(a, g.(sem := g.sem.(gate := Ind(g.sem.val > 0))), ReaderAt(L.RLock, Entering(S.WRelease), v));
  }

  lemma ReaderCounts(a: (Shared, Thread), g: Shared, v: Vars)
    requires Alone(a, g, ReaderAt(L.RLock, Inside, v)) && g.sh.mutex > 0
    ensures Alone(a, g.(sh := g.sh.(mutex := g.sh.mutex - 1, numreader := g.sh.numreader + 1)),
                  ReaderAt(L.RTest, Inside, v.(tmp := g.sh.numreader)))
  {
    var locked := g.(sh := g.sh.(mutex := g.sh.mutex - 1));
    AloneMore(a, g, ReaderAt(L.RLock, Inside, v));
    AloneMore(a, locked, ReaderAt(L.RLoad, Inside, v));
    AloneMore(a, locked, ReaderAt(L.RInc, Inside, v.(tmp := g.sh.numreader)));
  }

  lemma ReaderLocks(a: (Shared, Thread), g: Shared, v: Vars)
    requires Alone(a, g, ReaderAt(L.RTest, Inside, v)) && (g.sh.numreader == 1 ==> g.sh.wrt > 0)
    ensures Alone(a, g.(sh := g.sh.(mutex := g.sh.mutex + 1, wrt := g.sh.wrt - Ind(g.sh.numreader == 1))),
                  ReaderAt(L.Reading, Inside, v))
  {
    AloneMore(a, g, ReaderAt(L.RTest, Inside, v));
    if g.sh.numreader == 1 {
      AloneMore(a, g, ReaderAt(L.RWaitWrt, Inside, v));
    }
    AloneMore(a, g.(sh := g.sh.(wrt := g.sh.wrt - Ind(g.sh.numreader == 1))), ReaderAt(L.RUnlock, Inside, v));
  }

  lemma ReaderReads(a: (Shared, Thread), g: Shared, v: Vars)
    requires Alone(a, g, ReaderAt(L.Reading, Inside, v)) && g.sem.mutex == 1
    ensures Alone(a, g.(sem := g.sem.(mutex := 0)),
                  ReaderAt(L.RLockAgain, Leaving(S.PLoad), Vars(g.sh.cnt, g.sh.cnt, v.tmp)))
  {
    AloneMore(a, g, ReaderAt(L.Reading, Inside, v));
    AloneMore(a, g, ReaderAt(L.Reading, ReadOnce, v.(first := g.sh.cnt)));
    AloneMore(a, g, ReaderAt(L.RLockAgain, Leaving(S.PMutex), Vars(g.sh.cnt, g.sh.cnt, v.tmp)));
  }

  lemma ReaderLeaves(a: (Shared, Thread), g: Shared, v: Vars)
    requires Alone(a, g, ReaderAt(L.RLockAgain, Leaving(S.PLoad), v))
    requires g.sem.val >= 0 && g.sem.gate == Ind(g.sem.val > 0) && g.sem.mutex == 0
    ensures Alone(a, g.(sem := S.SemInit(g.sem.val + 1)), ReaderAt(L.RLockAgain, Free, v))
  {
    var sem1 := g.sem.(val := g.sem.val + 1);
    AloneMore(a, g, ReaderAt(L.RLockAgain, Leaving(S.PLoad), v));
    AloneMore(a, g, ReaderAt(L.RLockAgain, Leaving(S.PStore(g.sem.val)), v));
    AloneMore(a, g.(sem := sem1), ReaderAt(L.RLockAgain, Leaving(S.PTest), v));
    if g.sem.val == 0 {
      AloneMore(a, g.(sem := sem1), ReaderAt(L.RLockAgain, Leaving(S.POpen), v));
    }
    AloneMore(a, g.(sem := sem1.(gate := 1)), ReaderAt(L.RLockAgain, Leaving(S.PRelease), v));
  }

  lemma ReaderUncounts(a: (Shared, Thread), g: Shared, v: Vars)
    requires Alone(a, g, ReaderAt(L.RLockAgain, Free, v)) && g.sh.mutex > 0
    ensures Alone(a, g.(sh := g.sh.(mutex := g.sh.mutex - 1, numreader := g.sh.numreader - 1)),
                  ReaderAt(L.RTestZero, Free, v.(tmp := g.sh.numreader)))
  {
    var locked := g.(sh := g.sh.(mutex := g.sh.mutex - 1));
    AloneMore(a, g, ReaderAt(L.RLockAgain, Free, v));
    AloneMore(a, locked, ReaderAt(L.RLoadAgain, Free, v));
    AloneMore(a, locked, ReaderAt(L.RDec, Free, v.(tmp := g.sh.numreader)));
  }

  lemma ReaderUnlocks(a: (Shared, Thread), g: Shared, v: Vars)
    requires Alone(a, g, ReaderAt(L.RTestZero, Free, v))
    ensures Alone(a, g.(sh := g.sh.(mutex := g.sh.mutex + 1, wrt := g.sh.wrt + Ind(g.sh.numreader == 0))),
                  ReaderAt(L.RDone, Free, v))
  {
    AloneMore(a, g, ReaderAt(L.RTestZero, Free, v));
    if g.sh.numreader == 0 {
      AloneMore(a, g, ReaderAt(L.RPostWrt, Free, v));
    }
    AloneMore(a, g.(sh := g.sh.(wrt := g.sh.wrt + Ind(g.sh.numreader == 0))), ReaderAt(L.RUnlockAgain, Free, v));
  }

  /** reader() as far as the return of semPost: it has read cnt twice, is counted,
      and the limit is as it was. */
  lemma ReaderComesAndReads(g: Shared, v: Vars)
    requires g.sem.val > 0 && g.sem == S.SemInit(g.sem.val)
    requires g.sh.mutex > 0 && (g.sh.numreader == 0 ==> g.sh.wrt > 0)
    ensures Alone((g, ReaderAt(L.RLock, Entering(S.WGate), v)),
                  g.(sh := g.sh.(numreader := g.sh.numreader + 1, wrt := g.sh.wrt - Ind(g.sh.numreader == 0))),
                  ReaderAt(L.RLockAgain, Free, Vars(g.sh.cnt, g.sh.cnt, g.sh.numreader)))
  {
    var a, n := (g, ReaderAt(L.RLock, Entering(S.WGate), v)), g.sh.numreader;
    var ins := g.(sem := S.SemInit(g.sem.val - 1));
    var counted := ins.(sh := g.sh.(mutex := g.sh.mutex - 1, numreader := n + 1));
    var reading := ins.(sh := g.sh.(numreader := n + 1, wrt := g.sh.wrt - Ind(n == 0)));
    LeadsZero(Own, a);
    ReaderDecrements(a, g, v);
    ReaderEnters(a, g.(sem := S.Sem(g.sem.val - 1, 0, 0)), v);
    ReaderCounts(a, ins, v);
    ReaderLocks(a, counted, v.(tmp := n));
    ReaderReads(a, reading, v.(tmp := n));
    ReaderLeaves(a, reading.(sem := reading.sem.(mutex := 0)), Vars(g.sh.cnt, g.sh.cnt, n));
  }

  /** All of reader(): it leaves the lock and the limit as it found them. */
  lemma ReaderAlone(g: Shared, v: Vars)
    requires g.sem.val > 0 && g.sem == S.SemInit(g.sem.val)
    requires g.sh.mutex > 0 && (g.sh.numreader == 0 ==> g.sh.wrt > 0)
    ensures Alone((g, ReaderAt(L.RLock, Entering(S.WGate), v)), g,
                  ReaderAt(L.RDone, Free, Vars(g.sh.cnt, g.sh.cnt, g.sh.numreader + 1)))
  {
    var a, n := (g, ReaderAt(L.RLock, Entering(S.WGate), v)), g.sh.numreader;
    var inside := g.(sh := g.sh.(numreader := n + 1, wrt := g.sh.wrt - Ind(n == 0)));
    ReaderComesAndReads(g, v);
    ReaderUncounts(a, inside, Vars(g.sh.cnt, g.sh.cnt, n));
    ReaderUnlocks(a, inside.(sh := inside.sh.(mutex := g.sh.mutex - 1, numreader := n)), Vars(g.sh.cnt, g.sh.cnt, n + 1));
  }

  // ---- numreader is not limited ----

  ghost predicate Reachable(limit: int, s0: State, s: State) {
    exists tr :: Run(limit, tr) && tr[0] == s0 && tr[|tr| - 1] == s
  }

  lemma ReachStep(limit: int, s0: State, s: State, s': State)
    requires Reachable(limit, s0, s) && Next(s, s')
    ensures Reachable(limit, s0, s')
  {
    var tr :| Run(limit, tr) && tr[0] == s0 && tr[|tr| - 1] == s;
    var longer := tr + [s'];
    forall j | 0 <= j < |longer| - 1 ensures Next(longer[j], longer[j + 1]) {
      if j < |tr| - 1 {
        assert Next(tr[j], tr[j + 1]);
      }
    }
    assert Run(limit, longer) && longer[0] == s0 && longer[|longer| - 1] == s';
  }

  /** The state in which thread t is `lt` and the others are as in `ths`. */
  ghost predicate Reach(limit: int, s0: State, g: Shared, ths: seq<Thread>, t: nat, lt: Thread)
    requires t < |ths|
  {
    Reachable(limit, s0, State(g, ths[t := lt]))
  }

  lemma ReachThread(limit: int, s0: State, g: Shared, ths: seq<Thread>, t: nat, lt: Thread)
    requires t < |ths| && Reach(limit, s0, g, ths, t, lt) && ThreadStep(g, lt).Some?
    ensures var (g', lt') := ThreadStep(g, lt).value; Reach(limit, s0, g', ths, t, lt')
  {
    var s := State(g, ths[t := lt]);
    var (g', lt') := ThreadStep(g, lt).value;
    assert ths[t := lt][t := lt'] == ths[t := lt'];
    assert Step(s, t) == Some(State(g', ths[t := lt']));
    ReachStep(limit, s0, s, State(g', ths[t := lt']));
  }

  /** What a thread does alone, it can do in the system. */
  lemma {:induction false} ChainReaches(limit: int, s0: State, ths: seq<Thread>, t: nat, tr: seq<(Shared, Thread)>, j: nat)
    requires t < |ths| && Chain(Own, tr) && j < |tr| && Reach(limit, s0, tr[0].0, ths, t, tr[0].1)
    ensures Reach(limit, s0, tr[j].0, ths, t, tr[j].1)
  {
    if j == 0 {
    } else {
      ChainReaches(limit, s0, ths, t, tr, j - 1);
      GoesOn(Own, tr, j - 1);
      ReachThread(limit, s0, tr[j - 1].0, ths, t, tr[j - 1].1);
    }
  }

  lemma AloneReaches(limit: int, s0: State, ths: seq<Thread>, t: nat, g: Shared, lt: Thread, g': Shared, lt': Thread)
    requires t < |ths| && Reach(limit, s0, g, ths, t, lt) && Alone((g, lt), g', lt')
    ensures Reach(limit, s0, g', ths, t, lt')
  {
    var tr :| Chain(Own, tr) && tr[0] == (g, lt) && tr[|tr| - 1] == (g', lt');
    ChainReaches(limit, s0, ths, t, tr, |tr| - 1);
  }

  /** A reader that found m others in the lock, read cnt == 1 twice and has
      come back from semPost. */
  function Visited(m: int): Thread {
    ReaderAt(L.RLockAgain, Free, Vars(1, 1, m))
  }

  /** Of the first j threads every reader has come back from semPost and not yet
      left the lock; the rest have not begun. */
  ghost function Crowd(limit: int, ths: seq<Thread>, j: nat): State
    requires j <= |ths|
  {
    var m := Sum(ths[..j], IsReader);
    State(Shared(S.SemInit(limit), L.Shared(Ind(m == 0), 1, 1, m)),
          seq(|ths|, i requires 0 <= i < |ths| =>
            if i < j && ths[i].th.Reader? then Visited(Sum(ths[..i], IsReader)) else ths[i]))
  }

  lemma ReadersUpTo(ths: seq<Thread>, j: nat)
    requires 0 < j <= |ths|
    ensures Sum(ths[..j], IsReader) == Sum(ths[..j - 1], IsReader) + IsReader(ths[j - 1])
    ensures Sum(ths[..j - 1], IsReader) >= 0
  {
    assert ths[..j] == ths[..j - 1] + [ths[j - 1]];
    SumConcat(ths[..j - 1], [ths[j - 1]], IsReader);
    assert [ths[j - 1]][1..] == [];
    SumNonNegative(ths[..j - 1], IsReader);
  }

  lemma CrowdGrows(limit: int, s0: State, j: nat)
    requires limit > 0 && Init(limit, s0) && 0 < j <= |s0.ths| && s0.ths[j - 1].th.Reader?
    requires Reachable(limit, s0, Crowd(limit, s0.ths, j - 1))
    ensures Reachable(limit, s0, Crowd(limit, s0.ths, j))
  {
    var s, t := Crowd(limit, s0.ths, j - 1), j - 1;
    assert Fresh(s0.ths[t]);
    var v := Vars(s0.ths[t].th.seen, s0.ths[t].first, s0.ths[t].th.tmp);
    assert s.ths[t := ReaderAt(L.RLock, Entering(S.WGate), v)] == s.ths;
    ReadersUpTo(s0.ths, j);
    CrowdVisit(limit, s0, s.g.sh.numreader, s.ths, t, v);
    assert s.ths[t := Visited(s.g.sh.numreader)] == Crowd(limit, s0.ths, j).ths;
  }

  /** A reader comes while m others are in the lock, reads, and returns its
      credit. */
  lemma CrowdVisit(limit: int, s0: State, m: nat, ths: seq<Thread>, t: nat, v: Vars)
    requires limit > 0 && t < |ths|
    requires Reach(limit, s0, Shared(S.SemInit(limit), L.Shared(Ind(m == 0), 1, 1, m)), ths, t,
                   ReaderAt(L.RLock, Entering(S.WGate), v))
    ensures Reach(limit, s0, Shared(S.SemInit(limit), L.Shared(0, 1, 1, m + 1)), ths, t, Visited(m))
  {
    var g := Shared(S.SemInit(limit), L.Shared(Ind(m == 0), 1, 1, m));
    ReaderComesAndReads(g, v);
    AloneReaches(limit, s0, ths, t, g, ReaderAt(L.RLock, Entering(S.WGate), v),
                 Shared(S.SemInit(limit), L.Shared(0, 1, 1, m + 1)), Visited(m));
  }

  lemma CrowdStarts(limit: int, s0: State)
    requires Init(limit, s0)
    ensures Reachable(limit, s0, Crowd(limit, s0.ths, 0))
  {
    assert Run(limit, [s0]) && [s0][0] == s0;
    assert Crowd(limit, s0.ths, 0).ths == s0.ths;
  }

  lemma CrowdSkips(limit: int, ths: seq<Thread>, j: nat)
    requires 0 < j <= |ths| && ths[j - 1].th.Writer?
    ensures Crowd(limit, ths, j) == Crowd(limit, ths, j - 1)
  {
    ReadersUpTo(ths, j);
    assert Crowd(limit, ths, j).ths == Crowd(limit, ths, j - 1).ths;
  }

  lemma {:induction false} CrowdReachable(limit: int, s0: State, j: nat)
    requires limit > 0 && Init(limit, s0) && j <= |s0.ths|
    ensures Reachable(limit, s0, Crowd(limit, s0.ths, j))
  {
    if j == 0 {
      CrowdStarts(limit, s0);
    } else {
      CrowdReachable(limit, s0, j - 1);
      if s0.ths[j - 1].th.Reader? {
        CrowdGrows(limit, s0, j);
      } else {
        CrowdSkips(limit, s0.ths, j);
      }
    }
  }

  /** However small a positive limit is, all readers can be counted at once. */
  lemma NumreaderReachesAll(limit: int, s0: State)
    requires limit > 0 && Init(limit, s0)
    ensures exists s :: Reachable(limit, s0, s) && s.g.sh.numreader == Sum(s0.ths, IsReader)
  {
    CrowdReachable(limit, s0, |s0.ths|);
    assert s0.ths[..|s0.ths|] == s0.ths;
    assert Crowd(limit, s0.ths, |s0.ths|).g.sh.numreader == Sum(s0.ths, IsReader);
  }

  lemma {:induction false} CountedAreReaders(ths: seq<Thread>)
    ensures Sum(PlainThreads(ths), L.Counted) <= Sum(ths, IsReader)
  {
    if ths == [] {
    } else {
      assert PlainThreads(ths)[1..] == PlainThreads(ths[1..]);
      CountedAreReaders(ths[1..]);
    }
  }

  lemma ThreadKeepsKind(g: Shared, lt: Thread)
    requires ThreadStep(g, lt).Some?
    ensures IsReader(ThreadStep(g, lt).value.1) == IsReader(lt)
  {
  }

  lemma NextKeepsReaders(s: State, s': State)
    requires Next(s, s')
    ensures Sum(s'.ths, IsReader) == Sum(s.ths, IsReader)
  {
    var t: nat :| t < |s.ths| && Step(s, t) == Some(s');
    ThreadKeepsKind(s.g, s.ths[t]);
    SumUpdate(s.ths, t, s'.ths[t], IsReader);
  }

  lemma {:induction false} ReadersStay(limit: int, tr: seq<State>)
    requires Run(limit, tr)
    ensures Sum(tr[|tr| - 1].ths, IsReader) == Sum(tr[0].ths, IsReader)
  {
    if |tr| == 1 {
    } else {
      RunPrefix(limit, tr);
      ReadersStay(limit, tr[..|tr| - 1]);
      NextKeepsReaders(tr[|tr| - 2], tr[|tr| - 1]);
    }
  }

  /** Never more than there are readers, and none without a positive limit. */
  lemma NumreaderAtMost(limit: int, tr: seq<State>)
    requires Run(limit, tr)
    ensures tr[|tr| - 1].g.sh.numreader <= if limit > 0 then Sum(tr[0].ths, IsReader) else 0
  {
    var s := tr[|tr| - 1];
    RunHasInv(limit, tr);
    ReadersStay(limit, tr);
    CountedAreReaders(s.ths);
    if limit <= 0 {
      forall t | 0 <= t < |s.ths| ensures L.Counted(Abs(s).ths[t]) == 0 {
        assert ShutOut(s.ths[t]) && StageOK(s.g.sh.cnt, s.ths[t]);
      }
      SumZero(Abs(s).ths, L.Counted);
    }
  }

  /** The limit bounds the readers between semWait and semPost, not numreader:
      a reader gives its credit back before it leaves the lock.  So numreader
      keeps within the limit, from a given start, exactly when the limit admits
      nobody or there are no more readers than it allows. */
  lemma NumreaderBoundedIff(limit: int, s0: State)
    requires Init(limit, s0)
    ensures (forall s | Reachable(limit, s0, s) :: s.g.sh.numreader <= Pos(limit))
      <==> limit <= 0 || Sum(s0.ths, IsReader) <= limit
  {
    if limit <= 0 || Sum(s0.ths, IsReader) <= limit {
      forall s | Reachable(limit, s0, s) ensures s.g.sh.numreader <= Pos(limit) {
        var tr :| Run(limit, tr) && tr[0] == s0 && tr[|tr| - 1] == s;
        NumreaderAtMost(limit, tr);
      }
    } else {
      NumreaderReachesAll(limit, s0);
    }
  }

  lemma {:induction false} AllReaders(ths: seq<Thread>)
    requires forall t | 0 <= t < |ths| :: ths[t].th.Reader?
    ensures Sum(ths, IsReader) == |ths|
  {
    if ths == [] {
    } else {
      assert forall t | 0 <= t < |ths[1..]| :: ths[1..][t] == ths[t + 1];
      AllReaders(ths[1..]);
    }
  }

  /** In particular no limit bounds it: some program reaches numreader == n. */
  lemma NumreaderIsUnbounded(limit: int, n: nat)
    requires limit > 0
    ensures exists s0, s :: Reachable(limit, s0, s) && s.g.sh.numreader == n
  {
    var s0 := State(Shared(S.SemInit(limit), L.START), seq(n, i => ReaderAt(L.RLock, Entering(S.WGate), Vars(0, 0, 0))));
    assert Init(limit, s0) by {
      forall t | 0 <= t < n ensures Fresh(s0.ths[t]) {
        assert s0.ths[t] == ReaderAt(L.RLock, Entering(S.WGate), Vars(0, 0, 0));
      }
    }
    AllReaders(s0.ths);
    NumreaderReachesAll(limit, s0);
  }

  // ---- reader(), run by one thread that is not interrupted ----

  class LimitedLock {
    const sem: S.CountSem
    const lock: L.Lock

    constructor (limit: int)
      ensures fresh(sem) && fresh(lock)
      ensures sem.State() == S.SemInit(limit) && lock.State() == L.START
    {
      sem := new S.CountSem(limit);
      lock := new L.Lock();
    }

    /** The two reads agree, and lock and limit are left as they were found. */
    method Read() returns (first: int, second: int)
      requires sem.val > 0 && sem.State() == S.SemInit(sem.val)
      requires lock.mutex > 0 && (lock.numreader == 0 ==> lock.wrt > 0)
      modifies sem, lock
      ensures first == second == old(lock.cnt)
      ensures sem.State() == old(sem.State()) && lock.State() == old(lock.State())
      ensures Alone((Shared(old(sem.State()), old(lock.State())), ReaderAt(L.RLock, Entering(S.WGate), Vars(0, 0, 0))),
                    Shared(sem.State(), lock.State()),
                    ReaderAt(L.RDone, Free, Vars(second, first, old(lock.numreader) + 1)))
    {
      ReaderAlone(Shared(sem.State(), lock.State()), Vars(0, 0, 0));
      sem.SemWait();
      lock.ReaderEnter();
      first := lock.cnt;
      second := lock.cnt;
      sem.SemPost();
      lock.ReaderExit();
    }
  }
}
