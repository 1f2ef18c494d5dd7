/** The bounded buffer of assignment2/correctQ1.c: the producers and consumers
    of ProdCon, calling the semaphore built from binary semaphores (with the
    semaphore text of assignment3/correct.h) statement by statement. */
module ProdConSem {
  import opened Counting
  import S = CountingSemaphore
  import opened BoundedBuffer
  import D = Delivery
  import P = ProdCon

  /** `pc` is the position inside the semaphore call when `th.phase` is Waiting
      or Posting, and Idle otherwise. */
  datatype CThread = CThread(th: Thread, pc: S.SemPC)

  datatype State = State(fs: S.Sem, es: S.Sem, b: Shared, ths: seq<CThread>)

  /** FS: the semaphore `fs` that counts free slots; ES: `es`, items. */
  datatype Side = FS | ES

  function SideOf(th: Thread): Side {
    if (th.role == Producer) == (th.phase == Waiting) then FS else ES
  }

  predicate InCall(th: Thread) {
    th.phase == Waiting || th.phase == Posting
  }

  function SemOf(s: State, side: Side): S.Sem {
    match side
    case FS => s.fs
    case ES => s.es
  }

  function WithSem(s: State, side: Side, sem: S.Sem): State {
    match side
    case FS => s.(fs := sem)
    case ES => s.(es := sem)
  }

  /** The first statement of the call that the phase makes, if it makes one. */
  function Entry(p: Phase): S.SemPC {
    match p
    case Waiting => S.WGate
    case Posting => S.PMutex
    case _ => S.Idle
  }

  /** After the call: into the critical section, or round the loop. */
  function Returned(th: Thread): Thread {
    th.(phase := if th.phase == Waiting then Locking else Loop)
  }

  function CallThread(th: Thread, pc: S.SemPC): CThread {
    CThread(if pc == S.Idle then Returned(th) else th, pc)
  }

  function Step(rounds: nat, s: State, t: nat, v: int): Option<State>
    requires t < |s.ths|
  {
    var ct := s.ths[t];
    if InCall(ct.th) then
      match S.SemStep(SemOf(s, SideOf(ct.th)), ct.pc)
      case None => None
      case Some((sem, pc)) => Some(WithSem(s, SideOf(ct.th), sem).(ths := s.ths[t := CallThread(ct.th, pc)]))
    else
      match BodyStep(rounds, s.b, ct.th, v)
      case None => None
      case Some((b, th)) => Some(s.(b := b, ths := s.ths[t := CThread(th, Entry(th.phase))]))
  }

  ghost predicate Init(c: P.Config, s: State) {
    && s.fs == S.SemInit(c.size) && s.es == S.SemInit(0)
    && (forall t | 0 <= t < |s.ths| :: s.ths[t].pc == S.Idle)
    && P.Init(c, Abs(s))
  }

  /** A step is one statement of one thread and leaves the others as they are; a
      statement of a semaphore call touches that semaphore and nothing else. */
  lemma OneThreadMoves(rounds: nat, s: State, t: nat, v: int)
    requires t < |s.ths| && Step(rounds, s, t, v).Some?
    ensures var s' := Step(rounds, s, t, v).value; var ct, ct' := s.ths[t], s'.ths[t];
      && |s'.ths| == |s.ths| && (forall u | 0 <= u < |s.ths| && u != t :: s'.ths[u] == s.ths[u])
      && if InCall(ct.th) then
           && s'.b == s.b && ct'.th == ct.th.(phase := ct'.th.phase)
           && forall side :: if side == SideOf(ct.th) then Some((SemOf(s', side), ct'.pc)) == S.SemStep(SemOf(s, side), ct.pc)
                             else SemOf(s', side) == SemOf(s, side)
         else
           s'.fs == s.fs && s'.es == s.es && Some((s'.b, ct'.th)) == BodyStep(rounds, s.b, ct.th, v)
  {
  }

  ghost predicate Next(c: P.Config, s: State, s': State) {
    exists t: nat, v: int :: t < |s.ths| && Step(c.rounds, s, t, v) == Some(s')
  }

  ghost predicate Run(c: P.Config, tr: seq<State>) {
    && |tr| > 0
    && Init(c, tr[0])
    && forall j | 0 <= j < |tr| - 1 :: Next(c, tr[j], tr[j + 1])
  }

  lemma RunPrefix(c: P.Config, tr: seq<State>)
    requires Run(c, tr) && |tr| > 1
    ensures Run(c, tr[..|tr| - 1]) && Next(c, tr[|tr| - 2], tr[|tr| - 1])
  {
  }

  // ---- the abstraction ----

  /** A call takes effect when it stores `val`. */
  function AbsThread(ct: CThread): Thread {
    if ct.pc in {S.WTest, S.WReopen, S.WRelease, S.PTest, S.POpen, S.PRelease} then Returned(ct.th) else ct.th
  }

  function AbsThreads(ths: seq<CThread>): seq<Thread> {
    seq(|ths|, t requires 0 <= t < |ths| => AbsThread(ths[t]))
  }

  /** full_sem = fs.val, empty_sem = es.val. */
  function Abs(s: State): P.State {
    P.State(s.fs.val, s.es.val, s.b, AbsThreads(s.ths))
  }

  /** The thread as one semaphore sees it. */
  function PcOn(side: Side, ct: CThread): S.SemPC {
    if InCall(ct.th) && SideOf(ct.th) == side then ct.pc else S.Idle
  }

  function Pcs(side: Side, ths: seq<CThread>): seq<S.SemPC> {
    seq(|ths|, t requires 0 <= t < |ths| => PcOn(side, ths[t]))
  }

  ghost predicate ThreadOK(ct: CThread) {
    match ct.th.phase
    case Waiting => S.InWait(ct.pc)
    case Posting => S.InPost(ct.pc)
    case _ => ct.pc == S.Idle
  }

  ghost predicate Sems(s: State) {
    && (forall t | 0 <= t < |s.ths| :: ThreadOK(s.ths[t]))
    && S.SemInv(s.fs, Pcs(FS, s.ths))
    && S.SemInv(s.es, Pcs(ES, s.ths))
  }

  ghost predicate Inv(c: P.Config, s: State) {
    Sems(s) && P.Inv(c, Abs(s))
  }

  lemma AbsUpdate(ths: seq<CThread>, t: nat, ct: CThread)
    requires t < |ths|
    ensures AbsThreads(ths[t := ct]) == AbsThreads(ths)[t := AbsThread(ct)]
  {
  }

  lemma PcsUpdate(side: Side, ths: seq<CThread>, t: nat, ct: CThread)
    requires t < |ths|
    ensures Pcs(side, ths[t := ct]) == Pcs(side, ths)[t := PcOn(side, ct)]
  {
  }

  lemma CallStaysOK(ct: CThread, sem: S.Sem)
    requires ThreadOK(ct) && InCall(ct.th) && S.SemStep(sem, ct.pc).Some?
    ensures var ct' := CallThread(ct.th, S.SemStep(sem, ct.pc).value.1);
      && ThreadOK(ct') && PcOn(SideOf(ct.th), ct') == S.SemStep(sem, ct.pc).value.1
      && forall side | side != SideOf(ct.th) :: PcOn(side, ct') == PcOn(side, ct) == S.Idle
  {
  }

  lemma CallKeepsSems(rounds: nat, s: State, t: nat, v: int)
    requires Sems(s) && t < |s.ths| && InCall(s.ths[t].th) && Step(rounds, s, t, v).Some?
    ensures Sems(Step(rounds, s, t, v).value)
  {
    var ct, ct' := s.ths[t], Step(rounds, s, t, v).value.ths[t];
    var side := SideOf(ct.th);
    var other := if side == FS then ES else FS;
    assert ThreadOK(ct);
    CallStaysOK(ct, SemOf(s, side));
    PcsUpdate(side, s.ths, t, ct');
    PcsUpdate(other, s.ths, t, ct');
    assert Pcs(side, s.ths)[t] == ct.pc && Pcs(other, s.ths)[t] == S.Idle;
    S.SemStepKeepsInv(SemOf(s, side), Pcs(side, s.ths), t);
    S.CallKeepsInv(SemOf(s, other), Pcs(other, s.ths), t, S.Idle);
  }

  /** The two semaphores keep their invariants: each step is a step of one of
      them, a call or nothing for each. */
  lemma StepKeepsSems(rounds: nat, s: State, t: nat, v: int)
    requires Sems(s) && t < |s.ths| && Step(rounds, s, t, v).Some?
    ensures Sems(Step(rounds, s, t, v).value)
  {
    if InCall(s.ths[t].th) {
      CallKeepsSems(rounds, s, t, v);
    } else {
      var ct' := Step(rounds, s, t, v).value.ths[t];
      PcsUpdate(FS, s.ths, t, ct');
      PcsUpdate(ES, s.ths, t, ct');
      S.CallKeepsInv(s.fs, Pcs(FS, s.ths), t, PcOn(FS, ct'));
      S.CallKeepsInv(s.es, Pcs(ES, s.ths), t, PcOn(ES, ct'));
    }
  }

  /** Where a call takes effect, the atomic semaphore moves too. */
  lemma CallRefines(rounds: nat, s: State, t: nat, v: int)
    requires t < |s.ths| && ThreadOK(s.ths[t]) && InCall(s.ths[t].th) && Step(rounds, s, t, v).Some?
    requires S.Loaded(SemOf(s, SideOf(s.ths[t].th)), s.ths[t].pc)
    requires s.ths[t].pc.WStore? ==> SemOf(s, SideOf(s.ths[t].th)).val > 0
    ensures var s' := Step(rounds, s, t, v).value; var ct, ct' := s.ths[t], s'.ths[t];
      && s'.ths == s.ths[t := ct'] && s'.b == s.b
      && if ct.pc.WStore? || ct.pc.PStore? then
           && ct.th == AbsThread(ct)
           && P.Step(rounds, Abs(s), t, v) == Some(P.State(s'.fs.val, s'.es.val, s.b, Abs(s).ths[t := AbsThread(ct')]))
         else
           AbsThread(ct') == AbsThread(ct) && s'.fs.val == s.fs.val && s'.es.val == s.es.val
  {
  }

  /** The composed program can start, for every number of producers and consumers. */
  lemma CanStart(c: P.Config) returns (s: State)
    ensures Init(c, s)
  {
    var a := P.CanStart(c);
    s := State(S.SemInit(c.size), S.SemInit(0), a.b,
               seq(|a.ths|, t requires 0 <= t < |a.ths| => CThread(a.ths[t], S.Idle)));
    assert Abs(s).ths == a.ths;
  }

  /** Refinement, one step: a step of the composed system is a stutter or the
      same thread's step of the system with atomic semaphores. */
  lemma StepRefines(c: P.Config, s: State, t: nat, v: int)
    requires Inv(c, s) && t < |s.ths| && Step(c.rounds, s, t, v).Some?
    ensures var s' := Step(c.rounds, s, t, v).value;
      Abs(s') == Abs(s) || P.Step(c.rounds, Abs(s), t, v) == Some(Abs(s'))
  {
    var s' := Step(c.rounds, s, t, v).value;
    var ct, ct' := s.ths[t], s'.ths[t];
    assert ThreadOK(ct);
    AbsUpdate(s.ths, t, ct');
    assert AbsThreads(s.ths)[t] == AbsThread(ct);
    if InCall(ct.th) {
      assert Pcs(SideOf(ct.th), s.ths)[t] == ct.pc;
      if ct.pc.WStore? {
        S.DecHasCredit(SemOf(s, SideOf(ct.th)), Pcs(SideOf(ct.th), s.ths), t);
      }
      CallRefines(c.rounds, s, t, v);
      assert AbsThreads(s.ths)[t := AbsThread(ct)] == AbsThreads(s.ths);
    }
  }

  lemma StepKeepsInv(c: P.Config, s: State, t: nat, v: int)
    requires Inv(c, s) && t < |s.ths| && Step(c.rounds, s, t, v).Some?
    ensures Inv(c, Step(c.rounds, s, t, v).value)
  {
    StepKeepsSems(c.rounds, s, t, v);
    StepRefines(c, s, t, v);
    if Abs(Step(c.rounds, s, t, v).value) != Abs(s) {
      P.StepKeepsInv(c, Abs(s), t, v);
    }
  }

  lemma InitHasInv(c: P.Config, s: State)
    requires Init(c, s)
    ensures Inv(c, s)
  {
    forall t | 0 <= t < |s.ths| ensures ThreadOK(s.ths[t]) && PcOn(FS, s.ths[t]) == PcOn(ES, s.ths[t]) == S.Idle {
      assert AbsThreads(s.ths)[t] == s.ths[t].th;
    }
    S.InitHasInv(c.size, Pcs(FS, s.ths));
    S.InitHasInv(0, Pcs(ES, s.ths));
    P.InitHasInv(c, Abs(s));
  }

  lemma {:induction false} RunHasInv(c: P.Config, tr: seq<State>)
    requires Run(c, tr)
    ensures Inv(c, tr[|tr| - 1])
  {
    if |tr| == 1 {
      InitHasInv(c, tr[0]);
    } else {
      var s := tr[|tr| - 2];
      RunPrefix(c, tr);
      RunHasInv(c, tr[..|tr| - 1]);
      var t: nat, v :| t < |s.ths| && Step(c.rounds, s, t, v) == Some(tr[|tr| - 1]);
      StepKeepsInv(c, s, t, v);
    }
  }

  // ---- main results ----

  lemma NextRefines(c: P.Config, s: State, s': State)
    requires Inv(c, s) && Next(c, s, s')
    ensures Abs(s') == Abs(s) || P.Next(c, Abs(s), Abs(s'))
  {
    var t: nat, v :| t < |s.ths| && Step(c.rounds, s, t, v) == Some(s');
    StepRefines(c, s, t, v);
    assert |Abs(s).ths| == |s.ths|;
  }

  /** Refinement, whole runs: what any run of the composed system reaches is
      what a run of the system with atomic semaphores reaches. */
  lemma {:induction false} RunRefines(c: P.Config, tr: seq<State>) returns (atr: seq<P.State>)
    requires Run(c, tr)
    ensures P.Run(c, atr) && atr[|atr| - 1] == Abs(tr[|tr| - 1]) && |atr| <= |tr|
  {
    if |tr| == 1 {
      atr := [Abs(tr[0])];
    } else {
      var s, s' := tr[|tr| - 2], tr[|tr| - 1];
      RunPrefix(c, tr);
      atr := RunRefines(c, tr[..|tr| - 1]);
      RunHasInv(c, tr[..|tr| - 1]);
      NextRefines(c, s, s');
      if Abs(s') != Abs(s) {
        P.RunExtend(c, atr, Abs(s'));
        atr := atr + [Abs(s')];
      }
    }
  }

  /** So the composed buffer neither overflows nor underflows, and is a stack. */
  lemma ComposedIsSafe(c: P.Config, tr: seq<State>)
    requires Run(c, tr)
    ensures var s := tr[|tr| - 1]; var a := Abs(s); var top := s.b.idx + Sum(a.ths, P.AtFetch);
      && s.b.faults == 0 && 0 <= s.b.idx <= top <= c.size == |s.b.data|
      && Replay(s.b.log) == Some(s.b.data[..top])
      && s.fs.val + s.es.val + Sum(a.ths, P.HoldsSlot) + Sum(a.ths, P.HoldsItem) == c.size
  {
    var atr := RunRefines(c, tr);
    P.NoOverflowNoUnderflow(c, atr);
    P.BufferReplays(c, atr);
  }

  /** Inside the composed program too, both semaphores stay binary. */
  lemma ComposedStaysBinary(c: P.Config, tr: seq<State>)
    requires Run(c, tr)
    ensures var s := tr[|tr| - 1]; s.fs.gate <= 1 && s.fs.mutex <= 1 && s.es.gate <= 1 && s.es.mutex <= 1
  {
    RunHasInv(c, tr);
    S.CritSplit(Pcs(FS, tr[|tr| - 1].ths));
    S.CritSplit(Pcs(ES, tr[|tr| - 1].ths));
  }

  ghost predicate Stuck(c: P.Config, s: State) {
    forall t: nat, v: int | t < |s.ths| :: Step(c.rounds, s, t, v).None?
  }

  ghost predicate AllDone(s: State) {
    forall t | 0 <= t < |s.ths| :: s.ths[t].th.phase == Done
  }

  lemma StuckSem(c: P.Config, s: State, side: Side)
    requires Inv(c, s) && Stuck(c, s)
    ensures var sem := SemOf(s, side);
      && sem.mutex == 1 && sem.gate == Ind(sem.val > 0)
      && forall t | 0 <= t < |s.ths| :: PcOn(side, s.ths[t]) == S.Idle || (PcOn(side, s.ths[t]) == S.WGate && sem.val <= 0)
  {
    var pcs := Pcs(side, s.ths);
    forall t | 0 <= t < |pcs| ensures S.SemStep(SemOf(s, side), pcs[t]).None? {
      assert Step(c.rounds, s, t, 0).None?;
    }
    S.WhenStuck(SemOf(s, side), pcs);
    forall t | 0 <= t < |s.ths|
      ensures PcOn(side, s.ths[t]) == S.Idle || (PcOn(side, s.ths[t]) == S.WGate && SemOf(s, side).val <= 0)
    {
      assert pcs[t] == PcOn(side, s.ths[t]);
    }
  }

  /** The composed system is stuck only where the atomic one is. */
  lemma StuckRefines(c: P.Config, s: State)
    requires Inv(c, s) && Stuck(c, s)
    ensures P.Stuck(c, Abs(s))
    ensures AllDone(s) <==> P.AllDone(Abs(s))
  {
    StuckSem(c, s, FS);
    StuckSem(c, s, ES);
    forall t: nat, v: int | t < |s.ths|
      ensures P.Step(c.rounds, Abs(s), t, v).None? && Abs(s).ths[t] == s.ths[t].th
    {
      assert ThreadOK(s.ths[t]);
      assert Step(c.rounds, s, t, v).None?;
      var side := SideOf(s.ths[t].th);
      assert PcOn(side, s.ths[t]) == S.Idle || (PcOn(side, s.ths[t]) == S.WGate && SemOf(s, side).val <= 0);
    }
    forall t | 0 <= t < |s.ths| ensures Abs(s).ths[t] == s.ths[t].th {
      assert P.Step(c.rounds, Abs(s), t, 0).None?;
    }
  }

  function StepsOf(rounds: nat, ct: CThread): int {
    20 * (rounds - ct.th.i) +
    match ct.th.phase
    case Loop => 1
    case Waiting => 13 + S.StepsLeft(ct.pc)
    case Locking => 13
    case Testing => 12
    case Storing => 11
    case Dropping => 11
    case Bumping => 10
    case Fetching => 10
    case Unlocking => 9
    case Posting => 2 + S.StepsLeft(ct.pc)
    case Done => 20
  }

  function StepsLeft(rounds: nat): CThread -> int {
    ct => StepsOf(rounds, ct)
  }

  lemma BodyStepUsesAStep(rounds: nat, b: Shared, th: Thread, v: int)
    requires BodyStep(rounds, b, th, v).Some?
    ensures var th' := BodyStep(rounds, b, th, v).value.1;
      StepsOf(rounds, CThread(th', Entry(th'.phase))) < StepsOf(rounds, CThread(th, Entry(th.phase)))
  {
  }

  lemma CallUsesAStep(rounds: nat, ct: CThread, sem: S.Sem)
    requires ThreadOK(ct) && InCall(ct.th) && S.SemStep(sem, ct.pc).Some?
    ensures StepsOf(rounds, CallThread(ct.th, S.SemStep(sem, ct.pc).value.1)) < StepsOf(rounds, ct)
  {
    S.StepUsesAStep(sem, ct.pc);
  }

  lemma StepUsesAStep(c: P.Config, s: State, t: nat, v: int)
    requires t < |s.ths| && ThreadOK(s.ths[t]) && Step(c.rounds, s, t, v).Some?
    ensures Sum(Step(c.rounds, s, t, v).value.ths, StepsLeft(c.rounds)) < Sum(s.ths, StepsLeft(c.rounds))
  {
    SumUpdate(s.ths, t, Step(c.rounds, s, t, v).value.ths[t], StepsLeft(c.rounds));
    if InCall(s.ths[t].th) {
      CallUsesAStep(c.rounds, s.ths[t], SemOf(s, SideOf(s.ths[t].th)));
    } else {
      BodyStepUsesAStep(c.rounds, s.b, s.ths[t].th, v);
    }
  }

  lemma StepsLeftNonNegative(c: P.Config, s: State)
    requires Inv(c, s)
    ensures Sum(s.ths, StepsLeft(c.rounds)) >= 0
  {
    forall t | 0 <= t < |s.ths| ensures 0 <= StepsOf(c.rounds, s.ths[t]) {
      assert ThreadOK(s.ths[t]);
      assert P.ThreadOK(c.rounds, s.b, Abs(s).ths[t]);
    }
    SumNonNegative(s.ths, StepsLeft(c.rounds));
  }

  lemma {:induction false} RunsEnd(c: P.Config, tr: seq<State>)
    requires Run(c, tr)
    ensures 0 <= Sum(tr[|tr| - 1].ths, StepsLeft(c.rounds)) <= Sum(tr[0].ths, StepsLeft(c.rounds)) - (|tr| - 1)
  {
    RunHasInv(c, tr);
    StepsLeftNonNegative(c, tr[|tr| - 1]);
    if |tr| == 1 {
    } else {
      var s := tr[|tr| - 2];
      RunPrefix(c, tr);
      RunsEnd(c, tr[..|tr| - 1]);
      RunHasInv(c, tr[..|tr| - 1]);
      var t: nat, v :| t < |s.ths| && Step(c.rounds, s, t, v) == Some(tr[|tr| - 1]);
      assert ThreadOK(s.ths[t]);
      StepUsesAStep(c, s, t, v);
    }
  }

  /** Total correctness of the composed program: every run is bounded by the
      steps its threads start with; and a run that can go no further has
      finished if and only if the inserts exceed the removals by between 0 and
      `size`.  Then both semaphores are as semInit would leave them at their
      final counts, and every value produced was consumed or is in the buffer. */
  lemma TotalCorrectness(c: P.Config, tr: seq<State>)
    requires Run(c, tr) && c.size > 0
    ensures 0 <= Sum(tr[|tr| - 1].ths, StepsLeft(c.rounds)) <= Sum(tr[0].ths, StepsLeft(c.rounds)) - (|tr| - 1)
    ensures var s := tr[|tr| - 1]; Stuck(c, s) ==>
      && (AllDone(s) <==> 0 <= P.Surplus(c) <= c.size)
      && (AllDone(s) ==>
            && s.b.idx == P.Surplus(c) && s.b.lock == 1
            && s.es == S.SemInit(P.Surplus(c)) && s.fs == S.SemInit(c.size - P.Surplus(c))
            && 0 <= s.b.idx <= |s.b.data|
            && s.b.produced == Removals(s.b.log) + multiset(s.b.data[..s.b.idx]))
  {
    RunsEnd(c, tr);
    RunHasInv(c, tr);
    var s := tr[|tr| - 1];
    if Stuck(c, s) {
      var atr := RunRefines(c, tr);
      P.TotalCorrectness(c, atr);
      StuckRefines(c, s);
      StuckSem(c, s, FS);
      StuckSem(c, s, ES);
    }
  }

  /** The source's own case: as many producers as consumers.  Every run that can
      go no further has all threads finished, the buffer empty, the semaphores
      back in their initial state, and consumed equal to produced. */
  lemma EqualNumbersFinish(c: P.Config, tr: seq<State>)
    requires Run(c, tr) && c.size > 0 && c.producers == c.consumers
    requires Stuck(c, tr[|tr| - 1])
    ensures var s := tr[|tr| - 1];
      && AllDone(s) && s.b.idx == 0 && s.b.lock == 1
      && s.fs == tr[0].fs && s.es == tr[0].es
      && s.b.produced == Removals(s.b.log)
  {
    assert c.producers - c.consumers == 0;
    TotalCorrectness(c, tr);
  }

  // ---- the values, against the draws of the run ----

  ghost predicate Follows(c: P.Config, s: State, l: D.Label, s': State) {
    l.t < |s.ths| && Step(c.rounds, s, l.t, l.v) == Some(s')
  }

  /** A run together with the thread and the draw of every step. */
  ghost predicate Labelled(c: P.Config, tr: seq<State>, ls: seq<D.Label>) {
    && |tr| == |ls| + 1 && Init(c, tr[0])
    && forall j | 0 <= j < |ls| :: Follows(c, tr[j], ls[j], tr[j + 1])
  }

  lemma {:induction false} RunHasLabels(c: P.Config, tr: seq<State>) returns (ls: seq<D.Label>)
    requires Run(c, tr)
    ensures Labelled(c, tr, ls)
  {
    if |tr| == 1 {
      ls := [];
    } else {
      var s, s' := tr[|tr| - 2], tr[|tr| - 1];
      RunPrefix(c, tr);
      var before := RunHasLabels(c, tr[..|tr| - 1]);
      var t: nat, v: int :| t < |s.ths| && Step(c.rounds, s, t, v) == Some(s');
      ls := before + [D.Label(t, v)];
      assert Follows(c, s, D.Label(t, v), s');
      forall j | 0 <= j < |ls| ensures Follows(c, tr[j], ls[j], tr[j + 1]) {
        if j < |before| {
          assert Follows(c, tr[..|tr| - 1][j], before[j], tr[..|tr| - 1][j + 1]);
        }
      }
    }
  }

  lemma LabelledIsRun(c: P.Config, tr: seq<State>, ls: seq<D.Label>)
    requires Labelled(c, tr, ls)
    ensures Run(c, tr)
  {
    forall j | 0 <= j < |tr| - 1 ensures Next(c, tr[j], tr[j + 1]) {
      assert Follows(c, tr[j], ls[j], tr[j + 1]);
    }
  }

  function Bodies(ths: seq<CThread>): seq<Thread> {
    seq(|ths|, t requires 0 <= t < |ths| => ths[t].th)
  }

  function ViewOf(s: State): D.View {
    D.View(s.b, Bodies(s.ths))
  }

  function Views(tr: seq<State>): seq<D.View> {
    seq(|tr|, j requires 0 <= j < |tr| => ViewOf(tr[j]))
  }

  /** What the tokens give a thread outside the semaphore calls. */
  lemma ThreadIsSafe(c: P.Config, s: State, t: nat)
    requires Inv(c, s) && t < |s.ths| && !InCall(s.ths[t].th)
    ensures P.ThreadOK(c.rounds, s.b, s.ths[t].th) && P.Safe(s.b, s.ths[t].th)
  {
    assert ThreadOK(s.ths[t]);
    assert Abs(s).ths[t] == s.ths[t].th;
    P.RoomForThread(c, Abs(s), t);
  }

  lemma StepAccounts(c: P.Config, s: State, l: D.Label, s': State)
    requires Inv(c, s) && Follows(c, s, l, s')
    ensures D.Moves(c.rounds, ViewOf(s), l, ViewOf(s'))
  {
    var th := s.ths[l.t].th;
    assert Bodies(s'.ths) == Bodies(s.ths)[l.t := s'.ths[l.t].th];
    if !InCall(th) {
      ThreadIsSafe(c, s, l.t);
      D.BodyStepAccounts(c.rounds, s.b, th, l.v);
    }
  }

  lemma LabelledAccounts(c: P.Config, tr: seq<State>, ls: seq<D.Label>)
    requires Labelled(c, tr, ls)
    ensures D.Run(c.rounds, Views(tr), ls)
  {
    LabelledIsRun(c, tr, ls);
    forall j | 0 <= j < |ls| ensures D.Moves(c.rounds, Views(tr)[j], ls[j], Views(tr)[j + 1]) {
      RunHasInv(c, tr[..j + 1]);
      assert Follows(c, tr[j], ls[j], tr[j + 1]);
      StepAccounts(c, tr[j], ls[j], tr[j + 1]);
    }
  }

  /** Conservation against the draws, in the composed program. */
  lemma DrawnIsAccountedFor(c: P.Config, tr: seq<State>, ls: seq<D.Label>, x: int)
    requires Labelled(c, tr, ls)
    ensures var s := tr[|tr| - 1];
      && s.b.produced == D.Drawn(c.rounds, Views(tr), ls, |ls|)
      && Removals(s.b.log) == D.Taken(Views(tr), ls, |ls|)
      && P.AccountedFor(Abs(s), x)
  {
    LabelledIsRun(c, tr, ls);
    RunHasInv(c, tr);
    P.StackAndLedger(Abs(tr[|tr| - 1]), x);
    LabelledAccounts(c, tr, ls);
    D.Balance(c.rounds, Views(tr), ls);
  }

  /** From the step in which a producer draws to its next draw, through both
      semaphore calls, its item is the value drawn; so that is what it inserts. */
  lemma ProducerKeepsDraw(c: P.Config, tr: seq<State>, ls: seq<D.Label>, t: nat, a: nat, b: nat)
    requires Labelled(c, tr, ls) && a < b <= |ls|
    requires ls[a].t == t && D.DrawsAt(c.rounds, ViewOf(tr[a]), ls[a])
    requires forall j | a < j < b && ls[j].t == t :: !D.DrawsAt(c.rounds, ViewOf(tr[j]), ls[j])
    ensures t < |tr[b].ths| && tr[b].ths[t].th.role == Producer && tr[b].ths[t].th.item == ls[a].v
    ensures b < |ls| && ls[b].t == t && tr[b].ths[t].th.phase == Bumping ==>
      tr[b + 1].b.log == tr[b].b.log + [Inserted(ls[a].v)]
  {
    LabelledAccounts(c, tr, ls);
    var xs := Views(tr);
    forall j | a < j < b && ls[j].t == t ensures !D.DrawsAt(c.rounds, xs[j], ls[j]) {
      assert xs[j] == ViewOf(tr[j]);
    }
    D.ItemIsDrawn(c.rounds, xs, ls, t, a, b);
    if b < |ls| && ls[b].t == t && tr[b].ths[t].th.phase == Bumping {
      D.InsertsTheDraw(c.rounds, xs, ls, t, a, b);
    }
  }

  /** From the step in which a consumer reads the buffer to its next one, its item
      is the value that was removed. */
  lemma ConsumerKeepsItem(c: P.Config, tr: seq<State>, ls: seq<D.Label>, t: nat, a: nat, b: nat)
    requires Labelled(c, tr, ls) && a < b <= |ls|
    requires ls[a].t == t && D.FetchesAt(ViewOf(tr[a]), ls[a])
    requires forall j | a < j < b && ls[j].t == t :: !D.FetchesAt(ViewOf(tr[j]), ls[j])
    ensures t < |tr[b].ths| && tr[b].ths[t].th.role == Consumer
    ensures tr[a + 1].b.log == tr[a].b.log + [Removed(tr[b].ths[t].th.item)]
  {
    LabelledAccounts(c, tr, ls);
    var xs := Views(tr);
    forall j | a < j < b && ls[j].t == t ensures !D.FetchesAt(xs[j], ls[j]) {
      assert xs[j] == ViewOf(tr[j]);
    }
    D.ItemIsTaken(c.rounds, xs, ls, t, a, b);
  }

  /** Where a run of the composed program has finished, what the producers drew is
      what the consumers took and what is left in the buffer; with as many
      producers as consumers, it is what the consumers took. */
  lemma AllDelivered(c: P.Config, tr: seq<State>, ls: seq<D.Label>)
    requires Labelled(c, tr, ls) && AllDone(tr[|tr| - 1])
    ensures var s := tr[|tr| - 1];
      && 0 <= s.b.idx <= |s.b.data|
      && D.Drawn(c.rounds, Views(tr), ls, |ls|) == D.Taken(Views(tr), ls, |ls|) + multiset(s.b.data[..s.b.idx])
  {
    LabelledIsRun(c, tr, ls);
    RunHasInv(c, tr);
    var s := tr[|tr| - 1];
    forall t | 0 <= t < |s.ths| ensures Abs(s).ths[t].phase == Done {
      assert ThreadOK(s.ths[t]);
    }
    P.DoneBalances(c, Abs(s));
    LabelledAccounts(c, tr, ls);
    D.Balance(c.rounds, Views(tr), ls);
  }

  // ---- the C functions, run by one thread that is not interrupted ----

  class Program {
    const buffer: Buffer
    const fs: S.CountSem
    const es: S.CountSem

    /** Between the rounds of all threads. */
    ghost predicate Valid()
      reads this, buffer, fs, es
    {
      && buffer.Valid() && fs != es
      && fs.val >= 0 && fs.State() == S.SemInit(fs.val) && fs.val + es.val == buffer.data.Length
      && es.val == buffer.index && es.State() == S.SemInit(es.val)
    }

    /** main, up to the creation of the threads. */
    constructor (size: nat)
      ensures Valid() && fresh(buffer) && fresh(buffer.data) && buffer.data.Length == size && buffer.Contents() == []
      ensures fresh(fs) && fresh(es) && fs.val == size
    {
      buffer := new Buffer(size);
      fs := new S.CountSem(size);
      es := new S.CountSem(0);
    }

    /** One round of producer(), which draws `value`. */
    method ProduceOne(value: int)
      requires Valid() && fs.val > 0
      modifies fs, es, buffer, buffer.data
      ensures Valid() && buffer.Contents() == old(buffer.Contents()) + [value]
      ensures fs.val == old(fs.val) - 1
    {
      fs.SemWait();
      var overflow := buffer.InsertBuffer(value);
      es.SemPost();
    }

    /** producer(), drawing `values`, with room for all of them. */
    method Produce(values: seq<int>)
      requires Valid() && |values| <= fs.val
      modifies fs, es, buffer, buffer.data
      ensures Valid() && buffer.Contents() == old(buffer.Contents()) + values
      ensures fs.val == old(fs.val) - |values|
    {
      var i := 0;
      while i < |values|
        invariant 0 <= i <= |values| && Valid()
        invariant fs.val == old(fs.val) - i
        invariant buffer.Contents() == old(buffer.Contents()) + values[..i]
      {
        ProduceOne(values[i]);
        assert values[..i + 1] == values[..i] + [values[i]];
        i := i + 1;
      }
      assert values[..i] == values;
    }

    /** One round of consumer(). */
    method ConsumeOne() returns (value: int)
      requires Valid() && es.val > 0
      modifies fs, es, buffer, buffer.data
      ensures Valid() && old(buffer.Contents()) == buffer.Contents() + [value]
      ensures es.val == old(es.val) - 1
    {
      es.SemWait();
      var underflow;
      value, underflow := buffer.DequeueBuffer();
      fs.SemPost();
    }

    /** consumer(), for `rounds` rounds, with an item for each: it gets the items
        inserted last, the last one first. */
    method Consume(rounds: nat) returns (got: seq<int>)
      requires Valid() && rounds <= es.val
      modifies fs, es, buffer, buffer.data
      ensures Valid() && old(buffer.Contents()) == buffer.Contents() + Reversed(got)
      ensures |got| == rounds && es.val == old(es.val) - rounds
    {
      got := [];
      var i := 0;
      while i < rounds
        invariant 0 <= i <= rounds && Valid() && |got| == i
        invariant es.val == old(es.val) - i
        invariant old(buffer.Contents()) == buffer.Contents() + Reversed(got)
      {
        var value := ConsumeOne();
        ReversedAppend(got, value);
        got := got + [value];
        i := i + 1;
      }
    }
  }
}
