/** The readers-writers lock of assignment2/reader-writer2.c: any number of
    readers and writers.  The first reader in takes `wrt` while it holds
    `mutex`; the last reader out, possibly another one, posts it. */
module ReadersWriters {
  import opened Counting
  import opened Steps

  /** `numreader++`, `numreader--` and `cnt = cnt*2` are a load and a store. */
  datatype ReaderPC =
    | RLock | RLoad | RInc | RTest | RWaitWrt | RUnlock
    | Reading
    | RLockAgain | RLoadAgain | RDec | RTestZero | RPostWrt | RUnlockAgain
    | RDone

  datatype WriterPC = WWait | WLoad | WStore | WPost | WDone

  /** `seen`: the value of cnt the reader printed.  `tmp`: the value loaded last,
      of numreader or of cnt. */
  datatype Thread = Reader(rpc: ReaderPC, seen: int, tmp: int) | Writer(wpc: WriterPC, tmp: int)

  datatype Shared = Shared(wrt: nat, mutex: nat, cnt: int, numreader: int)

  const START := Shared(1, 1, 1, 0)

  function ThreadStep(s: Shared, th: Thread): Option<(Shared, Thread)> {
    match th
    case Reader(pc, seen, tmp) => (
      match pc
      case RLock => if s.mutex > 0 then Some((s.(mutex := s.mutex - 1), Reader(RLoad, seen, tmp))) else None
      case RLoad => Some((s, Reader(RInc, seen, s.numreader)))
      case RInc => Some((s.(numreader := tmp + 1), Reader(RTest, seen, tmp)))
      case RTest => Some((s, Reader(if s.numreader == 1 then RWaitWrt else RUnlock, seen, tmp)))
      case RWaitWrt => if s.wrt > 0 then Some((s.(wrt := s.wrt - 1), Reader(RUnlock, seen, tmp))) else None
      case RUnlock => Some((s.(mutex := s.mutex + 1), Reader(Reading, seen, tmp)))
      case Reading => Some((s, Reader(RLockAgain, s.cnt, tmp)))
      case RLockAgain => if s.mutex > 0 then Some((s.(mutex := s.mutex - 1), Reader(RLoadAgain, seen, tmp))) else None
      case RLoadAgain => Some((s, Reader(RDec, seen, s.numreader)))
      case RDec => Some((s.(numreader := tmp - 1), Reader(RTestZero, seen, tmp)))
      case RTestZero => Some((s, Reader(if s.numreader == 0 then RPostWrt else RUnlockAgain, seen, tmp)))
      case RPostWrt => Some((s.(wrt := s.wrt + 1), Reader(RUnlockAgain, seen, tmp)))
      case RUnlockAgain => Some((s.(mutex := s.mutex + 1), Reader(RDone, seen, tmp)))
      case RDone => None)
    case Writer(pc, tmp) => (
      match pc
      case WWait => if s.wrt > 0 then Some((s.(wrt := s.wrt - 1), Writer(WLoad, tmp))) else None
      case WLoad => Some((s, Writer(WStore, s.cnt)))
      case WStore => Some((s.(cnt := tmp * 2), Writer(WPost, tmp)))
      case WPost => Some((s.(wrt := s.wrt + 1), Writer(WDone, tmp)))
      case WDone => None)
  }

  datatype State = State(sh: Shared, ths: seq<Thread>)

  predicate AtStart(th: Thread) {
    match th
    case Reader(pc, _, _) => pc == RLock
    case Writer(pc, _) => pc == WWait
  }

  predicate AtEnd(th: Thread) {
    match th
    case Reader(pc, _, _) => pc == RDone
    case Writer(pc, _) => pc == WDone
  }

  ghost predicate Init(s: State) {
    && s.sh == START
    && forall t | 0 <= t < |s.ths| :: AtStart(s.ths[t])
  }

  function Step(s: State, t: nat): Option<State>
    requires t < |s.ths|
  {
    match ThreadStep(s.sh, s.ths[t])
    case None => None
    case Some((sh, th)) => Some(State(sh, s.ths[t := th]))
  }

  /** A step is one statement of one thread and leaves the others as they are. */
  lemma OneThreadMoves(s: State, t: nat)
    requires t < |s.ths| && Step(s, t).Some?
    ensures var s' := Step(s, t).value;
      && |s'.ths| == |s.ths| && (forall u | 0 <= u < |s.ths| && u != t :: s'.ths[u] == s.ths[u])
      && Some((s'.sh, s'.ths[t])) == ThreadStep(s.sh, s.ths[t])
  {
  }

  ghost predicate Next(s: State, s': State) {
    exists t: nat :: t < |s.ths| && Step(s, t) == Some(s')
  }

  ghost predicate Run(tr: seq<State>) {
    && |tr| > 0
    && Init(tr[0])
    && forall j | 0 <= j < |tr| - 1 :: Next(tr[j], tr[j + 1])
  }

  lemma RunPrefix(tr: seq<State>)
    requires Run(tr) && |tr| > 1
    ensures Run(tr[..|tr| - 1]) && Next(tr[|tr| - 2], tr[|tr| - 1])
  {
  }

  lemma RunExtend(tr: seq<State>, s': State)
    requires Run(tr) && Next(tr[|tr| - 1], s')
    ensures Run(tr + [s'])
  {
  }

  // ---- who holds what ----

  predicate ReaderIn(th: Thread, pcs: set<ReaderPC>) {
    th.Reader? && th.rpc in pcs
  }

  predicate WriterIn(th: Thread, pcs: set<WriterPC>) {
    th.Writer? && th.wpc in pcs
  }

  function HoldsMutex(th: Thread): int {
    Ind(ReaderIn(th, {RLoad, RInc, RTest, RWaitWrt, RUnlock, RLoadAgain, RDec, RTestZero, RPostWrt, RUnlockAgain}))
  }

  /** The reader is counted in numreader. */
  function Counted(th: Thread): int {
    Ind(ReaderIn(th, {RTest, RWaitWrt, RUnlock, Reading, RLockAgain, RLoadAgain, RDec}))
  }

  /** The writer holds wrt. */
  function InSection(th: Thread): int { Ind(WriterIn(th, {WLoad, WStore, WPost})) }

  function InReading(th: Thread): int { Ind(ReaderIn(th, {Reading})) }

  function AtTest(th: Thread): int { Ind(ReaderIn(th, {RTest})) }

  function AtWaitWrt(th: Thread): int { Ind(ReaderIn(th, {RWaitWrt})) }

  function AtTestZero(th: Thread): int { Ind(ReaderIn(th, {RTestZero})) }

  function AtPostWrt(th: Thread): int { Ind(ReaderIn(th, {RPostWrt})) }

  function Updated(th: Thread): int { Ind(WriterIn(th, {WPost, WDone})) }

  /** 1 if the readers as a group hold wrt: there is a counted reader and the
      first one is not still on its way to wrt, or the last one has left and is
      on its way to post it.  The arguments after `numreader` count the readers
      at RWaitWrt, RTest, RTestZero and RPostWrt. */
  function Group(numreader: int, waiting: int, testing: int, zero: int, posting: int): int {
    (if numreader >= 1 then 1 else 0) - waiting - (if numreader == 1 then testing else 0)
    + (if numreader == 0 then zero else 0) + posting
  }

  ghost function GroupHolds(s: State): int {
    Group(s.sh.numreader, Sum(s.ths, AtWaitWrt), Sum(s.ths, AtTest), Sum(s.ths, AtTestZero), Sum(s.ths, AtPostWrt))
  }

  function Pow2(n: nat): nat {
    if n == 0 then 1 else 2 * Pow2(n - 1)
  }

  ghost predicate Locks(s: State) {
    && s.sh.mutex + Sum(s.ths, HoldsMutex) == 1
    && s.sh.numreader == Sum(s.ths, Counted)
    && s.sh.wrt + Sum(s.ths, InSection) + GroupHolds(s) == 1
  }

  ghost predicate ThreadOK(sh: Shared, th: Thread) {
    match th
    case Reader(pc, _, tmp) =>
      && (pc == RWaitWrt ==> sh.numreader == 1) && (pc == RPostWrt ==> sh.numreader == 0)
      && (pc in {RInc, RDec} ==> tmp == sh.numreader)
    case Writer(pc, tmp) => pc == WStore ==> tmp == sh.cnt
  }

  ghost predicate Values(s: State) {
    && (forall t | 0 <= t < |s.ths| :: ThreadOK(s.sh, s.ths[t]))
    && Sum(s.ths, Updated) >= 0
    && s.sh.cnt == Pow2(Sum(s.ths, Updated))
  }

  ghost predicate Inv(s: State) {
    Locks(s) && Values(s)
  }

  lemma {:induction false} CountsFit(ths: seq<Thread>)
    ensures Sum(ths, AtTest) + Sum(ths, AtWaitWrt) + Sum(ths, AtTestZero) + Sum(ths, AtPostWrt) <= Sum(ths, HoldsMutex)
    ensures Sum(ths, AtTest) + Sum(ths, AtWaitWrt) + Sum(ths, InReading) <= Sum(ths, Counted)
    ensures Sum(ths, AtTest) >= 0 && Sum(ths, AtWaitWrt) >= 0 && Sum(ths, AtTestZero) >= 0 && Sum(ths, AtPostWrt) >= 0
    ensures Sum(ths, InSection) >= 0 && Sum(ths, InReading) >= 0 && Sum(ths, Updated) >= 0
  {
    if ths == [] {
    } else {
      CountsFit(ths[1..]);
    }
  }

  /** The holder of the mutex is alone at every test and every wait inside. */
  lemma HolderAlone(s: State, t: nat)
    requires s.sh.mutex + Sum(s.ths, HoldsMutex) == 1 && t < |s.ths| && HoldsMutex(s.ths[t]) == 1
    ensures Sum(s.ths, HoldsMutex) == 1
    ensures Sum(s.ths, AtTest) == AtTest(s.ths[t])
    ensures Sum(s.ths, AtWaitWrt) == AtWaitWrt(s.ths[t])
    ensures Sum(s.ths, AtTestZero) == AtTestZero(s.ths[t])
    ensures Sum(s.ths, AtPostWrt) == AtPostWrt(s.ths[t])
  {
    SumAtLeast(s.ths, t, HoldsMutex);
    var rest := s.ths[t := Writer(WWait, 0)];
    SumUpdate(s.ths, t, rest[t], HoldsMutex);
    SumUpdate(s.ths, t, rest[t], AtTest);
    SumUpdate(s.ths, t, rest[t], AtWaitWrt);
    SumUpdate(s.ths, t, rest[t], AtTestZero);
    SumUpdate(s.ths, t, rest[t], AtPostWrt);
    CountsFit(rest);
  }

  lemma Recount(ths: seq<Thread>, t: nat, th: Thread)
    requires t < |ths|
    ensures Sum(ths[t := th], HoldsMutex) == Sum(ths, HoldsMutex) - HoldsMutex(ths[t]) + HoldsMutex(th)
    ensures Sum(ths[t := th], Counted) == Sum(ths, Counted) - Counted(ths[t]) + Counted(th)
    ensures Sum(ths[t := th], InSection) == Sum(ths, InSection) - InSection(ths[t]) + InSection(th)
    ensures Sum(ths[t := th], AtTest) == Sum(ths, AtTest) - AtTest(ths[t]) + AtTest(th)
    ensures Sum(ths[t := th], AtWaitWrt) == Sum(ths, AtWaitWrt) - AtWaitWrt(ths[t]) + AtWaitWrt(th)
    ensures Sum(ths[t := th], AtTestZero) == Sum(ths, AtTestZero) - AtTestZero(ths[t]) + AtTestZero(th)
    ensures Sum(ths[t := th], AtPostWrt) == Sum(ths, AtPostWrt) - AtPostWrt(ths[t]) + AtPostWrt(th)
  {
    SumUpdate(ths, t, th, HoldsMutex);
    SumUpdate(ths, t, th, Counted);
    SumUpdate(ths, t, th, InSection);
    SumUpdate(ths, t, th, AtTest);
    SumUpdate(ths, t, th, AtWaitWrt);
    SumUpdate(ths, t, th, AtTestZero);
    SumUpdate(ths, t, th, AtPostWrt);
  }

  /** A step without the mutex: at most wrt and the mutex change hands. */
  lemma OutsideStep(sh: Shared, th: Thread)
    requires HoldsMutex(th) == 0 && ThreadStep(sh, th).Some?
    ensures var (sh', th') := ThreadStep(sh, th).value;
      && sh'.mutex + HoldsMutex(th') == sh.mutex + HoldsMutex(th)
      && sh'.numreader == sh.numreader && Counted(th') == Counted(th)
      && sh'.wrt + InSection(th') == sh.wrt + InSection(th)
      && AtTest(th') == AtWaitWrt(th') == AtTestZero(th') == AtPostWrt(th') == 0
      && AtTest(th) == AtWaitWrt(th) == AtTestZero(th) == AtPostWrt(th) == 0
  {
  }

  /** A step with the mutex: wrt moves between the lock and the group. */
  lemma InsideStep(sh: Shared, th: Thread)
    requires HoldsMutex(th) == 1 && ThreadStep(sh, th).Some? && ThreadOK(sh, th)
    requires sh.numreader >= Counted(th)
    ensures var (sh', th') := ThreadStep(sh, th).value;
      && sh'.mutex + HoldsMutex(th') == sh.mutex + HoldsMutex(th)
      && sh'.numreader - Counted(th') == sh.numreader - Counted(th)
      && InSection(th') == InSection(th) == 0
      && sh'.wrt + Group(sh'.numreader, AtWaitWrt(th'), AtTest(th'), AtTestZero(th'), AtPostWrt(th'))
         == sh.wrt + Group(sh.numreader, AtWaitWrt(th), AtTest(th), AtTestZero(th), AtPostWrt(th))
  {
  }

  lemma InsideKeepsLocks(s: State, t: nat)
    requires Locks(s) && t < |s.ths| && ThreadOK(s.sh, s.ths[t]) && HoldsMutex(s.ths[t]) == 1 && Step(s, t).Some?
    ensures Locks(Step(s, t).value)
  {
    Recount(s.ths, t, Step(s, t).value.ths[t]);
    HolderAlone(s, t);
    SumAtLeast(s.ths, t, Counted);
    InsideStep(s.sh, s.ths[t]);
  }

  lemma StepKeepsLocks(s: State, t: nat)
    requires Locks(s) && t < |s.ths| && ThreadOK(s.sh, s.ths[t]) && Step(s, t).Some?
    ensures Locks(Step(s, t).value)
  {
    if HoldsMutex(s.ths[t]) == 1 {
      InsideKeepsLocks(s, t);
    } else {
      Recount(s.ths, t, Step(s, t).value.ths[t]);
      OutsideStep(s.sh, s.ths[t]);
    }
  }

  lemma GroupIsOneOrNone(s: State)
    requires Locks(s)
    ensures 0 <= GroupHolds(s)
    ensures s.sh.wrt + Sum(s.ths, InSection) <= 1
  {
    CountsFit(s.ths);
  }

  /** A reader in the reading section: the group holds wrt. */
  lemma ReadingHoldsWrt(s: State, t: nat)
    requires Inv(s) && t < |s.ths| && InReading(s.ths[t]) == 1
    ensures s.sh.wrt == 0 && Sum(s.ths, InSection) == 0
  {
    CountsFit(s.ths);
    SumAtLeast(s.ths, t, InReading);
    assert forall u | 0 <= u < |s.ths| && AtWaitWrt(s.ths[u]) > 0 :: ThreadOK(s.sh, s.ths[u]);
    if Sum(s.ths, AtWaitWrt) > 0 {
      var u := SumWitness(s.ths, AtWaitWrt);
      assert false;
    }
  }

  lemma SectionIsExclusive(s: State, t: nat, u: nat)
    requires Locks(s) && t < |s.ths| && u < |s.ths| && t != u
    ensures InSection(s.ths[t]) + InSection(s.ths[u]) <= 1
    ensures HoldsMutex(s.ths[t]) + HoldsMutex(s.ths[u]) <= 1
  {
    GroupIsOneOrNone(s);
    SumAtLeastTwo(s.ths, t, u, InSection);
    SumAtLeastTwo(s.ths, t, u, HoldsMutex);
  }

  lemma StepKeepsThread(sh: Shared, th: Thread, u: Thread)
    requires ThreadOK(sh, th) && ThreadOK(sh, u) && ThreadStep(sh, th).Some?
    requires InSection(th) + InSection(u) <= 1 && HoldsMutex(th) + HoldsMutex(u) <= 1
    ensures ThreadOK(ThreadStep(sh, th).value.0, u)
  {
  }

  /** Only a writer's store changes cnt, and doubles it. */
  lemma StepMovesCnt(sh: Shared, th: Thread)
    requires ThreadOK(sh, th) && ThreadStep(sh, th).Some?
    ensures var (sh', th') := ThreadStep(sh, th).value;
      || (sh'.cnt == sh.cnt && Updated(th') == Updated(th))
      || (sh'.cnt == 2 * sh.cnt && Updated(th') == Updated(th) + 1)
    ensures ThreadOK(ThreadStep(sh, th).value.0, ThreadStep(sh, th).value.1)
  {
  }

  lemma OthersStayOK(s: State, t: nat, u: nat)
    requires Inv(s) && t < |s.ths| && u < |s.ths| && u != t && Step(s, t).Some?
    ensures ThreadOK(Step(s, t).value.sh, s.ths[u])
  {
    assert ThreadOK(s.sh, s.ths[t]) && ThreadOK(s.sh, s.ths[u]);
    SectionIsExclusive(s, t, u);
    StepKeepsThread(s.sh, s.ths[t], s.ths[u]);
  }

  lemma StepKeepsValues(s: State, t: nat)
    requires Inv(s) && t < |s.ths| && Step(s, t).Some?
    ensures Values(Step(s, t).value)
  {
    var s' := Step(s, t).value;
    assert ThreadOK(s.sh, s.ths[t]);
    StepMovesCnt(s.sh, s.ths[t]);
    SumUpdate(s.ths, t, s'.ths[t], Updated);
    forall u | 0 <= u < |s'.ths| ensures ThreadOK(s'.sh, s'.ths[u]) {
      if u != t {
        OthersStayOK(s, t, u);
      }
    }
  }

  lemma StepKeepsInv(s: State, t: nat)
    requires Inv(s) && t < |s.ths| && Step(s, t).Some?
    ensures Inv(Step(s, t).value)
  {
    assert ThreadOK(s.sh, s.ths[t]);
    StepKeepsLocks(s, t);
    StepKeepsValues(s, t);
  }

  lemma InitHasInv(s: State)
    requires Init(s)
    ensures Inv(s)
  {
    SumZero(s.ths, HoldsMutex);
    SumZero(s.ths, Counted);
    SumZero(s.ths, InSection);
    SumZero(s.ths, AtTest);
    SumZero(s.ths, AtWaitWrt);
    SumZero(s.ths, AtTestZero);
    SumZero(s.ths, AtPostWrt);
    SumZero(s.ths, Updated);
  }

  lemma {:induction false} RunHasInv(tr: seq<State>)
    requires Run(tr)
    ensures Inv(tr[|tr| - 1])
  {
    if |tr| == 1 {
      InitHasInv(tr[0]);
    } else {
      var s := tr[|tr| - 2];
      RunPrefix(tr);
      RunHasInv(tr[..|tr| - 1]);
      var t: nat :| t < |s.ths| && Step(s, t) == Some(tr[|tr| - 1]);
      StepKeepsInv(s, t);
    }
  }

  // ---- main results, for every run ----

  /** Exclusion with group ownership: `wrt` is free, or one writer has it, or
      the readers as a group have it; so there is at most one writer in its
      section, and none while any reader reads. */
  lemma Exclusion(tr: seq<State>, t: nat, u: nat)
    requires Run(tr)
    ensures var s := tr[|tr| - 1];
      && s.sh.wrt + Sum(s.ths, InSection) + GroupHolds(s) == 1 && 0 <= GroupHolds(s) <= 1
      && (t < |s.ths| && u < |s.ths| && InSection(s.ths[t]) == 1 ==>
            InReading(s.ths[u]) == 0 && (InSection(s.ths[u]) == 1 ==> t == u))
  {
    RunHasInv(tr);
    var s := tr[|tr| - 1];
    GroupIsOneOrNone(s);
    CountsFit(s.ths);
    if t < |s.ths| && u < |s.ths| && InSection(s.ths[t]) == 1 {
      SumAtLeast(s.ths, t, InSection);
      if InReading(s.ths[u]) == 1 {
        ReadingHoldsWrt(s, u);
      } else if t != u {
        SectionIsExclusive(s, t, u);
      }
    }
  }

  /** Readers come first: a reader waits for wrt only while a writer has it or it
      is free to take, never while another reader reads. */
  lemma ReaderWaitsForWriterOnly(tr: seq<State>, t: nat)
    requires Run(tr) && t < |tr[|tr| - 1].ths| && ReaderIn(tr[|tr| - 1].ths[t], {RWaitWrt})
    ensures var s := tr[|tr| - 1];
      && s.sh.numreader == 1 && Sum(s.ths, InReading) == 0
      && s.sh.wrt + Sum(s.ths, InSection) == 1
  {
    RunHasInv(tr);
    var s := tr[|tr| - 1];
    assert ThreadOK(s.sh, s.ths[t]);
    HolderAlone(s, t);
    CountsFit(s.ths);
  }

  lemma MutexHolderMoves(s: State, u: nat)
    requires Inv(s) && u < |s.ths| && InReading(s.ths[u]) == 1 && s.sh.mutex == 0
    ensures exists h :: 0 <= h < |s.ths| && HoldsMutex(s.ths[h]) == 1 && Step(s, h).Some?
  {
    var h := SumWitness(s.ths, HoldsMutex);
    assert ThreadOK(s.sh, s.ths[h]);
    if ReaderIn(s.ths[h], {RWaitWrt}) {
      HolderAlone(s, h);
      CountsFit(s.ths);
      SumAtLeast(s.ths, u, InReading);
      assert false;
    }
    assert HoldsMutex(s.ths[h]) == 1 && Step(s, h).Some?;
  }

  /** While somebody reads, no writer can start, whereas every reader that has
      not finished can go on, at once or as soon as the holder of the mutex, who
      can go on, lets it. */
  lemma ReaderPreference(tr: seq<State>, u: nat, t: nat)
    requires Run(tr) && u < |tr[|tr| - 1].ths| && InReading(tr[|tr| - 1].ths[u]) == 1
    requires t < |tr[|tr| - 1].ths| && !AtEnd(tr[|tr| - 1].ths[t])
    ensures var s := tr[|tr| - 1];
      if s.ths[t].Writer? then s.ths[t].wpc == WWait && Step(s, t).None?
      else
        || Step(s, t).Some?
        || (s.ths[t].rpc in {RLock, RLockAgain} && exists h :: 0 <= h < |s.ths| && HoldsMutex(s.ths[h]) == 1 && Step(s, h).Some?)
  {
    RunHasInv(tr);
    var s := tr[|tr| - 1];
    ReadingHoldsWrt(s, u);
    SumAtLeast(s.ths, t, InSection);
    if s.sh.mutex == 0 {
      MutexHolderMoves(s, u);
    }
    if ReaderIn(s.ths[t], {RWaitWrt}) {
      ReaderWaitsForWriterOnly(tr, t);
      SumAtLeast(s.ths, u, InReading);
    }
  }

  /** No update is lost: cnt has been doubled once by each writer past its store. */
  lemma NoLostUpdate(tr: seq<State>)
    requires Run(tr)
    ensures var s := tr[|tr| - 1]; Sum(s.ths, Updated) >= 0 && s.sh.cnt == Pow2(Sum(s.ths, Updated))
  {
    RunHasInv(tr);
  }

  ghost predicate Stuck(s: State) {
    forall t | 0 <= t < |s.ths| :: Step(s, t).None?
  }

  ghost predicate AllDone(s: State) {
    forall t | 0 <= t < |s.ths| :: AtEnd(s.ths[t])
  }

  /** Only readers that have not begun may still move. */
  ghost predicate Quiet(s: State) {
    forall t | 0 <= t < |s.ths| :: ReaderIn(s.ths[t], {RLock}) || ThreadStep(s.sh, s.ths[t]).None?
  }

  lemma NoWriterInside(s: State)
    requires Locks(s) && Quiet(s)
    ensures Sum(s.ths, InSection) == 0
  {
    CountsFit(s.ths);
    if Sum(s.ths, InSection) > 0 {
      var t := SumWitness(s.ths, InSection);
      assert false;
    }
  }

  /** A first reader that waits for wrt while holding the mutex can go on: no
      writer holds wrt, and the group does not have it yet. */
  lemma MutexIsFree(s: State)
    requires Inv(s) && Quiet(s)
    ensures s.sh.mutex == 1
  {
    NoWriterInside(s);
    SumNonNegative(s.ths, HoldsMutex);
    if s.sh.mutex == 0 {
      var t := SumWitness(s.ths, HoldsMutex);
      assert ThreadOK(s.sh, s.ths[t]);
      HolderAlone(s, t);
      assert false;
    }
  }

  /** If the only threads that may still move are readers that have not begun,
      then nobody is inside and the locks are free: waiting for `wrt` with
      `mutex` held cannot deadlock. */
  lemma NobodyInside(s: State)
    requires Inv(s) && Quiet(s)
    ensures forall t | 0 <= t < |s.ths| :: ReaderIn(s.ths[t], {RLock}) || AtEnd(s.ths[t])
    ensures s.sh.mutex == 1 && s.sh.wrt == 1 && s.sh.numreader == 0
  {
    NoWriterInside(s);
    MutexIsFree(s);
    forall t | 0 <= t < |s.ths| ensures ReaderIn(s.ths[t], {RLock}) || AtEnd(s.ths[t]) || WriterIn(s.ths[t], {WWait}) {
      SumAtLeast(s.ths, t, HoldsMutex);
    }
    SumZero(s.ths, Counted);
    CountsFit(s.ths);
    assert forall t | 0 <= t < |s.ths| :: WriterIn(s.ths[t], {WWait}) ==> ThreadStep(s.sh, s.ths[t]).None?;
  }

  /** Steps a thread can still take. */
  function StepsLeft(th: Thread): int {
    match th
    case Reader(pc, _, _) => (
      match pc
      case RLock => 13
      case RLoad => 12
      case RInc => 11
      case RTest => 10
      case RWaitWrt => 9
      case RUnlock => 8
      case Reading => 7
      case RLockAgain => 6
      case RLoadAgain => 5
      case RDec => 4
      case RTestZero => 3
      case RPostWrt => 2
      case RUnlockAgain => 1
      case RDone => 0)
    case Writer(pc, _) => (
      match pc
      case WWait => 4
      case WLoad => 3
      case WStore => 2
      case WPost => 1
      case WDone => 0)
  }

  lemma ThreadUsesAStep(sh: Shared, th: Thread)
    requires ThreadStep(sh, th).Some?
    ensures StepsLeft(ThreadStep(sh, th).value.1) < StepsLeft(th)
  {
  }

  lemma NextUsesAStep(s: State, s': State)
    requires Next(s, s')
    ensures Sum(s'.ths, StepsLeft) < Sum(s.ths, StepsLeft)
  {
    var t: nat :| t < |s.ths| && Step(s, t) == Some(s');
    ThreadUsesAStep(s.sh, s.ths[t]);
    SumUpdate(s.ths, t, s'.ths[t], StepsLeft);
  }

  lemma {:induction false} RunsEnd(tr: seq<State>)
    requires Run(tr)
    ensures 0 <= Sum(tr[|tr| - 1].ths, StepsLeft) <= Sum(tr[0].ths, StepsLeft) - (|tr| - 1)
  {
    SumNonNegative(tr[|tr| - 1].ths, StepsLeft);
    if |tr| == 1 {
    } else {
      RunPrefix(tr);
      RunsEnd(tr[..|tr| - 1]);
      NextUsesAStep(tr[|tr| - 2], tr[|tr| - 1]);
    }
  }

  function IsWriter(th: Thread): int { Ind(th.Writer?) }

  lemma UpdatedAreWriters(ths: seq<Thread>)
    requires forall t | 0 <= t < |ths| :: ths[t].Reader? || ths[t].wpc == WDone
    ensures Sum(ths, Updated) == Sum(ths, IsWriter)
  {
    SumMonotone(ths, Updated, IsWriter);
    SumMonotone(ths, IsWriter, Updated);
  }

  /** Every run is bounded, and one that can go no further has every thread
      finished, no reader counted, the locks free, and cnt doubled once per
      writer. */
  lemma TotalCorrectness(tr: seq<State>)
    requires Run(tr)
    ensures 0 <= Sum(tr[|tr| - 1].ths, StepsLeft) <= Sum(tr[0].ths, StepsLeft) - (|tr| - 1)
    ensures var s := tr[|tr| - 1]; Stuck(s) ==>
      && AllDone(s) && s.sh.numreader == 0 && s.sh.wrt == 1 && s.sh.mutex == 1
      && Sum(s.ths, IsWriter) >= 0 && s.sh.cnt == Pow2(Sum(s.ths, IsWriter))
  {
    RunsEnd(tr);
    RunHasInv(tr);
    var s := tr[|tr| - 1];
    if Stuck(s) {
      forall t | 0 <= t < |s.ths| ensures ThreadStep(s.sh, s.ths[t]).None? {
        assert Step(s, t).None?;
      }
      NobodyInside(s);
      UpdatedAreWriters(s.ths);
    }
  }

  // ---- the C functions, run by one thread that is not interrupted ----

  function Own(x: (Shared, Thread)): Option<(Shared, Thread)> {
    ThreadStep(x.0, x.1)
  }

  /** The thread's own steps lead from one state to the other. */
  ghost predicate Alone(sh: Shared, th: Thread, sh': Shared, th': Thread) {
    Leads(Own, (sh, th), (sh', th'))
  }

  lemma AloneMore(sh: Shared, th: Thread, sh1: Shared, th1: Thread)
    requires Alone(sh, th, sh1, th1) && ThreadStep(sh1, th1).Some?
    ensures var (sh', th') := ThreadStep(sh1, th1).value; Alone(sh, th, sh', th')
  {
    LeadsMore(Own, (sh, th), (sh1, th1));
  }

  lemma CountAlone(a: (Shared, Thread), sh: Shared, seen: int, tmp: int)
    requires Leads(Own, a, (sh, Reader(RLock, seen, tmp))) && sh.mutex > 0
    ensures Leads(Own, a, (sh.(mutex := sh.mutex - 1, numreader := sh.numreader + 1), Reader(RTest, seen, sh.numreader)))
  {
    var locked, n := sh.(mutex := sh.mutex - 1), sh.numreader;
    AloneMore(a.0, a.1, sh, Reader(RLock, seen, tmp));
    AloneMore(a.0, a.1, locked, Reader(RLoad, seen, tmp));
    AloneMore(a.0, a.1, locked, Reader(RInc, seen, n));
  }

  lemma GateAlone(a: (Shared, Thread), sh: Shared, seen: int, tmp: int)
    requires Leads(Own, a, (sh, Reader(RTest, seen, tmp))) && (sh.numreader == 1 ==> sh.wrt > 0)
    ensures Leads(Own, a, (sh.(mutex := sh.mutex + 1, wrt := sh.wrt - Ind(sh.numreader == 1)), Reader(Reading, seen, tmp)))
  {
    AloneMore(a.0, a.1, sh, Reader(RTest, seen, tmp));
    if sh.numreader == 1 {
      AloneMore(a.0, a.1, sh, Reader(RWaitWrt, seen, tmp));
    }
    AloneMore(a.0, a.1, sh.(wrt := sh.wrt - Ind(sh.numreader == 1)), Reader(RUnlock, seen, tmp));
  }

  lemma EnterAlone(sh: Shared)
    requires sh.mutex > 0 && (sh.numreader == 0 ==> sh.wrt > 0)
    ensures Alone(sh, Reader(RLock, 0, 0), sh.(numreader := sh.numreader + 1, wrt := sh.wrt - Ind(sh.numreader == 0)),
                  Reader(Reading, 0, sh.numreader))
  {
    var th := Reader(RLock, 0, 0);
    LeadsZero(Own, (sh, th));
    CountAlone((sh, th), sh, 0, 0);
    GateAlone((sh, th), sh.(mutex := sh.mutex - 1, numreader := sh.numreader + 1), 0, sh.numreader);
  }

  lemma UncountAlone(a: (Shared, Thread), sh: Shared, seen: int, tmp: int)
    requires Leads(Own, a, (sh, Reader(RLockAgain, seen, tmp))) && sh.mutex > 0
    ensures Leads(Own, a, (sh.(mutex := sh.mutex - 1, numreader := sh.numreader - 1), Reader(RTestZero, seen, sh.numreader)))
  {
    var locked, n := sh.(mutex := sh.mutex - 1), sh.numreader;
    AloneMore(a.0, a.1, sh, Reader(RLockAgain, seen, tmp));
    AloneMore(a.0, a.1, locked, Reader(RLoadAgain, seen, tmp));
    AloneMore(a.0, a.1, locked, Reader(RDec, seen, n));
  }

  lemma ReleaseAlone(a: (Shared, Thread), sh: Shared, seen: int, tmp: int)
    requires Leads(Own, a, (sh, Reader(RTestZero, seen, tmp)))
    ensures Leads(Own, a, (sh.(mutex := sh.mutex + 1, wrt := sh.wrt + Ind(sh.numreader == 0)), Reader(RDone, seen, tmp)))
  {
    AloneMore(a.0, a.1, sh, Reader(RTestZero, seen, tmp));
    if sh.numreader == 0 {
      AloneMore(a.0, a.1, sh, Reader(RPostWrt, seen, tmp));
    }
    AloneMore(a.0, a.1, sh.(wrt := sh.wrt + Ind(sh.numreader == 0)), Reader(RUnlockAgain, seen, tmp));
  }

  lemma ExitAlone(sh: Shared)
    requires sh.mutex > 0
    ensures Alone(sh, Reader(RLockAgain, 0, 0), sh.(numreader := sh.numreader - 1, wrt := sh.wrt + Ind(sh.numreader == 1)),
                  Reader(RDone, 0, sh.numreader))
  {
    var th := Reader(RLockAgain, 0, 0);
    LeadsZero(Own, (sh, th));
    UncountAlone((sh, th), sh, 0, 0);
    ReleaseAlone((sh, th), sh.(mutex := sh.mutex - 1, numreader := sh.numreader - 1), 0, sh.numreader);
  }

  /** All of reader(): it has seen cnt, and leaves the lock as it found it. */
  lemma ReaderAlone(sh: Shared)
    requires sh.mutex > 0 && (sh.numreader == 0 ==> sh.wrt > 0)
    ensures Alone(sh, Reader(RLock, 0, 0), sh, Reader(RDone, sh.cnt, sh.numreader + 1))
  {
    var th, n := Reader(RLock, 0, 0), sh.numreader;
    var inside := sh.(numreader := n + 1, wrt := sh.wrt - Ind(n == 0));
    EnterAlone(sh);
    AloneMore(sh, th, inside, Reader(Reading, 0, n));
    UncountAlone((sh, th), inside, sh.cnt, n);
    ReleaseAlone((sh, th), inside.(mutex := sh.mutex - 1, numreader := n), sh.cnt, n + 1);
  }

  lemma WriteAlone(sh: Shared)
    requires sh.wrt > 0
    ensures Alone(sh, Writer(WWait, 0), sh.(cnt := sh.cnt * 2), Writer(WDone, sh.cnt))
  {
    var th, taken := Writer(WWait, 0), sh.(wrt := sh.wrt - 1);
    LeadsZero(Own, (sh, th));
    AloneMore(sh, th, sh, th);
    AloneMore(sh, th, taken, Writer(WLoad, 0));
    AloneMore(sh, th, taken, Writer(WStore, sh.cnt));
    AloneMore(sh, th, taken.(cnt := sh.cnt * 2), Writer(WPost, sh.cnt));
  }

  class Lock {
    var wrt: nat
    var mutex: nat
    var cnt: int
    var numreader: int

    ghost function State(): Shared
      reads this
    {
      Shared(wrt, mutex, cnt, numreader)
    }

    constructor ()
      ensures State() == START
    {
      wrt := 1;
      mutex := 1;
      cnt := 1;
      numreader := 0;
    }

    /** reader() up to its reading section. */
    method ReaderEnter()
      requires mutex > 0 && (numreader == 0 ==> wrt > 0)
      modifies this
      ensures Alone(old(State()), Reader(RLock, 0, 0), State(), Reader(Reading, 0, old(numreader)))
      ensures numreader == old(numreader) + 1 && mutex == old(mutex) && cnt == old(cnt)
      ensures wrt == old(wrt) - Ind(old(numreader) == 0)
    {
      EnterAlone(State());
      mutex := mutex - 1;
      numreader := numreader + 1;
      if numreader == 1 {
        wrt := wrt - 1;
      }
      mutex := mutex + 1;
    }

    /** reader() after its reading section. */
    method ReaderExit()
      requires mutex > 0
      modifies this
      ensures Alone(old(State()), Reader(RLockAgain, 0, 0), State(), Reader(RDone, 0, old(numreader)))
      ensures numreader == old(numreader) - 1 && mutex == old(mutex) && cnt == old(cnt)
      ensures wrt == old(wrt) + Ind(numreader == 0)
    {
      ExitAlone(State());
      mutex := mutex - 1;
      numreader := numreader - 1;
      if numreader == 0 {
        wrt := wrt + 1;
      }
      mutex := mutex + 1;
    }

    method Write()
      requires wrt > 0
      modifies this
      ensures Alone(old(State()), Writer(WWait, 0), State(), Writer(WDone, old(cnt)))
      ensures cnt == 2 * old(cnt) && wrt == old(wrt) && mutex == old(mutex) && numreader == old(numreader)
    {
      WriteAlone(State());
      wrt := wrt - 1;
      cnt := cnt * 2;
      wrt := wrt + 1;
    }
  }
}
