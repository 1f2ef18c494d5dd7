/** What assignment2/prod_con.c and assignment2/correctQ1.c share: the buffer,
    its mutex, and the statements of producer and consumer other than the
    semaphore calls.  The critical section is split so that it is atomic only
    thanks to the mutex. */
module BoundedBuffer {
  import opened Counting

  datatype Role = Producer | Consumer

  /** Where a thread stands in its loop.
      Loop: the `while (i++ < LOOPS)` test; Waiting, Posting: the semaphore calls;
      Testing: the index test of insertbuffer or dequeuebuffer;
      Storing, Bumping: `buffer[buffer_index] = value`, then the increment;
      Dropping, Fetching: the decrement, then the read of `buffer[buffer_index]`. */
  datatype Phase =
    | Loop | Waiting | Locking | Testing
    | Storing | Bumping
    | Dropping | Fetching
    | Unlocking | Posting | Done

  datatype Thread = Thread(role: Role, phase: Phase, i: nat, item: int)

  datatype Event = Inserted(v: int) | Removed(v: int)

  /** `lock`: buffer_mutex, 1 when free.  The last three fields record history:
      the inserts and removals so far in order, the values producers generated,
      and the number of overflows, underflows and out-of-range accesses. */
  datatype Shared = Shared(lock: nat, data: seq<int>, idx: int,
                           log: seq<Event>, produced: multiset<int>, faults: nat)

  /** One step of a thread outside the semaphore calls.  `v` is the value a
      producer draws at the top of its loop. */
  function BodyStep(rounds: nat, b: Shared, th: Thread, v: int): Option<(Shared, Thread)> {
    match th.phase
    case Loop =>
      if th.i >= rounds then Some((b, th.(phase := Done, i := th.i + 1)))
      else if th.role == Producer then
        Some((b.(produced := b.produced + multiset{v}), th.(phase := Waiting, i := th.i + 1, item := v)))
      else Some((b, th.(phase := Waiting, i := th.i + 1)))
    case Waiting => None
    case Locking => if b.lock > 0 then Some((b.(lock := b.lock - 1), th.(phase := Testing))) else None
    case Testing =>
      if th.role == Producer then
        if b.idx < |b.data| then Some((b, th.(phase := Storing)))
        else Some((b.(faults := b.faults + 1), th.(phase := Unlocking)))
      else
        if b.idx > 0 then Some((b, th.(phase := Dropping)))
        else Some((b.(faults := b.faults + 1), th.(phase := Unlocking, item := 0)))
    case Storing =>
      if 0 <= b.idx < |b.data| then Some((b.(data := b.data[b.idx := th.item]), th.(phase := Bumping)))
      else Some((b.(faults := b.faults + 1), th.(phase := Unlocking)))
    case Bumping =>
      Some((b.(idx := b.idx + 1, log := b.log + [Inserted(th.item)]), th.(phase := Unlocking)))
    case Dropping => Some((b.(idx := b.idx - 1), th.(phase := Fetching)))
    case Fetching =>
      if 0 <= b.idx < |b.data| then
        Some((b.(log := b.log + [Removed(b.data[b.idx])]), th.(phase := Unlocking, item := b.data[b.idx])))
      else Some((b.(faults := b.faults + 1), th.(phase := Unlocking)))
    case Unlocking => Some((b.(lock := b.lock + 1), th.(phase := Posting)))
    case Posting => None
    case Done => None
  }

  // ---- what the log means ----

  /** The stack that the log leaves, or None if some removal did not return the
      item inserted last and not yet removed. */
  ghost function Replay(log: seq<Event>): Option<seq<int>> {
    if log == [] then Some([])
    else
      match Replay(log[..|log| - 1])
      case None => None
      case Some(stack) =>
        match log[|log| - 1]
        case Inserted(v) => Some(stack + [v])
        case Removed(v) => if stack != [] && stack[|stack| - 1] == v then Some(stack[..|stack| - 1]) else None
  }

  function InsertedBy(e: Event): multiset<int> {
    match e
    case Inserted(v) => multiset{v}
    case Removed(_) => multiset{}
  }

  function RemovedBy(e: Event): multiset<int> {
    match e
    case Inserted(_) => multiset{}
    case Removed(v) => multiset{v}
  }

  /** The values inserted by the first n events. */
  ghost function InsertsUpTo(log: seq<Event>, n: nat): multiset<int>
    requires n <= |log|
  {
    if n == 0 then multiset{} else InsertsUpTo(log, n - 1) + InsertedBy(log[n - 1])
  }

  ghost function RemovalsUpTo(log: seq<Event>, n: nat): multiset<int>
    requires n <= |log|
  {
    if n == 0 then multiset{} else RemovalsUpTo(log, n - 1) + RemovedBy(log[n - 1])
  }

  ghost function Inserts(log: seq<Event>): multiset<int> {
    InsertsUpTo(log, |log|)
  }

  /** The values consumers have received. */
  ghost function Removals(log: seq<Event>): multiset<int> {
    RemovalsUpTo(log, |log|)
  }

  lemma {:induction false} SamePrefix(log: seq<Event>, e: Event, n: nat)
    requires n <= |log|
    ensures InsertsUpTo(log + [e], n) == InsertsUpTo(log, n)
    ensures RemovalsUpTo(log + [e], n) == RemovalsUpTo(log, n)
  {
    if n == 0 {
    } else {
      SamePrefix(log, e, n - 1);
    }
  }

  lemma LogGrows(log: seq<Event>, e: Event)
    ensures Inserts(log + [e]) == Inserts(log) + InsertedBy(e)
    ensures Removals(log + [e]) == Removals(log) + RemovedBy(e)
  {
    SamePrefix(log, e, |log|);
  }

  lemma LogInsert(log: seq<Event>, stack: seq<int>, v: int)
    requires Replay(log) == Some(stack)
    ensures Replay(log + [Inserted(v)]) == Some(stack + [v])
  {
  }

  lemma LogRemove(log: seq<Event>, stack: seq<int>, v: int)
    requires Replay(log) == Some(stack + [v])
    ensures Replay(log + [Removed(v)]) == Some(stack)
  {
  }

  lemma InsertsAppend(log: seq<Event>, e: Event, x: int)
    ensures Inserts(log + [e])[x] == Inserts(log)[x] + Ind(e == Inserted(x))
  {
    LogGrows(log, e);
  }

  lemma BagAppend(s: seq<int>, v: int)
    ensures multiset(s + [v]) == multiset(s) + multiset{v}
  {
  }

  /** What the last event did to the stack. */
  lemma ReplayLast(rest: seq<Event>, last: Event)
    requires Replay(rest + [last]).Some?
    ensures Replay(rest).Some?
    ensures var stack, stack' := Replay(rest).value, Replay(rest + [last]).value;
      multiset(stack') + RemovedBy(last) == multiset(stack) + InsertedBy(last)
  {
    var log := rest + [last];
    assert log[..|log| - 1] == rest;
    var stack := Replay(rest).value;
    match last
    case Inserted(v) =>
      BagAppend(stack, v);
    case Removed(v) =>
      BagAppend(stack[..|stack| - 1], v);
      assert stack == stack[..|stack| - 1] + [v];
  }

  lemma BagsBalance(ins: multiset<int>, rem: multiset<int>, m: multiset<int>,
                    i: multiset<int>, r: multiset<int>, m': multiset<int>)
    requires ins == rem + m && m' + r == m + i
    ensures ins + i == rem + r + m'
  {
    forall x ensures (ins + i)[x] == (rem + r + m')[x] {
      assert (m' + r)[x] == (m + i)[x];
      assert (rem + m)[x] == ins[x];
    }
  }

  lemma {:induction false} ReplayBalances(log: seq<Event>)
    requires Replay(log).Some?
    ensures Inserts(log) == Removals(log) + multiset(Replay(log).value)
  {
    if log == [] {
    } else {
      var rest, last := log[..|log| - 1], log[|log| - 1];
      assert log == rest + [last];
      ReplayLast(rest, last);
      ReplayBalances(rest);
      LogGrows(rest, last);
      BagsBalance(Inserts(rest), Removals(rest), multiset(Replay(rest).value),
                  InsertedBy(last), RemovedBy(last), multiset(Replay(log).value));
    }
  }

  lemma ReplayBalancesAt(log: seq<Event>, stack: seq<int>, x: int)
    requires Replay(log) == Some(stack)
    ensures Inserts(log)[x] == Removals(log)[x] + multiset(stack)[x]
  {
    ReplayBalances(log);
  }

  /** The count of overflows, underflows and accesses out of range is right. */
  lemma FaultsAreCounted(rounds: nat, b: Shared, th: Thread, v: int)
    requires BodyStep(rounds, b, th, v).Some?
    ensures var inRange := 0 <= b.idx < |b.data|;
      BodyStep(rounds, b, th, v).value.0.faults == b.faults + Ind(
        || (th.phase == Testing && if th.role == Producer then b.idx >= |b.data| else b.idx <= 0)
        || (th.phase in {Storing, Fetching} && !inRange))
  {
  }

  /** Statements left in the critical section before the unlock. */
  function SectionLeft(p: Phase): nat {
    match p
    case Testing => 3
    case Storing => 2
    case Dropping => 2
    case Bumping => 1
    case Fetching => 1
    case _ => 0
  }

  /** The critical section run without interruption. */
  function Section(b: Shared, th: Thread): (Shared, Thread)
    decreases SectionLeft(th.phase)
  {
    if SectionLeft(th.phase) == 0 then (b, th)
    else
      var (b', th') := BodyStep(0, b, th, 0).value;
      Section(b', th')
  }

  /** The split steps add up to insertbuffer ... */
  lemma SectionInserts(b: Shared, th: Thread)
    requires th.role == Producer && th.phase == Testing && 0 <= b.idx <= |b.data|
    ensures var (b', th') := Section(b, th);
      && th' == th.(phase := Unlocking) && 0 <= b'.idx <= |b'.data|
      && b'.faults == b.faults + Ind(b.idx == |b.data|)
      && b'.data[..b'.idx] == (if b.idx == |b.data| then b.data[..b.idx] else b.data[..b.idx] + [th.item])
  {
    if b.idx < |b.data| {
      var b1 := b.(data := b.data[b.idx := th.item]);
      assert Section(b, th) == Section(b, th.(phase := Storing)) == Section(b1, th.(phase := Bumping));
      var (b2, th2) := BodyStep(0, b1, th.(phase := Bumping), 0).value;
      assert Section(b1, th.(phase := Bumping)) == Section(b2, th2) == (b2, th2);
    }
  }

  /** ... and to dequeuebuffer, which returns the last item. */
  lemma SectionDequeues(b: Shared, th: Thread)
    requires th.role == Consumer && th.phase == Testing && 0 <= b.idx <= |b.data|
    ensures var (b', th') := Section(b, th);
      && th'.phase == Unlocking && 0 <= b'.idx <= |b'.data|
      && b'.faults == b.faults + Ind(b.idx == 0)
      && (b.idx == 0 ==> b'.idx == 0 && th'.item == 0)
      && (b.idx > 0 ==> b.data[..b.idx] == b'.data[..b'.idx] + [th'.item])
  {
    if b.idx > 0 {
      var b1 := b.(idx := b.idx - 1);
      assert Section(b, th) == Section(b, th.(phase := Dropping)) == Section(b1, th.(phase := Fetching));
      var (b2, th2) := BodyStep(0, b1, th.(phase := Fetching), 0).value;
      assert Section(b1, th.(phase := Fetching)) == Section(b2, th2) == (b2, th2);
      assert b.data[..b.idx] == b1.data[..b1.idx] + [b1.data[b1.idx]];
    }
  }

  function Reversed(s: seq<int>): seq<int> {
    if s == [] then [] else Reversed(s[1..]) + [s[0]]
  }

  lemma {:induction false} ReversedAppend(s: seq<int>, v: int)
    ensures Reversed(s + [v]) == [v] + Reversed(s)
  {
    if s == [] {
      assert s + [v] == [v] && [v][1..] == [];
    } else {
      assert (s + [v])[1..] == s[1..] + [v];
      ReversedAppend(s[1..], v);
    }
  }

  // ---- insertbuffer and dequeuebuffer as called by one thread ----

  class Buffer {
    const data: array<int>
    var index: nat

    ghost predicate Valid()
      reads this
    {
      index <= data.Length
    }

    ghost function Contents(): seq<int>
      reads this, data
      requires Valid()
    {
      data[..index]
    }

    constructor (size: nat)
      ensures Valid() && fresh(data) && data.Length == size && Contents() == []
    {
      data := new int[size];
      index := 0;
    }

    /** `overflow`: the branch that prints "Buffer overflow". */
    method InsertBuffer(value: int) returns (overflow: bool)
      requires Valid()
      modifies this, data
      ensures Valid()
      ensures overflow <==> |old(Contents())| == data.Length
      ensures Contents() == if overflow then old(Contents()) else old(Contents()) + [value]
    {
      if index < data.Length {
        data[index] := value;
        index := index + 1;
        overflow := false;
      } else {
        overflow := true;
      }
    }

    /** `underflow`: the branch that prints "Buffer underflow" and returns 0. */
    method DequeueBuffer() returns (value: int, underflow: bool)
      requires Valid()
      modifies this
      ensures Valid()
      ensures underflow <==> old(Contents()) == []
      ensures underflow ==> value == 0 && Contents() == []
      ensures !underflow ==> old(Contents()) == Contents() + [value]
    {
      if index > 0 {
        index := index - 1;
        value := data[index];
        underflow := false;
      } else {
        value := 0;
        underflow := true;
      }
    }
  }
}
