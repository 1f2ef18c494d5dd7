/** What becomes of the values, in both bounded buffers: the values the producers
    draw, the events of the log, and the values the consumers end up with.  The
    draws are labels of the run, not part of the state. */
module Delivery {
  import opened Counting
  import opened BoundedBuffer

  /** A step of a run: which thread made it, and the value that `rand` would
      give it. */
  datatype Label = Label(t: nat, v: int)

  /** The buffer and the threads, without the semaphores. */
  datatype View = View(b: Shared, ths: seq<Thread>)

  /** The producer enters a round of its loop, and draws a value. */
  predicate Draws(rounds: nat, th: Thread) {
    th.role == Producer && th.phase == Loop && th.i < rounds
  }

  // ---- what one step does to the values ----

  /** A thread's item changes only where it draws or fetches; a draw, and nothing
      else, adds to `produced`; a bump logs the thread's item as inserted, a fetch
      logs the new item as removed, and nothing else is logged. */
  ghost predicate Accounts(rounds: nat, b: Shared, th: Thread, v: int, b': Shared, th': Thread) {
    && th'.role == th.role && (th.phase == Bumping ==> th.role == Producer) && (th.phase == Fetching ==> th.role == Consumer)
    && b'.produced == b.produced + (if Draws(rounds, th) then multiset{v} else multiset{})
    && (Draws(rounds, th) ==> th'.item == v)
    && (!Draws(rounds, th) && th.phase != Fetching ==> th'.item == th.item)
    && b'.log == b.log + (if th.phase == Bumping then [Inserted(th.item)]
                          else if th.phase == Fetching then [Removed(th'.item)] else [])
  }

  ghost predicate Moves(rounds: nat, x: View, l: Label, x': View) {
    && l.t < |x.ths| == |x'.ths|
    && x'.ths == x.ths[l.t := x'.ths[l.t]]
    && Accounts(rounds, x.b, x.ths[l.t], l.v, x'.b, x'.ths[l.t])
  }

  ghost predicate Run(rounds: nat, xs: seq<View>, ls: seq<Label>) {
    && |xs| == |ls| + 1
    && xs[0].b.log == [] && xs[0].b.produced == multiset{}
    && forall j | 0 <= j < |ls| :: Moves(rounds, xs[j], ls[j], xs[j + 1])
  }

  /** Outside the index tests that cannot fail, the statements of the loops do. */
  lemma BodyStepAccounts(rounds: nat, b: Shared, th: Thread, v: int)
    requires BodyStep(rounds, b, th, v).Some?
    requires th.phase == Testing && th.role == Consumer ==> b.idx > 0
    requires th.phase == Fetching ==> 0 <= b.idx < |b.data| && th.role == Consumer
    requires th.phase == Bumping ==> th.role == Producer
    ensures var (b', th') := BodyStep(rounds, b, th, v).value; Accounts(rounds, b, th, v, b', th')
  {
  }

  // ---- over whole runs ----

  /** The values drawn in the first n steps: v_j for every step j in which a
      producer enters a round. */
  ghost function Drawn(rounds: nat, xs: seq<View>, ls: seq<Label>, n: nat): multiset<int>
    requires n <= |ls| < |xs|
  {
    if n == 0 then multiset{}
    else
      Drawn(rounds, xs, ls, n - 1)
      + (if DrawsAt(rounds, xs[n - 1], ls[n - 1]) then multiset{ls[n - 1].v} else multiset{})
  }

  ghost predicate DrawsAt(rounds: nat, x: View, l: Label) {
    l.t < |x.ths| && Draws(rounds, x.ths[l.t])
  }

  ghost predicate FetchesAt(x: View, l: Label) {
    l.t < |x.ths| && x.ths[l.t].phase == Fetching
  }

  /** The values taken in the first n steps: what a consumer holds after each step
      in which it reads the buffer. */
  ghost function Taken(xs: seq<View>, ls: seq<Label>, n: nat): multiset<int>
    requires n <= |ls| < |xs|
  {
    if n == 0 then multiset{}
    else Taken(xs, ls, n - 1) + TakenBy(xs[n - 1], ls[n - 1], xs[n])
  }

  ghost function TakenBy(x: View, l: Label, x': View): multiset<int> {
    if FetchesAt(x, l) && l.t < |x'.ths| then multiset{x'.ths[l.t].item} else multiset{}
  }

  lemma MovesAt(rounds: nat, xs: seq<View>, ls: seq<Label>, j: nat)
    requires Run(rounds, xs, ls) && j < |ls|
    ensures Moves(rounds, xs[j], ls[j], xs[j + 1])
  {
  }

  lemma {:induction false} SameThreads(rounds: nat, xs: seq<View>, ls: seq<Label>, b: nat)
    requires Run(rounds, xs, ls) && b < |xs|
    ensures |xs[b].ths| == |xs[0].ths|
  {
    if b == 0 {
    } else {
      SameThreads(rounds, xs, ls, b - 1);
      MovesAt(rounds, xs, ls, b - 1);
    }
  }

  /** One step of the two balances. */
  lemma ProducedStep(rounds: nat, xs: seq<View>, ls: seq<Label>, j: nat)
    requires Run(rounds, xs, ls) && j < |ls|
    ensures xs[j + 1].b.produced == xs[j].b.produced + (if DrawsAt(rounds, xs[j], ls[j]) then multiset{ls[j].v} else multiset{})
  {
    MovesAt(rounds, xs, ls, j);
  }

  lemma RemovalsStep(rounds: nat, xs: seq<View>, ls: seq<Label>, j: nat)
    requires Run(rounds, xs, ls) && j < |ls|
    ensures Removals(xs[j + 1].b.log) == Removals(xs[j].b.log) + TakenBy(xs[j], ls[j], xs[j + 1])
  {
    MovesAt(rounds, xs, ls, j);
    var th, th' := xs[j].ths[ls[j].t], xs[j + 1].ths[ls[j].t];
    if th.phase == Bumping {
      LogGrows(xs[j].b.log, Inserted(th.item));
    } else if th.phase == Fetching {
      LogGrows(xs[j].b.log, Removed(th'.item));
    } else {
      assert xs[j + 1].b.log == xs[j].b.log;
    }
  }

  lemma {:induction false} DrawnBalance(rounds: nat, xs: seq<View>, ls: seq<Label>, n: nat)
    requires Run(rounds, xs, ls) && n <= |ls|
    ensures xs[n].b.produced == Drawn(rounds, xs, ls, n)
  {
    if n == 0 {
    } else {
      DrawnBalance(rounds, xs, ls, n - 1);
      ProducedStep(rounds, xs, ls, n - 1);
    }
  }

  /** `rem` lists the removals at each point of the run. */
  lemma {:induction false} TakenSum(xs: seq<View>, ls: seq<Label>, rem: seq<multiset<int>>, n: nat)
    requires |xs| == |rem| == |ls| + 1 && n <= |ls| && rem[0] == multiset{}
    requires forall j | 0 <= j < |ls| :: rem[j + 1] == rem[j] + TakenBy(xs[j], ls[j], xs[j + 1])
    ensures rem[n] == Taken(xs, ls, n)
  {
    if n == 0 {
    } else {
      TakenSum(xs, ls, rem, n - 1);
      assert rem[n - 1 + 1] == rem[n - 1] + TakenBy(xs[n - 1], ls[n - 1], xs[n - 1 + 1]);
    }
  }

  lemma TakenBalance(rounds: nat, xs: seq<View>, ls: seq<Label>)
    requires Run(rounds, xs, ls)
    ensures Removals(xs[|ls|].b.log) == Taken(xs, ls, |ls|)
  {
    ghost var rem := seq(|xs|, j requires 0 <= j < |xs| => Removals(xs[j].b.log));
    forall j | 0 <= j < |ls| ensures rem[j + 1] == rem[j] + TakenBy(xs[j], ls[j], xs[j + 1]) {
      RemovalsStep(rounds, xs, ls, j);
    }
    TakenSum(xs, ls, rem, |ls|);
  }

  /** `produced` holds the values drawn, and the log's removals are the values
      taken. */
  lemma Balance(rounds: nat, xs: seq<View>, ls: seq<Label>)
    requires Run(rounds, xs, ls)
    ensures xs[|ls|].b.produced == Drawn(rounds, xs, ls, |ls|)
    ensures Removals(xs[|ls|].b.log) == Taken(xs, ls, |ls|)
  {
    DrawnBalance(rounds, xs, ls, |ls|);
    TakenBalance(rounds, xs, ls);
  }

  /** From the draw on, until that thread draws again, its item is the value
      drawn. */
  lemma {:induction false} ItemIsDrawn(rounds: nat, xs: seq<View>, ls: seq<Label>, t: nat, a: nat, b: nat)
    requires Run(rounds, xs, ls) && a < b <= |ls| && ls[a].t == t && DrawsAt(rounds, xs[a], ls[a])
    requires forall j | a < j < b && ls[j].t == t :: !DrawsAt(rounds, xs[j], ls[j])
    ensures t < |xs[b].ths| && xs[b].ths[t].role == Producer && xs[b].ths[t].item == ls[a].v
  {
    MovesAt(rounds, xs, ls, b - 1);
    if b == a + 1 {
    } else {
      ItemIsDrawn(rounds, xs, ls, t, a, b - 1);
    }
  }

  /** So what a producer inserts is what it drew in this round. */
  lemma InsertsTheDraw(rounds: nat, xs: seq<View>, ls: seq<Label>, t: nat, a: nat, b: nat)
    requires Run(rounds, xs, ls) && a < b < |ls| && ls[a].t == t && DrawsAt(rounds, xs[a], ls[a])
    requires forall j | a < j < b && ls[j].t == t :: !DrawsAt(rounds, xs[j], ls[j])
    requires ls[b].t == t && t < |xs[b].ths| && xs[b].ths[t].phase == Bumping
    ensures xs[b + 1].b.log == xs[b].b.log + [Inserted(ls[a].v)]
  {
    ItemIsDrawn(rounds, xs, ls, t, a, b);
    MovesAt(rounds, xs, ls, b);
  }

  /** From the fetch on, until that thread fetches again, its item is the value
      that the fetch removed. */
  lemma {:induction false} ItemIsTaken(rounds: nat, xs: seq<View>, ls: seq<Label>, t: nat, a: nat, b: nat)
    requires Run(rounds, xs, ls) && a < b <= |ls| && ls[a].t == t && FetchesAt(xs[a], ls[a])
    requires forall j | a < j < b && ls[j].t == t :: !FetchesAt(xs[j], ls[j])
    ensures t < |xs[b].ths| && xs[b].ths[t].role == Consumer
    ensures xs[a + 1].b.log == xs[a].b.log + [Removed(xs[b].ths[t].item)]
  {
    MovesAt(rounds, xs, ls, b - 1);
    if b == a + 1 {
    } else {
      ItemIsTaken(rounds, xs, ls, t, a, b - 1);
    }
  }

  /** Nothing else is logged: each event is a producer's insert or a consumer's
      removal. */
  lemma LogGrowsByTheStep(rounds: nat, xs: seq<View>, ls: seq<Label>, b: nat)
    requires Run(rounds, xs, ls) && b < |ls| && ls[b].t < |xs[b].ths|
    requires xs[b].ths[ls[b].t].phase !in {Bumping, Fetching}
    ensures xs[b + 1].b.log == xs[b].b.log
  {
    MovesAt(rounds, xs, ls, b);
  }
}
