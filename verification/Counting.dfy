/** Weighted counts over the threads of a system.  An invariant such as
    "tokens in the semaphore + tokens in flight inside threads = constant" is a
    sum of one weight per thread; a step changes one thread and so one term. */
module Counting {

  datatype Option<+T> = None | Some(value: T)

  /** 1 if the condition holds, else 0. */
  function Ind(b: bool): nat {
    if b then 1 else 0
  }

  /** The positive part of x. */
  function Pos(x: int): nat {
    if x > 0 then x else 0
  }

  ghost function Sum<T>(s: seq<T>, w: T -> int): int {
    if s == [] then 0 else w(s[0]) + Sum(s[1..], w)
  }

  lemma {:induction false} SumUpdate<T>(s: seq<T>, i: nat, x: T, w: T -> int)
    requires i < |s|
    ensures Sum(s[i := x], w) == Sum(s, w) - w(s[i]) + w(x)
  {
    if i == 0 {
      assert s[0 := x][1..] == s[1..];
    } else {
      assert s[i := x][1..] == s[1..][i - 1 := x];
      SumUpdate(s[1..], i - 1, x, w);
    }
  }

  lemma {:induction false} SumMonotone<T>(s: seq<T>, v: T -> int, w: T -> int)
    requires forall i | 0 <= i < |s| :: v(s[i]) <= w(s[i])
    ensures Sum(s, v) <= Sum(s, w)
  {
    if s == [] {
    } else {
      assert forall i | 0 <= i < |s[1..]| :: s[1..][i] == s[i + 1];
      SumMonotone(s[1..], v, w);
    }
  }

  lemma {:induction false} SumNonNegative<T>(s: seq<T>, w: T -> int)
    requires forall i | 0 <= i < |s| :: 0 <= w(s[i])
    ensures 0 <= Sum(s, w)
  {
    if s == [] {
    } else {
      assert forall i | 0 <= i < |s[1..]| :: s[1..][i] == s[i + 1];
      SumNonNegative(s[1..], w);
    }
  }

  lemma {:induction false} SumZero<T>(s: seq<T>, w: T -> int)
    requires forall i | 0 <= i < |s| :: w(s[i]) == 0
    ensures Sum(s, w) == 0
  {
    if s == [] {
    } else {
      assert forall i | 0 <= i < |s[1..]| :: s[1..][i] == s[i + 1];
      SumZero(s[1..], w);
    }
  }

  /** With non-negative weights, no single term exceeds the sum. */
  lemma {:induction false} SumAtLeast<T>(s: seq<T>, i: nat, w: T -> int)
    requires i < |s|
    requires forall j | 0 <= j < |s| :: 0 <= w(s[j])
    ensures w(s[i]) <= Sum(s, w)
  {
    assert forall j | 0 <= j < |s[1..]| :: s[1..][j] == s[j + 1];
    if i == 0 {
      SumNonNegative(s[1..], w);
    } else {
      SumAtLeast(s[1..], i - 1, w);
    }
  }

  /** Two different positions contribute separately. */
  lemma {:induction false} SumAtLeastTwo<T>(s: seq<T>, i: nat, j: nat, w: T -> int)
    requires i < |s| && j < |s| && i != j
    requires forall k | 0 <= k < |s| :: 0 <= w(s[k])
    ensures w(s[i]) + w(s[j]) <= Sum(s, w)
  {
    assert forall k | 0 <= k < |s[1..]| :: s[1..][k] == s[k + 1];
    if i == 0 {
      SumAtLeast(s[1..], j - 1, w);
    } else if j == 0 {
      SumAtLeast(s[1..], i - 1, w);
    } else {
      SumAtLeastTwo(s[1..], i - 1, j - 1, w);
    }
  }

  /** A positive sum has a positive term. */
  lemma {:induction false} SumWitness<T>(s: seq<T>, w: T -> int) returns (i: nat)
    requires Sum(s, w) > 0
    ensures i < |s| && w(s[i]) > 0
  {
    if w(s[0]) > 0 {
      i := 0;
    } else {
      var j := SumWitness(s[1..], w);
      i := j + 1;
    }
  }

  lemma {:induction false} SumConcat<T>(a: seq<T>, b: seq<T>, w: T -> int)
    ensures Sum(a + b, w) == Sum(a, w) + Sum(b, w)
  {
    if a == [] {
      assert a + b == b;
    } else {
      assert (a + b)[1..] == a[1..] + b;
      SumConcat(a[1..], b, w);
    }
  }
}
