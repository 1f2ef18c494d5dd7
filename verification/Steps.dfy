/** What a thread does when nothing interrupts it: its own steps, one after
    another. */
module Steps {
  import opened Counting

  ghost predicate Chain<S>(step: S -> Option<S>, tr: seq<S>) {
    |tr| > 0 && forall j | 0 <= j < |tr| - 1 :: step(tr[j]) == Some(tr[j + 1])
  }

  /** Some number of steps leads from a to b. */
  ghost predicate Leads<S(!new)>(step: S -> Option<S>, a: S, b: S) {
    exists tr :: Chain(step, tr) && tr[0] == a && tr[|tr| - 1] == b
  }

  lemma LeadsZero<S(!new)>(step: S -> Option<S>, a: S)
    ensures Leads(step, a, a)
  {
    assert Chain(step, [a]) && [a][0] == a;
  }

  lemma LeadsMore<S(!new)>(step: S -> Option<S>, a: S, b: S)
    requires Leads(step, a, b) && step(b).Some?
    ensures Leads(step, a, step(b).value)
  {
    var tr :| Chain(step, tr) && tr[0] == a && tr[|tr| - 1] == b;
    var longer := tr + [step(b).value];
    assert Chain(step, longer) && longer[0] == a && longer[|longer| - 1] == step(b).value;
  }

  lemma GoesOn<S>(step: S -> Option<S>, tr: seq<S>, j: nat)
    requires Chain(step, tr) && j < |tr| - 1
    ensures step(tr[j]) == Some(tr[j + 1])
  {
  }

  lemma {:induction false} ChainsAgree<S>(step: S -> Option<S>, p: seq<S>, q: seq<S>, j: nat)
    requires Chain(step, p) && Chain(step, q) && p[0] == q[0] && j < |p| && j < |q|
    ensures p[j] == q[j]
  {
    if j == 0 {
    } else {
      ChainsAgree(step, p, q, j - 1);
      GoesOn(step, p, j - 1);
      GoesOn(step, q, j - 1);
    }
  }

  /** A thread that stops does so in one state only. */
  lemma LeadsToOneEnd<S(!new)>(step: S -> Option<S>, a: S, b: S, c: S)
    requires Leads(step, a, b) && Leads(step, a, c) && step(b).None? && step(c).None?
    ensures b == c
  {
    var p :| Chain(step, p) && p[0] == a && p[|p| - 1] == b;
    var q :| Chain(step, q) && q[0] == a && q[|q| - 1] == c;
    if |p| < |q| {
      GoesOn(step, q, |p| - 1);
      ChainsAgree(step, p, q, |p| - 1);
    } else if |q| < |p| {
      GoesOn(step, p, |q| - 1);
      ChainsAgree(step, p, q, |q| - 1);
    } else {
      ChainsAgree(step, p, q, |p| - 1);
    }
  }
}
