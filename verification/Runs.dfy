/** Runs of a transition system: its steps, one after the other. */
module Runs {
  /** The state a sequence of steps leads to. */
  function Run<S(!new), A(!new)>(next: (S, A) -> S, s: S, steps: seq<A>): S {
    if steps == [] then s else next(Run(next, s, steps[..|steps| - 1]), steps[|steps| - 1])
  }

  lemma {:induction false} RunConcat<S(!new), A(!new)>(next: (S, A) -> S, s: S, a: seq<A>, b: seq<A>)
    ensures Run(next, s, a + b) == Run(next, Run(next, s, a), b)
  {
    if b == [] {
      assert a + b == a;
    } else {
      assert (a + b)[..|a + b| - 1] == a + b[..|b| - 1];
      RunConcat(next, s, a, b[..|b| - 1]);
    }
  }

  lemma RunLast<S(!new), A(!new)>(next: (S, A) -> S, s: S, front: seq<A>, last: A)
    ensures Run(next, s, front + [last]) == next(Run(next, s, front), last)
  {
    assert (front + [last])[..|front|] == front;
  }

  lemma RunOne<S(!new), A(!new)>(next: (S, A) -> S, s: S, a: A)
    ensures Run(next, s, [a]) == next(s, a)
  {
    assert [a] == [] + [a];
    RunLast(next, s, [], a);
  }

  lemma RunFirst<S(!new), A(!new)>(next: (S, A) -> S, s: S, a: A, rest: seq<A>)
    ensures Run(next, s, [a] + rest) == Run(next, next(s, a), rest)
  {
    RunConcat(next, s, [a], rest);
    RunOne(next, s, a);
  }

  lemma RunTwo<S(!new), A(!new)>(next: (S, A) -> S, s: S, a: A, b: A)
    ensures Run(next, s, [a, b]) == next(next(s, a), b)
  {
    assert [a, b] == [a] + [b];
    RunLast(next, s, [a], b);
    RunOne(next, s, a);
  }

  lemma RunThree<S(!new), A(!new)>(next: (S, A) -> S, s: S, a: A, b: A, c: A)
    ensures Run(next, s, [a, b, c]) == next(next(next(s, a), b), c)
  {
    assert [a, b, c] == [a, b] + [c];
    RunLast(next, s, [a, b], c);
    RunTwo(next, s, a, b);
  }

  lemma RunFour<S(!new), A(!new)>(next: (S, A) -> S, s: S, a: A, b: A, c: A, d: A)
    ensures Run(next, s, [a, b, c, d]) == next(next(next(next(s, a), b), c), d)
  {
    assert [a, b, c, d] == [a, b, c] + [d];
    RunLast(next, s, [a, b, c], d);
    RunThree(next, s, a, b, c);
  }

  lemma RunFive<S(!new), A(!new)>(next: (S, A) -> S, s: S, a: A, b: A, c: A, d: A, e: A)
    ensures Run(next, s, [a, b, c, d, e]) == next(next(next(next(next(s, a), b), c), d), e)
  {
    assert [a, b, c, d, e] == [a, b, c, d] + [e];
    RunLast(next, s, [a, b, c, d], e);
    RunFour(next, s, a, b, c, d);
  }
}
