/** What a protocol can reach, step by step. */
module Runs {

  /** A path of steps of the relation `next`. */
  ghost predicate Path<S(!new)>(run: seq<S>, next: (S, S) -> bool, s: S, s': S) {
    |run| > 0 && run[0] == s && run[|run| - 1] == s' && forall i | 0 <= i < |run| - 1 :: next(run[i], run[i + 1])
  }

  ghost predicate Reaches<S(!new)>(next: (S, S) -> bool, s: S, s': S) { exists run :: Path(run, next, s, s') }

  lemma ReachSelf<S(!new)>(next: (S, S) -> bool, s: S)
    ensures Reaches(next, s, s)
  {
    assert Path([s], next, s, s);
  }

  lemma ReachNext<S(!new)>(next: (S, S) -> bool, s: S, middle: S, end: S)
    requires Reaches(next, s, middle) && next(middle, end)
    ensures Reaches(next, s, end)
  {
    var run :| Path(run, next, s, middle);
    var longer := run + [end];
    forall i | 0 <= i < |longer| - 1
      ensures next(longer[i], longer[i + 1])
    {
      if i < |run| - 1 { assert next(run[i], run[i + 1]); }
    }
    assert Path(longer, next, s, end);
  }
}
