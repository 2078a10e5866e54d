/** Counting the elements of a sequence that satisfy a predicate.
    The protocol invariants bound numbers of threads and numbers of waker entries. */
module Counting {

  datatype Option<T> = None | Some(value: T)

  function Bit(b: bool): nat { if b then 1 else 0 }

  ghost function Count<A>(xs: seq<A>, p: A -> bool): nat
  {
    if xs == [] then 0 else Count(xs[..|xs| - 1], p) + Bit(p(xs[|xs| - 1]))
  }

  lemma CountSnoc<A>(xs: seq<A>, x: A, p: A -> bool)
    ensures Count(xs + [x], p) == Count(xs, p) + Bit(p(x))
  {
    assert (xs + [x])[..|xs|] == xs;
  }

  lemma {:induction false} CountCons<A>(xs: seq<A>, p: A -> bool)
    requires xs != []
    ensures Count(xs, p) == Bit(p(xs[0])) + Count(xs[1..], p)
  {
    var n := |xs| - 1;
    if n > 0 {
      CountCons(xs[..n], p);
      assert xs[..n][1..] == xs[1..][..n - 1];
    }
  }

  /** Replacing one element moves the count by the difference of that element alone. */
  lemma {:induction false} CountUpdate<A>(xs: seq<A>, i: nat, x: A, p: A -> bool)
    requires i < |xs|
    ensures Count(xs[i := x], p) + Bit(p(xs[i])) == Count(xs, p) + Bit(p(x))
  {
    var n := |xs| - 1;
    if i == n {
      assert xs[i := x][..n] == xs[..n];
    } else {
      assert xs[i := x][..n] == xs[..n][i := x];
      CountUpdate(xs[..n], i, x, p);
    }
  }

  lemma {:induction false} CountPositive<A>(xs: seq<A>, i: nat, p: A -> bool)
    requires i < |xs| && p(xs[i])
    ensures Count(xs, p) >= 1
  {
    if i < |xs| - 1 { CountPositive(xs[..|xs| - 1], i, p); }
  }

  lemma {:induction false} CountWitness<A>(xs: seq<A>, p: A -> bool) returns (i: nat)
    requires Count(xs, p) >= 1
    ensures i < |xs| && p(xs[i])
  {
    if p(xs[|xs| - 1]) { i := |xs| - 1; } else { i := CountWitness(xs[..|xs| - 1], p); }
  }

  lemma {:induction false} CountZero<A>(xs: seq<A>, p: A -> bool)
    requires forall i | 0 <= i < |xs| :: !p(xs[i])
    ensures Count(xs, p) == 0
  {
    if xs != [] { CountZero(xs[..|xs| - 1], p); }
  }

  /** Two distinct elements satisfying `p` are counted twice. */
  lemma {:induction false} CountTwo<A>(xs: seq<A>, i: nat, j: nat, p: A -> bool)
    requires i < j < |xs| && p(xs[i]) && p(xs[j])
    ensures Count(xs, p) >= 2
  {
    if j == |xs| - 1 { CountPositive(xs[..j], i, p); } else { CountTwo(xs[..|xs| - 1], i, j, p); }
  }

  // ----- copies of one element -----

  function Copies<A(==)>(queue: seq<A>, x: A): nat { multiset(queue)[x] }

  lemma CopiesSnoc<A>(queue: seq<A>, y: A, x: A)
    ensures Copies(queue + [y], x) == Copies(queue, x) + Bit(y == x)
  {
  }

  lemma CopiesSplit<A>(queue: seq<A>, n: nat, x: A)
    requires n <= |queue|
    ensures Copies(queue, x) == Copies(queue[..n], x) + Copies(queue[n..], x)
  {
    assert queue == queue[..n] + queue[n..];
  }

  lemma CopiesFirst<A>(queue: seq<A>, x: A)
    requires queue != []
    ensures Copies(queue[..1], x) == Bit(queue[0] == x)
    ensures Copies(queue, x) == Bit(queue[0] == x) + Copies(queue[1..], x)
  {
    assert queue[..1] == [queue[0]];
    assert queue == [queue[0]] + queue[1..];
  }
}
