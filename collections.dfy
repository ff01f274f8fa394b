/**
 * Two generic ways of building a sequence one element at a time, as the
 * pipeline's loops do: from the positions 0, 1, ... and from an input list.
 */
module Collections {

  /** `[f(0), f(1), ..., f(n - 1)]`, built by appending at the end. */
  function Tabulate<T>(f: nat -> T, n: nat): seq<T>
  {
    if n == 0 then [] else Tabulate(f, n - 1) + [f(n - 1)]
  }

  /** Element `i` of a tabulation is `f(i)`. */
  lemma {:induction false} TabulateAt<T>(f: nat -> T, n: nat)
    ensures |Tabulate(f, n)| == n
    ensures forall i :: 0 <= i < n ==> Tabulate(f, n)[i] == f(i)
  {
    if n > 0 {
      TabulateAt(f, n - 1);
    }
  }

  /** The same, for one position. */
  lemma TabulateIndex<T>(f: nat -> T, n: nat, i: nat)
    requires i < n
    ensures |Tabulate(f, n)| == n && Tabulate(f, n)[i] == f(i)
  {
    TabulateAt(f, n);
  }

  /** Appending `f(n)` to the first `n` elements gives the first `n + 1`. */
  lemma TabulateNext<T>(f: nat -> T, n: nat, xs: seq<T>, x: T)
    requires xs == Tabulate(f, n) && x == f(n)
    ensures xs + [x] == Tabulate(f, n + 1)
  {
  }

  /** `[f(x) for x in xs]`, built by appending at the end. */
  function Map<T, U>(f: T -> U, xs: seq<T>): seq<U>
  {
    if xs == [] then [] else Map(f, xs[..|xs| - 1]) + [f(xs[|xs| - 1])]
  }

  /** Element `i` of a mapped list is `f` of element `i`. */
  lemma {:induction false} MapAt<T, U>(f: T -> U, xs: seq<T>)
    ensures |Map(f, xs)| == |xs|
    ensures forall i :: 0 <= i < |xs| ==> Map(f, xs)[i] == f(xs[i])
  {
    if xs != [] {
      var init := xs[..|xs| - 1];
      MapAt(f, init);
      assert forall i :: 0 <= i < |init| ==> init[i] == xs[i];
    }
  }

  /** Mapping a prefix one element longer appends that element's image. */
  lemma MapPrefix<T, U>(f: T -> U, xs: seq<T>, i: nat)
    requires i < |xs|
    ensures Map(f, xs[..i + 1]) == Map(f, xs[..i]) + [f(xs[i])]
  {
    assert xs[..i + 1][..i] == xs[..i];
  }

  /** Mapping the whole list through its full prefix. */
  lemma MapWhole<T, U>(f: T -> U, xs: seq<T>)
    ensures Map(f, xs[..|xs|]) == Map(f, xs)
  {
    assert xs[..|xs|] == xs;
  }
}
