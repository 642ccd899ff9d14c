module Sequences {
  predicate NoDuplicates<T(==)>(s: seq<T>) {
    forall i, j :: 0 <= i < j < |s| ==> s[i] != s[j]
  }

  lemma Associate<T>(a: seq<T>, b: seq<T>, c: seq<T>)
    ensures a + (b + c) == a + b + c
  {
  }

  /** `f` applied `n` times. */
  function Repeated<T>(f: T -> T, x: T, n: nat): T {
    if n == 0 then x else f(Repeated(f, x, n - 1))
  }

  lemma {:induction false} RepeatedSplits<T>(f: T -> T, x: T, m: nat, n: nat)
    ensures Repeated(f, x, m + n) == Repeated(f, Repeated(f, x, m), n)
  {
    if n > 0 {
      RepeatedSplits(f, x, m, n - 1);
    }
  }

  lemma {:induction false} FixedStays<T>(f: T -> T, x: T, n: nat)
    requires f(x) == x
    ensures Repeated(f, x, n) == x
  {
    if n > 0 {
      FixedStays(f, x, n - 1);
    }
  }
}
