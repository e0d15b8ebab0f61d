// Sums of a weight over the elements of a sequence.
module Counting {

  function Min(a: int, b: int): int {
    if a <= b then a else b
  }

  function SumBy<T>(s: seq<T>, f: T -> nat): nat {
    if s == [] then 0 else SumBy(s[..|s| - 1], f) + f(s[|s| - 1])
  }

  // A sequence and its update, as a front and a last element.
  lemma UpdateSplits<T>(s: seq<T>, i: nat, x: T)
    requires i < |s|
    ensures var n := |s| - 1;
            && s == s[..n] + [s[n]]
            && s[i := x] == if i == n then s[..n] + [x] else s[..n][i := x] + [s[n]]
  {}

  // Replacing one element moves the sum by the difference of the weights.
  lemma {:induction false} SumByMove<T>(s: seq<T>, i: nat, x: T, f: T -> nat)
    requires i < |s|
    ensures SumBy(s[i := x], f) + f(s[i]) == SumBy(s, f) + f(x)
  {
    var n := |s| - 1;
    if i == n {
      assert s[i := x][..n] == s[..n];
    } else {
      SumByMove(s[..n], i, x, f);
      assert s[i := x][..n] == s[..n][i := x];
    }
  }

  lemma {:induction false} SumByZero<T>(s: seq<T>, f: T -> nat)
    ensures SumBy(s, f) == 0 <==> forall i :: 0 <= i < |s| ==> f(s[i]) == 0
  {
    if s == [] {
    } else {
      SumByZero(s[..|s| - 1], f);
      assert s == s[..|s| - 1] + [s[|s| - 1]];
    }
  }

  lemma {:induction false} SumByAtMost<T>(s: seq<T>, f: T -> nat, most: nat)
    requires forall i :: 0 <= i < |s| ==> f(s[i]) <= most
    ensures SumBy(s, f) <= |s| * most
  {
    if s == [] {
    } else {
      SumByAtMost(s[..|s| - 1], f, most);
      assert |s| * most == (|s| - 1) * most + most;
    }
  }

  lemma {:induction false} SumByGrows<T>(s: seq<T>, f: T -> nat, g: T -> nat)
    requires forall i :: 0 <= i < |s| ==> f(s[i]) <= g(s[i])
    ensures SumBy(s, f) <= SumBy(s, g)
  {
    if s == [] {
    } else {
      SumByGrows(s[..|s| - 1], f, g);
    }
  }
}
