// A stable in-place sort under a strict weak order, and the fact that makes
// the choice of algorithm irrelevant: a stable sorted arrangement is unique.
module StableSort {
  ghost predicate StrictWeakOrder<T(!new)>(less: (T, T) -> bool) {
    && (forall x :: !less(x, x))
    && (forall x, y, z :: less(x, y) && less(y, z) ==> less(x, z))
    && (forall x, y, z :: less(x, z) ==> less(x, y) || less(y, z))
  }

  predicate Equivalent<T>(less: (T, T) -> bool, x: T, y: T) {
    !less(x, y) && !less(y, x)
  }

  // No element is less than one before it.
  ghost predicate Sorted<T>(less: (T, T) -> bool, s: seq<T>) {
    forall i, j :: 0 <= i < j < |s| ==> !less(s[j], s[i])
  }

  // The elements equivalent to x, in the order in which s has them.
  function ClassOf<T>(less: (T, T) -> bool, s: seq<T>, x: T): seq<T> {
    if s == [] then []
    else (if Equivalent(less, s[0], x) then [s[0]] else []) + ClassOf(less, s[1..], x)
  }

  // t is s rearranged into sorted order with equivalent elements kept in order.
  ghost predicate StablySorted<T(!new)>(less: (T, T) -> bool, s: seq<T>, t: seq<T>) {
    && Sorted(less, t)
    && multiset(t) == multiset(s)
    && forall x :: ClassOf(less, t, x) == ClassOf(less, s, x)
  }

  // ---- the sort as a function -------------------------------------------

  // x moves left past every element it is less than.
  function Insert<T>(less: (T, T) -> bool, s: seq<T>, x: T): seq<T> {
    if s != [] && less(x, s[|s| - 1]) then Insert(less, s[..|s| - 1], x) + [s[|s| - 1]]
    else s + [x]
  }

  function Sort<T>(less: (T, T) -> bool, s: seq<T>): seq<T> {
    if s == [] then [] else Insert(less, Sort(less, s[..|s| - 1]), s[|s| - 1])
  }

  lemma Regroup<T>(a: seq<T>, b: seq<T>, c: seq<T>)
    ensures a + b + c == a + (b + c)
  {}

  lemma {:induction false} ClassOfConcat<T>(less: (T, T) -> bool, a: seq<T>, b: seq<T>, x: T)
    ensures ClassOf(less, a + b, x) == ClassOf(less, a, x) + ClassOf(less, b, x)
  {
    if a == [] {
      assert a + b == b;
    } else {
      var head := if Equivalent(less, a[0], x) then [a[0]] else [];
      ClassOfConcat(less, a[1..], b, x);
      assert (a + b)[1..] == a[1..] + b;
      Regroup(head, ClassOf(less, a[1..], x), ClassOf(less, b, x));
    }
  }

  lemma {:induction false} InsertPosition<T(!new)>(less: (T, T) -> bool, s: seq<T>, x: T) returns (k: nat)
    ensures k <= |s| && Insert(less, s, x) == s[..k] + [x] + s[k..]
    ensures k > 0 ==> !less(x, s[k - 1])
    ensures forall j :: k <= j < |s| ==> less(x, s[j])
  {
    k := |s|;
    if s != [] && less(x, s[|s| - 1]) {
      var front, last := s[..|s| - 1], s[|s| - 1];
      k := InsertPosition(less, front, x);
      assert s == front + [last];
      assert s[..k] == front[..k];
      assert s[k..] == front[k..] + [last];
      assert forall j :: k <= j < |s| - 1 ==> s[j] == front[j];
    }
  }

  lemma InsertKeepsOrder<T(!new)>(less: (T, T) -> bool, s: seq<T>, x: T)
    requires StrictWeakOrder(less) && Sorted(less, s)
    ensures Sorted(less, Insert(less, s, x))
  {
    var k := InsertPosition(less, s, x);
    var t := Insert(less, s, x);
    forall i, j | 0 <= i < j < |t| ensures !less(t[j], t[i]) {
      if i < k {
        assert t[i] == s[i];
        if j == k {
          if i < k - 1 { assert !less(s[k - 1], s[i]); }
        } else {
          var j' := if j < k then j else j - 1;
          assert t[j] == s[j'];
        }
      } else {
        assert t[j] == s[j - 1];
        if i > k { assert t[i] == s[i - 1]; }
      }
    }
  }

  lemma OneMoreElement<T>(front: seq<T>, x: T)
    ensures multiset(front + [x]) == multiset(front) + multiset{x}
  {}

  lemma {:induction false} InsertKeepsElements<T(!new)>(less: (T, T) -> bool, s: seq<T>, x: T)
    ensures multiset(Insert(less, s, x)) == multiset(s) + multiset{x}
  {
    if s == [] {
    } else {
      InsertKeepsElements(less, s[..|s| - 1], x);
      assert s == s[..|s| - 1] + [s[|s| - 1]];
    }
  }

  lemma {:induction false} InsertKeepsClasses<T(!new)>(less: (T, T) -> bool, s: seq<T>, x: T, y: T)
    requires StrictWeakOrder(less)
    ensures ClassOf(less, Insert(less, s, x), y) == ClassOf(less, s, y) + ClassOf(less, [x], y)
  {
    if s != [] && less(x, s[|s| - 1]) {
      var front, last := s[..|s| - 1], s[|s| - 1];
      InsertKeepsClasses(less, front, x, y);
      ClassOfConcat(less, Insert(less, front, x), [last], y);
      ClassOfConcat(less, front, [last], y);
      assert s == front + [last];
      assert ClassOf(less, [x], y) == [] || ClassOf(less, [last], y) == [];
    } else {
      ClassOfConcat(less, s, [x], y);
    }
  }

  lemma {:induction false} SortKeepsClasses<T(!new)>(less: (T, T) -> bool, s: seq<T>, x: T)
    requires StrictWeakOrder(less)
    ensures ClassOf(less, Sort(less, s), x) == ClassOf(less, s, x)
  {
    if s == [] {
    } else {
      var front, last := s[..|s| - 1], s[|s| - 1];
      SortKeepsClasses(less, front, x);
      InsertKeepsClasses(less, Sort(less, front), last, x);
      ClassOfConcat(less, front, [last], x);
      assert s == front + [last];
    }
  }

  lemma {:induction false} SortIsSorted<T(!new)>(less: (T, T) -> bool, s: seq<T>)
    requires StrictWeakOrder(less)
    ensures Sorted(less, Sort(less, s))
  {
    if s == [] {
    } else {
      SortIsSorted(less, s[..|s| - 1]);
      InsertKeepsOrder(less, Sort(less, s[..|s| - 1]), s[|s| - 1]);
    }
  }

  lemma {:induction false} SortKeepsElements<T(!new)>(less: (T, T) -> bool, s: seq<T>)
    ensures multiset(Sort(less, s)) == multiset(s)
  {
    if s == [] {
    } else {
      var front, last := s[..|s| - 1], s[|s| - 1];
      SortKeepsElements(less, front);
      InsertKeepsElements(less, Sort(less, front), last);
      OneMoreElement(front, last);
      assert s == front + [last];
      assert Sort(less, s) == Insert(less, Sort(less, front), last);
    }
  }

  lemma SortIsStable<T(!new)>(less: (T, T) -> bool, s: seq<T>)
    requires StrictWeakOrder(less)
    ensures StablySorted(less, s, Sort(less, s))
  {
    SortIsSorted(less, s);
    SortKeepsElements(less, s);
    forall x ensures ClassOf(less, Sort(less, s), x) == ClassOf(less, s, x) {
      SortKeepsClasses(less, s, x);
    }
  }

  // ---- uniqueness ---------------------------------------------------------

  // The first element of a sorted list heads its own class.
  lemma ClassHead<T(!new)>(less: (T, T) -> bool, s: seq<T>)
    requires StrictWeakOrder(less) && s != []
    ensures ClassOf(less, s, s[0]) == [s[0]] + ClassOf(less, s[1..], s[0])
  {}

  lemma {:induction false} ClassMembers<T(!new)>(less: (T, T) -> bool, s: seq<T>, x: T)
    ensures forall y :: y in ClassOf(less, s, x) ==> y in s && Equivalent(less, y, x)
    ensures forall y :: y in s && Equivalent(less, y, x) ==> y in ClassOf(less, s, x)
  {
    if s == [] {
    } else {
      ClassMembers(less, s[1..], x);
      assert s == [s[0]] + s[1..];
    }
  }

  lemma {:induction false} ClassOfEquivalent<T(!new)>(less: (T, T) -> bool, s: seq<T>, x: T, y: T)
    requires StrictWeakOrder(less) && Equivalent(less, x, y)
    ensures ClassOf(less, s, x) == ClassOf(less, s, y)
  {
    if s == [] {
    } else {
      ClassOfEquivalent(less, s[1..], x, y);
    }
  }

  // Two sorted lists with the same classes start with the same element.
  lemma SameHead<T(!new)>(less: (T, T) -> bool, a: seq<T>, b: seq<T>)
    requires StrictWeakOrder(less) && Sorted(less, a) && Sorted(less, b)
    requires a != [] && b != []
    requires forall x :: ClassOf(less, a, x) == ClassOf(less, b, x)
    ensures a[0] == b[0]
  {
    ClassHead(less, a);
    ClassHead(less, b);
    ClassMembers(less, a, b[0]);
    ClassMembers(less, b, a[0]);
    assert a[0] in ClassOf(less, b, a[0]) && b[0] in ClassOf(less, a, b[0]);
    assert !less(b[0], a[0]) && !less(a[0], b[0]);
    ClassOfEquivalent(less, b, a[0], b[0]);
    assert ClassOf(less, b, a[0])[0] == a[0];
  }

  lemma {:induction false} SameClassesSameList<T(!new)>(less: (T, T) -> bool, a: seq<T>, b: seq<T>)
    requires StrictWeakOrder(less) && Sorted(less, a) && Sorted(less, b)
    requires forall x :: ClassOf(less, a, x) == ClassOf(less, b, x)
    ensures a == b
  {
    if a == [] || b == [] {
      if a != [] { ClassHead(less, a); }
      if b != [] { ClassHead(less, b); }
    } else {
      SameHead(less, a, b);
      forall x ensures ClassOf(less, a[1..], x) == ClassOf(less, b[1..], x) {
        if Equivalent(less, a[0], x) {
          assert ClassOf(less, a[1..], x) == ClassOf(less, a, x)[1..];
          assert ClassOf(less, b[1..], x) == ClassOf(less, b, x)[1..];
        } else {
          assert ClassOf(less, a[1..], x) == ClassOf(less, a, x);
          assert ClassOf(less, b[1..], x) == ClassOf(less, b, x);
        }
      }
      SameClassesSameList(less, a[1..], b[1..]);
      assert a == [a[0]] + a[1..] && b == [b[0]] + b[1..];
    }
  }

  // Whatever algorithm sorts stably, it produces what Sort produces.
  lemma StableSortIsUnique<T(!new)>(less: (T, T) -> bool, s: seq<T>, t: seq<T>)
    requires StrictWeakOrder(less)
    ensures StablySorted(less, s, t) <==> t == Sort(less, s)
  {
    SortIsStable(less, s);
    if StablySorted(less, s, t) {
      forall x ensures ClassOf(less, t, x) == ClassOf(less, Sort(less, s), x) {
        assert ClassOf(less, t, x) == ClassOf(less, s, x);
      }
      SameClassesSameList(less, t, Sort(less, s));
    }
  }

  // ---- the sort in place --------------------------------------------------

  lemma InsertPeels<T>(less: (T, T) -> bool, s: seq<T>, x: T, j: nat, rest: seq<T>)
    requires 0 < j <= |s| && less(x, s[j - 1])
    ensures Insert(less, s[..j], x) + rest == Insert(less, s[..j - 1], x) + ([s[j - 1]] + rest)
  {
    assert s[..j][..j - 1] == s[..j - 1];
  }

  // Moves a[n] left to its place among the sorted a[..n].
  method InsertInPlace<T>(a: array<T>, n: nat, less: (T, T) -> bool)
    requires n < a.Length
    modifies a
    ensures a[..n + 1] == Insert(less, old(a[..n]), old(a[n]))
    ensures a[n + 1..] == old(a[n + 1..])
  {
    ghost var was, moved := a[..n], [];
    var x := a[n];
    var j := n;
    assert was[..j] == was;
    while j > 0 && less(x, a[j - 1])
      invariant 0 <= j <= n
      invariant |moved| == n - j && a[j] == x
      invariant forall k :: 0 <= k < j ==> a[k] == was[k]
      invariant forall k :: j < k <= n ==> a[k] == moved[k - j - 1]
      invariant forall k :: n < k < a.Length ==> a[k] == old(a[k])
      invariant Insert(less, was, x) == Insert(less, was[..j], x) + moved
    {
      InsertPeels(less, was, x, j, moved);
      a[j], a[j - 1] := a[j - 1], a[j];
      moved := [was[j - 1]] + moved;
      j := j - 1;
    }
    assert Insert(less, was[..j], x) == was[..j] + [x];
    assert a[..n + 1] == was[..j] + [x] + moved;
  }

  method SortInPlace<T>(a: array<T>, less: (T, T) -> bool)
    modifies a
    ensures a[..] == Sort(less, old(a[..]))
  {
    var n := 0;
    ghost var was := a[..];
    while n < a.Length
      invariant n <= a.Length
      invariant a[..n] == Sort(less, was[..n])
      invariant a[n..] == was[n..]
    {
      assert a[n] == was[n] by { assert a[n..][0] == was[n..][0]; }
      assert was[..n + 1][..n] == was[..n];
      label Step:
      InsertInPlace(a, n, less);
      assert a[n + 1..] == old@Step(a[n..])[1..];
      n := n + 1;
    }
    assert a[..] == a[..n] && was == was[..n];
  }
}
