/** Orders and sorting shared by the models: the code-unit order of strings, and
    a stable sort whose result is the only sorted arrangement of its input. */
module Ordering {

  datatype Option<+T> = None | Some(value: T)

  /** JavaScript's and Go's `<` on strings: lexicographic by code unit. */
  predicate LexLess(a: string, b: string) {
    b != [] && (a == [] || a[0] < b[0] || (a[0] == b[0] && LexLess(a[1..], b[1..])))
  }

  predicate LexLessEq(a: string, b: string) {
    a == b || LexLess(a, b)
  }

  lemma {:induction false} LexTotal(a: string, b: string)
    ensures LexLess(a, b) || a == b || LexLess(b, a)
    ensures !(LexLess(a, b) && LexLess(b, a)) && !LexLess(a, a)
  {
    if a != [] {
      LexTotal(a[1..], a[1..]);
      if b != [] {
        LexTotal(a[1..], b[1..]);
        assert a == [a[0]] + a[1..] && b == [b[0]] + b[1..];
      }
    }
  }

  lemma {:induction false} LexTransitive(a: string, b: string, c: string)
    requires LexLess(a, b) && LexLess(b, c)
    ensures LexLess(a, c)
  {
    if a != [] && a[0] == b[0] == c[0] {
      LexTransitive(a[1..], b[1..], c[1..]);
    }
  }

  lemma LexIsTotalOrder()
    ensures TotalOrder(LexLessEq)
    ensures forall a, b :: LexLessEq(a, b) && LexLessEq(b, a) ==> a == b
  {
    forall a: string, b: string
      ensures LexLessEq(a, b) || LexLessEq(b, a)
      ensures LexLessEq(a, b) && LexLessEq(b, a) ==> a == b
    {
      LexTotal(a, b);
    }
    forall a, b, c | LexLessEq(a, b) && LexLessEq(b, c)
      ensures LexLessEq(a, c)
    {
      if a != b && b != c { LexTransitive(a, b, c); }
    }
  }

  /** Total and transitive, as a comparison handed to a sort has to be. */
  ghost predicate TotalOrder<T(!new)>(le: (T, T) -> bool) {
    && (forall x, y :: le(x, y) || le(y, x))
    && (forall x, y, z :: le(x, y) && le(y, z) ==> le(x, z))
  }

  ghost predicate Sorted<T>(s: seq<T>, le: (T, T) -> bool) {
    forall i, j :: 0 <= i < j < |s| ==> le(s[i], s[j])
  }

  function Insert<T>(x: T, s: seq<T>, le: (T, T) -> bool): (r: seq<T>)
    ensures multiset(r) == multiset(s) + multiset{x}
  {
    if s == [] then [x]
    else if le(x, s[0]) then
      assert [x] + s == [x] + s;
      [x] + s
    else
      assert s == [s[0]] + s[1..];
      [s[0]] + Insert(x, s[1..], le)
  }

  /** A stable sort: an element goes before the equal ones that followed it. */
  function Sort<T>(s: seq<T>, le: (T, T) -> bool): (r: seq<T>)
    ensures multiset(r) == multiset(s)
  {
    if s == [] then []
    else
      assert s == [s[0]] + s[1..];
      Insert(s[0], Sort(s[1..], le), le)
  }

  lemma {:induction false} InsertSorted<T(!new)>(x: T, s: seq<T>, le: (T, T) -> bool)
    requires TotalOrder(le) && Sorted(s, le)
    ensures Sorted(Insert(x, s, le), le)
  {
    if s != [] && !le(x, s[0]) {
      InsertSorted(x, s[1..], le);
      var rest := Insert(x, s[1..], le);
      forall y | y in rest ensures le(s[0], y) {
        assert y in multiset(rest);
        assert y == x || y in multiset(s[1..]);
      }
    } else if s != [] {
      forall k | 0 <= k < |s| ensures le(x, s[k]) {
        assert k > 0 ==> le(s[0], s[k]);
      }
    }
  }

  lemma {:induction false} SortSorted<T(!new)>(s: seq<T>, le: (T, T) -> bool)
    requires TotalOrder(le)
    ensures Sorted(Sort(s, le), le)
  {
    if s != [] {
      SortSorted(s[1..], le);
      InsertSorted(s[0], Sort(s[1..], le), le);
    }
  }

  lemma SortedHeads<T(!new)>(a: seq<T>, b: seq<T>, le: (T, T) -> bool)
    requires Sorted(a, le) && Sorted(b, le) && multiset(a) == multiset(b) && a != [] && b != []
    requires forall x, y :: x in a && y in a && le(x, y) && le(y, x) ==> x == y
    ensures a[0] == b[0]
  {
    assert b[0] in multiset(b) && a[0] in multiset(a);
    assert b[0] in a && a[0] in b;
  }

  /** A sorted arrangement is unique once ties are equal elements. */
  lemma {:induction false} SortedUnique<T(!new)>(a: seq<T>, b: seq<T>, le: (T, T) -> bool)
    requires Sorted(a, le) && Sorted(b, le) && multiset(a) == multiset(b)
    requires forall x, y :: x in a && y in a && le(x, y) && le(y, x) ==> x == y
    ensures a == b
  {
    assert |a| == |multiset(a)| == |multiset(b)| == |b|;
    if a != [] {
      SortedHeads(a, b, le);
      assert a == [a[0]] + a[1..] && b == [b[0]] + b[1..];
      assert multiset(a[1..]) == multiset(a) - multiset{a[0]};
      assert multiset(b[1..]) == multiset(b) - multiset{b[0]};
      var tail := a[1..];
      assert forall x | x in tail :: x in a;
      assert Sorted(tail, le) && Sorted(b[1..], le);
      SortedUnique(tail, b[1..], le);
    }
  }

  /** Sorting forgets the order of its input. */
  lemma SortPermutation<T(!new)>(a: seq<T>, b: seq<T>, le: (T, T) -> bool)
    requires TotalOrder(le) && multiset(a) == multiset(b)
    requires forall x, y :: x in a && y in a && le(x, y) && le(y, x) ==> x == y
    ensures Sort(a, le) == Sort(b, le)
  {
    SortSorted(a, le);
    SortSorted(b, le);
    var sa := Sort(a, le);
    forall x, y | x in sa && y in sa && le(x, y) && le(y, x) ensures x == y {
      assert x in multiset(sa) && y in multiset(sa);
      assert x in multiset(a) && y in multiset(a);
    }
    SortedUnique(sa, Sort(b, le), le);
  }

  // ---- Permutations ----

  function Without<T>(s: seq<T>, k: nat): (r: seq<T>)
    requires k < |s|
    ensures multiset(r) == multiset(s) - multiset{s[k]}
  {
    assert s == s[..k] + [s[k]] + s[k + 1..];
    s[..k] + s[k + 1..]
  }

  /** The first element of a sequence, found in a permutation of it. */
  lemma HeadInPermutation<T>(s: seq<T>, t: seq<T>) returns (k: nat)
    requires multiset(s) == multiset(t) && s != []
    ensures k < |t| && t[k] == s[0] && multiset(s[1..]) == multiset(Without(t, k))
  {
    assert s == [s[0]] + s[1..];
    assert s[0] in multiset(t);
    k :| 0 <= k < |t| && t[k] == s[0];
  }

  lemma PermutationMembers<T>(s: seq<T>, t: seq<T>)
    requires multiset(s) == multiset(t)
    ensures |s| == |t| && forall x :: x in s <==> x in t
  {
    assert |s| == |multiset(s)| == |multiset(t)| == |t|;
    forall x ensures x in s <==> x in t {
      assert x in s <==> x in multiset(s);
      assert x in t <==> x in multiset(t);
    }
  }

  /** Elements with pairwise distinct keys keep them distinct under permutation. */
  lemma {:induction false} PermutationDistinct<T, K>(s: seq<T>, t: seq<T>, key: T -> K)
    requires multiset(s) == multiset(t)
    requires forall i, j :: 0 <= i < j < |s| ==> key(s[i]) != key(s[j])
    ensures forall i, j :: 0 <= i < j < |t| ==> key(t[i]) != key(t[j])
    decreases |s|
  {
    if s != [] {
      var k := HeadInPermutation(s, t);
      var rest := Without(t, k);
      PermutationDistinct(s[1..], rest, key);
      PermutationMembers(s[1..], rest);
      forall i, j | 0 <= i < j < |t| ensures key(t[i]) != key(t[j]) {
        if i != k { assert t[i] == rest[if i < k then i else i - 1]; }
        if j != k { assert t[j] == rest[if j < k then j else j - 1]; }
        if i == k { assert t[j] in rest; } else if j == k { assert t[i] in rest; }
      }
    } else {
      PermutationMembers(s, t);
    }
  }
}
