/**
 * The shapes of the SELECTs in the core: a WHERE filter, "the first row"
 * of a result, and ORDER BY on an integer key.
 */
module Ordering {
  import opened Wrappers

  /** WHERE p: the rows of s that satisfy p, in table order. */
  function Filter<T(!new)>(s: seq<T>, p: T -> bool): (r: seq<T>)
    ensures |r| <= |s|
    ensures forall x :: x in r <==> x in s && p(x)
    ensures forall x :: p(x) ==> multiset(r)[x] == multiset(s)[x]
    ensures forall x :: !p(x) ==> multiset(r)[x] == 0
  {
    if s == [] then []
    else
      var rest := Filter(s[1..], p);
      assert s == [s[0]] + s[1..];
      if p(s[0]) then [s[0]] + rest else rest
  }

  /** The index of the first element that satisfies p, if any. */
  function FindFirst<T>(s: seq<T>, p: T -> bool): (r: Option<nat>)
    ensures r.None? <==> forall k :: 0 <= k < |s| ==> !p(s[k])
    ensures r.Some? ==> (r.value < |s| && p(s[r.value])
                         && forall k :: 0 <= k < r.value ==> !p(s[k]))
  {
    if s == [] then None
    else if p(s[0]) then Some(0)
    else
      match FindFirst(s[1..], p)
      case None => None
      case Some(k) => Some(k + 1)
  }

  /** The first element that satisfies p, if any: fetchone, or row [0]. */
  function First<T>(s: seq<T>, p: T -> bool): (r: Option<T>)
    ensures r.None? <==> forall x :: x in s ==> !p(x)
    ensures r.Some? ==> (r.value in s && p(r.value))
  {
    match FindFirst(s, p)
    case Some(k) => Some(s[k])
    case None => None
  }

  /** Row [0] of the filtered rows is the first element that satisfies p. */
  lemma {:induction false} FirstIsFilterHead<T(!new)>(s: seq<T>, p: T -> bool)
    ensures First(s, p) == if Filter(s, p) == [] then None else Some(Filter(s, p)[0])
  {
    if s != [] && !p(s[0]) {
      FirstIsFilterHead(s[1..], p);
      assert First(s, p) == First(s[1..], p) by {
        match FindFirst(s[1..], p)
        case None =>
        case Some(k) => assert s[k + 1] == s[1..][k];
      }
    }
  }

  lemma ConsDistinct<T>(x: T, rest: seq<T>, key: T -> int)
    requires DistinctKeys(rest, key) && forall y :: y in rest ==> key(y) != key(x)
    ensures DistinctKeys([x] + rest, key)
  {
    var r := [x] + rest;
    forall i, j | 0 <= i < j < |r| ensures key(r[i]) != key(r[j]) {
      assert r[j] == rest[j - 1] && rest[j - 1] in rest;
      if i > 0 { assert r[i] == rest[i - 1]; }
    }
  }

  lemma HeadKeyUnique<T>(s: seq<T>, key: T -> int)
    requires DistinctKeys(s, key) && s != []
    ensures forall y :: y in s[1..] ==> key(y) != key(s[0])
  {
    forall y | y in s[1..] ensures key(y) != key(s[0]) {
      var k :| 0 <= k < |s[1..]| && s[1..][k] == y;
      assert s[k + 1] == y;
    }
  }

  /** Keeping some elements of a sequence keeps its keys distinct. */
  lemma {:induction false} FilterKeepsDistinct<T(!new)>(s: seq<T>, p: T -> bool, key: T -> int)
    requires DistinctKeys(s, key)
    ensures DistinctKeys(Filter(s, p), key)
  {
    if s != [] {
      var rest := Filter(s[1..], p);
      assert DistinctKeys(s[1..], key);
      FilterKeepsDistinct(s[1..], p, key);
      if p(s[0]) {
        HeadKeyUnique(s, key);
        ConsDistinct(s[0], rest, key);
        assert Filter(s, p) == [s[0]] + rest;
      } else {
        assert Filter(s, p) == rest;
      }
    }
  }

  predicate SortedBy<T>(s: seq<T>, key: T -> int) {
    forall i, j :: 0 <= i < j < |s| ==> key(s[i]) <= key(s[j])
  }

  /** Puts x after every element whose key is not above key(x). */
  function InsertBy<T>(s: seq<T>, x: T, key: T -> int): (r: seq<T>)
    requires SortedBy(s, key)
    ensures SortedBy(r, key)
    ensures multiset(r) == multiset(s) + multiset{x}
    ensures |r| == |s| + 1 && (r[0] == x || (s != [] && r[0] == s[0]))
  {
    if s == [] || key(x) < key(s[0]) then [x] + s
    else
      var r' := InsertBy(s[1..], x, key);
      assert s == [s[0]] + s[1..];
      assert key(s[0]) <= key(r'[0]);
      [s[0]] + r'
  }

  /** ORDER BY key, ascending; rows with equal keys keep their table order. */
  function SortBy<T>(s: seq<T>, key: T -> int): (r: seq<T>)
    ensures SortedBy(r, key)
    ensures multiset(r) == multiset(s)
  {
    if s == [] then []
    else
      assert s == s[..|s| - 1] + [s[|s| - 1]];
      InsertBy(SortBy(s[..|s| - 1], key), s[|s| - 1], key)
  }

  predicate DistinctKeys<T>(s: seq<T>, key: T -> int) {
    forall i, j :: 0 <= i < j < |s| ==> key(s[i]) != key(s[j])
  }

  /** An element that occurs once in b is not at two positions of b. */
  lemma OnceAtOnePosition<T>(b: seq<T>, i: nat, j: nat)
    requires i < j < |b| && multiset(b)[b[i]] == 1
    ensures b[i] != b[j]
  {
    assert b == b[..j] + [b[j]] + b[j + 1..];
    assert b[i] == b[..j][i];
    assert multiset(b) == multiset(b[..j]) + multiset{b[j]} + multiset(b[j + 1..]);
  }

  lemma SingleOccurrence<T>(a: seq<T>, i: nat, key: T -> int)
    requires DistinctKeys(a, key) && i < |a|
    ensures multiset(a)[a[i]] == 1
  {
    assert a == a[..i] + [a[i]] + a[i + 1..];
    assert forall k :: 0 <= k < i ==> a[..i][k] != a[i];
    assert forall k :: i + 1 <= k < |a| ==> a[k] != a[i];
    assert a[i] !in a[..i] && a[i] !in a[i + 1..];
    assert multiset(a) == multiset(a[..i]) + multiset{a[i]} + multiset(a[i + 1..]);
  }

  lemma DistinctKeysOfPermutation<T>(a: seq<T>, b: seq<T>, key: T -> int)
    requires DistinctKeys(a, key) && multiset(a) == multiset(b)
    ensures DistinctKeys(b, key)
  {
    forall i, j | 0 <= i < j < |b| ensures key(b[i]) != key(b[j]) {
      assert b[i] in multiset(a) && b[j] in multiset(a);
      var i' :| 0 <= i' < |a| && a[i'] == b[i];
      var j' :| 0 <= j' < |a| && a[j'] == b[j];
      SingleOccurrence(a, i', key);
      OnceAtOnePosition(b, i, j);
      assert i' != j';
      if i' < j' { assert key(a[i']) != key(a[j']); } else { assert key(a[j']) != key(a[i']); }
    }
  }

  /** When no two elements both satisfy p, the filter keeps at most one. */
  lemma {:induction false} FilterAtMostOne<T(!new)>(s: seq<T>, p: T -> bool)
    requires forall i, j :: 0 <= i < j < |s| ==> !(p(s[i]) && p(s[j]))
    ensures |Filter(s, p)| <= 1
  {
    if s != [] {
      var rest := Filter(s[1..], p);
      if p(s[0]) {
        assert forall k :: 0 <= k < |s[1..]| ==> s[1..][k] == s[k + 1] && !p(s[k + 1]);
        assert rest == [];
      } else {
        assert forall i, j :: 0 <= i < j < |s[1..]| ==> s[1..][i] == s[i + 1] && s[1..][j] == s[j + 1];
        FilterAtMostOne(s[1..], p);
      }
    }
  }

  /** SELECT f(x): the column f of every row, in order. */
  function Project<T(!new), U(!new)>(s: seq<T>, f: T -> U): (r: seq<U>)
    ensures |r| == |s| && forall i :: 0 <= i < |s| ==> r[i] == f(s[i])
    ensures forall y :: y in r <==> exists x :: x in s && y == f(x)
  {
    var r := seq(|s|, i requires 0 <= i < |s| => f(s[i]));
    assert forall y :: y in r ==> exists x :: x in s && y == f(x) by {
      forall y | y in r ensures exists x :: x in s && y == f(x) {
        var i :| 0 <= i < |r| && r[i] == y;
        assert s[i] in s;
      }
    }
    assert forall x :: x in s ==> f(x) in r by {
      forall x | x in s ensures f(x) in r {
        var i :| 0 <= i < |s| && s[i] == x;
        assert r[i] == f(x);
      }
    }
    r
  }

  /** An inner join with no ON condition: every pair, rows of a outermost. */
  function Cross<T(!new), U(!new)>(a: seq<T>, b: seq<U>): (r: seq<(T, U)>)
    ensures forall x, y :: (x, y) in r <==> x in a && y in b
  {
    if a == [] then []
    else
      var row := Project(b, (y: U) => (a[0], y));
      var rest := Cross(a[1..], b);
      assert forall x :: x in a <==> x == a[0] || x in a[1..];
      assert forall x, y :: (x, y) in row <==> x == a[0] && y in b;
      row + rest
  }

  lemma HeadIsLeast<T>(a: seq<T>, y: T, key: T -> int)
    requires SortedBy(a, key) && a != [] && y in multiset(a)
    ensures key(a[0]) <= key(y)
  {
    var k :| 0 <= k < |a| && a[k] == y;
  }

  lemma SameHead<T>(a: seq<T>, b: seq<T>, key: T -> int)
    requires SortedBy(a, key) && SortedBy(b, key) && a != [] && b != []
    requires multiset(a) == multiset(b) && DistinctKeys(a, key)
    ensures a[0] == b[0]
  {
    assert b[0] in multiset(a);
    HeadIsLeast(a, b[0], key);
    assert a[0] in multiset(b);
    HeadIsLeast(b, a[0], key);
    var ia :| 0 <= ia < |a| && a[ia] == b[0];
    if ia != 0 { assert key(a[0]) != key(a[ia]); }
  }

  lemma TailsPermuted<T>(a: seq<T>, b: seq<T>)
    requires a != [] && b != [] && a[0] == b[0] && multiset(a) == multiset(b)
    ensures multiset(a[1..]) == multiset(b[1..])
  {
    assert a == [a[0]] + a[1..] && b == [b[0]] + b[1..];
    assert multiset(a) == multiset{a[0]} + multiset(a[1..]);
    assert multiset(b) == multiset{a[0]} + multiset(b[1..]);
    assert multiset(a[1..]) == multiset(a) - multiset{a[0]};
    assert multiset(b[1..]) == multiset(b) - multiset{a[0]};
  }

  /** Two orderings of the same rows by a key no two rows share are equal:
    * ORDER BY on a unique column has exactly one answer. */
  lemma {:induction false} SortedByUniqueKey<T>(a: seq<T>, b: seq<T>, key: T -> int)
    requires SortedBy(a, key) && SortedBy(b, key)
    requires multiset(a) == multiset(b)
    requires DistinctKeys(a, key)
    ensures a == b
  {
    assert |a| == |b| by { assert |multiset(a)| == |multiset(b)|; }
    if a != [] {
      SameHead(a, b, key);
      TailsPermuted(a, b);
      assert DistinctKeys(a[1..], key);
      SortedByUniqueKey(a[1..], b[1..], key);
    }
  }
}
