/** Go's sort.SliceStable: what a stable sort by a key must return, and an in-place one that does. */
module Sorting {
  import opened Common

  ghost predicate SortedBy<T(!new)>(s: seq<T>, key: T -> int) {
    forall i, j :: 0 <= i < j < |s| ==> key(s[i]) <= key(s[j])
  }

  /** The elements whose key is k, in order. */
  function KeyClass<T>(s: seq<T>, key: T -> int, k: int): seq<T> {
    if s == [] then []
    else KeyClass(Init(s), key, k) + (if key(Last(s)) == k then [Last(s)] else [])
  }

  /** t keeps the relative order of elements with equal keys, and drops or invents none. */
  ghost predicate StableImage<T(!new)>(s: seq<T>, t: seq<T>, key: T -> int) {
    forall k :: KeyClass(s, key, k) == KeyClass(t, key, k)
  }

  /** Places x behind every element whose key does not exceed its own. */
  function Insert<T>(s: seq<T>, x: T, key: T -> int): seq<T> {
    if s == [] || key(Last(s)) <= key(x) then s + [x]
    else Insert(Init(s), x, key) + [Last(s)]
  }

  function StableSort<T>(s: seq<T>, key: T -> int): seq<T> {
    if s == [] then [] else Insert(StableSort(Init(s), key), Last(s), key)
  }

  lemma {:induction false} KeyClassConcat<T>(a: seq<T>, b: seq<T>, key: T -> int, k: int)
    ensures KeyClass(a + b, key, k) == KeyClass(a, key, k) + KeyClass(b, key, k)
  {
    if b == [] {
      assert a + b == a;
    } else {
      KeyClassConcat(a, Init(b), key, k);
      assert Init(a + b) == a + Init(b);
    }
  }

  lemma {:induction false} InsertMembers<T(!new)>(s: seq<T>, x: T, key: T -> int)
    ensures forall y :: y in Insert(s, x, key) <==> y in s || y == x
  {
    if s == [] || key(Last(s)) <= key(x) {
    } else {
      InsertMembers(Init(s), x, key);
      assert s == Init(s) + [Last(s)];
    }
  }

  lemma SnocMultiset<T>(s: seq<T>, x: T)
    ensures multiset(s + [x]) == multiset(s) + multiset{x}
  {
  }

  lemma {:induction false} InsertPermutes<T(!new)>(s: seq<T>, x: T, key: T -> int)
    ensures multiset(Insert(s, x, key)) == multiset(s) + multiset{x}
  {
    if s == [] || key(Last(s)) <= key(x) {
      SnocMultiset(s, x);
    } else {
      var rest := Insert(Init(s), x, key);
      assert Insert(s, x, key) == rest + [Last(s)];
      InsertPermutes(Init(s), x, key);
      hide Insert;
      SnocMultiset(rest, Last(s));
      SnocMultiset(Init(s), Last(s));
      assert s == Init(s) + [Last(s)];
    }
  }

  lemma {:induction false} InsertSorted<T(!new)>(s: seq<T>, x: T, key: T -> int)
    requires SortedBy(s, key)
    ensures SortedBy(Insert(s, x, key), key)
  {
    if s != [] && key(Last(s)) > key(x) {
      var t := Insert(Init(s), x, key);
      InsertSorted(Init(s), x, key);
      InsertMembers(Init(s), x, key);
      forall i | 0 <= i < |t| ensures key(t[i]) <= key(Last(s)) {
        assert t[i] in t;
      }
    } else if s != [] {
      forall i | 0 <= i < |s| ensures key(s[i]) <= key(x) {
        assert key(s[i]) <= key(Last(s));
      }
    }
  }

  lemma {:induction false} InsertKeyClass<T(!new)>(s: seq<T>, x: T, key: T -> int, k: int)
    requires SortedBy(s, key)
    ensures KeyClass(Insert(s, x, key), key, k) == KeyClass(s, key, k) + (if key(x) == k then [x] else [])
  {
    if s == [] || key(Last(s)) <= key(x) {
      assert Init(s + [x]) == s;
    } else {
      InsertKeyClass(Init(s), x, key, k);
      assert Init(Insert(s, x, key)) == Insert(Init(s), x, key);
      if key(x) == k { KeyClassEmptyAbove(s, key, k); }
    }
  }

  /** A sorted list whose last key exceeds k may still hold k, but its last element does not. */
  lemma KeyClassEmptyAbove<T(!new)>(s: seq<T>, key: T -> int, k: int)
    requires s != [] && key(Last(s)) != k
    ensures KeyClass(s, key, k) == KeyClass(Init(s), key, k)
  {
  }

  /** The result is sorted, a permutation, and stable. */
  lemma {:induction false} StableSortCorrect<T(!new)>(s: seq<T>, key: T -> int)
    ensures SortedBy(StableSort(s, key), key)
    ensures multiset(StableSort(s, key)) == multiset(s)
    ensures StableImage(s, StableSort(s, key), key)
  {
    if s == [] {
    } else {
      assert s == Init(s) + [Last(s)];
      StableSortCorrect(Init(s), key);
      InsertSorted(StableSort(Init(s), key), Last(s), key);
      InsertPermutes(StableSort(Init(s), key), Last(s), key);
      forall k ensures KeyClass(s, key, k) == KeyClass(StableSort(s, key), key, k) {
        InsertKeyClass(StableSort(Init(s), key), Last(s), key, k);
      }
    }
  }

  lemma StableSortMembers<T(!new)>(s: seq<T>, key: T -> int)
    ensures |StableSort(s, key)| == |s|
    ensures forall x :: x in StableSort(s, key) <==> x in s
  {
    StableSortCorrect(s, key);
    forall x ensures x in StableSort(s, key) <==> x in s {
      assert x in multiset(s) <==> x in s;
      assert x in multiset(StableSort(s, key)) <==> x in StableSort(s, key);
    }
    assert |multiset(StableSort(s, key))| == |multiset(s)|;
  }

  lemma {:induction false} KeyClassMembers<T(!new)>(s: seq<T>, key: T -> int, k: int)
    ensures forall x :: x in KeyClass(s, key, k) <==> x in s && key(x) == k
    ensures |KeyClass(s, key, k)| <= |s|
  {
    if s == [] {
    } else {
      KeyClassMembers(Init(s), key, k);
      assert s == Init(s) + [Last(s)];
    }
  }

  /** Two sorted lists with equal key classes agree on their last element. */
  lemma LastAgrees<T(!new)>(s: seq<T>, t: seq<T>, key: T -> int)
    requires SortedBy(s, key) && SortedBy(t, key) && StableImage(s, t, key)
    requires s != []
    ensures t != [] && Last(s) == Last(t)
  {
    var k := key(Last(s));
    KeyClassMembers(s, key, k);
    KeyClassMembers(t, key, k);
    assert Last(s) in KeyClass(t, key, k);
    var j := key(Last(t));
    KeyClassMembers(s, key, j);
    KeyClassMembers(t, key, j);
    assert Last(t) in KeyClass(s, key, j);
    assert k == j;
    assert Last(KeyClass(s, key, k)) == Last(s);
    assert Last(KeyClass(t, key, k)) == Last(t);
  }

  lemma StableImageOfInits<T(!new)>(s: seq<T>, t: seq<T>, key: T -> int, k: int)
    requires s != [] && t != [] && Last(s) == Last(t)
    requires KeyClass(s, key, k) == KeyClass(t, key, k)
    ensures KeyClass(Init(s), key, k) == KeyClass(Init(t), key, k)
  {
    var tail := if key(Last(s)) == k then [Last(s)] else [];
    assert KeyClass(Init(s), key, k) == (KeyClass(Init(s), key, k) + tail)[..|KeyClass(Init(s), key, k)|];
    assert KeyClass(Init(t), key, k) == (KeyClass(Init(t), key, k) + tail)[..|KeyClass(Init(t), key, k)|];
  }

  /** Being sorted and stable leaves one possible result, so any correct stable sort returns it. */
  lemma {:induction false} StableSortUnique<T(!new)>(s: seq<T>, t: seq<T>, key: T -> int)
    requires SortedBy(s, key) && SortedBy(t, key) && StableImage(s, t, key)
    ensures s == t
  {
    if s == [] {
      if t != [] { LastAgrees(t, s, key); }
    } else {
      LastAgrees(s, t, key);
      forall k ensures KeyClass(Init(s), key, k) == KeyClass(Init(t), key, k) {
        StableImageOfInits(s, t, key, k);
      }
      StableSortUnique(Init(s), Init(t), key);
      assert s == Init(s) + [Last(s)] && t == Init(t) + [Last(t)];
    }
  }

  /** With one key for all there is nothing to reorder. */
  lemma {:induction false} StableSortConstant<T(!new)>(s: seq<T>, key: T -> int, k: int)
    requires forall x :: x in s ==> key(x) == k
    ensures StableSort(s, key) == s
  {
    if s == [] {
    } else {
      assert s == Init(s) + [Last(s)] && Last(s) in s;
      StableSortConstant(Init(s), key, k);
      assert Init(s) == [] || Last(Init(s)) in s;
    }
  }

  lemma {:induction false} KeyClassHead<T(!new)>(s: seq<T>, key: T -> int)
    requires s != []
    ensures KeyClass(s, key, key(s[0])) != [] && KeyClass(s, key, key(s[0]))[0] == s[0]
  {
    if |s| > 1 {
      KeyClassHead(Init(s), key);
    } else {
      assert Init(s) == [];
    }
  }

  lemma {:induction false} KeyClassNone<T(!new)>(s: seq<T>, key: T -> int, k: int)
    requires forall x :: x in s ==> key(x) != k
    ensures KeyClass(s, key, k) == []
  {
    if s == [] {
    } else {
      assert s == Init(s) + [Last(s)] && Last(s) in s;
      KeyClassNone(Init(s), key, k);
    }
  }

  /** The first of the smallest elements comes out first. */
  lemma StableSortHead<T(!new)>(before: seq<T>, x: T, rest: seq<T>, key: T -> int)
    requires forall y :: y in before ==> key(x) < key(y)
    requires forall y :: y in rest ==> key(x) <= key(y)
    ensures var sorted := StableSort(before + [x] + rest, key); sorted != [] && sorted[0] == x
  {
    var s := before + [x] + rest;
    var sorted := StableSort(s, key);
    StableSortCorrect(s, key);
    StableSortMembers(s, key);
    assert x in s && x in sorted && sorted[0] in s;
    var i :| 0 <= i < |sorted| && sorted[i] == x;
    assert key(sorted[0]) == key(x);
    KeyClassHead(sorted, key);
    var k := key(x);
    KeyClassConcat(before + [x], rest, key, k);
    KeyClassConcat(before, [x], key, k);
    KeyClassNone(before, key, k);
    assert Init([x]) == [] && KeyClass([x], key, k) == [x];
    assert KeyClass(s, key, k) == KeyClass(sorted, key, k);
  }

  /** Insertion goes behind the last element that does not exceed x. */
  lemma {:induction false} InsertFalls<T>(prefix: seq<T>, j: nat, x: T, key: T -> int)
    requires j <= |prefix| && (j > 0 ==> key(prefix[j - 1]) <= key(x))
    requires forall k :: j <= k < |prefix| ==> key(prefix[k]) > key(x)
    ensures Insert(prefix, x, key) == prefix[..j] + [x] + prefix[j..]
  {
    if j == |prefix| {
      assert prefix[..j] == prefix && prefix[j..] == [];
    } else {
      InsertFalls(Init(prefix), j, x, key);
      assert prefix[j..] == Init(prefix)[j..] + [Last(prefix)] && Init(prefix)[..j] == prefix[..j];
    }
  }

  /** x has come to position j, and what it passed has moved up. */
  lemma Shifted<T>(now: seq<T>, prefix: seq<T>, j: nat, x: T)
    requires |now| == |prefix| + 1 && j <= |prefix| && now[j] == x
    requires forall k :: 0 <= k < j ==> now[k] == prefix[k]
    requires forall k :: j < k < |now| ==> now[k] == prefix[k - 1]
    ensures now == prefix[..j] + [x] + prefix[j..]
  {
  }

  /** Moves the element at position i of a left to its place among the first i, which are sorted. */
  method InsertInPlace<T>(a: array<T>, i: nat, key: T -> int)
    requires i < a.Length
    modifies a
    ensures a[..i + 1] == Insert(old(a[..i]), old(a[i]), key)
    ensures a[i + 1..] == old(a[i + 1..])
  {
    hide Insert;
    var j := i;
    ghost var x := a[i];
    ghost var prefix := a[..i];
    while j > 0 && key(a[j - 1]) > key(a[j])
      invariant 0 <= j <= i
      invariant a[j] == x
      invariant forall k :: 0 <= k < j ==> a[k] == prefix[k]
      invariant forall k :: j < k <= i ==> a[k] == prefix[k - 1]
      invariant forall k :: i < k < a.Length ==> a[k] == old(a[k])
      invariant forall k :: j <= k < i ==> key(prefix[k]) > key(x)
    {
      a[j - 1], a[j] := a[j], a[j - 1];
      j := j - 1;
    }
    InsertFalls(prefix, j, x, key);
    Shifted(a[..i + 1], prefix, j, x);
  }

  /** Sorts a in place the way sort.SliceStable does: the one sorted, stable rearrangement. */
  method SliceStable<T>(a: array<T>, key: T -> int)
    modifies a
    ensures a[..] == StableSort(old(a[..]), key)
  {
    ghost var was := a[..];
    var i := 0;
    while i < a.Length
      invariant 0 <= i <= a.Length
      invariant a[..i] == StableSort(was[..i], key)
      invariant a[i..] == was[i..]
    {
      assert a[i] == was[i] && a[i + 1..] == was[i + 1..] by {
        assert a[i..][0] == was[i..][0] && a[i..][1..] == was[i..][1..];
      }
      InsertInPlace(a, i, key);
      assert Init(was[..i + 1]) == was[..i] && Last(was[..i + 1]) == was[i];
      i := i + 1;
    }
    assert a[..] == a[..a.Length] && was == was[..a.Length];
  }
}
