/** `array.sort((a, b) => key(b) - key(a))` (largest key first; JavaScript's
    sort is stable, and so is this insertion sort) and `slice(0, n)`. */
module Sorting {
  import opened Lists

  predicate SortedDesc<T>(s: seq<T>, key: T -> int) {
    forall i, j :: 0 <= i < j < |s| ==> key(s[i]) >= key(s[j])
  }

  /** Puts `x` before the first element whose key is not larger than its own. */
  function Insert<T>(x: T, s: seq<T>, key: T -> int): seq<T> {
    if s == [] || key(x) >= key(s[0]) then [x] + s
    else [s[0]] + Insert(x, s[1..], key)
  }

  /** Insertion adds exactly `x`. */
  lemma {:induction false} InsertMultiset<T>(x: T, s: seq<T>, key: T -> int)
    ensures multiset(Insert(x, s, key)) == multiset(s) + multiset{x}
  {
    if s != [] && key(x) < key(s[0]) {
      InsertMultiset(x, s[1..], key);
      assert s == [s[0]] + s[1..];
    }
  }

  /** Insertion into a sorted list keeps it sorted. */
  lemma {:induction false} InsertSorted<T>(x: T, s: seq<T>, key: T -> int)
    requires SortedDesc(s, key)
    ensures SortedDesc(Insert(x, s, key), key)
  {
    if s != [] && key(x) < key(s[0]) {
      var t := Insert(x, s[1..], key);
      InsertSorted(x, s[1..], key);
      InsertMultiset(x, s[1..], key);
      forall k | 0 <= k < |t| ensures key(s[0]) >= key(t[k]) {
        assert t[k] in multiset(t);
        assert t[k] in multiset(s[1..]) || t[k] == x;
      }
    }
  }

  /** The list ordered by key, largest first. */
  function SortDesc<T>(s: seq<T>, key: T -> int): (r: seq<T>)
    ensures SortedDesc(r, key)
    ensures multiset(r) == multiset(s)
  {
    if s == [] then []
    else
      var t := SortDesc(s[1..], key);
      InsertMultiset(s[0], t, key);
      InsertSorted(s[0], t, key);
      assert s == [s[0]] + s[1..];
      Insert(s[0], t, key)
  }

  /** `s.slice(0, n)`. */
  function Take<T>(s: seq<T>, n: nat): (r: seq<T>)
    ensures |r| == if |s| <= n then |s| else n
    ensures r == s[..|r|]
    ensures |s| <= n ==> r == s
  {
    if |s| <= n then s else s[..n]
  }

  /** The elements whose key is `k`. */
  function KeyIs<T>(key: T -> int, k: int): T -> bool {
    (y: T) => key(y) == k
  }

  /** Insertion passes over only elements whose key is larger than that of
      `x`, so among the elements with any one key `x` lands first. */
  lemma {:induction false} InsertKeepsTies<T>(x: T, s: seq<T>, key: T -> int, k: int)
    ensures Filter(Insert(x, s, key), KeyIs(key, k)) ==
              (if key(x) == k then [x] else []) + Filter(s, KeyIs(key, k))
  {
    var p := KeyIs(key, k);
    if s == [] || key(x) >= key(s[0]) {
      assert ([x] + s)[1..] == s;
    } else {
      InsertKeepsTies(x, s[1..], key, k);
      assert ([s[0]] + Insert(x, s[1..], key))[1..] == Insert(x, s[1..], key);
    }
  }

  /** The sort is stable: the elements with any one key come out in the
      order they went in. */
  lemma {:induction false} SortStable<T>(s: seq<T>, key: T -> int, k: int)
    ensures Filter(SortDesc(s, key), KeyIs(key, k)) == Filter(s, KeyIs(key, k))
  {
    if s != [] {
      SortStable(s[1..], key, k);
      InsertKeepsTies(s[0], SortDesc(s[1..], key), key, k);
    }
  }

  /** A prefix of a list sorted by key is sorted by key. */
  lemma TakeSorted<T>(s: seq<T>, n: nat, key: T -> int)
    requires SortedDesc(s, key)
    ensures SortedDesc(Take(s, n), key)
  {
  }

  /** `s.map(f)`. */
  function MapSeq<A, B>(s: seq<A>, f: A -> B): (r: seq<B>)
    ensures |r| == |s| && forall i :: 0 <= i < |s| ==> r[i] == f(s[i])
  {
    seq(|s|, i requires 0 <= i < |s| => f(s[i]))
  }

  /** Mapping by a function that keeps the key keeps a list sorted. */
  lemma MapSorted<A, B>(s: seq<A>, key: A -> int, f: A -> B, key2: B -> int)
    requires forall a :: key2(f(a)) == key(a)
    requires SortedDesc(s, key)
    ensures SortedDesc(MapSeq(s, f), key2)
  {
  }

  /** Inserting the image of `x` into the image of `s` is the image of the
      insertion, when the mapping keeps the key. */
  lemma {:induction false} InsertMap<A, B>(x: A, s: seq<A>, key: A -> int, f: A -> B, key2: B -> int)
    requires forall a :: key2(f(a)) == key(a)
    ensures Insert(f(x), MapSeq(s, f), key2) == MapSeq(Insert(x, s, key), f)
  {
    var m := MapSeq(s, f);
    if s == [] || key(x) >= key(s[0]) {
      assert MapSeq([x] + s, f) == [f(x)] + m;
    } else {
      assert m[1..] == MapSeq(s[1..], f);
      InsertMap(x, s[1..], key, f, key2);
      var t := Insert(x, s[1..], key);
      assert MapSeq([s[0]] + t, f) == [f(s[0])] + MapSeq(t, f);
    }
  }

  /** Sorting commutes with a mapping that keeps the key. */
  lemma {:induction false} SortMap<A, B>(s: seq<A>, key: A -> int, f: A -> B, key2: B -> int)
    requires forall a :: key2(f(a)) == key(a)
    ensures SortDesc(MapSeq(s, f), key2) == MapSeq(SortDesc(s, key), f)
  {
    if s != [] {
      var m := MapSeq(s, f);
      assert m[1..] == MapSeq(s[1..], f);
      SortMap(s[1..], key, f, key2);
      InsertMap(s[0], SortDesc(s[1..], key), key, f, key2);
      assert SortDesc(m, key2) == Insert(f(s[0]), SortDesc(m[1..], key2), key2);
    }
  }
}
