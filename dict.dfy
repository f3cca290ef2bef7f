/** A JavaScript plain object used as a dictionary: an association list that
    keeps its keys in insertion order (the order `Object.keys`/`Object.entries`
    report for non-numeric keys). `{ ...d, [k]: v }` is `Put`. */
module Dicts {
  import opened Wrappers

  type Dict<V> = seq<(string, V)>

  function Keys<V>(d: Dict<V>): (r: seq<string>)
    ensures |r| == |d|
    ensures forall i :: 0 <= i < |d| ==> r[i] == d[i].0
  {
    seq(|d|, i requires 0 <= i < |d| => d[i].0)
  }

  /** No key occurs twice, as in every JavaScript object. */
  predicate UniqueKeys<V>(d: Dict<V>) {
    forall i, j :: 0 <= i < j < |d| ==> d[i].0 != d[j].0
  }

  predicate HasKey<V>(d: Dict<V>, k: string) {
    exists i | 0 <= i < |d| :: d[i].0 == k
  }

  /** Property read `d[k]`; `None` is `undefined`. */
  function Lookup<V>(d: Dict<V>, k: string): (r: Option<V>)
    ensures r.None? <==> !HasKey(d, k)
    ensures r.Some? ==> exists i | 0 <= i < |d| :: d[i] == (k, r.value)
  {
    if d == [] then None
    else if d[0].0 == k then Some(d[0].1)
    else
      var r := Lookup(d[1..], k);
      assert HasKey(d, k) ==> HasKey(d[1..], k) by {
        if HasKey(d, k) {
          var i :| 0 <= i < |d| && d[i].0 == k;
          assert d[1..][i - 1].0 == k;
        }
      }
      assert r.Some? ==> exists i | 0 <= i < |d| :: d[i] == (k, r.value) by {
        if r.Some? {
          var i :| 0 <= i < |d[1..]| && d[1..][i] == (k, r.value);
          assert d[i + 1] == (k, r.value);
        }
      }
      r
  }

  /** Reading the key at position `i`, when no earlier entry has that key,
      gives the value at `i`. */
  lemma {:induction false} LookupFirst<V>(d: Dict<V>, i: nat)
    requires i < |d|
    requires forall j | 0 <= j < i :: d[j].0 != d[i].0
    ensures Lookup(d, d[i].0) == Some(d[i].1)
  {
    if i > 0 {
      assert d[0].0 != d[i].0;
      assert d[1..][i - 1] == d[i];
      LookupFirst(d[1..], i - 1);
    }
  }

  /** `{ ...d, [k]: v }`: an existing key keeps its position and takes the new
      value; a new key is appended at the end. */
  function Put<V>(d: Dict<V>, k: string, v: V): Dict<V> {
    if d == [] then [(k, v)]
    else if d[0].0 == k then [(k, v)] + d[1..]
    else [d[0]] + Put(d[1..], k, v)
  }

  lemma HasKeyTail<V>(d: Dict<V>, k: string)
    requires d != [] && d[0].0 != k
    ensures HasKey(d, k) <==> HasKey(d[1..], k)
  {
    if HasKey(d, k) {
      var i :| 0 <= i < |d| && d[i].0 == k;
      assert d[1..][i - 1].0 == k;
    }
    if HasKey(d[1..], k) {
      var i :| 0 <= i < |d[1..]| && d[1..][i].0 == k;
      assert d[i + 1].0 == k;
    }
  }

  /** `Put` keeps the key order: an existing key stays where it is, a new one
      comes last. */
  lemma {:induction false} PutKeys<V>(d: Dict<V>, k: string, v: V)
    ensures Keys(Put(d, k, v)) == if HasKey(d, k) then Keys(d) else Keys(d) + [k]
  {
    if d == [] {
    } else if d[0].0 == k {
      assert HasKey(d, k) by { assert d[0].0 == k; }
      KeysCons((k, v), d[1..]);
      KeysCons(d[0], d[1..]);
      assert d == [d[0]] + d[1..];
    } else {
      var t := Put(d[1..], k, v);
      PutKeys(d[1..], k, v);
      HasKeyTail(d, k);
      KeysCons(d[0], t);
      KeysCons(d[0], d[1..]);
      assert d == [d[0]] + d[1..];
    }
  }

  lemma KeysCons<V>(entry: (string, V), d: Dict<V>)
    ensures Keys([entry] + d) == [entry.0] + Keys(d)
  {
    var a, b := Keys([entry] + d), [entry.0] + Keys(d);
    forall i | 0 <= i < |a|
      ensures a[i] == b[i]
    {
      if i > 0 {
        assert ([entry] + d)[i] == d[i - 1];
      }
    }
    assert a == b;
  }

  lemma HasKeyInKeys<V>(d: Dict<V>, k: string)
    ensures HasKey(d, k) <==> k in Keys(d)
  {
    if k in Keys(d) {
      var i :| 0 <= i < |d| && Keys(d)[i] == k;
      assert d[i].0 == k;
    }
  }

  /** `Put` adds its key and keeps every other one. */
  lemma PutHasKey<V>(d: Dict<V>, k: string, v: V, other: string)
    ensures HasKey(Put(d, k, v), other) <==> HasKey(d, other) || other == k
  {
    PutKeys(d, k, v);
    HasKeyInKeys(d, other);
    HasKeyInKeys(Put(d, k, v), other);
    HasKeyInKeys(d, k);
  }

  /** After `Put(d, k, v)`, reading `k` gives `v`. */
  lemma {:induction false} PutLookupSame<V>(d: Dict<V>, k: string, v: V)
    ensures Lookup(Put(d, k, v), k) == Some(v)
  {
    if d != [] && d[0].0 != k {
      PutLookupSame(d[1..], k, v);
    }
  }

  /** After `Put(d, k, v)`, every other key reads as before. */
  lemma {:induction false} PutLookupOther<V>(d: Dict<V>, k: string, v: V, other: string)
    requires other != k
    ensures Lookup(Put(d, k, v), other) == Lookup(d, other)
  {
    if d != [] && d[0].0 != k {
      PutLookupOther(d[1..], k, v, other);
    }
  }

  /** After `Put(d, k, v)`, `k` reads `v` and every other key reads as before. */
  lemma PutLookup<V>(d: Dict<V>, k: string, v: V)
    ensures forall f :: Lookup(Put(d, k, v), f) == if f == k then Some(v) else Lookup(d, f)
  {
    forall f ensures Lookup(Put(d, k, v), f) == if f == k then Some(v) else Lookup(d, f) {
      if f == k { PutLookupSame(d, k, v); } else { PutLookupOther(d, k, v, f); }
    }
  }

  /** `Put` keeps keys unique. */
  lemma {:induction false} PutUnique<V>(d: Dict<V>, k: string, v: V)
    requires UniqueKeys(d)
    ensures UniqueKeys(Put(d, k, v))
  {
    var r := Put(d, k, v);
    PutKeys(d, k, v);
    if d != [] && d[0].0 == k {
      assert forall i :: 0 <= i < |d| ==> r[i].0 == Keys(r)[i] == Keys(d)[i] == d[i].0;
    } else if d != [] {
      var t := Put(d[1..], k, v);
      PutUnique(d[1..], k, v);
      PutKeys(d[1..], k, v);
      HasKeyTail(d, k);
      assert r == [d[0]] + t;
      forall i | 0 <= i < |t| ensures t[i].0 != d[0].0 {
        assert t[i].0 == Keys(t)[i];
        if i < |d[1..]| {
          assert Keys(t)[i] == Keys(d[1..])[i] == d[i + 1].0;
        }
      }
    }
  }
}
