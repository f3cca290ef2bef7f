/** Counting into a plain object, as `forEach(x => counts[k] = (counts[k] || 0) + 1)`
    does: a key is appended the first time it is seen and its count goes up
    by one each time. */
module Tallies {
  import opened Wrappers
  import opened Dicts
  import opened Lists

  /** `counts[k] = (counts[k] || 0) + 1`. */
  function Bump(counts: Dict<nat>, k: string): Dict<nat> {
    Put(counts, k, Lookup(counts, k).GetOr(0) + 1)
  }

  /** The object after counting every key of `keys` in order. */
  function Tally(keys: seq<string>): Dict<nat>
    decreases |keys|
  {
    if keys == [] then [] else Bump(Tally(keys[..|keys| - 1]), keys[|keys| - 1])
  }

  /** The sum of the counts. */
  function Sum(d: Dict<nat>): nat {
    if d == [] then 0 else d[0].1 + Sum(d[1..])
  }

  /** How often `k` occurs in `keys`. */
  function Occurrences(keys: seq<string>, k: string): nat {
    Count(keys, IsKey(k))
  }

  function IsKey(k: string): string -> bool {
    (x: string) => x == k
  }

  /** The `forEach` loop. */
  method TallyKeys(keys: seq<string>) returns (counts: Dict<nat>)
    ensures counts == Tally(keys)
  {
    counts := [];
    var i := 0;
    while i < |keys|
      invariant 0 <= i <= |keys|
      invariant counts == Tally(keys[..i])
    {
      assert keys[..i + 1][..i] == keys[..i];
      var prev := Lookup(counts, keys[i]);
      counts := Put(counts, keys[i], prev.GetOr(0) + 1);
      i := i + 1;
    }
    assert keys[..i] == keys;
  }

  /** Writing `v` at `k` changes the sum by `v` less what `k` held before. */
  lemma {:induction false} SumPut(d: Dict<nat>, k: string, v: nat)
    ensures Sum(Put(d, k, v)) + Lookup(d, k).GetOr(0) == Sum(d) + v
  {
    if d != [] && d[0].0 != k {
      SumPut(d[1..], k, v);
      assert Put(d, k, v)[1..] == Put(d[1..], k, v);
    } else if d != [] {
      assert Put(d, k, v)[1..] == d[1..];
    }
  }

  /** The counts add up to the number of keys counted. */
  lemma {:induction false} TallySum(keys: seq<string>)
    ensures Sum(Tally(keys)) == |keys|
    decreases |keys|
  {
    if keys != [] {
      var t := Tally(keys[..|keys| - 1]);
      var k := keys[|keys| - 1];
      TallySum(keys[..|keys| - 1]);
      SumPut(t, k, Lookup(t, k).GetOr(0) + 1);
    }
  }

  /** The count stored under `k` is how often `k` occurs. */
  lemma {:induction false} TallyCount(keys: seq<string>, k: string)
    ensures Lookup(Tally(keys), k).GetOr(0) == Occurrences(keys, k)
    decreases |keys|
  {
    if keys != [] {
      var init, last := keys[..|keys| - 1], keys[|keys| - 1];
      var t := Tally(init);
      TallyCount(init, k);
      assert Tally(keys) == Bump(t, last);
      assert keys == init + [last];
      FilterConcat(init, [last], IsKey(k));
      assert Occurrences(keys, k) == Occurrences(init, k) + |Filter([last], IsKey(k))|;
      var c := Lookup(t, last).GetOr(0);
      if last == k {
        PutLookupSame(t, k, c + 1);
        assert IsKey(k)(last);
        assert Filter([last], IsKey(k)) == [last] + Filter([last][1..], IsKey(k));
      } else {
        PutLookupOther(t, last, c + 1, k);
        assert !IsKey(k)(last);
        assert Filter([last], IsKey(k)) == Filter([last][1..], IsKey(k));
      }
    }
  }

  /** A key is in the result exactly when it was counted at least once. */
  lemma {:induction false} TallyHasKey(keys: seq<string>, k: string)
    ensures HasKey(Tally(keys), k) <==> k in keys
    decreases |keys|
  {
    if keys != [] {
      var init, last := keys[..|keys| - 1], keys[|keys| - 1];
      var t := Tally(init);
      TallyHasKey(init, k);
      assert keys == init + [last];
      PutHasKey(t, last, Lookup(t, last).GetOr(0) + 1, k);
    }
  }

  /** Each key appears once. */
  lemma {:induction false} TallyUnique(keys: seq<string>)
    ensures UniqueKeys(Tally(keys))
    decreases |keys|
  {
    if keys != [] {
      var t := Tally(keys[..|keys| - 1]);
      var k := keys[|keys| - 1];
      TallyUnique(keys[..|keys| - 1]);
      PutUnique(t, k, Lookup(t, k).GetOr(0) + 1);
    }
  }
}
