/** The counting objects built by `reduce((acc, x) => { acc[k] = (acc[k] || 0) + 1; return acc; }, {})`,
    as lists of buckets in key-insertion order. */
module Tally {

  /** One key of a counting object with its count. */
  datatype Bucket = Bucket(key: string, count: nat)

  /** `acc[k] || 0`. */
  function Lookup(t: seq<Bucket>, k: string): nat
  {
    if t == [] then 0 else if t[0].key == k then t[0].count else Lookup(t[1..], k)
  }

  /** `k` is one of `Object.keys(t)`. */
  predicate HasKey(t: seq<Bucket>, k: string)
  {
    t != [] && (t[0].key == k || HasKey(t[1..], k))
  }

  /** `k` is a key exactly when some bucket holds it. */
  lemma {:induction false} HasKeyIndex(t: seq<Bucket>, k: string)
    ensures HasKey(t, k) <==> exists i :: 0 <= i < |t| && t[i].key == k
  {
    if t != [] {
      HasKeyIndex(t[1..], k);
      assert forall i :: 1 <= i < |t| ==> t[i] == t[1..][i - 1];
    }
  }

  /** `Object.values(t).reduce((a, b) => a + b, 0)`. */
  function Sum(t: seq<Bucket>): nat
  {
    if t == [] then 0 else t[0].count + Sum(t[1..])
  }

  /** No single count exceeds the total. */
  lemma {:induction false} LookupAtMostSum(t: seq<Bucket>)
    ensures forall k :: Lookup(t, k) <= Sum(t)
  {
    if t != [] {
      LookupAtMostSum(t[1..]);
    }
  }

  /** Keys are distinct and every present key has count at least 1. */
  ghost predicate WellFormed(t: seq<Bucket>)
  {
    (forall i, j :: 0 <= i < j < |t| ==> t[i].key != t[j].key) &&
    (forall i :: 0 <= i < |t| ==> t[i].count >= 1)
  }

  /** `acc[k] = (acc[k] || 0) + 1`: a new key goes last. */
  function Bump(t: seq<Bucket>, k: string): (r: seq<Bucket>)
    ensures Lookup(r, k) == Lookup(t, k) + 1
    ensures forall j :: j != k ==> Lookup(r, j) == Lookup(t, j)
    ensures Sum(r) == Sum(t) + 1
    ensures forall j :: HasKey(r, j) <==> HasKey(t, j) || j == k
  {
    if t == [] then [Bucket(k, 1)]
    else if t[0].key == k then [Bucket(k, t[0].count + 1)] + t[1..]
    else [t[0]] + Bump(t[1..], k)
  }

  /** The left-to-right fold that counts each key. */
  function Count(keys: seq<string>): (r: seq<Bucket>)
    ensures Sum(r) == |keys|
    ensures forall k :: HasKey(r, k) <==> k in keys
  {
    if keys == [] then []
    else
      var init, last := keys[..|keys| - 1], keys[|keys| - 1];
      assert keys == init + [last];
      assert forall k :: k in keys <==> k in init || k == last;
      Bump(Count(init), last)
  }

  /** Number of positions of `keys` holding `k`. */
  function Occurrences(keys: seq<string>, k: string): nat
  {
    if keys == [] then 0 else (if keys[0] == k then 1 else 0) + Occurrences(keys[1..], k)
  }

  lemma {:induction false} OccurrencesAppend(a: seq<string>, b: seq<string>, k: string)
    ensures Occurrences(a + b, k) == Occurrences(a, k) + Occurrences(b, k)
  {
    if a == [] {
      assert a + b == b;
    } else {
      assert (a + b)[1..] == a[1..] + b;
      OccurrencesAppend(a[1..], b, k);
    }
  }

  lemma {:induction false} OccurrencesPositive(keys: seq<string>, k: string)
    ensures Occurrences(keys, k) > 0 <==> k in keys
  {
    if keys != [] {
      OccurrencesPositive(keys[1..], k);
      assert keys == [keys[0]] + keys[1..];
    }
  }

  /** Each key's count is its number of occurrences. */
  lemma {:induction false} CountLookup(keys: seq<string>, k: string)
    ensures Lookup(Count(keys), k) == Occurrences(keys, k)
  {
    if keys != [] {
      var init, last := keys[..|keys| - 1], keys[|keys| - 1];
      CountLookup(init, k);
      OccurrencesAppend(init, [last], k);
      assert init + [last] == keys;
    }
  }

  /** In a well-formed tally a key is present exactly when its count is positive. */
  lemma {:induction false} LookupPositive(t: seq<Bucket>, k: string)
    requires WellFormed(t)
    ensures Lookup(t, k) > 0 <==> HasKey(t, k)
  {
    if t != [] {
      assert WellFormed(t[1..]);
      LookupPositive(t[1..], k);
    }
  }

  /** A bucket with a new key in front of a well-formed tally. */
  lemma ConsWellFormed(b: Bucket, rest: seq<Bucket>)
    requires WellFormed(rest) && b.count >= 1 && !HasKey(rest, b.key)
    ensures WellFormed([b] + rest)
  {
    HasKeyIndex(rest, b.key);
    var r := [b] + rest;
    forall i, j | 0 <= i < j < |r| ensures r[i].key != r[j].key {
      assert r[j] == rest[j - 1];
      if i > 0 {
        assert r[i] == rest[i - 1];
      }
    }
    assert forall i :: 0 < i < |r| ==> r[i] == rest[i - 1];
  }

  lemma {:induction false} BumpWellFormed(t: seq<Bucket>, k: string)
    requires WellFormed(t)
    ensures WellFormed(Bump(t, k))
  {
    if t == [] {
    } else if t[0].key == k {
      var r := Bump(t, k);
      assert forall i :: 0 < i < |t| ==> r[i] == t[i];
    } else {
      var tail := t[1..];
      assert forall i :: 0 <= i < |tail| ==> tail[i] == t[i + 1];
      BumpWellFormed(tail, k);
      HasKeyIndex(tail, t[0].key);
      ConsWellFormed(t[0], Bump(tail, k));
    }
  }

  /** The fold produces distinct keys, each counted at least once. */
  lemma {:induction false} CountWellFormed(keys: seq<string>)
    ensures WellFormed(Count(keys))
  {
    if keys != [] {
      CountWellFormed(keys[..|keys| - 1]);
      BumpWellFormed(Count(keys[..|keys| - 1]), keys[|keys| - 1]);
    }
  }
}
