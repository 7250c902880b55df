/** Records: the plain JavaScript objects the session uses as dictionaries.
    An object keyed by strings is a sequence of (key, value) entries in
    insertion order, because `Object.values` and `Object.entries` list the
    entries in that order.  Writing `{ ...prev, [k]: v }` overwrites an
    existing key where it stands and appends a new one at the end. */
module Records {

  datatype Option<T> = None | Some(value: T)

  type Entries<V> = seq<(string, V)>

  /** The position of the first occurrence of `x` in `s`, or `|s|` when `x`
      does not occur. */
  function Position<T(==)>(s: seq<T>, x: T): (p: nat)
    ensures p <= |s|
    ensures p < |s| <==> x in s
    ensures p < |s| ==> s[p] == x
    ensures forall j :: 0 <= j < p ==> s[j] != x
  {
    if s == [] then 0
    else if s[0] == x then 0
    else 1 + Position(s[1..], x)
  }

  /** The first-occurrence conditions determine the position. */
  lemma PositionUnique<T>(s: seq<T>, x: T, p: nat)
    requires p <= |s|
    requires p < |s| ==> s[p] == x
    requires p == |s| ==> x !in s
    requires forall j :: 0 <= j < p ==> s[j] != x
    ensures Position(s, x) == p
  {
  }

  function Keys<V>(m: Entries<V>): seq<string> {
    seq(|m|, i requires 0 <= i < |m| => m[i].0)
  }

  /** `Object.values`: the values in insertion order. */
  function Values<V>(m: Entries<V>): seq<V> {
    seq(|m|, i requires 0 <= i < |m| => m[i].1)
  }

  /** A JavaScript object never holds a key twice. */
  predicate DistinctKeys<V>(m: Entries<V>) {
    forall i, j :: 0 <= i < j < |m| ==> m[i].0 != m[j].0
  }

  /** `m[k]`: the value stored under `k`, or `undefined` (None). */
  function Lookup<V>(m: Entries<V>, k: string): Option<V> {
    var p := Position(Keys(m), k);
    if p < |m| then Some(m[p].1) else None
  }

  /** `{ ...m, [k]: v }`. */
  function Put<V>(m: Entries<V>, k: string, v: V): (r: Entries<V>)
    ensures Keys(r) == if k in Keys(m) then Keys(m) else Keys(m) + [k]
    ensures k !in Keys(m) ==> r == m + [(k, v)]
    ensures k in Keys(m) ==> r == m[Position(Keys(m), k) := (k, v)]
    ensures DistinctKeys(m) ==> forall i :: 0 <= i < |m| ==>
              r[i] == if m[i].0 == k then (k, v) else m[i]
  {
    var p := Position(Keys(m), k);
    assert forall i :: 0 <= i < |m| ==> Keys(m)[i] == m[i].0;
    if p < |m| then m[p := (k, v)] else m + [(k, v)]
  }

  /** Reading back after a write: the written key gives the new value, every
      other key what it gave before. */
  lemma PutLookup<V>(m: Entries<V>, k: string, v: V, j: string)
    ensures Lookup(Put(m, k, v), j) == if j == k then Some(v) else Lookup(m, j)
  {
    var r := Put(m, k, v);
    var q := Position(Keys(m), j);
    if k !in Keys(m) {
      if j == k {
        PositionUnique(Keys(r), k, |m|);
      } else if q < |m| {
        PositionUnique(Keys(r), j, q);
      } else {
        PositionUnique(Keys(r), j, |r|);
      }
    }
  }

  /** A write changes what no other key gives. */
  lemma PutLookupOthers<V>(m: Entries<V>, k: string, v: V)
    ensures Lookup(Put(m, k, v), k) == Some(v)
    ensures forall j :: j != k ==> Lookup(Put(m, k, v), j) == Lookup(m, j)
  {
    forall j {
      PutLookup(m, k, v, j);
    }
  }

  /** The keys after a write are the old keys and the written one; no key is
      duplicated by it. */
  lemma PutKeys<V>(m: Entries<V>, k: string, v: V)
    ensures forall x :: x in Keys(Put(m, k, v)) <==> x == k || x in Keys(m)
    ensures DistinctKeys(m) ==> DistinctKeys(Put(m, k, v))
  {
    var r := Put(m, k, v);
    if DistinctKeys(m) {
      forall i, j | 0 <= i < j < |r|
        ensures r[i].0 != r[j].0
      {
        assert Keys(r)[i] == r[i].0 && Keys(r)[j] == r[j].0;
        if j == |m| {
          assert Keys(m)[i] == m[i].0;
        } else {
          assert Keys(m)[i] == m[i].0 && Keys(m)[j] == m[j].0;
        }
      }
    }
  }

  /** For distinct keys, the entry at a key's position is what `Lookup` finds. */
  lemma LookupAt<V>(m: Entries<V>, i: nat)
    requires DistinctKeys(m) && i < |m|
    ensures Lookup(m, m[i].0) == Some(m[i].1)
  {
    PositionUnique(Keys(m), m[i].0, i);
  }

  /** The sum of the values of a record of counts. */
  function Total(m: Entries<nat>): nat {
    if m == [] then 0 else m[0].1 + Total(m[1..])
  }

  lemma {:induction false} TotalAppend(m: Entries<nat>, e: (string, nat))
    ensures Total(m + [e]) == Total(m) + e.1
  {
    if m != [] {
      assert (m + [e])[1..] == m[1..] + [e];
      TotalAppend(m[1..], e);
    }
  }

  lemma {:induction false} TotalUpdate(m: Entries<nat>, i: nat, e: (string, nat))
    requires i < |m|
    ensures Total(m[i := e]) == Total(m) - m[i].1 + e.1
  {
    if i > 0 {
      assert m[i := e][1..] == m[1..][i - 1 := e];
      TotalUpdate(m[1..], i - 1, e);
    }
  }
}
