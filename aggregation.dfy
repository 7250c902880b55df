/** The two calculations over the response store: the mean engagement score
    and the frequency-ranked list of behavioural trait labels. */
module Aggregation {
  import opened Records
  import opened SurveyTypes

  // ---------------------------------------------------------------------
  // Engagement average

  function LikertSum(vs: seq<Likert>): int {
    if vs == [] then 0 else vs[0] + LikertSum(vs[1..])
  }

  /** Every value lies in 1..5, so the sum lies between n and 5n. */
  lemma {:induction false} LikertSumBounds(vs: seq<Likert>)
    ensures |vs| <= LikertSum(vs) <= 5 * |vs|
  {
    if vs != [] {
      LikertSumBounds(vs[1..]);
    }
  }

  lemma MeanBounds(sum: int, n: int)
    requires 0 < n && n <= sum <= 5 * n
    ensures 1.0 <= sum as real / n as real <= 5.0
  {
    var a, nr := sum as real / n as real, n as real;
    assert a * nr == sum as real;
    assert (a - 1.0) * nr == sum as real - nr;
    assert (a - 5.0) * nr == sum as real - 5.0 * nr;
  }

  /** The mean of the stored engagement answers, 0 when none is stored. */
  function EngagementAverage(responses: Entries<Likert>): (avg: real)
    ensures |responses| == 0 ==> avg == 0.0
    ensures |responses| > 0 ==> avg * (|responses| as real) == LikertSum(Values(responses)) as real
    ensures |responses| > 0 ==> 1.0 <= avg <= 5.0
  {
    var vs := Values(responses);
    if |vs| == 0 then 0.0
    else
      LikertSumBounds(vs);
      MeanBounds(LikertSum(vs), |vs|);
      LikertSum(vs) as real / |vs| as real
  }

  // ---------------------------------------------------------------------
  // Trait ranking

  /** A trait label and the number of answers that stored it. */
  type Tally = (string, nat)

  /** One pass of the counting loop: `counts[t] = (counts[t] || 0) + 1`. */
  function Increment(counts: Entries<nat>, t: string): Entries<nat> {
    var c := match Lookup(counts, t) case Some(n) => n case None => 0;
    Put(counts, t, c + 1)
  }

  /** The counts record after the loop has visited every value of `vs`. */
  function CountsOf(vs: seq<string>): Entries<nat> {
    if vs == [] then [] else Increment(CountsOf(vs[..|vs| - 1]), vs[|vs| - 1])
  }

  /** Array.prototype.sort with comparator `b[1] - a[1]`: a stable sort by
      descending count, written as an insertion sort.  The head is placed in
      front of every element whose count is not larger, so equal counts keep
      their input order. */
  function InsertByCount(x: Tally, t: seq<Tally>): seq<Tally> {
    if t == [] || t[0].1 <= x.1 then [x] + t else [t[0]] + InsertByCount(x, t[1..])
  }

  function SortByCount(s: seq<Tally>): seq<Tally> {
    if s == [] then [] else InsertByCount(s[0], SortByCount(s[1..]))
  }

  /** `getDominantTraits` on the values of the behavioural record. */
  function Ranking(vs: seq<string>): seq<Tally> {
    SortByCount(CountsOf(vs))
  }

  /** `traits[0]?.[0] || fallback`: the first label, unless there is none or
      it is the empty string. */
  function TopTraitOr(ranking: seq<Tally>, fallback: string): string {
    if ranking == [] || ranking[0].0 == "" then fallback else ranking[0].0
  }

  ghost predicate NonIncreasing(r: seq<Tally>) {
    forall i, j :: 0 <= i < j < |r| ==> r[i].1 >= r[j].1
  }

  /** Entries with equal counts appear in the order their labels first occur in `vs`. */
  ghost predicate TiesInFirstOccurrenceOrder(r: seq<Tally>, vs: seq<string>) {
    forall i, j :: 0 <= i < j < |r| && r[i].1 == r[j].1 ==> Position(vs, r[i].0) < Position(vs, r[j].0)
  }

  /** All entries appear in the order their labels first occur in `vs`. */
  ghost predicate InFirstOccurrenceOrder(r: seq<Tally>, vs: seq<string>) {
    forall i, j :: 0 <= i < j < |r| ==> Position(vs, r[i].0) < Position(vs, r[j].0)
  }

  /** Each entry carries the number of occurrences of its label. */
  ghost predicate CountsOccurrences(r: seq<Tally>, vs: seq<string>) {
    forall i :: 0 <= i < |r| ==> r[i].1 == multiset(vs)[r[i].0]
  }

  lemma PositionAppend(ws: seq<string>, v: string, x: string)
    requires x in ws
    ensures Position(ws + [v], x) == Position(ws, x)
  {
    PositionUnique(ws + [v], x, Position(ws, x));
  }

  /** What the counts record is after the loop has visited `vs`: one entry
      per distinct value, in first-occurrence order, each holding the number
      of occurrences, the counts adding up to the number of values. */
  ghost predicate CountsInvariant(m: Entries<nat>, vs: seq<string>) {
    && DistinctKeys(m)
    && (forall x :: x in Keys(m) <==> x in vs)
    && CountsOccurrences(m, vs)
    && InFirstOccurrenceOrder(m, vs)
    && Total(m) == |vs|
  }

  /** The labels recorded so far all occur in `ws`. */
  lemma LabelsSeen(m: Entries<nat>, ws: seq<string>)
    requires forall x :: x in Keys(m) <==> x in ws
    ensures forall i :: 0 <= i < |m| ==> m[i].0 in ws
  {
    forall i | 0 <= i < |m|
      ensures m[i].0 in ws
    {
      assert Keys(m)[i] == m[i].0;
    }
  }

  /** Appending a value keeps the first position of every label already seen. */
  lemma PositionsKept(m: Entries<nat>, ws: seq<string>, v: string)
    requires forall i :: 0 <= i < |m| ==> m[i].0 in ws
    ensures forall i :: 0 <= i < |m| ==> Position(ws + [v], m[i].0) == Position(ws, m[i].0) < |ws|
  {
    forall i | 0 <= i < |m|
      ensures Position(ws + [v], m[i].0) == Position(ws, m[i].0) < |ws|
    {
      PositionAppend(ws, v, m[i].0);
    }
  }

  /** Bumping the count of `v` where it stands keeps the record in
      first-occurrence order. */
  lemma BumpOrder(m: Entries<nat>, ws: seq<string>, v: string, p: nat)
    requires InFirstOccurrenceOrder(m, ws) && p < |m| && m[p].0 == v
    requires forall i :: 0 <= i < |m| ==> m[i].0 in ws
    ensures InFirstOccurrenceOrder(m[p := (v, m[p].1 + 1)], ws + [v])
  {
    PositionsKept(m, ws, v);
  }

  /** Bumping the count of `v` keeps every count equal to its label's occurrences. */
  lemma BumpOccurrences(m: Entries<nat>, ws: seq<string>, v: string, p: nat)
    requires CountsOccurrences(m, ws) && DistinctKeys(m) && p < |m| && m[p].0 == v
    ensures CountsOccurrences(m[p := (v, m[p].1 + 1)], ws + [v])
  {
    assert multiset(ws + [v]) == multiset(ws) + multiset{v};
  }

  /** Appending a new label keeps the record in first-occurrence order. */
  lemma AppendOrder(m: Entries<nat>, ws: seq<string>, v: string)
    requires InFirstOccurrenceOrder(m, ws) && v !in ws
    requires forall i :: 0 <= i < |m| ==> m[i].0 in ws
    ensures InFirstOccurrenceOrder(m + [(v, 1)], ws + [v])
  {
    PositionsKept(m, ws, v);
    PositionUnique(ws + [v], v, |ws|);
  }

  /** Appending a new label with count 1 keeps every count right. */
  lemma AppendOccurrences(m: Entries<nat>, ws: seq<string>, v: string)
    requires CountsOccurrences(m, ws) && v !in ws
    requires forall i :: 0 <= i < |m| ==> m[i].0 in ws
    ensures CountsOccurrences(m + [(v, 1)], ws + [v])
  {
    assert multiset(ws + [v]) == multiset(ws) + multiset{v};
  }

  /** Counting a label already seen bumps its entry where it stands. */
  lemma IncrementSeen(m: Entries<nat>, ws: seq<string>, v: string)
    requires CountsInvariant(m, ws) && v in ws
    ensures CountsInvariant(Increment(m, v), ws + [v])
  {
    var p := Position(Keys(m), v);
    assert Keys(m)[p] == m[p].0;
    IncrementAt(m, v, p);
    LabelsSeen(m, ws);
    BumpOrder(m, ws, v, p);
    BumpOccurrences(m, ws, v, p);
    PutKeys(m, v, m[p].1 + 1);
    TotalUpdate(m, p, (v, m[p].1 + 1));
  }

  /** Counting a new label appends it with count 1. */
  lemma IncrementUnseen(m: Entries<nat>, ws: seq<string>, v: string)
    requires CountsInvariant(m, ws) && v !in ws
    ensures CountsInvariant(Increment(m, v), ws + [v])
  {
    assert v !in Keys(m);
    IncrementNew(m, v);
    LabelsSeen(m, ws);
    AppendOrder(m, ws, v);
    AppendOccurrences(m, ws, v);
    PutKeys(m, v, 1);
    TotalAppend(m, (v, 1));
  }

  lemma {:induction false} CountsFacts(vs: seq<string>)
    ensures CountsInvariant(CountsOf(vs), vs)
  {
    if vs != [] {
      var ws, v := vs[..|vs| - 1], vs[|vs| - 1];
      assert vs == ws + [v];
      CountsFacts(ws);
      if v in ws {
        IncrementSeen(CountsOf(ws), ws, v);
      } else {
        IncrementUnseen(CountsOf(ws), ws, v);
      }
    }
  }

  /** An element of a permutation that is not the added one comes from the rest. */
  lemma FromPermutation(r: seq<Tally>, t: seq<Tally>, x: Tally, j: nat)
    requires multiset(r) == multiset(t) + multiset{x}
    requires j < |r| && r[j] != x
    ensures exists k :: 0 <= k < |t| && t[k] == r[j]
  {
    assert r[j] in multiset(r);
    assert r[j] in multiset(t);
  }

  /** Inserting adds exactly `x` to the entries and `x.1` to the total. */
  lemma {:induction false} InsertPermutes(x: Tally, t: seq<Tally>)
    ensures multiset(InsertByCount(x, t)) == multiset(t) + multiset{x}
    ensures Total(InsertByCount(x, t)) == Total(t) + x.1
  {
    var r := InsertByCount(x, t);
    if t == [] || t[0].1 <= x.1 {
      assert r[1..] == t;
    } else {
      InsertPermutes(x, t[1..]);
      assert r[1..] == InsertByCount(x, t[1..]);
      assert t == [t[0]] + t[1..];
    }
  }

  lemma {:induction false} InsertOrders(x: Tally, t: seq<Tally>, vs: seq<string>)
    requires NonIncreasing(t) && TiesInFirstOccurrenceOrder(t, vs)
    requires forall i :: 0 <= i < |t| && t[i].1 == x.1 ==> Position(vs, x.0) < Position(vs, t[i].0)
    ensures NonIncreasing(InsertByCount(x, t))
    ensures TiesInFirstOccurrenceOrder(InsertByCount(x, t), vs)
  {
    if t == [] || t[0].1 <= x.1 {
      assert InsertByCount(x, t) == [x] + t;
      ConsOrdered(x, t, vs);
    } else {
      InsertOrders(x, t[1..], vs);
      InsertPermutes(x, t[1..]);
      InsertBehindHead(x, t, vs);
    }
  }

  /** The step of InsertOrders where `x` goes behind the head of `t`. */
  lemma InsertBehindHead(x: Tally, t: seq<Tally>, vs: seq<string>)
    requires t != [] && t[0].1 > x.1
    requires NonIncreasing(t) && TiesInFirstOccurrenceOrder(t, vs)
    requires multiset(InsertByCount(x, t[1..])) == multiset(t[1..]) + multiset{x}
    requires NonIncreasing(InsertByCount(x, t[1..]))
    requires TiesInFirstOccurrenceOrder(InsertByCount(x, t[1..]), vs)
    ensures NonIncreasing(InsertByCount(x, t))
    ensures TiesInFirstOccurrenceOrder(InsertByCount(x, t), vs)
  {
    var r' := InsertByCount(x, t[1..]);
    assert InsertByCount(x, t) == [t[0]] + r';
    forall j | 0 <= j < |r'|
      ensures t[0].1 >= r'[j].1
      ensures t[0].1 == r'[j].1 ==> Position(vs, t[0].0) < Position(vs, r'[j].0)
    {
      HeadPrecedes(x, t, r', vs, j);
    }
    ConsOrdered(t[0], r', vs);
  }

  /** Putting in front an entry that precedes every other keeps the order. */
  lemma ConsOrdered(e: Tally, r: seq<Tally>, vs: seq<string>)
    requires NonIncreasing(r) && TiesInFirstOccurrenceOrder(r, vs)
    requires forall j :: 0 <= j < |r| ==> e.1 >= r[j].1
    requires forall j :: 0 <= j < |r| && e.1 == r[j].1 ==> Position(vs, e.0) < Position(vs, r[j].0)
    ensures NonIncreasing([e] + r) && TiesInFirstOccurrenceOrder([e] + r, vs)
  {
    var r0 := [e] + r;
    forall i, j | 0 <= i < j < |r0|
      ensures r0[i].1 >= r0[j].1
      ensures r0[i].1 == r0[j].1 ==> Position(vs, r0[i].0) < Position(vs, r0[j].0)
    {
      assert r0[j] == r[j - 1];
      if i > 0 {
        assert r0[i] == r[i - 1];
      }
    }
  }

  /** The head of `t` stays in front of everything `x` joins it with. */
  lemma HeadPrecedes(x: Tally, t: seq<Tally>, r': seq<Tally>, vs: seq<string>, j: nat)
    requires t != [] && t[0].1 > x.1
    requires NonIncreasing(t) && TiesInFirstOccurrenceOrder(t, vs)
    requires multiset(r') == multiset(t[1..]) + multiset{x}
    requires j < |r'|
    ensures t[0].1 >= r'[j].1
    ensures t[0].1 == r'[j].1 ==> Position(vs, t[0].0) < Position(vs, r'[j].0)
  {
    if r'[j] != x {
      FromPermutation(r', t[1..], x, j);
      var k :| 0 <= k < |t[1..]| && t[1..][k] == r'[j];
      assert t[k + 1] == r'[j];
    }
  }

  lemma {:induction false} SortPermutes(s: seq<Tally>)
    ensures multiset(SortByCount(s)) == multiset(s)
    ensures Total(SortByCount(s)) == Total(s)
  {
    if s != [] {
      SortPermutes(s[1..]);
      InsertPermutes(s[0], SortByCount(s[1..]));
      assert s == [s[0]] + s[1..];
    }
  }

  lemma {:induction false} SortOrders(s: seq<Tally>, vs: seq<string>)
    requires InFirstOccurrenceOrder(s, vs)
    ensures NonIncreasing(SortByCount(s))
    ensures TiesInFirstOccurrenceOrder(SortByCount(s), vs)
  {
    if s != [] {
      var t := SortByCount(s[1..]);
      SortOrders(s[1..], vs);
      SortPermutes(s[1..]);
      forall i | 0 <= i < |t| && t[i].1 == s[0].1
        ensures Position(vs, s[0].0) < Position(vs, t[i].0)
      {
        assert t[i] in multiset(s[1..]);
        var k :| 0 <= k < |s[1..]| && s[1..][k] == t[i];
        assert s[k + 1] == t[i];
      }
      InsertOrders(s[0], t, vs);
    }
  }

  /** The sort is a permutation, orders by non-increasing count and breaks
      ties by input order. */
  lemma SortFacts(s: seq<Tally>, vs: seq<string>)
    requires InFirstOccurrenceOrder(s, vs)
    ensures multiset(SortByCount(s)) == multiset(s)
    ensures NonIncreasing(SortByCount(s))
    ensures TiesInFirstOccurrenceOrder(SortByCount(s), vs)
    ensures Total(SortByCount(s)) == Total(s)
  {
    SortPermutes(s);
    SortOrders(s, vs);
  }

  /** What the ranking promises: one entry per distinct label, with its
      positive number of occurrences, counts non-increasing, equal counts in
      first-occurrence order, counts adding up to the number of answers. */
  lemma RankingCorrect(vs: seq<string>)
    ensures CountsOccurrences(Ranking(vs), vs)
    ensures forall i :: 0 <= i < |Ranking(vs)| ==> Ranking(vs)[i].1 > 0
    ensures forall x :: x in Keys(Ranking(vs)) <==> x in vs
    ensures NonIncreasing(Ranking(vs))
    ensures TiesInFirstOccurrenceOrder(Ranking(vs), vs)
    ensures DistinctKeys(Ranking(vs))
    ensures Total(Ranking(vs)) == |vs|
    ensures Ranking(vs) == [] <==> vs == []
  {
    var m := CountsOf(vs);
    CountsFacts(vs);
    SortFacts(m, vs);
    PermutedCounts(m, Ranking(vs), vs);
    OccurrenceTiesAreDistinct(Ranking(vs), vs);
    if vs != [] {
      assert vs[0] in Keys(Ranking(vs));
    }
  }

  /** A permutation of the counts record tallies the same labels with the same counts. */
  lemma PermutedCounts(m: Entries<nat>, r: seq<Tally>, vs: seq<string>)
    requires CountsInvariant(m, vs) && multiset(r) == multiset(m)
    ensures CountsOccurrences(r, vs)
    ensures forall i :: 0 <= i < |r| ==> r[i].1 > 0
    ensures forall x :: x in Keys(r) <==> x in vs
  {
    forall i | 0 <= i < |r|
      ensures r[i].1 == multiset(vs)[r[i].0] && r[i].0 in vs && r[i].1 > 0
    {
      assert r[i] in multiset(m);
      var k :| 0 <= k < |m| && m[k] == r[i];
      assert Keys(m)[k] == r[i].0;
    }
    forall x | x in vs
      ensures x in Keys(r)
    {
      var k := Position(Keys(m), x);
      assert m[k] in multiset(r);
      var i :| 0 <= i < |r| && r[i] == m[k];
      assert Keys(r)[i] == x;
    }
  }

  /** Since a label's count is fixed by the label, two entries with the same
      label would tie, and ties are ordered strictly. */
  lemma OccurrenceTiesAreDistinct(r: seq<Tally>, vs: seq<string>)
    requires CountsOccurrences(r, vs) && TiesInFirstOccurrenceOrder(r, vs)
    ensures DistinctKeys(r)
  {
  }

  /** The dominant trait is a most frequent label, and among the most
      frequent ones the first to have been stored; with no answers the
      fallback is used. */
  lemma DominantTrait(vs: seq<string>, fallback: string)
    requires "" !in vs
    ensures vs == [] ==> TopTraitOr(Ranking(vs), fallback) == fallback
    ensures vs != [] ==> TopTraitOr(Ranking(vs), fallback) in vs
    ensures vs != [] ==> forall x :: x in vs ==>
              multiset(vs)[x] <= multiset(vs)[TopTraitOr(Ranking(vs), fallback)]
    ensures vs != [] ==> forall x :: x in vs && multiset(vs)[x] == multiset(vs)[TopTraitOr(Ranking(vs), fallback)] ==>
              Position(vs, TopTraitOr(Ranking(vs), fallback)) <= Position(vs, x)
  {
    RankingCorrect(vs);
    var r := Ranking(vs);
    if vs != [] {
      assert Keys(r)[0] == r[0].0;
      assert r[0].0 != "";
      forall x | x in vs
        ensures multiset(vs)[x] <= multiset(vs)[r[0].0]
        ensures multiset(vs)[x] == multiset(vs)[r[0].0] ==> Position(vs, r[0].0) <= Position(vs, x)
      {
        assert x in Keys(r);
        var i :| 0 <= i < |r| && Keys(r)[i] == x;
        assert r[i].0 == x;
      }
    }
  }

  /** Counting a label not yet in the record appends it with count 1. */
  lemma IncrementNew(m: Entries<nat>, t: string)
    requires t !in Keys(m)
    ensures Increment(m, t) == m + [(t, 1)]
  {
  }

  /** Counting a label already in the record raises its count in place. */
  lemma IncrementAt(m: Entries<nat>, t: string, i: nat)
    requires DistinctKeys(m) && i < |m| && m[i].0 == t
    ensures Increment(m, t) == m[i := (t, m[i].1 + 1)]
  {
    LookupAt(m, i);
    PositionUnique(Keys(m), t, i);
  }

  /** The counting loop, one value further. */
  lemma CountsSnoc(vs: seq<string>, v: string)
    ensures CountsOf(vs + [v]) == Increment(CountsOf(vs), v)
  {
    assert (vs + [v])[..|vs|] == vs;
  }

  /** Counting a label not yet in the record appends it with count 1. */
  lemma CountsNew(vs: seq<string>, c: Entries<nat>, v: string)
    requires CountsOf(vs) == c && v !in Keys(c)
    ensures CountsOf(vs + [v]) == c + [(v, 1)]
  {
    CountsSnoc(vs, v);
    IncrementNew(c, v);
  }

  /** Counting a label that is already in the record adds one to it. */
  lemma CountsSeen(vs: seq<string>, c: Entries<nat>, i: nat)
    requires CountsOf(vs) == c && DistinctKeys(c) && i < |c|
    ensures CountsOf(vs + [c[i].0]) == c[i := (c[i].0, c[i].1 + 1)]
  {
    CountsSnoc(vs, c[i].0);
    IncrementAt(c, c[i].0, i);
  }

  /** The counting loop of `getDominantTraits` followed by the sort. */
  method DominantTraits(responses: Entries<string>) returns (ranking: seq<Tally>)
    ensures ranking == Ranking(Values(responses))
    ensures CountsOccurrences(ranking, Values(responses))
    ensures forall x :: x in Keys(ranking) <==> x in Values(responses)
    ensures NonIncreasing(ranking)
    ensures TiesInFirstOccurrenceOrder(ranking, Values(responses))
    ensures Total(ranking) == |responses|
  {
    var values := Values(responses);
    var counts: Entries<nat> := [];
    for i := 0 to |values|
      invariant counts == CountsOf(values[..i])
    {
      assert values[..i + 1][..i] == values[..i];
      counts := Increment(counts, values[i]);
    }
    assert values[..|values|] == values;
    ranking := SortByCount(counts);
    RankingCorrect(values);
  }
}
