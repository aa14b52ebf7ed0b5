/**
 * Grouping by day, as the sales and finance reports do it: a JavaScript
 * object keyed by the `yyyy-MM-dd` day of each order is filled in order
 * (a bucket is opened with zero figures the first time a day is seen, then
 * the order's figures are added to it), read back with `Object.values` in
 * key-insertion order, and the rows are sorted by day with `localeCompare`.
 *
 * Everything here is generic in the figures `F` a bucket holds, the zero
 * bucket and the addition.
 */
module DayBuckets {
  import opened Text

  /** Some item falls on `day`. */
  predicate HasDay<F>(items: seq<(string, F)>, day: string)
  {
    exists k :: 0 <= k < |items| && items[k].0 == day
  }

  predicate Distinct(days: seq<string>)
  {
    forall i, j :: 0 <= i < j < |days| ==> days[i] != days[j]
  }

  /** The days of `items`, each once, in order of first appearance: the key order of the bucket object. */
  function DistinctDays<F>(items: seq<(string, F)>): (days: seq<string>)
    ensures Distinct(days)
    ensures forall d :: d in days <==> HasDay(items, d)
  {
    if items == [] then []
    else
      var init := items[..|items| - 1];
      var p := DistinctDays(init);
      var d := items[|items| - 1].0;
      assert forall e :: HasDay(init, e) ==> HasDay(items, e) by {
        forall e | HasDay(init, e) ensures HasDay(items, e) {
          var k :| 0 <= k < |init| && init[k].0 == e;
          assert items[k].0 == e;
        }
      }
      assert forall e :: HasDay(items, e) ==> HasDay(init, e) || e == d by {
        forall e | HasDay(items, e) && e != d ensures HasDay(init, e) {
          var k :| 0 <= k < |items| && items[k].0 == e;
          assert init[k].0 == e;
        }
      }
      if d in p then p else p + [d]
  }

  /** What the bucket for `day` holds after all of `items`: `zero` plus the figures of that day, in order. */
  function DayTotal<F>(items: seq<(string, F)>, day: string, zero: F, add: (F, F) -> F): F
  {
    if items == [] then zero
    else
      var t := DayTotal(items[..|items| - 1], day, zero, add);
      if items[|items| - 1].0 == day then add(t, items[|items| - 1].1) else t
  }

  /** The number of items that fall on `day`. */
  function DayCount<F>(items: seq<(string, F)>, day: string): nat
  {
    if items == [] then 0
    else DayCount(items[..|items| - 1], day) + (if items[|items| - 1].0 == day then 1 else 0)
  }

  /** Exactly the days that occur have a non-zero count. */
  lemma {:induction false} DayCountPositive<F>(items: seq<(string, F)>, day: string)
    ensures DayCount(items, day) > 0 <==> HasDay(items, day)
  {
    if items != [] {
      var init := items[..|items| - 1];
      DayCountPositive(init, day);
      if HasDay(init, day) {
        var k :| 0 <= k < |init| && init[k].0 == day;
        assert items[k].0 == day;
      }
      if HasDay(items, day) && items[|items| - 1].0 != day {
        var k :| 0 <= k < |items| && items[k].0 == day;
        assert init[k].0 == day;
      }
    }
  }

  /** A day that does not occur keeps the zero bucket. */
  lemma {:induction false} DayTotalAbsent<F>(items: seq<(string, F)>, day: string, zero: F, add: (F, F) -> F)
    requires !HasDay(items, day)
    ensures DayTotal(items, day, zero, add) == zero
  {
    if items != [] {
      var init := items[..|items| - 1];
      forall k | 0 <= k < |init| ensures init[k].0 != day {
        assert init[k] == items[k];
      }
      DayTotalAbsent(init, day, zero, add);
    }
  }

  /** The bucket object after `items`: one bucket per day seen, each holding that day's total. */
  ghost predicate Buckets<F>(buckets: map<string, F>, days: seq<string>, items: seq<(string, F)>, zero: F, add: (F, F) -> F)
  {
    && days == DistinctDays(items)
    && (forall d :: d in buckets <==> d in days)
    && (forall d :: d in buckets ==> buckets[d] == DayTotal(items, d, zero, add))
  }

  /** Opening the bucket of a new day with `zero` and adding one item's figures keeps the bucket object exact. */
  lemma Deposit<F>(buckets: map<string, F>, days: seq<string>, items: seq<(string, F)>,
                   day: string, f: F, zero: F, add: (F, F) -> F)
    requires Buckets(buckets, days, items, zero, add)
    ensures var filled := if day in buckets then buckets else buckets[day := zero];
      Buckets(filled[day := add(filled[day], f)], if day in buckets then days else days + [day],
              items + [(day, f)], zero, add)
  {
    var next := items + [(day, f)];
    assert next[..|next| - 1] == items;
    if day !in buckets {
      DayTotalAbsent(items, day, zero, add);
    }
  }

  /** The bucket contents read back in key-insertion order, as `Object.values` returns them. */
  function Values<F>(buckets: map<string, F>, days: seq<string>): (vs: seq<F>)
    requires forall d :: d in days ==> d in buckets
    ensures |vs| == |days|
    ensures forall i :: 0 <= i < |days| ==> vs[i] == buckets[days[i]]
  {
    seq(|days|, i requires 0 <= i < |days| => buckets[days[i]])
  }

  // ---------------------------------------------------------------- sort

  /** Strictly ascending by key: in `LexLessEq` order, and no key twice. */
  predicate StrictlyAscending<T>(xs: seq<T>, key: T -> string)
  {
    forall i, j :: 0 <= i < j < |xs| ==> LexLessEq(key(xs[i]), key(xs[j])) && key(xs[i]) != key(xs[j])
  }

  predicate KeysDistinct<T>(xs: seq<T>, key: T -> string)
  {
    forall i, j :: 0 <= i < j < |xs| ==> key(xs[i]) != key(xs[j])
  }

  /** `x` placed before the first element whose key is not below its own. */
  function InsertByKey<T>(sorted: seq<T>, x: T, key: T -> string): (r: seq<T>)
    ensures |r| == |sorted| + 1
    ensures multiset(r) == multiset(sorted) + multiset{x}
  {
    if sorted == [] then [x]
    else if LexLessEq(key(x), key(sorted[0])) then [x] + sorted
    else
      assert sorted == [sorted[0]] + sorted[1..];
      [sorted[0]] + InsertByKey(sorted[1..], x, key)
  }

  /** `rows.sort((a, b) => key(a).localeCompare(key(b)))`, as an insertion sort. */
  function SortByKey<T>(xs: seq<T>, key: T -> string): (r: seq<T>)
    ensures |r| == |xs|
    ensures multiset(r) == multiset(xs)
  {
    if xs == [] then []
    else
      assert xs == xs[..|xs| - 1] + [xs[|xs| - 1]];
      InsertByKey(SortByKey(xs[..|xs| - 1], key), xs[|xs| - 1], key)
  }

  lemma {:induction false} InsertKeepsAscending<T>(sorted: seq<T>, x: T, key: T -> string)
    requires StrictlyAscending(sorted, key)
    requires forall i :: 0 <= i < |sorted| ==> key(sorted[i]) != key(x)
    ensures StrictlyAscending(InsertByKey(sorted, x, key), key)
  {
    var r := InsertByKey(sorted, x, key);
    if sorted == [] {
    } else if LexLessEq(key(x), key(sorted[0])) {
      forall j | 1 <= j < |r|
        ensures LexLessEq(key(x), key(r[j])) && key(x) != key(r[j])
      {
        assert r[j] == sorted[j - 1];
        if j > 1 {
          LexTransitive(key(x), key(sorted[0]), key(sorted[j - 1]));
        }
      }
    } else {
      var tail := sorted[1..];
      InsertKeepsAscending(tail, x, key);
      var s := InsertByKey(tail, x, key);
      assert r == [sorted[0]] + s;
      LexTotal(key(x), key(sorted[0]));
      forall i | 0 <= i < |tail|
        ensures LexLessEq(key(sorted[0]), key(tail[i])) && key(sorted[0]) != key(tail[i])
      {
        assert tail[i] == sorted[i + 1];
      }
      InsertStaysAbove(tail, x, key, key(sorted[0]));
      forall i, j | 0 <= i < j < |r|
        ensures LexLessEq(key(r[i]), key(r[j])) && key(r[i]) != key(r[j])
      {
        assert r[j] == s[j - 1];
        if i > 0 {
          assert r[i] == s[i - 1];
          assert LexLessEq(key(s[i - 1]), key(s[j - 1])) && key(s[i - 1]) != key(s[j - 1]);
        } else {
          assert r[i] == sorted[0];
          assert LexLessEq(key(sorted[0]), key(s[j - 1])) && key(sorted[0]) != key(s[j - 1]);
        }
      }
    }
  }

  /** Inserting a row keyed above `lo` among rows keyed above `lo` keeps every key above `lo`. */
  lemma InsertStaysAbove<T>(rows: seq<T>, x: T, key: T -> string, lo: string)
    requires forall i :: 0 <= i < |rows| ==> LexLessEq(lo, key(rows[i])) && lo != key(rows[i])
    requires LexLessEq(lo, key(x)) && lo != key(x)
    ensures forall j :: 0 <= j < |InsertByKey(rows, x, key)| ==>
      LexLessEq(lo, key(InsertByKey(rows, x, key)[j])) && lo != key(InsertByKey(rows, x, key)[j])
  {
    var s := InsertByKey(rows, x, key);
    forall j | 0 <= j < |s|
      ensures LexLessEq(lo, key(s[j])) && lo != key(s[j])
    {
      assert s[j] in multiset(s);
      if s[j] != x {
        assert s[j] in multiset(rows);
        var m :| 0 <= m < |rows| && rows[m] == s[j];
      }
    }
  }

  /** With distinct keys, the sort leaves the rows strictly ascending. */
  lemma {:induction false} SortByKeyAscending<T>(xs: seq<T>, key: T -> string)
    requires KeysDistinct(xs, key)
    ensures StrictlyAscending(SortByKey(xs, key), key)
  {
    if xs != [] {
      var init := xs[..|xs| - 1];
      var last := xs[|xs| - 1];
      SortByKeyAscending(init, key);
      var s := SortByKey(init, key);
      forall i | 0 <= i < |s| ensures key(s[i]) != key(last) {
        assert s[i] in multiset(init);
        var m :| 0 <= m < |init| && init[m] == s[i];
        assert xs[m] == s[i];
      }
      InsertKeepsAscending(s, last, key);
    }
  }

  /** Rows keyed by distinct days come out of the sort strictly ascending, with the same rows. */
  lemma SortRowsByDay<T>(unsorted: seq<T>, key: T -> string, days: seq<string>)
    requires Distinct(days) && |unsorted| == |days|
    requires forall i :: 0 <= i < |days| ==> key(unsorted[i]) == days[i]
    ensures StrictlyAscending(SortByKey(unsorted, key), key)
    ensures forall x :: x in SortByKey(unsorted, key) <==> x in unsorted
  {
    assert KeysDistinct(unsorted, key);
    SortByKeyAscending(unsorted, key);
    var rows := SortByKey(unsorted, key);
    forall x ensures x in rows <==> x in unsorted {
      assert x in rows <==> x in multiset(rows);
      assert x in unsorted <==> x in multiset(unsorted);
    }
  }

  // -------------------------------------------------------------- counts

  /** Sum of the day counts of `days`. */
  function SumCounts<F>(items: seq<(string, F)>, days: seq<string>): nat
  {
    if days == [] then 0 else SumCounts(items, days[..|days| - 1]) + DayCount(items, days[|days| - 1])
  }

  /** The number of items whose day is one of `days`. */
  function CountIn<F>(items: seq<(string, F)>, days: seq<string>): nat
  {
    if items == [] then 0
    else CountIn(items[..|items| - 1], days) + (if items[|items| - 1].0 in days then 1 else 0)
  }

  lemma {:induction false} CountInSnoc<F>(items: seq<(string, F)>, days: seq<string>, d: string)
    requires d !in days
    ensures CountIn(items, days + [d]) == CountIn(items, days) + DayCount(items, d)
  {
    if items != [] {
      CountInSnoc(items[..|items| - 1], days, d);
    }
  }

  lemma {:induction false} SumCountsIsCountIn<F>(items: seq<(string, F)>, days: seq<string>)
    requires Distinct(days)
    ensures SumCounts(items, days) == CountIn(items, days)
  {
    if days == [] {
      CountInNone(items, days);
    } else {
      var init := days[..|days| - 1];
      SumCountsIsCountIn(items, init);
      CountInSnoc(items, init, days[|days| - 1]);
      assert init + [days[|days| - 1]] == days;
    }
  }

  lemma {:induction false} CountInNone<F>(items: seq<(string, F)>, days: seq<string>)
    requires days == []
    ensures CountIn(items, days) == 0
  {
    if items != [] {
      CountInNone(items[..|items| - 1], days);
    }
  }

  lemma {:induction false} CountInAll<F>(items: seq<(string, F)>, days: seq<string>)
    requires forall k :: 0 <= k < |items| ==> items[k].0 in days
    ensures CountIn(items, days) == |items|
  {
    if items != [] {
      CountInAll(items[..|items| - 1], days);
    }
  }

  /** Counting each distinct day once counts every item exactly once. */
  lemma CountsCoverItems<F>(items: seq<(string, F)>, days: seq<string>)
    requires Distinct(days)
    requires forall d :: d in days <==> HasDay(items, d)
    ensures SumCounts(items, days) == |items|
  {
    SumCountsIsCountIn(items, days);
    forall k | 0 <= k < |items| ensures items[k].0 in days {
      assert HasDay(items, items[k].0);
    }
    CountInAll(items, days);
  }
}
