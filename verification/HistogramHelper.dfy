/**
 * Completing weekly histograms with their missing, empty buckets
 * (src/service/histogram-helper/histogram-helper.service.ts).
 */
module HistogramHelper {
  import opened Wrappers
  import opened Sequences

  datatype Bucket = Bucket(valueFromExclusive: int, valueToInclusive: int, count: int, totalDatacap: int)

  datatype WeekFlat = WeekFlat(week: int, bucket: Bucket)

  datatype WeekResults = WeekResults(week: int, total: int, results: seq<Bucket>)

  function CountOf(b: Bucket): int { b.count }

  function DatacapOf(b: Bucket): int { b.totalDatacap }

  function TopOf(b: Bucket): int { b.valueToInclusive }

  // ---------------------------------------------------------------- bounds and span

  function AllBuckets(weeks: seq<WeekResults>): seq<Bucket> {
    if weeks == [] then [] else weeks[0].results + AllBuckets(weeks[1..])
  }

  function MaxTop(bs: seq<Bucket>): (m: int)
    requires bs != []
    ensures exists i :: 0 <= i < |bs| && bs[i].valueToInclusive == m
    ensures forall i :: 0 <= i < |bs| ==> bs[i].valueToInclusive <= m
  {
    if |bs| == 1 then bs[0].valueToInclusive
    else
      var m := MaxTop(bs[1..]);
      assert forall i :: 0 <= i < |bs[1..]| ==> bs[1..][i] == bs[i + 1];
      if bs[0].valueToInclusive >= m then bs[0].valueToInclusive else m
  }

  function FirstWithTop(bs: seq<Bucket>, top: int): (b: Bucket)
    requires exists i :: 0 <= i < |bs| && bs[i].valueToInclusive == top
    ensures b in bs && b.valueToInclusive == top
  {
    if bs[0].valueToInclusive == top then bs[0]
    else
      assert forall i :: 1 <= i < |bs| ==> bs[i] == bs[1..][i - 1];
      FirstWithTop(bs[1..], top)
  }

  /** The span of the first bucket with the greatest top, zero when there are no weeks. */
  function GetMaxMinSpan(weeks: seq<WeekResults>): int
    requires weeks != [] ==> AllBuckets(weeks) != []
  {
    if weeks == [] then 0
    else
      var b := FirstWithTop(AllBuckets(weeks), MaxTop(AllBuckets(weeks)));
      b.valueToInclusive - b.valueFromExclusive
  }

  /** The top of the range: given, or the greatest one there is. */
  function RangeTop(weeks: seq<WeekResults>, maxRangeTopValue: Option<int>): int
    requires weeks != [] && AllBuckets(weeks) != []
  {
    if maxRangeTopValue.Some? then maxRangeTopValue.value else MaxTop(AllBuckets(weeks))
  }

  /** All bucket tops above `low`, from `top` downwards. */
  function TopsDown(top: int, low: int, span: int): seq<int>
    requires top > low ==> span > 0
    decreases top - low
  {
    if top <= low then [] else [top] + TopsDown(top - span, low, span)
  }

  /** The tops collected by a loop that is watched for `patience` steps; `None` when it still runs then. */
  function TopsWithin(top: int, low: int, span: int, patience: nat): Option<seq<int>>
    decreases patience
  {
    if top <= low then Some([])
    else if patience == 0 then None
    else
      var rest := TopsWithin(top - span, low, span, patience - 1);
      if rest.None? then None else Some([top] + rest.value)
  }

  /** A loop that ends has collected all the tops. */
  lemma {:induction false} WithinIsAll(top: int, low: int, span: int, patience: nat)
    ensures var tops := TopsWithin(top, low, span, patience);
      tops.Some? ==> (top > low ==> span > 0) && tops.value == TopsDown(top, low, span)
    decreases patience
  {
    if top <= low || patience == 0 {
    } else {
      WithinIsAll(top - span, low, span, patience - 1);
    }
  }

  lemma {:induction false} AllIsWithin(top: int, low: int, span: int)
    requires top > low ==> span > 0
    ensures TopsWithin(top, low, span, |TopsDown(top, low, span)|).Some?
    decreases top - low
  {
    if top <= low {
    } else {
      AllIsWithin(top - span, low, span);
    }
  }

  /** The loop ends, if watched long enough, exactly when its step is positive or there is nothing to step through. */
  lemma LoopEndsIff(top: int, low: int, span: int)
    ensures (exists patience :: TopsWithin(top, low, span, patience).Some?) <==> top <= low || span > 0
  {
    if top <= low || span > 0 {
      AllIsWithin(top, low, span);
    }
    forall patience ensures TopsWithin(top, low, span, patience).Some? ==> top <= low || span > 0 {
      WithinIsAll(top, low, span, patience);
    }
  }

  /** Grouped weeks always have a bucket; on weeks without any the source throws. */
  predicate HaveBuckets(weeks: seq<WeekResults>) {
    weeks != [] ==> AllBuckets(weeks) != []
  }

  function Prepended(tops: seq<int>, rest: Option<seq<int>>): Option<seq<int>> {
    if rest.None? then None else Some(tops + rest.value)
  }

  lemma PrependedNothing(tops: seq<int>, rest: Option<seq<int>>)
    ensures Prepended([], rest) == rest && Prepended(tops, Some([])) == Some(tops)
  {
    assert tops + [] == tops;
    if rest.Some? {
      assert [] + rest.value == rest.value;
    }
  }

  lemma PrependedSnoc(tops: seq<int>, t: int, rest: Option<seq<int>>)
    ensures Prepended(tops, Prepended([t], rest)) == Prepended(tops + [t], rest)
  {
    if rest.Some? {
      assert tops + ([t] + rest.value) == (tops + [t]) + rest.value;
    }
  }

  /** `patience` bounds the steps for which the loop is watched; the source does not stop it. */
  method GetAllBucketsTopValues(
      weeks: seq<WeekResults>, maxMinSpan: int, maxRangeTopValue: Option<int>, minRangeLowValue: int, patience: nat)
    returns (result: Option<seq<int>>)
    requires HaveBuckets(weeks)
    ensures result == if weeks == [] then Some([])
                      else TopsWithin(RangeTop(weeks, maxRangeTopValue), minRangeLowValue, maxMinSpan, patience)
  {
    if weeks == [] {
      return Some([]);
    }
    var i := RangeTop(weeks, maxRangeTopValue);
    var allBucketTopValues, left := [], patience;
    PrependedNothing([], TopsWithin(i, minRangeLowValue, maxMinSpan, patience));
    while i > minRangeLowValue
      invariant Prepended(allBucketTopValues, TopsWithin(i, minRangeLowValue, maxMinSpan, left))
             == TopsWithin(RangeTop(weeks, maxRangeTopValue), minRangeLowValue, maxMinSpan, patience)
      decreases left
    {
      if left == 0 {
        return None;
      }
      PrependedSnoc(allBucketTopValues, i, TopsWithin(i - maxMinSpan, minRangeLowValue, maxMinSpan, left - 1));
      allBucketTopValues := allBucketTopValues + [i];
      i := i - maxMinSpan;
      left := left - 1;
    }
    PrependedNothing(allBucketTopValues, None);
    result := Some(allBucketTopValues);
  }

  // ---------------------------------------------------------------- sorting

  /** Inserts after every element whose key is not greater, so equal ones keep their order. */
  function Insert<T>(key: T -> int, xs: seq<T>, x: T): seq<T> {
    if xs == [] || key(xs[|xs| - 1]) <= key(x) then xs + [x]
    else Insert(key, xs[..|xs| - 1], x) + [xs[|xs| - 1]]
  }

  function SortBy<T>(key: T -> int, xs: seq<T>): seq<T> {
    if xs == [] then [] else Insert(key, SortBy(key, xs[..|xs| - 1]), xs[|xs| - 1])
  }

  ghost predicate Ascending<T>(key: T -> int, xs: seq<T>) {
    forall i, j :: 0 <= i < j < |xs| ==> key(xs[i]) <= key(xs[j])
  }

  lemma AscendingSnoc<T>(key: T -> int, xs: seq<T>, x: T)
    requires Ascending(key, xs) && forall i :: 0 <= i < |xs| ==> key(xs[i]) <= key(x)
    ensures Ascending(key, xs + [x])
  {
  }

  lemma {:induction false} InsertKeepsElements<T>(key: T -> int, xs: seq<T>, x: T)
    ensures multiset(Insert(key, xs, x)) == multiset(xs) + multiset{x}
  {
    if xs != [] && key(xs[|xs| - 1]) > key(x) {
      var init, last := xs[..|xs| - 1], xs[|xs| - 1];
      assert xs == init + [last];
      InsertKeepsElements(key, init, x);
    }
  }

  lemma {:induction false} InsertSorts<T>(key: T -> int, xs: seq<T>, x: T)
    requires Ascending(key, xs)
    ensures Ascending(key, Insert(key, xs, x))
  {
    if xs == [] {
    } else if key(xs[|xs| - 1]) <= key(x) {
      AscendingSnoc(key, xs, x);
    } else {
      var init, last := xs[..|xs| - 1], xs[|xs| - 1];
      assert forall i :: 0 <= i < |init| ==> init[i] == xs[i];
      InsertSorts(key, init, x);
      InsertKeepsElements(key, init, x);
      var inserted := Insert(key, init, x);
      forall i | 0 <= i < |inserted| ensures key(inserted[i]) <= key(last) {
        assert inserted[i] in multiset(inserted);
        if inserted[i] != x {
          assert inserted[i] in multiset(init);
          var j :| 0 <= j < |init| && init[j] == inserted[i];
          assert key(xs[j]) <= key(xs[|xs| - 1]);
        }
      }
      AscendingSnoc(key, inserted, last);
    }
  }

  lemma {:induction false} SortSorts<T>(key: T -> int, xs: seq<T>)
    ensures Ascending(key, SortBy(key, xs)) && multiset(SortBy(key, xs)) == multiset(xs)
  {
    if xs == [] {
    } else {
      var init, last := xs[..|xs| - 1], xs[|xs| - 1];
      assert xs == init + [last];
      SortSorts(key, init);
      InsertSorts(key, SortBy(key, init), last);
      InsertKeepsElements(key, SortBy(key, init), last);
    }
  }

  /** The elements with one key. */
  function Keyed<T(!new)>(key: T -> int, k: int, xs: seq<T>): seq<T> {
    Filter((x: T) => key(x) == k, xs)
  }

  lemma KeyedSnoc<T(!new)>(key: T -> int, k: int, xs: seq<T>, x: T)
    ensures Keyed(key, k, xs + [x]) == if key(x) == k then Keyed(key, k, xs) + [x] else Keyed(key, k, xs)
  {
    FilterSnoc((y: T) => key(y) == k, xs, x);
  }

  lemma {:induction false} InsertIsStable<T(!new)>(key: T -> int, xs: seq<T>, x: T, k: int)
    ensures Keyed(key, k, Insert(key, xs, x)) == Keyed(key, k, xs + [x])
  {
    if xs != [] && key(xs[|xs| - 1]) > key(x) {
      var init, last := xs[..|xs| - 1], xs[|xs| - 1];
      assert xs == init + [last];
      InsertIsStable(key, init, x, k);
      KeyedSnoc(key, k, Insert(key, init, x), last);
      KeyedSnoc(key, k, init, x);
      KeyedSnoc(key, k, init, last);
      KeyedSnoc(key, k, xs, x);
    }
  }

  /** Elements with equal keys keep their order. */
  lemma {:induction false} SortIsStable<T(!new)>(key: T -> int, xs: seq<T>, k: int)
    ensures Keyed(key, k, SortBy(key, xs)) == Keyed(key, k, xs)
  {
    if xs == [] {
    } else {
      var init, last := xs[..|xs| - 1], xs[|xs| - 1];
      assert xs == init + [last];
      SortIsStable(key, init, k);
      InsertIsStable(key, SortBy(key, init), last, k);
      KeyedSnoc(key, k, SortBy(key, init), last);
      KeyedSnoc(key, k, init, last);
    }
  }

  // ---------------------------------------------------------------- filling in

  predicate HasTop(bs: seq<Bucket>, top: int) {
    exists i :: 0 <= i < |bs| && bs[i].valueToInclusive == top
  }

  /** Empty buckets for the tops the week does not have. */
  function Missing(tops: seq<int>, bs: seq<Bucket>, span: int): seq<Bucket> {
    if tops == [] then []
    else (if HasTop(bs, tops[0]) then [] else [Bucket(tops[0] - span, tops[0], 0, 0)]) + Missing(tops[1..], bs, span)
  }

  /** Nothing is touched, not even the order, when no bucket is missing. */
  function Completed(w: WeekResults, tops: seq<int>, span: int): WeekResults {
    var missing := Missing(tops, w.results, span);
    if missing == [] then w else w.(results := SortBy(TopOf, w.results + missing))
  }

  function CompletedAll(weeks: seq<WeekResults>, tops: seq<int>, span: int): seq<WeekResults> {
    seq(|weeks|, i requires 0 <= i < |weeks| => Completed(weeks[i], tops, span))
  }

  /** Weeks the source completes: there is a bucket, and its span is positive if there is a range to step through. */
  predicate Completable(weeks: seq<WeekResults>, maxRangeTopValue: Option<int>, minRangeLowValue: int) {
    weeks != [] ==>
      AllBuckets(weeks) != [] && (RangeTop(weeks, maxRangeTopValue) > minRangeLowValue ==> GetMaxMinSpan(weeks) > 0)
  }

  function CompletedWeeks(
      weeks: seq<WeekResults>, maxRangeTopValue: Option<int>, minRangeLowValue: int): seq<WeekResults>
    requires Completable(weeks, maxRangeTopValue, minRangeLowValue)
  {
    if weeks == [] then []
    else
      var span := GetMaxMinSpan(weeks);
      CompletedAll(weeks, TopsDown(RangeTop(weeks, maxRangeTopValue), minRangeLowValue, span), span)
  }

  /** Completing week `n` in place, with the weeks before it completed. */
  lemma NextCompleted(weeks: seq<WeekResults>, completed: seq<WeekResults>, n: nat, tops: seq<int>, span: int)
    requires n < |weeks| && completed == CompletedAll(weeks, tops, span)[..n] + weeks[n..]
    ensures completed[n] == weeks[n]
    ensures completed[n := Completed(weeks[n], tops, span)] == CompletedAll(weeks, tops, span)[..n + 1] + weeks[n + 1..]
    ensures completed[n := weeks[n]] == completed
  {
  }

  /** The loop over the weeks, each completed in place. */
  method FillIn(weeks: seq<WeekResults>, tops: seq<int>, span: int) returns (completed: seq<WeekResults>)
    ensures completed == CompletedAll(weeks, tops, span)
  {
    completed := weeks;
    for n := 0 to |weeks|
      invariant completed == CompletedAll(weeks, tops, span)[..n] + weeks[n..]
    {
      NextCompleted(weeks, completed, n, tops, span);
      var missingBuckets := Missing(tops, completed[n].results, span);
      if |missingBuckets| > 0 {
        var results := completed[n].results + missingBuckets;
        completed := completed[n := completed[n].(results := SortBy(TopOf, results))];
      }
    }
  }

  function CompletedWithin(weeks: seq<WeekResults>, maxRangeTopValue: Option<int>, minRangeLowValue: int, patience: nat)
    : Option<seq<WeekResults>>
    requires HaveBuckets(weeks)
  {
    if weeks == [] then Some([])
    else
      var span := GetMaxMinSpan(weeks);
      var tops := TopsWithin(RangeTop(weeks, maxRangeTopValue), minRangeLowValue, span, patience);
      if tops.None? then None else Some(CompletedAll(weeks, tops.value, span))
  }

  method WithMissingBuckets(
      weeks: seq<WeekResults>, maxRangeTopValue: Option<int>, minRangeLowValue: int, patience: nat)
    returns (completed: Option<seq<WeekResults>>)
    requires HaveBuckets(weeks)
    ensures completed == CompletedWithin(weeks, maxRangeTopValue, minRangeLowValue, patience)
  {
    var maxMinSpan := GetMaxMinSpan(weeks);
    var tops := GetAllBucketsTopValues(weeks, maxMinSpan, maxRangeTopValue, minRangeLowValue, patience);
    if tops.None? {
      return None;
    }
    var filled := FillIn(weeks, tops.value, maxMinSpan);
    completed := Some(filled);
  }

  /** Completion ends, if watched long enough, exactly for completable weeks, and then completes them all. */
  lemma CompletionEndsIff(weeks: seq<WeekResults>, maxRangeTopValue: Option<int>, low: int)
    requires HaveBuckets(weeks)
    ensures (exists patience :: CompletedWithin(weeks, maxRangeTopValue, low, patience).Some?)
       <==> Completable(weeks, maxRangeTopValue, low)
    ensures forall patience :: CompletedWithin(weeks, maxRangeTopValue, low, patience).Some? ==>
              Completable(weeks, maxRangeTopValue, low)
              && CompletedWithin(weeks, maxRangeTopValue, low, patience).value == CompletedWeeks(weeks, maxRangeTopValue, low)
  {
    if weeks == [] {
      assert CompletedWithin(weeks, maxRangeTopValue, low, 0).Some?;
    } else {
      var top, span := RangeTop(weeks, maxRangeTopValue), GetMaxMinSpan(weeks);
      LoopEndsIff(top, low, span);
      if Completable(weeks, maxRangeTopValue, low) {
        var patience :| TopsWithin(top, low, span, patience).Some?;
        assert CompletedWithin(weeks, maxRangeTopValue, low, patience).Some?;
      }
      forall patience | CompletedWithin(weeks, maxRangeTopValue, low, patience).Some?
        ensures Completable(weeks, maxRangeTopValue, low)
        ensures CompletedWithin(weeks, maxRangeTopValue, low, patience).value == CompletedWeeks(weeks, maxRangeTopValue, low)
      {
        assert TopsWithin(top, low, span, patience).Some?;
        WithinIsAll(top, low, span, patience);
      }
    }
  }

  // ---------------------------------------------------------------- what the completed weeks are

  predicate HasSpan(b: Bucket, span: int) {
    b.valueFromExclusive == b.valueToInclusive - span
  }

  ghost predicate StrictlyAscending(bs: seq<Bucket>) {
    forall i, j :: 0 <= i < j < |bs| ==> bs[i].valueToInclusive < bs[j].valueToInclusive
  }

  ghost predicate DistinctTops(bs: seq<Bucket>) {
    forall i, j :: 0 <= i < j < |bs| ==> bs[i].valueToInclusive != bs[j].valueToInclusive
  }

  /** Each bucket spans one step of the grid, with its top on it; tops strictly ascend. */
  ghost predicate OnGrid(bs: seq<Bucket>, top: int, low: int, span: int)
    requires span > 0
  {
    && (forall i :: 0 <= i < |bs| ==> bs[i].valueToInclusive in TopsDown(top, low, span) && HasSpan(bs[i], span))
    && StrictlyAscending(bs)
  }

  /** The whole grid, from the lowest bucket to the top, without gap or overlap. */
  ghost predicate TilesRange(bs: seq<Bucket>, top: int, low: int, span: int) {
    && (forall i :: 0 <= i < |bs| - 1 ==> bs[i].valueToInclusive == bs[i + 1].valueFromExclusive)
    && (top > low ==> bs != [] && bs[|bs| - 1].valueToInclusive == top && bs[0].valueFromExclusive <= low < bs[0].valueToInclusive)
    && (top <= low ==> bs == [])
  }

  /** The grid's tops, lowest first. */
  function TopsUp(top: int, low: int, span: int): seq<int>
    requires span > 0
    decreases top - low
  {
    if top <= low then [] else TopsUp(top - span, low, span) + [top]
  }

  lemma TopsUpUnfold(top: int, low: int, span: int)
    requires span > 0 && top > low
    ensures TopsUp(top, low, span) == TopsUp(top - span, low, span) + [top]
  {
  }

  lemma {:induction false} TopsUpMembers(top: int, low: int, span: int, t: int)
    requires span > 0
    ensures t in TopsUp(top, low, span) <==> t in TopsDown(top, low, span)
    decreases top - low
  {
    if top <= low {
    } else {
      TopsUpMembers(top - span, low, span, t);
    }
  }

  lemma {:induction false} TopsUpEnds(top: int, low: int, span: int)
    requires span > 0 && top > low
    ensures var ts := TopsUp(top, low, span); ts != [] && ts[|ts| - 1] == top && ts[0] - span <= low < ts[0]
    decreases top - low
  {
    TopsUpUnfold(top, low, span);
    if top - span > low {
      TopsUpEnds(top - span, low, span);
    }
  }

  lemma {:induction false} TopsUpStep(top: int, low: int, span: int, i: nat)
    requires span > 0 && i + 1 < |TopsUp(top, low, span)|
    ensures TopsUp(top, low, span)[i] + span == TopsUp(top, low, span)[i + 1]
    decreases top - low
  {
    TopsUpUnfold(top, low, span);
    var before := TopsUp(top - span, low, span);
    if i + 1 < |before| {
      TopsUpStep(top - span, low, span, i);
    } else {
      TopsUpEnds(top - span, low, span);
    }
  }

  lemma {:induction false} TopsUpAscend(top: int, low: int, span: int, i: nat, j: nat)
    requires span > 0 && i < j < |TopsUp(top, low, span)|
    ensures TopsUp(top, low, span)[i] < TopsUp(top, low, span)[j]
    decreases j
  {
    TopsUpStep(top, low, span, j - 1);
    if i < j - 1 {
      TopsUpAscend(top, low, span, i, j - 1);
    }
  }

  lemma TopsUpShape(top: int, low: int, span: int)
    requires span > 0
    ensures var ts := TopsUp(top, low, span);
      && (forall i :: 0 <= i < |ts| - 1 ==> ts[i] + span == ts[i + 1])
      && (forall i, j :: 0 <= i < j < |ts| ==> ts[i] < ts[j])
      && (top > low ==> ts != [] && ts[|ts| - 1] == top && ts[0] - span <= low < ts[0])
      && (forall t :: t in ts <==> t in TopsDown(top, low, span))
  {
    var ts := TopsUp(top, low, span);
    forall i | 0 <= i < |ts| - 1 ensures ts[i] + span == ts[i + 1] {
      TopsUpStep(top, low, span, i);
    }
    forall i, j | 0 <= i < j < |ts| ensures ts[i] < ts[j] {
      TopsUpAscend(top, low, span, i, j);
    }
    forall t ensures t in ts <==> t in TopsDown(top, low, span) {
      TopsUpMembers(top, low, span, t);
    }
    if top > low {
      TopsUpEnds(top, low, span);
    }
  }

  /** Strictly ascending sequences with the same members are the same. */
  lemma {:induction false} SameMembersSameSequence(a: seq<int>, b: seq<int>)
    requires forall i, j :: 0 <= i < j < |a| ==> a[i] < a[j]
    requires forall i, j :: 0 <= i < j < |b| ==> b[i] < b[j]
    requires forall t :: t in a <==> t in b
    ensures a == b
  {
    if a == [] {
      assert forall t :: t in multiset(b) ==> t in a;
      assert multiset(b) == multiset{};
      assert |multiset(b)| == |b|;
    } else {
      var x := a[|a| - 1];
      assert x in a && x in b;
      var y := b[|b| - 1];
      assert y in b && y in a;
      var i :| 0 <= i < |a| && a[i] == y;
      var j :| 0 <= j < |b| && b[j] == x;
      assert x == y;
      var a', b' := a[..|a| - 1], b[..|b| - 1];
      forall t ensures t in a' <==> t in b' {
        if t in a' { assert t in a && t < x; }
        if t in b' { assert t in b && t < y; }
      }
      SameMembersSameSequence(a', b');
    }
  }

  lemma StrictSnoc(bs: seq<Bucket>, b: Bucket)
    requires StrictlyAscending(bs) && forall i :: 0 <= i < |bs| ==> bs[i].valueToInclusive < b.valueToInclusive
    ensures StrictlyAscending(bs + [b])
  {
  }

  lemma {:induction false} InsertKeepsStrict(bs: seq<Bucket>, b: Bucket)
    requires StrictlyAscending(bs) && !HasTop(bs, b.valueToInclusive)
    ensures StrictlyAscending(Insert(TopOf, bs, b))
  {
    if bs == [] {
    } else if bs[|bs| - 1].valueToInclusive <= b.valueToInclusive {
      StrictSnoc(bs, b);
    } else {
      var init, last := bs[..|bs| - 1], bs[|bs| - 1];
      assert forall i :: 0 <= i < |init| ==> init[i] == bs[i];
      InsertKeepsStrict(init, b);
      InsertKeepsElements(TopOf, init, b);
      var inserted := Insert(TopOf, init, b);
      forall i | 0 <= i < |inserted| ensures inserted[i].valueToInclusive < last.valueToInclusive {
        assert inserted[i] in multiset(inserted);
        assert inserted[i] in init || inserted[i] == b;
      }
      StrictSnoc(inserted, last);
    }
  }

  lemma {:induction false} SortIsStrict(bs: seq<Bucket>)
    requires DistinctTops(bs)
    ensures StrictlyAscending(SortBy(TopOf, bs))
  {
    if bs == [] {
    } else {
      var init, last := bs[..|bs| - 1], bs[|bs| - 1];
      SortIsStrict(init);
      SortSorts(TopOf, init);
      var sorted := SortBy(TopOf, init);
      forall i | 0 <= i < |sorted| ensures sorted[i].valueToInclusive != last.valueToInclusive {
        assert sorted[i] in multiset(sorted);
        assert sorted[i] in init;
      }
      InsertKeepsStrict(sorted, last);
    }
  }

  /** An empty bucket for a top that the week lacks. */
  predicate IsFiller(b: Bucket, tops: seq<int>, bs: seq<Bucket>, span: int) {
    b == Bucket(b.valueToInclusive - span, b.valueToInclusive, 0, 0) && b.valueToInclusive in tops && !HasTop(bs, b.valueToInclusive)
  }

  /** The missing buckets are exactly the fillers. */
  lemma {:induction false} MissingAreFillers(tops: seq<int>, bs: seq<Bucket>, span: int)
    ensures forall b :: b in Missing(tops, bs, span) <==> IsFiller(b, tops, bs, span)
  {
    if tops == [] {
    } else {
      MissingAreFillers(tops[1..], bs, span);
      assert forall t :: t in tops <==> t == tops[0] || t in tops[1..];
    }
  }

  lemma {:induction false} MissingAreEmpty(tops: seq<int>, bs: seq<Bucket>, span: int)
    ensures Sum(CountOf, Missing(tops, bs, span)) == 0 && Sum(DatacapOf, Missing(tops, bs, span)) == 0
  {
    if tops == [] {
    } else {
      MissingAreEmpty(tops[1..], bs, span);
      var rest := Missing(tops[1..], bs, span);
      if !HasTop(bs, tops[0]) {
        assert Missing(tops, bs, span)[1..] == rest;
      } else {
        assert Missing(tops, bs, span) == rest;
      }
    }
  }

  ghost predicate Distinct(ts: seq<int>) {
    forall i, j :: 0 <= i < j < |ts| ==> ts[i] != ts[j]
  }

  lemma {:induction false} MissingAreDistinct(tops: seq<int>, bs: seq<Bucket>, span: int)
    requires Distinct(tops)
    ensures DistinctTops(Missing(tops, bs, span))
  {
    if tops == [] {
    } else {
      assert forall i :: 0 <= i < |tops[1..]| ==> tops[1..][i] == tops[i + 1];
      MissingAreDistinct(tops[1..], bs, span);
      MissingAreFillers(tops[1..], bs, span);
      var rest, m := Missing(tops[1..], bs, span), Missing(tops, bs, span);
      if !HasTop(bs, tops[0]) {
        forall j | 0 < j < |m| ensures m[j].valueToInclusive != tops[0] {
          assert m[j] == rest[j - 1] && rest[j - 1] in rest;
        }
        assert forall j :: 0 < j < |m| ==> m[j] == rest[j - 1];
      } else {
        assert m == rest;
      }
    }
  }

  lemma DistinctCons(t: int, ts: seq<int>)
    requires Distinct(ts) && t !in ts
    ensures Distinct([t] + ts)
  {
    forall i, j | 0 <= i < j < |[t] + ts| ensures ([t] + ts)[i] != ([t] + ts)[j] {
      assert ([t] + ts)[j] == ts[j - 1];
    }
  }

  lemma {:induction false} TopsDownDistinct(top: int, low: int, span: int)
    requires span > 0
    ensures Distinct(TopsDown(top, low, span))
    ensures forall t :: t in TopsDown(top, low, span) ==> t <= top
    decreases top - low
  {
    if top > low {
      TopsDownDistinct(top - span, low, span);
      DistinctCons(top, TopsDown(top - span, low, span));
    }
  }

  /** Completing adds nothing to any sum and drops no bucket. */
  lemma CompletedKeepsBuckets(w: WeekResults, tops: seq<int>, span: int)
    ensures var c := Completed(w, tops, span);
      && multiset(w.results) <= multiset(c.results)
      && c.week == w.week && c.total == w.total
      && Sum(CountOf, c.results) == Sum(CountOf, w.results)
      && Sum(DatacapOf, c.results) == Sum(DatacapOf, w.results)
  {
    var missing := Missing(tops, w.results, span);
    if missing != [] {
      var all := w.results + missing;
      SortSorts(TopOf, all);
      MissingAreEmpty(tops, w.results, span);
      SumConcat(CountOf, w.results, missing);
      SumConcat(DatacapOf, w.results, missing);
      SumIgnoresOrder(CountOf, SortBy(TopOf, all), all);
      SumIgnoresOrder(DatacapOf, SortBy(TopOf, all), all);
    }
  }

  lemma AppendedDistinct(bs: seq<Bucket>, missing: seq<Bucket>)
    requires StrictlyAscending(bs) && DistinctTops(missing)
    requires forall b :: b in missing ==> !HasTop(bs, b.valueToInclusive)
    ensures DistinctTops(bs + missing)
  {
    var all := bs + missing;
    forall i, j | 0 <= i < j < |all| ensures all[i].valueToInclusive != all[j].valueToInclusive {
      if i < |bs| <= j {
        assert missing[j - |bs|] in missing;
      }
    }
  }

  lemma SortedHasSameBuckets(bs: seq<Bucket>)
    ensures forall b :: b in SortBy(TopOf, bs) <==> b in bs
  {
    SortSorts(TopOf, bs);
    forall b ensures b in SortBy(TopOf, bs) <==> b in bs {
      assert b in multiset(SortBy(TopOf, bs)) <==> b in multiset(bs);
    }
  }

  lemma SortedCoversGrid(bs: seq<Bucket>, missing: seq<Bucket>, tops: seq<int>)
    requires forall t :: t in tops && !HasTop(bs, t) ==> exists b :: b in missing && b.valueToInclusive == t
    ensures forall t :: t in tops ==> HasTop(SortBy(TopOf, bs + missing), t)
  {
    SortedHasSameBuckets(bs + missing);
    forall t | t in tops ensures HasTop(SortBy(TopOf, bs + missing), t) {
      if HasTop(bs, t) {
        var i :| 0 <= i < |bs| && bs[i].valueToInclusive == t;
        assert (bs + missing)[i] == bs[i];
        assert bs[i] in SortBy(TopOf, bs + missing);
      } else {
        var b :| b in missing && b.valueToInclusive == t;
        assert b in SortBy(TopOf, bs + missing);
      }
    }
  }

  /** A week already strictly ascending on the grid stays so, and gains every missing top. */
  lemma CompletedIsOnGrid(w: WeekResults, top: int, low: int, span: int)
    requires span > 0 && OnGrid(w.results, top, low, span)
    ensures var c := Completed(w, TopsDown(top, low, span), span);
      && OnGrid(c.results, top, low, span)
      && (forall t :: t in TopsDown(top, low, span) ==> HasTop(c.results, t))
  {
    var tops := TopsDown(top, low, span);
    var missing := Missing(tops, w.results, span);
    TopsDownDistinct(top, low, span);
    MissingAreFillers(tops, w.results, span);
    MissingAreDistinct(tops, w.results, span);
    forall t | t in tops && !HasTop(w.results, t) ensures Bucket(t - span, t, 0, 0) in missing {
      assert IsFiller(Bucket(t - span, t, 0, 0), tops, w.results, span);
    }
    if missing != [] {
      var all := w.results + missing;
      AppendedDistinct(w.results, missing);
      SortIsStrict(all);
      SortedHasSameBuckets(all);
      SortedCoversGrid(w.results, missing, tops);
      var sorted := SortBy(TopOf, all);
      forall i | 0 <= i < |sorted| ensures sorted[i].valueToInclusive in tops && HasSpan(sorted[i], span) {
        assert sorted[i] in sorted;
        assert sorted[i] in w.results || sorted[i] in missing;
      }
    }
  }

  lemma GridTopsTile(bs: seq<Bucket>, top: int, low: int, span: int)
    requires span > 0 && Map(TopOf, bs) == TopsUp(top, low, span)
    requires forall i :: 0 <= i < |bs| ==> HasSpan(bs[i], span)
    ensures TilesRange(bs, top, low, span)
  {
    TopsUpShape(top, low, span);
    var ts := TopsUp(top, low, span);
    assert forall i :: 0 <= i < |bs| ==> bs[i].valueToInclusive == ts[i] && HasSpan(bs[i], span);
  }

  /**
   * After completion every week has exactly the grid's buckets: the same tops in every week, each bucket
   * ending where the next begins, from the low end of the range to its top; and no count and no datacap
   * has been added or lost.
   */
  lemma CompletedTilesRange(w: WeekResults, top: int, low: int, span: int)
    requires span > 0 && OnGrid(w.results, top, low, span)
    ensures var c := Completed(w, TopsDown(top, low, span), span);
      && Map(TopOf, c.results) == TopsUp(top, low, span)
      && TilesRange(c.results, top, low, span)
      && multiset(w.results) <= multiset(c.results)
      && c.week == w.week && c.total == w.total
      && Sum(CountOf, c.results) == Sum(CountOf, w.results)
      && Sum(DatacapOf, c.results) == Sum(DatacapOf, w.results)
  {
    CompletedIsOnGrid(w, top, low, span);
    CompletedKeepsBuckets(w, TopsDown(top, low, span), span);
    TopsUpShape(top, low, span);
    var c := Completed(w, TopsDown(top, low, span), span);
    var tops, ts := Map(TopOf, c.results), TopsUp(top, low, span);
    forall t ensures t in tops <==> t in ts {
      if t in tops {
        var i :| 0 <= i < |tops| && tops[i] == t;
        assert c.results[i].valueToInclusive in TopsDown(top, low, span);
      }
      if t in ts {
        assert HasTop(c.results, t);
        var i :| 0 <= i < |c.results| && c.results[i].valueToInclusive == t;
        assert tops[i] == t;
      }
    }
    SameMembersSameSequence(tops, ts);
    GridTopsTile(c.results, top, low, span);
  }

  // ---------------------------------------------------------------- from flat rows to weeks

  const WEEK := 7 * 24 * 60 * 60 * 1000

  function WeekOf(w: WeekResults): int { w.week }

  function BucketsOf(flat: seq<WeekFlat>, week: int): seq<Bucket> {
    if flat == [] then []
    else
      var init, last := flat[..|flat| - 1], flat[|flat| - 1];
      BucketsOf(init, week) + (if last.week == week then [last.bucket] else [])
  }

  /** The weeks of the rows, in order of first appearance. */
  function WeeksOf(flat: seq<WeekFlat>): seq<int> {
    if flat == [] then []
    else
      var before, week := WeeksOf(flat[..|flat| - 1]), flat[|flat| - 1].week;
      if week in before then before else before + [week]
  }

  function Grouped(flat: seq<WeekFlat>): seq<WeekResults> {
    var weeks := WeeksOf(flat);
    seq(|weeks|, i requires 0 <= i < |weeks| =>
      WeekResults(weeks[i], Sum(CountOf, BucketsOf(flat, weeks[i])), BucketsOf(flat, weeks[i])))
  }

  lemma {:induction false} ListedWeeksHaveBuckets(flat: seq<WeekFlat>)
    ensures forall week :: week in WeeksOf(flat) <==> BucketsOf(flat, week) != []
  {
    if flat == [] {
    } else {
      ListedWeeksHaveBuckets(flat[..|flat| - 1]);
    }
  }

  lemma GroupedHaveBuckets(flat: seq<WeekFlat>)
    ensures HaveBuckets(Grouped(flat))
  {
    ListedWeeksHaveBuckets(flat);
    if Grouped(flat) != [] {
      assert Grouped(flat)[0].results == BucketsOf(flat, WeeksOf(flat)[0]);
      assert WeeksOf(flat)[0] in WeeksOf(flat);
    }
  }

  /** The last week is dropped while it is not over. */
  function WithoutCurrentWeek(weeks: seq<WeekResults>, now: int): seq<WeekResults> {
    if weeks != [] && now < weeks[|weeks| - 1].week + WEEK then weeks[..|weeks| - 1] else weeks
  }

  /** The completed weeks in order, without the current one unless it is wanted. */
  function Returned(
      flat: seq<WeekFlat>, maxRangeTopValue: Option<int>, minRangeLowValue: int, includeCurrentWeek: bool, now: int)
    : seq<WeekResults>
    requires Completable(Grouped(flat), maxRangeTopValue, minRangeLowValue)
  {
    var weeks := SortBy(WeekOf, CompletedWeeks(Grouped(flat), maxRangeTopValue, minRangeLowValue));
    if includeCurrentWeek then weeks else WithoutCurrentWeek(weeks, now)
  }

  /** For all rows: a result is the completed weeks, and there is one, if waited for, exactly for completable weeks. */
  method GetWeeklyHistogramResult(
      flat: seq<WeekFlat>, maxRangeTopValue: Option<int>, minRangeLowValue: int, includeCurrentWeek: bool, now: int,
      patience: nat)
    returns (result: Option<seq<WeekResults>>)
    ensures HaveBuckets(Grouped(flat))
    ensures result.Some? <==> CompletedWithin(Grouped(flat), maxRangeTopValue, minRangeLowValue, patience).Some?
    ensures result.Some? ==>
      && Completable(Grouped(flat), maxRangeTopValue, minRangeLowValue)
      && result.value == Returned(flat, maxRangeTopValue, minRangeLowValue, includeCurrentWeek, now)
  {
    GroupedHaveBuckets(flat);
    var weekNumbers := WeeksOf(flat);
    var results: seq<WeekResults> := [];
    for i := 0 to |weekNumbers|
      invariant results == Grouped(flat)[..i]
    {
      var weekResults := BucketsOf(flat, weekNumbers[i]);
      results := results + [WeekResults(weekNumbers[i], Sum(CountOf, weekResults), weekResults)];
    }
    assert results == Grouped(flat);
    var completed := WithMissingBuckets(results, maxRangeTopValue, minRangeLowValue, patience);
    CompletionEndsIff(results, maxRangeTopValue, minRangeLowValue);
    if completed.None? {
      return None;
    }
    var sortedResult := SortBy(WeekOf, completed.value);
    if !includeCurrentWeek {
      sortedResult := WithoutCurrentWeek(sortedResult, now);
    }
    result := Some(sortedResult);
  }

  lemma {:induction false} GroupedBucketsAreRows(weeks: seq<WeekResults>, b: Bucket)
    requires b in AllBuckets(weeks)
    ensures exists i :: 0 <= i < |weeks| && b in weeks[i].results
  {
    if b !in weeks[0].results {
      GroupedBucketsAreRows(weeks[1..], b);
      var i :| 0 <= i < |weeks[1..]| && b in weeks[1..][i].results;
      assert b in weeks[i + 1].results;
    }
  }

  lemma GroupedIsNonEmpty(flat: seq<WeekFlat>)
    requires flat != []
    ensures Grouped(flat) != [] && AllBuckets(Grouped(flat)) != []
  {
    ListedWeeksHaveBuckets(flat);
    assert BucketsOf(flat, flat[|flat| - 1].week) != [];
    GroupedHaveBuckets(flat);
  }

  lemma BucketIsOfWeek(flat: seq<WeekFlat>, b: Bucket) returns (week: int)
    requires b in AllBuckets(Grouped(flat))
    ensures b in BucketsOf(flat, week)
  {
    GroupedBucketsAreRows(Grouped(flat), b);
    var i :| 0 <= i < |Grouped(flat)| && b in Grouped(flat)[i].results;
    week := WeeksOf(flat)[i];
  }

  /** On a grid, the span taken from the bucket with the greatest top is the grid's. */
  lemma SpanIsGridSpan(flat: seq<WeekFlat>, top: int, low: int, span: int)
    requires span > 0 && flat != [] && forall week :: OnGrid(BucketsOf(flat, week), top, low, span)
    ensures Grouped(flat) != [] && AllBuckets(Grouped(flat)) != [] && GetMaxMinSpan(Grouped(flat)) == span
  {
    GroupedIsNonEmpty(flat);
    var all := AllBuckets(Grouped(flat));
    var week := BucketIsOfWeek(flat, FirstWithTop(all, MaxTop(all)));
    assert OnGrid(BucketsOf(flat, week), top, low, span);
  }

  /** A returned week has the whole grid, and the counts and the datacap of its rows. */
  ghost predicate WeekComplete(w: WeekResults, flat: seq<WeekFlat>, top: int, low: int, span: int)
    requires span > 0
  {
    && Map(TopOf, w.results) == TopsUp(top, low, span) && TilesRange(w.results, top, low, span)
    && w.total == Sum(CountOf, w.results) == Sum(CountOf, BucketsOf(flat, w.week))
    && Sum(DatacapOf, w.results) == Sum(DatacapOf, BucketsOf(flat, w.week))
  }

  lemma GroupedWeekCompletes(flat: seq<WeekFlat>, top: int, low: int, span: int, k: nat)
    requires span > 0 && k < |Grouped(flat)| && OnGrid(BucketsOf(flat, WeeksOf(flat)[k]), top, low, span)
    ensures WeekComplete(Completed(Grouped(flat)[k], TopsDown(top, low, span), span), flat, top, low, span)
  {
    CompletedTilesRange(Grouped(flat)[k], top, low, span);
  }

  lemma CompletedWeeksTile(flat: seq<WeekFlat>, top: int, low: int, span: int)
    requires span > 0 && forall week :: OnGrid(BucketsOf(flat, week), top, low, span)
    ensures forall w :: w in CompletedAll(Grouped(flat), TopsDown(top, low, span), span) ==> WeekComplete(w, flat, top, low, span)
  {
    var completed := CompletedAll(Grouped(flat), TopsDown(top, low, span), span);
    forall k | 0 <= k < |completed| ensures WeekComplete(completed[k], flat, top, low, span) {
      GroupedWeekCompletes(flat, top, low, span, k);
    }
  }

  lemma SortKeepsMembers(weeks: seq<WeekResults>)
    ensures Ascending(WeekOf, SortBy(WeekOf, weeks))
    ensures forall w :: w in SortBy(WeekOf, weeks) ==> w in weeks
  {
    SortSorts(WeekOf, weeks);
    forall w | w in SortBy(WeekOf, weeks) ensures w in weeks {
      assert w in multiset(SortBy(WeekOf, weeks));
    }
  }

  /**
   * When all rows lie on one grid in ascending order, up to the range's top, every returned week has the
   * whole grid, the same in every week, its counts add up to its total, and its buckets' counts and
   * datacap are those of its rows; the weeks come in order.
   */
  lemma ReturnedWeeksTileRange(
      flat: seq<WeekFlat>, maxRangeTopValue: Option<int>, low: int, includeCurrentWeek: bool, now: int, top: int, span: int)
    requires span > 0 && forall week :: OnGrid(BucketsOf(flat, week), top, low, span)
    requires Grouped(flat) != [] && AllBuckets(Grouped(flat)) != [] ==> top == RangeTop(Grouped(flat), maxRangeTopValue)
    ensures Completable(Grouped(flat), maxRangeTopValue, low)
    ensures forall w :: w in Returned(flat, maxRangeTopValue, low, includeCurrentWeek, now) ==>
                          WeekComplete(w, flat, top, low, span)
    ensures Ascending(WeekOf, Returned(flat, maxRangeTopValue, low, includeCurrentWeek, now))
  {
    if flat != [] {
      SpanIsGridSpan(flat, top, low, span);
      CompletedWeeksTile(flat, top, low, span);
    }
    SortKeepsMembers(CompletedWeeks(Grouped(flat), maxRangeTopValue, low));
  }
}
