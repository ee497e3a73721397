/**
 * Which weeks a completed histogram returns, and what each of them holds, told by the flat rows alone
 * (src/service/histogram-helper/histogram-helper.service.ts).
 */
module HistogramWeeks {
  import opened Wrappers
  import opened Sequences
  import opened HistogramHelper

  // ---------------------------------------------------------------- what rows say of a week

  function InWeek(week: int): WeekFlat -> bool {
    (r: WeekFlat) => r.week == week
  }

  function BucketIn(): WeekFlat -> Bucket {
    (r: WeekFlat) => r.bucket
  }

  /** The buckets of the week's rows, in their order. */
  function RowBuckets(flat: seq<WeekFlat>, week: int): seq<Bucket> {
    Map(BucketIn(), Filter(InWeek(week), flat))
  }

  /** What a row counts for the week. */
  function CountIn(week: int): WeekFlat -> int {
    (r: WeekFlat) => if r.week == week then r.bucket.count else 0
  }

  ghost predicate HasRow(flat: seq<WeekFlat>, week: int) {
    exists k :: 0 <= k < |flat| && flat[k].week == week
  }

  lemma {:induction false} BucketsAreRows(flat: seq<WeekFlat>, week: int)
    ensures BucketsOf(flat, week) == RowBuckets(flat, week)
    ensures Sum(CountOf, BucketsOf(flat, week)) == Sum(CountIn(week), flat)
  {
    if flat == [] {
    } else {
      var init, last := flat[..|flat| - 1], flat[|flat| - 1];
      assert flat == init + [last];
      BucketsAreRows(init, week);
      FilterSnoc(InWeek(week), init, last);
      MapSnoc(BucketIn(), Filter(InWeek(week), init), last);
      SumConcat(CountIn(week), init, [last]);
      SumConcat(CountOf, BucketsOf(init, week), [last.bucket]);
    }
  }

  /** The greatest top of all rows. */
  ghost predicate IsGreatestTop(flat: seq<WeekFlat>, top: int) {
    && (exists k :: 0 <= k < |flat| && flat[k].bucket.valueToInclusive == top)
    && (forall k :: 0 <= k < |flat| ==> flat[k].bucket.valueToInclusive <= top)
  }

  /** The top of the range is the given one, or else the greatest there is. */
  ghost predicate IsRangeTop(flat: seq<WeekFlat>, maxRangeTopValue: Option<int>, top: int) {
    if maxRangeTopValue.Some? then top == maxRangeTopValue.value else IsGreatestTop(flat, top)
  }

  /** The span is the width of a bucket with the greatest top. */
  ghost predicate IsSpan(flat: seq<WeekFlat>, span: int) {
    exists k :: 0 <= k < |flat| && IsGreatestTop(flat, flat[k].bucket.valueToInclusive)
                && span == flat[k].bucket.valueToInclusive - flat[k].bucket.valueFromExclusive
  }

  function StepDown(top: int, n: nat, span: int): int {
    top - n * span
  }

  /** Some number of whole steps below the top, above the low end. */
  ghost predicate OnStep(t: int, top: int, low: int, span: int) {
    low < t <= top && exists n: nat :: t == StepDown(top, n, span)
  }

  /** An empty bucket, one step wide, where the week's rows have none. */
  ghost predicate Fills(b: Bucket, rows: seq<Bucket>, top: int, low: int, span: int) {
    && b == Bucket(b.valueToInclusive - span, b.valueToInclusive, 0, 0)
    && OnStep(b.valueToInclusive, top, low, span)
    && forall i :: 0 <= i < |rows| ==> rows[i].valueToInclusive != b.valueToInclusive
  }

  /** The week's rows with their total; and each filler once, all in ascending order, if there is any. */
  ghost predicate WeekHolds(w: WeekResults, flat: seq<WeekFlat>, top: int, low: int, span: int) {
    var rows := RowBuckets(flat, w.week);
    && w.total == Sum(CountIn(w.week), flat)
    && (forall b :: multiset(w.results)[b] == multiset(rows)[b] + if Fills(b, rows, top, low, span) then 1 else 0)
    && (w.results == rows || Ascending(TopOf, w.results))
  }

  // ---------------------------------------------------------------- bounds

  lemma {:induction false} AllBucketsOf(weeks: seq<WeekResults>, b: Bucket)
    ensures b in AllBuckets(weeks) <==> exists i :: 0 <= i < |weeks| && b in weeks[i].results
  {
    if weeks == [] {
    } else {
      AllBucketsOf(weeks[1..], b);
      if b in AllBuckets(weeks[1..]) {
        var i :| 0 <= i < |weeks[1..]| && b in weeks[1..][i].results;
        assert b in weeks[i + 1].results;
      }
      if i :| 0 <= i < |weeks| && b in weeks[i].results {
        assert i > 0 ==> weeks[1..][i - 1] == weeks[i];
      }
    }
  }

  lemma {:induction false} WeeksAreDistinct(flat: seq<WeekFlat>)
    ensures forall i, j :: 0 <= i < j < |WeeksOf(flat)| ==> WeeksOf(flat)[i] != WeeksOf(flat)[j]
    ensures forall week :: week in WeeksOf(flat) <==> HasRow(flat, week)
  {
    if flat == [] {
    } else {
      var init, last := flat[..|flat| - 1], flat[|flat| - 1];
      WeeksAreDistinct(init);
      forall week ensures week in WeeksOf(flat) <==> HasRow(flat, week) {
        if HasRow(init, week) {
          var k :| 0 <= k < |init| && init[k].week == week;
          assert flat[k].week == week;
        }
        if HasRow(flat, week) {
          var k :| 0 <= k < |flat| && flat[k].week == week;
          assert k < |init| ==> init[k].week == week;
        }
        assert last.week == week ==> HasRow(flat, week);
      }
    }
  }

  lemma RowInBuckets(flat: seq<WeekFlat>, week: int, b: Bucket)
    ensures b in RowBuckets(flat, week) <==> exists k :: 0 <= k < |flat| && flat[k].week == week && flat[k].bucket == b
  {
    var rows := Filter(InWeek(week), flat);
    if b in RowBuckets(flat, week) {
      var i :| 0 <= i < |rows| && RowBuckets(flat, week)[i] == b;
      assert rows[i] in rows && rows[i] in flat;
    }
    if k :| 0 <= k < |flat| && flat[k].week == week && flat[k].bucket == b {
      assert flat[k] in rows;
      var i :| 0 <= i < |rows| && rows[i] == flat[k];
      assert RowBuckets(flat, week)[i] == b;
    }
  }

  /** The grouped weeks hold the buckets of all rows. */
  lemma GroupedBuckets(flat: seq<WeekFlat>, b: Bucket)
    ensures b in AllBuckets(Grouped(flat)) <==> exists k :: 0 <= k < |flat| && flat[k].bucket == b
  {
    var weeks := Grouped(flat);
    AllBucketsOf(weeks, b);
    WeeksAreDistinct(flat);
    if i :| 0 <= i < |weeks| && b in weeks[i].results {
      BucketsAreRows(flat, WeeksOf(flat)[i]);
      RowInBuckets(flat, WeeksOf(flat)[i], b);
    }
    if k :| 0 <= k < |flat| && flat[k].bucket == b {
      assert HasRow(flat, flat[k].week);
      var i :| 0 <= i < |WeeksOf(flat)| && WeeksOf(flat)[i] == flat[k].week;
      BucketsAreRows(flat, flat[k].week);
      RowInBuckets(flat, flat[k].week, b);
      assert b in weeks[i].results;
    }
  }

  lemma MaxTopIsGreatest(flat: seq<WeekFlat>)
    requires flat != [] && AllBuckets(Grouped(flat)) != []
    ensures IsGreatestTop(flat, MaxTop(AllBuckets(Grouped(flat))))
  {
    var bs := AllBuckets(Grouped(flat));
    var i :| 0 <= i < |bs| && bs[i].valueToInclusive == MaxTop(bs);
    GroupedBuckets(flat, bs[i]);
    forall k | 0 <= k < |flat| ensures flat[k].bucket.valueToInclusive <= MaxTop(bs) {
      GroupedBuckets(flat, flat[k].bucket);
      var j :| 0 <= j < |bs| && bs[j] == flat[k].bucket;
      assert bs[j].valueToInclusive <= MaxTop(bs);
    }
  }

  /** The range and the span of the completion are those of the rows. */
  lemma BoundsAreRows(flat: seq<WeekFlat>, maxRangeTopValue: Option<int>)
    requires flat != [] && Grouped(flat) != [] && AllBuckets(Grouped(flat)) != []
    ensures IsRangeTop(flat, maxRangeTopValue, RangeTop(Grouped(flat), maxRangeTopValue))
    ensures IsSpan(flat, GetMaxMinSpan(Grouped(flat)))
  {
    var bs := AllBuckets(Grouped(flat));
    MaxTopIsGreatest(flat);
    var b := FirstWithTop(bs, MaxTop(bs));
    GroupedBuckets(flat, b);
    var k :| 0 <= k < |flat| && flat[k].bucket == b;
    assert IsGreatestTop(flat, flat[k].bucket.valueToInclusive);
  }

  // ---------------------------------------------------------------- one week

  lemma StepsBelow(t: int, top: int, low: int, span: int)
    requires span > 0 && top > low
    ensures OnStep(t, top, low, span) <==> t == top || OnStep(t, top - span, low, span)
  {
    assert StepDown(top, 0, span) == top;
    if OnStep(t, top, low, span) && t != top {
      var n: nat :| t == StepDown(top, n, span);
      assert n > 0 && (n - 1) * span == n * span - span && (n - 1) * span >= 0;
      assert t == StepDown(top - span, n - 1, span);
    }
    if OnStep(t, top - span, low, span) {
      var n: nat :| t == StepDown(top - span, n, span);
      assert (n + 1) * span == n * span + span;
      assert t == StepDown(top, n + 1, span);
    }
  }

  lemma {:induction false} TopsAreSteps(top: int, low: int, span: int, t: int)
    requires span > 0
    ensures t in TopsDown(top, low, span) <==> OnStep(t, top, low, span)
    decreases top - low
  {
    if top <= low {
    } else {
      TopsAreSteps(top - span, low, span, t);
      StepsBelow(t, top, low, span);
    }
  }

  lemma FillerCons(b: Bucket, t: int, rest: seq<int>, bs: seq<Bucket>, span: int)
    ensures IsFiller(b, [t] + rest, bs, span)
       <==> IsFiller(b, rest, bs, span) || (b == Bucket(t - span, t, 0, 0) && !HasTop(bs, t))
  {
  }

  lemma CountCons(x: Bucket, others: seq<Bucket>, b: Bucket)
    ensures multiset([x] + others)[b] == multiset(others)[b] + if b == x then 1 else 0
  {
  }

  lemma MissingCons(t: int, rest: seq<int>, bs: seq<Bucket>, span: int)
    ensures Missing([t] + rest, bs, span)
         == if HasTop(bs, t) then Missing(rest, bs, span) else [Bucket(t - span, t, 0, 0)] + Missing(rest, bs, span)
  {
    assert ([t] + rest)[1..] == rest;
    assert [] + Missing(rest, bs, span) == Missing(rest, bs, span);
  }

  lemma DistinctTail(t: int, rest: seq<int>)
    requires Distinct([t] + rest)
    ensures Distinct(rest) && t !in rest
  {
    var all := [t] + rest;
    forall i | 0 <= i < |rest| ensures rest[i] != t {
      assert all[0] == t && all[i + 1] == rest[i];
    }
    forall i, j | 0 <= i < j < |rest| ensures rest[i] != rest[j] {
      assert all[i + 1] == rest[i] && all[j + 1] == rest[j];
    }
  }

  ghost function Occurrence(there: bool): nat {
    if there then 1 else 0
  }

  lemma MissingOnceCons(t: int, rest: seq<int>, bs: seq<Bucket>, span: int, b: Bucket)
    requires t !in rest && multiset(Missing(rest, bs, span))[b] == Occurrence(IsFiller(b, rest, bs, span))
    ensures multiset(Missing([t] + rest, bs, span))[b] == Occurrence(IsFiller(b, [t] + rest, bs, span))
  {
    MissingCons(t, rest, bs, span);
    FillerCons(b, t, rest, bs, span);
    CountCons(Bucket(t - span, t, 0, 0), Missing(rest, bs, span), b);
  }

  lemma {:induction false} MissingOnce(tops: seq<int>, bs: seq<Bucket>, span: int, b: Bucket)
    requires Distinct(tops)
    ensures multiset(Missing(tops, bs, span))[b] == Occurrence(IsFiller(b, tops, bs, span))
  {
    if tops == [] {
    } else {
      var t, rest := tops[0], tops[1..];
      assert tops == [t] + rest;
      DistinctTail(t, rest);
      MissingOnce(rest, bs, span, b);
      MissingOnceCons(t, rest, bs, span, b);
    }
  }

  lemma CompletedCounts(w: WeekResults, tops: seq<int>, span: int, b: Bucket)
    requires Distinct(tops)
    ensures multiset(Completed(w, tops, span).results)[b]
         == multiset(w.results)[b] + if IsFiller(b, tops, w.results, span) then 1 else 0
  {
    MissingOnce(tops, w.results, span, b);
    var missing := Missing(tops, w.results, span);
    if missing != [] {
      SortSorts(TopOf, w.results + missing);
      assert multiset(w.results + missing)[b] == multiset(w.results)[b] + multiset(missing)[b];
    }
  }

  lemma FillersFill(b: Bucket, rows: seq<Bucket>, top: int, low: int, span: int)
    requires top > low ==> span > 0
    ensures IsFiller(b, TopsDown(top, low, span), rows, span) <==> Fills(b, rows, top, low, span)
  {
    if top > low {
      TopsAreSteps(top, low, span, b.valueToInclusive);
    }
  }

  lemma CompletedHolds(w: WeekResults, flat: seq<WeekFlat>, top: int, low: int, span: int)
    requires top > low ==> span > 0
    requires w == WeekResults(w.week, Sum(CountOf, BucketsOf(flat, w.week)), BucketsOf(flat, w.week))
    ensures WeekHolds(Completed(w, TopsDown(top, low, span), span), flat, top, low, span)
  {
    var tops := TopsDown(top, low, span);
    BucketsAreRows(flat, w.week);
    if top > low {
      TopsDownDistinct(top, low, span);
    }
    var c := Completed(w, tops, span);
    forall b ensures multiset(c.results)[b] == multiset(w.results)[b] + if Fills(b, w.results, top, low, span) then 1 else 0 {
      CompletedCounts(w, tops, span, b);
      FillersFill(b, w.results, top, low, span);
    }
    assert c.results == w.results || Ascending(TopOf, c.results) by {
      SortSorts(TopOf, w.results + Missing(tops, w.results, span));
    }
  }

  // ---------------------------------------------------------------- all weeks

  ghost predicate WeeksAscend(weeks: seq<WeekResults>) {
    forall i, j :: 0 <= i < j < |weeks| ==> weeks[i].week < weeks[j].week
  }

  ghost predicate Listed(weeks: seq<WeekResults>, week: int) {
    exists i :: 0 <= i < |weeks| && weeks[i].week == week
  }

  ghost predicate WeeksDiffer(weeks: seq<WeekResults>) {
    forall i, j :: 0 <= i < j < |weeks| ==> weeks[i].week != weeks[j].week
  }

  lemma {:induction false} InsertedWeeks(weeks: seq<WeekResults>, w: WeekResults)
    requires WeeksAscend(weeks) && !Listed(weeks, w.week)
    ensures WeeksAscend(Insert(WeekOf, weeks, w))
  {
    if weeks == [] {
    } else if weeks[|weeks| - 1].week <= w.week {
      assert forall i :: 0 <= i < |weeks| ==> weeks[i].week < w.week;
    } else {
      var init, last := weeks[..|weeks| - 1], weeks[|weeks| - 1];
      assert forall i :: 0 <= i < |init| ==> init[i] == weeks[i];
      InsertedWeeks(init, w);
      InsertKeepsElements(WeekOf, init, w);
      var inserted := Insert(WeekOf, init, w);
      forall i | 0 <= i < |inserted| ensures inserted[i].week < last.week {
        assert inserted[i] in multiset(inserted);
        assert inserted[i] in init || inserted[i] == w;
      }
    }
  }

  lemma SortedWeeksSame(weeks: seq<WeekResults>, w: WeekResults)
    ensures w in SortBy(WeekOf, weeks) <==> w in weeks
  {
    SortSorts(WeekOf, weeks);
    assert w in multiset(SortBy(WeekOf, weeks)) <==> w in multiset(weeks);
  }

  lemma LastWeekDiffers(weeks: seq<WeekResults>)
    requires WeeksDiffer(weeks) && weeks != []
    ensures WeeksDiffer(weeks[..|weeks| - 1])
    ensures !Listed(SortBy(WeekOf, weeks[..|weeks| - 1]), weeks[|weeks| - 1].week)
  {
    var n := |weeks| - 1;
    var sorted := SortBy(WeekOf, weeks[..n]);
    forall i | 0 <= i < |sorted| ensures sorted[i].week != weeks[n].week {
      SortedWeeksSame(weeks[..n], sorted[i]);
      assert sorted[i] in sorted;
      var j :| 0 <= j < n && weeks[j] == sorted[i];
    }
  }

  lemma {:induction false} SortedWeeksAscend(weeks: seq<WeekResults>)
    requires WeeksDiffer(weeks)
    ensures WeeksAscend(SortBy(WeekOf, weeks))
  {
    if weeks == [] {
    } else {
      LastWeekDiffers(weeks);
      SortedWeeksAscend(weeks[..|weeks| - 1]);
      InsertedWeeks(SortBy(WeekOf, weeks[..|weeks| - 1]), weeks[|weeks| - 1]);
    }
  }

  /** The completed weeks, in order: each week of the rows once. */
  ghost predicate AllWeeks(weeks: seq<WeekResults>, flat: seq<WeekFlat>, top: int, low: int, span: int) {
    && WeeksAscend(weeks)
    && (forall week :: Listed(weeks, week) <==> HasRow(flat, week))
    && (forall w :: w in weeks ==> WeekHolds(w, flat, top, low, span))
  }

  lemma SortedWeeksListed(flat: seq<WeekFlat>, completed: seq<WeekResults>, sorted: seq<WeekResults>, week: int)
    requires |completed| == |WeeksOf(flat)| && forall i :: 0 <= i < |completed| ==> completed[i].week == WeeksOf(flat)[i]
    requires forall w :: w in sorted <==> w in completed
    ensures Listed(sorted, week) <==> week in WeeksOf(flat)
  {
    if Listed(sorted, week) {
      var i :| 0 <= i < |sorted| && sorted[i].week == week;
      assert sorted[i] in sorted;
      var j :| 0 <= j < |completed| && completed[j] == sorted[i];
      assert WeeksOf(flat)[j] == week;
    }
    if week in WeeksOf(flat) {
      var j :| 0 <= j < |WeeksOf(flat)| && WeeksOf(flat)[j] == week;
      assert completed[j] in sorted;
      var i :| 0 <= i < |sorted| && sorted[i] == completed[j];
      assert sorted[i].week == week;
    }
  }

  lemma CompletedAreAllWeeks(flat: seq<WeekFlat>, top: int, low: int, span: int)
    requires top > low ==> span > 0
    ensures AllWeeks(SortBy(WeekOf, CompletedAll(Grouped(flat), TopsDown(top, low, span), span)), flat, top, low, span)
  {
    var completed := CompletedAll(Grouped(flat), TopsDown(top, low, span), span);
    WeeksAreDistinct(flat);
    forall i | 0 <= i < |completed|
      ensures completed[i].week == WeeksOf(flat)[i] && WeekHolds(completed[i], flat, top, low, span)
    {
      CompletedHolds(Grouped(flat)[i], flat, top, low, span);
    }
    SortedWeeksAscend(completed);
    var sorted := SortBy(WeekOf, completed);
    forall w ensures w in sorted <==> w in completed {
      SortedWeeksSame(completed, w);
    }
    forall week ensures Listed(sorted, week) <==> HasRow(flat, week) {
      SortedWeeksListed(flat, completed, sorted, week);
    }
  }

  /** The last week of the rows, not over yet. */
  ghost predicate Unfinished(flat: seq<WeekFlat>, week: int, now: int) {
    HasRow(flat, week) && (forall k :: 0 <= k < |flat| ==> flat[k].week <= week) && now < week + 7 * 24 * 60 * 60 * 1000
  }

  /** Returned are the weeks of the rows, each once and in order, without the unfinished one unless it is wanted. */
  ghost predicate WeeksReturned(
      weeks: seq<WeekResults>, flat: seq<WeekFlat>, includeCurrentWeek: bool, now: int)
  {
    && WeeksAscend(weeks)
    && forall week :: Listed(weeks, week) <==> HasRow(flat, week) && (includeCurrentWeek || !Unfinished(flat, week, now))
  }

  /** The last of the weeks is the last of the rows, and the only one that may be unfinished. */
  lemma OnlyLastIsUnfinished(
      weeks: seq<WeekResults>, flat: seq<WeekFlat>, top: int, low: int, span: int, now: int, i: nat)
    requires AllWeeks(weeks, flat, top, low, span) && i < |weeks|
    ensures Unfinished(flat, weeks[i].week, now) <==> i == |weeks| - 1 && now < weeks[i].week + WEEK
  {
    var n := |weeks| - 1;
    assert Listed(weeks, weeks[i].week) && Listed(weeks, weeks[n].week);
    var last :| 0 <= last < |flat| && flat[last].week == weeks[n].week;
    forall k | 0 <= k < |flat| ensures flat[k].week <= weeks[n].week {
      assert HasRow(flat, flat[k].week);
      var j :| 0 <= j < |weeks| && weeks[j].week == flat[k].week;
    }
  }

  lemma CurrentWeekDropped(weeks: seq<WeekResults>, flat: seq<WeekFlat>, top: int, low: int, span: int, now: int)
    requires AllWeeks(weeks, flat, top, low, span)
    ensures WeeksReturned(WithoutCurrentWeek(weeks, now), flat, false, now)
  {
    var kept := WithoutCurrentWeek(weeks, now);
    forall i | 0 <= i < |weeks| ensures Unfinished(flat, weeks[i].week, now) <==> i >= |kept| {
      OnlyLastIsUnfinished(weeks, flat, top, low, span, now, i);
    }
    forall week ensures Listed(kept, week) <==> HasRow(flat, week) && !Unfinished(flat, week, now) {
      if Listed(kept, week) {
        var i :| 0 <= i < |kept| && kept[i].week == week;
        assert weeks[i].week == week;
      }
      if HasRow(flat, week) && !Unfinished(flat, week, now) {
        var i :| 0 <= i < |weeks| && weeks[i].week == week;
        assert kept[i].week == week;
      }
    }
  }

  /**
   * For all rows that can be completed: exactly the weeks of the rows are returned, each once and in
   * order, without the last one while it is not over unless it is wanted; each holds its rows' buckets and
   * their total, and one empty bucket for every step of the range that its rows have no bucket for. The
   * range ends at the given top, or at the greatest of all rows, in steps as wide as a bucket with the latter.
   */
  lemma ReturnedWeeksAreRows(
      flat: seq<WeekFlat>, maxRangeTopValue: Option<int>, low: int, includeCurrentWeek: bool, now: int)
    returns (top: int, span: int)
    requires Completable(Grouped(flat), maxRangeTopValue, low)
    ensures var weeks := Returned(flat, maxRangeTopValue, low, includeCurrentWeek, now);
      && WeeksReturned(weeks, flat, includeCurrentWeek, now)
      && (forall w :: w in weeks ==> WeekHolds(w, flat, top, low, span))
    ensures flat != [] ==> IsRangeTop(flat, maxRangeTopValue, top) && IsSpan(flat, span)
  {
    var weeks := SortBy(WeekOf, CompletedWeeks(Grouped(flat), maxRangeTopValue, low));
    if flat == [] {
      top, span := low, 0;
      assert weeks == [];
    } else {
      GroupedIsNonEmpty(flat);
      top, span := RangeTop(Grouped(flat), maxRangeTopValue), GetMaxMinSpan(Grouped(flat));
      BoundsAreRows(flat, maxRangeTopValue);
      CompletedAreAllWeeks(flat, top, low, span);
      if !includeCurrentWeek {
        CurrentWeekDropped(weeks, flat, top, low, span, now);
      }
    }
  }
}
