/**
 * The week-by-week synchronisation of the accumulated client-provider distribution
 * (src/aggregation/runners/client-provider-distribution-weekly-acc.runner.ts).
 */
module WeeklyAccSync {
  import opened Wrappers

  /** Weeks are counted; a moment belongs to the week that contains it. */
  type Week = int

  datatype Key = Key(week: Week, client: string, provider: string)

  datatype Figures = Figures(totalDealSize: int, uniqueDataSize: int)

  datatype DmobRow = DmobRow(client: string, provider: string, figures: Figures)

  type Table = map<Key, Figures>

  // ---------------------------------------------------------------- one week

  /** The staged rows of one week; `None` when two of them have the same key. */
  function Staged(week: Week, rows: seq<DmobRow>): Option<Table> {
    if rows == [] then Some(map[])
    else
      var r := rows[|rows| - 1];
      var t := Staged(week, rows[..|rows| - 1]);
      var key := Key(week, r.client, r.provider);
      if t.None? || key in t.value then None else Some(t.value[key := r.figures])
  }

  lemma {:induction false} StagedHaveWeek(week: Week, rows: seq<DmobRow>)
    ensures var t := Staged(week, rows); t.Some? ==> forall k :: k in t.value ==> k.week == week
  {
    if rows == [] {
    } else {
      StagedHaveWeek(week, rows[..|rows| - 1]);
    }
  }

  function KeyOf(week: Week, row: DmobRow): Key {
    Key(week, row.client, row.provider)
  }

  /** No two rows are of the same client and provider. */
  ghost predicate DistinctRows(rows: seq<DmobRow>) {
    forall i, j :: 0 <= i < j < |rows| ==> rows[i].client != rows[j].client || rows[i].provider != rows[j].provider
  }

  /** The row is stored under its week, its client and its provider, with its figures. */
  predicate RowStored(t: Table, week: Week, row: DmobRow) {
    Key(week, row.client, row.provider) in t && t[Key(week, row.client, row.provider)] == row.figures
  }

  ghost predicate FromRows(rows: seq<DmobRow>, k: Key) {
    exists i :: 0 <= i < |rows| && rows[i].client == k.client && rows[i].provider == k.provider
  }

  /** The week's rows of the table are exactly these. */
  ghost predicate HoldsRows(t: Table, week: Week, rows: seq<DmobRow>) {
    && (forall i :: 0 <= i < |rows| ==> RowStored(t, week, rows[i]))
    && (forall k :: k in t && k.week == week ==> FromRows(rows, k))
  }

  lemma DistinctSnoc(rows: seq<DmobRow>, row: DmobRow, week: Week)
    ensures DistinctRows(rows + [row]) <==> DistinctRows(rows) && !FromRows(rows, KeyOf(week, row))
  {
    var all := rows + [row];
    assert forall i :: 0 <= i < |rows| ==> all[i] == rows[i];
    if DistinctRows(all) {
      forall i | 0 <= i < |rows| ensures KeyOf(week, rows[i]) != KeyOf(week, row) {
        assert all[i] == rows[i] && all[|rows|] == row;
      }
    }
  }

  lemma FromRowsSnoc(rows: seq<DmobRow>, row: DmobRow, k: Key)
    ensures FromRows(rows + [row], k) <==> FromRows(rows, k) || KeyOf(k.week, row) == k
  {
    var all := rows + [row];
    assert all[|rows|] == row && forall i :: 0 <= i < |rows| ==> all[i] == rows[i];
  }

  lemma StagedSnoc(t: Table, week: Week, rows: seq<DmobRow>, row: DmobRow)
    requires HoldsRows(t, week, rows) && KeyOf(week, row) !in t
    ensures HoldsRows(t[KeyOf(week, row) := row.figures], week, rows + [row])
  {
    var after, all := t[KeyOf(week, row) := row.figures], rows + [row];
    forall i | 0 <= i < |all| ensures RowStored(after, week, all[i]) {
      if i < |rows| {
        assert RowStored(t, week, rows[i]);
      }
    }
    forall k | k in after && k.week == week ensures FromRows(all, k) {
      FromRowsSnoc(rows, row, k);
    }
  }

  /** Staging succeeds exactly for rows with distinct keys, and then stages exactly them. */
  lemma {:induction false} StagedAreRows(week: Week, rows: seq<DmobRow>)
    ensures Staged(week, rows).Some? <==> DistinctRows(rows)
    ensures Staged(week, rows).Some? ==> HoldsRows(Staged(week, rows).value, week, rows)
  {
    if rows == [] {
    } else {
      var init, row := rows[..|rows| - 1], rows[|rows| - 1];
      assert rows == init + [row];
      StagedAreRows(week, init);
      StagedHaveWeek(week, init);
      DistinctSnoc(init, row, week);
      if Staged(week, init).Some? {
        var t := Staged(week, init).value;
        if FromRows(init, KeyOf(week, row)) {
          var i :| 0 <= i < |init| && KeyOf(week, init[i]) == KeyOf(week, row);
          assert RowStored(t, week, init[i]);
        } else {
          StagedSnoc(t, week, init, row);
        }
      }
    }
  }

  /** WHEN NOT MATCHED BY SOURCE AND target.week = week THEN DELETE. */
  predicate Deleted(k: Key, source: Table, week: Week) {
    k !in source && k.week == week
  }

  /** What the three clauses leave of a row matched by the source. */
  function Updated(target: Figures, source: Figures): Figures {
    if target.totalDealSize != source.totalDealSize || target.uniqueDataSize != source.uniqueDataSize
    then source else target
  }

  function Merge(target: Table, source: Table, week: Week): Table {
    map k | k in target.Keys + source.Keys && !(k in target && Deleted(k, source, week)) ::
      if k in target && k in source then Updated(target[k], source[k])
      else if k in target then target[k]
      else source[k]
  }

  function OtherWeeks(t: Table, week: Week): Table {
    map k | k in t && k.week != week :: t[k]
  }

  /** The three-clause MERGE replaces exactly the rows of the week by the staged ones. */
  lemma MergeReplacesTheWeek(target: Table, source: Table, week: Week)
    requires forall k :: k in source ==> k.week == week
    ensures Merge(target, source, week) == OtherWeeks(target, week) + source
  {
    var merged, replaced := Merge(target, source, week), OtherWeeks(target, week) + source;
    forall k ensures k in merged <==> k in replaced { }
    forall k | k in merged ensures merged[k] == replaced[k] { }
  }

  // ---------------------------------------------------------------- one run

  function RowsOf(t: Table, week: Week): Table {
    map k | k in t && k.week == week :: t[k]
  }

  /** The week a run starts from: the latest stored one, which may be incomplete, or the very first. */
  ghost predicate IsResume(t: Table, firstWeek: Week, resume: Week) {
    if t == map[] then resume == firstWeek
    else (exists k :: k in t && k.week == resume) && (forall k :: k in t ==> k.week <= resume)
  }

  /** Weeks from `first` up to, not including, `next` hold the source's rows, all others what they held. */
  ghost predicate Synced(before: Table, after: Table, source: Week -> seq<DmobRow>, first: Week, next: Week) {
    forall w :: RowsOf(after, w) == if first <= w < next && Staged(w, source(w)).Some?
                                    then Staged(w, source(w)).value else RowsOf(before, w)
  }

  lemma ReplacedRows(target: Table, source: Table, week: Week)
    requires forall k :: k in source ==> k.week == week
    ensures forall w :: RowsOf(OtherWeeks(target, week) + source, w) == if w == week then source else RowsOf(target, w)
  {
    forall w ensures RowsOf(OtherWeeks(target, week) + source, w) == if w == week then source else RowsOf(target, w) {
      var t := OtherWeeks(target, week) + source;
      if w == week {
        assert RowsOf(t, w) == source;
      } else {
        assert RowsOf(t, w) == RowsOf(target, w);
      }
    }
  }

  lemma WeekHoldsRows(t: Table, staged: Table, week: Week, rows: seq<DmobRow>)
    requires RowsOf(t, week) == staged && HoldsRows(staged, week, rows)
    ensures HoldsRows(t, week, rows)
  {
    forall k | k in t && k.week == week ensures FromRows(rows, k) {
      assert k in RowsOf(t, week);
    }
    forall i | 0 <= i < |rows| ensures RowStored(t, week, rows[i]) {
      assert RowStored(RowsOf(t, week), week, rows[i]);
    }
  }

  lemma SyncedFurther(start: Table, before: Table, after: Table, source: Week -> seq<DmobRow>, first: Week, next: Week)
    requires Synced(start, before, source, first, next) && first <= next
    requires Staged(next, source(next)).Some? && RowsOf(after, next) == Staged(next, source(next)).value
    requires forall w :: w != next ==> RowsOf(after, w) == RowsOf(before, w)
    ensures Synced(start, after, source, first, next + 1)
  {
  }

  class ClientProviderDistributionWeeklyAccRunner {
    var target: Table
    var syncSource: Table

    constructor ()
      ensures target == map[] && syncSource == map[]
    {
      target, syncSource := map[], map[];
    }

    method LatestStored(firstWeek: Week) returns (week: Week)
      ensures IsResume(target, firstWeek, week)
    {
      var keys := target.Keys;
      week := firstWeek;
      var found := false;
      while keys != {}
        invariant keys <= target.Keys
        invariant !found ==> keys == target.Keys && week == firstWeek
        invariant found ==> (exists k :: k in target && k.week == week) && forall k :: k in target && k !in keys ==> k.week <= week
        decreases keys
      {
        var k :| k in keys;
        if !found || k.week > week {
          week := k.week;
        }
        found := true;
        keys := keys - {k};
      }
      assert !found ==> target.Keys == {};
    }

    /**
     * One week in one transaction: truncate, stage, merge. Afterwards the week holds exactly the given rows
     * and every other week what it held; a repeated row rolls everything back.
     */
    method SyncWeek(week: Week, rows: seq<DmobRow>) returns (ok: bool)
      modifies this
      ensures ok <==> DistinctRows(rows)
      ensures ok ==> HoldsRows(target, week, rows)
      ensures ok ==> forall w :: w != week ==> RowsOf(target, w) == RowsOf(old(target), w)
      ensures ok ==> HoldsRows(syncSource, week, rows)
      ensures !ok ==> target == old(target) && syncSource == old(syncSource)
      ensures ok == Staged(week, rows).Some? && (ok ==> RowsOf(target, week) == Staged(week, rows).value)
    {
      StagedAreRows(week, rows);
      var staged := Staged(week, rows);
      if staged.None? {
        return false;
      }
      StagedHaveWeek(week, rows);
      MergeReplacesTheWeek(target, staged.value, week);
      ReplacedRows(target, staged.value, week);
      syncSource := staged.value;
      target := Merge(target, syncSource, week);
      WeekHoldsRows(target, staged.value, week, rows);
      ok := true;
    }

    /**
     * Synchronises from the resume week up to the current one. `patience` bounds how many weeks are done
     * before the process is interrupted; a bad source row ends the run too. Whatever happens, the weeks
     * done are those from the resume week up to `next`, without a gap.
     */
    method Run(source: Week -> seq<DmobRow>, firstWeek: Week, now: Week, patience: nat)
      returns (ghost first: Week, next: Week, complete: bool)
      modifies this
      ensures IsResume(old(target), firstWeek, first) && first <= next && (next > first ==> next <= now + 1)
      ensures Synced(old(target), target, source, first, next)
      ensures forall w :: first <= w < next ==> Staged(w, source(w)).Some?
      ensures complete ==> next > now
      ensures !complete ==> next <= now && (next - first == patience || Staged(next, source(next)).None?)
    {
      next := LatestStored(firstWeek);
      first := next;
      var done := 0;
      while next <= now
        invariant first <= next && done == next - first <= patience && (next > first ==> next <= now + 1)
        invariant Synced(old(target), target, source, first, next)
        invariant forall w :: first <= w < next ==> Staged(w, source(w)).Some?
        decreases now - next
      {
        if done == patience {
          return first, next, false;
        }
        ghost var before := target;
        var ok := SyncWeek(next, source(next));
        if !ok {
          return first, next, false;
        }
        SyncedFurther(old(target), before, target, source, first, next);
        next := next + 1;
        done := done + 1;
      }
      complete := true;
    }
  }

  // ---------------------------------------------------------------- any number of runs

  /** One run, as its contract describes it, over the source as it was at the time. */
  datatype RunRecord = RunRecord(source: Week -> seq<DmobRow>, now: Week, first: Week, next: Week)

  ghost predicate RunDone(firstWeek: Week, before: Table, run: RunRecord, after: Table) {
    && IsResume(before, firstWeek, run.first)
    && run.first <= run.next && (run.next > run.first ==> run.next <= run.now + 1)
    && (forall w :: run.first <= w < run.next ==> Staged(w, run.source(w)).Some?)
    && Synced(before, after, run.source, run.first, run.next)
  }

  ghost predicate Follows(earlier: RunRecord, later: RunRecord) {
    earlier.now <= later.now && forall w :: w < earlier.now ==> later.source(w) == earlier.source(w)
  }

  /**
   * `tables[i]` is the table before the i-th run. Time does not run backwards, and a week that was over
   * when a run was made never changes in the source afterwards.
   */
  ghost predicate History(firstWeek: Week, runs: seq<RunRecord>, tables: seq<Table>) {
    && |tables| == |runs| + 1 && tables[0] == map[]
    && (forall i :: 0 <= i < |runs| ==> RunDone(firstWeek, tables[i], runs[i], tables[i + 1]))
    && (forall i, j :: 0 <= i < j < |runs| ==> Follows(runs[i], runs[j]))
  }

  /** All weeks before the resume week are over and hold the source's rows; no later row is stored. */
  ghost predicate UpToDate(t: Table, firstWeek: Week, source: Week -> seq<DmobRow>, now: Week, resume: Week) {
    && IsResume(t, firstWeek, resume) && firstWeek <= resume
    && (t != map[] ==> resume <= now)
    && (forall k :: k in t ==> firstWeek <= k.week)
    && (forall w :: firstWeek <= w < resume ==> Staged(w, source(w)) == Some(RowsOf(t, w)))
  }

  lemma {:induction false} ResumeExists(t: Table, firstWeek: Week) returns (resume: Week)
    ensures IsResume(t, firstWeek, resume)
    decreases t.Keys
  {
    if t == map[] {
      resume := firstWeek;
    } else {
      var k :| k in t;
      var rest := t - {k};
      var r := ResumeExists(rest, firstWeek);
      resume := if rest == map[] || r < k.week then k.week else r;
      assert forall q :: q in t ==> q == k || q in rest;
      if rest != map[] {
        var q :| q in rest && q.week == r;
        assert q in t;
      }
    }
  }

  /** A row is stored in its own week. */
  lemma StoredInWeek(t: Table, k: Key)
    ensures k in t <==> k in RowsOf(t, k.week)
  {
  }

  lemma WeekIsCurrent(
      firstWeek: Week, before: Table, run: RunRecord, after: Table, source: Week -> seq<DmobRow>, now: Week, resume: Week, w: Week)
    requires UpToDate(before, firstWeek, source, now, run.first) && RunDone(firstWeek, before, run, after)
    requires before != map[] ==> now <= run.now && forall v :: v < now ==> run.source(v) == source(v)
    requires IsResume(after, firstWeek, resume) && firstWeek <= w < resume
    ensures Staged(w, run.source(w)) == Some(RowsOf(after, w))
  {
    var k :| k in after && k.week == resume;
    StoredInWeek(after, k);
    StoredInWeek(before, k);
    if w < run.first {
      assert before != map[];
      assert run.source(w) == source(w);
    } else {
      assert w < run.next;
    }
  }

  /** A run leaves an up-to-date table up to date for its own time and source. */
  lemma RunKeepsUpToDate(
      firstWeek: Week, before: Table, run: RunRecord, after: Table, source: Week -> seq<DmobRow>, now: Week)
    returns (resume: Week)
    requires UpToDate(before, firstWeek, source, now, run.first) && RunDone(firstWeek, before, run, after)
    requires before != map[] ==> now <= run.now && forall w :: w < now ==> run.source(w) == source(w)
    ensures UpToDate(after, firstWeek, run.source, run.now, resume)
  {
    resume := ResumeExists(after, firstWeek);
    forall k | k in after ensures firstWeek <= k.week && (k.week <= run.now) {
      StoredInWeek(after, k);
      StoredInWeek(before, k);
      if run.first <= k.week < run.next {
      } else {
        assert k in before;
      }
    }
    forall w | firstWeek <= w < resume ensures Staged(w, run.source(w)) == Some(RowsOf(after, w)) {
      WeekIsCurrent(firstWeek, before, run, after, source, now, resume, w);
    }
  }

  lemma ResumeIsUnique(t: Table, firstWeek: Week, a: Week, b: Week)
    requires IsResume(t, firstWeek, a) && IsResume(t, firstWeek, b)
    ensures a == b
  {
  }

  lemma {:induction false} RunsKeepUpToDate(firstWeek: Week, runs: seq<RunRecord>, tables: seq<Table>, i: nat)
    returns (resume: Week)
    requires History(firstWeek, runs, tables) && 0 < i <= |runs|
    ensures UpToDate(tables[i], firstWeek, runs[i - 1].source, runs[i - 1].now, resume)
    decreases i
  {
    var run := runs[i - 1];
    assert RunDone(firstWeek, tables[i - 1], run, tables[i]);
    if i == 1 {
      resume := RunKeepsUpToDate(firstWeek, tables[0], run, tables[1], run.source, run.now);
    } else {
      var r := RunsKeepUpToDate(firstWeek, runs, tables, i - 1);
      assert r == run.first by { ResumeIsUnique(tables[i - 1], firstWeek, r, run.first); }
      assert Follows(runs[i - 2], run);
      resume := RunKeepsUpToDate(firstWeek, tables[i - 1], run, tables[i], runs[i - 2].source, runs[i - 2].now);
    }
  }

  /**
   * After any number of runs, interrupted between weeks or not, a run that completes leaves in every week
   * from the very first to the current one exactly the source's rows as they are now, and nothing else,
   * although each run starts no earlier than the latest stored week.
   */
  lemma CompleteRunIsExact(firstWeek: Week, runs: seq<RunRecord>, tables: seq<Table>, w: Week)
    requires History(firstWeek, runs, tables) && runs != []
    requires var last := runs[|runs| - 1]; last.next > last.now
    ensures var last := runs[|runs| - 1];
            var t := tables[|runs|];
      if firstWeek <= w <= last.now then
        && Staged(w, last.source(w)) == Some(RowsOf(t, w))
        && DistinctRows(last.source(w)) && HoldsRows(t, w, last.source(w))
      else RowsOf(t, w) == map[] && forall k :: k in t ==> k.week != w
  {
    var n, last := |runs|, runs[|runs| - 1];
    var before, after := tables[n - 1], tables[n];
    assert RunDone(firstWeek, before, last, after);
    var resume := RunsKeepUpToDate(firstWeek, runs, tables, n);
    if n > 1 {
      var r := RunsKeepUpToDate(firstWeek, runs, tables, n - 1);
      ResumeIsUnique(before, firstWeek, r, last.first);
      assert Follows(runs[n - 2], last);
    }
    if firstWeek <= w <= last.now {
      if w >= last.first {
        assert w < last.next;
      }
      StagedAreRows(w, last.source(w));
      WeekHoldsRows(after, RowsOf(after, w), w, last.source(w));
    } else {
      assert forall k :: k in after ==> firstWeek <= k.week <= last.now;
    }
  }
}
