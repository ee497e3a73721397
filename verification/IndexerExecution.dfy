/**
 * Whole calls of `execute` on the runner object, one after another until the chain is caught up
 * (src/po-rep-indexer/runners/abstract-po-rep-indexer.runner.ts).
 */
module IndexerExecution {
  import opened Wrappers
  import opened Sequences
  import opened IndexerRunner
  import opened IndexerRuns

  /** The clock moves forward from one run to the next, and is ahead of every stored run. */
  ghost predicate ClockAhead(runs: seq<RunRecord>, version: int, dates: nat -> int, k: nat) {
    && (forall r :: r in runs && r.version == version ==> r.date < dates(k))
    && (forall i, j :: k <= i < j ==> dates(i) < dates(j))
  }

  /** Blocks not indexed yet, at a fixed head. */
  function Remaining<Db, Log>(s: Setup<Db, Log>, version: int, runs: seq<RunRecord>, head: int): nat {
    var fromBlock := PlanRun(s, version, LastRun(runs, version), head).fromBlock;
    if fromBlock <= head then head - fromBlock + 1 else 0
  }

  /** What catching up leaves: the stored data, the number of committed runs, whether one failed. */
  datatype CaughtUp<Db> = CaughtUp(store: Store<Db>, committed: nat, failed: bool)

  lemma {:induction false} LastRunIsStored(runs: seq<RunRecord>, version: int)
    ensures var l := LastRun(runs, version); l.Some? ==> l.value in runs && l.value.version == version
  {
    if runs == [] {
    } else {
      LastRunIsStored(runs[..|runs| - 1], version);
    }
  }

  lemma LatestIsLastRun(runs: seq<RunRecord>, r: RunRecord)
    requires forall x :: x in runs && x.version == r.version ==> x.date < r.date
    ensures LastRun(runs + [r], r.version) == Some(r)
  {
    assert (runs + [r])[..|runs|] == runs;
    LastRunIsStored(runs, r.version);
  }

  lemma PlanStopsShort<Db, Log>(s: Setup<Db, Log>, version: int, lastRun: Option<RunRecord>, head: int)
    requires s.batchSize > 0
    ensures var p := PlanRun(s, version, lastRun, head);
            var n := if p.fromBlock <= head then head - p.fromBlock + 1 else 0;
      (p.toBlock != head <==> n > s.batchSize) && (n > s.batchSize ==> p.toBlock == p.fromBlock + s.batchSize - 1)
  {
  }

  /** A record that is the latest decides what remains. */
  lemma RemainingAfter<Db, Log>(s: Setup<Db, Log>, version: int, runs: seq<RunRecord>, r: RunRecord, head: int)
    requires r.version == version && forall x :: x in runs && x.version == version ==> x.date < r.date
    ensures Remaining(s, version, runs + [r], head) == if r.blockEnd < head then head - r.blockEnd else 0
  {
    LatestIsLastRun(runs, r);
  }

  /** A run that stops short of the head leaves fewer blocks. */
  lemma TransactionProgresses<Db, Log>(s: Setup<Db, Log>, store: Store<Db>, version: int, date: int, head: int)
    requires s.batchSize > 0
    requires forall r :: r in store.runs && r.version == version ==> r.date < date
    ensures var p := PlanRun(s, version, LastRun(store.runs, version), head);
            var t := Transaction(s, store, version, date, p, GetSortedLogs(s, p));
            var remaining := Remaining(s, version, store.runs, head);
      && (p.toBlock != head <==> remaining > s.batchSize)
      && (t.Some? ==> Remaining(s, version, t.value.runs, head)
                      == if remaining > s.batchSize then remaining - s.batchSize else 0)
  {
    var p := PlanRun(s, version, LastRun(store.runs, version), head);
    PlanStopsShort(s, version, LastRun(store.runs, version), head);
    RemainingAfter(s, version, store.runs, RunRecord(date, version, p.fromBlock, p.toBlock, |GetSortedLogs(s, p)|), head);
  }

  lemma ClockStaysAhead<Db, Log>(
      s: Setup<Db, Log>, store: Store<Db>, version: int, dates: nat -> int, k: nat, plan: Plan, logs: seq<Log>)
    requires ClockAhead(store.runs, version, dates, k)
    ensures var t := Transaction(s, store, version, dates(k), plan, logs);
      t.Some? ==> ClockAhead(t.value.runs, version, dates, k + 1)
  {
    var t := Transaction(s, store, version, dates(k), plan, logs);
    if t.Some? {
      forall r | r in t.value.runs && r.version == version ensures r.date < dates(k + 1) {
        assert r in store.runs || r.date == dates(k);
        assert dates(k) < dates(k + 1);
      }
    }
  }

  ghost function CatchUp<Db, Log>(
      s: Setup<Db, Log>, store: Store<Db>, version: int, head: int, dates: nat -> int, k: nat): CaughtUp<Db>
    requires s.batchSize > 0 && ClockAhead(store.runs, version, dates, k)
    decreases Remaining(s, version, store.runs, head)
  {
    var p := PlanRun(s, version, LastRun(store.runs, version), head);
    var t := Transaction(s, store, version, dates(k), p, GetSortedLogs(s, p));
    TransactionProgresses(s, store, version, dates(k), head);
    ClockStaysAhead(s, store, version, dates, k, p, GetSortedLogs(s, p));
    if t.None? then CaughtUp(store, 0, true)
    else if p.toBlock == head then CaughtUp(t.value, 1, false)
    else
      var rest := CatchUp(s, t.value, version, head, dates, k + 1);
      CaughtUp(rest.store, 1 + rest.committed, rest.failed)
  }

  /** The number of batches of `b` that `n` blocks fill: `n / b`, rounded up. */
  function Ceil(n: int, b: int): nat
    requires b > 0
    decreases n
  {
    if n <= 0 then 0 else 1 + Ceil(n - b, b)
  }

  lemma {:induction false} CeilRoundsUp(n: nat, b: int)
    requires b > 0
    ensures Ceil(n, b) * b - b < n <= Ceil(n, b) * b
  {
    if n > b {
      CeilRoundsUp(n - b, b);
      assert Ceil(n, b) * b == (1 + Ceil(n - b, b)) * b == b + Ceil(n - b, b) * b;
    } else if n > 0 {
      assert Ceil(n - b, b) == 0;
    }
  }

  /**
   * With a fixed head and no failure, catching up takes one run per batch of unindexed blocks, one run
   * when there are none, leaves no block unindexed and then stops.
   */
  lemma {:induction false} CatchUpTakesCeil<Db, Log>(
      s: Setup<Db, Log>, store: Store<Db>, version: int, head: int, dates: nat -> int, k: nat)
    requires s.batchSize > 0 && ClockAhead(store.runs, version, dates, k)
    ensures var n := Remaining(s, version, store.runs, head);
            var end := CatchUp(s, store, version, head, dates, k);
      && (!end.failed ==> end.committed == (if n == 0 then 1 else Ceil(n, s.batchSize)))
      && (!end.failed ==> Remaining(s, version, end.store.runs, head) == 0)
      && |end.store.runs| == |store.runs| + end.committed
    decreases Remaining(s, version, store.runs, head)
  {
    var n := Remaining(s, version, store.runs, head);
    var p := PlanRun(s, version, LastRun(store.runs, version), head);
    var t := Transaction(s, store, version, dates(k), p, GetSortedLogs(s, p));
    TransactionProgresses(s, store, version, dates(k), head);
    ClockStaysAhead(s, store, version, dates, k, p, GetSortedLogs(s, p));
    if t.Some? && p.toBlock != head {
      CatchUpTakesCeil(s, t.value, version, head, dates, k + 1);
    }
  }

  // ---------------------------------------------------------------- what catching up commits

  /** The version's records tile the chain up to the head at most, and its tables are their batches on empty tables. */
  ghost predicate StoreOk<Db, Log>(s: Setup<Db, Log>, version: int, store: Store<Db>, head: int) {
    var records := OfVersion(store.runs, version);
    && DatesAscend(records) && Tiles(s.origin, s.batchSize, records) && NextBlock(s.origin, records) <= head + 1
    && (records != [] ==> CommitAll(s, Batches(s, records)) == Some(store.db))
  }

  lemma RecordKeepsStore<Db(!new), Log(!new)>(s: Setup<Db, Log>, version: int, store: Store<Db>, after: Store<Db>, r: RunRecord, head: int)
    requires ValidSetup(s) && StoreOk(s, version, store, head)
    requires after.runs == store.runs + [r] && r.version == version && r.blockEnd <= head
    requires forall x :: x in OfVersion(store.runs, version) ==> x.date < r.date
    requires r.blockStart == NextBlock(s.origin, OfVersion(store.runs, version)) && 0 <= r.blockEnd + 1 - r.blockStart <= s.batchSize
    requires s.commit(store.db, OfVersion(store.runs, version) == [], s.sort(LogsIn(s.chain, r.blockStart, r.blockEnd))) == Some(after.db)
    ensures StoreOk(s, version, after, head)
    ensures OfVersion(after.runs, version) == OfVersion(store.runs, version) + [r]
  {
    var records, logs := OfVersion(store.runs, version), s.sort(LogsIn(s.chain, r.blockStart, r.blockEnd));
    OfVersionSnoc(store.runs, r, version);
    assert DatesAscend(records + [r]) by { DatesSnoc(records, r); }
    assert Tiles(s.origin, s.batchSize, records + [r]) by { TilesSnoc(s.origin, s.batchSize, records, r); }
    assert CommitAll(s, Batches(s, records + [r])) == Some(after.db) by {
      BatchesSnoc(s, records, r);
      assert (Batches(s, records) + [logs])[..|records|] == Batches(s, records);
      assert s.commit(store.db, true, logs) == s.commit(s.empty, false, logs);
    }
  }

  ghost predicate RunsAhead(runs: seq<RunRecord>, version: int, date: int) {
    forall r :: r in runs && r.version == version ==> r.date < date
  }

  /** One committed run keeps that, with the cleanup first when it is the version's first. */
  lemma TransactionKeepsStore<Db(!new), Log(!new)>(s: Setup<Db, Log>, version: int, store: Store<Db>, date: int, head: int, p: Plan)
    requires ValidSetup(s) && StoreOk(s, version, store, head) && RunsAhead(store.runs, version, date)
    requires p == PlanRun(s, version, LastRun(store.runs, version), head)
    ensures var t := Transaction(s, store, version, date, p, GetSortedLogs(s, p));
      t.Some? ==> StoreOk(s, version, t.value, head)
                  && OfVersion(t.value.runs, version) != []
                  && NextBlock(s.origin, OfVersion(t.value.runs, version)) == p.toBlock + 1
  {
    var records := OfVersion(store.runs, version);
    var t := Transaction(s, store, version, date, p, GetSortedLogs(s, p));
    LastRunIsLastOf(store.runs, version);
    RecordsHaveVersion(store.runs, version);
    PlanContinues(s, version, records, head);
    if t.Some? {
      RecordKeepsStore(s, version, store, t.value, RunRecord(date, version, p.fromBlock, p.toBlock, |GetSortedLogs(s, p)|), head);
    }
  }

  ghost predicate UpTo<Db, Log>(s: Setup<Db, Log>, version: int, store: Store<Db>, head: int) {
    OfVersion(store.runs, version) != [] && NextBlock(s.origin, OfVersion(store.runs, version)) == head + 1
  }

  /**
   * Whether it fails half-way or not, catching up leaves tables that are the batches of the version's records
   * on empty tables; without a failure the records cover the chain up to the head.
   */
  lemma {:induction false} CatchUpKeepsStore<Db(!new), Log(!new)>(
      s: Setup<Db, Log>, store: Store<Db>, version: int, head: int, dates: nat -> int, k: nat)
    requires ValidSetup(s) && ClockAhead(store.runs, version, dates, k) && StoreOk(s, version, store, head)
    ensures var end := CatchUp(s, store, version, head, dates, k);
      StoreOk(s, version, end.store, head) && (!end.failed ==> UpTo(s, version, end.store, head))
    decreases Remaining(s, version, store.runs, head)
  {
    var p := PlanRun(s, version, LastRun(store.runs, version), head);
    var t := Transaction(s, store, version, dates(k), p, GetSortedLogs(s, p));
    TransactionProgresses(s, store, version, dates(k), head);
    ClockStaysAhead(s, store, version, dates, k, p, GetSortedLogs(s, p));
    TransactionKeepsStore(s, version, store, dates(k), head, p);
    if t.Some? {
      if p.toBlock == head {
        assert UpTo(s, version, t.value, head);
      } else {
        CatchUpKeepsStore(s, t.value, version, head, dates, k + 1);
      }
    }
  }

  class Runner<Db(!new), Log(!new)> {
    const setup: Setup<Db, Log>
    const version: int
    var isRunning: bool
    var store: Store<Db>

    constructor (setup: Setup<Db, Log>, version: int, db: Db)
      ensures this.setup == setup && this.version == version && !isRunning && store == Store(db, [])
    {
      this.setup, this.version := setup, version;
      isRunning, store := false, Store(db, []);
    }

    /**
     * One call while the head stays at `head`; `dates(k)` is when the k-th run starts. The call does
     * nothing while another one is under way; it releases the guard whether the run commits or fails,
     * and calls itself again until the head is reached.
     */
    method Execute(head: int, dates: nat -> int, k: nat) returns (committed: nat, failed: bool)
      requires setup.batchSize > 0 && ClockAhead(store.runs, version, dates, k)
      modifies this
      ensures isRunning == old(isRunning)
      ensures old(isRunning) ==> store == old(store) && committed == 0 && !failed
      ensures !old(isRunning) ==> CaughtUp(store, committed, failed) == CatchUp(setup, old(store), version, head, dates, k)
      ensures !old(isRunning) && ValidSetup(setup) && StoreOk(setup, version, old(store), head) ==>
        && StoreOk(setup, version, store, head)
        && (!failed ==> UpTo(setup, version, store, head)
                        && CommitAll(setup, Batches(setup, OfVersion(store.runs, version))) == Some(store.db))
      decreases Remaining(setup, version, store.runs, head)
    {
      if isRunning {
        return 0, false;
      }
      isRunning := true;
      if ValidSetup(setup) && StoreOk(setup, version, store, head) {
        CatchUpKeepsStore(setup, store, version, head, dates, k);
      }
      var plan := PlanRun(setup, version, LastRun(store.runs, version), head);
      var logs := GetSortedLogs(setup, plan);
      var result := Transaction(setup, store, version, dates(k), plan, logs);
      TransactionProgresses(setup, store, version, dates(k), head);
      ClockStaysAhead(setup, store, version, dates, k, plan, logs);
      if result.None? {
        isRunning := false;
        return 0, true;
      }
      store := result.value;
      var keepRunning := head != plan.toBlock;
      isRunning := false;
      committed, failed := 1, false;
      if keepRunning {
        var more;
        more, failed := Execute(head, dates, k + 1);
        committed := 1 + more;
      }
    }
  }
}
