/**
 * The run loop shared by both indexers (src/po-rep-indexer/runners/abstract-po-rep-indexer.runner.ts):
 * range selection, the isRunning guard, the atomic commit and the self-rescheduling, over an abstract
 * chain and abstract tables.
 */
module IndexerRunner {
  import opened Wrappers
  import opened Sequences

  /** One row of po_rep_indexer_run, for one runner on one chain. */
  datatype RunRecord = RunRecord(date: int, version: int, blockStart: int, blockEnd: int, eventsCount: nat)

  /**
   * What one version of a runner supplies. `chain` are the logs of each block in chain order, `sort` is
   * what the engine's sort makes of the comparator, `commit` runs the optional cleanup and the prepared
   * updates in one transaction, and is `None` when that is rolled back.
   */
  datatype Setup<!Db, !Log> = Setup(
    origin: int, batchSize: int, empty: Db, chain: int -> seq<Log>, sort: seq<Log> -> seq<Log>,
    commit: (Db, bool, seq<Log>) -> Option<Db>)

  ghost predicate ValidSetup<Db(!new), Log(!new)>(s: Setup<Db, Log>) {
    && s.batchSize > 0
    && (forall logs :: multiset(s.sort(logs)) == multiset(logs))
    && (forall db, logs :: s.commit(db, true, logs) == s.commit(s.empty, false, logs))
  }

  function LogsIn<Log>(chain: int -> seq<Log>, first: int, last: int): seq<Log>
    decreases last - first
  {
    if last < first then [] else LogsIn(chain, first, last - 1) + chain(last)
  }

  lemma {:induction false} LogsInSplit<Log>(chain: int -> seq<Log>, first: int, mid: int, last: int)
    requires first <= mid + 1 && mid <= last
    ensures LogsIn(chain, first, last) == LogsIn(chain, first, mid) + LogsIn(chain, mid + 1, last)
    decreases last - mid
  {
    if mid < last {
      LogsInSplit(chain, first, mid, last - 1);
    }
  }

  /** The logs of `n` blocks from `first` on, one block after the other. */
  function Blocks<Log>(chain: int -> seq<Log>, first: int, n: nat): seq<seq<Log>> {
    seq(n, i requires 0 <= i < n => chain(first + i))
  }

  /** A fetched range holds all logs of its blocks, in their order. */
  lemma {:induction false} LogsAreBlocks<Log>(chain: int -> seq<Log>, first: int, n: nat)
    ensures LogsIn(chain, first, first + n - 1) == Flatten(Blocks(chain, first, n))
  {
    if n == 0 {
    } else {
      LogsAreBlocks(chain, first, n - 1);
      assert Blocks(chain, first, n) == Blocks(chain, first, n - 1) + [chain(first + n - 1)];
      FlattenSnoc(Blocks(chain, first, n - 1), chain(first + n - 1));
    }
  }

  // ---------------------------------------------------------------- sorting the fetched logs

  /** A log object: two different objects are never the same reference. */
  datatype LogObject<Log> = LogObject(reference: nat, log: Log)

  const OBJECT_AS_STRING := "[object Object]"

  predicate StringGreater(a: string, b: string) {
    if a == "" then false
    else if b == "" then true
    else if a[0] == b[0] then StringGreater(a[1..], b[1..])
    else a[0] > b[0]
  }

  /** Comparing objects with `>` compares what they print as, which is the same for all of them. */
  function Compare<Log>(a: LogObject<Log>, b: LogObject<Log>): int {
    if a.reference == b.reference then 0
    else if StringGreater(OBJECT_AS_STRING, OBJECT_AS_STRING) then 1
    else -1
  }

  lemma {:induction false} NoStringIsGreaterThanItself(s: string)
    ensures !StringGreater(s, s)
  {
    if s != "" {
      NoStringIsGreaterThanItself(s[1..]);
    }
  }

  /** Every arrangement of distinct logs counts as sorted, so sorting promises no order at all. */
  lemma ComparatorAcceptsEveryOrder<Log>(logs: seq<LogObject<Log>>)
    requires forall i, j :: 0 <= i < j < |logs| ==> logs[i].reference != logs[j].reference
    ensures forall i, j :: 0 <= i < j < |logs| ==> Compare(logs[i], logs[j]) < 0 && Compare(logs[j], logs[i]) < 0
    ensures forall i :: 0 <= i < |logs| ==> Compare(logs[i], logs[i]) == 0
  {
    NoStringIsGreaterThanItself(OBJECT_AS_STRING);
  }

  // ---------------------------------------------------------------- one run

  /** The version's record with the latest date. */
  function LastRun(runs: seq<RunRecord>, version: int): Option<RunRecord> {
    if runs == [] then None
    else
      var best, r := LastRun(runs[..|runs| - 1], version), runs[|runs| - 1];
      if r.version == version && (best.None? || best.value.date < r.date) then Some(r) else best
  }

  datatype Plan = Plan(versionChanged: bool, fromBlock: int, toBlock: int)

  function PlanRun<Db, Log>(s: Setup<Db, Log>, version: int, lastRun: Option<RunRecord>, currentBlock: int): Plan {
    var versionChanged := lastRun.None? || lastRun.value.version != version;
    var fromBlock := if versionChanged then s.origin else lastRun.value.blockEnd + 1;
    var blockDifference := currentBlock - fromBlock;
    Plan(versionChanged, fromBlock, if blockDifference >= s.batchSize then fromBlock + s.batchSize - 1 else currentBlock)
  }

  /** The logs of the planned range as they are handed to prepareUpdates. */
  function GetSortedLogs<Db, Log>(s: Setup<Db, Log>, plan: Plan): seq<Log> {
    s.sort(LogsIn(s.chain, plan.fromBlock, plan.toBlock))
  }

  datatype Store<Db> = Store(db: Db, runs: seq<RunRecord>)

  /** All or nothing; a second record with the same date and version violates the primary key. */
  function Transaction<Db, Log>(
      s: Setup<Db, Log>, store: Store<Db>, version: int, date: int, plan: Plan, logs: seq<Log>)
    : Option<Store<Db>>
  {
    var db := s.commit(store.db, plan.versionChanged, logs);
    if db.None? || (exists r :: r in store.runs && r.date == date && r.version == version) then None
    else Some(Store(db.value, store.runs + [RunRecord(date, version, plan.fromBlock, plan.toBlock, |logs|)]))
  }

  // ---------------------------------------------------------------- what is stored

  function OfVersion(runs: seq<RunRecord>, version: int): seq<RunRecord> {
    Filter((r: RunRecord) => r.version == version, runs)
  }

  ghost predicate DatesAscend(records: seq<RunRecord>) {
    forall i, j :: 0 <= i < j < |records| ==> records[i].date < records[j].date
  }

  /** The next block to index. */
  function NextBlock(origin: int, records: seq<RunRecord>): int {
    if records == [] then origin else records[|records| - 1].blockEnd + 1
  }

  /** The records cover the chain from `origin` without gap or overlap, in ranges of at most a batch. */
  ghost predicate Tiles(origin: int, batchSize: int, records: seq<RunRecord>) {
    records == []
    || var init, r := records[..|records| - 1], records[|records| - 1];
       && Tiles(origin, batchSize, init)
       && r.blockStart == NextBlock(origin, init) && 0 <= r.blockEnd + 1 - r.blockStart <= batchSize
  }

  predicate Covers(r: RunRecord, block: int) {
    r.blockStart <= block <= r.blockEnd
  }

  lemma {:induction false} TilesOrder(origin: int, batchSize: int, records: seq<RunRecord>, i: int, j: int)
    requires Tiles(origin, batchSize, records) && 0 <= i < j < |records|
    ensures records[i].blockEnd < records[j].blockStart <= records[j].blockEnd + 1
  {
    var init := records[..|records| - 1];
    if j < |init| {
      TilesOrder(origin, batchSize, init, i, j);
    } else if i < |init| - 1 {
      TilesOrder(origin, batchSize, init, i, |init| - 1);
    }
  }

  lemma {:induction false} TiledCover(origin: int, batchSize: int, records: seq<RunRecord>, block: int)
    requires Tiles(origin, batchSize, records)
    ensures origin <= NextBlock(origin, records)
    ensures origin <= block < NextBlock(origin, records) <==> exists i :: 0 <= i < |records| && Covers(records[i], block)
  {
    if records == [] {
    } else {
      var init, r := records[..|records| - 1], records[|records| - 1];
      TiledCover(origin, batchSize, init, block);
      if exists i :: 0 <= i < |init| && Covers(init[i], block) {
        var i :| 0 <= i < |init| && Covers(init[i], block);
        assert Covers(records[i], block);
      }
      if Covers(r, block) {
        assert Covers(records[|records| - 1], block);
      }
      forall i | 0 <= i < |init| && Covers(records[i], block) ensures block < NextBlock(origin, init) {
        assert Covers(init[i], block);
      }
    }
  }

  /** Every block from the origin up to the last indexed one is indexed exactly once, no other ever. */
  lemma {:induction false} TiledOnce(origin: int, batchSize: int, records: seq<RunRecord>, block: int)
    requires Tiles(origin, batchSize, records)
    ensures origin <= block < NextBlock(origin, records) <==> exists i :: 0 <= i < |records| && Covers(records[i], block)
    ensures forall i, j :: 0 <= i < |records| && 0 <= j < |records| && Covers(records[i], block) && Covers(records[j], block) ==> i == j
  {
    forall i, j | 0 <= i < |records| && 0 <= j < |records| && Covers(records[i], block) && Covers(records[j], block)
      ensures i == j
    {
      if i < j {
        TilesOrder(origin, batchSize, records, i, j);
      } else if j < i {
        TilesOrder(origin, batchSize, records, j, i);
      }
    }
    TiledCover(origin, batchSize, records, block);
  }

  function Batches<Db, Log>(s: Setup<Db, Log>, records: seq<RunRecord>): seq<seq<Log>> {
    seq(|records|, i requires 0 <= i < |records| => s.sort(LogsIn(s.chain, records[i].blockStart, records[i].blockEnd)))
  }

  /** The tables after committing the batches one after another on empty tables. */
  function CommitAll<Db, Log>(s: Setup<Db, Log>, batches: seq<seq<Log>>): Option<Db> {
    if batches == [] then Some(s.empty)
    else
      var db := CommitAll(s, batches[..|batches| - 1]);
      if db.None? then None else s.commit(db.value, false, batches[|batches| - 1])
  }

  lemma BatchesSnoc<Db, Log>(s: Setup<Db, Log>, records: seq<RunRecord>, r: RunRecord)
    ensures Batches(s, records + [r]) == Batches(s, records) + [s.sort(LogsIn(s.chain, r.blockStart, r.blockEnd))]
  {
  }

  /** The logs of the committed ranges as they were fetched, in chain order. */
  function Ranges<Db, Log>(s: Setup<Db, Log>, records: seq<RunRecord>): seq<seq<Log>> {
    seq(|records|, i requires 0 <= i < |records| => LogsIn(s.chain, records[i].blockStart, records[i].blockEnd))
  }

  lemma RangesSnoc<Db, Log>(s: Setup<Db, Log>, records: seq<RunRecord>, r: RunRecord)
    ensures Ranges(s, records + [r]) == Ranges(s, records) + [LogsIn(s.chain, r.blockStart, r.blockEnd)]
  {
  }

  /** The sort left every committed range in chain order. */
  ghost predicate KeptChainOrder<Db, Log>(s: Setup<Db, Log>, records: seq<RunRecord>) {
    Batches(s, records) == Ranges(s, records)
  }

  /** All logs of the blocks the records cover. */
  function Indexed<Db, Log>(s: Setup<Db, Log>, records: seq<RunRecord>): seq<Log> {
    LogsIn(s.chain, s.origin, NextBlock(s.origin, records) - 1)
  }

  lemma TilesInit(origin: int, batchSize: int, init: seq<RunRecord>, r: RunRecord)
    requires Tiles(origin, batchSize, init + [r])
    ensures Tiles(origin, batchSize, init)
    ensures r.blockStart == NextBlock(origin, init) && NextBlock(origin, init + [r]) == r.blockEnd + 1
    ensures origin <= r.blockStart <= r.blockEnd + 1
  {
    assert (init + [r])[..|init|] == init;
    TiledCover(origin, batchSize, init, origin);
  }

  lemma IndexedSnoc<Db, Log>(s: Setup<Db, Log>, init: seq<RunRecord>, r: RunRecord)
    requires Tiles(s.origin, s.batchSize, init + [r])
    ensures Tiles(s.origin, s.batchSize, init)
    ensures Indexed(s, init + [r]) == Indexed(s, init) + LogsIn(s.chain, r.blockStart, r.blockEnd)
  {
    TilesInit(s.origin, s.batchSize, init, r);
    LogsInSplit(s.chain, s.origin, r.blockStart - 1, r.blockEnd);
  }

  /** Over tiled ranges the fetched logs laid end to end are the chain. */
  lemma {:induction false} RangesAreTheChain<Db, Log>(s: Setup<Db, Log>, records: seq<RunRecord>)
    requires Tiles(s.origin, s.batchSize, records)
    ensures Flatten(Ranges(s, records)) == Indexed(s, records)
  {
    if records == [] {
    } else {
      var init, r := records[..|records| - 1], records[|records| - 1];
      assert records == init + [r];
      IndexedSnoc(s, init, r);
      RangesAreTheChain(s, init);
      RangesSnoc(s, init, r);
      FlattenSnoc(Ranges(s, init), LogsIn(s.chain, r.blockStart, r.blockEnd));
    }
  }

  /** Each batch holds exactly the logs of its range, so together they hold those of the indexed blocks. */
  lemma {:induction false} BatchesHoldTheChain<Db(!new), Log(!new)>(s: Setup<Db, Log>, records: seq<RunRecord>)
    requires ValidSetup(s) && Tiles(s.origin, s.batchSize, records)
    ensures multiset(Flatten(Batches(s, records))) == multiset(Indexed(s, records))
    ensures forall i :: 0 <= i < |records| ==> multiset(Batches(s, records)[i]) == multiset(Ranges(s, records)[i])
  {
    if records == [] {
    } else {
      var init, r := records[..|records| - 1], records[|records| - 1];
      assert records == init + [r];
      IndexedSnoc(s, init, r);
      BatchesHoldTheChain(s, init);
      BatchesSnoc(s, init, r);
      FlattenSnoc(Batches(s, init), s.sort(LogsIn(s.chain, r.blockStart, r.blockEnd)));
    }
  }
}
