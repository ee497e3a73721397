/**
 * Every run of an indexer: cron ticks at arbitrary moments, executions interleaved at their awaits,
 * failures, process restarts and deployments of new versions
 * (src/po-rep-indexer/runners/abstract-po-rep-indexer.runner.ts).
 */
module IndexerRuns {
  import opened Wrappers
  import opened Sequences
  import opened IndexerRunner

  // ---------------------------------------------------------------- the step system

  /** One call of `execute` past its guard, by the await it is suspended at. */
  datatype Execution<Log> =
    | Reading(date: int)
    | Fetching(date: int, currentBlock: int, plan: Plan)
    | Committing(date: int, currentBlock: int, plan: Plan, logs: seq<Log>)

  /** `head` and `clock` belong to the environment, `isRunning` and `executions` to the process. */
  datatype World<Db, Log> = World(
    head: int, clock: int, version: int, store: Store<Db>, isRunning: bool, executions: seq<Execution<Log>>)

  datatype Action =
    | Tick
    | AdvanceHead(head: int)
    | AdvanceClock(clock: int)
    | Read(i: nat)
    | Fetch(i: nat)
    | Commit(i: nat)
    | Fail(i: nat)
    | Restart
    | Deploy(version: int)

  /** Entering `execute`: a call made while another one runs returns at once. */
  function Begin<Db, Log>(w: World<Db, Log>): World<Db, Log> {
    if w.isRunning then w
    else w.(isRunning := true, executions := w.executions + [Reading(w.clock)])
  }

  /** Leaving `execute` releases the guard. */
  function End<Db, Log>(w: World<Db, Log>, i: nat): World<Db, Log>
    requires i < |w.executions|
  {
    w.(isRunning := false, executions := Without(w.executions, i))
  }

  function CommitStep<Db, Log>(s: Setup<Db, Log>, w: World<Db, Log>, i: nat): World<Db, Log>
    requires i < |w.executions| && w.executions[i].Committing?
  {
    var e := w.executions[i];
    var store := Transaction(s, w.store, w.version, e.date, e.plan, e.logs);
    if store.None? then End(w, i)
    else
      var done := End(w.(store := store.value), i);
      if e.currentBlock != e.plan.toBlock then Begin(done) else done
  }

  /** One step; an action that does not apply leaves the world as it is. */
  function Next<Db, Log>(setups: int -> Setup<Db, Log>, w: World<Db, Log>, a: Action): World<Db, Log> {
    var s := setups(w.version);
    match a
    case Tick => Begin(w)
    case AdvanceHead(h) => if h >= w.head then w.(head := h) else w
    case AdvanceClock(t) => if t >= w.clock then w.(clock := t) else w
    case Read(i) =>
      if i < |w.executions| && w.executions[i].Reading? then
        var plan := PlanRun(s, w.version, LastRun(w.store.runs, w.version), w.head);
        w.(executions := w.executions[i := Fetching(w.executions[i].date, w.head, plan)])
      else w
    case Fetch(i) =>
      if i < |w.executions| && w.executions[i].Fetching? then
        var e := w.executions[i];
        w.(executions := w.executions[i := Committing(e.date, e.currentBlock, e.plan, GetSortedLogs(s, e.plan))])
      else w
    case Commit(i) =>
      if i < |w.executions| && w.executions[i].Committing? then CommitStep(s, w, i) else w
    case Fail(i) => if i < |w.executions| then End(w, i) else w
    case Restart => w.(isRunning := false, executions := [])
    case Deploy(v) =>
      if v > w.version && setups(v).origin <= w.head + 1
      then w.(version := v, isRunning := false, executions := []) else w
  }

  function Run<Db, Log>(setups: int -> Setup<Db, Log>, w: World<Db, Log>, actions: seq<Action>): World<Db, Log> {
    if actions == [] then w
    else Next(setups, Run(setups, w, actions[..|actions| - 1]), actions[|actions| - 1])
  }

  /** A freshly installed indexer: nothing recorded, whatever the tables hold, the origin block mined. */
  ghost predicate Initial<Db, Log>(setups: int -> Setup<Db, Log>, w: World<Db, Log>) {
    w.store.runs == [] && !w.isRunning && w.executions == [] && setups(w.version).origin <= w.head + 1
  }

  // ---------------------------------------------------------------- the invariant

  function Records<Db, Log>(w: World<Db, Log>): seq<RunRecord> {
    OfVersion(w.store.runs, w.version)
  }

  function LastOf(records: seq<RunRecord>): Option<RunRecord> {
    if records == [] then None else Some(records[|records| - 1])
  }

  /** At most one execution holds the guard, and only while the guard says so. */
  ghost predicate MutuallyExclusive<Db, Log>(w: World<Db, Log>) {
    |w.executions| == if w.isRunning then 1 else 0
  }

  ghost predicate RecordsOk<Db, Log>(s: Setup<Db, Log>, w: World<Db, Log>) {
    && (forall r :: r in w.store.runs ==> r.version <= w.version && r.date <= w.clock)
    && DatesAscend(Records(w))
    && Tiles(s.origin, s.batchSize, Records(w))
    && NextBlock(s.origin, Records(w)) <= w.head + 1
  }

  /** Each record counts the logs of its range. */
  ghost predicate CountsOk<Db, Log>(s: Setup<Db, Log>, w: World<Db, Log>) {
    forall r :: r in Records(w) ==> r.eventsCount == |LogsIn(s.chain, r.blockStart, r.blockEnd)|
  }

  /** Once the version has committed, its tables are its batches on empty tables, and its records count them. */
  ghost predicate TablesOk<Db, Log>(s: Setup<Db, Log>, w: World<Db, Log>) {
    CountsOk(s, w) && (Records(w) != [] ==> CommitAll(s, Batches(s, Records(w))) == Some(w.store.db))
  }

  /** What an execution remembers is still current, because nothing else has committed since. */
  ghost predicate ExecutionOk<Db, Log>(s: Setup<Db, Log>, w: World<Db, Log>, e: Execution<Log>) {
    && e.date <= w.clock
    && (forall r :: r in Records(w) ==> r.date <= e.date)
    && (!e.Reading? ==>
          && NextBlock(s.origin, Records(w)) - 1 <= e.currentBlock <= w.head
          && e.plan == PlanRun(s, w.version, LastOf(Records(w)), e.currentBlock))
    && (e.Committing? ==> e.logs == GetSortedLogs(s, e.plan))
  }

  ghost predicate Inv<Db, Log>(setups: int -> Setup<Db, Log>, w: World<Db, Log>) {
    var s := setups(w.version);
    && MutuallyExclusive(w)
    && RecordsOk(s, w)
    && TablesOk(s, w)
    && (forall i :: 0 <= i < |w.executions| ==> ExecutionOk(s, w, w.executions[i]))
  }

  lemma OfVersionSnoc(runs: seq<RunRecord>, r: RunRecord, version: int)
    ensures OfVersion(runs + [r], version) == if r.version == version then OfVersion(runs, version) + [r] else OfVersion(runs, version)
  {
    FilterSnoc((x: RunRecord) => x.version == version, runs, r);
  }

  lemma {:induction false} LastRunIsLastOf(runs: seq<RunRecord>, version: int)
    requires DatesAscend(OfVersion(runs, version))
    ensures LastRun(runs, version) == LastOf(OfVersion(runs, version))
  {
    if runs == [] {
    } else {
      var init, r := runs[..|runs| - 1], runs[|runs| - 1];
      assert runs == init + [r];
      OfVersionSnoc(init, r, version);
      var before, after := OfVersion(init, version), OfVersion(runs, version);
      assert forall i :: 0 <= i < |before| ==> before[i] == after[i];
      LastRunIsLastOf(init, version);
    }
  }

  /** A range planned on current records starts where they end and never passes the head. */
  lemma PlanContinues<Db, Log>(s: Setup<Db, Log>, version: int, records: seq<RunRecord>, currentBlock: int)
    requires s.batchSize > 0 && NextBlock(s.origin, records) <= currentBlock + 1
    requires forall r :: r in records ==> r.version == version
    ensures var p := PlanRun(s, version, LastOf(records), currentBlock);
      && p.versionChanged == (records == [])
      && p.fromBlock == NextBlock(s.origin, records)
      && 0 <= p.toBlock + 1 - p.fromBlock <= s.batchSize
      && p.toBlock <= currentBlock
  {
  }

  lemma RecordsHaveVersion(runs: seq<RunRecord>, version: int)
    ensures forall r :: r in OfVersion(runs, version) ==> r.version == version && r in runs
  {
  }

  // ---------------------------------------------------------------- preservation

  lemma RecordAdded<Db, Log>(w: World<Db, Log>, r: RunRecord, store: Store<Db>)
    requires store.runs == w.store.runs + [r] && r.version == w.version
    ensures Records(w.(store := store)) == Records(w) + [r]
  {
    OfVersionSnoc(w.store.runs, r, w.version);
  }

  lemma TilesSnoc(origin: int, batchSize: int, records: seq<RunRecord>, r: RunRecord)
    requires Tiles(origin, batchSize, records)
    requires r.blockStart == NextBlock(origin, records) && 0 <= r.blockEnd + 1 - r.blockStart <= batchSize
    ensures Tiles(origin, batchSize, records + [r])
  {
    assert (records + [r])[..|records|] == records;
  }

  lemma DatesSnoc(records: seq<RunRecord>, r: RunRecord)
    requires DatesAscend(records)
    requires forall x :: x in records ==> x.date < r.date
    ensures DatesAscend(records + [r])
  {
    var after := records + [r];
    assert forall i :: 0 <= i < |records| ==> after[i] == records[i] && records[i] in records;
    assert after[|records|] == r;
  }

  /** Appending the record of a committed plan keeps the records tiled. */
  lemma RecordKeepsTiles<Db, Log>(s: Setup<Db, Log>, w: World<Db, Log>, r: RunRecord, store: Store<Db>)
    requires RecordsOk(s, w)
    requires r.version == w.version && r.date <= w.clock && r.blockStart == NextBlock(s.origin, Records(w))
    requires 0 <= r.blockEnd + 1 - r.blockStart <= s.batchSize && r.blockEnd <= w.head
    requires forall x :: x in Records(w) ==> x.date < r.date
    requires store.runs == w.store.runs + [r]
    ensures RecordsOk(s, w.(store := store))
  {
    var w' := w.(store := store);
    RecordAdded(w, r, store);
    TilesSnoc(s.origin, s.batchSize, Records(w), r);
    DatesSnoc(Records(w), r);
    assert DatesAscend(Records(w')) && Tiles(s.origin, s.batchSize, Records(w'));
    assert NextBlock(s.origin, Records(w')) == r.blockEnd + 1;
    forall x | x in w'.store.runs ensures x.version <= w.version && x.date <= w.clock {
      assert x in w.store.runs || x == r;
    }
  }

  lemma SortKeepsLength<Db(!new), Log(!new)>(s: Setup<Db, Log>, logs: seq<Log>)
    requires ValidSetup(s)
    ensures |s.sort(logs)| == |logs|
  {
    assert |multiset(s.sort(logs))| == |multiset(logs)|;
  }

  /** Committing the logs of the next range keeps the tables equal to the batches on empty tables. */
  lemma RecordKeepsTables<Db(!new), Log(!new)>(s: Setup<Db, Log>, w: World<Db, Log>, r: RunRecord, store: Store<Db>)
    requires ValidSetup(s) && TablesOk(s, w)
    requires r.version == w.version && store.runs == w.store.runs + [r]
    requires s.commit(w.store.db, Records(w) == [], s.sort(LogsIn(s.chain, r.blockStart, r.blockEnd))) == Some(store.db)
    requires r.eventsCount == |s.sort(LogsIn(s.chain, r.blockStart, r.blockEnd))|
    ensures TablesOk(s, w.(store := store))
  {
    RecordAdded(w, r, store);
    SortKeepsLength(s, LogsIn(s.chain, r.blockStart, r.blockEnd));
    BatchesSnoc(s, Records(w), r);
    var batches, logs := Batches(s, Records(w)), s.sort(LogsIn(s.chain, r.blockStart, r.blockEnd));
    assert (batches + [logs])[..|batches|] == batches;
    assert s.commit(w.store.db, true, logs) == s.commit(s.empty, false, logs);
  }

  /** The execution that commits is the only one, so nothing is left running unless it starts over. */
  lemma EndIsIdle<Db, Log>(w: World<Db, Log>, i: nat)
    requires MutuallyExclusive(w) && i < |w.executions|
    ensures End(w, i) == w.(isRunning := false, executions := [])
    ensures Begin(End(w, i)) == w.(isRunning := true, executions := [Reading(w.clock)])
  {
  }

  /** A world with fresh executions only is as good as its records. */
  lemma IdleOrReading<Db, Log>(setups: int -> Setup<Db, Log>, w: World<Db, Log>)
    requires var s := setups(w.version); RecordsOk(s, w) && TablesOk(s, w)
    requires MutuallyExclusive(w)
    requires forall i :: 0 <= i < |w.executions| ==> w.executions[i] == Reading(w.clock)
    ensures Inv(setups, w)
  {
    RecordsHaveVersion(w.store.runs, w.version);
  }

  lemma TransactionKeepsRecords<Db(!new), Log(!new)>(s: Setup<Db, Log>, w: World<Db, Log>, e: Execution<Log>)
    requires ValidSetup(s) && RecordsOk(s, w) && TablesOk(s, w) && e.Committing? && ExecutionOk(s, w, e)
    ensures var t := Transaction(s, w.store, w.version, e.date, e.plan, e.logs);
      t.Some? ==> RecordsOk(s, w.(store := t.value)) && TablesOk(s, w.(store := t.value))
  {
    var t := Transaction(s, w.store, w.version, e.date, e.plan, e.logs);
    RecordsHaveVersion(w.store.runs, w.version);
    PlanContinues(s, w.version, Records(w), e.currentBlock);
    if t.Some? {
      var r := RunRecord(e.date, w.version, e.plan.fromBlock, e.plan.toBlock, |e.logs|);
      assert forall x :: x in Records(w) ==> x.date < r.date;
      RecordKeepsTiles(s, w, r, t.value);
      RecordKeepsTables(s, w, r, t.value);
    }
  }

  /** With nothing left running, or only a fresh execution, the records and tables are all that matters. */
  lemma StoreKeepsInv<Db, Log>(setups: int -> Setup<Db, Log>, done: World<Db, Log>)
    requires !done.isRunning && done.executions == []
    requires RecordsOk(setups(done.version), done) && TablesOk(setups(done.version), done)
    ensures Inv(setups, done) && Inv(setups, Begin(done))
  {
    IdleOrReading(setups, done);
    IdleOrReading(setups, Begin(done));
  }

  /** Which executions are under way does not matter to the records and the tables. */
  lemma SameStore<Db, Log>(s: Setup<Db, Log>, w: World<Db, Log>, idle: World<Db, Log>)
    requires RecordsOk(s, w) && TablesOk(s, w)
    requires idle == w.(isRunning := false, executions := [])
    ensures RecordsOk(s, idle) && TablesOk(s, idle)
  {
    assert Records(idle) == Records(w);
  }

  /** What a commit leaves behind: the stored transaction, if any, and nothing or one fresh execution. */
  lemma CommitStops<Db, Log>(setups: int -> Setup<Db, Log>, w: World<Db, Log>, i: nat, store: Store<Db>)
    requires MutuallyExclusive(w) && i < |w.executions| && w.executions[i].Committing?
    requires var e := w.executions[i];
      store == match Transaction(setups(w.version), w.store, w.version, e.date, e.plan, e.logs)
               case Some(after) => after
               case None => w.store
    ensures var done := w.(store := store, isRunning := false, executions := []);
      Next(setups, w, Commit(i)) == done || Next(setups, w, Commit(i)) == Begin(done)
  {
    EndIsIdle(w, i);
    EndIsIdle(w.(store := store), i);
  }

  /** Nothing happens, or nothing is left running, or only a fresh execution is. */
  lemma Stops<Db, Log>(setups: int -> Setup<Db, Log>, w: World<Db, Log>, i: nat)
    requires MutuallyExclusive(w)
    ensures var idle := w.(isRunning := false, executions := []);
      && Next(setups, w, Tick) in {w, Begin(idle)}
      && Next(setups, w, Fail(i)) in {w, idle}
      && Next(setups, w, Restart) == idle
  {
    if i < |w.executions| {
      EndIsIdle(w, i);
    }
    if !w.isRunning {
      assert w == w.(isRunning := false, executions := []);
    }
  }

  lemma CommitKeepsInv<Db(!new), Log(!new)>(setups: int -> Setup<Db, Log>, w: World<Db, Log>, i: nat)
    requires ValidSetup(setups(w.version)) && Inv(setups, w)
    ensures Inv(setups, Next(setups, w, Commit(i)))
  {
    if i < |w.executions| && w.executions[i].Committing? {
      var s, e := setups(w.version), w.executions[i];
      var store := match Transaction(s, w.store, w.version, e.date, e.plan, e.logs) case Some(after) => after case None => w.store;
      var stored := w.(store := store);
      var done := stored.(isRunning := false, executions := []);
      assert Inv(setups, done) && Inv(setups, Begin(done)) by {
        TransactionKeepsRecords(s, w, e);
        SameStore(s, stored, done);
        StoreKeepsInv(setups, done);
      }
      CommitStops(setups, w, i, store);
    }
  }

  /** The one execution there is may move on to anything that is current. */
  lemma MoveKeepsInv<Db, Log>(setups: int -> Setup<Db, Log>, w: World<Db, Log>, i: nat, e: Execution<Log>)
    requires Inv(setups, w) && i < |w.executions| && ExecutionOk(setups(w.version), w, e)
    ensures Inv(setups, w.(executions := w.executions[i := e]))
  {
    var next := w.(executions := w.executions[i := e]);
    assert Records(next) == Records(w);
    assert next.executions == [e];
  }

  lemma ReadKeepsInv<Db, Log>(setups: int -> Setup<Db, Log>, w: World<Db, Log>, i: nat)
    requires Inv(setups, w)
    ensures Inv(setups, Next(setups, w, Read(i)))
  {
    if i < |w.executions| && w.executions[i].Reading? {
      var s := setups(w.version);
      var e := Fetching(w.executions[i].date, w.head, PlanRun(s, w.version, LastRun(w.store.runs, w.version), w.head));
      assert ExecutionOk(s, w, e) by {
        assert ExecutionOk(s, w, w.executions[i]);
        LastRunIsLastOf(w.store.runs, w.version);
      }
      MoveKeepsInv(setups, w, i, e);
    }
  }

  lemma FetchKeepsInv<Db, Log>(setups: int -> Setup<Db, Log>, w: World<Db, Log>, i: nat)
    requires Inv(setups, w)
    ensures Inv(setups, Next(setups, w, Fetch(i)))
  {
    if i < |w.executions| && w.executions[i].Fetching? {
      var s, e := setups(w.version), w.executions[i];
      assert ExecutionOk(s, w, e);
      MoveKeepsInv(setups, w, i, Committing(e.date, e.currentBlock, e.plan, GetSortedLogs(s, e.plan)));
    }
  }

  lemma TimePasses<Db, Log>(setups: int -> Setup<Db, Log>, w: World<Db, Log>, head: int, clock: int)
    requires Inv(setups, w) && w.head <= head && w.clock <= clock
    ensures Inv(setups, w.(head := head, clock := clock))
  {
    forall i | 0 <= i < |w.executions| ensures ExecutionOk(setups(w.version), w.(head := head, clock := clock), w.executions[i]) {
      assert ExecutionOk(setups(w.version), w, w.executions[i]);
    }
  }

  lemma EnvironmentKeepsInv<Db, Log>(setups: int -> Setup<Db, Log>, w: World<Db, Log>, t: int)
    requires Inv(setups, w)
    ensures Inv(setups, Next(setups, w, AdvanceHead(t))) && Inv(setups, Next(setups, w, AdvanceClock(t)))
  {
    if t >= w.head {
      TimePasses(setups, w, t, w.clock);
    }
    if t >= w.clock {
      TimePasses(setups, w, w.head, t);
    }
  }

  lemma {:induction false} NoRecordsAhead(runs: seq<RunRecord>, version: int, v: int)
    requires forall r :: r in runs ==> r.version <= version
    requires v > version
    ensures OfVersion(runs, v) == []
  {
    if runs == [] {
    } else {
      var init, r := runs[..|runs| - 1], runs[|runs| - 1];
      assert runs == init + [r] && r in runs;
      NoRecordsAhead(init, version, v);
      OfVersionSnoc(init, r, v);
    }
  }

  lemma DeployKeepsInv<Db, Log>(setups: int -> Setup<Db, Log>, w: World<Db, Log>, v: int)
    requires Inv(setups, w)
    ensures Inv(setups, Next(setups, w, Deploy(v)))
  {
    if v > w.version {
      NoRecordsAhead(w.store.runs, w.version, v);
    }
  }

  lemma StopKeepsInv<Db, Log>(setups: int -> Setup<Db, Log>, w: World<Db, Log>, i: nat)
    requires Inv(setups, w)
    ensures Inv(setups, Next(setups, w, Tick)) && Inv(setups, Next(setups, w, Fail(i))) && Inv(setups, Next(setups, w, Restart))
  {
    var idle := w.(isRunning := false, executions := []);
    assert Inv(setups, idle) && Inv(setups, Begin(idle)) by {
      SameStore(setups(w.version), w, idle);
      StoreKeepsInv(setups, idle);
    }
    Stops(setups, w, i);
  }

  lemma NextKeepsInv<Db(!new), Log(!new)>(setups: int -> Setup<Db, Log>, w: World<Db, Log>, a: Action)
    requires ValidSetup(setups(w.version))
    requires Inv(setups, w)
    ensures Inv(setups, Next(setups, w, a))
  {
    match a {
      case Tick => StopKeepsInv(setups, w, 0);
      case AdvanceHead(h) => EnvironmentKeepsInv(setups, w, h);
      case AdvanceClock(t) => EnvironmentKeepsInv(setups, w, t);
      case Read(i) => ReadKeepsInv(setups, w, i);
      case Fetch(i) => FetchKeepsInv(setups, w, i);
      case Commit(i) => CommitKeepsInv(setups, w, i);
      case Fail(i) => StopKeepsInv(setups, w, i);
      case Restart => StopKeepsInv(setups, w, 0);
      case Deploy(v) => DeployKeepsInv(setups, w, v);
    }
  }

  lemma {:induction false} RunKeepsInv<Db(!new), Log(!new)>(setups: int -> Setup<Db, Log>, w: World<Db, Log>, actions: seq<Action>)
    requires forall v :: ValidSetup(setups(v))
    requires Initial(setups, w)
    ensures Inv(setups, Run(setups, w, actions))
  {
    if actions == [] {
      assert OfVersion([], w.version) == [];
    } else {
      RunKeepsInv(setups, w, actions[..|actions| - 1]);
      NextKeepsInv(setups, Run(setups, w, actions[..|actions| - 1]), actions[|actions| - 1]);
    }
  }

  // ---------------------------------------------------------------- what every run keeps

  /**
   * In every reachable state: at most one execution is under way; the committed ranges of the version
   * tile the chain from the origin block; each block up to the last blockEnd, and no other, is indexed
   * by exactly one of them; none passes the head.
   */
  lemma EveryBlockIsIndexedOnce<Db(!new), Log(!new)>(
      setups: int -> Setup<Db, Log>, w: World<Db, Log>, actions: seq<Action>, block: int)
    requires forall v :: ValidSetup(setups(v))
    requires Initial(setups, w)
    ensures var end := Run(setups, w, actions);
            var s, records := setups(end.version), Records(end);
      && |end.executions| <= 1 && (end.isRunning <==> |end.executions| == 1)
      && Tiles(s.origin, s.batchSize, records) && NextBlock(s.origin, records) <= end.head + 1
      && (s.origin <= block < NextBlock(s.origin, records) <==> exists i :: 0 <= i < |records| && Covers(records[i], block))
      && (forall i, j :: 0 <= i < |records| && 0 <= j < |records| && Covers(records[i], block) && Covers(records[j], block) ==> i == j)
  {
    RunKeepsInv(setups, w, actions);
    var end := Run(setups, w, actions);
    TiledOnce(setups(end.version).origin, setups(end.version).batchSize, Records(end), block);
  }

  /** The logs of all blocks from the origin to the last indexed one, block by block. */
  ghost predicate AreBlocks<Db, Log>(s: Setup<Db, Log>, records: seq<RunRecord>, logs: seq<Log>) {
    && s.origin <= NextBlock(s.origin, records)
    && logs == Flatten(Blocks(s.chain, s.origin, NextBlock(s.origin, records) - s.origin))
  }

  lemma IndexedAreBlocks<Db, Log>(s: Setup<Db, Log>, records: seq<RunRecord>)
    requires Tiles(s.origin, s.batchSize, records)
    ensures AreBlocks(s, records, Indexed(s, records))
  {
    TiledCover(s.origin, s.batchSize, records, s.origin);
    LogsAreBlocks(s.chain, s.origin, NextBlock(s.origin, records) - s.origin);
  }

  /**
   * In every reachable state the tables are the batches of the version's records on empty tables; each
   * batch holds the logs of its range, which its record counts, and the ranges laid end to end are all logs
   * of the indexed blocks.
   */
  lemma TablesAreTheBatches<Db(!new), Log(!new)>(setups: int -> Setup<Db, Log>, w: World<Db, Log>, actions: seq<Action>)
    requires forall v :: ValidSetup(setups(v))
    requires Initial(setups, w)
    ensures var end := Run(setups, w, actions);
            var s, records := setups(end.version), Records(end);
      && (records != [] ==> CommitAll(s, Batches(s, records)) == Some(end.store.db))
      && (forall i :: 0 <= i < |records| ==> multiset(Batches(s, records)[i]) == multiset(Ranges(s, records)[i]))
      && multiset(Flatten(Batches(s, records))) == multiset(Indexed(s, records))
      && Flatten(Ranges(s, records)) == Indexed(s, records)
      && AreBlocks(s, records, Indexed(s, records)) && CountsOk(s, end)
  {
    RunKeepsInv(setups, w, actions);
    var end := Run(setups, w, actions);
    var s, records := setups(end.version), Records(end);
    BatchesHoldTheChain(s, records);
    RangesAreTheChain(s, records);
    IndexedAreBlocks(s, records);
  }

  // ---------------------------------------------------------------- what never happens without a commit

  /** What later runs add to the store: records of versions since, and no change of the tables without one. */
  ghost predicate Grows<Db, Log>(w: World<Db, Log>, end: World<Db, Log>) {
    && w.version <= end.version
    && |w.store.runs| <= |end.store.runs| && end.store.runs[..|w.store.runs|] == w.store.runs
    && (forall i :: |w.store.runs| <= i < |end.store.runs| ==> w.version <= end.store.runs[i].version <= end.version)
    && (|end.store.runs| == |w.store.runs| ==> end.store.db == w.store.db)
  }

  lemma NextGrows<Db, Log>(setups: int -> Setup<Db, Log>, w: World<Db, Log>, a: Action)
    ensures Grows(w, Next(setups, w, a))
  {
    if a.Commit? && a.i < |w.executions| && w.executions[a.i].Committing? {
      var e := w.executions[a.i];
      var t := Transaction(setups(w.version), w.store, w.version, e.date, e.plan, e.logs);
      assert Next(setups, w, a).store == if t.Some? then t.value else w.store;
    }
  }

  lemma GrowsTwice<Db, Log>(w: World<Db, Log>, mid: World<Db, Log>, end: World<Db, Log>)
    requires Grows(w, mid) && Grows(mid, end)
    ensures Grows(w, end)
  {
    var n, m := |w.store.runs|, |mid.store.runs|;
    assert end.store.runs[..m][..n] == end.store.runs[..n];
    forall i | n <= i < |end.store.runs| ensures w.version <= end.store.runs[i].version <= end.version {
      if i < m {
        assert end.store.runs[..m][i] == mid.store.runs[i];
      }
    }
  }

  lemma {:induction false} RunGrows<Db, Log>(setups: int -> Setup<Db, Log>, w: World<Db, Log>, actions: seq<Action>)
    ensures Grows(w, Run(setups, w, actions))
  {
    if actions == [] {
    } else {
      var init, last := actions[..|actions| - 1], actions[|actions| - 1];
      RunGrows(setups, w, init);
      NextGrows(setups, Run(setups, w, init), last);
      GrowsTwice(w, Run(setups, w, init), Run(setups, w, actions));
    }
  }

  /** After a deployment, until the new version commits, the tables and the records stay as they were. */
  lemma DeployedTablesWait<Db(!new), Log(!new)>(
      setups: int -> Setup<Db, Log>, w: World<Db, Log>, v: int, actions: seq<Action>)
    requires v > w.version && Next(setups, w, Deploy(v)).version == v
    requires Run(setups, Next(setups, w, Deploy(v)), actions).version == v
    requires Records(Run(setups, Next(setups, w, Deploy(v)), actions)) == []
    ensures Run(setups, Next(setups, w, Deploy(v)), actions).store == w.store
  {
    var deployed := Next(setups, w, Deploy(v));
    var end := Run(setups, deployed, actions);
    RunGrows(setups, deployed, actions);
    forall i | 0 <= i < |end.store.runs| ensures end.store.runs[i].version != v {
      assert end.store.runs[i] in end.store.runs;
      assert end.store.runs[i] in Records(end) <==> end.store.runs[i].version == v;
    }
    assert |end.store.runs| == |w.store.runs|;
  }

  /**
   * The head must not go back: a run that sees the head at `currentBlock` continues the tiling exactly
   * when that head is not below the last indexed block.
   */
  lemma PlanTilesIff<Db, Log>(
      s: Setup<Db, Log>, version: int, records: seq<RunRecord>, currentBlock: int, date: int, count: nat)
    requires s.batchSize > 0 && Tiles(s.origin, s.batchSize, records)
    requires forall r :: r in records ==> r.version == version
    ensures var p := PlanRun(s, version, LastOf(records), currentBlock);
      Tiles(s.origin, s.batchSize, records + [RunRecord(date, version, p.fromBlock, p.toBlock, count)])
      <==> currentBlock >= NextBlock(s.origin, records) - 1
  {
    var p := PlanRun(s, version, LastOf(records), currentBlock);
    var r := RunRecord(date, version, p.fromBlock, p.toBlock, count);
    assert p.fromBlock == NextBlock(s.origin, records);
    if currentBlock >= NextBlock(s.origin, records) - 1 {
      TilesSnoc(s.origin, s.batchSize, records, r);
    } else {
      assert (records + [r])[..|records|] == records;
      assert r.blockEnd + 1 - r.blockStart < 0;
    }
  }
}
