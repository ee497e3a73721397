/**
 * What a commit sets going, and how far the runs of an indexer get by themselves after one cron tick
 * (src/po-rep-indexer/runners/abstract-po-rep-indexer.runner.ts).
 */
module IndexerProgress {
  import opened Wrappers
  import opened Sequences
  import opened IndexerRunner
  import opened IndexerRuns
  import opened IndexerExecution

  // ---------------------------------------------------------------- what is under way

  /** Nobody is past the guard. */
  ghost predicate Idle<Db, Log>(w: World<Db, Log>) {
    !w.isRunning && w.executions == []
  }

  /** One execution has just entered, at `date`. */
  ghost predicate Started<Db, Log>(w: World<Db, Log>, date: int) {
    w.isRunning && w.executions == [Reading(date)]
  }

  ghost predicate DateTaken<Db, Log>(w: World<Db, Log>, date: int) {
    exists r :: r in w.store.runs && r.date == date && r.version == w.version
  }

  /** What a commit of the range that `e` remembers does to the tables. */
  ghost function Written<Db, Log>(s: Setup<Db, Log>, w: World<Db, Log>, e: Execution<Log>): Option<Db>
    requires e.Committing?
  {
    s.commit(w.store.db, Records(w) == [], s.sort(LogsIn(s.chain, NextBlock(s.origin, Records(w)), e.plan.toBlock)))
  }

  lemma CurrentPlan<Db(!new), Log(!new)>(setups: int -> Setup<Db, Log>, w: World<Db, Log>, i: nat)
    requires Inv(setups, w) && ValidSetup(setups(w.version)) && i < |w.executions| && w.executions[i].Committing?
    ensures var s, e := setups(w.version), w.executions[i];
      && e.plan.fromBlock == NextBlock(s.origin, Records(w)) && e.plan.toBlock <= e.currentBlock
      && e.plan.versionChanged == (Records(w) == [])
      && e.logs == s.sort(LogsIn(s.chain, e.plan.fromBlock, e.plan.toBlock))
  {
    assert ExecutionOk(setups(w.version), w, w.executions[i]);
    RecordsHaveVersion(w.store.runs, w.version);
    PlanContinues(setups(w.version), w.version, Records(w), w.executions[i].currentBlock);
  }

  /** The record of the range that `e` remembers. */
  ghost function RecordOf<Db, Log>(s: Setup<Db, Log>, w: World<Db, Log>, e: Execution<Log>): RunRecord
    requires e.Committing?
  {
    RunRecord(e.date, w.version, NextBlock(s.origin, Records(w)), e.plan.toBlock, |e.logs|)
  }

  lemma TransactionIs<Db, Log>(s: Setup<Db, Log>, w: World<Db, Log>, e: Execution<Log>)
    requires e.Committing? && e.plan.fromBlock == NextBlock(s.origin, Records(w))
    requires e.plan.versionChanged == (Records(w) == []) && e.logs == s.sort(LogsIn(s.chain, e.plan.fromBlock, e.plan.toBlock))
    ensures var db := Written(s, w, e);
      Transaction(s, w.store, w.version, e.date, e.plan, e.logs)
      == if db.Some? && !DateTaken(w, e.date) then Some(Store(db.value, w.store.runs + [RecordOf(s, w, e)])) else None
  {
  }

  lemma CommitLeaves<Db, Log>(setups: int -> Setup<Db, Log>, w: World<Db, Log>, i: nat)
    requires MutuallyExclusive(w) && i < |w.executions| && w.executions[i].Committing?
    ensures var e, after := w.executions[i], Next(setups, w, Commit(i));
            var t := Transaction(setups(w.version), w.store, w.version, e.date, e.plan, e.logs);
            var idle := w.(isRunning := false, executions := []);
      if t.None? then after == idle
      else if e.currentBlock == e.plan.toBlock then after == idle.(store := t.value)
      else after == idle.(store := t.value, isRunning := true, executions := [Reading(w.clock)])
  {
    var e := w.executions[i];
    var t := Transaction(setups(w.version), w.store, w.version, e.date, e.plan, e.logs);
    EndIsIdle(w, i);
    if t.Some? {
      EndIsIdle(w.(store := t.value), i);
    }
  }

  ghost predicate SameOutside<Db, Log>(w: World<Db, Log>, after: World<Db, Log>) {
    after.head == w.head && after.clock == w.clock && after.version == w.version
  }

  /**
   * A commit adds a record exactly when the database takes the batch and the date is free. Then one fresh
   * execution is under way if the head that the run had read is above the new last block, and none
   * otherwise; after a refused commit none is, and nothing is stored.
   */
  lemma CommitReschedules<Db(!new), Log(!new)>(setups: int -> Setup<Db, Log>, w: World<Db, Log>, i: nat)
    requires Inv(setups, w) && ValidSetup(setups(w.version)) && i < |w.executions| && w.executions[i].Committing?
    ensures var s, e, after := setups(w.version), w.executions[i], Next(setups, w, Commit(i));
            var db, r := Written(s, w, e), RecordOf(s, w, e);
      && SameOutside(w, after)
      && if db.Some? && !DateTaken(w, e.date) then
           && after.store == Store(db.value, w.store.runs + [r])
           && if e.currentBlock > r.blockEnd then Started(after, w.clock) else Idle(after)
         else after.store == w.store && Idle(after)
  {
    CurrentPlan(setups, w, i);
    TransactionIs(setups(w.version), w, w.executions[i]);
    CommitLeaves(setups, w, i);
  }

  /** A tick starts a run exactly when none is under way; a failure or a restart ends the one there is. */
  lemma GuardFollows<Db, Log>(setups: int -> Setup<Db, Log>, w: World<Db, Log>, i: nat)
    requires Inv(setups, w)
    ensures var after := Next(setups, w, Tick);
      after.store == w.store && if w.isRunning then after == w else Started(after, w.clock)
    ensures i < |w.executions| ==>
      var after := Next(setups, w, Fail(i)); after.store == w.store && Idle(after)
    ensures var after := Next(setups, w, Restart); after.store == w.store && Idle(after)
  {
    if i < |w.executions| {
      EndIsIdle(w, i);
    }
  }

  /**
   * The head and the clock may move to anything that is not before, whatever runs; a later version whose
   * origin block is mined may be deployed, which ends the process that ran the old one.
   */
  lemma EnvironmentActs<Db, Log>(setups: int -> Setup<Db, Log>, w: World<Db, Log>, head: int, clock: int, version: int)
    ensures Next(setups, w, AdvanceHead(head)) == if head >= w.head then w.(head := head) else w
    ensures Next(setups, w, AdvanceClock(clock)) == if clock >= w.clock then w.(clock := clock) else w
    ensures version > w.version && setups(version).origin <= w.head + 1 ==>
      var after := Next(setups, w, Deploy(version)); after.version == version && after.store == w.store && Idle(after)
  {
  }

  // ---------------------------------------------------------------- one run from start to end

  lemma {:induction false} RunConcat<Db, Log>(
      setups: int -> Setup<Db, Log>, w: World<Db, Log>, a: seq<Action>, b: seq<Action>)
    ensures Run(setups, w, a + b) == Run(setups, Run(setups, w, a), b)
  {
    if b == [] {
      assert a + b == a;
    } else {
      RunConcat(setups, w, a, b[..|b| - 1]);
      assert (a + b)[..|a + b| - 1] == a + b[..|b| - 1];
    }
  }

  lemma RunOne<Db, Log>(setups: int -> Setup<Db, Log>, w: World<Db, Log>, a: Action)
    ensures Run(setups, w, [a]) == Next(setups, w, a)
  {
    assert [a][..0] == [];
  }

  /** The last block of the next range. */
  function RangeEnd(first: int, batchSize: int, head: int): int {
    if first + batchSize - 1 < head then first + batchSize - 1 else head
  }

  /** A run without failure; the clock moves on before it commits. */
  function Round(clock: int): seq<Action> {
    [Read(0), Fetch(0), AdvanceClock(clock), Commit(0)]
  }

  /** An execution that has just entered, with a date of its own. */
  ghost predicate Ready<Db(!new), Log(!new)>(setups: int -> Setup<Db, Log>, w: World<Db, Log>, date: int) {
    && Inv(setups, w) && ValidSetup(setups(w.version))
    && Started(w, date) && forall r :: r in Records(w) ==> r.date < date
  }

  ghost function NextBatch<Db, Log>(s: Setup<Db, Log>, records: seq<RunRecord>, head: int): seq<Log> {
    var first := NextBlock(s.origin, records);
    s.sort(LogsIn(s.chain, first, RangeEnd(first, s.batchSize, head)))
  }

  /** The plan that a fresh execution makes. */
  ghost function NextPlan<Db, Log>(s: Setup<Db, Log>, records: seq<RunRecord>, head: int): Plan {
    var first := NextBlock(s.origin, records);
    Plan(records == [], first, RangeEnd(first, s.batchSize, head))
  }

  lemma PlansNext<Db(!new), Log(!new)>(setups: int -> Setup<Db, Log>, w: World<Db, Log>)
    requires Inv(setups, w) && ValidSetup(setups(w.version))
    ensures PlanRun(setups(w.version), w.version, LastRun(w.store.runs, w.version), w.head)
         == NextPlan(setups(w.version), Records(w), w.head)
  {
    LastRunIsLastOf(w.store.runs, w.version);
    RecordsHaveVersion(w.store.runs, w.version);
    var records := Records(w);
    if records != [] {
      assert records[|records| - 1] in records;
    }
  }

  lemma RunThree<Db, Log>(setups: int -> Setup<Db, Log>, w: World<Db, Log>, a: Action, b: Action, c: Action)
    ensures Run(setups, w, [a, b, c]) == Next(setups, Next(setups, Next(setups, w, a), b), c)
  {
    RunOne(setups, w, a);
    assert [a, b][..1] == [a] && [a, b, c][..2] == [a, b];
    assert Run(setups, w, [a, b]) == Next(setups, Run(setups, w, [a]), b);
  }

  lemma ReadAndFetch<Db, Log>(setups: int -> Setup<Db, Log>, w: World<Db, Log>, date: int, clock: int, plan: Plan)
    requires w.executions == [Reading(date)] && w.clock < clock
    requires PlanRun(setups(w.version), w.version, LastRun(w.store.runs, w.version), w.head) == plan
    ensures Next(setups, Next(setups, Next(setups, w, Read(0)), Fetch(0)), AdvanceClock(clock))
         == w.(clock := clock, executions := [Committing(date, w.head, plan, GetSortedLogs(setups(w.version), plan))])
  {
    var w1 := w.(executions := [Fetching(date, w.head, plan)]);
    var w2 := w.(executions := [Committing(date, w.head, plan, GetSortedLogs(setups(w.version), plan))]);
    assert Next(setups, w, Read(0)) == w1;
    assert Next(setups, w1, Fetch(0)) == w2;
  }

  /** After the reads, the fetch and the passing of time the run is about to commit the next batch. */
  lemma RunsUpToCommit<Db(!new), Log(!new)>(setups: int -> Setup<Db, Log>, w: World<Db, Log>, date: int, clock: int)
    requires Ready(setups, w, date) && w.clock < clock
    ensures var s := setups(w.version);
      Run(setups, w, [Read(0), Fetch(0), AdvanceClock(clock)])
      == w.(clock := clock, executions := [Committing(date, w.head, NextPlan(s, Records(w), w.head), NextBatch(s, Records(w), w.head))])
  {
    PlansNext(setups, w);
    ReadAndFetch(setups, w, date, clock, NextPlan(setups(w.version), Records(w), w.head));
    RunThree(setups, w, Read(0), Fetch(0), AdvanceClock(clock));
  }

  lemma {:induction false} RunFromKeepsInv<Db(!new), Log(!new)>(setups: int -> Setup<Db, Log>, w: World<Db, Log>, actions: seq<Action>)
    requires forall v :: ValidSetup(setups(v))
    requires Inv(setups, w)
    ensures Inv(setups, Run(setups, w, actions))
  {
    if actions == [] {
    } else {
      RunFromKeepsInv(setups, w, actions[..|actions| - 1]);
      NextKeepsInv(setups, Run(setups, w, actions[..|actions| - 1]), actions[|actions| - 1]);
    }
  }

  ghost predicate RoundDone<Db(!new), Log(!new)>(
      setups: int -> Setup<Db, Log>, w: World<Db, Log>, end: World<Db, Log>, clock: int, db: Db)
  {
    var s := setups(w.version);
    var last := NextPlan(s, Records(w), w.head).toBlock;
    && end.version == w.version && end.head == w.head && end.clock == clock && end.store.db == db
    && Batches(s, Records(end)) == Batches(s, Records(w)) + [NextBatch(s, Records(w), w.head)]
    && NextBlock(s.origin, Records(end)) == last + 1
    && if last < w.head then Ready(setups, end, clock) else Idle(end) && Inv(setups, end)
  }

  /** About to commit, with nothing in the way but the database. */
  ghost predicate AboutToCommit<Db(!new), Log(!new)>(setups: int -> Setup<Db, Log>, w: World<Db, Log>, date: int) {
    var s := setups(w.version);
    && Inv(setups, w) && ValidSetup(s) && date < w.clock && (forall r :: r in Records(w) ==> r.date < date)
    && w.executions == [Committing(date, w.head, NextPlan(s, Records(w), w.head), NextBatch(s, Records(w), w.head))]
  }

  lemma CommitsNext<Db(!new), Log(!new)>(setups: int -> Setup<Db, Log>, w: World<Db, Log>, date: int)
    requires AboutToCommit(setups, w, date)
    requires var s := setups(w.version); s.commit(w.store.db, Records(w) == [], NextBatch(s, Records(w), w.head)).Some?
    ensures var s := setups(w.version);
      RoundDone(setups, w, Next(setups, w, Commit(0)), w.clock,
                s.commit(w.store.db, Records(w) == [], NextBatch(s, Records(w), w.head)).value)
  {
    var s := setups(w.version);
    var r := RecordOf(s, w, w.executions[0]);
    var end := Next(setups, w, Commit(0));
    forall x | x in w.store.runs && x.version == w.version ensures x.date != date {
      assert x in Records(w);
    }
    NextKeepsInv(setups, w, Commit(0));
    CommitReschedules(setups, w, 0);
    RecordAdded(w, r, end.store);
    assert Records(end) == Records(w) + [r];
    BatchesSnoc(s, Records(w), r);
  }

  /** One round commits the next batch, and starts over exactly while the head is not reached. */
  lemma RoundCommits<Db(!new), Log(!new)>(setups: int -> Setup<Db, Log>, w: World<Db, Log>, date: int, clock: int)
    requires (forall v :: ValidSetup(setups(v))) && Ready(setups, w, date) && w.clock < clock
    requires var s := setups(w.version); s.commit(w.store.db, Records(w) == [], NextBatch(s, Records(w), w.head)).Some?
    ensures var s := setups(w.version);
      RoundDone(setups, w, Run(setups, w, Round(clock)), clock,
                s.commit(w.store.db, Records(w) == [], NextBatch(s, Records(w), w.head)).value)
  {
    var before := [Read(0), Fetch(0), AdvanceClock(clock)];
    var mid := Run(setups, w, before);
    RunsUpToCommit(setups, w, date, clock);
    assert Records(mid) == Records(w);
    RunFromKeepsInv(setups, w, before);
    assert date < clock by {
      assert ExecutionOk(setups(w.version), w, w.executions[0]);
    }
    CommitsNext(setups, mid, date);
    RunConcat(setups, w, before, [Commit(0)]);
    RunOne(setups, mid, Commit(0));
    assert before + [Commit(0)] == Round(clock);
  }

  // ---------------------------------------------------------------- catching up

  /** `k` rounds after a tick; the clock never shows the same moment twice. */
  function CatchingUp(clocks: nat -> int, k: nat): seq<Action> {
    if k == 0 then [AdvanceClock(clocks(0)), Tick] else CatchingUp(clocks, k - 1) + Round(clocks(k))
  }

  /** The `k`-th of the next batches, at a fixed head. */
  ghost function CutAt<Db, Log>(s: Setup<Db, Log>, first: int, head: int, k: nat): seq<Log> {
    var start := first + k * s.batchSize;
    s.sort(LogsIn(s.chain, start, RangeEnd(start, s.batchSize, head)))
  }

  /** The next `k` batches. */
  ghost function Cut<Db, Log>(s: Setup<Db, Log>, first: int, head: int, k: nat): seq<seq<Log>> {
    if k == 0 then [] else Cut(s, first, head, k - 1) + [CutAt(s, first, head, k - 1)]
  }

  /** The number of runs it takes: one for every batch of blocks, and one when there are none. */
  function RunsNeeded(first: int, batchSize: int, head: int): nat
    requires batchSize > 0
  {
    if first > head then 1 else Ceil(head - first + 1, batchSize)
  }

  lemma OneBatchLess(k: int, batchSize: int)
    ensures (k - 1) * batchSize == k * batchSize - batchSize
  {
  }

  lemma FewerBatches(k: int, l: int, batchSize: int)
    requires k <= l && batchSize > 0
    ensures k * batchSize <= l * batchSize
  {
    assert l * batchSize - k * batchSize == (l - k) * batchSize >= 0;
  }

  /** `blocks` are the blocks of `k` batches; before the last run they do not reach the head. */
  lemma BlocksOfBatches(n: nat, batchSize: int, k: nat, blocks: int)
    requires batchSize > 0 && n > 0 && 0 < k <= Ceil(n, batchSize) && blocks == k * batchSize
    ensures k < Ceil(n, batchSize) <==> blocks < n
    ensures blocks - batchSize < n
  {
    var total := Ceil(n, batchSize);
    CeilRoundsUp(n, batchSize);
    FewerBatches(k, total, batchSize);
    if k < total {
      FewerBatches(k, total - 1, batchSize);
      OneBatchLess(total, batchSize);
    }
  }

  /** Before the last run there are full batches left, and the last one takes what remains. */
  lemma FullBatches(first: int, batchSize: int, head: int, k: nat)
    requires batchSize > 0 && first <= head + 1 && 0 < k <= RunsNeeded(first, batchSize, head)
    ensures k < RunsNeeded(first, batchSize, head) <==> first + k * batchSize <= head
    ensures first + (k - 1) * batchSize <= head + 1
    ensures RangeEnd(first + (k - 1) * batchSize, batchSize, head)
         == if k < RunsNeeded(first, batchSize, head) then first + k * batchSize - 1 else head
  {
    OneBatchLess(k, batchSize);
    if first <= head {
      BlocksOfBatches(head - first + 1, batchSize, k, k * batchSize);
    }
  }

  ghost predicate CaughtUpTo<Db(!new), Log(!new)>(setups: int -> Setup<Db, Log>, w: World<Db, Log>, end: World<Db, Log>, clocks: nat -> int, k: nat)
  {
    var s := setups(w.version);
    var first := NextBlock(s.origin, Records(w));
    && s.batchSize > 0
    && end.version == w.version && end.head == w.head && end.clock == clocks(k)
    && Batches(s, Records(end)) == Batches(s, Records(w)) + Cut(s, first, w.head, k)
    && (k > 0 ==> CommitAll(s, Batches(s, Records(end))) == Some(end.store.db))
    && if k < RunsNeeded(first, s.batchSize, w.head)
       then NextBlock(s.origin, Records(end)) == first + k * s.batchSize && Ready(setups, end, clocks(k))
       else NextBlock(s.origin, Records(end)) == w.head + 1 && Idle(end) && Inv(setups, end)
  }

  lemma TickIsTaken<Db, Log>(setups: int -> Setup<Db, Log>, w: World<Db, Log>, clocks: nat -> int)
    requires Idle(w) && w.clock < clocks(0)
    ensures Run(setups, w, CatchingUp(clocks, 0))
         == w.(clock := clocks(0), isRunning := true, executions := [Reading(clocks(0))])
  {
    var w1 := w.(clock := clocks(0));
    RunConcat(setups, w, [AdvanceClock(clocks(0))], [Tick]);
    RunOne(setups, w, AdvanceClock(clocks(0)));
    RunOne(setups, w1, Tick);
    assert [AdvanceClock(clocks(0))] + [Tick] == CatchingUp(clocks, 0);
  }

  lemma SomeRunIsNeeded(first: int, batchSize: int, head: int)
    requires batchSize > 0
    ensures RunsNeeded(first, batchSize, head) > 0
  {
    if first <= head {
      CeilRoundsUp(head - first + 1, batchSize);
    }
  }

  lemma TickStarts<Db(!new), Log(!new)>(setups: int -> Setup<Db, Log>, w: World<Db, Log>, clocks: nat -> int)
    requires (forall v :: ValidSetup(setups(v))) && ValidSetup(setups(w.version))
    requires Inv(setups, w) && Idle(w) && w.clock < clocks(0)
    ensures CaughtUpTo(setups, w, Run(setups, w, CatchingUp(clocks, 0)), clocks, 0)
  {
    var s := setups(w.version);
    var end := Run(setups, w, CatchingUp(clocks, 0));
    TickIsTaken(setups, w, clocks);
    RunFromKeepsInv(setups, w, CatchingUp(clocks, 0));
    assert Records(end) == Records(w);
    RecordsHaveVersion(w.store.runs, w.version);
    assert Batches(s, Records(w)) + [] == Batches(s, Records(w));
    SomeRunIsNeeded(NextBlock(s.origin, Records(w)), s.batchSize, w.head);
  }

  /** The batch that a run commits next is the next one of the cut. */
  lemma CutContinues<Db, Log>(
      s: Setup<Db, Log>, before: seq<seq<Log>>, records: seq<RunRecord>, first: int, head: int, k: nat)
    requires Batches(s, records) == before + Cut(s, first, head, k) && NextBlock(s.origin, records) == first + k * s.batchSize
    ensures Batches(s, records) + [NextBatch(s, records, head)] == before + Cut(s, first, head, k + 1)
  {
    Associative(before, Cut(s, first, head, k), [NextBatch(s, records, head)]);
  }

  /** What the database takes of a list of batches it takes of the batches one by one. */
  lemma LastIsCommitted<Db, Log>(s: Setup<Db, Log>, batches: seq<seq<Log>>, batch: seq<Log>)
    ensures CommitAll(s, batches + [batch])
         == var d := CommitAll(s, batches); if d.None? then None else s.commit(d.value, false, batch)
  {
    assert (batches + [batch])[..|batches|] == batches;
  }

  lemma NextIsAccepted<Db(!new), Log(!new)>(setups: int -> Setup<Db, Log>, w: World<Db, Log>)
    requires ValidSetup(setups(w.version)) && Inv(setups, w)
    ensures var s := setups(w.version);
            var batch := NextBatch(s, Records(w), w.head);
      s.commit(w.store.db, Records(w) == [], batch) == CommitAll(s, Batches(s, Records(w)) + [batch])
  {
    var s := setups(w.version);
    var batch := NextBatch(s, Records(w), w.head);
    LastIsCommitted(s, Batches(s, Records(w)), batch);
    if Records(w) == [] {
      assert s.commit(w.store.db, true, batch) == s.commit(s.empty, false, batch);
    }
  }

  /** One more round, while runs are still needed. */
  lemma RoundExtends<Db(!new), Log(!new)>(
      setups: int -> Setup<Db, Log>, w: World<Db, Log>, mid: World<Db, Log>, end: World<Db, Log>, clocks: nat -> int, k: nat, db: Db)
    requires Inv(setups, w) && CaughtUpTo(setups, w, mid, clocks, k) && RoundDone(setups, mid, end, clocks(k + 1), db)
    requires var s := setups(w.version); k < RunsNeeded(NextBlock(s.origin, Records(w)), s.batchSize, w.head)
    requires var s := setups(w.version); CommitAll(s, Batches(s, Records(mid)) + [NextBatch(s, Records(mid), w.head)]) == Some(db)
    ensures CaughtUpTo(setups, w, end, clocks, k + 1)
  {
    var s := setups(w.version);
    var first := NextBlock(s.origin, Records(w));
    CutContinues(s, Batches(s, Records(w)), Records(mid), first, w.head, k);
    FullBatches(first, s.batchSize, w.head, k + 1);
  }

  ghost predicate ClocksAscend(clocks: nat -> int) {
    forall i: nat :: clocks(i) < clocks(i + 1)
  }

  /** The database takes the next `k` batches. */
  ghost predicate Accepted<Db, Log>(s: Setup<Db, Log>, records: seq<RunRecord>, head: int, k: nat) {
    CommitAll(s, Batches(s, records) + Cut(s, NextBlock(s.origin, records), head, k)).Some?
  }

  lemma AcceptedBefore<Db, Log>(s: Setup<Db, Log>, records: seq<RunRecord>, head: int, k: nat)
    requires Accepted(s, records, head, k + 1)
    ensures Accepted(s, records, head, k)
  {
    var first := NextBlock(s.origin, records);
    Associative(Batches(s, records), Cut(s, first, head, k), [CutAt(s, first, head, k)]);
    LastIsCommitted(s, Batches(s, records) + Cut(s, first, head, k), CutAt(s, first, head, k));
  }

  lemma RoundFollows<Db(!new), Log(!new)>(
      setups: int -> Setup<Db, Log>, w: World<Db, Log>, mid: World<Db, Log>, clocks: nat -> int, k: nat)
    requires (forall v :: ValidSetup(setups(v))) && Inv(setups, w) && CaughtUpTo(setups, w, mid, clocks, k)
    requires ClocksAscend(clocks) && Accepted(setups(w.version), Records(w), w.head, k + 1)
    requires var s := setups(w.version); k < RunsNeeded(NextBlock(s.origin, Records(w)), s.batchSize, w.head)
    ensures CaughtUpTo(setups, w, Run(setups, mid, Round(clocks(k + 1))), clocks, k + 1)
  {
    var s := setups(w.version);
    var first := NextBlock(s.origin, Records(w));
    var db := CommitAll(s, Batches(s, Records(w)) + Cut(s, first, w.head, k + 1)).value;
    CutContinues(s, Batches(s, Records(w)), Records(mid), first, w.head, k);
    NextIsAccepted(setups, mid);
    RoundCommits(setups, mid, clocks(k), clocks(k + 1));
    RoundExtends(setups, w, mid, Run(setups, mid, Round(clocks(k + 1))), clocks, k, db);
  }

  /**
   * One tick on an idle indexer, at a fixed head, without a failure and without another tick: as long as the
   * database takes the next `k` batches, `k` runs commit exactly them. Until RunsNeeded of them are done
   * one more run is under way; then every block up to the head is indexed and nothing is under way.
   */
  lemma {:induction false} TickCatchesUp<Db(!new), Log(!new)>(
      setups: int -> Setup<Db, Log>, w: World<Db, Log>, clocks: nat -> int, k: nat)
    requires (forall v :: ValidSetup(setups(v))) && setups(w.version).batchSize > 0
    requires Inv(setups, w) && Idle(w) && w.clock < clocks(0) && ClocksAscend(clocks)
    requires var s := setups(w.version);
      && k <= RunsNeeded(NextBlock(s.origin, Records(w)), s.batchSize, w.head)
      && Accepted(s, Records(w), w.head, k)
    ensures CaughtUpTo(setups, w, Run(setups, w, CatchingUp(clocks, k)), clocks, k)
  {
    if k == 0 {
      TickStarts(setups, w, clocks);
    } else {
      AcceptedBefore(setups(w.version), Records(w), w.head, k - 1);
      TickCatchesUp(setups, w, clocks, k - 1);
      RunConcat(setups, w, CatchingUp(clocks, k - 1), Round(clocks(k)));
      RoundFollows(setups, w, Run(setups, w, CatchingUp(clocks, k - 1)), clocks, k - 1);
    }
  }
}
