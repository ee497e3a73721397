/**
 * The state of a deal against the table of its state changes, which two separate folds of a batch write
 * (src/po-rep-indexer/runners/po-rep-providers-and-deals.runner.ts, prisma/schema.prisma). The table
 * has no order but that of the blocks.
 */
module ProvidersAndDealsHistory {
  import opened Wrappers
  import opened Sequences
  import opened GroupedUpdates
  import opened ProvidersAndDealsTables
  import opened ProvidersAndDealsIndexer
  import opened ProvidersAndDealsReplay

  type Changes = map<ChangeKey, nat>

  // ---------------------------------------------------------------- the latest change

  ghost predicate Unchanged(changes: Changes, d: Id) {
    forall s :: ChangeKey(d, s) !in changes
  }

  /** A change of the deal with the greatest block there is. */
  ghost predicate IsLatest(changes: Changes, d: Id, state: DealState) {
    && ChangeKey(d, state) in changes
    && forall s :: ChangeKey(d, s) in changes ==> changes[ChangeKey(d, s)] <= changes[ChangeKey(d, state)]
  }

  /** The state is that of a latest change, PROPOSED when there is none. */
  ghost predicate StateIsLatest(changes: Changes, d: Id, state: DealState) {
    if Unchanged(changes, d) then state == PROPOSED else IsLatest(changes, d, state)
  }

  /** Whatever the order, a state other than PROPOSED has its row, and PROPOSED means there is none. */
  ghost predicate StateIsRecorded(changes: Changes, d: Id, state: DealState) {
    if Unchanged(changes, d) then state == PROPOSED else ChangeKey(d, state) in changes
  }

  /** No two changes of the deal happened at one block. */
  ghost predicate BlocksDiffer(changes: Changes, d: Id) {
    forall s, t :: ChangeKey(d, s) in changes && ChangeKey(d, t) in changes && s != t ==>
                     changes[ChangeKey(d, s)] != changes[ChangeKey(d, t)]
  }

  /** Then there is only one latest change. */
  lemma LatestIsUnique(changes: Changes, d: Id, s: DealState, t: DealState)
    requires IsLatest(changes, d, s) && IsLatest(changes, d, t) && BlocksDiffer(changes, d)
    ensures s == t
  {
    assert changes[ChangeKey(d, s)] == changes[ChangeKey(d, t)];
  }

  // ---------------------------------------------------------------- what logs leave of a deal

  predicate IsChangeOf(d: Id, log: Log) {
    IsStateChangeLog(log) && DealOf(log) == d
  }

  function Changing(d: Id): Log -> bool {
    log => IsChangeOf(d, log)
  }

  /** The state changes of one deal among the logs, in the order of the logs. */
  function ChangesOf(d: Id, logs: seq<Log>): seq<Log> {
    Filter(Changing(d), logs)
  }

  function StateBefore(db: Tables, d: Id): DealState {
    if d in db.deals then db.deals[d].state else PROPOSED
  }

  function StateAfter(before: DealState, changes: seq<Log>): DealState {
    if changes == [] then before else StateChangeOf(changes[|changes| - 1]).0.state
  }

  ghost predicate Kept(before: Changes, after: Changes) {
    forall k :: k in before ==> k in after && after[k] == before[k]
  }

  predicate RowStored(after: Changes, log: Log) {
    StateChangeOf(log).0 in after && after[StateChangeOf(log).0] == log.blockNumber
  }

  ghost predicate Recorded(after: Changes, changes: seq<Log>) {
    forall i :: 0 <= i < |changes| ==> RowStored(after, changes[i])
  }

  ghost predicate EnteredBy(changes: seq<Log>, key: ChangeKey) {
    exists i :: 0 <= i < |changes| && StateChangeOf(changes[i]).0 == key
  }

  ghost predicate Accounted(before: Changes, after: Changes, d: Id, changes: seq<Log>) {
    forall s :: ChangeKey(d, s) in after ==> ChangeKey(d, s) in before || EnteredBy(changes, ChangeKey(d, s))
  }

  /** What logs leave behind for one deal: its state is the last change's, and every change has its row. */
  ghost predicate DealAfter(before: Tables, after: Tables, d: Id, changes: seq<Log>) {
    && (d in after.deals ==> after.deals[d].state == StateAfter(StateBefore(before, d), changes))
    && (d in before.deals ==> d in after.deals)
    && (d !in after.deals ==> changes == [])
    && Kept(before.stateChanges, after.stateChanges)
    && Recorded(after.stateChanges, changes)
    && Accounted(before.stateChanges, after.stateChanges, d, changes)
  }

  ghost predicate DealStepped(db: Tables, after: Tables, log: Log, d: Id) {
    && (d in db.deals ==> d in after.deals)
    && (IsChangeOf(d, log) ==> d in db.deals)
    && (d in after.deals ==>
          after.deals[d].state == if IsChangeOf(d, log) then StateChangeOf(log).0.state else StateBefore(db, d))
  }

  ghost predicate ChangesStepped(before: Changes, after: Changes, log: Log) {
    var (key, block) := StateChangeOf(log);
    if IsStateChangeLog(log) then key !in before && after == before[key := block] else after == before
  }

  lemma MarketStepOnDeal(allDeals: map<Id, Terms>, db: Tables, log: Log, d: Id)
    requires IsDealUpdate(log) && Step(allDeals, db, log).Some?
    ensures DealStepped(db, Step(allDeals, db, log).value, log, d)
    ensures ChangesStepped(db.stateChanges, Step(allDeals, db, log).value.stateChanges, log)
  {
    var t := MarketStep(db.deals, db.stateChanges, log);
    assert Step(allDeals, db, log) == Some(db.(deals := t.value.0, stateChanges := t.value.1));
  }

  lemma ProposalStepOnDeal(allDeals: map<Id, Terms>, db: Tables, log: Log, d: Id)
    requires IsProposal(log) && Step(allDeals, db, log).Some?
    ensures DealStepped(db, Step(allDeals, db, log).value, log, d)
    ensures ChangesStepped(db.stateChanges, Step(allDeals, db, log).value.stateChanges, log)
  {
    assert Step(allDeals, db, log) == ProposalStep(allDeals, db, log);
  }

  lemma StepOnDeal(allDeals: map<Id, Terms>, db: Tables, log: Log, d: Id)
    requires Step(allDeals, db, log).Some?
    ensures DealStepped(db, Step(allDeals, db, log).value, log, d)
    ensures ChangesStepped(db.stateChanges, Step(allDeals, db, log).value.stateChanges, log)
  {
    if IsProposal(log) {
      ProposalStepOnDeal(allDeals, db, log, d);
    } else if IsMarketLog(log) {
      MarketStepOnDeal(allDeals, db, log, d);
    } else {
      var after := Step(allDeals, db, log).value;
      assert after.deals == db.deals && after.stateChanges == db.stateChanges;
    }
  }

  lemma EnteredByMore(changes: seq<Log>, log: Log, key: ChangeKey)
    ensures EnteredBy(changes, key) ==> EnteredBy(changes + [log], key)
  {
    if EnteredBy(changes, key) {
      var i :| 0 <= i < |changes| && StateChangeOf(changes[i]).0 == key;
      assert (changes + [log])[i] == changes[i];
    }
  }

  lemma AfterSnoc(allDeals: map<Id, Terms>, before: Tables, db: Tables, log: Log, d: Id, changes: seq<Log>)
    requires DealAfter(before, db, d, changes) && Step(allDeals, db, log).Some?
    ensures DealAfter(before, Step(allDeals, db, log).value, d, if IsChangeOf(d, log) then changes + [log] else changes)
  {
    StepOnDeal(allDeals, db, log, d);
    var after := Step(allDeals, db, log).value;
    var all := if IsChangeOf(d, log) then changes + [log] else changes;
    forall i | 0 <= i < |all| ensures RowStored(after.stateChanges, all[i]) {
      if i < |changes| {
        assert RowStored(db.stateChanges, changes[i]);
      }
    }
    forall s | ChangeKey(d, s) in after.stateChanges
      ensures ChangeKey(d, s) in before.stateChanges || EnteredBy(all, ChangeKey(d, s))
    {
      if ChangeKey(d, s) in db.stateChanges {
        EnteredByMore(changes, log, ChangeKey(d, s));
      } else {
        assert all[|changes|] == log;
      }
    }
  }

  lemma {:induction false} ReplayOnDeal(allDeals: map<Id, Terms>, db: Tables, logs: seq<Log>, d: Id)
    requires Replay(allDeals, db, logs).Some?
    ensures DealAfter(db, Replay(allDeals, db, logs).value, d, ChangesOf(d, logs))
  {
    if logs == [] {
      assert ChangesOf(d, logs) == [];
    } else {
      var init, log := logs[..|logs| - 1], logs[|logs| - 1];
      assert logs == init + [log];
      ReplayOnDeal(allDeals, db, init, d);
      FilterSnoc(Changing(d), init, log);
      AfterSnoc(allDeals, db, Replay(allDeals, db, init).value, log, d, ChangesOf(d, init));
    }
  }

  // ---------------------------------------------------------------- exactly when the tables agree

  /**
   * The last change among the logs is not before any other, nor before any stored one; without a change,
   * what was stored agreed already.
   */
  ghost predicate LastIsLatest(db: Tables, d: Id, changes: seq<Log>) {
    if changes == [] then StateIsLatest(db.stateChanges, d, StateBefore(db, d))
    else
      var last := changes[|changes| - 1].blockNumber;
      && (forall i :: 0 <= i < |changes| ==> changes[i].blockNumber <= last)
      && (forall s :: ChangeKey(d, s) in db.stateChanges ==> db.stateChanges[ChangeKey(d, s)] <= last)
  }

  lemma AgreesIffLastIsLatest(before: Tables, after: Tables, d: Id, changes: seq<Log>)
    requires DealAfter(before, after, d, changes) && d in after.deals
    requires forall i :: 0 <= i < |changes| ==> IsChangeOf(d, changes[i])
    ensures StateIsRecorded(after.stateChanges, d, after.deals[d].state)
         || (changes == [] && !StateIsRecorded(before.stateChanges, d, StateBefore(before, d)))
    ensures StateIsLatest(after.stateChanges, d, after.deals[d].state) <==> LastIsLatest(before, d, changes)
  {
    var rows := after.stateChanges;
    if changes == [] {
      assert forall s :: ChangeKey(d, s) in rows <==> ChangeKey(d, s) in before.stateChanges;
    } else {
      var n := |changes| - 1;
      var state := after.deals[d].state;
      assert RowStored(rows, changes[n]) && StateChangeOf(changes[n]).0 == ChangeKey(d, state);
      if LastIsLatest(before, d, changes) {
        forall s | ChangeKey(d, s) in rows ensures rows[ChangeKey(d, s)] <= rows[ChangeKey(d, state)] {
          if ChangeKey(d, s) !in before.stateChanges {
            var i :| 0 <= i < |changes| && StateChangeOf(changes[i]).0 == ChangeKey(d, s);
            assert RowStored(rows, changes[i]);
          }
        }
      }
      if IsLatest(rows, d, state) {
        forall i | 0 <= i < |changes| ensures changes[i].blockNumber <= changes[n].blockNumber {
          assert RowStored(rows, changes[i]) && IsChangeOf(d, changes[i]);
          assert StateChangeOf(changes[i]).0 == ChangeKey(d, StateChangeOf(changes[i]).0.state);
        }
      }
    }
  }

  lemma ChangesAreOfDeal(d: Id, logs: seq<Log>)
    ensures forall i :: 0 <= i < |ChangesOf(d, logs)| ==> IsChangeOf(d, ChangesOf(d, logs)[i])
  {
    var changes := ChangesOf(d, logs);
    forall i | 0 <= i < |changes| ensures IsChangeOf(d, changes[i]) {
      assert changes[i] in changes;
    }
  }

  lemma ReplayAgreesIff(allDeals: map<Id, Terms>, db: Tables, logs: seq<Log>, d: Id)
    requires Replay(allDeals, db, logs).Some? && d in Replay(allDeals, db, logs).value.deals
    ensures var after, changes := Replay(allDeals, db, logs).value, ChangesOf(d, logs);
      && (StateIsLatest(after.stateChanges, d, after.deals[d].state) <==> LastIsLatest(db, d, changes))
      && (StateIsRecorded(after.stateChanges, d, after.deals[d].state)
          || (changes == [] && !StateIsRecorded(db.stateChanges, d, StateBefore(db, d))))
  {
    ReplayOnDeal(allDeals, db, logs, d);
    ChangesAreOfDeal(d, logs);
    AgreesIffLastIsLatest(db, Replay(allDeals, db, logs).value, d, ChangesOf(d, logs));
  }

  lemma WrittenChanges(d: Id, logs: seq<Log>)
    ensures ChangesOf(d, WriteOrder(logs)) == ChangesOf(d, logs)
  {
    FilterWriteOrder(Changing(d), 3, logs);
  }

  /**
   * For every batch, sorted in any way, and every deal: the committed state is that of a latest change
   * exactly when the last of the deal's changes in the sorted batch has the greatest block, in the batch
   * and among what was stored.
   */
  lemma BatchHistoryAgreesIff(allDeals: map<Id, Terms>, db: Tables, logs: seq<Log>, order: GroupOrder, d: Id)
    requires ValidOrder(order, logs) && ExecuteAll(db, PrepareUpdates(logs, order, allDeals)).Some?
    requires d in ExecuteAll(db, PrepareUpdates(logs, order, allDeals)).value.deals
    ensures var after := ExecuteAll(db, PrepareUpdates(logs, order, allDeals)).value;
      StateIsLatest(after.stateChanges, d, after.deals[d].state) <==> LastIsLatest(db, d, ChangesOf(d, logs))
  {
    BatchIsReplayInWriteOrder(allDeals, db, logs, order);
    WrittenChanges(d, logs);
    ReplayAgreesIff(allDeals, db, WriteOrder(logs), d);
  }

  // ---------------------------------------------------------------- many batches

  /** No change in the list has a greater block than the last one. */
  ghost predicate LastIsGreatest(changes: seq<Log>) {
    forall i :: 0 <= i < |changes| ==> changes[i].blockNumber <= changes[|changes| - 1].blockNumber
  }

  /** With nothing stored before, only the changes themselves matter. */
  lemma FirstLastIsLatest(d: Id, changes: seq<Log>)
    ensures LastIsLatest(EMPTY_TABLES, d, changes) <==> LastIsGreatest(changes)
    ensures StateIsRecorded(EMPTY_TABLES.stateChanges, d, StateBefore(EMPTY_TABLES, d))
  {
  }

  /**
   * After any batches, sorted in any way: a deal's state has its row, or is PROPOSED without rows; and it
   * is that of a latest change exactly when the last of its changes to be committed has the greatest block.
   */
  lemma BatchesHistoryAgreesIff(
      allDeals: map<Id, Terms>, orderOf: seq<Log> -> GroupOrder, batches: seq<seq<Log>>, d: Id)
    requires ValidOrders(orderOf) && RunBatches(allDeals, orderOf, EMPTY_TABLES, batches).Some?
    requires d in RunBatches(allDeals, orderOf, EMPTY_TABLES, batches).value.deals
    ensures var after := RunBatches(allDeals, orderOf, EMPTY_TABLES, batches).value;
      && StateIsRecorded(after.stateChanges, d, after.deals[d].state)
      && (StateIsLatest(after.stateChanges, d, after.deals[d].state) <==> LastIsGreatest(ChangesOf(d, Flatten(batches))))
  {
    BatchesAreReplayInWriteOrder(allDeals, orderOf, EMPTY_TABLES, batches);
    FilterWriteOrders(Changing(d), 3, batches);
    ReplayAgreesIff(allDeals, EMPTY_TABLES, WriteOrders(batches), d);
    FirstLastIsLatest(d, ChangesOf(d, Flatten(batches)));
  }

  ghost predicate BlocksAscend(logs: seq<Log>) {
    forall i, j :: 0 <= i <= j < |logs| ==> logs[i].blockNumber <= logs[j].blockNumber
  }

  lemma ChangesNotAfter(d: Id, logs: seq<Log>)
    requires BlocksAscend(logs) && logs != []
    ensures forall i :: 0 <= i < |ChangesOf(d, logs)| ==> ChangesOf(d, logs)[i].blockNumber <= logs[|logs| - 1].blockNumber
  {
    var changes := ChangesOf(d, logs);
    forall i | 0 <= i < |changes| ensures changes[i].blockNumber <= logs[|logs| - 1].blockNumber {
      assert changes[i] in changes;
      var j :| 0 <= j < |logs| && logs[j] == changes[i];
    }
  }

  lemma {:induction false} AscendingChanges(d: Id, logs: seq<Log>)
    requires BlocksAscend(logs)
    ensures LastIsGreatest(ChangesOf(d, logs))
  {
    if logs == [] {
    } else {
      var init, log := logs[..|logs| - 1], logs[|logs| - 1];
      assert logs == init + [log];
      FilterSnoc(Changing(d), init, log);
      if IsChangeOf(d, log) {
        ChangesNotAfter(d, logs);
      } else {
        AscendingChanges(d, init);
      }
    }
  }

  /** In chain order every deal's state is that of a latest change, the only one unless blocks coincide. */
  lemma ChainOrderAgrees(
      allDeals: map<Id, Terms>, orderOf: seq<Log> -> GroupOrder, batches: seq<seq<Log>>, d: Id, s: DealState)
    requires ValidOrders(orderOf) && RunBatches(allDeals, orderOf, EMPTY_TABLES, batches).Some?
    requires BlocksAscend(Flatten(batches))
    requires d in RunBatches(allDeals, orderOf, EMPTY_TABLES, batches).value.deals
    ensures var after := RunBatches(allDeals, orderOf, EMPTY_TABLES, batches).value;
      && StateIsLatest(after.stateChanges, d, after.deals[d].state)
      && (BlocksDiffer(after.stateChanges, d) && IsLatest(after.stateChanges, d, s) ==> s == after.deals[d].state)
  {
    var after := RunBatches(allDeals, orderOf, EMPTY_TABLES, batches).value;
    BatchesHistoryAgreesIff(allDeals, orderOf, batches, d);
    AscendingChanges(d, Flatten(batches));
    if BlocksDiffer(after.stateChanges, d) && IsLatest(after.stateChanges, d, s) {
      LatestIsUnique(after.stateChanges, d, s, after.deals[d].state);
    }
  }

  // ---------------------------------------------------------------- a batch for which they disagree

  lemma WriteOrdersOfTwo(first: seq<Log>, second: seq<Log>)
    ensures WriteOrders([first, second]) == WriteOrder(first) + WriteOrder(second)
  {
    assert [first, second][..1] == [first] && [first][..0] == [];
    assert WriteOrders([first]) == [] + WriteOrder(first);
  }

  lemma RegisterThenPropose(allDeals: map<Id, Terms>, register: Log, propose: Log)
    requires IsRegistration(register) && IsProposal(propose) && ProposedProvider(propose) == ProviderOf(register)
    ensures var d := Replay(allDeals, EMPTY_TABLES, [register, propose]);
      d.Some? && DealOf(propose) in d.value.deals && d.value.stateChanges == map[]
  {
    ReplayPair(allDeals, EMPTY_TABLES, register, propose);
  }

  lemma EntersState(allDeals: map<Id, Terms>, db: Tables, log: Log)
    requires IsStateChangeLog(log) && DealOf(log) in db.deals && StateChangeOf(log).0 !in db.stateChanges
    ensures var after, (key, block) := Step(allDeals, db, log), StateChangeOf(log);
      && after.Some? && DealOf(log) in after.value.deals && after.value.deals[DealOf(log)].state == key.state
      && after.value.stateChanges == db.stateChanges[key := block]
  {
  }

  lemma CompleteThenAccept(allDeals: map<Id, Terms>, db: Tables, completed: Log, accepted: Log)
    requires 5 in db.deals && db.stateChanges == map[]
    requires completed == Log(PoRepMarket, DealCompleted(5), 20) && accepted == Log(PoRepMarket, DealAccepted(5), 10)
    ensures var after := Replay(allDeals, db, [completed, accepted]);
      && after.Some? && 5 in after.value.deals && after.value.deals[5].state == ACCEPTED
      && IsLatest(after.value.stateChanges, 5, COMPLETED) && !IsLatest(after.value.stateChanges, 5, ACCEPTED)
  {
    ReplayPair(allDeals, db, completed, accepted);
    EntersState(allDeals, db, completed);
    var mid := Step(allDeals, db, completed).value;
    EntersState(allDeals, mid, accepted);
    var changes := Step(allDeals, mid, accepted).value.stateChanges;
    assert changes == map[ChangeKey(5, COMPLETED) := 20, ChangeKey(5, ACCEPTED) := 10];
    assert changes[ChangeKey(5, COMPLETED)] == 20 && changes[ChangeKey(5, ACCEPTED)] == 10;
  }

  /**
   * A deal accepted at block 10 and completed at block 20: sorted the other way round, the batch is
   * committed with the deal ACCEPTED, while its latest change is COMPLETED.
   */
  lemma HistoryMayDisagree(allDeals: map<Id, Terms>, orderOf: seq<Log> -> GroupOrder, proposal: Event)
    requires ValidOrders(orderOf)
    requires proposal.DealProposalCreated? && proposal.dealId == 5 && proposal.provider == 7
    ensures var first := [Log(SPRegistry, ProviderRegistered(7, "org"), 1), Log(PoRepMarket, proposal, 2)];
            var second := [Log(PoRepMarket, DealCompleted(5), 20), Log(PoRepMarket, DealAccepted(5), 10)];
            var after := RunBatches(allDeals, orderOf, EMPTY_TABLES, [first, second]);
      && after.Some? && 5 in after.value.deals && after.value.deals[5].state == ACCEPTED
      && IsLatest(after.value.stateChanges, 5, COMPLETED) && !IsLatest(after.value.stateChanges, 5, ACCEPTED)
  {
    var register, propose := Log(SPRegistry, ProviderRegistered(7, "org"), 1), Log(PoRepMarket, proposal, 2);
    var completed, accepted := Log(PoRepMarket, DealCompleted(5), 20), Log(PoRepMarket, DealAccepted(5), 10);
    assert WriteOrders([[register, propose], [completed, accepted]]) == [register, propose] + [completed, accepted] by {
      WriteOrderOfPair(register, propose);
      WriteOrderOfPair(completed, accepted);
      WriteOrdersOfTwo([register, propose], [completed, accepted]);
    }
    BatchesAreReplayInWriteOrder(allDeals, orderOf, EMPTY_TABLES, [[register, propose], [completed, accepted]]);
    ReplayConcat(allDeals, EMPTY_TABLES, [register, propose], [completed, accepted]);
    RegisterThenPropose(allDeals, register, propose);
    CompleteThenAccept(allDeals, Replay(allDeals, EMPTY_TABLES, [register, propose]).value, completed, accepted);
  }
}
