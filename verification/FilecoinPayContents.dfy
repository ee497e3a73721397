/**
 * What the tables of the payment-rails indexer hold after any batches, told by the fields of the indexed
 * events alone (src/po-rep-indexer/runners/filecoin-pay-indexer.runner.ts, prisma/schema.prisma).
 */
module FilecoinPayContents {
  import opened Wrappers
  import opened Sequences
  import opened GroupedUpdates
  import opened BigIntUpdates
  import opened LastWrites
  import opened FilecoinPayIndexer
  import opened FilecoinPayReplay
  import opened FilecoinPayOrder

  // ---------------------------------------------------------------- values in logs

  function Creating(k: Id): Log -> bool {
    (log: Log) => log.event.RailCreated? && log.event.railId == k
  }

  function PeriodIn(k: Id): Log -> Option<int> {
    (log: Log) => if log.event.RailLockupModified? && log.event.railId == k then Some(log.event.newLockupPeriod) else None
  }

  function RateIn(k: Id): Log -> Option<int> {
    (log: Log) => if log.event.RailRateModified? && log.event.railId == k then Some(log.event.newRate) else None
  }

  /** The block at which the rate rises from nothing. */
  function ActivationIn(k: Id): Log -> Option<int> {
    (log: Log) => if log.event.RailRateModified? && log.event.railId == k && log.event.oldRate == 0 && log.event.newRate > 0
           then Some(log.blockNumber) else None
  }

  function SettledIn(k: Id): Log -> Option<int> {
    (log: Log) => if log.event.RailSettled? && log.event.railId == k then Some(log.event.settledUpTo) else ActivationIn(k)(log)
  }

  function EndIn(k: Id): Log -> Option<int> {
    (log: Log) => if log.event.RailTerminated? && log.event.railId == k then Some(log.event.endEpoch) else None
  }

  function FinalizedIn(k: Id): Log -> Option<bool> {
    (log: Log) => if log.event.RailFinalized? && log.event.railId == k then Some(true) else None
  }

  /** What an event does to the fixed lockup. */
  datatype LockupChange = Set(value: int) | Pay(amount: int)

  function LockupIn(k: Id): Log -> Option<LockupChange> {
    (log: Log) => if log.event.railId != k then None
           else if log.event.RailLockupModified? then Some(Set(log.event.newLockupFixed))
           else if log.event.RailFinalized? then Some(Set(0))
           else if log.event.RailOneTimePaymentProcessed?
           then Some(Pay(log.event.netPayeeAmount + log.event.networkFee + log.event.operatorCommission))
           else None
  }

  function Changed(change: Option<LockupChange>, x: int): int {
    if change.None? then x else if change.value.Set? then change.value.value else x - change.value.amount
  }

  // ---------------------------------------------------------------- what a rail holds

  /** The batches from the one on that creates the rail; events of earlier ones found no row. */
  function Since(k: Id, batches: seq<seq<Log>>): seq<seq<Log>> {
    if batches == [] then []
    else
      var init, last := Since(k, batches[..|batches| - 1]), batches[|batches| - 1];
      if init != [] || Filter(Creating(k), last) != [] then init + [last] else []
  }

  /** Of every batch only the last change of the lockup takes effect. */
  function LockupAfter(k: Id, batches: seq<seq<Log>>): int {
    if batches == [] then 0
    else Changed(Last(LockupIn(k), batches[|batches| - 1]), LockupAfter(k, batches[..|batches| - 1]))
  }

  ghost predicate CreatedAs(row: Rail, creation: Log)
    requires creation.event.RailCreated?
  {
    var e := creation.event;
    && row.token == e.token && row.from == e.payer && row.to == e.payee && row.operator == e.operator
    && row.validator == e.validator && row.serviceFeeRecipient == e.serviceFeeRecipient
    && row.commissionRateBps == e.commissionRateBps && row.createdAtBlock == creation.blockNumber
  }

  /** Every column that events overwrite holds the last value written, or the one from the creation. */
  ghost predicate ColumnsAre(row: Rail, k: Id, creation: Log, logs: seq<Log>) {
    && row.lockupPeriod == Or(Last(PeriodIn(k), logs), 0)
    && row.paymentRate == Or(Last(RateIn(k), logs), 0)
    && row.activatedAtBlock == Or(Last(ActivationIn(k), logs), 0)
    && row.settledUpTo == Or(Last(SettledIn(k), logs), creation.blockNumber)
    && row.endEpoch == Or(Last(EndIn(k), logs), 0)
    && row.finalized == Or(Last(FinalizedIn(k), logs), false)
  }

  /**
   * A rail has a row exactly when there is a creation, and then only one, whose values it has; the rest is
   * what the events from that batch on say, and the lockup what the batches keep of them.
   */
  ghost predicate RailHolds(db: Tables, k: Id, batches: seq<seq<Log>>) {
    var creations, since := Filter(Creating(k), Flatten(batches)), Since(k, batches);
    if k in db.rails then
      && |creations| == 1 && creations[0].event.RailCreated? && since != []
      && CreatedAs(db.rails[k], creations[0])
      && ColumnsAre(db.rails[k], k, creations[0], Flatten(since))
      && db.rails[k].lockupFixed == LockupAfter(k, since)
    else creations == [] && since == []
  }

  // ---------------------------------------------------------------- one batch

  function AsUpdate(change: Option<LockupChange>): FieldUpdate {
    if change.None? then Undefined else if change.value.Set? then Direct(change.value.value) else Decrement(change.value.amount)
  }

  ghost predicate WritesLast(u: RailUpdate, k: Id, logs: seq<Log>) {
    && u.lockupPeriod == Last(PeriodIn(k), logs)
    && u.paymentRate == Last(RateIn(k), logs)
    && u.activatedAtBlock == Last(ActivationIn(k), logs)
    && u.settledUpTo == Last(SettledIn(k), logs)
    && u.endEpoch == Last(EndIn(k), logs)
    && u.finalized == Last(FinalizedIn(k), logs)
    && u.lockupFixed == AsUpdate(Last(LockupIn(k), logs))
  }

  function Latest<V>(now: Option<V>, before: Option<V>): Option<V> {
    if now.Some? then now else before
  }

  ghost predicate TakesLog(u: RailUpdate, after: RailUpdate, k: Id, log: Log) {
    && after.lockupPeriod == Latest(PeriodIn(k)(log), u.lockupPeriod)
    && after.paymentRate == Latest(RateIn(k)(log), u.paymentRate)
    && after.activatedAtBlock == Latest(ActivationIn(k)(log), u.activatedAtBlock)
    && after.settledUpTo == Latest(SettledIn(k)(log), u.settledUpTo)
    && after.endEpoch == Latest(EndIn(k)(log), u.endEpoch)
    && after.finalized == Latest(FinalizedIn(k)(log), u.finalized)
    && after.lockupFixed == if LockupIn(k)(log).Some? then AsUpdate(LockupIn(k)(log)) else u.lockupFixed
  }

  lemma UpdateTakesLog(u: RailUpdate, k: Id, log: Log)
    requires RailOf(log) == k
    ensures TakesLog(u, LogToRailUpdateInput(u, log), k, log)
  {
  }

  lemma WritesLastSnoc(u: RailUpdate, after: RailUpdate, k: Id, logs: seq<Log>, log: Log)
    requires WritesLast(u, k, logs) && TakesLog(u, after, k, log)
    ensures WritesLast(after, k, logs + [log])
  {
    LastSnoc(PeriodIn(k), logs, log);
    LastSnoc(RateIn(k), logs, log);
    LastSnoc(ActivationIn(k), logs, log);
    LastSnoc(SettledIn(k), logs, log);
    LastSnoc(EndIn(k), logs, log);
    LastSnoc(FinalizedIn(k), logs, log);
    LastSnoc(LockupIn(k), logs, log);
  }

  /** The update folded from a rail's logs writes the last value of each column. */
  lemma {:induction false} FoldWritesLast(k: Id, logs: seq<Log>)
    requires OfRail(k, logs)
    ensures WritesLast(RailUpdateOf(logs), k, logs)
  {
    if logs == [] {
    } else {
      var init, log := logs[..|logs| - 1], logs[|logs| - 1];
      assert logs == init + [log];
      FoldWritesLast(k, init);
      UpdateTakesLog(RailUpdateOf(init), k, log);
      WritesLastSnoc(RailUpdateOf(init), RailUpdateOf(logs), k, init, log);
    }
  }

  lemma GroupWritesLast(u: RailUpdate, k: Id, logs: seq<Log>)
    requires WritesLast(u, k, Group(RailOf, logs, k))
    ensures WritesLast(u, k, logs)
  {
    LastOfGroup(RailOf, PeriodIn(k), logs, k);
    LastOfGroup(RailOf, RateIn(k), logs, k);
    LastOfGroup(RailOf, ActivationIn(k), logs, k);
    LastOfGroup(RailOf, SettledIn(k), logs, k);
    LastOfGroup(RailOf, EndIn(k), logs, k);
    LastOfGroup(RailOf, FinalizedIn(k), logs, k);
    LastOfGroup(RailOf, LockupIn(k), logs, k);
  }

  /** What a batch makes of a rail's row: the last value of each column, and the last change of the lockup. */
  ghost predicate BatchWrites(row: Rail, after: Rail, k: Id, logs: seq<Log>) {
    && SameRail(after, row)
    && after.lockupPeriod == Or(Last(PeriodIn(k), logs), row.lockupPeriod)
    && after.paymentRate == Or(Last(RateIn(k), logs), row.paymentRate)
    && after.activatedAtBlock == Or(Last(ActivationIn(k), logs), row.activatedAtBlock)
    && after.settledUpTo == Or(Last(SettledIn(k), logs), row.settledUpTo)
    && after.endEpoch == Or(Last(EndIn(k), logs), row.endEpoch)
    && after.finalized == Or(Last(FinalizedIn(k), logs), row.finalized)
    && after.lockupFixed == Changed(Last(LockupIn(k), logs), row.lockupFixed)
  }

  lemma AppliedWrites(u: RailUpdate, k: Id, logs: seq<Log>, row: Rail)
    requires WritesLast(u, k, logs)
    ensures BatchWrites(row, ApplyRailUpdate(u, row), k, logs)
  {
    var change := Last(LockupIn(k), logs);
    assert Apply(u.lockupFixed, row.lockupFixed) == Some(Changed(change, row.lockupFixed));
  }

  /** The row of a rail after a batch, given the one after the batch's creations. */
  lemma GroupedRow(created: map<Id, Rail>, logs: seq<Log>, order: seq<Id>, k: Id)
    requires Enumerates(order, RailOf, logs) && k in created
    ensures BatchWrites(created[k], UpdateGroups(order, RailOf, FoldRail, created, logs)[k], k, logs)
  {
    UpdateGroupsRows(order, RailOf, FoldRail, created, logs);
    var g := Group(RailOf, logs, k);
    GroupOfRail(k, logs);
    FoldWritesLast(k, g);
    AppliedWrites(RailUpdateOf(g), k, g, created[k]);
    GroupWritesLast(RailUpdateOf(g), k, logs);
    AppliedWrites(RailUpdateOf(g), k, logs, created[k]);
    if k !in order {
      GroupOfAbsentKey(RailOf, logs, k);
      assert ApplyRailUpdate(NO_RAIL_UPDATE, created[k]) == created[k];
    }
  }

  /** What creating rails makes of one of them. */
  ghost predicate RowCreated(rails: map<Id, Rail>, created: map<Id, Rail>, k: Id, creations: seq<Log>) {
    if creations == [] then (k in created <==> k in rails) && (k in rails ==> created[k] == rails[k])
    else k !in rails && k in created && |creations| == 1 && created[k] == NewRail(creations[0])
  }

  lemma {:induction false} CreationsOfRail(rails: map<Id, Rail>, creations: seq<Log>, k: Id)
    requires (forall log :: log in creations ==> IsCreation(log)) && InsertRows(rails, Map(RailCreation, creations)).Some?
    ensures RowCreated(rails, InsertRows(rails, Map(RailCreation, creations)).value, k, Filter(Creating(k), creations))
  {
    if creations == [] {
      assert Map(RailCreation, creations) == [];
    } else {
      var init, log := creations[..|creations| - 1], creations[|creations| - 1];
      assert creations == init + [log];
      MapSnoc(RailCreation, init, log);
      InsertRowsSnoc(rails, Map(RailCreation, init), RailCreation(log));
      CreationsOfRail(rails, init, k);
      FilterSnoc(Creating(k), init, log);
      assert log in creations && (Creating(k)(log) <==> RailOf(log) == k);
    }
  }

  lemma {:induction false} FilterWithin(p: Log -> bool, q: Log -> bool, logs: seq<Log>)
    requires forall log :: q(log) ==> p(log)
    ensures Filter(q, Filter(p, logs)) == Filter(q, logs)
  {
    if logs == [] {
    } else {
      var init, log := logs[..|logs| - 1], logs[|logs| - 1];
      assert logs == init + [log];
      FilterWithin(p, q, init);
      FilterSnoc(q, Filter(p, init), log);
    }
  }

  /** What one batch makes of a rail. */
  ghost predicate BatchOnRail(rails: map<Id, Rail>, after: map<Id, Rail>, k: Id, logs: seq<Log>) {
    var creations := Filter(Creating(k), logs);
    if creations == [] then
      (k in after <==> k in rails) && (k in rails ==> BatchWrites(rails[k], after[k], k, logs))
    else
      k !in rails && k in after && |creations| == 1 && BatchWrites(NewRail(creations[0]), after[k], k, logs)
  }

  lemma BatchRailsOnRail(rails: map<Id, Rail>, logs: seq<Log>, order: seq<Id>, k: Id)
    requires Enumerates(order, RailOf, logs) && BatchRails(rails, logs, order).Some?
    ensures BatchOnRail(rails, BatchRails(rails, logs, order).value, k, logs)
  {
    var creations := Filter(IsCreation, logs);
    var created := InsertRows(rails, Map(RailCreation, creations)).value;
    CreationsOfRail(rails, creations, k);
    FilterWithin(IsCreation, Creating(k), logs);
    if k in created {
      GroupedRow(created, logs, order, k);
    }
  }

  // ---------------------------------------------------------------- many batches

  lemma SinceSnoc(k: Id, batches: seq<seq<Log>>, logs: seq<Log>)
    ensures Since(k, batches + [logs])
         == if Since(k, batches) != [] || Filter(Creating(k), logs) != [] then Since(k, batches) + [logs] else []
  {
    assert (batches + [logs])[..|batches|] == batches;
  }

  lemma LockupSnoc(k: Id, batches: seq<seq<Log>>, logs: seq<Log>)
    ensures LockupAfter(k, batches + [logs]) == Changed(Last(LockupIn(k), logs), LockupAfter(k, batches))
  {
    assert (batches + [logs])[..|batches|] == batches;
  }

  lemma ColumnsTakeBatch(row: Rail, after: Rail, k: Id, creation: Log, before: seq<Log>, logs: seq<Log>)
    requires ColumnsAre(row, k, creation, before) && BatchWrites(row, after, k, logs)
    ensures ColumnsAre(after, k, creation, before + logs)
  {
    LastConcat(PeriodIn(k), before, logs);
    LastConcat(RateIn(k), before, logs);
    LastConcat(ActivationIn(k), before, logs);
    LastConcat(SettledIn(k), before, logs);
    LastConcat(EndIn(k), before, logs);
    LastConcat(FinalizedIn(k), before, logs);
  }

  lemma NewRailColumns(k: Id, creation: Log)
    requires creation.event.RailCreated?
    ensures CreatedAs(NewRail(creation), creation) && ColumnsAre(NewRail(creation), k, creation, [])
    ensures NewRail(creation).lockupFixed == 0
  {
  }

  lemma RailTakesBatch(db: Tables, after: Tables, k: Id, batches: seq<seq<Log>>, logs: seq<Log>)
    requires RailHolds(db, k, batches) && BatchOnRail(db.rails, after.rails, k, logs)
    ensures RailHolds(after, k, batches + [logs])
  {
    FlattenSnoc(batches, logs);
    FilterConcat(Creating(k), Flatten(batches), logs);
    SinceSnoc(k, batches, logs);
    var since, creations := Since(k, batches), Filter(Creating(k), logs);
    FlattenSnoc(since, logs);
    LockupSnoc(k, since, logs);
    if creations != [] {
      assert creations[0] in creations;
      NewRailColumns(k, creations[0]);
      ColumnsTakeBatch(NewRail(creations[0]), after.rails[k], k, creations[0], [], logs);
      assert [] + logs == logs;
    } else if k in db.rails {
      ColumnsTakeBatch(db.rails[k], after.rails[k], k, Filter(Creating(k), Flatten(batches))[0], Flatten(since), logs);
    }
  }

  /** After any batches, cut and sorted anyhow, every rail holds what its creation and its events say. */
  lemma {:induction false} BatchesHold(orderOf: seq<Log> -> seq<Id>, batches: seq<seq<Log>>, k: Id)
    requires ValidOrders(orderOf) && RunBatches(orderOf, EMPTY_TABLES, batches).Some?
    ensures RailHolds(RunBatches(orderOf, EMPTY_TABLES, batches).value, k, batches)
  {
    if batches == [] {
    } else {
      var init, logs := batches[..|batches| - 1], batches[|batches| - 1];
      assert batches == init + [logs];
      BatchesHold(orderOf, init, k);
      var d := RunBatches(orderOf, EMPTY_TABLES, init).value;
      CommitsBatchRails(orderOf, d, logs);
      BatchRailsOnRail(d.rails, logs, orderOf(logs), k);
      RailTakesBatch(d, RunBatches(orderOf, EMPTY_TABLES, batches).value, k, init, logs);
    }
  }

  // ---------------------------------------------------------------- payments

  /** The log is a payment that is to be stored as `row`. */
  predicate StandsFor(log: Log, row: Payment) {
    var e := log.event;
    && log.blockNumber == row.createdAtBlock
    && if row.oneTime then
         && e.RailOneTimePaymentProcessed? && e.railId == row.railId
         && row.totalAmount == e.netPayeeAmount + e.networkFee + e.operatorCommission
         && row.netPayeeAmount == e.netPayeeAmount
         && row.networkFee == e.networkFee && row.operatorCommission == e.operatorCommission
       else
         && e.RailSettled? && e.railId == row.railId
         && row.totalAmount == e.totalSettledAmount && row.netPayeeAmount == e.totalNetPayeeAmount
         && row.networkFee == e.networkFee && row.operatorCommission == e.operatorCommission
  }

  function CountFor(row: Payment): Log -> int {
    (log: Log) => if StandsFor(log, row) then 1 else 0
  }

  datatype Amount = Total | Net | Fee | Commission

  /** An amount of a stored row, if it is of this rail and kind. */
  function Stored(k: Id, oneTime: bool, amount: Amount): Payment -> int {
    (row: Payment) => if row.railId != k || row.oneTime != oneTime then 0
           else match amount
             case Total => row.totalAmount
             case Net => row.netPayeeAmount
             case Fee => row.networkFee
             case Commission => row.operatorCommission
  }

  /** An amount of an event, if it is a payment of this kind on this rail. */
  function Paid(k: Id, oneTime: bool, amount: Amount): Log -> int {
    (log: Log) =>
      var e := log.event;
      if e.railId != k then 0
      else if oneTime && e.RailOneTimePaymentProcessed? then
        match amount
        case Total => e.netPayeeAmount + e.networkFee + e.operatorCommission
        case Net => e.netPayeeAmount
        case Fee => e.networkFee
        case Commission => e.operatorCommission
      else if !oneTime && e.RailSettled? then
        match amount
        case Total => e.totalSettledAmount
        case Net => e.totalNetPayeeAmount
        case Fee => e.networkFee
        case Commission => e.operatorCommission
      else 0
  }

  lemma StoresWhatItStandsFor(row: Payment, log: Log)
    ensures Storing(row)(log) == CountFor(row)(log)
  {
  }

  /** One amount of one log, as a row and as an event. */
  lemma RowOfLog(k: Id, oneTime: bool, amount: Amount, log: Log)
    ensures IsOneTime(log) || IsSettlement(log) ==>
              Stored(k, oneTime, amount)(PaymentCreation(log)) == Paid(k, oneTime, amount)(log)
    ensures !IsOneTime(log) && !IsSettlement(log) ==> Paid(k, oneTime, amount)(log) == 0
  {
  }

  lemma {:induction false} RowsAddUp(k: Id, oneTime: bool, amount: Amount, logs: seq<Log>)
    ensures Sum(Stored(k, oneTime, amount), PaymentRows(logs)) == Sum(Paid(k, oneTime, amount), logs)
  {
    if logs == [] {
    } else {
      var init, log := logs[..|logs| - 1], logs[|logs| - 1];
      var p := (x: Log) => IsOneTime(x) || IsSettlement(x);
      assert logs == init + [log];
      RowsAddUp(k, oneTime, amount, init);
      RowOfLog(k, oneTime, amount, log);
      FilterSnoc(p, init, log);
      SumConcat(Paid(k, oneTime, amount), init, [log]);
      if p(log) {
        MapSnoc(PaymentCreation, Filter(p, init), log);
        SumConcat(Stored(k, oneTime, amount), PaymentRows(init), [PaymentCreation(log)]);
      }
    }
  }

  /**
   * Each payment row is stored as often as there are payment events with exactly its rail, block and amounts;
   * so, per rail and kind, every amount adds up to the same over the stored rows and over the events.
   */
  lemma PaymentsAreEvents(payments: seq<Payment>, logs: seq<Log>, row: Payment, k: Id, oneTime: bool, amount: Amount)
    requires PaymentsMatch(payments, logs)
    ensures multiset(payments)[row] == Sum(CountFor(row), logs)
    ensures Sum(Stored(k, oneTime, amount), payments) == Sum(Paid(k, oneTime, amount), logs)
  {
    forall log ensures Storing(row)(log) == CountFor(row)(log) {
      StoresWhatItStandsFor(row, log);
    }
    SameSum(Storing(row), CountFor(row), logs);
    PaymentsAreLogs(payments, logs, Stored(k, oneTime, amount));
    RowsAddUp(k, oneTime, amount, logs);
  }
}
