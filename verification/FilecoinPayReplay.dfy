/**
 * Batches of payment-rail logs against replaying the logs one at a time: every column but the fixed
 * lockup agrees always, the fixed lockup exactly where a batch keeps it, payments log by log.
 */
module FilecoinPayReplay {
  import opened Wrappers
  import opened Sequences
  import opened GroupedUpdates
  import opened FilecoinPayIndexer

  // ---------------------------------------------------------------- one batch

  /** No rail has events before its creation. */
  ghost predicate InOrder(logs: seq<Log>) {
    forall i, j :: 0 <= i < j < |logs| && IsCreation(logs[j]) ==> RailOf(logs[i]) != RailOf(logs[j])
  }

  function BatchPayments(logs: seq<Log>): seq<Payment> {
    Map(PaymentCreation, Filter(IsOneTime, logs)) + Map(PaymentCreation, Filter(IsSettlement, logs))
  }

  lemma {:induction false} RailUpdatesRun(db: Tables, order: seq<Id>, logs: seq<Log>)
    ensures ExecuteAll(db, PrepareRailUpdates(logs, order))
         == Some(db.(rails := UpdateGroups(order, RailOf, FoldRail, db.rails, logs)))
  {
    if order == [] {
    } else {
      var init := order[..|order| - 1];
      RailUpdatesRun(db, init, logs);
      var ops := PrepareRailUpdates(logs, order);
      assert ops[..|ops| - 1] == PrepareRailUpdates(logs, init);
    }
  }

  /** What the transaction of one batch does, for any logs in any order. */
  lemma BatchEffect(db: Tables, logs: seq<Log>, order: seq<Id>)
    requires Enumerates(order, RailOf, logs)
    ensures var rails := InsertRows(db.rails, Map(RailCreation, Filter(IsCreation, logs)));
      ExecuteAll(db, PrepareUpdates(logs, order))
      == if rails.None? then None
         else Some(Tables(UpdateGroups(order, RailOf, FoldRail, rails.value, logs), db.payments + BatchPayments(logs)))
  {
    var rails := InsertRows(db.rails, Map(RailCreation, Filter(IsCreation, logs)));
    var a, b, c := PrepareRailsCreations(logs), PrepareRailUpdates(logs, order), PreparePaymentsCreations(logs);
    ExecuteConcat(db, a + b, c);
    ExecuteConcat(db, a, b);
    assert ExecuteAll(db, a) == if rails.None? then None else Some(db.(rails := rails.value));
    if rails.Some? {
      RailUpdatesRun(db.(rails := rails.value), order, logs);
    }
    assert logs == [] ==> BatchPayments(logs) == [] && db.payments + [] == db.payments;
  }

  lemma {:induction false} ReplaySkipsNewRow<K, R, E>(
      key: E -> K, step: (R, E) -> R, table: map<K, R>, es: seq<E>, k: K, row: R)
    requires forall i :: 0 <= i < |es| ==> key(es[i]) != k
    ensures ReplayTable(key, step, table[k := row], es) == ReplayTable(key, step, table, es)[k := row]
  {
    if es == [] {
    } else {
      ReplaySkipsNewRow(key, step, table, es[..|es| - 1], k, row);
    }
  }

  /** The rails after creating all rails of the logs first and then replaying every log. */
  function CreatedThenReplayed(rails: map<Id, Rail>, logs: seq<Log>): Option<map<Id, Rail>> {
    var created := InsertRows(rails, Map(RailCreation, Filter(IsCreation, logs)));
    if created.None? then None else Some(ReplayTable(RailOf, RailStep, created.value, logs))
  }

  lemma CreationInserted(rails: map<Id, Rail>, logs: seq<Log>, log: Log)
    requires IsCreation(log)
    ensures var created := InsertRows(rails, Map(RailCreation, Filter(IsCreation, logs)));
      InsertRows(rails, Map(RailCreation, Filter(IsCreation, logs + [log])))
      == if created.None? || RailOf(log) in created.value then None else Some(created.value[RailOf(log) := NewRail(log)])
  {
    var creations := Filter(IsCreation, logs);
    FilterSnoc(IsCreation, logs, log);
    assert Map(RailCreation, creations + [log]) == Map(RailCreation, creations) + [RailCreation(log)];
    InsertRowsSnoc(rails, Map(RailCreation, creations), RailCreation(log));
  }

  lemma NewRailReplayed(table: map<Id, Rail>, logs: seq<Log>, log: Log)
    requires IsCreation(log)
    requires forall i :: 0 <= i < |logs| ==> RailOf(logs[i]) != RailOf(log)
    ensures ReplayTable(RailOf, RailStep, table[RailOf(log) := NewRail(log)], logs + [log])
         == ReplayTable(RailOf, RailStep, table, logs)[RailOf(log) := NewRail(log)]
  {
    var id: Id, row := RailOf(log), NewRail(log);
    var t: map<Id, Rail> := ReplayTable(RailOf, RailStep, table, logs);
    ReplaySkipsNewRow(RailOf, RailStep, table, logs, id, row);
    ReplayTableSnoc(RailOf, RailStep, table[id := row], logs, log);
    assert RailStep(row, log) == row;
    assert t[id := row][id := row] == t[id := row];
  }

  lemma CreationReplayed(rails: map<Id, Rail>, logs: seq<Log>, log: Log)
    requires IsCreation(log)
    requires forall i :: 0 <= i < |logs| ==> RailOf(logs[i]) != RailOf(log)
    ensures var t := CreatedThenReplayed(rails, logs);
            var id := RailOf(log);
      CreatedThenReplayed(rails, logs + [log])
      == if t.None? || id in t.value then None else Some(t.value[id := NewRail(log)])
  {
    var created := InsertRows(rails, Map(RailCreation, Filter(IsCreation, logs)));
    CreationInserted(rails, logs, log);
    if created.Some? && RailOf(log) !in created.value {
      NewRailReplayed(created.value, logs, log);
    }
  }

  lemma UpdateReplayed(rails: map<Id, Rail>, logs: seq<Log>, log: Log)
    requires !IsCreation(log)
    ensures var t := CreatedThenReplayed(rails, logs);
            var id := RailOf(log);
      CreatedThenReplayed(rails, logs + [log])
      == if t.None? then None
         else Some(if id in t.value then t.value[id := RailStep(t.value[id], log)] else t.value)
  {
    FilterSnoc(IsCreation, logs, log);
    var created := InsertRows(rails, Map(RailCreation, Filter(IsCreation, logs)));
    if created.Some? {
      ReplayTableSnoc(RailOf, RailStep, created.value, logs, log);
    }
  }

  lemma InOrderParts(a: seq<Log>, b: seq<Log>)
    requires InOrder(a + b)
    ensures InOrder(a) && InOrder(b)
  {
    forall i, j | 0 <= i < j < |a| && IsCreation(a[j]) ensures RailOf(a[i]) != RailOf(a[j]) {
      assert (a + b)[i] == a[i] && (a + b)[j] == a[j];
    }
    forall i, j | 0 <= i < j < |b| && IsCreation(b[j]) ensures RailOf(b[i]) != RailOf(b[j]) {
      assert (a + b)[|a| + i] == b[i] && (a + b)[|a| + j] == b[j];
    }
  }

  /** In chain order, creating the batch's rails first changes nothing. */
  lemma {:induction false} ReplayEffect(db: Tables, logs: seq<Log>)
    requires InOrder(logs)
    ensures var rails := CreatedThenReplayed(db.rails, logs);
            var d := Replay(db, logs);
      && (d.None? <==> rails.None?)
      && (d.Some? ==> d.value.rails == rails.value)
  {
    if logs == [] {
    } else {
      var init, log := logs[..|logs| - 1], logs[|logs| - 1];
      assert logs == init + [log];
      InOrderParts(init, [log]);
      ReplayEffect(db, init);
      if IsCreation(log) {
        assert forall i :: 0 <= i < |init| ==> init[i] == logs[i];
        CreationReplayed(db.rails, init, log);
      } else {
        UpdateReplayed(db.rails, init, log);
      }
    }
  }

  ghost predicate SameButLockup(a: map<Id, Rail>, b: map<Id, Rail>) {
    a.Keys == b.Keys && forall k :: k in a ==> Blind(a[k]) == Blind(b[k])
  }

  /** Every group of the batch is safe. */
  ghost predicate BatchSafe(logs: seq<Log>) {
    forall k :: LockupSafe(Group(RailOf, logs, k))
  }

  /** The fixed lockup a rail has before the batch's updates; new rails have none. */
  function LockupBefore(rails: map<Id, Rail>, k: Id): int {
    if k in rails then rails[k].lockupFixed else 0
  }

  lemma {:induction false} InsertKeepsKeys(table: map<Id, Rail>, rows: seq<(Id, Rail)>)
    ensures var t := InsertRows(table, rows); t.Some? ==> table.Keys <= t.value.Keys
  {
    if rows == [] {
    } else {
      InsertKeepsKeys(table, rows[..|rows| - 1]);
    }
  }

  lemma {:induction false} CreatedLockup(rails: map<Id, Rail>, creations: seq<Log>)
    ensures var t := InsertRows(rails, Map(RailCreation, creations));
      t.Some? ==> forall k :: k in t.value ==> t.value[k].lockupFixed == LockupBefore(rails, k)
  {
    if creations == [] {
    } else {
      var init, log := creations[..|creations| - 1], creations[|creations| - 1];
      assert creations == init + [log];
      CreatedLockup(rails, init);
      MapSnoc(RailCreation, init, log);
      InsertRowsSnoc(rails, Map(RailCreation, init), RailCreation(log));
      InsertKeepsKeys(rails, Map(RailCreation, init));
    }
  }

  lemma EqualIffLockupEqual(r: Rail, s: Rail)
    requires Blind(r) == Blind(s)
    ensures r == s <==> r.lockupFixed == s.lockupFixed
  {
    assert Blind(r).(lockupFixed := r.lockupFixed) == r;
    assert Blind(s).(lockupFixed := s.lockupFixed) == s;
  }

  lemma GroupsAgreeButLockup(table: map<Id, Rail>, logs: seq<Log>, order: seq<Id>)
    requires Enumerates(order, RailOf, logs)
    ensures var batch, replay := UpdateGroups(order, RailOf, FoldRail, table, logs), ReplayTable(RailOf, RailStep, table, logs);
      && SameButLockup(batch, replay)
      && forall k :: k in table ==>
           (batch[k] == replay[k] <==> LockupKept(Group(RailOf, logs, k), table[k].lockupFixed))
  {
    var batch, replay := UpdateGroups(order, RailOf, FoldRail, table, logs), ReplayTable(RailOf, RailStep, table, logs);
    UpdateGroupsRows(order, RailOf, FoldRail, table, logs);
    ReplayTableRows(RailOf, RailStep, table, logs);
    forall k | k in table
      ensures Blind(batch[k]) == Blind(replay[k])
      ensures batch[k] == replay[k] <==> LockupKept(Group(RailOf, logs, k), table[k].lockupFixed)
    {
      var g := Group(RailOf, logs, k);
      if k !in order {
        GroupOfAbsentKey(RailOf, logs, k);
      } else {
        FoldIsReplayButLockup(g, table[k]);
        LockupAgreesIff(g, table[k]);
        EqualIffLockupEqual(FoldRail(g, table[k]), ReplayRow(RailStep, table[k], g));
      }
    }
  }

  /**
   * In every batch with rails created before their events, folding agrees with replaying on failure and
   * on every column of every rail but the fixed lockup, and on a whole rail exactly when the rail's logs
   * keep the lockup it had.
   */
  lemma BatchIsReplayButLockup(db: Tables, logs: seq<Log>, order: seq<Id>)
    requires Enumerates(order, RailOf, logs) && InOrder(logs)
    ensures var batch, replay := ExecuteAll(db, PrepareUpdates(logs, order)), Replay(db, logs);
      && (batch.Some? <==> replay.Some?)
      && (batch.Some? ==> SameButLockup(batch.value.rails, replay.value.rails))
      && (batch.Some? ==> forall k :: k in batch.value.rails ==>
            (batch.value.rails[k] == replay.value.rails[k]
             <==> LockupKept(Group(RailOf, logs, k), LockupBefore(db.rails, k))))
  {
    BatchEffect(db, logs, order);
    ReplayEffect(db, logs);
    var created := InsertRows(db.rails, Map(RailCreation, Filter(IsCreation, logs)));
    if created.Some? {
      GroupsAgreeButLockup(created.value, logs, order);
      CreatedLockup(db.rails, Filter(IsCreation, logs));
    }
  }

  /**
   * A lockup of 100 spent by two payments of 10 in one batch is stored as 90, where replay gives 80;
   * one batch per payment stores 80.
   */
  lemma TwoPaymentsInOneBatch(row: Rail, first: Log, second: Log)
    requires row.lockupFixed == 100
    requires first == Log(RailOneTimePaymentProcessed(3, 10, 0, 0), 1)
    requires second == Log(RailOneTimePaymentProcessed(3, 10, 0, 0), 2)
    ensures FoldRail([first, second], row).lockupFixed == 90
    ensures ReplayRow(RailStep, row, [first, second]).lockupFixed == 80
    ensures FoldRail([second], FoldRail([first], row)).lockupFixed == 80
  {
    assert [first, second][..1] == [first] && [first][..0] == [] && [second][..0] == [];
    assert RailUpdateOf([first]) == LogToRailUpdateInput(NO_RAIL_UPDATE, first);
    assert RailUpdateOf([second]) == LogToRailUpdateInput(NO_RAIL_UPDATE, second);
    assert RailUpdateOf([first, second]) == LogToRailUpdateInput(RailUpdateOf([first]), second);
    assert ReplayRow(RailStep, row, [first]) == RailStep(row, first);
  }

  // ---------------------------------------------------------------- payments

  /** One when the log is a payment stored as `row`. */
  function Stores(row: Payment, log: Log): int {
    if (IsOneTime(log) || IsSettlement(log)) && PaymentCreation(log) == row then 1 else 0
  }

  ghost function Storing(row: Payment): Log -> int {
    log => Stores(row, log)
  }

  /** Payment rows and payment logs correspond one to one. */
  ghost predicate PaymentsMatch(payments: seq<Payment>, logs: seq<Log>) {
    forall row :: multiset(payments)[row] == Sum(Storing(row), logs)
  }

  function StoresKind(p: Log -> bool, row: Payment, log: Log): int {
    if p(log) && PaymentCreation(log) == row then 1 else 0
  }

  ghost function OfKind(p: Log -> bool, row: Payment): Log -> int {
    log => StoresKind(p, row, log)
  }

  lemma {:induction false} KindCount(p: Log -> bool, row: Payment, logs: seq<Log>)
    ensures multiset(Map(PaymentCreation, Filter(p, logs)))[row] == Sum(OfKind(p, row), logs)
  {
    if logs == [] {
    } else {
      var init, log := logs[..|logs| - 1], logs[|logs| - 1];
      assert logs == init + [log];
      KindCount(p, row, init);
      FilterSnoc(p, init, log);
      MapSnoc(PaymentCreation, Filter(p, init), log);
      SumConcat(OfKind(p, row), init, [log]);
    }
  }

  lemma {:induction false} KindsAddUp(row: Payment, logs: seq<Log>)
    ensures Sum(OfKind(IsOneTime, row), logs) + Sum(OfKind(IsSettlement, row), logs) == Sum(Storing(row), logs)
  {
    if logs == [] {
    } else {
      KindsAddUp(row, logs[1..]);
      assert StoresKind(IsOneTime, row, logs[0]) + StoresKind(IsSettlement, row, logs[0]) == Stores(row, logs[0]);
    }
  }

  /** A batch stores one row per payment log, in whatever order. */
  lemma BatchPaymentsMatch(before: seq<Payment>, indexed: seq<Log>, logs: seq<Log>)
    requires PaymentsMatch(before, indexed)
    ensures PaymentsMatch(before + BatchPayments(logs), indexed + logs)
  {
    forall row ensures multiset(before + BatchPayments(logs))[row] == Sum(Storing(row), indexed + logs) {
      KindCount(IsOneTime, row, logs);
      KindCount(IsSettlement, row, logs);
      KindsAddUp(row, logs);
      SumConcat(Storing(row), indexed, logs);
    }
  }

  // ---------------------------------------------------------------- many batches

  ghost predicate ValidOrders(orderOf: seq<Log> -> seq<Id>) {
    forall logs :: Enumerates(orderOf(logs), RailOf, logs)
  }

  /** How one run of the indexer changes the tables; `None` when its transaction is rolled back. */
  function Commit(orderOf: seq<Log> -> seq<Id>, db: Tables, versionChanged: bool, logs: seq<Log>): Option<Tables> {
    ExecuteAll(db, (if versionChanged then PrepareCleanup() else []) + PrepareUpdates(logs, orderOf(logs)))
  }

  lemma CommitWithoutCleanup(orderOf: seq<Log> -> seq<Id>, db: Tables, logs: seq<Log>)
    ensures Commit(orderOf, db, false, logs) == ExecuteAll(db, PrepareUpdates(logs, orderOf(logs)))
  {
    assert [] + PrepareUpdates(logs, orderOf(logs)) == PrepareUpdates(logs, orderOf(logs));
  }

  lemma CommitAfterCleanup(orderOf: seq<Log> -> seq<Id>, db: Tables, logs: seq<Log>)
    ensures Commit(orderOf, db, true, logs) == Commit(orderOf, EMPTY_TABLES, false, logs)
  {
    var ops := PrepareCleanup();
    assert ops[..1] == [DeletePayments] && ops[..1][..0] == [];
    assert ExecuteAll(db, ops[..1]) == Some(db.(payments := []));
    assert ExecuteAll(db, ops) == Some(EMPTY_TABLES);
    ExecuteConcat(db, ops, PrepareUpdates(logs, orderOf(logs)));
    CommitWithoutCleanup(orderOf, EMPTY_TABLES, logs);
  }

  function RunBatches(orderOf: seq<Log> -> seq<Id>, db: Tables, batches: seq<seq<Log>>): Option<Tables> {
    if batches == [] then Some(db)
    else
      var d := RunBatches(orderOf, db, batches[..|batches| - 1]);
      if d.None? then None else Commit(orderOf, d.value, false, batches[|batches| - 1])
  }

  /** What is wrong with a stored lockup never spreads to another column. */
  lemma {:induction false} ReplayKeepsBlind(a: Tables, b: Tables, logs: seq<Log>)
    requires SameButLockup(a.rails, b.rails)
    ensures var d, e := Replay(a, logs), Replay(b, logs);
      (d.Some? <==> e.Some?) && (d.Some? ==> SameButLockup(d.value.rails, e.value.rails))
  {
    if logs == [] {
    } else {
      var init, log := logs[..|logs| - 1], logs[|logs| - 1];
      ReplayKeepsBlind(a, b, init);
      var d, e := Replay(a, init), Replay(b, init);
      var id := RailOf(log);
      if d.Some? && id in d.value.rails {
        BlindStep(d.value.rails[id], e.value.rails[id], log);
      }
    }
  }

  lemma SafeIsKept(logs: seq<Log>, x: int)
    requires LockupSafe(logs)
    ensures LockupKept(logs, x)
  {
    var row := Rail("", "", "", "", "", 0, 0, x, 0, 0, 0, "", false, 0, 0);
    LockupAlwaysAgreesIff(logs, row);
    assert row.(lockupFixed := x) == row;
    assert FoldRail(logs, row).lockupFixed == ReplayRow(RailStep, row, logs).lockupFixed;
    LockupAgreesIff(logs, row);
  }

  lemma SafeBatchIsReplay(db: Tables, logs: seq<Log>, order: seq<Id>)
    requires Enumerates(order, RailOf, logs) && InOrder(logs) && BatchSafe(logs)
    ensures var batch, replay := ExecuteAll(db, PrepareUpdates(logs, order)), Replay(db, logs);
      batch.Some? ==> replay.Some? && batch.value.rails == replay.value.rails
  {
    BatchIsReplayButLockup(db, logs, order);
    var batch, replay := ExecuteAll(db, PrepareUpdates(logs, order)), Replay(db, logs);
    if batch.Some? {
      forall k | k in batch.value.rails ensures batch.value.rails[k] == replay.value.rails[k] {
        assert LockupSafe(Group(RailOf, logs, k));
        SafeIsKept(Group(RailOf, logs, k), LockupBefore(db.rails, k));
      }
    }
  }

  lemma SafeBatchesAgree(orderOf: seq<Log> -> seq<Id>, d: Tables, e: Tables, logs: seq<Log>)
    requires ValidOrders(orderOf) && InOrder(logs) && BatchSafe(logs) && d.rails == e.rails
    ensures var batch, replay := Commit(orderOf, d, false, logs), Replay(e, logs);
      batch.Some? && replay.Some? ==> batch.value.rails == replay.value.rails
  {
    CommitWithoutCleanup(orderOf, d, logs);
    SafeBatchIsReplay(d, logs, orderOf(logs));
    assert Replay(d, logs).Some? && Replay(e, logs).Some? ==> Replay(d, logs).value.rails == Replay(e, logs).value.rails by {
      ReplayEffect(d, logs);
      ReplayEffect(e, logs);
    }
  }

  /**
   * For rails created before their events, cutting the logs into batches anywhere changes no column
   * but the fixed lockup, and not even that one when every batch is safe.
   */
  lemma {:induction false} BatchesAreReplayButLockup(orderOf: seq<Log> -> seq<Id>, db: Tables, batches: seq<seq<Log>>)
    requires ValidOrders(orderOf) && InOrder(Flatten(batches))
    ensures var batched, replayed := RunBatches(orderOf, db, batches), Replay(db, Flatten(batches));
      && (batched.Some? <==> replayed.Some?)
      && (batched.Some? ==> SameButLockup(batched.value.rails, replayed.value.rails))
      && (batched.Some? && (forall i :: 0 <= i < |batches| ==> BatchSafe(batches[i])) ==>
            batched.value.rails == replayed.value.rails)
  {
    if batches == [] {
    } else {
      var init, logs := batches[..|batches| - 1], batches[|batches| - 1];
      InOrderParts(Flatten(init), logs);
      BatchesAreReplayButLockup(orderOf, db, init);
      ReplayConcat(db, Flatten(init), logs);
      var d, e := RunBatches(orderOf, db, init), Replay(db, Flatten(init));
      if d.Some? {
        CommitWithoutCleanup(orderOf, d.value, logs);
        BatchIsReplayButLockup(d.value, logs, orderOf(logs));
        ReplayKeepsBlind(d.value, e.value, logs);
        if forall i :: 0 <= i < |batches| ==> BatchSafe(batches[i]) {
          assert forall i :: 0 <= i < |init| ==> init[i] == batches[i];
          SafeBatchesAgree(orderOf, d.value, e.value, logs);
        }
      }
    }
  }

  lemma {:induction false} BatchesKeepPayments(orderOf: seq<Log> -> seq<Id>, batches: seq<seq<Log>>)
    requires ValidOrders(orderOf) && RunBatches(orderOf, EMPTY_TABLES, batches).Some?
    ensures PaymentsMatch(RunBatches(orderOf, EMPTY_TABLES, batches).value.payments, Flatten(batches))
  {
    if batches == [] {
    } else {
      var init, logs := batches[..|batches| - 1], batches[|batches| - 1];
      BatchesKeepPayments(orderOf, init);
      var d := RunBatches(orderOf, EMPTY_TABLES, init).value;
      CommitWithoutCleanup(orderOf, d, logs);
      BatchEffect(d, logs, orderOf(logs));
      BatchPaymentsMatch(d.payments, Flatten(init), logs);
    }
  }

  /** Whatever the batches and their order, payments match any arrangement of the indexed logs. */
  lemma PaymentsMatchAnyOrder(payments: seq<Payment>, logs: seq<Log>, other: seq<Log>)
    requires PaymentsMatch(payments, logs) && multiset(logs) == multiset(other)
    ensures PaymentsMatch(payments, other)
  {
    forall row ensures multiset(payments)[row] == Sum(Storing(row), other) {
      SumIgnoresOrder(Storing(row), logs, other);
    }
  }

  /** The payment rows the logs stand for, in chain order. */
  function PaymentRows(logs: seq<Log>): seq<Payment> {
    Map(PaymentCreation, Filter((log: Log) => IsOneTime(log) || IsSettlement(log), logs))
  }

  lemma {:induction false} SameSum(f: Log -> int, g: Log -> int, logs: seq<Log>)
    requires forall log :: f(log) == g(log)
    ensures Sum(f, logs) == Sum(g, logs)
  {
    if logs == [] {
    } else {
      SameSum(f, g, logs[1..]);
    }
  }

  /**
   * One-to-one in full: the stored rows are a rearrangement of the rows of the logs, so any amount
   * added up over the rows, per rail or in total, is the same as over the logs.
   */
  lemma PaymentsAreLogs(payments: seq<Payment>, logs: seq<Log>, amount: Payment -> int)
    requires PaymentsMatch(payments, logs)
    ensures multiset(payments) == multiset(PaymentRows(logs))
    ensures Sum(amount, payments) == Sum(amount, PaymentRows(logs))
  {
    var p := (log: Log) => IsOneTime(log) || IsSettlement(log);
    forall row ensures multiset(payments)[row] == multiset(PaymentRows(logs))[row] {
      KindCount(p, row, logs);
      SameSum(OfKind(p, row), Storing(row), logs);
    }
    SumIgnoresOrder(amount, payments, PaymentRows(logs));
  }

  /** Every stored one-time payment adds up. */
  lemma OneTimePaymentsAddUp(payments: seq<Payment>, logs: seq<Log>, row: Payment)
    requires PaymentsMatch(payments, logs) && row in payments && row.oneTime
    ensures row.totalAmount == row.netPayeeAmount + row.networkFee + row.operatorCommission
  {
    PaymentsAreLogs(payments, logs, (p: Payment) => 0);
    assert row in multiset(payments);
    assert row in PaymentRows(logs);
  }
}
