/**
 * Payment rails indexed in batches that are sorted in any way, against replaying the chain
 * (src/po-rep-indexer/runners/filecoin-pay-indexer.runner.ts): exactly when a rail comes out the same.
 */
module FilecoinPayOrder {
  import opened Wrappers
  import opened Sequences
  import opened GroupedUpdates
  import opened LastWrites
  import opened FilecoinPayIndexer
  import opened FilecoinPayReplay

  // ---------------------------------------------------------------- overwritten columns

  /** The columns that an event overwrites, all but the fixed lockup. */
  datatype Column = LockupPeriod | PaymentRate | ActivatedAt | SettledUpTo | EndEpoch | Finalized

  function Activates(e: Event): bool {
    e.RailRateModified? && e.oldRate == 0 && e.newRate > 0
  }

  /** The value a log writes into a column of its rail. */
  function RailWrite(log: Log, c: Column): Option<int> {
    var e := log.event;
    match c
    case LockupPeriod => if e.RailLockupModified? then Some(e.newLockupPeriod) else None
    case PaymentRate => if e.RailRateModified? then Some(e.newRate) else None
    case ActivatedAt => if Activates(e) then Some(log.blockNumber) else None
    case SettledUpTo =>
      if e.RailSettled? then Some(e.settledUpTo) else if Activates(e) then Some(log.blockNumber) else None
    case EndEpoch => if e.RailTerminated? then Some(e.endEpoch) else None
    case Finalized => if e.RailFinalized? then Some(1) else None
  }

  ghost function Writer(c: Column, k: Id): Log -> Option<int> {
    log => if RailOf(log) == k then RailWrite(log, c) else None
  }

  /** In every column of the rail, the last value written is the same in both orders. */
  ghost predicate SameRailWrites(k: Id, a: seq<Log>, b: seq<Log>) {
    forall c: Column :: Last(Writer(c, k), a) == Last(Writer(c, k), b)
  }

  function RailColumn(row: Rail, c: Column): int {
    match c
    case LockupPeriod => row.lockupPeriod
    case PaymentRate => row.paymentRate
    case ActivatedAt => row.activatedAtBlock
    case SettledUpTo => row.settledUpTo
    case EndEpoch => row.endEpoch
    case Finalized => if row.finalized then 1 else 0
  }

  lemma RailStepColumn(row: Rail, log: Log, c: Column)
    ensures RailColumn(RailStep(row, log), c) == Or(RailWrite(log, c), RailColumn(row, c))
  {
  }

  ghost predicate OfRail(k: Id, logs: seq<Log>) {
    forall i :: 0 <= i < |logs| ==> RailOf(logs[i]) == k
  }

  /** A column other than the fixed lockup holds the value written last. */
  lemma {:induction false} ReplayedRailColumn(k: Id, logs: seq<Log>, row: Rail, c: Column)
    requires OfRail(k, logs)
    ensures RailColumn(ReplayRow(RailStep, row, logs), c) == Or(Last(Writer(c, k), logs), RailColumn(row, c))
  {
    if logs == [] {
    } else {
      var init, log := logs[..|logs| - 1], logs[|logs| - 1];
      assert logs == init + [log];
      ReplayedRailColumn(k, init, row, c);
      RailStepColumn(ReplayRow(RailStep, row, init), log, c);
      LastSnoc(Writer(c, k), init, log);
    }
  }

  /** What no event changes. */
  ghost predicate SameRail(r: Rail, s: Rail) {
    && r.token == s.token && r.from == s.from && r.to == s.to && r.operator == s.operator && r.validator == s.validator
    && r.commissionRateBps == s.commissionRateBps && r.serviceFeeRecipient == s.serviceFeeRecipient
    && r.createdAtBlock == s.createdAtBlock
  }

  lemma {:induction false} ReplayedRail(logs: seq<Log>, row: Rail)
    ensures SameRail(ReplayRow(RailStep, row, logs), row)
  {
    if logs == [] {
    } else {
      ReplayedRail(logs[..|logs| - 1], row);
    }
  }

  lemma BlindByColumns(r: Rail, s: Rail)
    requires SameRail(r, s)
    ensures Blind(r) == Blind(s) <==> forall c: Column :: RailColumn(r, c) == RailColumn(s, c)
  {
    if forall c: Column :: RailColumn(r, c) == RailColumn(s, c) {
      assert RailColumn(r, LockupPeriod) == RailColumn(s, LockupPeriod);
      assert RailColumn(r, PaymentRate) == RailColumn(s, PaymentRate);
      assert RailColumn(r, ActivatedAt) == RailColumn(s, ActivatedAt);
      assert RailColumn(r, SettledUpTo) == RailColumn(s, SettledUpTo);
      assert RailColumn(r, EndEpoch) == RailColumn(s, EndEpoch);
      assert RailColumn(r, Finalized) == RailColumn(s, Finalized);
    }
    if Blind(r) == Blind(s) {
      forall c: Column ensures RailColumn(r, c) == RailColumn(s, c) {
        assert RailColumn(r, c) == RailColumn(Blind(r), c);
        assert RailColumn(s, c) == RailColumn(Blind(s), c);
      }
    }
  }

  /** The same logs in two orders leave a rail the same but for the lockup exactly when they write the same last. */
  lemma RailAgreesIff(k: Id, a: seq<Log>, b: seq<Log>, row: Rail)
    requires OfRail(k, a) && OfRail(k, b) && multiset(a) == multiset(b)
    ensures Blind(ReplayRow(RailStep, row, a)) == Blind(ReplayRow(RailStep, row, b)) <==> SameRailWrites(k, a, b)
  {
    var r, s := ReplayRow(RailStep, row, a), ReplayRow(RailStep, row, b);
    forall c: Column ensures RailColumn(r, c) == RailColumn(s, c) <==> Last(Writer(c, k), a) == Last(Writer(c, k), b) {
      ReplayedRailColumn(k, a, row, c);
      ReplayedRailColumn(k, b, row, c);
      WrittenInBoth(Writer(c, k), a, b);
    }
    ReplayedRail(a, row);
    ReplayedRail(b, row);
    BlindByColumns(r, s);
  }

  lemma GroupOfRail(k: Id, logs: seq<Log>)
    ensures OfRail(k, Group(RailOf, logs, k))
  {
    var g := Group(RailOf, logs, k);
    forall i | 0 <= i < |g| ensures RailOf(g[i]) == k {
      assert g[i] in g;
    }
  }

  lemma GroupsAgreeIff(k: Id, a: seq<Log>, b: seq<Log>, row: Rail)
    requires multiset(a) == multiset(b)
    ensures Blind(ReplayRow(RailStep, row, Group(RailOf, a, k))) == Blind(ReplayRow(RailStep, row, Group(RailOf, b, k)))
       <==> SameRailWrites(k, a, b)
  {
    var g, h := Group(RailOf, a, k), Group(RailOf, b, k);
    GroupOfRail(k, a);
    GroupOfRail(k, b);
    GroupPermuted(RailOf, a, b, k);
    RailAgreesIff(k, g, h, row);
    forall c: Column
      ensures Last(Writer(c, k), g) == Last(Writer(c, k), a) && Last(Writer(c, k), h) == Last(Writer(c, k), b)
    {
      LastOfGroup(RailOf, Writer(c, k), a, k);
      LastOfGroup(RailOf, Writer(c, k), b, k);
    }
  }

  // ---------------------------------------------------------------- batch after batch

  /** No log of `a` is of a rail that `b` creates. */
  ghost predicate NothingCreated(a: seq<Log>, b: seq<Log>) {
    forall x, y :: x in b && IsCreation(x) && y in a ==> RailOf(x) != RailOf(y)
  }

  lemma InOrderSeparates(a: seq<Log>, b: seq<Log>)
    requires InOrder(a + b)
    ensures NothingCreated(a, b)
  {
    var all := a + b;
    forall x, y | x in b && IsCreation(x) && y in a ensures RailOf(x) != RailOf(y) {
      var i :| 0 <= i < |a| && a[i] == y;
      var j :| 0 <= j < |b| && b[j] == x;
      assert all[i] == y && all[|a| + j] == x;
    }
  }

  ghost predicate NoLogsOf(es: seq<Log>, creations: seq<Log>) {
    forall x, y :: x in creations && y in es ==> RailOf(x) != RailOf(y)
  }

  lemma CreationsHaveNoLogs(a: seq<Log>, b: seq<Log>)
    requires NothingCreated(a, b)
    ensures NoLogsOf(a, Filter(IsCreation, b))
  {
  }

  lemma MapConcat<T, U>(f: T -> U, xs: seq<T>, ys: seq<T>)
    ensures Map(f, xs + ys) == Map(f, xs) + Map(f, ys)
  {
  }

  lemma {:induction false} InsertRowsConcat(table: map<Id, Rail>, a: seq<(Id, Rail)>, b: seq<(Id, Rail)>)
    ensures InsertRows(table, a + b) == var t := InsertRows(table, a); if t.None? then None else InsertRows(t.value, b)
  {
    if b == [] {
      assert a + b == a;
    } else {
      var init, row := b[..|b| - 1], b[|b| - 1];
      InsertRowsConcat(table, a, init);
      assert a + b == (a + init) + [row];
      InsertRowsSnoc(table, a + init, row);
    }
  }

  /** The rails created by two stretches, one after the other. */
  lemma CreatedTwice(rails: map<Id, Rail>, a: seq<Log>, b: seq<Log>)
    ensures InsertRows(rails, Map(RailCreation, Filter(IsCreation, a + b)))
         == var t := InsertRows(rails, Map(RailCreation, Filter(IsCreation, a)));
            if t.None? then None else InsertRows(t.value, Map(RailCreation, Filter(IsCreation, b)))
  {
    FilterConcat(IsCreation, a, b);
    MapConcat(RailCreation, Filter(IsCreation, a), Filter(IsCreation, b));
    InsertRowsConcat(rails, Map(RailCreation, Filter(IsCreation, a)), Map(RailCreation, Filter(IsCreation, b)));
  }

  /** Rails may be inserted before or after replaying logs that are not of them. */
  lemma {:induction false} InsertAfterReplay(table: map<Id, Rail>, es: seq<Log>, creations: seq<Log>)
    requires NoLogsOf(es, creations)
    ensures var t := InsertRows(table, Map(RailCreation, creations));
      InsertRows(ReplayTable(RailOf, RailStep, table, es), Map(RailCreation, creations))
      == if t.None? then None else Some(ReplayTable(RailOf, RailStep, t.value, es))
  {
    if creations == [] {
      assert Map(RailCreation, creations) == [];
    } else {
      var init, x := creations[..|creations| - 1], creations[|creations| - 1];
      assert creations == init + [x];
      InsertAfterReplay(table, es, init);
      MapSnoc(RailCreation, init, x);
      InsertRowsSnoc(table, Map(RailCreation, init), RailCreation(x));
      InsertRowsSnoc(ReplayTable(RailOf, RailStep, table, es), Map(RailCreation, init), RailCreation(x));
      var t := InsertRows(table, Map(RailCreation, init));
      if t.Some? {
        assert forall i :: 0 <= i < |es| ==> es[i] in es;
        ReplaySkipsNewRow(RailOf, RailStep, t.value, es, RailOf(x), NewRail(x));
      }
    }
  }

  lemma {:induction false} ReplayTableConcat<R>(step: (R, Log) -> R, table: map<Id, R>, a: seq<Log>, b: seq<Log>)
    ensures ReplayTable(RailOf, step, table, a + b) == ReplayTable(RailOf, step, ReplayTable(RailOf, step, table, a), b)
  {
    if b == [] {
      assert a + b == a;
    } else {
      var init, log := b[..|b| - 1], b[|b| - 1];
      ReplayTableConcat(step, table, a, init);
      assert a + b == (a + init) + [log];
      assert b == init + [log];
      ReplayTableSnoc(RailOf, step, table, a + init, log);
      ReplayTableSnoc(RailOf, step, ReplayTable(RailOf, step, table, a), init, log);
    }
  }

  /** Creating and replaying two stretches of the chain together is doing one after the other. */
  lemma CreatedConcat(rails: map<Id, Rail>, a: seq<Log>, b: seq<Log>)
    requires NothingCreated(a, b)
    ensures CreatedThenReplayed(rails, a + b)
         == var t := CreatedThenReplayed(rails, a); if t.None? then None else CreatedThenReplayed(t.value, b)
  {
    CreatedTwice(rails, a, b);
    CreationsHaveNoLogs(a, b);
    var t := InsertRows(rails, Map(RailCreation, Filter(IsCreation, a)));
    if t.Some? {
      InsertAfterReplay(t.value, a, Filter(IsCreation, b));
      var u := InsertRows(t.value, Map(RailCreation, Filter(IsCreation, b)));
      if u.Some? {
        ReplayTableConcat(RailStep, u.value, a, b);
      }
    }
  }

  lemma SameButLockupTwice(a: map<Id, Rail>, b: map<Id, Rail>, c: map<Id, Rail>)
    requires SameButLockup(a, b) && SameButLockup(b, c)
    ensures SameButLockup(a, c)
  {
  }

  lemma {:induction false} InsertKeepsBlind(r: map<Id, Rail>, c: map<Id, Rail>, rows: seq<(Id, Rail)>)
    requires SameButLockup(r, c)
    ensures var x, y := InsertRows(r, rows), InsertRows(c, rows);
      (x.Some? <==> y.Some?) && (x.Some? ==> SameButLockup(x.value, y.value))
  {
    if rows == [] {
    } else {
      InsertKeepsBlind(r, c, rows[..|rows| - 1]);
    }
  }

  lemma {:induction false} ReplayTableKeepsBlind(r: map<Id, Rail>, c: map<Id, Rail>, es: seq<Log>)
    requires SameButLockup(r, c)
    ensures SameButLockup(ReplayTable(RailOf, RailStep, r, es), ReplayTable(RailOf, RailStep, c, es))
  {
    if es == [] {
    } else {
      var init, log := es[..|es| - 1], es[|es| - 1];
      ReplayTableKeepsBlind(r, c, init);
      var x, y := ReplayTable(RailOf, RailStep, r, init), ReplayTable(RailOf, RailStep, c, init);
      if RailOf(log) in x {
        BlindStep(x[RailOf(log)], y[RailOf(log)], log);
      }
    }
  }

  /** The rails one batch leaves; `None` when it creates a rail that is there. */
  function BatchRails(rails: map<Id, Rail>, logs: seq<Log>, order: seq<Id>): Option<map<Id, Rail>> {
    var created := InsertRows(rails, Map(RailCreation, Filter(IsCreation, logs)));
    if created.None? then None else Some(UpdateGroups(order, RailOf, FoldRail, created.value, logs))
  }

  /** But for the lockup, a batch in any order is creating its rails and then replaying it. */
  lemma BatchNearReplay(r: map<Id, Rail>, c: map<Id, Rail>, logs: seq<Log>, order: seq<Id>)
    requires Enumerates(order, RailOf, logs) && SameButLockup(r, c)
    ensures var x, y := BatchRails(r, logs, order), CreatedThenReplayed(c, logs);
      (x.Some? <==> y.Some?) && (x.Some? ==> SameButLockup(x.value, y.value))
  {
    var rows := Map(RailCreation, Filter(IsCreation, logs));
    InsertKeepsBlind(r, c, rows);
    var x, y := InsertRows(r, rows), InsertRows(c, rows);
    if x.Some? {
      GroupsAgreeButLockup(x.value, logs, order);
      ReplayTableKeepsBlind(x.value, y.value, logs);
      SameButLockupTwice(UpdateGroups(order, RailOf, FoldRail, x.value, logs),
                         ReplayTable(RailOf, RailStep, x.value, logs), ReplayTable(RailOf, RailStep, y.value, logs));
    }
  }

  /** Every batch creates only rails that have no log in an earlier batch. */
  ghost predicate Separated(batches: seq<seq<Log>>) {
    batches == []
    || (Separated(batches[..|batches| - 1]) && NothingCreated(Flatten(batches[..|batches| - 1]), batches[|batches| - 1]))
  }

  /** Batches cut from an ordered chain are separated, however they are sorted. */
  lemma {:induction false} SeparatedPieces(batches: seq<seq<Log>>, pieces: seq<seq<Log>>)
    requires SamePieces(batches, pieces) && InOrder(Flatten(pieces))
    ensures Separated(batches)
  {
    if batches == [] {
    } else {
      var n := |batches| - 1;
      var before, last := Flatten(pieces[..n]), pieces[n];
      SamePiecesInit(batches, pieces);
      InOrderParts(before, last);
      SeparatedPieces(batches[..n], pieces[..n]);
      InOrderSeparates(before, last);
      SamePiecesFlatten(batches[..n], pieces[..n]);
      forall x, y | x in batches[n] && IsCreation(x) && y in Flatten(batches[..n]) ensures RailOf(x) != RailOf(y) {
        PermutedMembers(batches[n], last, x);
        PermutedMembers(Flatten(batches[..n]), before, y);
      }
    }
  }

  lemma CommitsBatchRails(orderOf: seq<Log> -> seq<Id>, db: Tables, logs: seq<Log>)
    requires ValidOrders(orderOf)
    ensures var after, rails := Commit(orderOf, db, false, logs), BatchRails(db.rails, logs, orderOf(logs));
      (after.Some? <==> rails.Some?) && (after.Some? ==> after.value.rails == rails.value)
  {
    CommitWithoutCleanup(orderOf, db, logs);
    BatchEffect(db, logs, orderOf(logs));
  }

  /** But for the lockup, separated batches are creating and replaying all their logs. */
  lemma {:induction false} BatchesNearReplay(orderOf: seq<Log> -> seq<Id>, db: Tables, batches: seq<seq<Log>>)
    requires ValidOrders(orderOf) && Separated(batches)
    ensures var batched, replayed := RunBatches(orderOf, db, batches), CreatedThenReplayed(db.rails, Flatten(batches));
      (batched.Some? <==> replayed.Some?) && (batched.Some? ==> SameButLockup(batched.value.rails, replayed.value))
  {
    if batches == [] {
      assert Map(RailCreation, Filter(IsCreation, Flatten(batches))) == [];
    } else {
      var n := |batches| - 1;
      var init, logs := batches[..n], batches[n];
      BatchesNearReplay(orderOf, db, init);
      CreatedConcat(db.rails, Flatten(init), logs);
      var d := RunBatches(orderOf, db, init);
      if d.Some? {
        CommitsBatchRails(orderOf, d.value, logs);
        BatchNearReplay(d.value.rails, CreatedThenReplayed(db.rails, Flatten(init)).value, logs, orderOf(logs));
      }
    }
  }

  // ---------------------------------------------------------------- the fixed lockup

  /** The one lockup event of a rail's logs that the fold keeps. */
  function KeptOf(logs: seq<Log>): seq<Log> {
    var n := LastLockup(logs);
    if n == 0 then [] else [logs[n - 1]]
  }

  /** The lockup events of a rail that any number of batches keep, at most one a batch. */
  function KeptLogs(batches: seq<seq<Log>>, k: Id): seq<Log> {
    if batches == [] then []
    else KeptLogs(batches[..|batches| - 1], k) + KeptOf(Group(RailOf, batches[|batches| - 1], k))
  }

  lemma {:induction false} ReplayLockupConcat(a: seq<Log>, b: seq<Log>, x: int)
    ensures ReplayLockup(a + b, x) == ReplayLockup(b, ReplayLockup(a, x))
  {
    if b == [] {
      assert a + b == a;
    } else {
      ReplayLockupConcat(a, b[..|b| - 1], x);
      assert (a + b)[..|a + b| - 1] == a + b[..|b| - 1];
    }
  }

  lemma FoldReplaysKept(logs: seq<Log>, row: Rail)
    ensures FoldRail(logs, row).lockupFixed == ReplayLockup(KeptOf(logs), row.lockupFixed)
  {
    FoldLockup(logs, row);
    var n := LastLockup(logs);
    if n > 0 {
      assert [logs[n - 1]][..0] == [];
    }
  }

  /** A batch that leaves a rail leaves it the lockup that its kept event makes of the one before. */
  lemma BatchLockup(rails: map<Id, Rail>, logs: seq<Log>, order: seq<Id>, k: Id)
    requires Enumerates(order, RailOf, logs) && BatchRails(rails, logs, order).Some?
    requires k in BatchRails(rails, logs, order).value
    ensures BatchRails(rails, logs, order).value[k].lockupFixed
         == ReplayLockup(KeptOf(Group(RailOf, logs, k)), LockupBefore(rails, k))
  {
    var created := InsertRows(rails, Map(RailCreation, Filter(IsCreation, logs))).value;
    CreatedLockup(rails, Filter(IsCreation, logs));
    UpdateGroupsRows(order, RailOf, FoldRail, created, logs);
    if k in order {
      FoldReplaysKept(Group(RailOf, logs, k), created[k]);
    } else {
      GroupOfAbsentKey(RailOf, logs, k);
    }
  }

  lemma {:induction false} NoLogsNoneKept(batches: seq<seq<Log>>, k: Id)
    requires forall log :: log in Flatten(batches) ==> RailOf(log) != k
    ensures KeptLogs(batches, k) == []
  {
    if batches == [] {
    } else {
      var n := |batches| - 1;
      NoLogsNoneKept(batches[..n], k);
      forall i | 0 <= i < |batches[n]| ensures RailOf(batches[n][i]) != k {
        assert batches[n][i] in Flatten(batches);
      }
      GroupOfAbsentKey(RailOf, batches[n], k);
    }
  }

  lemma {:induction false} CreatedByLog(rails: map<Id, Rail>, creations: seq<Log>, k: Id)
    requires var t := InsertRows(rails, Map(RailCreation, creations)); t.Some? && k in t.value && k !in rails
    ensures exists log :: log in creations && RailOf(log) == k
  {
    if creations == [] {
    } else {
      var init, log := creations[..|creations| - 1], creations[|creations| - 1];
      assert creations == init + [log];
      MapSnoc(RailCreation, init, log);
      InsertRowsSnoc(rails, Map(RailCreation, init), RailCreation(log));
      if RailOf(log) == k {
        assert log in creations;
      } else {
        CreatedByLog(rails, init, k);
      }
    }
  }

  lemma CreatedIn(rails: map<Id, Rail>, logs: seq<Log>, order: seq<Id>, k: Id)
    requires BatchRails(rails, logs, order).Some? && k in BatchRails(rails, logs, order).value && k !in rails
    ensures exists log :: log in logs && IsCreation(log) && RailOf(log) == k
  {
    CreatedByLog(rails, Filter(IsCreation, logs), k);
  }

  /** The stored lockup of a rail is the one that its kept events make of the one before the batches. */
  lemma {:induction false} StoredLockup(orderOf: seq<Log> -> seq<Id>, db: Tables, batches: seq<seq<Log>>, k: Id)
    requires ValidOrders(orderOf) && Separated(batches) && RunBatches(orderOf, db, batches).Some?
    ensures var rails := RunBatches(orderOf, db, batches).value.rails;
      && (k in db.rails ==> k in rails)
      && (k in rails ==> rails[k].lockupFixed == ReplayLockup(KeptLogs(batches, k), LockupBefore(db.rails, k)))
  {
    if batches == [] {
    } else {
      var n := |batches| - 1;
      var init, logs := batches[..n], batches[n];
      StoredLockup(orderOf, db, init, k);
      var d := RunBatches(orderOf, db, init).value;
      CommitsBatchRails(orderOf, d, logs);
      InsertKeepsKeys(d.rails, Map(RailCreation, Filter(IsCreation, logs)));
      if k in BatchRails(d.rails, logs, orderOf(logs)).value {
        BatchLockup(d.rails, logs, orderOf(logs), k);
        ReplayLockupConcat(KeptLogs(init, k), KeptOf(Group(RailOf, logs, k)), LockupBefore(db.rails, k));
        if k !in d.rails {
          CreatedIn(d.rails, logs, orderOf(logs), k);
          NoLogsNoneKept(init, k);
        }
      }
    }
  }

  // ---------------------------------------------------------------- exactly when a rail comes out the same

  /** The value the last overwriting event sets, `x` when there is none. */
  function LastFixed(logs: seq<Log>, x: int): int {
    if logs == [] then x
    else
      var last := logs[|logs| - 1];
      if IsOverwrite(last) then AfterLockup(last, x) else LastFixed(logs[..|logs| - 1], x)
  }

  /** What is paid out of the lockup after that. */
  function PaidSince(logs: seq<Log>): nat {
    if logs == [] then 0
    else
      var last := logs[|logs| - 1];
      if IsOverwrite(last) then 0
      else PaidSince(logs[..|logs| - 1]) + (if IsOneTime(last) then PaidAmount(last.event) else 0)
  }

  function Balance(logs: seq<Log>, x: int): int {
    LastFixed(logs, x) - PaidSince(logs)
  }

  lemma {:induction false} ReplayLockupIsBalance(logs: seq<Log>, x: int)
    ensures ReplayLockup(logs, x) == Balance(logs, x)
  {
    if logs == [] {
    } else {
      ReplayLockupIsBalance(logs[..|logs| - 1], x);
    }
  }

  lemma ReplayedRow(rails: map<Id, Rail>, logs: seq<Log>, k: Id)
    requires CreatedThenReplayed(rails, logs).Some? && k in CreatedThenReplayed(rails, logs).value
    ensures CreatedThenReplayed(rails, logs).value[k].lockupFixed == Balance(Group(RailOf, logs, k), LockupBefore(rails, k))
  {
    var created := InsertRows(rails, Map(RailCreation, Filter(IsCreation, logs))).value;
    CreatedLockup(rails, Filter(IsCreation, logs));
    ReplayTableAt(RailOf, RailStep, created, logs, k);
    ReplayRowLockup(Group(RailOf, logs, k), created[k]);
    ReplayLockupIsBalance(Group(RailOf, logs, k), created[k].lockupFixed);
  }

  /** The same logs in two orders create the same rails, and agree on one as far as they write the same last. */
  lemma PermutedRailsAgreeIff(rails: map<Id, Rail>, a: seq<Log>, b: seq<Log>, k: Id)
    requires multiset(a) == multiset(b)
    ensures var x, y := CreatedThenReplayed(rails, a), CreatedThenReplayed(rails, b);
      && (x.Some? <==> y.Some?)
      && (x.Some? ==> x.value.Keys == y.value.Keys)
      && (x.Some? && k in x.value ==> (Blind(x.value[k]) == Blind(y.value[k]) <==> SameRailWrites(k, a, b)))
  {
    FilterPermuted(IsCreation, a, b);
    MapPermuted(RailCreation, Filter(IsCreation, a), Filter(IsCreation, b));
    InsertRowsPermuted(rails, Map(RailCreation, Filter(IsCreation, a)), Map(RailCreation, Filter(IsCreation, b)));
    var created := InsertRows(rails, Map(RailCreation, Filter(IsCreation, a)));
    if created.Some? && k in created.value {
      ReplayTableAt(RailOf, RailStep, created.value, a, k);
      ReplayTableAt(RailOf, RailStep, created.value, b, k);
      GroupsAgreeIff(k, a, b, created.value[k]);
    }
  }

  /** How a rail committed in batches compares with the replayed one. */
  ghost predicate RailCompares(
      stored: Rail, replayed: Rail, k: Id, batches: seq<seq<Log>>, chain: seq<Log>, before: int) {
    var kept, all := KeptLogs(batches, k), Group(RailOf, chain, k);
    && stored.lockupFixed == Balance(kept, before) && replayed.lockupFixed == Balance(all, before)
    && (Blind(stored) == Blind(replayed) <==> SameRailWrites(k, Flatten(batches), chain))
    && (stored == replayed
        <==> SameRailWrites(k, Flatten(batches), chain) && Balance(kept, before) == Balance(all, before))
  }

  /**
   * Any number of batches cut from an ordered chain, each sorted in any way: they are committed exactly when
   * replaying the chain succeeds, with the same rails. A rail is the same but for the lockup exactly when
   * the last value written into its columns is; its lockup is the balance of the at most one event a
   * batch keeps, where replay has the balance of all, and it is right exactly when the two are equal.
   */
  lemma SortedRailBatchesAreReplayIff(
      orderOf: seq<Log> -> seq<Id>, db: Tables, batches: seq<seq<Log>>, pieces: seq<seq<Log>>, k: Id)
    requires ValidOrders(orderOf) && SamePieces(batches, pieces) && InOrder(Flatten(pieces))
    ensures var batched, replayed := RunBatches(orderOf, db, batches), Replay(db, Flatten(pieces));
      && (batched.Some? <==> replayed.Some?)
      && (batched.Some? ==> batched.value.rails.Keys == replayed.value.rails.Keys)
      && (batched.Some? && k in batched.value.rails ==>
            RailCompares(batched.value.rails[k], replayed.value.rails[k], k, batches, Flatten(pieces), LockupBefore(db.rails, k)))
  {
    var chain := Flatten(pieces);
    SeparatedPieces(batches, pieces);
    SamePiecesFlatten(batches, pieces);
    BatchesNearReplay(orderOf, db, batches);
    PermutedRailsAgreeIff(db.rails, Flatten(batches), chain, k);
    ReplayEffect(db, chain);
    var batched, replayed := RunBatches(orderOf, db, batches), Replay(db, chain);
    if batched.Some? && k in batched.value.rails {
      StoredLockup(orderOf, db, batches, k);
      ReplayLockupIsBalance(KeptLogs(batches, k), LockupBefore(db.rails, k));
      ReplayedRow(db.rails, chain, k);
      if Blind(batched.value.rails[k]) == Blind(replayed.value.rails[k]) {
        EqualIffLockupEqual(batched.value.rails[k], replayed.value.rails[k]);
      }
    }
  }
}
