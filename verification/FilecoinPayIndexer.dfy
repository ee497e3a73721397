/**
 * The payment-rails indexer (src/po-rep-indexer/runners/filecoin-pay-indexer.runner.ts): a batch of
 * logs folded into row updates, against replaying the logs one at a time.
 */
module FilecoinPayIndexer {
  import opened Wrappers
  import opened Sequences
  import opened GroupedUpdates
  import opened BigIntUpdates

  type Id = int

  // ---------------------------------------------------------------- events and tables

  datatype Event =
    | RailCreated(railId: Id, payer: string, payee: string, token: string, operator: string, validator: string,
                  serviceFeeRecipient: string, commissionRateBps: nat)
    | RailLockupModified(railId: Id, newLockupPeriod: nat, newLockupFixed: nat)
    | RailOneTimePaymentProcessed(railId: Id, netPayeeAmount: nat, operatorCommission: nat, networkFee: nat)
    | RailRateModified(railId: Id, oldRate: nat, newRate: nat)
    | RailSettled(railId: Id, totalSettledAmount: nat, totalNetPayeeAmount: nat, operatorCommission: nat,
                  networkFee: nat, settledUpTo: nat)
    | RailTerminated(railId: Id, endEpoch: nat)
    | RailFinalized(railId: Id)

  datatype Log = Log(event: Event, blockNumber: nat)

  datatype Rail = Rail(
    token: string, from: string, to: string, operator: string, validator: string, paymentRate: int, lockupPeriod: int,
    lockupFixed: int, settledUpTo: int, endEpoch: int, commissionRateBps: int, serviceFeeRecipient: string,
    finalized: bool, createdAtBlock: int, activatedAtBlock: int)

  datatype Payment = Payment(
    railId: Id, totalAmount: int, netPayeeAmount: int, networkFee: int, operatorCommission: int, oneTime: bool,
    createdAtBlock: int)

  datatype Tables = Tables(rails: map<Id, Rail>, payments: seq<Payment>)

  const EMPTY_TABLES := Tables(map[], [])

  function RailOf(log: Log): Id {
    log.event.railId
  }

  function PaidAmount(e: Event): int
    requires e.RailOneTimePaymentProcessed?
  {
    e.netPayeeAmount + e.networkFee + e.operatorCommission
  }

  // ---------------------------------------------------------------- the operations of a batch

  datatype RailUpdate = RailUpdate(
    lockupPeriod: Option<int>, lockupFixed: FieldUpdate, paymentRate: Option<int>, activatedAtBlock: Option<int>,
    settledUpTo: Option<int>, endEpoch: Option<int>, finalized: Option<bool>)

  const NO_RAIL_UPDATE := RailUpdate(None, Undefined, None, None, None, None, None)

  /** A one-time payment replaces whatever update of the fixed lockup was pending. */
  function LogToRailUpdateInput(previous: RailUpdate, log: Log): RailUpdate {
    match log.event
    case RailLockupModified(_, period, fixed) =>
      previous.(lockupPeriod := Some(period), lockupFixed := Direct(fixed))
    case RailRateModified(_, oldRate, newRate) =>
      var rated := previous.(paymentRate := Some(newRate));
      if oldRate == 0 && newRate > 0
      then rated.(activatedAtBlock := Some(log.blockNumber), settledUpTo := Some(log.blockNumber))
      else rated
    case RailSettled(_, _, _, _, _, upTo) => previous.(settledUpTo := Some(upTo))
    case RailTerminated(_, endEpoch) => previous.(endEpoch := Some(endEpoch))
    case RailFinalized(_) => previous.(lockupFixed := Direct(0), finalized := Some(true))
    case RailOneTimePaymentProcessed(_, _, _, _) => previous.(lockupFixed := Decrement(PaidAmount(log.event)))
    case _ => previous
  }

  function RailUpdateOf(logs: seq<Log>): RailUpdate {
    if logs == [] then NO_RAIL_UPDATE
    else LogToRailUpdateInput(RailUpdateOf(logs[..|logs| - 1]), logs[|logs| - 1])
  }

  /** Every column but the fixed lockup. */
  function ApplyColumns(u: RailUpdate, row: Rail): Rail {
    row.(lockupPeriod := Or(u.lockupPeriod, row.lockupPeriod),
         paymentRate := Or(u.paymentRate, row.paymentRate),
         activatedAtBlock := Or(u.activatedAtBlock, row.activatedAtBlock),
         settledUpTo := Or(u.settledUpTo, row.settledUpTo),
         endEpoch := Or(u.endEpoch, row.endEpoch),
         finalized := Or(u.finalized, row.finalized))
  }

  function ApplyRailUpdate(u: RailUpdate, row: Rail): Rail {
    var lockup := Apply(u.lockupFixed, row.lockupFixed);
    ApplyColumns(u, row).(lockupFixed := Or(lockup, row.lockupFixed))
  }

  function FoldRail(logs: seq<Log>, row: Rail): Rail {
    ApplyRailUpdate(RailUpdateOf(logs), row)
  }

  function NewRail(log: Log): Rail {
    match log.event
    case RailCreated(_, payer, payee, token, operator, validator, recipient, bps) =>
      Rail(token, payer, payee, operator, validator, 0, 0, 0, log.blockNumber, 0, bps, recipient, false, log.blockNumber, 0)
    case _ => Rail("", "", "", "", "", 0, 0, 0, 0, 0, 0, "", false, 0, 0)
  }

  function RailCreation(log: Log): (Id, Rail) {
    (RailOf(log), NewRail(log))
  }

  predicate IsCreation(log: Log) { log.event.RailCreated? }

  predicate IsOneTime(log: Log) { log.event.RailOneTimePaymentProcessed? }

  predicate IsSettlement(log: Log) { log.event.RailSettled? }

  function PaymentCreation(log: Log): Payment {
    match log.event
    case RailOneTimePaymentProcessed(id, net, commission, fee) =>
      Payment(id, net + fee + commission, net, fee, commission, true, log.blockNumber)
    case RailSettled(id, total, net, commission, fee, _) =>
      Payment(id, total, net, fee, commission, false, log.blockNumber)
    case _ => Payment(0, 0, 0, 0, 0, false, 0)
  }

  datatype Operation =
    | CreateRails(rows: seq<(Id, Rail)>)
    | UpdateRails(id: Id, data: RailUpdate)
    | CreatePayments(payments: seq<Payment>)
    | DeletePayments
    | DeleteRails

  /** `UpdateRails` updates the rails with that id, of which there may be none. */
  function Execute(db: Tables, op: Operation): Option<Tables> {
    match op
    case CreateRails(rows) =>
      var t := InsertRows(db.rails, rows);
      if t.None? then None else Some(db.(rails := t.value))
    case UpdateRails(id, u) =>
      Some(if id in db.rails then db.(rails := db.rails[id := ApplyRailUpdate(u, db.rails[id])]) else db)
    case CreatePayments(rows) => Some(db.(payments := db.payments + rows))
    case DeletePayments => Some(db.(payments := []))
    case DeleteRails => Some(db.(rails := map[]))
  }

  function ExecuteAll(db: Tables, ops: seq<Operation>): Option<Tables> {
    if ops == [] then Some(db)
    else
      var d := ExecuteAll(db, ops[..|ops| - 1]);
      if d.None? then None else Execute(d.value, ops[|ops| - 1])
  }

  lemma {:induction false} ExecuteConcat(db: Tables, a: seq<Operation>, b: seq<Operation>)
    ensures ExecuteAll(db, a + b) == var d := ExecuteAll(db, a); if d.None? then None else ExecuteAll(d.value, b)
  {
    if b == [] {
      assert a + b == a;
    } else {
      ExecuteConcat(db, a, b[..|b| - 1]);
      assert (a + b)[..|a + b| - 1] == a + b[..|b| - 1];
    }
  }

  function PrepareRailsCreations(logs: seq<Log>): seq<Operation> {
    var createLogs := Filter(IsCreation, logs);
    if createLogs == [] then [] else [CreateRails(Map(RailCreation, createLogs))]
  }

  function PrepareRailUpdates(logs: seq<Log>, order: seq<Id>): seq<Operation> {
    seq(|order|, i requires 0 <= i < |order| => UpdateRails(order[i], RailUpdateOf(Group(RailOf, logs, order[i]))))
  }

  /** All one-time payments of the batch are written before all settlements. */
  function PreparePaymentsCreations(logs: seq<Log>): seq<Operation> {
    if logs == [] then []
    else [CreatePayments(Map(PaymentCreation, Filter(IsOneTime, logs)) + Map(PaymentCreation, Filter(IsSettlement, logs)))]
  }

  function PrepareUpdates(logs: seq<Log>, order: seq<Id>): seq<Operation> {
    PrepareRailsCreations(logs) + PrepareRailUpdates(logs, order) + PreparePaymentsCreations(logs)
  }

  function PrepareCleanup(): seq<Operation> {
    [DeletePayments, DeleteRails]
  }

  // ---------------------------------------------------------------- one event at a time

  function RailStep(row: Rail, log: Log): Rail {
    match log.event
    case RailLockupModified(_, period, fixed) => row.(lockupPeriod := period, lockupFixed := fixed)
    case RailRateModified(_, oldRate, newRate) =>
      if oldRate == 0 && newRate > 0
      then row.(paymentRate := newRate, activatedAtBlock := log.blockNumber, settledUpTo := log.blockNumber)
      else row.(paymentRate := newRate)
    case RailSettled(_, _, _, _, _, upTo) => row.(settledUpTo := upTo)
    case RailTerminated(_, endEpoch) => row.(endEpoch := endEpoch)
    case RailFinalized(_) => row.(lockupFixed := 0, finalized := true)
    case RailOneTimePaymentProcessed(_, _, _, _) => row.(lockupFixed := row.lockupFixed - PaidAmount(log.event))
    case RailCreated(_, _, _, _, _, _, _, _) => row
  }

  /** Events of rails created before the origin block change no row; their payments still count. */
  function Step(db: Tables, log: Log): Option<Tables> {
    var id := RailOf(log);
    if IsCreation(log) then
      var e := log.event;
      var row := Rail(e.token, e.payer, e.payee, e.operator, e.validator, 0, 0, 0, log.blockNumber, 0, e.commissionRateBps,
                      e.serviceFeeRecipient, false, log.blockNumber, 0);
      if id in db.rails then None else Some(db.(rails := db.rails[id := row]))
    else
      var rails := if id in db.rails then db.rails[id := RailStep(db.rails[id], log)] else db.rails;
      var payments := if IsOneTime(log) || IsSettlement(log) then [PaymentCreation(log)] else [];
      Some(Tables(rails, db.payments + payments))
  }

  function Replay(db: Tables, logs: seq<Log>): Option<Tables> {
    if logs == [] then Some(db)
    else
      var d := Replay(db, logs[..|logs| - 1]);
      if d.None? then None else Step(d.value, logs[|logs| - 1])
  }

  lemma {:induction false} ReplayConcat(db: Tables, a: seq<Log>, b: seq<Log>)
    ensures Replay(db, a + b) == var d := Replay(db, a); if d.None? then None else Replay(d.value, b)
  {
    if b == [] {
      assert a + b == a;
    } else {
      ReplayConcat(db, a, b[..|b| - 1]);
      assert (a + b)[..|a + b| - 1] == a + b[..|b| - 1];
    }
  }

  // ---------------------------------------------------------------- one rail

  /** A rail without its fixed lockup. */
  function Blind(row: Rail): Rail {
    row.(lockupFixed := 0)
  }

  lemma UpdateStep(u: RailUpdate, log: Log, row: Rail)
    ensures Blind(ApplyColumns(LogToRailUpdateInput(u, log), row)) == Blind(RailStep(ApplyColumns(u, row), log))
  {
    var u' := LogToRailUpdateInput(u, log);
    match log.event
    case RailLockupModified(_, period, fixed) => assert u' == u.(lockupPeriod := Some(period), lockupFixed := Direct(fixed));
    case RailRateModified(_, oldRate, newRate) => assert u'.paymentRate == Some(newRate);
    case RailSettled(_, _, _, _, _, upTo) => assert u' == u.(settledUpTo := Some(upTo));
    case RailTerminated(_, endEpoch) => assert u' == u.(endEpoch := Some(endEpoch));
    case RailFinalized(_) =>
    case RailOneTimePaymentProcessed(_, _, _, _) =>
    case RailCreated(_, _, _, _, _, _, _, _) =>
  }

  lemma BlindColumns(u: RailUpdate, row: Rail)
    ensures Blind(ApplyRailUpdate(u, row)) == Blind(ApplyColumns(u, row))
  {
  }

  lemma BlindStep(r: Rail, s: Rail, log: Log)
    requires Blind(r) == Blind(s)
    ensures Blind(RailStep(r, log)) == Blind(RailStep(s, log))
  {
  }

  lemma {:induction false} FoldIsReplayButLockup(logs: seq<Log>, row: Rail)
    ensures Blind(FoldRail(logs, row)) == Blind(ReplayRow(RailStep, row, logs))
  {
    if logs == [] {
    } else {
      var init, log := logs[..|logs| - 1], logs[|logs| - 1];
      FoldIsReplayButLockup(init, row);
      UpdateStep(RailUpdateOf(init), log, row);
      BlindColumns(RailUpdateOf(init), row);
      BlindColumns(RailUpdateOf(logs), row);
      BlindStep(ApplyColumns(RailUpdateOf(init), row), ReplayRow(RailStep, row, init), log);
    }
  }

  predicate IsOverwrite(log: Log) {
    log.event.RailLockupModified? || log.event.RailFinalized?
  }

  predicate IsLockupLog(log: Log) {
    IsOverwrite(log) || IsOneTime(log)
  }

  /** The stored value after the lockup events of a rail, one at a time. */
  function ReplayLockup(logs: seq<Log>, x: int): int {
    if logs == [] then x
    else
      var before, e := ReplayLockup(logs[..|logs| - 1], x), logs[|logs| - 1].event;
      match e
      case RailLockupModified(_, _, fixed) => fixed
      case RailFinalized(_) => 0
      case RailOneTimePaymentProcessed(_, _, _, _) => before - PaidAmount(e)
      case _ => before
  }

  lemma {:induction false} ReplayRowLockup(logs: seq<Log>, row: Rail)
    ensures ReplayRow(RailStep, row, logs).lockupFixed == ReplayLockup(logs, row.lockupFixed)
  {
    if logs == [] {
    } else {
      ReplayRowLockup(logs[..|logs| - 1], row);
    }
  }

  /** The index just after the last lockup event, zero when there is none. */
  function LastLockup(logs: seq<Log>): (n: nat)
    ensures n <= |logs|
    ensures n > 0 ==> IsLockupLog(logs[n - 1])
    ensures forall i :: n <= i < |logs| ==> !IsLockupLog(logs[i])
  {
    if logs == [] then 0
    else if IsLockupLog(logs[|logs| - 1]) then |logs|
    else LastLockup(logs[..|logs| - 1])
  }

  /** No lockup event, or an overwrite as the last one, or a last payment before which `x` is unchanged. */
  predicate LockupKept(logs: seq<Log>, x: int) {
    var n := LastLockup(logs);
    n == 0 || IsOverwrite(logs[n - 1]) || ReplayLockup(logs[..n - 1], x) == x
  }

  /** The fold keeps only the last lockup event. */
  lemma {:induction false} FoldKeepsLast(logs: seq<Log>)
    ensures var n := LastLockup(logs);
      RailUpdateOf(logs).lockupFixed
      == if n == 0 then Undefined else LogToRailUpdateInput(NO_RAIL_UPDATE, logs[n - 1]).lockupFixed
  {
    if logs == [] {
    } else {
      FoldKeepsLast(logs[..|logs| - 1]);
    }
  }

  /** What the last lockup event `log` leaves of `y`, the value before it. */
  function AfterLockup(log: Log, y: int): int
    requires IsLockupLog(log)
  {
    if log.event.RailLockupModified? then log.event.newLockupFixed
    else if log.event.RailFinalized? then 0
    else y - PaidAmount(log.event)
  }

  lemma FoldLockup(logs: seq<Log>, row: Rail)
    ensures var n, x := LastLockup(logs), row.lockupFixed;
      FoldRail(logs, row).lockupFixed == if n == 0 then x else AfterLockup(logs[n - 1], x)
  {
    FoldKeepsLast(logs);
  }

  /** Nothing after the last lockup event changes the value. */
  lemma {:induction false} ReplayEndsAtLast(logs: seq<Log>, x: int)
    ensures var n := LastLockup(logs); ReplayLockup(logs, x) == if n == 0 then x else ReplayLockup(logs[..n], x)
  {
    if logs == [] {
    } else {
      var n, init := LastLockup(logs), logs[..|logs| - 1];
      ReplayEndsAtLast(init, x);
      if n == |logs| {
        assert logs[..n] == logs;
      } else {
        assert init[..n] == logs[..n];
      }
    }
  }

  lemma ReplayLockupLast(logs: seq<Log>, x: int)
    ensures var n := LastLockup(logs);
      ReplayLockup(logs, x) == if n == 0 then x else AfterLockup(logs[n - 1], ReplayLockup(logs[..n - 1], x))
  {
    var n := LastLockup(logs);
    ReplayEndsAtLast(logs, x);
    if n > 0 {
      assert logs[..n][..n - 1] == logs[..n - 1];
    }
  }

  /**
   * On the stored value, fold and replay agree exactly when the batch has no lockup event, or ends
   * them with an overwrite, or ends them with a payment before which they cancel out.
   */
  lemma LockupAgreesIff(logs: seq<Log>, row: Rail)
    ensures FoldRail(logs, row).lockupFixed == ReplayRow(RailStep, row, logs).lockupFixed
       <==> LockupKept(logs, row.lockupFixed)
  {
    FoldLockup(logs, row);
    ReplayRowLockup(logs, row);
    ReplayLockupLast(logs, row.lockupFixed);
  }

  /** A batch whose lockup is right whatever was stored, read off its lockup events alone. */
  ghost predicate LockupSafe(logs: seq<Log>) {
    var n := LastLockup(logs);
    n == 0 || IsOverwrite(logs[n - 1])
    || forall i :: 0 <= i < n - 1 && IsLockupLog(logs[i]) ==> IsOneTime(logs[i]) && PaidAmount(logs[i].event) == 0
  }

  ghost predicate AllFree(logs: seq<Log>) {
    forall i :: 0 <= i < |logs| && IsLockupLog(logs[i]) ==> IsOneTime(logs[i]) && PaidAmount(logs[i].event) == 0
  }

  /** What a run of lockup events does to any stored value. */
  datatype LockupEffect = Minus(paid: nat) | Fixed(value: int)

  function EffectOf(logs: seq<Log>): LockupEffect {
    if logs == [] then Minus(0)
    else
      var before, e := EffectOf(logs[..|logs| - 1]), logs[|logs| - 1].event;
      match e
      case RailLockupModified(_, _, fixed) => Fixed(fixed)
      case RailFinalized(_) => Fixed(0)
      case RailOneTimePaymentProcessed(_, _, _, _) =>
        if before.Fixed? then Fixed(before.value - PaidAmount(e)) else Minus(before.paid + PaidAmount(e))
      case _ => before
  }

  lemma {:induction false} EffectIsReplay(logs: seq<Log>, x: int)
    ensures var e := EffectOf(logs); ReplayLockup(logs, x) == if e.Fixed? then e.value else x - e.paid
    ensures EffectOf(logs) == Minus(0) <==> AllFree(logs)
  {
    if logs == [] {
    } else {
      var init := logs[..|logs| - 1];
      EffectIsReplay(init, x);
      var last := logs[|logs| - 1];
      assert forall i :: 0 <= i < |init| ==> init[i] == logs[i];
      assert AllFree(logs) <==> AllFree(init) && (IsLockupLog(last) ==> IsOneTime(last) && PaidAmount(last.event) == 0);
    }
  }

  lemma EffectUnchangedIff(logs: seq<Log>, x: int)
    ensures AllFree(logs) ==> ReplayLockup(logs, x) == x
    ensures var e := EffectOf(logs);
      !AllFree(logs) && x == (if e.Fixed? then e.value + 1 else 0) ==> ReplayLockup(logs, x) != x
  {
    EffectIsReplay(logs, x);
  }

  /** Lockup events leave every value unchanged exactly when they are payments of nothing. */
  lemma LockupUnchangedIff(logs: seq<Log>)
    ensures AllFree(logs) <==> forall x :: ReplayLockup(logs, x) == x
  {
    if AllFree(logs) {
      forall x ensures ReplayLockup(logs, x) == x {
        EffectUnchangedIff(logs, x);
      }
    } else {
      var e := EffectOf(logs);
      EffectUnchangedIff(logs, if e.Fixed? then e.value + 1 else 0);
    }
  }

  /**
   * The fold is right for every stored value exactly for safe batches: a payment that ends the lockup
   * events must be the only one that matters.
   */
  lemma LockupAlwaysAgreesIff(logs: seq<Log>, row: Rail)
    ensures LockupSafe(logs)
       <==> forall x: int :: var r := row.(lockupFixed := x);
              FoldRail(logs, r).lockupFixed == ReplayRow(RailStep, r, logs).lockupFixed
  {
    var n := LastLockup(logs);
    forall x: int
      ensures var r := row.(lockupFixed := x);
        FoldRail(logs, r).lockupFixed == ReplayRow(RailStep, r, logs).lockupFixed
        <==> LockupKept(logs, x)
    {
      LockupAgreesIff(logs, row.(lockupFixed := x));
    }
    if n > 0 && !IsOverwrite(logs[n - 1]) {
      var before := logs[..n - 1];
      LockupUnchangedIff(before);
      assert forall i :: 0 <= i < n - 1 ==> before[i] == logs[i];
      assert LockupSafe(logs) <==> AllFree(before);
      if LockupSafe(logs) {
        forall x: int
          ensures var r := row.(lockupFixed := x);
            FoldRail(logs, r).lockupFixed == ReplayRow(RailStep, r, logs).lockupFixed
        {
          assert ReplayLockup(before, x) == x;
        }
      } else {
        var x :| ReplayLockup(before, x) != x;
        var r := row.(lockupFixed := x);
        assert FoldRail(logs, r).lockupFixed != ReplayRow(RailStep, r, logs).lockupFixed;
      }
    }
  }
}
