/**
 * The two indexers as they are deployed: in every state the run loop can reach, the committed tables
 * are those of the chain replayed event by event.
 */
module IndexedTables {
  import opened Wrappers
  import opened Sequences
  import opened IndexerRunner
  import opened IndexerRuns
  import PD = ProvidersAndDealsReplay
  import PDH = ProvidersAndDealsHistory
  import PDO = ProvidersAndDealsOrder
  import PDC = ProvidersAndDealsContents
  import PDT = ProvidersAndDealsTables
  import PDI = ProvidersAndDealsIndexer
  import Pay = FilecoinPayIndexer
  import PayR = FilecoinPayReplay
  import PayO = FilecoinPayOrder
  import PayC = FilecoinPayContents

  // ---------------------------------------------------------------- providers and deals

  /** Origin block and batch size of the providers-and-deals indexer. */
  ghost function ProvidersAndDeals(
      chain: int -> seq<PDT.Log>, sort: seq<PDT.Log> -> seq<PDT.Log>, allDeals: map<PDT.Id, PDT.Terms>,
      orderOf: seq<PDT.Log> -> PDI.GroupOrder): Setup<PDT.Tables, PDT.Log>
  {
    Setup(5934198, 2 * 60 * 24, PDT.EMPTY_TABLES, chain, sort,
          (db, versionChanged, logs) => PD.Commit(allDeals, orderOf, db, versionChanged, logs))
  }

  lemma ProvidersAndDealsIsValid(
      chain: int -> seq<PDT.Log>, sort: seq<PDT.Log> -> seq<PDT.Log>, allDeals: map<PDT.Id, PDT.Terms>,
      orderOf: seq<PDT.Log> -> PDI.GroupOrder)
    requires forall logs :: multiset(sort(logs)) == multiset(logs)
    ensures var s := ProvidersAndDeals(chain, sort, allDeals, orderOf);
      ValidSetup(s) && s.origin == 5934198 && s.batchSize == 2880
  {
    var s := ProvidersAndDeals(chain, sort, allDeals, orderOf);
    forall db, logs ensures s.commit(db, true, logs) == s.commit(s.empty, false, logs) {
      PD.CommitAfterCleanup(allDeals, orderOf, db, logs);
    }
  }

  lemma {:induction false} CommitAllRunsBatches(
      s: Setup<PDT.Tables, PDT.Log>, allDeals: map<PDT.Id, PDT.Terms>, orderOf: seq<PDT.Log> -> PDI.GroupOrder,
      batches: seq<seq<PDT.Log>>)
    requires s == ProvidersAndDeals(s.chain, s.sort, allDeals, orderOf)
    ensures CommitAll(s, batches) == PD.RunBatches(allDeals, orderOf, PDT.EMPTY_TABLES, batches)
  {
    if batches == [] {
    } else {
      CommitAllRunsBatches(s, allDeals, orderOf, batches[..|batches| - 1]);
    }
  }

  /**
   * Whatever cron ticks, failures, restarts and deployments happened, and however each batch was sorted:
   * once a version has committed, replaying every event from the origin block to the last indexed block
   * succeeds, and gives the committed tables exactly when the last value written into every column of
   * every row is the same in the order of committing as in the chain, which it is if the sort left the
   * committed ranges in chain order. Registrations and proposals come first in the chain.
   */
  lemma ReachableTablesAreReplay(
      setups: int -> Setup<PDT.Tables, PDT.Log>, w: World<PDT.Tables, PDT.Log>, actions: seq<Action>,
      allDeals: map<PDT.Id, PDT.Terms>, orderOf: seq<PDT.Log> -> PDI.GroupOrder)
    requires (forall v :: ValidSetup(setups(v))) && Initial(setups, w) && PD.ValidOrders(orderOf)
    requires var end := Run(setups, w, actions);
             var s := setups(end.version);
      && s == ProvidersAndDeals(s.chain, s.sort, allDeals, orderOf)
      && Records(end) != [] && PD.InOrder(Indexed(s, Records(end)))
    ensures var end := Run(setups, w, actions);
            var s := setups(end.version);
            var replayed := PDT.Replay(allDeals, PDT.EMPTY_TABLES, Indexed(s, Records(end)));
      && replayed.Some?
      && (end.store.db == replayed.value
          <==> PDO.SameLastWrites(Flatten(Batches(s, Records(end))), Indexed(s, Records(end))))
      && (KeptChainOrder(s, Records(end)) ==> end.store.db == replayed.value)
  {
    var end := Run(setups, w, actions);
    var s := setups(end.version);
    var batches, pieces := Batches(s, Records(end)), Ranges(s, Records(end));
    TablesAreTheBatches(setups, w, actions);
    CommitAllRunsBatches(s, allDeals, orderOf, batches);
    PDO.SortedBatchesAreReplayIff(allDeals, orderOf, PDT.EMPTY_TABLES, batches, pieces);
  }

  /**
   * However logs are sorted within a batch, in every reachable state each provider's counters are the
   * balance of all indexed logs, and each deal's state has its row among the state changes or is PROPOSED
   * without any. It is that of a latest change by block exactly when the last of the deal's changes to be
   * committed has the greatest block, which it has if the ranges were kept in ascending chain order.
   */
  lemma ReachableTablesAreConsistent(
      setups: int -> Setup<PDT.Tables, PDT.Log>, w: World<PDT.Tables, PDT.Log>, actions: seq<Action>,
      allDeals: map<PDT.Id, PDT.Terms>, orderOf: seq<PDT.Log> -> PDI.GroupOrder, d: PDT.Id)
    requires (forall v :: ValidSetup(setups(v))) && Initial(setups, w) && PD.ValidOrders(orderOf)
    requires var end := Run(setups, w, actions);
             var s := setups(end.version);
      s == ProvidersAndDeals(s.chain, s.sort, allDeals, orderOf) && Records(end) != []
    ensures var end := Run(setups, w, actions);
            var s := setups(end.version);
            var db, batches := end.store.db, Batches(s, Records(end));
      && PD.CountersMatch(db, Indexed(s, Records(end)))
      && (d in db.deals ==>
            var state := db.deals[d].state;
            && PDH.StateIsRecorded(db.stateChanges, d, state)
            && (PDH.StateIsLatest(db.stateChanges, d, state) <==> PDH.LastIsGreatest(PDH.ChangesOf(d, Flatten(batches))))
            && (KeptChainOrder(s, Records(end)) && PDH.BlocksAscend(Indexed(s, Records(end))) ==>
                  PDH.StateIsLatest(db.stateChanges, d, state)))
  {
    var end := Run(setups, w, actions);
    var s := setups(end.version);
    var batches := Batches(s, Records(end));
    TablesAreTheBatches(setups, w, actions);
    CommitAllRunsBatches(s, allDeals, orderOf, batches);
    PD.BatchesKeepCounters(allDeals, orderOf, batches, Indexed(s, Records(end)));
    if d in end.store.db.deals {
      PDH.BatchesHistoryAgreesIff(allDeals, orderOf, batches, d);
      if KeptChainOrder(s, Records(end)) && PDH.BlocksAscend(Indexed(s, Records(end))) {
        PDH.AscendingChanges(d, Flatten(batches));
      }
    }
  }

  /**
   * In every reachable state every provider, every deal and every state change is stored as the fields of the
   * events of the indexed blocks say: exactly for those that have a registration or a proposal, with its
   * values, the last value written into each column in the order of committing, and summed counters.
   */
  lemma ReachableTablesHold(
      setups: int -> Setup<PDT.Tables, PDT.Log>, w: World<PDT.Tables, PDT.Log>, actions: seq<Action>,
      allDeals: map<PDT.Id, PDT.Terms>, orderOf: seq<PDT.Log> -> PDI.GroupOrder, id: PDT.Id, d: PDT.Id, state: PDT.DealState)
    requires (forall v :: ValidSetup(setups(v))) && Initial(setups, w) && PD.ValidOrders(orderOf)
    requires var end := Run(setups, w, actions);
             var s := setups(end.version);
      s == ProvidersAndDeals(s.chain, s.sort, allDeals, orderOf) && Records(end) != []
    ensures var end := Run(setups, w, actions);
            var s := setups(end.version);
            var committed := Flatten(Batches(s, Records(end)));
      && multiset(committed) == multiset(Indexed(s, Records(end)))
      && PDC.ProviderHolds(end.store.db, id, committed)
      && PDC.DealHolds(allDeals, end.store.db, d, committed)
      && PDC.ChangeHolds(end.store.db, d, state, committed)
      && (KeptChainOrder(s, Records(end)) ==> committed == Indexed(s, Records(end)))
  {
    var end := Run(setups, w, actions);
    var s := setups(end.version);
    TablesAreTheBatches(setups, w, actions);
    CommitAllRunsBatches(s, allDeals, orderOf, Batches(s, Records(end)));
    PDC.BatchesHold(allDeals, orderOf, Batches(s, Records(end)), id, d, state, PDT.Log(PDT.SPRegistry, PDT.DealAccepted(0), 0));
  }

  // ---------------------------------------------------------------- payment rails

  function FilecoinPay(
      chain: int -> seq<Pay.Log>, sort: seq<Pay.Log> -> seq<Pay.Log>, orderOf: seq<Pay.Log> -> seq<Pay.Id>)
    : Setup<Pay.Tables, Pay.Log>
  {
    Setup(5934198, 2 * 60 * 12, Pay.EMPTY_TABLES, chain, sort,
          (db, versionChanged, logs) => PayR.Commit(orderOf, db, versionChanged, logs))
  }

  lemma FilecoinPayIsValid(
      chain: int -> seq<Pay.Log>, sort: seq<Pay.Log> -> seq<Pay.Log>, orderOf: seq<Pay.Log> -> seq<Pay.Id>)
    requires forall logs :: multiset(sort(logs)) == multiset(logs)
    ensures var s := FilecoinPay(chain, sort, orderOf);
      ValidSetup(s) && s.origin == 5934198 && s.batchSize == 1440
  {
    var s := FilecoinPay(chain, sort, orderOf);
    forall db, logs ensures s.commit(db, true, logs) == s.commit(s.empty, false, logs) {
      PayR.CommitAfterCleanup(orderOf, db, logs);
    }
  }

  lemma {:induction false} CommitAllRunsRailBatches(
      s: Setup<Pay.Tables, Pay.Log>, orderOf: seq<Pay.Log> -> seq<Pay.Id>, batches: seq<seq<Pay.Log>>)
    requires s == FilecoinPay(s.chain, s.sort, orderOf)
    ensures CommitAll(s, batches) == PayR.RunBatches(orderOf, Pay.EMPTY_TABLES, batches)
  {
    if batches == [] {
    } else {
      CommitAllRunsRailBatches(s, orderOf, batches[..|batches| - 1]);
    }
  }

  /**
   * However each batch was sorted, in every reachable state the rails are those of the replayed chain. A
   * rail's columns are the replayed ones exactly as far as the last values written into them are the same
   * in both orders, and its fixed lockup is right exactly when the lockup events that the batches kept
   * balance those of the chain. In chain order, all columns but the lockup are right.
   */
  lemma ReachableRailsAreReplay(
      setups: int -> Setup<Pay.Tables, Pay.Log>, w: World<Pay.Tables, Pay.Log>, actions: seq<Action>,
      orderOf: seq<Pay.Log> -> seq<Pay.Id>, k: Pay.Id)
    requires (forall v :: ValidSetup(setups(v))) && Initial(setups, w) && PayR.ValidOrders(orderOf)
    requires var end := Run(setups, w, actions);
             var s := setups(end.version);
      && s == FilecoinPay(s.chain, s.sort, orderOf)
      && Records(end) != [] && PayR.InOrder(Indexed(s, Records(end)))
    ensures var end := Run(setups, w, actions);
            var s := setups(end.version);
            var batches, chain := Batches(s, Records(end)), Indexed(s, Records(end));
            var rails, replayed := end.store.db.rails, Pay.Replay(Pay.EMPTY_TABLES, chain);
      && replayed.Some? && rails.Keys == replayed.value.rails.Keys
      && (k in rails ==> PayO.RailCompares(rails[k], replayed.value.rails[k], k, batches, chain, 0))
      && (k in rails && KeptChainOrder(s, Records(end)) ==> Pay.Blind(rails[k]) == Pay.Blind(replayed.value.rails[k]))
  {
    var end := Run(setups, w, actions);
    var s := setups(end.version);
    var batches := Batches(s, Records(end));
    TablesAreTheBatches(setups, w, actions);
    CommitAllRunsRailBatches(s, orderOf, batches);
    PayO.SortedRailBatchesAreReplayIff(orderOf, Pay.EMPTY_TABLES, batches, Ranges(s, Records(end)), k);
  }

  /** However logs are sorted, the payments of every reachable state are those of the indexed logs, one to one. */
  lemma ReachablePaymentsAreLogs(
      setups: int -> Setup<Pay.Tables, Pay.Log>, w: World<Pay.Tables, Pay.Log>, actions: seq<Action>,
      orderOf: seq<Pay.Log> -> seq<Pay.Id>, amount: Pay.Payment -> int)
    requires (forall v :: ValidSetup(setups(v))) && Initial(setups, w) && PayR.ValidOrders(orderOf)
    requires var end := Run(setups, w, actions);
             var s := setups(end.version);
      s == FilecoinPay(s.chain, s.sort, orderOf) && Records(end) != []
    ensures var end := Run(setups, w, actions);
            var rows := PayR.PaymentRows(Indexed(setups(end.version), Records(end)));
      && multiset(end.store.db.payments) == multiset(rows)
      && Sum(amount, end.store.db.payments) == Sum(amount, rows)
  {
    var end := Run(setups, w, actions);
    var s := setups(end.version);
    var batches := Batches(s, Records(end));
    TablesAreTheBatches(setups, w, actions);
    CommitAllRunsRailBatches(s, orderOf, batches);
    PayR.BatchesKeepPayments(orderOf, batches);
    PayR.PaymentsMatchAnyOrder(end.store.db.payments, Flatten(batches), Indexed(s, Records(end)));
    PayR.PaymentsAreLogs(end.store.db.payments, Indexed(s, Records(end)), amount);
  }

  /**
   * In every reachable state every rail is stored as the fields of the events of the indexed blocks say, and
   * the payments are their payment events, one row each: as often as events have a row's amounts it is
   * stored, and every amount adds up per rail and kind.
   */
  lemma ReachableRailsHold(
      setups: int -> Setup<Pay.Tables, Pay.Log>, w: World<Pay.Tables, Pay.Log>, actions: seq<Action>,
      orderOf: seq<Pay.Log> -> seq<Pay.Id>, k: Pay.Id, row: Pay.Payment, oneTime: bool, amount: PayC.Amount)
    requires (forall v :: ValidSetup(setups(v))) && Initial(setups, w) && PayR.ValidOrders(orderOf)
    requires var end := Run(setups, w, actions);
             var s := setups(end.version);
      s == FilecoinPay(s.chain, s.sort, orderOf) && Records(end) != []
    ensures var end := Run(setups, w, actions);
            var s := setups(end.version);
            var db, logs := end.store.db, Indexed(s, Records(end));
      && PayC.RailHolds(db, k, Batches(s, Records(end)))
      && multiset(db.payments)[row] == Sum(PayC.CountFor(row), logs)
      && Sum(PayC.Stored(k, oneTime, amount), db.payments) == Sum(PayC.Paid(k, oneTime, amount), logs)
  {
    var end := Run(setups, w, actions);
    var s := setups(end.version);
    var batches := Batches(s, Records(end));
    TablesAreTheBatches(setups, w, actions);
    CommitAllRunsRailBatches(s, orderOf, batches);
    PayC.BatchesHold(orderOf, batches, k);
    PayR.BatchesKeepPayments(orderOf, batches);
    PayR.PaymentsMatchAnyOrder(end.store.db.payments, Flatten(batches), Indexed(s, Records(end)));
    PayC.PaymentsAreEvents(end.store.db.payments, Indexed(s, Records(end)), row, k, oneTime, amount);
  }
}
