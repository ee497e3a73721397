/**
 * The providers-and-deals indexer (src/po-rep-indexer/runners/po-rep-providers-and-deals.runner.ts):
 * a batch of logs becomes one list of database operations, and that list means replaying the batch.
 */
module ProvidersAndDealsIndexer {
  import opened Wrappers
  import opened Sequences
  import opened GroupedUpdates
  import opened BigIntUpdates
  import opened ProvidersAndDealsTables

  // ---------------------------------------------------------------- one update per row

  lemma CounterMerges(u: CounterUpdate, v: FieldUpdate)
    requires IsCounter(v)
    ensures Merge(u, v).Success?
    ensures IsCounter(Merge(u, v).value)
    ensures forall x: int :: Apply(Merge(u, v).value, x) == Apply(v, Apply(u, x).value)
  {
    if u.Operations? {
      MergeCounters(u, v);
    }
  }

  function MergeCounter(u: CounterUpdate, v: FieldUpdate): CounterUpdate
    requires IsCounter(v)
  {
    CounterMerges(u, v);
    Merge(u, v).value
  }

  lemma MergedCounterApplies(u: CounterUpdate, v: FieldUpdate, x: int)
    requires IsCounter(v)
    ensures Apply(MergeCounter(u, v), x) == Apply(v, Apply(u, x).value)
  {
    CounterMerges(u, v);
  }

  function LogToProviderUpdateInput(previous: ProviderUpdate, log: Log): ProviderUpdate {
    match log.event
    case AvailableSpaceUpdated(_, bytes) => previous.(availableBytes := Some(bytes))
    case CapacityCommitted(_, bytes) =>
      previous.(committedBytes := MergeCounter(previous.committedBytes, Increment(bytes)))
    case CapacityReleased(_, bytes) =>
      previous.(committedBytes := MergeCounter(previous.committedBytes, Decrement(bytes)))
    case PriceUpdated(_, price) => previous.(pricePerSectorPerMonth := Some(price))
    case PendingCapacityReserved(_, bytes) =>
      previous.(pendingBytes := MergeCounter(previous.pendingBytes, Increment(bytes)))
    case PendingCapacityReleased(_, bytes) =>
      previous.(pendingBytes := MergeCounter(previous.pendingBytes, Decrement(bytes)))
    case ProviderBlocked(_) => previous.(blocked := Some(true))
    case ProviderUnblocked(_) => previous.(blocked := Some(false))
    case ProviderPaused(_) => previous.(paused := Some(true))
    case ProviderUnpaused(_) => previous.(paused := Some(false))
    case PayeeUpdated(_, payee) => previous.(payee := Some(payee))
    case DealDurationLimitsUpdated(_, min, max) =>
      previous.(minDealDurationDays := Some(min), maxDealDurationDays := Some(max))
    case _ => previous
  }

  function LogToDealUpdateInput(previous: DealUpdate, log: Log): DealUpdate {
    match log.event
    case DealAccepted(_) => previous.(state := Some(ACCEPTED))
    case RailIdUpdated(_, railId) => previous.(railId := Some(railId))
    case DealCompleted(_) => previous.(state := Some(COMPLETED))
    case DealRejected(_) => previous.(state := Some(REJECTED))
    case DealTerminated(_) => previous.(state := Some(TERMINATED))
    case ManifestLocationUpdated(_, location) => previous.(manifestLocation := Some(location))
    case _ => previous
  }

  function ProviderUpdateOf(logs: seq<Log>): ProviderUpdate {
    if logs == [] then NO_PROVIDER_UPDATE
    else LogToProviderUpdateInput(ProviderUpdateOf(logs[..|logs| - 1]), logs[|logs| - 1])
  }

  function DealUpdateOf(logs: seq<Log>): DealUpdate {
    if logs == [] then NO_DEAL_UPDATE
    else LogToDealUpdateInput(DealUpdateOf(logs[..|logs| - 1]), logs[|logs| - 1])
  }

  lemma CountersTakeLog(u: ProviderUpdate, log: Log, row: Provider)
    requires IsRegistryLog(log)
    requires log.event.CapacityCommitted? || log.event.CapacityReleased?
             || log.event.PendingCapacityReserved? || log.event.PendingCapacityReleased?
    ensures ApplyProviderUpdate(LogToProviderUpdateInput(u, log), row) == ProviderStep(ApplyProviderUpdate(u, row), log)
  {
    match log.event {
      case CapacityCommitted(_, bytes) => MergedCounterApplies(u.committedBytes, Increment(bytes), row.committedBytes);
      case CapacityReleased(_, bytes) => MergedCounterApplies(u.committedBytes, Decrement(bytes), row.committedBytes);
      case PendingCapacityReserved(_, bytes) => MergedCounterApplies(u.pendingBytes, Increment(bytes), row.pendingBytes);
      case PendingCapacityReleased(_, bytes) => MergedCounterApplies(u.pendingBytes, Decrement(bytes), row.pendingBytes);
    }
  }

  /** Folding one more log into an update means applying the update and then that log. */
  lemma ProviderUpdateTakesLog(u: ProviderUpdate, log: Log, row: Provider)
    requires IsRegistryLog(log)
    ensures ApplyProviderUpdate(LogToProviderUpdateInput(u, log), row) == ProviderStep(ApplyProviderUpdate(u, row), log)
  {
    if log.event.CapacityCommitted? || log.event.CapacityReleased?
       || log.event.PendingCapacityReserved? || log.event.PendingCapacityReleased? {
      CountersTakeLog(u, log, row);
    }
  }

  /** One update folded from a provider's logs means applying the logs one at a time. */
  lemma {:induction false} ProviderUpdateIsReplay(logs: seq<Log>, row: Provider)
    requires forall i :: 0 <= i < |logs| ==> IsRegistryLog(logs[i])
    ensures ApplyProviderUpdate(ProviderUpdateOf(logs), row) == ReplayRow(ProviderStep, row, logs)
  {
    if logs == [] {
    } else {
      var init, log := logs[..|logs| - 1], logs[|logs| - 1];
      ProviderUpdateIsReplay(init, row);
      ProviderUpdateTakesLog(ProviderUpdateOf(init), log, row);
    }
  }

  lemma {:induction false} DealUpdateIsReplay(logs: seq<Log>, row: Deal)
    requires forall i :: 0 <= i < |logs| ==> IsMarketLog(logs[i])
    ensures ApplyDealUpdate(DealUpdateOf(logs), row) == ReplayRow(DealStep, row, logs)
  {
    if logs == [] {
    } else {
      DealUpdateIsReplay(logs[..|logs| - 1], row);
    }
  }

  /** Only the last capabilities event of the batch is written, and that is all replay keeps. */
  lemma LastCapabilitiesIsReplay(logs: seq<Log>, row: Capabilities)
    requires forall i :: 0 <= i < |logs| ==> IsCapabilitiesLog(logs[i])
    ensures ReplayRow(CapabilitiesStep, row, logs)
         == if logs == [] then row else logs[|logs| - 1].event.capabilities
  {
  }

  // ---------------------------------------------------------------- the operations of a batch

  /** The order in which `Object.entries` lists the groups of a batch. */
  datatype GroupOrder = GroupOrder(providers: seq<Id>, capabilities: seq<Id>, deals: seq<Id>)

  ghost predicate ValidOrder(order: GroupOrder, logs: seq<Log>) {
    && Enumerates(order.providers, ProviderOf, Filter(IsRegistryLog, logs))
    && Enumerates(order.capabilities, ProviderOf, Filter(IsCapabilitiesLog, logs))
    && Enumerates(order.deals, DealOf, Filter(IsMarketLog, logs))
  }

  /** Columns without a value take the schema's defaults. */
  function NewProvider(organization: string, blockNumber: nat): Provider {
    Provider(organization, ZERO_ADDRESS, false, false, 0, 0, 0, 0, 0, 0, blockNumber)
  }

  function ProviderCreation(log: Log): (Id, Provider) {
    (ProviderOf(log), NewProvider(if log.event.ProviderRegistered? then log.event.organization else "", log.blockNumber))
  }

  function CapabilitiesCreation(log: Log): (Id, Capabilities) {
    (ProviderOf(log), NO_CAPABILITIES)
  }

  function PrepareProvidersCreations(logs: seq<Log>): seq<Operation> {
    var registerLogs := Filter(IsRegistration, logs);
    if registerLogs == [] then []
    else [CreateProviders(Map(ProviderCreation, registerLogs)), CreateCapabilities(Map(CapabilitiesCreation, registerLogs))]
  }

  function ProviderUpdates(registryLogs: seq<Log>, order: seq<Id>): seq<Operation> {
    seq(|order|, i requires 0 <= i < |order| =>
      UpdateProvider(order[i], ProviderUpdateOf(Group(ProviderOf, registryLogs, order[i]))))
  }

  function PrepareProvidersUpdates(logs: seq<Log>, order: seq<Id>): seq<Operation> {
    var registryLogs := Filter(IsRegistryLog, logs);
    ProviderUpdates(registryLogs, order)
  }

  function CapabilitiesOfLast(logs: seq<Log>): Capabilities {
    if logs != [] && logs[|logs| - 1].event.CapabilitiesUpdated? then logs[|logs| - 1].event.capabilities
    else NO_CAPABILITIES
  }

  function CapabilitiesUpdates(capabilitiesLogs: seq<Log>, order: seq<Id>): seq<Operation> {
    seq(|order|, i requires 0 <= i < |order| =>
      UpdateCapabilities(order[i], CapabilitiesOfLast(Group(ProviderOf, capabilitiesLogs, order[i]))))
  }

  function PrepareProvidersCapabilitiesUpdates(logs: seq<Log>, order: seq<Id>): seq<Operation> {
    var capabilitiesLogs := Filter(IsCapabilitiesLog, logs);
    CapabilitiesUpdates(capabilitiesLogs, order)
  }

  function ProposedDeal(e: Event): Deal
    requires e.DealProposalCreated?
  {
    Deal(e.provider, e.client, PROPOSED, e.manifestLocation, e.totalDealSize, e.proposedAtBlock, None)
  }

  function DealCreation(log: Log): (Id, Deal) {
    (DealOf(log), if log.event.DealProposalCreated? then ProposedDeal(log.event) else Deal(0, "", PROPOSED, "", 0, 0, None))
  }

  function RequirementsCreation(log: Log): (Id, Requirements) {
    (DealOf(log), if log.event.DealProposalCreated? then log.event.requirements else Requirements(0, 0, 0, 0))
  }

  function NewDealIds(proposals: seq<Log>): set<Id> {
    set log | log in proposals :: DealOf(log)
  }

  function NewTerms(allDeals: map<Id, Terms>, proposals: seq<Log>): map<Id, Terms> {
    map d | d in allDeals && d in NewDealIds(proposals) :: allDeals[d]
  }

  function PrepareDealsCreations(logs: seq<Log>, allDeals: map<Id, Terms>): seq<Operation> {
    var proposals := Filter(IsProposal, logs);
    if proposals == [] then []
    else [CreateDeals(Map(DealCreation, proposals)), CreateRequirements(Map(RequirementsCreation, proposals)),
          CreateTerms(NewTerms(allDeals, proposals))]
  }

  function DealUpdates(marketLogs: seq<Log>, order: seq<Id>): seq<Operation> {
    seq(|order|, i requires 0 <= i < |order| =>
      UpdateDeal(order[i], DealUpdateOf(Group(DealOf, marketLogs, order[i]))))
  }

  function PrepareDealsUpdates(logs: seq<Log>, order: seq<Id>): seq<Operation> {
    var marketLogs := Filter(IsMarketLog, logs);
    DealUpdates(marketLogs, order)
  }

  function StateChangeRows(stateChangeLogs: seq<Log>): seq<StateChange> {
    if stateChangeLogs == [] then []
    else
      var log := stateChangeLogs[|stateChangeLogs| - 1];
      var result := StateChangeRows(stateChangeLogs[..|stateChangeLogs| - 1]);
      var state := EventNameToDealState(log.event);
      if state.None? then result else result + [(ChangeKey(DealOf(log), state.value), log.blockNumber)]
  }

  function PrepareDealStateChangeCreations(logs: seq<Log>): seq<Operation> {
    var stateChangeLogs := Filter(IsStateChangeLog, logs);
    if stateChangeLogs == [] then [] else [CreateStateChanges(StateChangeRows(stateChangeLogs))]
  }

  function PrepareUpdates(logs: seq<Log>, order: GroupOrder, allDeals: map<Id, Terms>): seq<Operation> {
    PrepareProvidersCreations(logs) + PrepareProvidersUpdates(logs, order.providers)
    + PrepareProvidersCapabilitiesUpdates(logs, order.capabilities) + PrepareDealsCreations(logs, allDeals)
    + PrepareDealsUpdates(logs, order.deals) + PrepareDealStateChangeCreations(logs)
  }

  function PrepareCleanup(): seq<Operation> {
    [DeleteRequirements, DeleteTerms, DeleteStateChanges, DeleteDeals, DeleteCapabilities, DeleteProviders]
  }

  /** Cleanup empties every table, and its order never trips over a reference. */
  lemma CleanupEmptiesTables(db: Tables)
    ensures ExecuteAll(db, PrepareCleanup()) == Some(EMPTY_TABLES)
  {
    var noDetails := db.(requirements := map[], terms := map[], stateChanges := map[]);
    var details := [DeleteRequirements, DeleteTerms, DeleteStateChanges];
    var rows := [DeleteDeals, DeleteCapabilities, DeleteProviders];
    assert ExecuteAll(db, details) == Some(noDetails) by {
      ExecuteThree(db, DeleteRequirements, DeleteTerms, DeleteStateChanges);
    }
    assert ExecuteAll(noDetails, rows) == Some(EMPTY_TABLES) by {
      ExecuteThree(noDetails, DeleteDeals, DeleteCapabilities, DeleteProviders);
    }
    ExecuteConcat(db, details, rows);
    assert PrepareCleanup() == details + rows;
  }

  // ---------------------------------------------------------------- registrations

  predicate IsRegistryUpdate(log: Log) {
    IsRegistryLog(log) && !IsRegistration(log)
  }

  predicate IsDealUpdate(log: Log) {
    IsMarketLog(log) && !IsProposal(log)
  }

  ghost predicate All(p: Log -> bool, logs: seq<Log>) {
    forall i :: 0 <= i < |logs| ==> p(logs[i])
  }

  lemma {:induction false} InsertedRowsAreKnown<R>(table: map<Id, R>, rows: seq<(Id, R)>)
    ensures var t := InsertRows(table, rows); t.Some? ==> AllIn(rows, t.value.Keys)
  {
    if rows == [] {
    } else {
      var init, row := rows[..|rows| - 1], rows[|rows| - 1];
      InsertedRowsAreKnown(table, init);
      assert forall i :: 0 <= i < |init| ==> rows[i] == init[i];
    }
  }

  ghost function Registered(db: Tables, logs: seq<Log>): Option<Tables> {
    var p := InsertRows(db.providers, Map(ProviderCreation, logs));
    var c := InsertRows(db.capabilities, Map(CapabilitiesCreation, logs));
    if p.Some? && c.Some? then Some(db.(providers := p.value, capabilities := c.value)) else None
  }

  lemma InsertCreatedSnoc<R>(table: map<Id, R>, creation: Log -> (Id, R), logs: seq<Log>, log: Log)
    ensures InsertRows(table, Map(creation, logs + [log]))
         == var t := InsertRows(table, Map(creation, logs));
            var (k, r) := creation(log);
            if t.None? || k in t.value then None else Some(t.value[k := r])
  {
    MapSnoc(creation, logs, log);
    InsertRowsSnoc(table, Map(creation, logs), creation(log));
  }

  lemma RegisteredSnoc(allDeals: map<Id, Terms>, db: Tables, logs: seq<Log>, log: Log)
    requires IsRegistration(log)
    ensures Registered(db, logs + [log])
         == var d := Registered(db, logs); if d.None? then None else Step(allDeals, d.value, log)
  {
    InsertCreatedSnoc(db.providers, ProviderCreation, logs, log);
    InsertCreatedSnoc(db.capabilities, CapabilitiesCreation, logs, log);
  }

  lemma {:induction false} ReplayRegistrations(allDeals: map<Id, Terms>, db: Tables, logs: seq<Log>)
    requires All(IsRegistration, logs)
    ensures Replay(allDeals, db, logs) == Registered(db, logs)
  {
    if logs == [] {
    } else {
      var init, log := logs[..|logs| - 1], logs[|logs| - 1];
      assert logs == init + [log];
      ReplayRegistrations(allDeals, db, init);
      RegisteredSnoc(allDeals, db, init, log);
    }
  }

  /** Every log of a kind names a known row. */
  ghost predicate KnownLogs(p: Log -> bool, key: Log -> Id, logs: seq<Log>, known: set<Id>) {
    forall i :: 0 <= i < |logs| && p(logs[i]) ==> key(logs[i]) in known
  }

  /** Registered providers have their rows in both tables. */
  lemma RegisteredAreKnown(db: Tables, logs: seq<Log>)
    ensures var p := InsertRows(db.providers, Map(ProviderCreation, logs));
      p.Some? ==> KnownLogs(IsRegistration, ProviderOf, logs, p.value.Keys)
    ensures var c := InsertRows(db.capabilities, Map(CapabilitiesCreation, logs));
      c.Some? ==> KnownLogs(IsRegistration, ProviderOf, logs, c.value.Keys)
  {
    var providers, capabilities := Map(ProviderCreation, logs), Map(CapabilitiesCreation, logs);
    InsertedRowsAreKnown(db.providers, providers);
    InsertedRowsAreKnown(db.capabilities, capabilities);
    assert forall i :: 0 <= i < |logs| ==> providers[i].0 == ProviderOf(logs[i]);
    assert forall i :: 0 <= i < |logs| ==> capabilities[i].0 == ProviderOf(logs[i]);
  }

  /** The two inserts succeed together exactly when every registration can be replayed. */
  lemma RegistrationOperationsRun(db: Tables, logs: seq<Log>)
    requires All(IsRegistration, logs)
    ensures ExecuteAll(db, [CreateProviders(Map(ProviderCreation, logs)), CreateCapabilities(Map(CapabilitiesCreation, logs))])
         == Registered(db, logs)
  {
    var a, b := CreateProviders(Map(ProviderCreation, logs)), CreateCapabilities(Map(CapabilitiesCreation, logs));
    assert [a, b][..1] == [a] && [a][..0] == [];
    assert ExecuteAll(db, [a]) == Execute(db, a);
    var p := InsertRows(db.providers, Map(ProviderCreation, logs));
    if p.Some? {
      RegisteredAreKnown(db, logs);
      var rows := Map(CapabilitiesCreation, logs);
      forall i | 0 <= i < |rows| ensures rows[i].0 in p.value.Keys {
        assert rows[i].0 == ProviderOf(logs[i]) && IsRegistration(logs[i]);
      }
    }
  }

  lemma FilterKeeps(p: Log -> bool, logs: seq<Log>)
    ensures All(p, Filter(p, logs))
  {
    var g := Filter(p, logs);
    forall i | 0 <= i < |g| ensures p(g[i]) { assert g[i] in g; }
  }

  lemma KnownFiltered(p: Log -> bool, q: Log -> bool, key: Log -> Id, logs: seq<Log>, known: set<Id>)
    requires forall log :: q(log) ==> p(log)
    ensures KnownLogs(q, key, Filter(p, logs), known) <==> KnownLogs(q, key, logs, known)
  {
    var g := Filter(p, logs);
    forall i | 0 <= i < |g| ensures g[i] in logs && p(g[i]) { assert g[i] in g; }
    forall i | 0 <= i < |logs| && q(logs[i]) ensures logs[i] in g { assert logs[i] in logs; }
  }

  lemma CreationsReplayRegistrations(allDeals: map<Id, Terms>, db: Tables, logs: seq<Log>)
    ensures ExecuteAll(db, PrepareProvidersCreations(logs)) == Replay(allDeals, db, Filter(IsRegistration, logs))
    ensures var d := Replay(allDeals, db, Filter(IsRegistration, logs));
      d.Some? ==> KnownLogs(IsRegistration, ProviderOf, logs, d.value.providers.Keys)
                  && KnownLogs(IsRegistration, ProviderOf, logs, d.value.capabilities.Keys)
  {
    var regs := Filter(IsRegistration, logs);
    FilterKeeps(IsRegistration, logs);
    ReplayRegistrations(allDeals, db, regs);
    if regs != [] {
      RegistrationOperationsRun(db, regs);
    }
    var d := Registered(db, regs);
    if d.Some? {
      RegisteredAreKnown(db, regs);
      KnownFiltered(IsRegistration, IsRegistration, ProviderOf, logs, d.value.providers.Keys);
      KnownFiltered(IsRegistration, IsRegistration, ProviderOf, logs, d.value.capabilities.Keys);
    }
  }

  // ---------------------------------------------------------------- updates of providers

  /** Folding a row's logs into one update and applying it. */
  function FoldProvider(logs: seq<Log>, row: Provider): Provider {
    ApplyProviderUpdate(ProviderUpdateOf(logs), row)
  }

  function FoldCapabilities(logs: seq<Log>, row: Capabilities): Capabilities {
    if logs == [] then row else CapabilitiesOfLast(logs)
  }

  function FoldDeal(logs: seq<Log>, row: Deal): Deal {
    ApplyDealUpdate(DealUpdateOf(logs), row)
  }

  ghost predicate Known(order: seq<Id>, known: set<Id>) {
    order == [] || (Known(order[..|order| - 1], known) && order[|order| - 1] in known)
  }

  lemma {:induction false} KnownMeans(order: seq<Id>, known: set<Id>)
    ensures Known(order, known) <==> forall i :: 0 <= i < |order| ==> order[i] in known
  {
    if order == [] {
    } else {
      var init := order[..|order| - 1];
      KnownMeans(init, known);
      assert forall i :: 0 <= i < |init| ==> init[i] == order[i];
    }
  }

  lemma ProviderUpdatesLast(logs: seq<Log>, order: seq<Id>)
    requires order != []
    ensures var ops, last := ProviderUpdates(logs, order), order[|order| - 1];
      && ops != [] && ops[..|ops| - 1] == ProviderUpdates(logs, order[..|order| - 1])
      && ops[|ops| - 1] == UpdateProvider(last, ProviderUpdateOf(Group(ProviderOf, logs, last)))
  {
  }

  lemma {:induction false} ProviderUpdatesRun(db: Tables, order: seq<Id>, logs: seq<Log>)
    ensures ExecuteAll(db, ProviderUpdates(logs, order))
         == if Known(order, db.providers.Keys)
            then Some(db.(providers := UpdateGroups(order, ProviderOf, FoldProvider, db.providers, logs))) else None
  {
    if order == [] {
    } else {
      var init := order[..|order| - 1];
      ProviderUpdatesRun(db, init, logs);
      ProviderUpdatesLast(logs, order);
    }
  }

  lemma CapabilitiesUpdatesLast(logs: seq<Log>, order: seq<Id>)
    requires order != []
    ensures var ops, last := CapabilitiesUpdates(logs, order), order[|order| - 1];
      && ops != [] && ops[..|ops| - 1] == CapabilitiesUpdates(logs, order[..|order| - 1])
      && ops[|ops| - 1] == UpdateCapabilities(last, CapabilitiesOfLast(Group(ProviderOf, logs, last)))
  {
  }

  lemma {:induction false} CapabilitiesUpdatesRun(db: Tables, order: seq<Id>, logs: seq<Log>)
    requires forall p :: p in order ==> Group(ProviderOf, logs, p) != []
    ensures ExecuteAll(db, CapabilitiesUpdates(logs, order))
         == if Known(order, db.capabilities.Keys)
            then Some(db.(capabilities := UpdateGroups(order, ProviderOf, FoldCapabilities, db.capabilities, logs))) else None
  {
    if order == [] {
    } else {
      var init := order[..|order| - 1];
      CapabilitiesUpdatesRun(db, init, logs);
      CapabilitiesUpdatesLast(logs, order);
    }
  }

  lemma DealUpdatesLast(logs: seq<Log>, order: seq<Id>)
    requires order != []
    ensures var ops, last := DealUpdates(logs, order), order[|order| - 1];
      && ops != [] && ops[..|ops| - 1] == DealUpdates(logs, order[..|order| - 1])
      && ops[|ops| - 1] == UpdateDeal(last, DealUpdateOf(Group(DealOf, logs, last)))
  {
  }

  lemma {:induction false} DealUpdatesRun(db: Tables, order: seq<Id>, logs: seq<Log>)
    ensures ExecuteAll(db, DealUpdates(logs, order))
         == if Known(order, db.deals.Keys)
            then Some(db.(deals := UpdateGroups(order, DealOf, FoldDeal, db.deals, logs))) else None
  {
    if order == [] {
    } else {
      var init := order[..|order| - 1];
      DealUpdatesRun(db, init, logs);
      DealUpdatesLast(logs, order);
    }
  }

  lemma KnownLogsSnoc(p: Log -> bool, key: Log -> Id, logs: seq<Log>, log: Log, known: set<Id>)
    ensures KnownLogs(p, key, logs + [log], known) <==> KnownLogs(p, key, logs, known) && (p(log) ==> key(log) in known)
  {
    var all := logs + [log];
    assert all[|logs|] == log;
    assert forall i :: 0 <= i < |logs| ==> all[i] == logs[i];
  }

  /** Replaying registry updates touches the two provider tables, row by row. */
  ghost function RegistryReplayed(db: Tables, logs: seq<Log>): Tables {
    db.(providers := ReplayTable(ProviderOf, ProviderStep, db.providers, logs),
        capabilities := ReplayTable(ProviderOf, CapabilitiesStep, db.capabilities, logs))
  }

  lemma RegistryReplayedSnoc(allDeals: map<Id, Terms>, db: Tables, logs: seq<Log>, log: Log)
    requires IsRegistryUpdate(log)
    ensures Step(allDeals, RegistryReplayed(db, logs), log)
         == if ProviderOf(log) in db.providers && (IsCapabilitiesLog(log) ==> ProviderOf(log) in db.capabilities)
            then Some(RegistryReplayed(db, logs + [log])) else None
  {
    var d := RegistryReplayed(db, logs);
    var p := ProviderOf(log);
    ReplayTableSnoc(ProviderOf, ProviderStep, db.providers, logs, log);
    ReplayTableSnoc(ProviderOf, CapabilitiesStep, db.capabilities, logs, log);
    if IsCapabilitiesLog(log) {
      assert p in d.providers ==> d.providers[p := d.providers[p]] == d.providers;
    } else {
      assert p in d.capabilities ==> d.capabilities[p := d.capabilities[p]] == d.capabilities;
    }
  }

  lemma {:induction false} ReplayRegistryUpdates(allDeals: map<Id, Terms>, db: Tables, logs: seq<Log>)
    requires All(IsRegistryUpdate, logs)
    ensures Replay(allDeals, db, logs)
         == if KnownLogs(IsRegistryUpdate, ProviderOf, logs, db.providers.Keys)
               && KnownLogs(IsCapabilitiesLog, ProviderOf, logs, db.capabilities.Keys)
            then Some(RegistryReplayed(db, logs)) else None
  {
    if logs == [] {
    } else {
      var init, log := logs[..|logs| - 1], logs[|logs| - 1];
      assert logs == init + [log];
      ReplayRegistryUpdates(allDeals, db, init);
      RegistryReplayedSnoc(allDeals, db, init, log);
      KnownLogsSnoc(IsRegistryUpdate, ProviderOf, init, log, db.providers.Keys);
      KnownLogsSnoc(IsCapabilitiesLog, ProviderOf, init, log, db.capabilities.Keys);
    }
  }

  lemma GroupKeeps(p: Log -> bool, key: Log -> Id, logs: seq<Log>, k: Id)
    requires All(p, logs)
    ensures All(p, Group(key, logs, k))
  {
    var g := Group(key, logs, k);
    forall i | 0 <= i < |g| ensures p(g[i]) { assert g[i] in g; }
  }

  /** Folded provider updates are the replay of the registry logs on the providers table. */
  lemma ProviderGroupsAreReplay(order: seq<Id>, table: map<Id, Provider>, logs: seq<Log>)
    requires Enumerates(order, ProviderOf, Filter(IsRegistryLog, logs))
    ensures UpdateGroups(order, ProviderOf, FoldProvider, table, Filter(IsRegistryLog, logs))
         == ReplayTable(ProviderOf, ProviderStep, table, Filter(IsRegistryUpdate, logs))
  {
    var g := Filter(IsRegistryLog, logs);
    forall p, row: Provider
      ensures FoldProvider(Group(ProviderOf, g, p), row) == ReplayRow(ProviderStep, row, Group(ProviderOf, g, p))
    {
      FilterKeeps(IsRegistryLog, logs);
      GroupKeeps(IsRegistryLog, ProviderOf, g, p);
      ProviderUpdateIsReplay(Group(ProviderOf, g, p), row);
    }
    GroupedIsReplay(order, ProviderOf, ProviderStep, FoldProvider, table, g);
    ReplayTableSkipsNoOps(ProviderOf, ProviderStep, table, logs, IsRegistryLog);
    ReplayTableSkipsNoOps(ProviderOf, ProviderStep, table, logs, IsRegistryUpdate);
  }

  lemma CapabilitiesGroupsAreReplay(order: seq<Id>, table: map<Id, Capabilities>, logs: seq<Log>)
    requires Enumerates(order, ProviderOf, Filter(IsCapabilitiesLog, logs))
    ensures UpdateGroups(order, ProviderOf, FoldCapabilities, table, Filter(IsCapabilitiesLog, logs))
         == ReplayTable(ProviderOf, CapabilitiesStep, table, Filter(IsRegistryUpdate, logs))
    ensures forall p :: p in order ==> Group(ProviderOf, Filter(IsCapabilitiesLog, logs), p) != []
  {
    var g := Filter(IsCapabilitiesLog, logs);
    forall p, row: Capabilities
      ensures FoldCapabilities(Group(ProviderOf, g, p), row) == ReplayRow(CapabilitiesStep, row, Group(ProviderOf, g, p))
    {
      FilterKeeps(IsCapabilitiesLog, logs);
      GroupKeeps(IsCapabilitiesLog, ProviderOf, g, p);
      LastCapabilitiesIsReplay(Group(ProviderOf, g, p), row);
    }
    GroupedIsReplay(order, ProviderOf, CapabilitiesStep, FoldCapabilities, table, g);
    forall p | p in order ensures Group(ProviderOf, g, p) != [] {
      var i :| 0 <= i < |g| && ProviderOf(g[i]) == p;
      assert g[i] in Group(ProviderOf, g, p);
    }
    ReplayTableSkipsNoOps(ProviderOf, CapabilitiesStep, table, logs, IsCapabilitiesLog);
    ReplayTableSkipsNoOps(ProviderOf, CapabilitiesStep, table, logs, IsRegistryUpdate);
  }

  lemma RegistryLogsReplay(allDeals: map<Id, Terms>, db: Tables, logs: seq<Log>)
    requires KnownLogs(IsRegistration, ProviderOf, logs, db.providers.Keys)
    ensures var us := Filter(IsRegistryUpdate, logs);
      Replay(allDeals, db, us)
      == if KnownLogs(IsRegistryLog, ProviderOf, logs, db.providers.Keys)
            && KnownLogs(IsCapabilitiesLog, ProviderOf, logs, db.capabilities.Keys)
         then Some(RegistryReplayed(db, us)) else None
  {
    FilterKeeps(IsRegistryUpdate, logs);
    ReplayRegistryUpdates(allDeals, db, Filter(IsRegistryUpdate, logs));
    KnownFiltered(IsRegistryUpdate, IsRegistryUpdate, ProviderOf, logs, db.providers.Keys);
    KnownFiltered(IsRegistryUpdate, IsCapabilitiesLog, ProviderOf, logs, db.capabilities.Keys);
    assert KnownLogs(IsRegistryLog, ProviderOf, logs, db.providers.Keys)
      <==> KnownLogs(IsRegistryUpdate, ProviderOf, logs, db.providers.Keys);
  }

  /** All groups name known rows exactly when all their logs do. */
  lemma KnownGroups(p: Log -> bool, key: Log -> Id, logs: seq<Log>, order: seq<Id>, known: set<Id>)
    requires Enumerates(order, key, Filter(p, logs))
    ensures Known(order, known) <==> KnownLogs(p, key, logs, known)
  {
    var g := Filter(p, logs);
    KnownMeans(order, known);
    if Known(order, known) {
      forall i | 0 <= i < |logs| && p(logs[i]) ensures key(logs[i]) in known {
        assert logs[i] in g;
        assert key(logs[i]) in order;
      }
    }
    if KnownLogs(p, key, logs, known) {
      forall i | 0 <= i < |order| ensures order[i] in known {
        assert order[i] in order;
        var j :| 0 <= j < |g| && key(g[j]) == order[i];
        assert g[j] in g;
      }
    }
  }

  lemma ProviderUpdatesReplay(db: Tables, logs: seq<Log>, order: seq<Id>)
    requires Enumerates(order, ProviderOf, Filter(IsRegistryLog, logs))
    ensures ExecuteAll(db, PrepareProvidersUpdates(logs, order))
         == if KnownLogs(IsRegistryLog, ProviderOf, logs, db.providers.Keys)
            then Some(db.(providers := ReplayTable(ProviderOf, ProviderStep, db.providers, Filter(IsRegistryUpdate, logs))))
            else None
  {
    ProviderUpdatesRun(db, order, Filter(IsRegistryLog, logs));
    ProviderGroupsAreReplay(order, db.providers, logs);
    KnownGroups(IsRegistryLog, ProviderOf, logs, order, db.providers.Keys);
  }

  lemma CapabilitiesUpdatesReplay(db: Tables, logs: seq<Log>, order: seq<Id>)
    requires Enumerates(order, ProviderOf, Filter(IsCapabilitiesLog, logs))
    ensures ExecuteAll(db, PrepareProvidersCapabilitiesUpdates(logs, order))
         == if KnownLogs(IsCapabilitiesLog, ProviderOf, logs, db.capabilities.Keys)
            then Some(db.(capabilities := ReplayTable(ProviderOf, CapabilitiesStep, db.capabilities, Filter(IsRegistryUpdate, logs))))
            else None
  {
    CapabilitiesGroupsAreReplay(order, db.capabilities, logs);
    CapabilitiesUpdatesRun(db, order, Filter(IsCapabilitiesLog, logs));
    KnownGroups(IsCapabilitiesLog, ProviderOf, logs, order, db.capabilities.Keys);
  }

  lemma UpdatesReplayRegistryLogs(allDeals: map<Id, Terms>, db: Tables, logs: seq<Log>, order: GroupOrder)
    requires ValidOrder(order, logs)
    requires KnownLogs(IsRegistration, ProviderOf, logs, db.providers.Keys)
    ensures ExecuteAll(db, PrepareProvidersUpdates(logs, order.providers)
                           + PrepareProvidersCapabilitiesUpdates(logs, order.capabilities))
         == Replay(allDeals, db, Filter(IsRegistryUpdate, logs))
  {
    var providers := PrepareProvidersUpdates(logs, order.providers);
    var us := Filter(IsRegistryUpdate, logs);
    var db' := db.(providers := ReplayTable(ProviderOf, ProviderStep, db.providers, us));
    RegistryLogsReplay(allDeals, db, logs);
    ProviderUpdatesReplay(db, logs, order.providers);
    CapabilitiesUpdatesReplay(db', logs, order.capabilities);
    ExecuteConcat(db, providers, PrepareProvidersCapabilitiesUpdates(logs, order.capabilities));
  }

  // ---------------------------------------------------------------- proposals

  function ProposedProvider(log: Log): Id {
    if log.event.DealProposalCreated? then log.event.provider else 0
  }

  lemma NewTermsSnoc(allDeals: map<Id, Terms>, logs: seq<Log>, log: Log)
    ensures var d := DealOf(log);
      NewTerms(allDeals, logs + [log])
      == if d in allDeals then NewTerms(allDeals, logs)[d := allDeals[d]] else NewTerms(allDeals, logs)
  {
    assert NewDealIds(logs + [log]) == NewDealIds(logs) + {DealOf(log)} by {
      forall l ensures l in logs + [log] <==> l in logs || l == log { }
    }
  }

  lemma TermsSnoc(allDeals: map<Id, Terms>, table: map<Id, Terms>, logs: seq<Log>, log: Log)
    ensures var t, d := table + NewTerms(allDeals, logs), DealOf(log);
      table + NewTerms(allDeals, logs + [log]) == if d in allDeals then t[d := allDeals[d]] else t
  {
    NewTermsSnoc(allDeals, logs, log);
  }

  ghost predicate ProposalsInsertable(allDeals: map<Id, Terms>, db: Tables, logs: seq<Log>) {
    && InsertRows(db.deals, Map(DealCreation, logs)).Some?
    && InsertRows(db.requirements, Map(RequirementsCreation, logs)).Some?
    && NewTerms(allDeals, logs).Keys !! db.terms.Keys
    && KnownLogs(IsProposal, ProposedProvider, logs, db.providers.Keys)
  }

  ghost function ProposalsInserted(allDeals: map<Id, Terms>, db: Tables, logs: seq<Log>): Tables
    requires ProposalsInsertable(allDeals, db, logs)
  {
    db.(deals := InsertRows(db.deals, Map(DealCreation, logs)).value,
        requirements := InsertRows(db.requirements, Map(RequirementsCreation, logs)).value,
        terms := db.terms + NewTerms(allDeals, logs))
  }

  /** One more proposal can be inserted exactly when its own step succeeds. */
  lemma ProposalsInsertableSnoc(allDeals: map<Id, Terms>, db: Tables, logs: seq<Log>, log: Log)
    requires IsProposal(log)
    ensures ProposalsInsertable(allDeals, db, logs + [log])
       <==> ProposalsInsertable(allDeals, db, logs)
            && var d := ProposalsInserted(allDeals, db, logs);
               DealOf(log) !in d.deals && DealOf(log) !in d.requirements && log.event.provider in d.providers
               && (DealOf(log) in allDeals ==> DealOf(log) !in db.terms)
  {
    InsertCreatedSnoc(db.deals, DealCreation, logs, log);
    InsertCreatedSnoc(db.requirements, RequirementsCreation, logs, log);
    KnownLogsSnoc(IsProposal, ProposedProvider, logs, log, db.providers.Keys);
    NewTermsSnoc(allDeals, logs, log);
  }

  lemma ProposalsInsertedSnoc(allDeals: map<Id, Terms>, db: Tables, logs: seq<Log>, log: Log)
    requires IsProposal(log) && ProposalsInsertable(allDeals, db, logs) && ProposalsInsertable(allDeals, db, logs + [log])
    ensures var n, d := DealOf(log), ProposalsInserted(allDeals, db, logs);
      ProposalsInserted(allDeals, db, logs + [log])
      == d.(deals := d.deals[n := ProposedDeal(log.event)], requirements := d.requirements[n := log.event.requirements],
            terms := if n in allDeals then d.terms[n := allDeals[n]] else d.terms)
  {
    InsertCreatedSnoc(db.deals, DealCreation, logs, log);
    InsertCreatedSnoc(db.requirements, RequirementsCreation, logs, log);
    TermsSnoc(allDeals, db.terms, logs, log);
  }

  lemma {:induction false} ReplayProposals(allDeals: map<Id, Terms>, db: Tables, logs: seq<Log>)
    requires All(IsProposal, logs)
    ensures Replay(allDeals, db, logs)
         == if ProposalsInsertable(allDeals, db, logs) then Some(ProposalsInserted(allDeals, db, logs)) else None
    ensures ProposalsInsertable(allDeals, db, logs) ==>
      var d := ProposalsInserted(allDeals, db, logs);
      && KnownLogs(IsProposal, DealOf, logs, d.deals.Keys)
      && NewTerms(allDeals, logs).Keys <= d.deals.Keys
  {
    if logs == [] {
      assert NewDealIds(logs) == {};
      assert NewTerms(allDeals, logs) == map[];
      assert db.terms + map[] == db.terms;
    } else {
      var init, log := logs[..|logs| - 1], logs[|logs| - 1];
      assert logs == init + [log];
      ReplayProposals(allDeals, db, init);
      ProposalsInsertableSnoc(allDeals, db, init, log);
      NewTermsSnoc(allDeals, init, log);
      if ProposalsInsertable(allDeals, db, logs) {
        ProposalsInsertedSnoc(allDeals, db, init, log);
      }
    }
  }

  /** The three multi-row inserts succeed together exactly when every proposal can be inserted. */
  lemma ProposalOperationsRun(allDeals: map<Id, Terms>, db: Tables, logs: seq<Log>)
    requires All(IsProposal, logs)
    requires ProposalsInsertable(allDeals, db, logs) ==>
      var d := ProposalsInserted(allDeals, db, logs);
      KnownLogs(IsProposal, DealOf, logs, d.deals.Keys) && NewTerms(allDeals, logs).Keys <= d.deals.Keys
    ensures ExecuteAll(db, [CreateDeals(Map(DealCreation, logs)), CreateRequirements(Map(RequirementsCreation, logs)),
                            CreateTerms(NewTerms(allDeals, logs))])
         == if ProposalsInsertable(allDeals, db, logs) then Some(ProposalsInserted(allDeals, db, logs)) else None
  {
    var rows := Map(DealCreation, logs);
    var deals, requirements := InsertRows(db.deals, rows), InsertRows(db.requirements, Map(RequirementsCreation, logs));
    var a, b, c := CreateDeals(rows), CreateRequirements(Map(RequirementsCreation, logs)),
                   CreateTerms(NewTerms(allDeals, logs));
    assert Execute(db, a) == if deals.Some? && KnownLogs(IsProposal, ProposedProvider, logs, db.providers.Keys)
                             then Some(db.(deals := deals.value)) else None by {
      forall i | 0 <= i < |logs| ensures rows[i].1.providerId == ProposedProvider(logs[i]) { }
    }
    ExecuteThree(db, a, b, c);
    if ProposalsInsertable(allDeals, db, logs) {
      assert AllIn(Map(RequirementsCreation, logs), deals.value.Keys);
    }
  }

  lemma CreationsReplayProposals(allDeals: map<Id, Terms>, db: Tables, logs: seq<Log>)
    ensures ExecuteAll(db, PrepareDealsCreations(logs, allDeals)) == Replay(allDeals, db, Filter(IsProposal, logs))
    ensures var d := Replay(allDeals, db, Filter(IsProposal, logs));
      d.Some? ==> KnownLogs(IsProposal, DealOf, logs, d.value.deals.Keys)
  {
    var ps := Filter(IsProposal, logs);
    FilterKeeps(IsProposal, logs);
    ReplayProposals(allDeals, db, ps);
    var d := Replay(allDeals, db, ps);
    if d.Some? {
      KnownFiltered(IsProposal, IsProposal, DealOf, logs, d.value.deals.Keys);
    }
    ProposalOperationsRun(allDeals, db, ps);
  }

  // ---------------------------------------------------------------- updates of deals

  ghost predicate DealsUpdatable(db: Tables, logs: seq<Log>) {
    && KnownLogs(IsDealUpdate, DealOf, logs, db.deals.Keys)
    && InsertRows(db.stateChanges, StateChangeRows(Filter(IsStateChangeLog, logs))).Some?
  }

  ghost function DealsUpdated(db: Tables, logs: seq<Log>): Tables
    requires DealsUpdatable(db, logs)
  {
    db.(deals := ReplayTable(DealOf, DealStep, db.deals, logs),
        stateChanges := InsertRows(db.stateChanges, StateChangeRows(Filter(IsStateChangeLog, logs))).value)
  }

  lemma StateChangeRowsSnoc(logs: seq<Log>, log: Log)
    requires IsStateChangeLog(log)
    ensures StateChangeRows(logs + [log])
         == StateChangeRows(logs) + [StateChangeOf(log)]
  {
    assert (logs + [log])[..|logs|] == logs;
  }

  lemma StateChangesSnoc(table: map<ChangeKey, nat>, logs: seq<Log>, log: Log)
    ensures var t := InsertRows(table, StateChangeRows(Filter(IsStateChangeLog, logs)));
            var t' := InsertRows(table, StateChangeRows(Filter(IsStateChangeLog, logs + [log])));
      if !IsStateChangeLog(log) then t' == t
      else
        var row := StateChangeOf(log);
        t' == if t.None? || row.0 in t.value then None else Some(t.value[row.0 := row.1])
  {
    FilterSnoc(IsStateChangeLog, logs, log);
    if IsStateChangeLog(log) {
      var changes := Filter(IsStateChangeLog, logs);
      StateChangeRowsSnoc(changes, log);
      InsertRowsSnoc(table, StateChangeRows(changes), StateChangeOf(log));
    }
  }

  lemma DealsUpdatedSnoc(allDeals: map<Id, Terms>, db: Tables, logs: seq<Log>, log: Log)
    requires IsDealUpdate(log)
    ensures DealsUpdatable(db, logs + [log]) ==> DealsUpdatable(db, logs)
    ensures DealsUpdatable(db, logs) ==>
      Step(allDeals, DealsUpdated(db, logs), log)
      == if DealsUpdatable(db, logs + [log]) then Some(DealsUpdated(db, logs + [log])) else None
  {
    KnownLogsSnoc(IsDealUpdate, DealOf, logs, log, db.deals.Keys);
    StateChangesSnoc(db.stateChanges, logs, log);
    ReplayTableSnoc(DealOf, DealStep, db.deals, logs, log);
  }

  lemma {:induction false} ReplayDealUpdates(allDeals: map<Id, Terms>, db: Tables, logs: seq<Log>)
    requires All(IsDealUpdate, logs)
    ensures Replay(allDeals, db, logs) == if DealsUpdatable(db, logs) then Some(DealsUpdated(db, logs)) else None
  {
    if logs == [] {
    } else {
      var init, log := logs[..|logs| - 1], logs[|logs| - 1];
      assert logs == init + [log];
      ReplayDealUpdates(allDeals, db, init);
      DealsUpdatedSnoc(allDeals, db, init, log);
    }
  }

  lemma DealGroupsAreReplay(order: seq<Id>, table: map<Id, Deal>, logs: seq<Log>)
    requires Enumerates(order, DealOf, Filter(IsMarketLog, logs))
    ensures UpdateGroups(order, DealOf, FoldDeal, table, Filter(IsMarketLog, logs))
         == ReplayTable(DealOf, DealStep, table, Filter(IsDealUpdate, logs))
  {
    var g := Filter(IsMarketLog, logs);
    forall d, row: Deal
      ensures FoldDeal(Group(DealOf, g, d), row) == ReplayRow(DealStep, row, Group(DealOf, g, d))
    {
      FilterKeeps(IsMarketLog, logs);
      GroupKeeps(IsMarketLog, DealOf, g, d);
      DealUpdateIsReplay(Group(DealOf, g, d), row);
    }
    GroupedIsReplay(order, DealOf, DealStep, FoldDeal, table, g);
    ReplayTableSkipsNoOps(DealOf, DealStep, table, logs, IsMarketLog);
    ReplayTableSkipsNoOps(DealOf, DealStep, table, logs, IsDealUpdate);
  }

  lemma {:induction false} FilterTwice(p: Log -> bool, q: Log -> bool, logs: seq<Log>)
    requires forall log :: q(log) ==> p(log)
    ensures Filter(q, Filter(p, logs)) == Filter(q, logs)
  {
    if logs == [] {
    } else {
      var init, log := logs[..|logs| - 1], logs[|logs| - 1];
      assert logs == init + [log];
      FilterTwice(p, q, init);
      FilterSnoc(q, Filter(p, init), log);
    }
  }

  /** Every state change row names the deal of its log. */
  lemma {:induction false} StateChangeRowsKnown(logs: seq<Log>, known: set<Id>)
    requires All(IsStateChangeLog, logs)
    ensures DealsIn(StateChangeRows(logs), known) <==> KnownLogs(IsStateChangeLog, DealOf, logs, known)
  {
    if logs == [] {
    } else {
      var init, log := logs[..|logs| - 1], logs[|logs| - 1];
      assert logs == init + [log];
      StateChangeRowsKnown(init, known);
      KnownLogsSnoc(IsStateChangeLog, DealOf, init, log, known);
      var rows, all := StateChangeRows(init), StateChangeRows(logs);
      assert forall i :: 0 <= i < |rows| ==> all[i] == rows[i];
      assert all[|rows|].0.dealId == DealOf(log);
    }
  }

  lemma ExecuteOne(db: Tables, op: Operation)
    ensures ExecuteAll(db, [op]) == Execute(db, op)
  {
    assert [op][..0] == [];
  }

  lemma CreateChangesRun(db: Tables, rows: seq<StateChange>)
    requires DealsIn(rows, db.deals.Keys)
    ensures var t := InsertRows(db.stateChanges, rows);
      ExecuteAll(db, [CreateStateChanges(rows)]) == if t.Some? then Some(db.(stateChanges := t.value)) else None
  {
    ExecuteOne(db, CreateStateChanges(rows));
  }

  lemma StateChangesRun(db: Tables, logs: seq<Log>)
    requires DealsIn(StateChangeRows(Filter(IsStateChangeLog, logs)), db.deals.Keys)
    ensures var t := InsertRows(db.stateChanges, StateChangeRows(Filter(IsStateChangeLog, logs)));
      ExecuteAll(db, PrepareDealStateChangeCreations(logs))
      == if t.Some? then Some(db.(stateChanges := t.value)) else None
  {
    if Filter(IsStateChangeLog, logs) != [] {
      CreateChangesRun(db, StateChangeRows(Filter(IsStateChangeLog, logs)));
    }
  }

  lemma StateChangesAreKnown(logs: seq<Log>, known: set<Id>)
    requires KnownLogs(IsMarketLog, DealOf, logs, known)
    ensures DealsIn(StateChangeRows(Filter(IsStateChangeLog, logs)), known)
  {
    FilterKeeps(IsStateChangeLog, logs);
    KnownFiltered(IsStateChangeLog, IsStateChangeLog, DealOf, logs, known);
    StateChangeRowsKnown(Filter(IsStateChangeLog, logs), known);
  }

  lemma UpdatesReplayMarketLogs(allDeals: map<Id, Terms>, db: Tables, logs: seq<Log>, order: GroupOrder)
    requires ValidOrder(order, logs)
    requires KnownLogs(IsProposal, DealOf, logs, db.deals.Keys)
    ensures ExecuteAll(db, PrepareDealsUpdates(logs, order.deals) + PrepareDealStateChangeCreations(logs))
         == Replay(allDeals, db, Filter(IsDealUpdate, logs))
  {
    var us := Filter(IsDealUpdate, logs);
    var rows := StateChangeRows(Filter(IsStateChangeLog, logs));
    assert Replay(allDeals, db, us)
        == if KnownLogs(IsMarketLog, DealOf, logs, db.deals.Keys) && InsertRows(db.stateChanges, rows).Some?
           then Some(db.(deals := ReplayTable(DealOf, DealStep, db.deals, us),
                         stateChanges := InsertRows(db.stateChanges, rows).value)) else None by {
      FilterKeeps(IsDealUpdate, logs);
      ReplayDealUpdates(allDeals, db, us);
      FilterTwice(IsDealUpdate, IsStateChangeLog, logs);
      KnownFiltered(IsDealUpdate, IsDealUpdate, DealOf, logs, db.deals.Keys);
      assert KnownLogs(IsMarketLog, DealOf, logs, db.deals.Keys) <==> KnownLogs(IsDealUpdate, DealOf, logs, db.deals.Keys);
    }
    var db' := db.(deals := ReplayTable(DealOf, DealStep, db.deals, us));
    assert ExecuteAll(db, PrepareDealsUpdates(logs, order.deals))
        == if KnownLogs(IsMarketLog, DealOf, logs, db.deals.Keys) then Some(db') else None by {
      DealUpdatesRun(db, order.deals, Filter(IsMarketLog, logs));
      DealGroupsAreReplay(order.deals, db.deals, logs);
      KnownGroups(IsMarketLog, DealOf, logs, order.deals, db.deals.Keys);
    }
    if KnownLogs(IsMarketLog, DealOf, logs, db.deals.Keys) {
      StateChangesAreKnown(logs, db'.deals.Keys);
      StateChangesRun(db', logs);
    }
    ExecuteConcat(db, PrepareDealsUpdates(logs, order.deals), PrepareDealStateChangeCreations(logs));
  }

  // ---------------------------------------------------------------- the whole batch

  /** The logs of a batch in the order their effects are written. */
  function WriteOrder(logs: seq<Log>): seq<Log> {
    Filter(IsRegistration, logs) + Filter(IsRegistryUpdate, logs) + Filter(IsProposal, logs) + Filter(IsDealUpdate, logs)
  }

  /**
   * For every batch, in any order and well formed or not, the transaction is exactly a replay of the
   * batch with registrations moved first and proposals before deal events: it fails when that fails.
   */
  lemma BatchIsReplayInWriteOrder(allDeals: map<Id, Terms>, db: Tables, logs: seq<Log>, order: GroupOrder)
    requires ValidOrder(order, logs)
    ensures ExecuteAll(db, PrepareUpdates(logs, order, allDeals)) == Replay(allDeals, db, WriteOrder(logs))
  {
    var creations := PrepareProvidersCreations(logs);
    var providers, capabilities := PrepareProvidersUpdates(logs, order.providers),
                                   PrepareProvidersCapabilitiesUpdates(logs, order.capabilities);
    var proposals := PrepareDealsCreations(logs, allDeals);
    var deals, changes := PrepareDealsUpdates(logs, order.deals), PrepareDealStateChangeCreations(logs);
    assert PrepareUpdates(logs, order, allDeals) == ((creations + (providers + capabilities)) + proposals) + (deals + changes);
    var r, u, p, m := Filter(IsRegistration, logs), Filter(IsRegistryUpdate, logs),
                      Filter(IsProposal, logs), Filter(IsDealUpdate, logs);
    CreationsReplayRegistrations(allDeals, db, logs);
    ExecuteConcat(db, creations, providers + capabilities);
    ReplayConcat(allDeals, db, r, u);
    var d1 := Replay(allDeals, db, r);
    if d1.Some? {
      UpdatesReplayRegistryLogs(allDeals, d1.value, logs, order);
    }
    var d2 := Replay(allDeals, db, r + u);
    ExecuteConcat(db, creations + (providers + capabilities), proposals);
    ReplayConcat(allDeals, db, r + u, p);
    if d2.Some? {
      CreationsReplayProposals(allDeals, d2.value, logs);
    }
    var d3 := Replay(allDeals, db, r + u + p);
    ExecuteConcat(db, creations + (providers + capabilities) + proposals, deals + changes);
    ReplayConcat(allDeals, db, r + u + p, m);
    if d3.Some? {
      UpdatesReplayMarketLogs(allDeals, d3.value, logs, order);
    }
  }
}
