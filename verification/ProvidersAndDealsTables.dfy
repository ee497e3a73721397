/**
 * Tables, events and database operations of the providers-and-deals indexer
 * (src/po-rep-indexer/runners/po-rep-providers-and-deals.runner.ts, prisma/schema.prisma).
 */
module ProvidersAndDealsTables {
  import opened Wrappers
  import opened Sequences
  import opened GroupedUpdates
  import opened BigIntUpdates

  type Id = int

  // ---------------------------------------------------------------- events

  datatype Contract = SPRegistry | PoRepMarket

  datatype Capabilities = Capabilities(retrievabilityBps: int, bandwidthMbps: int, latencyMs: int, indexingPct: int)

  datatype Requirements = Requirements(retrievabilityBps: int, bandwidthMbps: int, latencyMs: int, indexingPct: int)

  datatype Terms = Terms(dealSizeBytes: int, pricePerSectorPerMonth: int, durationDays: int)

  datatype Event =
    | ProviderRegistered(provider: Id, organization: string)
    | CapabilitiesUpdated(provider: Id, capabilities: Capabilities)
    | AvailableSpaceUpdated(provider: Id, availableBytes: nat)
    | CapacityCommitted(provider: Id, committedBytes: nat)
    | CapacityReleased(provider: Id, releasedBytes: nat)
    | PriceUpdated(provider: Id, newPrice: nat)
    | PendingCapacityReserved(provider: Id, sizeBytes: nat)
    | PendingCapacityReleased(provider: Id, sizeBytes: nat)
    | ProviderBlocked(provider: Id)
    | ProviderUnblocked(provider: Id)
    | ProviderPaused(provider: Id)
    | ProviderUnpaused(provider: Id)
    | PayeeUpdated(provider: Id, newPayee: string)
    | DealDurationLimitsUpdated(provider: Id, minDealDurationDays: int, maxDealDurationDays: int)
    | DealProposalCreated(dealId: Id, provider: Id, client: string, manifestLocation: string,
                          totalDealSize: nat, proposedAtBlock: nat, requirements: Requirements)
    | DealAccepted(dealId: Id)
    | RailIdUpdated(dealId: Id, railId: nat)
    | DealCompleted(dealId: Id)
    | DealTerminated(dealId: Id)
    | DealRejected(dealId: Id)
    | ManifestLocationUpdated(dealId: Id, newManifestLocation: string)

  datatype Log = Log(contract: Contract, event: Event, blockNumber: nat)

  predicate IsMarketEvent(e: Event) {
    e.DealProposalCreated? || e.DealAccepted? || e.RailIdUpdated? || e.DealCompleted? || e.DealTerminated?
    || e.DealRejected? || e.ManifestLocationUpdated?
  }

  /** Logs of the two kinds the filters let through; any other log is ignored everywhere. */
  predicate IsRegistryLog(log: Log) {
    log.contract.SPRegistry? && !IsMarketEvent(log.event)
  }

  predicate IsMarketLog(log: Log) {
    log.contract.PoRepMarket? && IsMarketEvent(log.event)
  }

  predicate IsRegistration(log: Log) {
    log.contract.SPRegistry? && log.event.ProviderRegistered?
  }

  predicate IsCapabilitiesLog(log: Log) {
    log.contract.SPRegistry? && log.event.CapabilitiesUpdated?
  }

  predicate IsProposal(log: Log) {
    log.contract.PoRepMarket? && log.event.DealProposalCreated?
  }

  predicate IsStateChangeLog(log: Log) {
    log.contract.PoRepMarket?
    && (log.event.DealRejected? || log.event.DealAccepted? || log.event.DealCompleted? || log.event.DealTerminated?)
  }

  /** The row an event names: `log.args.provider` and `log.args.dealId`. */
  function ProviderOf(log: Log): Id {
    if IsMarketEvent(log.event) then 0 else log.event.provider
  }

  function DealOf(log: Log): Id {
    if IsMarketEvent(log.event) then log.event.dealId else 0
  }

  // ---------------------------------------------------------------- rows

  datatype Provider = Provider(
    organization: string, payee: string, paused: bool, blocked: bool, availableBytes: int, committedBytes: int,
    pendingBytes: int, pricePerSectorPerMonth: int, minDealDurationDays: int, maxDealDurationDays: int,
    registeredAtBlock: nat)

  datatype DealState = PROPOSED | ACCEPTED | COMPLETED | REJECTED | TERMINATED

  datatype Deal = Deal(
    providerId: Id, client: string, state: DealState, manifestLocation: string, totalDealSize: nat,
    proposedAtBlock: nat, railId: Option<nat>)

  /** Primary key of the state changes: a deal enters each state at most once. */
  datatype ChangeKey = ChangeKey(dealId: Id, state: DealState)

  /** The key of a state change and the block it happened at. */
  type StateChange = (ChangeKey, nat)

  datatype Tables = Tables(
    providers: map<Id, Provider>, capabilities: map<Id, Capabilities>, deals: map<Id, Deal>,
    requirements: map<Id, Requirements>, terms: map<Id, Terms>, stateChanges: map<ChangeKey, nat>)

  const EMPTY_TABLES := Tables(map[], map[], map[], map[], map[], map[])

  const ZERO_ADDRESS := "0x0000000000000000000000000000000000000000"

  const NO_CAPABILITIES := Capabilities(0, 0, 0, 0)

  // ---------------------------------------------------------------- partial updates

  /** A counter column is never updated by anything but increments and decrements. */
  type CounterUpdate = u: FieldUpdate | u.Undefined? || IsCounter(u) witness Undefined

  datatype ProviderUpdate = ProviderUpdate(
    availableBytes: Option<int>, committedBytes: CounterUpdate, pendingBytes: CounterUpdate,
    pricePerSectorPerMonth: Option<int>, blocked: Option<bool>, paused: Option<bool>, payee: Option<string>,
    minDealDurationDays: Option<int>, maxDealDurationDays: Option<int>)

  datatype DealUpdate = DealUpdate(state: Option<DealState>, railId: Option<nat>, manifestLocation: Option<string>)

  const NO_PROVIDER_UPDATE := ProviderUpdate(None, Undefined, Undefined, None, None, None, None, None, None)

  const NO_DEAL_UPDATE := DealUpdate(None, None, None)

  function ApplyProviderUpdate(u: ProviderUpdate, row: Provider): Provider {
    row.(availableBytes := Or(u.availableBytes, row.availableBytes),
         committedBytes := Apply(u.committedBytes, row.committedBytes).value,
         pendingBytes := Apply(u.pendingBytes, row.pendingBytes).value,
         pricePerSectorPerMonth := Or(u.pricePerSectorPerMonth, row.pricePerSectorPerMonth),
         blocked := Or(u.blocked, row.blocked), paused := Or(u.paused, row.paused), payee := Or(u.payee, row.payee),
         minDealDurationDays := Or(u.minDealDurationDays, row.minDealDurationDays),
         maxDealDurationDays := Or(u.maxDealDurationDays, row.maxDealDurationDays))
  }

  function ApplyDealUpdate(u: DealUpdate, row: Deal): Deal {
    row.(state := Or(u.state, row.state), manifestLocation := Or(u.manifestLocation, row.manifestLocation),
         railId := if u.railId.Some? then u.railId else row.railId)
  }

  // ---------------------------------------------------------------- database operations

  datatype Operation =
    | CreateProviders(providers: seq<(Id, Provider)>)
    | CreateCapabilities(capabilities: seq<(Id, Capabilities)>)
    | UpdateProvider(id: Id, provider: ProviderUpdate)
    | UpdateCapabilities(id: Id, capabilitiesOf: Capabilities)
    | CreateDeals(deals: seq<(Id, Deal)>)
    | CreateRequirements(requirements: seq<(Id, Requirements)>)
    | CreateTerms(terms: map<Id, Terms>)
    | UpdateDeal(id: Id, deal: DealUpdate)
    | CreateStateChanges(changes: seq<StateChange>)
    | DeleteRequirements
    | DeleteTerms
    | DeleteStateChanges
    | DeleteDeals
    | DeleteCapabilities
    | DeleteProviders

  ghost predicate AllIn<R>(rows: seq<(Id, R)>, ids: set<Id>) {
    forall i :: 0 <= i < |rows| ==> rows[i].0 in ids
  }

  ghost predicate ProvidersIn(rows: seq<(Id, Deal)>, providers: set<Id>) {
    forall i :: 0 <= i < |rows| ==> rows[i].1.providerId in providers
  }

  ghost predicate DealsIn(rows: seq<StateChange>, deals: set<Id>) {
    forall i :: 0 <= i < |rows| ==> rows[i].0.dealId in deals
  }

  /**
   * One operation on the tables; `None` when the database refuses it: a repeated key, a missing
   * referenced row, an update of a row that is not there, a deletion of a row still referenced.
   */
  ghost function Execute(db: Tables, op: Operation): Option<Tables> {
    match op
    case CreateProviders(rows) =>
      var t := InsertRows(db.providers, rows);
      if t.None? then None else Some(db.(providers := t.value))
    case CreateCapabilities(rows) =>
      var t := InsertRows(db.capabilities, rows);
      if t.None? || !AllIn(rows, db.providers.Keys) then None else Some(db.(capabilities := t.value))
    case UpdateProvider(id, u) =>
      if id !in db.providers then None
      else Some(db.(providers := db.providers[id := ApplyProviderUpdate(u, db.providers[id])]))
    case UpdateCapabilities(id, c) =>
      if id !in db.capabilities then None else Some(db.(capabilities := db.capabilities[id := c]))
    case CreateDeals(rows) =>
      var t := InsertRows(db.deals, rows);
      if t.None? || !ProvidersIn(rows, db.providers.Keys) then None
      else Some(db.(deals := t.value))
    case CreateRequirements(rows) =>
      var t := InsertRows(db.requirements, rows);
      if t.None? || !AllIn(rows, db.deals.Keys) then None else Some(db.(requirements := t.value))
    case CreateTerms(rows) =>
      if rows.Keys !! db.terms.Keys && rows.Keys <= db.deals.Keys then Some(db.(terms := db.terms + rows)) else None
    case UpdateDeal(id, u) =>
      if id !in db.deals then None
      else Some(db.(deals := db.deals[id := ApplyDealUpdate(u, db.deals[id])]))
    case CreateStateChanges(rows) =>
      var t := InsertRows(db.stateChanges, rows);
      if t.None? || !DealsIn(rows, db.deals.Keys) then None
      else Some(db.(stateChanges := t.value))
    case DeleteRequirements => Some(db.(requirements := map[]))
    case DeleteTerms => Some(db.(terms := map[]))
    case DeleteStateChanges => Some(db.(stateChanges := map[]))
    case DeleteDeals =>
      if db.requirements == map[] && db.terms == map[] && db.stateChanges == map[] then Some(db.(deals := map[])) else None
    case DeleteCapabilities => Some(db.(capabilities := map[]))
    case DeleteProviders =>
      if db.deals == map[] && db.capabilities == map[] then Some(db.(providers := map[])) else None
  }

  /** Every reference of a row to another table finds its row there. */
  ghost predicate References(db: Tables) {
    && db.capabilities.Keys <= db.providers.Keys
    && (forall d :: d in db.deals ==> db.deals[d].providerId in db.providers)
    && db.requirements.Keys <= db.deals.Keys && db.terms.Keys <= db.deals.Keys
    && (forall k :: k in db.stateChanges ==> k.dealId in db.deals)
  }

  /** What an insert adds to a table, if it succeeds. */
  lemma {:induction false} InsertedRows<K(!new), R(!new)>(table: map<K, R>, rows: seq<(K, R)>)
    ensures var t := InsertRows(table, rows);
      t.Some? ==> table.Keys <= t.value.Keys
                  && forall k :: k in t.value ==> (k in table && t.value[k] == table[k]) || (k, t.value[k]) in rows
  {
    if rows == [] {
    } else {
      var init, row := rows[..|rows| - 1], rows[|rows| - 1];
      InsertedRows(table, init);
      assert rows == init + [row] && row == (row.0, row.1);
    }
  }

  lemma CreationKeepsReferences(db: Tables, op: Operation)
    requires References(db) && Execute(db, op).Some?
    requires op.CreateProviders? || op.CreateCapabilities? || op.CreateDeals? || op.CreateRequirements? || op.CreateStateChanges?
    ensures References(Execute(db, op).value)
  {
    match op {
      case CreateProviders(rows) => InsertedRows(db.providers, rows);
      case CreateCapabilities(rows) => InsertedRows(db.capabilities, rows);
      case CreateDeals(rows) => InsertedRows(db.deals, rows);
      case CreateRequirements(rows) => InsertedRows(db.requirements, rows);
      case CreateStateChanges(rows) => InsertedRows(db.stateChanges, rows);
    }
  }

  /** No operation that the database accepts leaves a row whose reference finds nothing. */
  lemma ExecuteKeepsReferences(db: Tables, op: Operation)
    requires References(db) && Execute(db, op).Some?
    ensures References(Execute(db, op).value)
  {
    if op.CreateProviders? || op.CreateCapabilities? || op.CreateDeals? || op.CreateRequirements? || op.CreateStateChanges? {
      CreationKeepsReferences(db, op);
    }
  }

  /** A transaction: every operation succeeds, or nothing is written. */
  ghost function ExecuteAll(db: Tables, ops: seq<Operation>): Option<Tables> {
    if ops == [] then Some(db)
    else
      var d := ExecuteAll(db, ops[..|ops| - 1]);
      if d.None? then None else Execute(d.value, ops[|ops| - 1])
  }

  lemma {:induction false} TransactionKeepsReferences(db: Tables, ops: seq<Operation>)
    requires References(db) && ExecuteAll(db, ops).Some?
    ensures References(ExecuteAll(db, ops).value)
  {
    if ops == [] {
    } else {
      var init := ops[..|ops| - 1];
      TransactionKeepsReferences(db, init);
      ExecuteKeepsReferences(ExecuteAll(db, init).value, ops[|ops| - 1]);
    }
  }

  lemma {:induction false} ExecuteConcat(db: Tables, a: seq<Operation>, b: seq<Operation>)
    ensures ExecuteAll(db, a + b) == var d := ExecuteAll(db, a); if d.None? then None else ExecuteAll(d.value, b)
  {
    if b == [] {
      assert a + b == a;
    } else {
      ExecuteConcat(db, a, b[..|b| - 1]);
      assert (a + b)[..|a + b| - 1] == a + b[..|b| - 1];
    }
  }

  lemma ExecuteThree(db: Tables, a: Operation, b: Operation, c: Operation)
    ensures ExecuteAll(db, [a, b, c])
         == var d := Execute(db, a);
            if d.None? then None
            else var e := Execute(d.value, b); if e.None? then None else Execute(e.value, c)
  {
    var ops := [a, b, c];
    assert ops[..2] == [a, b] && ops[..2][..1] == [a] && ops[..2][..1][..0] == [];
    assert ExecuteAll(db, [a]) == Execute(db, a) by { assert [a][..0] == []; }
    assert ExecuteAll(db, [a, b]) == var d := Execute(db, a); if d.None? then None else Execute(d.value, b) by {
      assert [a, b][..1] == [a];
    }
  }

  // ---------------------------------------------------------------- the effect of one event

  /** What each event means for the row of its provider. */
  function ProviderStep(row: Provider, log: Log): Provider {
    if !IsRegistryLog(log) then row
    else match log.event
      case AvailableSpaceUpdated(_, bytes) => row.(availableBytes := bytes)
      case CapacityCommitted(_, bytes) => row.(committedBytes := row.committedBytes + bytes)
      case CapacityReleased(_, bytes) => row.(committedBytes := row.committedBytes - bytes)
      case PriceUpdated(_, price) => row.(pricePerSectorPerMonth := price)
      case PendingCapacityReserved(_, bytes) => row.(pendingBytes := row.pendingBytes + bytes)
      case PendingCapacityReleased(_, bytes) => row.(pendingBytes := row.pendingBytes - bytes)
      case ProviderBlocked(_) => row.(blocked := true)
      case ProviderUnblocked(_) => row.(blocked := false)
      case ProviderPaused(_) => row.(paused := true)
      case ProviderUnpaused(_) => row.(paused := false)
      case PayeeUpdated(_, payee) => row.(payee := payee)
      case DealDurationLimitsUpdated(_, min, max) => row.(minDealDurationDays := min, maxDealDurationDays := max)
      case _ => row
  }

  function CapabilitiesStep(row: Capabilities, log: Log): Capabilities {
    if IsCapabilitiesLog(log) then log.event.capabilities else row
  }

  function EventNameToDealState(e: Event): Option<DealState> {
    match e
    case DealRejected(_) => Some(REJECTED)
    case DealAccepted(_) => Some(ACCEPTED)
    case DealCompleted(_) => Some(COMPLETED)
    case DealTerminated(_) => Some(TERMINATED)
    case _ => None
  }

  /** The state change row that a log is stored as. */
  function StateChangeOf(log: Log): StateChange {
    (ChangeKey(DealOf(log), Or(EventNameToDealState(log.event), PROPOSED)), log.blockNumber)
  }

  function DealStep(row: Deal, log: Log): Deal {
    if !IsMarketLog(log) then row
    else match log.event
      case RailIdUpdated(_, railId) => row.(railId := Some(railId))
      case ManifestLocationUpdated(_, location) => row.(manifestLocation := location)
      case e => row.(state := Or(EventNameToDealState(e), row.state))
  }

  /** A registration adds a row to both provider tables, any other registry event needs its row there. */
  function RegistryStep(providers: map<Id, Provider>, capabilities: map<Id, Capabilities>, log: Log)
    : Option<(map<Id, Provider>, map<Id, Capabilities>)>
  {
    var p := ProviderOf(log);
    if IsRegistration(log) then
      if p in providers || p in capabilities then None
      else
        var row := Provider(log.event.organization, ZERO_ADDRESS, false, false, 0, 0, 0, 0, 0, 0, log.blockNumber);
        Some((providers[p := row], capabilities[p := NO_CAPABILITIES]))
    else if p !in providers then None
    else if !IsCapabilitiesLog(log) then Some((providers[p := ProviderStep(providers[p], log)], capabilities))
    else if p !in capabilities then None
    else Some((providers, capabilities[p := log.event.capabilities]))
  }

  /** A deal event needs its deal there, and a state is entered at most once. */
  function MarketStep(deals: map<Id, Deal>, stateChanges: map<ChangeKey, nat>, log: Log)
    : Option<(map<Id, Deal>, map<ChangeKey, nat>)>
    requires IsMarketLog(log)
  {
    var d := DealOf(log);
    if d !in deals then None
    else
      var changed := deals[d := DealStep(deals[d], log)];
      if !IsStateChangeLog(log) then Some((changed, stateChanges))
      else
        var (key, block) := StateChangeOf(log);
        if key in stateChanges then None else Some((changed, stateChanges[key := block]))
  }

  /** A proposal needs its provider, and adds its rows. */
  function ProposalStep(allDeals: map<Id, Terms>, db: Tables, log: Log): Option<Tables>
    requires IsProposal(log)
  {
    var d, e := log.event.dealId, log.event;
    if d in db.deals || d in db.requirements || e.provider !in db.providers then None
    else if d in allDeals && d in db.terms then None
    else
      var row := Deal(e.provider, e.client, PROPOSED, e.manifestLocation, e.totalDealSize, e.proposedAtBlock, None);
      Some(db.(deals := db.deals[d := row], requirements := db.requirements[d := e.requirements],
               terms := if d in allDeals then db.terms[d := allDeals[d]] else db.terms))
  }

  /** The reference meaning of one log. `allDeals` are the immutable deal terms held by the market contract. */
  function Step(allDeals: map<Id, Terms>, db: Tables, log: Log): Option<Tables> {
    if IsRegistryLog(log) then
      var t := RegistryStep(db.providers, db.capabilities, log);
      if t.None? then None else Some(db.(providers := t.value.0, capabilities := t.value.1))
    else if IsProposal(log) then ProposalStep(allDeals, db, log)
    else if IsMarketLog(log) then
      var t := MarketStep(db.deals, db.stateChanges, log);
      if t.None? then None else Some(db.(deals := t.value.0, stateChanges := t.value.1))
    else Some(db)
  }

  ghost function Replay(allDeals: map<Id, Terms>, db: Tables, logs: seq<Log>): Option<Tables> {
    if logs == [] then Some(db)
    else
      var d := Replay(allDeals, db, logs[..|logs| - 1]);
      if d.None? then None else Step(allDeals, d.value, logs[|logs| - 1])
  }

  lemma ReplaySnoc(allDeals: map<Id, Terms>, db: Tables, logs: seq<Log>, log: Log)
    ensures Replay(allDeals, db, logs + [log])
         == var d := Replay(allDeals, db, logs); if d.None? then None else Step(allDeals, d.value, log)
  {
    assert (logs + [log])[..|logs|] == logs;
  }

  lemma {:induction false} ReplayConcat(allDeals: map<Id, Terms>, db: Tables, a: seq<Log>, b: seq<Log>)
    ensures Replay(allDeals, db, a + b)
         == var d := Replay(allDeals, db, a); if d.None? then None else Replay(allDeals, d.value, b)
  {
    if b == [] {
      assert a + b == a;
    } else {
      ReplayConcat(allDeals, db, a, b[..|b| - 1]);
      assert (a + b)[..|a + b| - 1] == a + b[..|b| - 1];
    }
  }
}
