/**
 * What the tables of the providers-and-deals indexer hold after any batches, told by the fields of the
 * indexed events alone (src/po-rep-indexer/runners/po-rep-providers-and-deals.runner.ts,
 * prisma/schema.prisma).
 */
module ProvidersAndDealsContents {
  import opened Wrappers
  import opened Sequences
  import opened LastWrites
  import opened ProvidersAndDealsTables
  import opened ProvidersAndDealsIndexer
  import opened ProvidersAndDealsReplay

  // ---------------------------------------------------------------- kinds of logs

  /** The fourteen events of the registry. */
  predicate FromRegistry(log: Log) {
    var e := log.event;
    && log.contract == SPRegistry
    && (e.ProviderRegistered? || e.CapabilitiesUpdated? || e.AvailableSpaceUpdated? || e.CapacityCommitted?
        || e.CapacityReleased? || e.PriceUpdated? || e.PendingCapacityReserved? || e.PendingCapacityReleased?
        || e.ProviderBlocked? || e.ProviderUnblocked? || e.ProviderPaused? || e.ProviderUnpaused?
        || e.PayeeUpdated? || e.DealDurationLimitsUpdated?)
  }

  /** The seven events of the market. */
  predicate FromMarket(log: Log) {
    var e := log.event;
    && log.contract == PoRepMarket
    && (e.DealProposalCreated? || e.DealAccepted? || e.RailIdUpdated? || e.DealCompleted? || e.DealTerminated?
        || e.DealRejected? || e.ManifestLocationUpdated?)
  }

  predicate OfProvider(id: Id, log: Log) {
    FromRegistry(log) && log.event.provider == id
  }

  predicate OfDeal(d: Id, log: Log) {
    FromMarket(log) && log.event.dealId == d
  }

  function Registering(id: Id): Log -> bool {
    (log: Log) => OfProvider(id, log) && log.event.ProviderRegistered?
  }

  function Proposing(d: Id): Log -> bool {
    (log: Log) => OfDeal(d, log) && log.event.DealProposalCreated?
  }

  /** The events by which a deal enters a state. */
  function Entering(d: Id, s: DealState): Log -> bool {
    (log: Log) => OfDeal(d, log) && match s
                             case PROPOSED => false
                             case ACCEPTED => log.event.DealAccepted?
                             case COMPLETED => log.event.DealCompleted?
                             case REJECTED => log.event.DealRejected?
                             case TERMINATED => log.event.DealTerminated?
  }

  // ---------------------------------------------------------------- values in logs

  function SpaceIn(id: Id): Log -> Option<int> {
    (log: Log) => if OfProvider(id, log) && log.event.AvailableSpaceUpdated? then Some(log.event.availableBytes) else None
  }

  function PriceIn(id: Id): Log -> Option<int> {
    (log: Log) => if OfProvider(id, log) && log.event.PriceUpdated? then Some(log.event.newPrice) else None
  }

  function BlockedIn(id: Id): Log -> Option<bool> {
    (log: Log) => if !OfProvider(id, log) then None
           else if log.event.ProviderBlocked? then Some(true)
           else if log.event.ProviderUnblocked? then Some(false)
           else None
  }

  function PausedIn(id: Id): Log -> Option<bool> {
    (log: Log) => if !OfProvider(id, log) then None
           else if log.event.ProviderPaused? then Some(true)
           else if log.event.ProviderUnpaused? then Some(false)
           else None
  }

  function PayeeIn(id: Id): Log -> Option<string> {
    (log: Log) => if OfProvider(id, log) && log.event.PayeeUpdated? then Some(log.event.newPayee) else None
  }

  function MinDaysIn(id: Id): Log -> Option<int> {
    (log: Log) => if OfProvider(id, log) && log.event.DealDurationLimitsUpdated? then Some(log.event.minDealDurationDays) else None
  }

  function MaxDaysIn(id: Id): Log -> Option<int> {
    (log: Log) => if OfProvider(id, log) && log.event.DealDurationLimitsUpdated? then Some(log.event.maxDealDurationDays) else None
  }

  function OfferIn(id: Id): Log -> Option<Capabilities> {
    (log: Log) => if OfProvider(id, log) && log.event.CapabilitiesUpdated? then Some(log.event.capabilities) else None
  }

  function CommittedIn(id: Id): Log -> int {
    (log: Log) => if !OfProvider(id, log) then 0
           else if log.event.CapacityCommitted? then log.event.committedBytes
           else if log.event.CapacityReleased? then 0 - log.event.releasedBytes
           else 0
  }

  function PendingIn(id: Id): Log -> int {
    (log: Log) => if !OfProvider(id, log) then 0
           else if log.event.PendingCapacityReserved? then log.event.sizeBytes
           else if log.event.PendingCapacityReleased? then 0 - log.event.sizeBytes
           else 0
  }

  function StateIn(d: Id): Log -> Option<DealState> {
    (log: Log) => if !OfDeal(d, log) then None
           else if log.event.DealAccepted? then Some(ACCEPTED)
           else if log.event.DealCompleted? then Some(COMPLETED)
           else if log.event.DealRejected? then Some(REJECTED)
           else if log.event.DealTerminated? then Some(TERMINATED)
           else None
  }

  function RailIn(d: Id): Log -> Option<nat> {
    (log: Log) => if OfDeal(d, log) && log.event.RailIdUpdated? then Some(log.event.railId) else None
  }

  function ManifestIn(d: Id): Log -> Option<string> {
    (log: Log) => if OfDeal(d, log) && log.event.ManifestLocationUpdated? then Some(log.event.newManifestLocation) else None
  }

  // ---------------------------------------------------------------- what the rows hold

  ghost predicate NumbersAre(row: Provider, id: Id, logs: seq<Log>) {
    && row.availableBytes == Or(Last(SpaceIn(id), logs), 0)
    && row.pricePerSectorPerMonth == Or(Last(PriceIn(id), logs), 0)
    && row.minDealDurationDays == Or(Last(MinDaysIn(id), logs), 0)
    && row.maxDealDurationDays == Or(Last(MaxDaysIn(id), logs), 0)
  }

  ghost predicate FlagsAre(row: Provider, id: Id, logs: seq<Log>) {
    && row.blocked == Or(Last(BlockedIn(id), logs), false)
    && row.paused == Or(Last(PausedIn(id), logs), false)
    && row.payee == Or(Last(PayeeIn(id), logs), "0x0000000000000000000000000000000000000000")
  }

  ghost predicate CountersAre(row: Provider, id: Id, logs: seq<Log>) {
    && row.committedBytes == Sum(CommittedIn(id), logs)
    && row.pendingBytes == Sum(PendingIn(id), logs)
  }

  ghost predicate ColumnsAre(row: Provider, id: Id, logs: seq<Log>) {
    NumbersAre(row, id, logs) && FlagsAre(row, id, logs) && CountersAre(row, id, logs)
  }

  /**
   * A provider has its rows exactly when there is a registration, and then only one, which gives the
   * organization and the block. Every other column is the last value written, or the default; counters are
   * what was committed or reserved less what was released. An unknown provider has no log at all.
   */
  ghost predicate ProviderHolds(db: Tables, id: Id, logs: seq<Log>) {
    var registrations := Filter(Registering(id), logs);
    && (id in db.capabilities <==> id in db.providers)
    && if id in db.providers then
         && |registrations| == 1 && registrations[0].event.ProviderRegistered?
         && db.providers[id].organization == registrations[0].event.organization
         && db.providers[id].registeredAtBlock == registrations[0].blockNumber
         && ColumnsAre(db.providers[id], id, logs)
         && db.capabilities[id] == Or(Last(OfferIn(id), logs), Capabilities(0, 0, 0, 0))
       else forall log :: log in logs ==> !OfProvider(id, log)
  }

  ghost predicate DealRowIs(row: Deal, d: Id, proposal: Event, logs: seq<Log>)
    requires proposal.DealProposalCreated?
  {
    && row.providerId == proposal.provider && row.client == proposal.client
    && row.totalDealSize == proposal.totalDealSize && row.proposedAtBlock == proposal.proposedAtBlock
    && row.state == Or(Last(StateIn(d), logs), PROPOSED)
    && row.railId == Last(RailIn(d), logs)
    && row.manifestLocation == Or(Last(ManifestIn(d), logs), proposal.manifestLocation)
  }

  /** A deal has its rows exactly when there is a proposal, and then only one. An unknown deal has no log at all. */
  ghost predicate DealHolds(allDeals: map<Id, Terms>, db: Tables, d: Id, logs: seq<Log>) {
    var proposals := Filter(Proposing(d), logs);
    && (d in db.requirements <==> d in db.deals)
    && (d in db.terms <==> d in db.deals && d in allDeals)
    && (d in db.terms ==> db.terms[d] == allDeals[d])
    && if d in db.deals then
         && |proposals| == 1 && proposals[0].event.DealProposalCreated?
         && DealRowIs(db.deals[d], d, proposals[0].event, logs)
         && db.requirements[d] == proposals[0].event.requirements
         && db.deals[d].providerId in db.providers
       else forall log :: log in logs ==> !OfDeal(d, log)
  }

  /** A state change is stored exactly for an event that enters the state, with its block; there is at most one. */
  ghost predicate ChangeHolds(db: Tables, d: Id, s: DealState, logs: seq<Log>) {
    var entries := Filter(Entering(d, s), logs);
    if ChangeKey(d, s) in db.stateChanges
    then |entries| == 1 && db.stateChanges[ChangeKey(d, s)] == entries[0].blockNumber
    else entries == []
  }

  // ---------------------------------------------------------------- one more log

  lemma {:induction false} SumOfZeros<T>(f: T -> int, xs: seq<T>)
    requires forall x :: x in xs ==> f(x) == 0
    ensures Sum(f, xs) == 0
  {
    if xs == [] {
    } else {
      SumOfZeros(f, xs[1..]);
    }
  }

  lemma NothingLast<V>(w: Log -> Option<V>, logs: seq<Log>)
    requires forall log :: log in logs ==> w(log) == None
    ensures Last(w, logs) == None
  {
    SomethingWritten(w, logs);
  }

  lemma NoColumns(id: Id, logs: seq<Log>)
    requires forall log :: log in logs ==> !OfProvider(id, log)
    ensures Last(SpaceIn(id), logs) == None && Last(PriceIn(id), logs) == None
    ensures Last(BlockedIn(id), logs) == None && Last(PausedIn(id), logs) == None && Last(PayeeIn(id), logs) == None
    ensures Last(MinDaysIn(id), logs) == None && Last(MaxDaysIn(id), logs) == None && Last(OfferIn(id), logs) == None
    ensures Sum(CommittedIn(id), logs) == 0 && Sum(PendingIn(id), logs) == 0
    ensures Filter(Registering(id), logs) == []
  {
    NothingLast(SpaceIn(id), logs);
    NothingLast(PriceIn(id), logs);
    NothingLast(BlockedIn(id), logs);
    NothingLast(PausedIn(id), logs);
    NothingLast(PayeeIn(id), logs);
    NothingLast(MinDaysIn(id), logs);
    NothingLast(MaxDaysIn(id), logs);
    NothingLast(OfferIn(id), logs);
    SumOfZeros(CommittedIn(id), logs);
    SumOfZeros(PendingIn(id), logs);
    FilterNone(Registering(id), logs);
  }

  ghost function ProviderAfter(row: Provider, id: Id, log: Log): Provider {
    if IsRegistryLog(log) && ProviderOf(log) == id then ProviderStep(row, log) else row
  }

  ghost predicate NumbersStepped(row: Provider, after: Provider, id: Id, log: Log) {
    && after.availableBytes == Or(SpaceIn(id)(log), row.availableBytes)
    && after.pricePerSectorPerMonth == Or(PriceIn(id)(log), row.pricePerSectorPerMonth)
    && after.minDealDurationDays == Or(MinDaysIn(id)(log), row.minDealDurationDays)
    && after.maxDealDurationDays == Or(MaxDaysIn(id)(log), row.maxDealDurationDays)
  }

  ghost predicate FlagsStepped(row: Provider, after: Provider, id: Id, log: Log) {
    && after.blocked == Or(BlockedIn(id)(log), row.blocked)
    && after.paused == Or(PausedIn(id)(log), row.paused)
    && after.payee == Or(PayeeIn(id)(log), row.payee)
  }

  lemma ProviderAfterColumns(row: Provider, id: Id, log: Log)
    ensures var after := ProviderAfter(row, id, log);
      NumbersStepped(row, after, id, log) && FlagsStepped(row, after, id, log)
  {
    assert IsRegistryLog(log) && ProviderOf(log) == id <==> OfProvider(id, log);
  }

  lemma NumbersTakeLog(row: Provider, after: Provider, id: Id, logs: seq<Log>, log: Log)
    requires NumbersAre(row, id, logs) && NumbersStepped(row, after, id, log)
    ensures NumbersAre(after, id, logs + [log])
  {
    LastSnoc(SpaceIn(id), logs, log);
    LastSnoc(PriceIn(id), logs, log);
    LastSnoc(MinDaysIn(id), logs, log);
    LastSnoc(MaxDaysIn(id), logs, log);
  }

  lemma FlagsTakeLog(row: Provider, after: Provider, id: Id, logs: seq<Log>, log: Log)
    requires FlagsAre(row, id, logs) && FlagsStepped(row, after, id, log)
    ensures FlagsAre(after, id, logs + [log])
  {
    LastSnoc(BlockedIn(id), logs, log);
    LastSnoc(PausedIn(id), logs, log);
    LastSnoc(PayeeIn(id), logs, log);
  }

  ghost predicate CountersStepped(row: Provider, after: Provider, id: Id, log: Log) {
    && after.committedBytes == row.committedBytes + CommittedIn(id)(log)
    && after.pendingBytes == row.pendingBytes + PendingIn(id)(log)
  }

  lemma CountersTakeLog(row: Provider, after: Provider, id: Id, logs: seq<Log>, log: Log)
    requires CountersAre(row, id, logs) && CountersStepped(row, after, id, log)
    ensures CountersAre(after, id, logs + [log])
  {
    SumSnoc(CommittedIn(id), logs, log);
    SumSnoc(PendingIn(id), logs, log);
  }

  /** What one log makes of a provider's row. */
  ghost predicate ProviderRowStepped(row: Provider, after: Provider, id: Id, log: Log) {
    && after.organization == row.organization && after.registeredAtBlock == row.registeredAtBlock
    && NumbersStepped(row, after, id, log) && FlagsStepped(row, after, id, log) && CountersStepped(row, after, id, log)
  }

  lemma ProviderAfterStepped(row: Provider, id: Id, log: Log)
    ensures ProviderRowStepped(row, ProviderAfter(row, id, log), id, log)
  {
    ProviderAfterColumns(row, id, log);
    assert IsRegistryLog(log) && ProviderOf(log) == id <==> OfProvider(id, log);
  }

  lemma ColumnsTakeLog(row: Provider, after: Provider, id: Id, logs: seq<Log>, log: Log)
    requires ColumnsAre(row, id, logs) && ProviderRowStepped(row, after, id, log)
    ensures ColumnsAre(after, id, logs + [log])
  {
    NumbersTakeLog(row, after, id, logs, log);
    FlagsTakeLog(row, after, id, logs, log);
    CountersTakeLog(row, after, id, logs, log);
  }

  lemma NewColumns(id: Id, logs: seq<Log>, log: Log)
    requires (forall x :: x in logs ==> !OfProvider(id, x)) && Registering(id)(log)
    ensures ColumnsAre(NewProvider(log.event.organization, log.blockNumber), id, logs + [log])
  {
    var row := NewProvider(log.event.organization, log.blockNumber);
    NoColumns(id, logs);
    ProviderAfterStepped(row, id, log);
    ColumnsTakeLog(row, row, id, logs, log);
  }

  /** How a step changes the rows of one provider. */
  ghost predicate ProviderStepped(db: Tables, after: Tables, id: Id, log: Log) {
    if Registering(id)(log) then
      && id !in db.providers && id !in db.capabilities
      && after.providers == db.providers[id := NewProvider(log.event.organization, log.blockNumber)]
      && after.capabilities == db.capabilities[id := NO_CAPABILITIES]
    else
      && (id in after.providers <==> id in db.providers) && (id in after.capabilities <==> id in db.capabilities)
      && (OfProvider(id, log) ==> id in db.providers)
      && (id in db.providers ==> ProviderRowStepped(db.providers[id], after.providers[id], id, log))
      && (id in db.capabilities ==> after.capabilities[id] == Or(OfferIn(id)(log), db.capabilities[id]))
  }

  lemma RegistrationOnProvider(allDeals: map<Id, Terms>, db: Tables, log: Log, id: Id)
    requires IsRegistration(log) && Step(allDeals, db, log).Some?
    ensures ProviderStepped(db, Step(allDeals, db, log).value, id, log)
  {
    assert Registering(id)(log) <==> ProviderOf(log) == id;
    if id in db.providers {
      assert ProviderAfter(db.providers[id], id, log) == db.providers[id];
      ProviderAfterStepped(db.providers[id], id, log);
    }
  }

  lemma UpdateOnProvider(allDeals: map<Id, Terms>, db: Tables, log: Log, id: Id)
    requires IsRegistryUpdate(log) && Step(allDeals, db, log).Some?
    ensures ProviderStepped(db, Step(allDeals, db, log).value, id, log)
  {
    assert !Registering(id)(log) && (OfProvider(id, log) <==> ProviderOf(log) == id);
    if id in db.providers {
      assert Step(allDeals, db, log).value.providers[id] == ProviderAfter(db.providers[id], id, log);
      ProviderAfterStepped(db.providers[id], id, log);
    }
  }

  lemma StepOnProvider(allDeals: map<Id, Terms>, db: Tables, log: Log, id: Id)
    requires Step(allDeals, db, log).Some?
    ensures ProviderStepped(db, Step(allDeals, db, log).value, id, log)
  {
    if IsRegistration(log) {
      RegistrationOnProvider(allDeals, db, log, id);
    } else if IsRegistryLog(log) {
      UpdateOnProvider(allDeals, db, log, id);
    } else {
      assert !OfProvider(id, log);
      if id in db.providers {
        ProviderAfterStepped(db.providers[id], id, log);
      }
    }
  }

  lemma ProviderTakesLog(db: Tables, after: Tables, id: Id, logs: seq<Log>, log: Log)
    requires ProviderHolds(db, id, logs) && ProviderStepped(db, after, id, log)
    ensures ProviderHolds(after, id, logs + [log])
  {
    FilterSnoc(Registering(id), logs, log);
    LastSnoc(OfferIn(id), logs, log);
    if Registering(id)(log) {
      NoColumns(id, logs);
      NewColumns(id, logs, log);
    } else if id in db.providers {
      ColumnsTakeLog(db.providers[id], after.providers[id], id, logs, log);
    }
  }

  lemma NoDealColumns(d: Id, logs: seq<Log>)
    requires forall log :: log in logs ==> !OfDeal(d, log)
    ensures Last(StateIn(d), logs) == None && Last(RailIn(d), logs) == None && Last(ManifestIn(d), logs) == None
    ensures Filter(Proposing(d), logs) == []
  {
    NothingLast(StateIn(d), logs);
    NothingLast(RailIn(d), logs);
    NothingLast(ManifestIn(d), logs);
    FilterNone(Proposing(d), logs);
  }

  ghost function DealAfter(row: Deal, d: Id, log: Log): Deal {
    if IsMarketLog(log) && DealOf(log) == d then DealStep(row, log) else row
  }

  ghost predicate DealColumnsStepped(row: Deal, after: Deal, d: Id, log: Log) {
    && after.providerId == row.providerId && after.client == row.client
    && after.totalDealSize == row.totalDealSize && after.proposedAtBlock == row.proposedAtBlock
    && after.state == Or(StateIn(d)(log), row.state)
    && after.railId == (if RailIn(d)(log).Some? then RailIn(d)(log) else row.railId)
    && after.manifestLocation == Or(ManifestIn(d)(log), row.manifestLocation)
  }

  lemma DealAfterColumns(row: Deal, d: Id, log: Log)
    ensures DealColumnsStepped(row, DealAfter(row, d, log), d, log)
  {
    assert IsMarketLog(log) && DealOf(log) == d <==> OfDeal(d, log);
  }

  lemma DealColumnsTakeLog(row: Deal, after: Deal, d: Id, proposal: Event, logs: seq<Log>, log: Log)
    requires proposal.DealProposalCreated? && DealRowIs(row, d, proposal, logs)
    requires DealColumnsStepped(row, after, d, log)
    ensures DealRowIs(after, d, proposal, logs + [log])
  {
    LastSnoc(StateIn(d), logs, log);
    LastSnoc(RailIn(d), logs, log);
    LastSnoc(ManifestIn(d), logs, log);
  }

  lemma NewDealColumns(d: Id, logs: seq<Log>, log: Log)
    requires (forall x :: x in logs ==> !OfDeal(d, x)) && Proposing(d)(log)
    ensures DealRowIs(ProposedDeal(log.event), d, log.event, logs + [log])
  {
    var row := ProposedDeal(log.event);
    NoDealColumns(d, logs);
    DealAfterColumns(row, d, log);
    DealColumnsTakeLog(row, row, d, log.event, logs, log);
  }

  /** How a step changes the rows of one deal. */
  ghost predicate DealStepped(allDeals: map<Id, Terms>, db: Tables, after: Tables, d: Id, log: Log) {
    && db.providers.Keys <= after.providers.Keys
    && if Proposing(d)(log) then
         && d !in db.deals && d !in db.requirements && log.event.provider in db.providers
         && after.deals == db.deals[d := ProposedDeal(log.event)]
         && after.requirements == db.requirements[d := log.event.requirements]
         && after.terms == if d in allDeals then db.terms[d := allDeals[d]] else db.terms
       else
         && (d in after.deals <==> d in db.deals)
         && (d in after.requirements <==> d in db.requirements) && (d in after.terms <==> d in db.terms)
         && (OfDeal(d, log) ==> d in db.deals)
         && (d in db.deals ==> DealColumnsStepped(db.deals[d], after.deals[d], d, log))
         && (d in db.requirements ==> after.requirements[d] == db.requirements[d])
         && (d in db.terms ==> after.terms[d] == db.terms[d])
  }

  lemma MarketStepOnDeal(allDeals: map<Id, Terms>, db: Tables, log: Log, d: Id)
    requires IsMarketLog(log) && !IsProposal(log) && Step(allDeals, db, log).Some?
    ensures DealStepped(allDeals, db, Step(allDeals, db, log).value, d, log)
  {
    var after := Step(allDeals, db, log).value;
    assert !Proposing(d)(log) && (OfDeal(d, log) <==> DealOf(log) == d);
    assert after.deals == db.deals[DealOf(log) := DealStep(db.deals[DealOf(log)], log)];
    if d in db.deals {
      assert after.deals[d] == DealAfter(db.deals[d], d, log);
      DealAfterColumns(db.deals[d], d, log);
    }
  }

  lemma RegistryStepOnDeal(allDeals: map<Id, Terms>, db: Tables, log: Log, d: Id)
    requires !IsMarketLog(log) && Step(allDeals, db, log).Some?
    ensures DealStepped(allDeals, db, Step(allDeals, db, log).value, d, log)
  {
    assert !OfDeal(d, log);
    if d in db.deals {
      DealAfterColumns(db.deals[d], d, log);
    }
  }

  lemma ProposalStepOnDeal(allDeals: map<Id, Terms>, db: Tables, log: Log, d: Id)
    requires IsProposal(log) && Step(allDeals, db, log).Some?
    ensures DealStepped(allDeals, db, Step(allDeals, db, log).value, d, log)
  {
    assert Step(allDeals, db, log) == ProposalStep(allDeals, db, log);
    assert Proposing(d)(log) <==> DealOf(log) == d;
    assert StateIn(d)(log) == None && RailIn(d)(log) == None && ManifestIn(d)(log) == None;
  }

  lemma StepOnDeal(allDeals: map<Id, Terms>, db: Tables, log: Log, d: Id)
    requires Step(allDeals, db, log).Some?
    ensures DealStepped(allDeals, db, Step(allDeals, db, log).value, d, log)
  {
    if IsProposal(log) {
      ProposalStepOnDeal(allDeals, db, log, d);
    } else if IsMarketLog(log) {
      MarketStepOnDeal(allDeals, db, log, d);
    } else {
      RegistryStepOnDeal(allDeals, db, log, d);
    }
  }

  lemma DealTakesLog(allDeals: map<Id, Terms>, db: Tables, after: Tables, d: Id, logs: seq<Log>, log: Log)
    requires DealHolds(allDeals, db, d, logs) && DealStepped(allDeals, db, after, d, log)
    ensures DealHolds(allDeals, after, d, logs + [log])
  {
    FilterSnoc(Proposing(d), logs, log);
    if Proposing(d)(log) {
      NoDealColumns(d, logs);
      NewDealColumns(d, logs, log);
    } else if d in db.deals {
      DealColumnsTakeLog(db.deals[d], after.deals[d], d, Filter(Proposing(d), logs)[0].event, logs, log);
    }
  }

  /** How a step changes the stored change of a deal to a state. */
  ghost predicate ChangeStepped(db: Tables, after: Tables, d: Id, s: DealState, log: Log) {
    var key := ChangeKey(d, s);
    if Entering(d, s)(log) then key !in db.stateChanges && after.stateChanges == db.stateChanges[key := log.blockNumber]
    else
      && (key in after.stateChanges <==> key in db.stateChanges)
      && (key in db.stateChanges ==> after.stateChanges[key] == db.stateChanges[key])
  }

  lemma StepOnChange(allDeals: map<Id, Terms>, db: Tables, log: Log, d: Id, s: DealState)
    requires Step(allDeals, db, log).Some?
    ensures ChangeStepped(db, Step(allDeals, db, log).value, d, s, log)
  {
    if IsStateChangeLog(log) {
      assert Step(allDeals, db, log).value.stateChanges == db.stateChanges[StateChangeOf(log).0 := StateChangeOf(log).1];
      assert Entering(d, s)(log) <==> StateChangeOf(log).0 == ChangeKey(d, s);
    } else {
      assert Step(allDeals, db, log).value.stateChanges == db.stateChanges;
      assert !Entering(d, s)(log);
    }
  }

  lemma ChangeTakesLog(db: Tables, after: Tables, log: Log, d: Id, s: DealState, logs: seq<Log>)
    requires ChangeStepped(db, after, d, s, log) && ChangeHolds(db, d, s, logs)
    ensures ChangeHolds(after, d, s, logs + [log])
  {
    FilterSnoc(Entering(d, s), logs, log);
  }

  ghost predicate Holds(allDeals: map<Id, Terms>, db: Tables, id: Id, d: Id, s: DealState, logs: seq<Log>) {
    ProviderHolds(db, id, logs) && DealHolds(allDeals, db, d, logs) && ChangeHolds(db, d, s, logs)
  }

  lemma {:induction false} ReplayHolds(allDeals: map<Id, Terms>, logs: seq<Log>, id: Id, d: Id, s: DealState)
    requires Replay(allDeals, EMPTY_TABLES, logs).Some?
    ensures Holds(allDeals, Replay(allDeals, EMPTY_TABLES, logs).value, id, d, s, logs)
  {
    if logs == [] {
    } else {
      var init, log := logs[..|logs| - 1], logs[|logs| - 1];
      assert logs == init + [log];
      ReplayHolds(allDeals, init, id, d, s);
      var db, after := Replay(allDeals, EMPTY_TABLES, init).value, Replay(allDeals, EMPTY_TABLES, logs).value;
      StepOnProvider(allDeals, db, log, id);
      ProviderTakesLog(db, after, id, init, log);
      StepOnDeal(allDeals, db, log, d);
      DealTakesLog(allDeals, db, after, d, init, log);
      StepOnChange(allDeals, db, log, d, s);
      ChangeTakesLog(db, after, log, d, s, init);
    }
  }

  // ---------------------------------------------------------------- any batches

  /** A value written by logs of one class is the same in the order of writing. */
  lemma LastInWriteOrders<V>(q: Log -> bool, n: nat, w: Log -> Option<V>, batches: seq<seq<Log>>)
    requires n < 4 && (forall log :: q(log) ==> Rank(log) == n) && (forall log :: w(log).Some? ==> q(log))
    ensures Last(w, WriteOrders(batches)) == Last(w, Flatten(batches))
  {
    LastSelected(q, w, WriteOrders(batches));
    LastSelected(q, w, Flatten(batches));
    FilterWriteOrders(q, n, batches);
  }

  /** No log that either contract emits is lost in the order of writing. */
  lemma NoneLost(batches: seq<seq<Log>>, log: Log)
    requires FromRegistry(log) || FromMarket(log)
    ensures log in WriteOrders(batches) <==> log in Flatten(batches)
  {
    var classOf := if IsRegistration(log) then IsRegistration
                   else if IsRegistryUpdate(log) then IsRegistryUpdate
                   else if IsProposal(log) then IsProposal
                   else IsDealUpdate;
    FilterWriteOrders(classOf, Rank(log), batches);
    assert classOf(log);
    assert log in Filter(classOf, WriteOrders(batches)) <==> log in Filter(classOf, Flatten(batches));
  }

  lemma ProviderColumnsInWriteOrders(id: Id, batches: seq<seq<Log>>, row: Provider)
    requires ColumnsAre(row, id, WriteOrders(batches))
    ensures ColumnsAre(row, id, Flatten(batches))
  {
    LastInWriteOrders(IsRegistryUpdate, 1, SpaceIn(id), batches);
    LastInWriteOrders(IsRegistryUpdate, 1, PriceIn(id), batches);
    LastInWriteOrders(IsRegistryUpdate, 1, BlockedIn(id), batches);
    LastInWriteOrders(IsRegistryUpdate, 1, PausedIn(id), batches);
    LastInWriteOrders(IsRegistryUpdate, 1, PayeeIn(id), batches);
    LastInWriteOrders(IsRegistryUpdate, 1, MinDaysIn(id), batches);
    LastInWriteOrders(IsRegistryUpdate, 1, MaxDaysIn(id), batches);
    WriteOrdersKeepSum(CommittedIn(id), batches);
    WriteOrdersKeepSum(PendingIn(id), batches);
  }

  lemma ProviderInWriteOrders(db: Tables, id: Id, batches: seq<seq<Log>>)
    requires ProviderHolds(db, id, WriteOrders(batches))
    ensures ProviderHolds(db, id, Flatten(batches))
  {
    FilterWriteOrders(Registering(id), 0, batches);
    if id in db.providers {
      ProviderColumnsInWriteOrders(id, batches, db.providers[id]);
      LastInWriteOrders(IsRegistryUpdate, 1, OfferIn(id), batches);
    } else {
      forall log | log in Flatten(batches) ensures !OfProvider(id, log) {
        if OfProvider(id, log) {
          NoneLost(batches, log);
        }
      }
    }
  }

  lemma ChangeInWriteOrders(db: Tables, d: Id, s: DealState, batches: seq<seq<Log>>)
    requires ChangeHolds(db, d, s, WriteOrders(batches))
    ensures ChangeHolds(db, d, s, Flatten(batches))
  {
    FilterWriteOrders(Entering(d, s), 3, batches);
  }

  lemma DealInWriteOrders(allDeals: map<Id, Terms>, db: Tables, d: Id, batches: seq<seq<Log>>)
    requires DealHolds(allDeals, db, d, WriteOrders(batches))
    ensures DealHolds(allDeals, db, d, Flatten(batches))
  {
    FilterWriteOrders(Proposing(d), 2, batches);
    if d in db.deals {
      LastInWriteOrders(IsDealUpdate, 3, StateIn(d), batches);
      LastInWriteOrders(IsDealUpdate, 3, RailIn(d), batches);
      LastInWriteOrders(IsDealUpdate, 3, ManifestIn(d), batches);
    } else {
      forall log | log in Flatten(batches) ensures !OfDeal(d, log) {
        if OfDeal(d, log) {
          NoneLost(batches, log);
        }
      }
    }
  }

  lemma HoldsInWriteOrders(allDeals: map<Id, Terms>, db: Tables, id: Id, d: Id, s: DealState, batches: seq<seq<Log>>)
    requires Holds(allDeals, db, id, d, s, WriteOrders(batches))
    ensures Holds(allDeals, db, id, d, s, Flatten(batches))
  {
    ProviderInWriteOrders(db, id, batches);
    DealInWriteOrders(allDeals, db, d, batches);
    ChangeInWriteOrders(db, d, s, batches);
  }

  /** The filters of the updates let through each contract's own events, all of them. */
  lemma LetThrough(log: Log)
    ensures (IsRegistryLog(log) <==> FromRegistry(log)) && (IsMarketLog(log) <==> FromMarket(log))
  {
  }

  /**
   * After any batches, cut and sorted anyhow, every provider's and every deal's rows and state changes hold
   * what the logs of its contract say, in the order in which the batches were committed. The filters of the
   * updates let through all fourteen events of the registry and all seven of the market, from their own
   * contract only.
   */
  lemma BatchesHold(
      allDeals: map<Id, Terms>, orderOf: seq<Log> -> GroupOrder, batches: seq<seq<Log>>, id: Id, d: Id, s: DealState,
      log: Log)
    requires ValidOrders(orderOf) && RunBatches(allDeals, orderOf, EMPTY_TABLES, batches).Some?
    ensures var db, logs := RunBatches(allDeals, orderOf, EMPTY_TABLES, batches).value, Flatten(batches);
      Holds(allDeals, db, id, d, s, logs)
    ensures (IsRegistryLog(log) <==> FromRegistry(log)) && (IsMarketLog(log) <==> FromMarket(log))
  {
    BatchesAreReplayInWriteOrder(allDeals, orderOf, EMPTY_TABLES, batches);
    ReplayHolds(allDeals, WriteOrders(batches), id, d, s);
    HoldsInWriteOrders(allDeals, RunBatches(allDeals, orderOf, EMPTY_TABLES, batches).value, id, d, s, batches);
    LetThrough(log);
  }
}
