/**
 * What the order of the logs within a batch can change: the same logs in two orders, as the fetched logs
 * before and after the sort (src/po-rep-indexer/runners/abstract-po-rep-indexer.runner.ts,
 * src/po-rep-indexer/runners/po-rep-providers-and-deals.runner.ts).
 */
module ProvidersAndDealsOrder {
  import opened Wrappers
  import opened Sequences
  import opened GroupedUpdates
  import opened LastWrites
  import opened ProvidersAndDealsTables
  import opened ProvidersAndDealsIndexer
  import opened ProvidersAndDealsReplay

  // ---------------------------------------------------------------- overwritten columns

  /** The table a column belongs to. */
  datatype Owner = OfProvider | OfCapabilities | OfDeal

  /** The columns that an event overwrites; counters and keys are not among them. */
  datatype Column =
    | AvailableBytes | PricePerSector | Blocked | Paused | Payee | MinDays | MaxDays
    | Offer
    | State | RailId | ManifestLocation

  datatype Value = Number(n: int) | Flag(b: bool) | Text(s: string) | Offered(c: Capabilities) | In(state: DealState) | Missing

  function OwnerOf(c: Column): Owner {
    if c.Offer? then OfCapabilities else if c.State? || c.RailId? || c.ManifestLocation? then OfDeal else OfProvider
  }

  /** The value an event writes into a provider's column. */
  function ProviderWrite(e: Event, c: Column): Option<Value> {
    match c
    case AvailableBytes => if e.AvailableSpaceUpdated? then Some(Number(e.availableBytes)) else None
    case PricePerSector => if e.PriceUpdated? then Some(Number(e.newPrice)) else None
    case Blocked => if e.ProviderBlocked? then Some(Flag(true)) else if e.ProviderUnblocked? then Some(Flag(false)) else None
    case Paused => if e.ProviderPaused? then Some(Flag(true)) else if e.ProviderUnpaused? then Some(Flag(false)) else None
    case Payee => if e.PayeeUpdated? then Some(Text(e.newPayee)) else None
    case MinDays => if e.DealDurationLimitsUpdated? then Some(Number(e.minDealDurationDays)) else None
    case MaxDays => if e.DealDurationLimitsUpdated? then Some(Number(e.maxDealDurationDays)) else None
    case _ => None
  }

  function DealWrite(e: Event, c: Column): Option<Value> {
    match c
    case State => if EventNameToDealState(e).Some? then Some(In(EventNameToDealState(e).value)) else None
    case RailId => if e.RailIdUpdated? then Some(Number(e.railId)) else None
    case ManifestLocation => if e.ManifestLocationUpdated? then Some(Text(e.newManifestLocation)) else None
    case _ => None
  }

  /** The value a log writes into a column of the row `id`. */
  function Written(c: Column, id: Id, log: Log): Option<Value> {
    match OwnerOf(c)
    case OfProvider => if IsRegistryLog(log) && ProviderOf(log) == id then ProviderWrite(log.event, c) else None
    case OfCapabilities =>
      if IsCapabilitiesLog(log) && ProviderOf(log) == id then Some(Offered(log.event.capabilities)) else None
    case OfDeal => if IsMarketLog(log) && DealOf(log) == id then DealWrite(log.event, c) else None
  }

  ghost function Writer(c: Column, id: Id): Log -> Option<Value> {
    log => Written(c, id, log)
  }

  /** The value written last. */
  ghost function LastWrite(c: Column, id: Id, logs: seq<Log>): Option<Value> {
    Last(Writer(c, id), logs)
  }

  ghost predicate SameRowWrites(owner: Owner, id: Id, a: seq<Log>, b: seq<Log>) {
    forall c: Column :: OwnerOf(c) == owner ==> LastWrite(c, id, a) == LastWrite(c, id, b)
  }

  /** In every column of every row, the last value written is the same in both orders. */
  ghost predicate SameLastWrites(a: seq<Log>, b: seq<Log>) {
    forall owner: Owner, id: Id :: SameRowWrites(owner, id, a, b)
  }

  lemma LastWriteSnoc(c: Column, id: Id, logs: seq<Log>, log: Log)
    ensures LastWrite(c, id, logs + [log]) == var w := Written(c, id, log); if w.Some? then w else LastWrite(c, id, logs)
  {
    LastSnoc(Writer(c, id), logs, log);
  }

  // ---------------------------------------------------------------- one row

  function ProviderColumn(row: Provider, c: Column): Value {
    match c
    case AvailableBytes => Number(row.availableBytes)
    case PricePerSector => Number(row.pricePerSectorPerMonth)
    case Blocked => Flag(row.blocked)
    case Paused => Flag(row.paused)
    case Payee => Text(row.payee)
    case MinDays => Number(row.minDealDurationDays)
    case MaxDays => Number(row.maxDealDurationDays)
    case _ => Missing
  }

  function DealColumn(row: Deal, c: Column): Value {
    match c
    case State => In(row.state)
    case RailId => if row.railId.Some? then Number(row.railId.value) else Missing
    case ManifestLocation => Text(row.manifestLocation)
    case _ => Missing
  }

  ghost predicate OfRow(key: Log -> Id, id: Id, p: Log -> bool, logs: seq<Log>) {
    forall i :: 0 <= i < |logs| ==> p(logs[i]) && key(logs[i]) == id
  }

  lemma OfRowInit(key: Log -> Id, id: Id, p: Log -> bool, logs: seq<Log>)
    requires OfRow(key, id, p, logs) && logs != []
    ensures OfRow(key, id, p, logs[..|logs| - 1]) && p(logs[|logs| - 1]) && key(logs[|logs| - 1]) == id
  {
  }

  lemma ProviderStepColumn(row: Provider, log: Log, c: Column)
    requires IsRegistryLog(log) && OwnerOf(c) == OfProvider
    ensures ProviderColumn(ProviderStep(row, log), c) == Or(ProviderWrite(log.event, c), ProviderColumn(row, c))
  {
  }

  lemma DealStepColumn(row: Deal, log: Log, c: Column)
    requires IsMarketLog(log) && OwnerOf(c) == OfDeal
    ensures DealColumn(DealStep(row, log), c) == Or(DealWrite(log.event, c), DealColumn(row, c))
  {
  }

  /** An overwritten column holds the value written last. */
  lemma {:induction false} ReplayedProviderColumn(id: Id, logs: seq<Log>, row: Provider, c: Column)
    requires OfRow(ProviderOf, id, IsRegistryLog, logs) && OwnerOf(c) == OfProvider
    ensures ProviderColumn(ReplayRow(ProviderStep, row, logs), c) == Or(LastWrite(c, id, logs), ProviderColumn(row, c))
  {
    if logs == [] {
    } else {
      var init, log := logs[..|logs| - 1], logs[|logs| - 1];
      assert logs == init + [log];
      OfRowInit(ProviderOf, id, IsRegistryLog, logs);
      ReplayedProviderColumn(id, init, row, c);
      LastWriteSnoc(c, id, init, log);
      ProviderStepColumn(ReplayRow(ProviderStep, row, init), log, c);
    }
  }

  lemma {:induction false} ReplayedDealColumn(id: Id, logs: seq<Log>, row: Deal, c: Column)
    requires OfRow(DealOf, id, IsMarketLog, logs) && OwnerOf(c) == OfDeal
    ensures DealColumn(ReplayRow(DealStep, row, logs), c) == Or(LastWrite(c, id, logs), DealColumn(row, c))
  {
    if logs == [] {
    } else {
      var init, log := logs[..|logs| - 1], logs[|logs| - 1];
      assert logs == init + [log];
      OfRowInit(DealOf, id, IsMarketLog, logs);
      ReplayedDealColumn(id, init, row, c);
      LastWriteSnoc(c, id, init, log);
      DealStepColumn(ReplayRow(DealStep, row, init), log, c);
    }
  }

  lemma {:induction false} ReplayedCapabilities(id: Id, logs: seq<Log>, row: Capabilities)
    requires OfRow(ProviderOf, id, IsRegistryLog, logs)
    ensures Offered(ReplayRow(CapabilitiesStep, row, logs)) == Or(LastWrite(Offer, id, logs), Offered(row))
  {
    if logs == [] {
    } else {
      var init, log := logs[..|logs| - 1], logs[|logs| - 1];
      assert logs == init + [log];
      OfRowInit(ProviderOf, id, IsRegistryLog, logs);
      ReplayedCapabilities(id, init, row);
      LastWriteSnoc(Offer, id, init, log);
    }
  }

  /** The columns no event overwrites: counters add up, the rest stays. */
  lemma {:induction false} ReplayedCounters(id: Id, logs: seq<Log>, row: Provider)
    requires OfRow(ProviderOf, id, IsRegistryLog, logs)
    ensures var r := ReplayRow(ProviderStep, row, logs);
      && r.organization == row.organization && r.registeredAtBlock == row.registeredAtBlock
      && r.committedBytes == row.committedBytes + Sum(Committed(id), logs)
      && r.pendingBytes == row.pendingBytes + Sum(Pending(id), logs)
  {
    if logs == [] {
    } else {
      var init, log := logs[..|logs| - 1], logs[|logs| - 1];
      assert logs == init + [log];
      OfRowInit(ProviderOf, id, IsRegistryLog, logs);
      ReplayedCounters(id, init, row);
      RowMovesCounters(ReplayRow(ProviderStep, row, init), log);
      SumSnoc(Committed(id), init, log);
      SumSnoc(Pending(id), init, log);
    }
  }

  lemma {:induction false} ReplayedProposal(id: Id, logs: seq<Log>, row: Deal)
    requires OfRow(DealOf, id, IsMarketLog, logs)
    ensures var r := ReplayRow(DealStep, row, logs);
      && r.providerId == row.providerId && r.client == row.client
      && r.totalDealSize == row.totalDealSize && r.proposedAtBlock == row.proposedAtBlock
  {
    if logs == [] {
    } else {
      OfRowInit(DealOf, id, IsMarketLog, logs);
      ReplayedProposal(id, logs[..|logs| - 1], row);
    }
  }

  lemma EqualProviders(r: Provider, s: Provider)
    requires r.organization == s.organization && r.registeredAtBlock == s.registeredAtBlock
    requires r.committedBytes == s.committedBytes && r.pendingBytes == s.pendingBytes
    requires forall c: Column :: OwnerOf(c) == OfProvider ==> ProviderColumn(r, c) == ProviderColumn(s, c)
    ensures r == s
  {
    assert ProviderColumn(r, AvailableBytes) == ProviderColumn(s, AvailableBytes);
    assert ProviderColumn(r, PricePerSector) == ProviderColumn(s, PricePerSector);
    assert ProviderColumn(r, Blocked) == ProviderColumn(s, Blocked);
    assert ProviderColumn(r, Paused) == ProviderColumn(s, Paused);
    assert ProviderColumn(r, Payee) == ProviderColumn(s, Payee);
    assert ProviderColumn(r, MinDays) == ProviderColumn(s, MinDays);
    assert ProviderColumn(r, MaxDays) == ProviderColumn(s, MaxDays);
  }

  lemma EqualDeals(r: Deal, s: Deal)
    requires r.providerId == s.providerId && r.client == s.client
    requires r.totalDealSize == s.totalDealSize && r.proposedAtBlock == s.proposedAtBlock
    requires forall c: Column :: OwnerOf(c) == OfDeal ==> DealColumn(r, c) == DealColumn(s, c)
    ensures r == s
  {
    assert DealColumn(r, State) == DealColumn(s, State);
    assert DealColumn(r, RailId) == DealColumn(s, RailId);
    assert DealColumn(r, ManifestLocation) == DealColumn(s, ManifestLocation);
  }

  /** The same logs in two orders leave a provider's row the same exactly when they write the same last. */
  lemma ProviderRowAgreesIff(id: Id, a: seq<Log>, b: seq<Log>, row: Provider)
    requires OfRow(ProviderOf, id, IsRegistryLog, a) && OfRow(ProviderOf, id, IsRegistryLog, b)
    requires multiset(a) == multiset(b)
    ensures ReplayRow(ProviderStep, row, a) == ReplayRow(ProviderStep, row, b) <==> SameRowWrites(OfProvider, id, a, b)
  {
    var r, s := ReplayRow(ProviderStep, row, a), ReplayRow(ProviderStep, row, b);
    forall c: Column | OwnerOf(c) == OfProvider
      ensures ProviderColumn(r, c) == ProviderColumn(s, c) <==> LastWrite(c, id, a) == LastWrite(c, id, b)
    {
      ReplayedProviderColumn(id, a, row, c);
      ReplayedProviderColumn(id, b, row, c);
      WrittenInBoth(Writer(c, id), a, b);
    }
    ReplayedCounters(id, a, row);
    ReplayedCounters(id, b, row);
    SumIgnoresOrder(Committed(id), a, b);
    SumIgnoresOrder(Pending(id), a, b);
    if SameRowWrites(OfProvider, id, a, b) {
      EqualProviders(r, s);
    }
  }

  lemma CapabilitiesRowAgreesIff(id: Id, a: seq<Log>, b: seq<Log>, row: Capabilities)
    requires OfRow(ProviderOf, id, IsRegistryLog, a) && OfRow(ProviderOf, id, IsRegistryLog, b)
    requires multiset(a) == multiset(b)
    ensures ReplayRow(CapabilitiesStep, row, a) == ReplayRow(CapabilitiesStep, row, b)
       <==> SameRowWrites(OfCapabilities, id, a, b)
  {
    ReplayedCapabilities(id, a, row);
    ReplayedCapabilities(id, b, row);
    WrittenInBoth(Writer(Offer, id), a, b);
    assert SameRowWrites(OfCapabilities, id, a, b) <==> LastWrite(Offer, id, a) == LastWrite(Offer, id, b);
  }

  lemma DealRowAgreesIff(id: Id, a: seq<Log>, b: seq<Log>, row: Deal)
    requires OfRow(DealOf, id, IsMarketLog, a) && OfRow(DealOf, id, IsMarketLog, b)
    requires multiset(a) == multiset(b)
    ensures ReplayRow(DealStep, row, a) == ReplayRow(DealStep, row, b) <==> SameRowWrites(OfDeal, id, a, b)
  {
    var r, s := ReplayRow(DealStep, row, a), ReplayRow(DealStep, row, b);
    forall c: Column | OwnerOf(c) == OfDeal
      ensures DealColumn(r, c) == DealColumn(s, c) <==> LastWrite(c, id, a) == LastWrite(c, id, b)
    {
      ReplayedDealColumn(id, a, row, c);
      ReplayedDealColumn(id, b, row, c);
      WrittenInBoth(Writer(c, id), a, b);
    }
    ReplayedProposal(id, a, row);
    ReplayedProposal(id, b, row);
    if SameRowWrites(OfDeal, id, a, b) {
      EqualDeals(r, s);
    }
  }

  // ---------------------------------------------------------------- one table

  ghost predicate RowAgrees<R(!new)>(key: Log -> Id, step: (R, Log) -> R, table: map<Id, R>, a: seq<Log>, b: seq<Log>, k: Id)
    requires k in table
  {
    ReplayRow(step, table[k], Group(key, a, k)) == ReplayRow(step, table[k], Group(key, b, k))
  }

  /** Two replays of a table agree exactly when they agree row by row. */
  lemma TablesAgreeIff<R(!new)>(key: Log -> Id, step: (R, Log) -> R, table: map<Id, R>, a: seq<Log>, b: seq<Log>)
    ensures ReplayTable(key, step, table, a) == ReplayTable(key, step, table, b)
       <==> forall k :: k in table ==> RowAgrees(key, step, table, a, b, k)
  {
    var x, y := ReplayTable(key, step, table, a), ReplayTable(key, step, table, b);
    EqualPointwise(x, y);
    forall k | k in table ensures SameAt(x, y, k) <==> RowAgrees(key, step, table, a, b, k) {
      ReplayTableAt(key, step, table, a, k);
      ReplayTableAt(key, step, table, b, k);
    }
    if x == y {
      forall k | k in table ensures RowAgrees(key, step, table, a, b, k) {
        assert SameAt(x, y, k);
      }
    }
    if forall k :: k in table ==> RowAgrees(key, step, table, a, b, k) {
      forall k | k in x ensures SameAt(x, y, k) {
        assert RowAgrees(key, step, table, a, b, k);
      }
    }
  }

  /** A log that writes to the row names it. */
  ghost predicate Names(owner: Owner, key: Log -> Id) {
    forall log: Log, c: Column, id: Id :: OwnerOf(c) == owner && Written(c, id, log).Some? ==> key(log) == id
  }

  lemma SameGroupWrites(owner: Owner, key: Log -> Id, a: seq<Log>, b: seq<Log>, id: Id)
    requires Names(owner, key)
    ensures SameRowWrites(owner, id, Group(key, a, id), Group(key, b, id)) <==> SameRowWrites(owner, id, a, b)
  {
    forall c: Column | OwnerOf(c) == owner
      ensures LastWrite(c, id, Group(key, a, id)) == LastWrite(c, id, a)
      ensures LastWrite(c, id, Group(key, b, id)) == LastWrite(c, id, b)
    {
      LastOfGroup(key, Writer(c, id), a, id);
      LastOfGroup(key, Writer(c, id), b, id);
    }
  }

  lemma GroupOfRow(p: Log -> bool, key: Log -> Id, logs: seq<Log>, id: Id)
    requires All(p, logs)
    ensures OfRow(key, id, p, Group(key, logs, id))
  {
    var g := Group(key, logs, id);
    forall i | 0 <= i < |g| ensures p(g[i]) && key(g[i]) == id {
      assert g[i] in g;
    }
  }

  /** The same logs in two orders, all of one kind. */
  ghost predicate Rearranged(p: Log -> bool, a: seq<Log>, b: seq<Log>) {
    All(p, a) && All(p, b) && multiset(a) == multiset(b)
  }

  lemma RearrangedGroups(p: Log -> bool, key: Log -> Id, a: seq<Log>, b: seq<Log>, id: Id)
    requires Rearranged(p, a, b)
    ensures OfRow(key, id, p, Group(key, a, id)) && OfRow(key, id, p, Group(key, b, id))
    ensures multiset(Group(key, a, id)) == multiset(Group(key, b, id))
  {
    GroupOfRow(p, key, a, id);
    GroupOfRow(p, key, b, id);
    GroupPermuted(key, a, b, id);
  }

  ghost predicate TableWritesAgree(owner: Owner, ids: set<Id>, a: seq<Log>, b: seq<Log>) {
    forall id :: id in ids ==> SameRowWrites(owner, id, a, b)
  }

  lemma ProvidersAgreeIff(table: map<Id, Provider>, a: seq<Log>, b: seq<Log>)
    requires Rearranged(IsRegistryLog, a, b)
    ensures ReplayTable(ProviderOf, ProviderStep, table, a) == ReplayTable(ProviderOf, ProviderStep, table, b)
       <==> TableWritesAgree(OfProvider, table.Keys, a, b)
  {
    TablesAgreeIff(ProviderOf, ProviderStep, table, a, b);
    forall id | id in table
      ensures RowAgrees(ProviderOf, ProviderStep, table, a, b, id) <==> SameRowWrites(OfProvider, id, a, b)
    {
      RearrangedGroups(IsRegistryLog, ProviderOf, a, b, id);
      SameGroupWrites(OfProvider, ProviderOf, a, b, id);
      ProviderRowAgreesIff(id, Group(ProviderOf, a, id), Group(ProviderOf, b, id), table[id]);
    }
  }

  lemma CapabilitiesAgreeIff(table: map<Id, Capabilities>, a: seq<Log>, b: seq<Log>)
    requires Rearranged(IsRegistryLog, a, b)
    ensures ReplayTable(ProviderOf, CapabilitiesStep, table, a) == ReplayTable(ProviderOf, CapabilitiesStep, table, b)
       <==> TableWritesAgree(OfCapabilities, table.Keys, a, b)
  {
    TablesAgreeIff(ProviderOf, CapabilitiesStep, table, a, b);
    forall id | id in table
      ensures RowAgrees(ProviderOf, CapabilitiesStep, table, a, b, id) <==> SameRowWrites(OfCapabilities, id, a, b)
    {
      RearrangedGroups(IsRegistryLog, ProviderOf, a, b, id);
      SameGroupWrites(OfCapabilities, ProviderOf, a, b, id);
      CapabilitiesRowAgreesIff(id, Group(ProviderOf, a, id), Group(ProviderOf, b, id), table[id]);
    }
  }

  lemma DealsAgreeIff(table: map<Id, Deal>, a: seq<Log>, b: seq<Log>)
    requires Rearranged(IsMarketLog, a, b)
    ensures ReplayTable(DealOf, DealStep, table, a) == ReplayTable(DealOf, DealStep, table, b)
       <==> TableWritesAgree(OfDeal, table.Keys, a, b)
  {
    TablesAgreeIff(DealOf, DealStep, table, a, b);
    forall id | id in table
      ensures RowAgrees(DealOf, DealStep, table, a, b, id) <==> SameRowWrites(OfDeal, id, a, b)
    {
      RearrangedGroups(IsMarketLog, DealOf, a, b, id);
      SameGroupWrites(OfDeal, DealOf, a, b, id);
      DealRowAgreesIff(id, Group(DealOf, a, id), Group(DealOf, b, id), table[id]);
    }
  }

  // ---------------------------------------------------------------- one batch, class by class

  lemma KnownPermuted(p: Log -> bool, key: Log -> Id, a: seq<Log>, b: seq<Log>, known: set<Id>)
    requires multiset(a) == multiset(b) && KnownLogs(p, key, a, known)
    ensures KnownLogs(p, key, b, known)
  {
    forall i | 0 <= i < |b| && p(b[i]) ensures key(b[i]) in known {
      PermutedMembers(a, b, b[i]);
      assert b[i] in a;
    }
  }

  lemma RegisteredPermuted(db: Tables, a: seq<Log>, b: seq<Log>)
    requires multiset(a) == multiset(b)
    ensures Registered(db, a) == Registered(db, b)
  {
    MapPermuted(ProviderCreation, a, b);
    MapPermuted(CapabilitiesCreation, a, b);
    InsertRowsPermuted(db.providers, Map(ProviderCreation, a), Map(ProviderCreation, b));
    InsertRowsPermuted(db.capabilities, Map(CapabilitiesCreation, a), Map(CapabilitiesCreation, b));
  }

  /** Registry updates need their rows and then change them; `None` when one is missing. */
  ghost function AfterRegistry(db: Tables, logs: seq<Log>): Option<Tables> {
    if KnownLogs(IsRegistryUpdate, ProviderOf, logs, db.providers.Keys)
       && KnownLogs(IsCapabilitiesLog, ProviderOf, logs, db.capabilities.Keys)
    then Some(RegistryReplayed(db, logs)) else None
  }

  ghost function AfterProposals(allDeals: map<Id, Terms>, db: Tables, logs: seq<Log>): Option<Tables> {
    if ProposalsInsertable(allDeals, db, logs) then Some(ProposalsInserted(allDeals, db, logs)) else None
  }

  ghost function AfterDeals(db: Tables, logs: seq<Log>): Option<Tables> {
    if DealsUpdatable(db, logs) then Some(DealsUpdated(db, logs)) else None
  }

  /** The same tables, but for the values of the providers' and capabilities' rows. */
  ghost predicate SameButValues(d: Tables, e: Tables) {
    && d.providers.Keys == e.providers.Keys && d.capabilities.Keys == e.capabilities.Keys
    && d.deals == e.deals && d.requirements == e.requirements && d.terms == e.terms && d.stateChanges == e.stateChanges
  }

  lemma RegistryPermuted(db: Tables, a: seq<Log>, b: seq<Log>)
    requires Rearranged(IsRegistryUpdate, a, b)
    ensures var d, e := AfterRegistry(db, a), AfterRegistry(db, b);
      && (d.Some? <==> e.Some?)
      && (d.Some? ==> SameButValues(d.value, e.value))
      && (d.Some? ==> (d.value == e.value <==> TableWritesAgree(OfProvider, db.providers.Keys, a, b)
                                               && TableWritesAgree(OfCapabilities, db.capabilities.Keys, a, b)))
  {
    if AfterRegistry(db, a).Some? {
      KnownPermuted(IsRegistryUpdate, ProviderOf, a, b, db.providers.Keys);
      KnownPermuted(IsCapabilitiesLog, ProviderOf, a, b, db.capabilities.Keys);
    }
    if AfterRegistry(db, b).Some? {
      KnownPermuted(IsRegistryUpdate, ProviderOf, b, a, db.providers.Keys);
      KnownPermuted(IsCapabilitiesLog, ProviderOf, b, a, db.capabilities.Keys);
    }
    assert Rearranged(IsRegistryLog, a, b);
    ProvidersAgreeIff(db.providers, a, b);
    CapabilitiesAgreeIff(db.capabilities, a, b);
  }

  lemma NewTermsPermuted(allDeals: map<Id, Terms>, a: seq<Log>, b: seq<Log>)
    requires multiset(a) == multiset(b)
    ensures NewTerms(allDeals, a) == NewTerms(allDeals, b)
  {
    forall log ensures log in a <==> log in b {
      PermutedMembers(a, b, log);
    }
    assert NewDealIds(a) == NewDealIds(b);
  }

  lemma ProposalsPermuted(allDeals: map<Id, Terms>, d: Tables, e: Tables, a: seq<Log>, b: seq<Log>)
    requires SameButValues(d, e) && multiset(a) == multiset(b)
    ensures var x, y := AfterProposals(allDeals, d, a), AfterProposals(allDeals, e, b);
      && (x.Some? <==> y.Some?)
      && (x.Some? ==> SameButValues(x.value, y.value))
      && (x.Some? ==> x.value.providers == d.providers && x.value.capabilities == d.capabilities)
      && (y.Some? ==> y.value.providers == e.providers && y.value.capabilities == e.capabilities)
  {
    MapPermuted(DealCreation, a, b);
    MapPermuted(RequirementsCreation, a, b);
    InsertRowsPermuted(d.deals, Map(DealCreation, a), Map(DealCreation, b));
    InsertRowsPermuted(d.requirements, Map(RequirementsCreation, a), Map(RequirementsCreation, b));
    NewTermsPermuted(allDeals, a, b);
    if AfterProposals(allDeals, d, a).Some? {
      KnownPermuted(IsProposal, ProposedProvider, a, b, d.providers.Keys);
    }
    if AfterProposals(allDeals, e, b).Some? {
      KnownPermuted(IsProposal, ProposedProvider, b, a, d.providers.Keys);
    }
  }

  lemma {:induction false} StateChangeRowsAreMapped(logs: seq<Log>)
    requires All(IsStateChangeLog, logs)
    ensures StateChangeRows(logs) == Map(StateChangeOf, logs)
  {
    if logs == [] {
    } else {
      var init, log := logs[..|logs| - 1], logs[|logs| - 1];
      assert logs == init + [log];
      StateChangeRowsAreMapped(init);
      StateChangeRowsSnoc(init, log);
      MapSnoc(StateChangeOf, init, log);
    }
  }

  lemma ChangesPermuted(table: map<ChangeKey, nat>, a: seq<Log>, b: seq<Log>)
    requires multiset(a) == multiset(b)
    ensures InsertRows(table, StateChangeRows(Filter(IsStateChangeLog, a)))
         == InsertRows(table, StateChangeRows(Filter(IsStateChangeLog, b)))
  {
    var x, y := Filter(IsStateChangeLog, a), Filter(IsStateChangeLog, b);
    FilterPermuted(IsStateChangeLog, a, b);
    FilterKeeps(IsStateChangeLog, a);
    FilterKeeps(IsStateChangeLog, b);
    StateChangeRowsAreMapped(x);
    StateChangeRowsAreMapped(y);
    MapPermuted(StateChangeOf, x, y);
    InsertRowsPermuted(table, Map(StateChangeOf, x), Map(StateChangeOf, y));
  }

  lemma DealsPermuted(d: Tables, e: Tables, a: seq<Log>, b: seq<Log>)
    requires SameButValues(d, e) && Rearranged(IsDealUpdate, a, b)
    ensures var x, y := AfterDeals(d, a), AfterDeals(e, b);
      && (x.Some? <==> y.Some?)
      && (x.Some? ==> (x.value == y.value <==> d.providers == e.providers && d.capabilities == e.capabilities
                                               && TableWritesAgree(OfDeal, d.deals.Keys, a, b)))
  {
    ChangesPermuted(d.stateChanges, a, b);
    if AfterDeals(d, a).Some? {
      KnownPermuted(IsDealUpdate, DealOf, a, b, d.deals.Keys);
    }
    if AfterDeals(e, b).Some? {
      KnownPermuted(IsDealUpdate, DealOf, b, a, d.deals.Keys);
    }
    assert Rearranged(IsMarketLog, a, b);
    DealsAgreeIff(d.deals, a, b);
  }

  // ---------------------------------------------------------------- the whole batch

  ghost function ThroughRegistry(db: Tables, logs: seq<Log>): Option<Tables> {
    var d := Registered(db, Filter(IsRegistration, logs));
    if d.None? then None else AfterRegistry(d.value, Filter(IsRegistryUpdate, logs))
  }

  ghost function ThroughProposals(allDeals: map<Id, Terms>, db: Tables, logs: seq<Log>): Option<Tables> {
    var d := ThroughRegistry(db, logs);
    if d.None? then None else AfterProposals(allDeals, d.value, Filter(IsProposal, logs))
  }

  ghost function ThroughDeals(allDeals: map<Id, Terms>, db: Tables, logs: seq<Log>): Option<Tables> {
    var d := ThroughProposals(allDeals, db, logs);
    if d.None? then None else AfterDeals(d.value, Filter(IsDealUpdate, logs))
  }

  lemma WriteOrderGoesThrough(allDeals: map<Id, Terms>, db: Tables, logs: seq<Log>)
    ensures Replay(allDeals, db, WriteOrder(logs)) == ThroughDeals(allDeals, db, logs)
  {
    var r, u, p, m := Filter(IsRegistration, logs), Filter(IsRegistryUpdate, logs),
                      Filter(IsProposal, logs), Filter(IsDealUpdate, logs);
    FilterKeeps(IsRegistration, logs);
    FilterKeeps(IsRegistryUpdate, logs);
    FilterKeeps(IsProposal, logs);
    FilterKeeps(IsDealUpdate, logs);
    ReplayConcat(allDeals, db, r, u);
    ReplayConcat(allDeals, db, r + u, p);
    ReplayConcat(allDeals, db, r + u + p, m);
    ReplayRegistrations(allDeals, db, r);
    var d := Registered(db, r);
    if d.Some? {
      ReplayRegistryUpdates(allDeals, d.value, u);
    }
    var e := ThroughRegistry(db, logs);
    if e.Some? {
      ReplayProposals(allDeals, e.value, p);
    }
    var f := ThroughProposals(allDeals, db, logs);
    if f.Some? {
      ReplayDealUpdates(allDeals, f.value, m);
    }
  }

  /** The same logs of each class, in two orders; foreign logs do not matter. */
  ghost predicate SameClasses(a: seq<Log>, b: seq<Log>) {
    && multiset(Filter(IsRegistration, a)) == multiset(Filter(IsRegistration, b))
    && multiset(Filter(IsRegistryUpdate, a)) == multiset(Filter(IsRegistryUpdate, b))
    && multiset(Filter(IsProposal, a)) == multiset(Filter(IsProposal, b))
    && multiset(Filter(IsDealUpdate, a)) == multiset(Filter(IsDealUpdate, b))
  }

  lemma PermutedClasses(a: seq<Log>, b: seq<Log>)
    requires multiset(a) == multiset(b)
    ensures SameClasses(a, b)
  {
    FilterPermuted(IsRegistration, a, b);
    FilterPermuted(IsRegistryUpdate, a, b);
    FilterPermuted(IsProposal, a, b);
    FilterPermuted(IsDealUpdate, a, b);
  }

  // ---------------------------------------------------------------- writes to known rows

  /** Only logs of this kind write to the table. */
  ghost predicate Writers(owner: Owner, q: Log -> bool) {
    forall log: Log, c: Column, id: Id :: OwnerOf(c) == owner && Written(c, id, log).Some? ==> q(log)
  }

  /** Rows that no log names are written by none. */
  lemma UnknownRowUnwritten(
      owner: Owner, q: Log -> bool, key: Log -> Id, logs: seq<Log>, ids: set<Id>, id: Id, c: Column)
    requires Names(owner, key) && Writers(owner, q) && KnownLogs(q, key, logs, ids) && id !in ids && OwnerOf(c) == owner
    ensures LastWrite(c, id, logs) == None
  {
    SomethingWritten(Writer(c, id), logs);
    forall log | log in logs ensures Written(c, id, log) == None {
      var i :| 0 <= i < |logs| && logs[i] == log;
      assert q(log) ==> key(log) in ids;
    }
  }

  /** All rows of a table are written alike exactly when the known ones are. */
  lemma KnownRowsDecide(
      owner: Owner, q: Log -> bool, p: Log -> bool, key: Log -> Id, a: seq<Log>, b: seq<Log>, ids: set<Id>)
    requires Names(owner, key) && Writers(owner, q) && Writers(owner, p)
    requires KnownLogs(q, key, Filter(p, a), ids) && KnownLogs(q, key, Filter(p, b), ids)
    ensures TableWritesAgree(owner, ids, Filter(p, a), Filter(p, b)) <==> forall id: Id :: SameRowWrites(owner, id, a, b)
  {
    forall id: Id ensures SameRowWrites(owner, id, Filter(p, a), Filter(p, b)) <==> SameRowWrites(owner, id, a, b) {
      forall c: Column | OwnerOf(c) == owner
        ensures LastWrite(c, id, Filter(p, a)) == LastWrite(c, id, a)
        ensures LastWrite(c, id, Filter(p, b)) == LastWrite(c, id, b)
      {
        LastSelected(p, Writer(c, id), a);
        LastSelected(p, Writer(c, id), b);
      }
    }
    forall id: Id | id !in ids ensures SameRowWrites(owner, id, Filter(p, a), Filter(p, b)) {
      forall c: Column | OwnerOf(c) == owner ensures LastWrite(c, id, Filter(p, a)) == LastWrite(c, id, Filter(p, b)) {
        UnknownRowUnwritten(owner, q, key, Filter(p, a), ids, id, c);
        UnknownRowUnwritten(owner, q, key, Filter(p, b), ids, id, c);
      }
    }
    assert TableWritesAgree(owner, ids, Filter(p, a), Filter(p, b))
      <==> forall id: Id :: SameRowWrites(owner, id, Filter(p, a), Filter(p, b));
  }

  lemma RegistryWritesDecide(db: Tables, a: seq<Log>, b: seq<Log>)
    requires AfterRegistry(db, Filter(IsRegistryUpdate, a)).Some? && AfterRegistry(db, Filter(IsRegistryUpdate, b)).Some?
    ensures TableWritesAgree(OfProvider, db.providers.Keys, Filter(IsRegistryUpdate, a), Filter(IsRegistryUpdate, b))
       <==> forall id: Id :: SameRowWrites(OfProvider, id, a, b)
    ensures TableWritesAgree(OfCapabilities, db.capabilities.Keys, Filter(IsRegistryUpdate, a), Filter(IsRegistryUpdate, b))
       <==> forall id: Id :: SameRowWrites(OfCapabilities, id, a, b)
  {
    KnownRowsDecide(OfProvider, IsRegistryUpdate, IsRegistryUpdate, ProviderOf, a, b, db.providers.Keys);
    KnownRowsDecide(OfCapabilities, IsCapabilitiesLog, IsRegistryUpdate, ProviderOf, a, b, db.capabilities.Keys);
  }

  lemma DealWritesDecide(db: Tables, a: seq<Log>, b: seq<Log>)
    requires AfterDeals(db, Filter(IsDealUpdate, a)).Some? && KnownLogs(IsDealUpdate, DealOf, Filter(IsDealUpdate, b), db.deals.Keys)
    ensures TableWritesAgree(OfDeal, db.deals.Keys, Filter(IsDealUpdate, a), Filter(IsDealUpdate, b))
       <==> forall id: Id :: SameRowWrites(OfDeal, id, a, b)
  {
    KnownRowsDecide(OfDeal, IsDealUpdate, IsDealUpdate, DealOf, a, b, db.deals.Keys);
  }

  lemma LastWritesByOwner(a: seq<Log>, b: seq<Log>)
    ensures SameLastWrites(a, b)
       <==> (forall id: Id :: SameRowWrites(OfProvider, id, a, b))
            && (forall id: Id :: SameRowWrites(OfCapabilities, id, a, b))
            && (forall id: Id :: SameRowWrites(OfDeal, id, a, b))
  {
    if (forall id: Id :: SameRowWrites(OfProvider, id, a, b)) && (forall id: Id :: SameRowWrites(OfCapabilities, id, a, b))
       && (forall id: Id :: SameRowWrites(OfDeal, id, a, b)) {
      forall owner: Owner, id: Id ensures SameRowWrites(owner, id, a, b) {
        match owner
        case OfProvider =>
        case OfCapabilities =>
        case OfDeal =>
      }
    }
  }

  lemma RegistryStagesAgree(db: Tables, a: seq<Log>, b: seq<Log>)
    requires SameClasses(a, b)
    ensures var x, y := ThroughRegistry(db, a), ThroughRegistry(db, b);
      && (x.Some? <==> y.Some?)
      && (x.Some? ==> SameButValues(x.value, y.value))
      && (x.Some? ==> (x.value.providers == y.value.providers && x.value.capabilities == y.value.capabilities
                       <==> (forall id: Id :: SameRowWrites(OfProvider, id, a, b))
                            && (forall id: Id :: SameRowWrites(OfCapabilities, id, a, b))))
  {
    RegisteredPermuted(db, Filter(IsRegistration, a), Filter(IsRegistration, b));
    FilterKeeps(IsRegistryUpdate, a);
    FilterKeeps(IsRegistryUpdate, b);
    var d := Registered(db, Filter(IsRegistration, a));
    if d.Some? {
      RegistryPermuted(d.value, Filter(IsRegistryUpdate, a), Filter(IsRegistryUpdate, b));
      if ThroughRegistry(db, a).Some? {
        RegistryWritesDecide(d.value, a, b);
      }
    }
  }

  lemma StagesAgreeIff(allDeals: map<Id, Terms>, db: Tables, a: seq<Log>, b: seq<Log>)
    requires SameClasses(a, b)
    ensures var x, y := ThroughDeals(allDeals, db, a), ThroughDeals(allDeals, db, b);
      (x.Some? <==> y.Some?) && (x.Some? ==> (x == y <==> SameLastWrites(a, b)))
  {
    RegistryStagesAgree(db, a, b);
    var d, e := ThroughRegistry(db, a), ThroughRegistry(db, b);
    if d.Some? {
      ProposalsPermuted(allDeals, d.value, e.value, Filter(IsProposal, a), Filter(IsProposal, b));
      var f, g := ThroughProposals(allDeals, db, a), ThroughProposals(allDeals, db, b);
      if f.Some? {
        FilterKeeps(IsDealUpdate, a);
        FilterKeeps(IsDealUpdate, b);
        DealsPermuted(f.value, g.value, Filter(IsDealUpdate, a), Filter(IsDealUpdate, b));
        if ThroughDeals(allDeals, db, a).Some? {
          DealWritesDecide(f.value, a, b);
          LastWritesByOwner(a, b);
        }
      }
    }
  }

  /**
   * Two orders of the same logs are committed or refused together, and leave the same tables exactly when
   * they write the same value last into every column of every row.
   */
  lemma PermutedBatchAgreesIff(allDeals: map<Id, Terms>, db: Tables, a: seq<Log>, b: seq<Log>)
    requires SameClasses(a, b)
    ensures var x, y := Replay(allDeals, db, WriteOrder(a)), Replay(allDeals, db, WriteOrder(b));
      (x.Some? <==> y.Some?) && (x.Some? ==> (x == y <==> SameLastWrites(a, b)))
  {
    WriteOrderGoesThrough(allDeals, db, a);
    WriteOrderGoesThrough(allDeals, db, b);
    StagesAgreeIff(allDeals, db, a, b);
  }

  /**
   * One batch, fetched as `logs` with every registration and proposal before its events, and sorted in any
   * way: the transaction fails exactly when replaying the chain does, and stores what replaying the chain
   * stores exactly when the sort leaves the last value written into every column the same.
   */
  lemma SortedBatchIsReplayIff(
      allDeals: map<Id, Terms>, db: Tables, logs: seq<Log>, sorted: seq<Log>, order: GroupOrder)
    requires ValidOrder(order, sorted) && InOrder(logs) && multiset(sorted) == multiset(logs)
    ensures var batch, replay := ExecuteAll(db, PrepareUpdates(sorted, order, allDeals)), Replay(allDeals, db, logs);
      && (batch.Some? <==> replay.Some?)
      && (batch.Some? ==> (batch == replay <==> SameLastWrites(sorted, logs)))
  {
    BatchIsReplayInWriteOrder(allDeals, db, sorted, order);
    WriteOrderIsChainOrder(allDeals, db, logs);
    PermutedClasses(sorted, logs);
    PermutedBatchAgreesIff(allDeals, db, sorted, logs);
  }

  ghost predicate StoredPaused(d: Option<Tables>, id: Id, paused: bool) {
    d.Some? && id in d.value.providers && d.value.providers[id].paused == paused
  }

  lemma LastPauseWins(allDeals: map<Id, Terms>, db: Tables, x: Log, y: Log, id: Id)
    requires IsRegistryUpdate(x) && IsRegistryUpdate(y) && ProviderOf(x) == ProviderOf(y) == id && id in db.providers
    requires x.event.ProviderPaused? || x.event.ProviderUnpaused?
    requires y.event.ProviderPaused? || y.event.ProviderUnpaused?
    ensures StoredPaused(Replay(allDeals, db, [x, y]), id, y.event.ProviderPaused?)
  {
    ReplayPair(allDeals, db, x, y);
  }

  /** A pause and a later unpause in one batch: sorted the other way round, the provider stays paused. */
  lemma UnpausedStoredAsPaused(allDeals: map<Id, Terms>, db: Tables, order: GroupOrder, pause: Log, unpause: Log)
    requires pause == Log(SPRegistry, ProviderPaused(7), 10) && unpause == Log(SPRegistry, ProviderUnpaused(7), 20)
    requires 7 in db.providers && ValidOrder(order, [unpause, pause])
    ensures StoredPaused(ExecuteAll(db, PrepareUpdates([unpause, pause], order, allDeals)), 7, true)
    ensures StoredPaused(Replay(allDeals, db, [pause, unpause]), 7, false)
  {
    BatchIsReplayInWriteOrder(allDeals, db, [unpause, pause], order);
    WriteOrderOfPair(unpause, pause);
    LastPauseWins(allDeals, db, unpause, pause, 7);
    LastPauseWins(allDeals, db, pause, unpause, 7);
  }

  // ---------------------------------------------------------------- many batches

  ghost predicate NothingCreated(a: seq<Log>, b: seq<Log>) {
    forall x, y :: x in b && y in a ==> !Creates(x, y)
  }

  lemma InOrderConcat(a: seq<Log>, b: seq<Log>)
    requires InOrder(a) && InOrder(b) && NothingCreated(a, b)
    ensures InOrder(a + b)
  {
    var all := a + b;
    forall i, j | 0 <= i < j < |all| ensures !Creates(all[j], all[i]) {
      if j < |a| {
        assert !Creates(a[j], a[i]);
      } else if i >= |a| {
        assert !Creates(b[j - |a|], b[i - |a|]);
      } else {
        assert b[j - |a|] in b && a[i] in a;
      }
    }
  }

  lemma InOrderSeparates(a: seq<Log>, b: seq<Log>)
    requires InOrder(a + b)
    ensures NothingCreated(a, b)
  {
    var all := a + b;
    forall x, y | x in b && y in a ensures !Creates(x, y) {
      var i :| 0 <= i < |a| && a[i] == y;
      var j :| 0 <= j < |b| && b[j] == x;
      assert all[i] == y && all[|a| + j] == x;
    }
  }

  lemma OneClassInOrder(p: Log -> bool, n: nat, logs: seq<Log>)
    requires forall log :: p(log) ==> Rank(log) == n
    ensures InOrder(Filter(p, logs))
  {
    FilterKeeps(p, logs);
    var f := Filter(p, logs);
    forall i, j | 0 <= i < j < |f| ensures !Creates(f[j], f[i]) {
      assert p(f[i]) && p(f[j]);
    }
  }

  lemma ClassesSeparate(p: Log -> bool, n: nat, a: seq<Log>, logs: seq<Log>)
    requires forall log :: p(log) ==> Rank(log) == n
    requires forall y :: y in a ==> Rank(y) <= n
    ensures NothingCreated(a, Filter(p, logs))
  {
  }

  /** Written by class, creations come before what they create. */
  lemma WriteOrderInOrder(logs: seq<Log>)
    ensures InOrder(WriteOrder(logs))
  {
    var r, u, p, m := Filter(IsRegistration, logs), Filter(IsRegistryUpdate, logs),
                      Filter(IsProposal, logs), Filter(IsDealUpdate, logs);
    OneClassInOrder(IsRegistration, 0, logs);
    OneClassInOrder(IsRegistryUpdate, 1, logs);
    OneClassInOrder(IsProposal, 2, logs);
    OneClassInOrder(IsDealUpdate, 3, logs);
    ClassesSeparate(IsRegistryUpdate, 1, r, logs);
    InOrderConcat(r, u);
    ClassesSeparate(IsProposal, 2, r + u, logs);
    InOrderConcat(r + u, p);
    ClassesSeparate(IsDealUpdate, 3, r + u + p, logs);
    InOrderConcat(r + u + p, m);
  }

  lemma {:induction false} WriteOrdersMembers(batches: seq<seq<Log>>, log: Log)
    requires log in WriteOrders(batches)
    ensures log in Flatten(batches)
  {
    if batches == [] {
    } else if log in WriteOrders(batches[..|batches| - 1]) {
      WriteOrdersMembers(batches[..|batches| - 1], log);
    }
  }

  /** Batches cut from an ordered chain are written in an order that is again ordered. */
  lemma {:induction false} WriteOrdersInOrder(batches: seq<seq<Log>>, pieces: seq<seq<Log>>)
    requires SamePieces(batches, pieces) && InOrder(Flatten(pieces))
    ensures InOrder(WriteOrders(batches))
  {
    if batches == [] {
    } else {
      var n := |batches| - 1;
      var before, last := Flatten(pieces[..n]), pieces[n];
      SamePiecesInit(batches, pieces);
      InOrderParts(before, last);
      WriteOrdersInOrder(batches[..n], pieces[..n]);
      WriteOrderInOrder(batches[n]);
      InOrderSeparates(before, last);
      SamePiecesFlatten(batches[..n], pieces[..n]);
      forall x, y | x in WriteOrder(batches[n]) && y in WriteOrders(batches[..n]) ensures !Creates(x, y) {
        WriteOrdersMembers(batches[..n], y);
        PermutedMembers(Flatten(batches[..n]), before, y);
        PermutedMembers(batches[n], last, x);
      }
      InOrderConcat(WriteOrders(batches[..n]), WriteOrder(batches[n]));
    }
  }

  lemma WriteOrderOfWriteOrders(batches: seq<seq<Log>>)
    ensures WriteOrder(WriteOrders(batches)) == WriteOrder(Flatten(batches))
  {
    FilterWriteOrders(IsRegistration, 0, batches);
    FilterWriteOrders(IsRegistryUpdate, 1, batches);
    FilterWriteOrders(IsProposal, 2, batches);
    FilterWriteOrders(IsDealUpdate, 3, batches);
  }

  /**
   * Any number of batches cut from an ordered chain, each sorted in any way: they are committed exactly when
   * replaying the chain succeeds, and leave what that leaves exactly when the last value written into every
   * column of every row is the same in the order of committing as in the chain.
   */
  lemma SortedBatchesAreReplayIff(
      allDeals: map<Id, Terms>, orderOf: seq<Log> -> GroupOrder, db: Tables, batches: seq<seq<Log>>, pieces: seq<seq<Log>>)
    requires ValidOrders(orderOf) && SamePieces(batches, pieces) && InOrder(Flatten(pieces))
    ensures var batched, replayed := RunBatches(allDeals, orderOf, db, batches), Replay(allDeals, db, Flatten(pieces));
      && (batched.Some? <==> replayed.Some?)
      && (batched.Some? ==> (batched == replayed <==> SameLastWrites(Flatten(batches), Flatten(pieces))))
  {
    BatchesAreReplayInWriteOrder(allDeals, orderOf, db, batches);
    WriteOrdersInOrder(batches, pieces);
    WriteOrderIsChainOrder(allDeals, db, WriteOrders(batches));
    WriteOrderOfWriteOrders(batches);
    WriteOrderIsChainOrder(allDeals, db, Flatten(pieces));
    SamePiecesFlatten(batches, pieces);
    PermutedClasses(Flatten(batches), Flatten(pieces));
    PermutedBatchAgreesIff(allDeals, db, Flatten(batches), Flatten(pieces));
  }

  /** It is enough that every batch keeps the last writes of its own piece. */
  lemma {:induction false} EachKeepsLastWrites(batches: seq<seq<Log>>, pieces: seq<seq<Log>>)
    requires |batches| == |pieces| && forall i :: 0 <= i < |batches| ==> SameLastWrites(batches[i], pieces[i])
    ensures SameLastWrites(Flatten(batches), Flatten(pieces))
  {
    if batches == [] {
    } else {
      var n := |batches| - 1;
      EachKeepsLastWrites(batches[..n], pieces[..n]);
      forall owner: Owner, id: Id ensures SameRowWrites(owner, id, Flatten(batches), Flatten(pieces)) {
        assert SameRowWrites(owner, id, batches[n], pieces[n]);
        assert SameRowWrites(owner, id, Flatten(batches[..n]), Flatten(pieces[..n]));
        forall c: Column | OwnerOf(c) == owner ensures LastWrite(c, id, Flatten(batches)) == LastWrite(c, id, Flatten(pieces)) {
          LastConcat(Writer(c, id), Flatten(batches[..n]), batches[n]);
          LastConcat(Writer(c, id), Flatten(pieces[..n]), pieces[n]);
        }
      }
    }
  }
}
