/**
 * Indexing a log sequence batch by batch against replaying it log by log, and what holds of the tables
 * of the providers-and-deals indexer after any number of batches.
 */
module ProvidersAndDealsReplay {
  import opened Wrappers
  import opened Sequences
  import opened GroupedUpdates
  import opened ProvidersAndDealsTables
  import opened ProvidersAndDealsIndexer

  // ---------------------------------------------------------------- chain order

  /** `x` adds the row that `y` needs. */
  predicate Creates(x: Log, y: Log) {
    || (IsRegistration(x) && IsRegistryUpdate(y) && ProviderOf(x) == ProviderOf(y))
    || (IsRegistration(x) && IsProposal(y) && ProviderOf(x) == ProposedProvider(y))
    || (IsProposal(x) && IsDealUpdate(y) && DealOf(x) == DealOf(y))
  }

  /** No event comes before the registration or proposal of what it is about. */
  ghost predicate InOrder(logs: seq<Log>) {
    forall i, j :: 0 <= i < j < |logs| ==> !Creates(logs[j], logs[i])
  }

  /** The class whose effects are written together; foreign logs have none. */
  function Rank(log: Log): nat {
    if IsRegistration(log) then 0
    else if IsRegistryUpdate(log) then 1
    else if IsProposal(log) then 2
    else if IsDealUpdate(log) then 3
    else 4
  }

  ghost function Step2(allDeals: map<Id, Terms>, db: Tables, x: Log, y: Log): Option<Tables> {
    var d := Step(allDeals, db, x);
    if d.None? then None else Step(allDeals, d.value, y)
  }

  lemma RegistrationCommutesWithProposal(allDeals: map<Id, Terms>, db: Tables, x: Log, y: Log)
    requires IsRegistration(x) && IsProposal(y) && ProviderOf(x) != ProposedProvider(y)
    ensures Step2(allDeals, db, y, x) == Step2(allDeals, db, x, y)
  {
  }

  lemma RegistryCommutesWithDealUpdate(allDeals: map<Id, Terms>, db: Tables, x: Log, y: Log)
    requires IsRegistryLog(x) && IsDealUpdate(y)
    ensures Step2(allDeals, db, y, x) == Step2(allDeals, db, x, y)
  {
  }

  /** A registry event does not notice a row added for another provider. */
  lemma RegistryStepIgnores(providers: map<Id, Provider>, capabilities: map<Id, Capabilities>, y: Log, p: Id,
                            row: Provider, c: Capabilities)
    requires !IsRegistration(y) && ProviderOf(y) != p
    ensures RegistryStep(providers[p := row], capabilities[p := c], y)
         == var t := RegistryStep(providers, capabilities, y);
            if t.None? then None else Some((t.value.0[p := row], t.value.1[p := c]))
  {
    var q := ProviderOf(y);
    if q in providers {
      var changed := ProviderStep(providers[q], y);
      assert providers[p := row][q := changed] == providers[q := changed][p := row];
    }
    if IsCapabilitiesLog(y) {
      var changed := y.event.capabilities;
      assert capabilities[p := c][q := changed] == capabilities[q := changed][p := c];
    }
  }

  lemma RegistrationCommutesWithUpdate(allDeals: map<Id, Terms>, db: Tables, x: Log, y: Log)
    requires IsRegistration(x) && IsRegistryUpdate(y) && ProviderOf(x) != ProviderOf(y)
    ensures Step2(allDeals, db, y, x) == Step2(allDeals, db, x, y)
  {
    RegistryStepIgnores(db.providers, db.capabilities, y, ProviderOf(x),
                        NewProvider(x.event.organization, x.blockNumber), NO_CAPABILITIES);
  }

  lemma UpdateCommutesWithProposal(allDeals: map<Id, Terms>, db: Tables, x: Log, y: Log)
    requires IsRegistryUpdate(x) && IsProposal(y)
    ensures Step2(allDeals, db, y, x) == Step2(allDeals, db, x, y)
  {
  }

  /** A deal event does not notice another deal. */
  lemma MarketStepIgnores(deals: map<Id, Deal>, changes: map<ChangeKey, nat>, y: Log, d: Id, row: Deal)
    requires IsMarketLog(y) && DealOf(y) != d
    ensures MarketStep(deals[d := row], changes, y)
         == var t := MarketStep(deals, changes, y); if t.None? then None else Some((t.value.0[d := row], t.value.1))
  {
    var e := DealOf(y);
    if e in deals {
      var changed := DealStep(deals[e], y);
      assert deals[d := row][e := changed] == deals[e := changed][d := row];
    }
  }

  lemma ProposalCommutesWithDealUpdate(allDeals: map<Id, Terms>, db: Tables, x: Log, y: Log)
    requires IsProposal(x) && IsDealUpdate(y) && DealOf(x) != DealOf(y)
    ensures Step2(allDeals, db, y, x) == Step2(allDeals, db, x, y)
  {
    MarketStepIgnores(db.deals, db.stateChanges, y, DealOf(x), ProposedDeal(x.event));
  }

  /** Steps of different classes commute, success or failure, unless one creates the other's row. */
  lemma StepsCommute(allDeals: map<Id, Terms>, db: Tables, x: Log, y: Log)
    requires Rank(x) < Rank(y) < 4
    requires !Creates(x, y)
    ensures Step2(allDeals, db, y, x) == Step2(allDeals, db, x, y)
  {
    if IsRegistration(x) && IsRegistryUpdate(y) {
      RegistrationCommutesWithUpdate(allDeals, db, x, y);
    } else if IsRegistration(x) && IsProposal(y) {
      RegistrationCommutesWithProposal(allDeals, db, x, y);
    } else if IsProposal(x) {
      ProposalCommutesWithDealUpdate(allDeals, db, x, y);
    } else if IsProposal(y) {
      UpdateCommutesWithProposal(allDeals, db, x, y);
    } else {
      RegistryCommutesWithDealUpdate(allDeals, db, x, y);
    }
  }

  /** All these logs are of later classes than `x`, and `x` creates the row of none. */
  ghost predicate Passes(x: Log, later: seq<Log>) {
    later == []
    || (Passes(x, later[..|later| - 1])
        && Rank(x) < Rank(later[|later| - 1]) < 4 && !Creates(x, later[|later| - 1]))
  }

  lemma {:induction false} PassesEach(x: Log, later: seq<Log>)
    requires forall y :: y in later ==> Rank(x) < Rank(y) < 4 && !Creates(x, y)
    ensures Passes(x, later)
  {
    if later == [] {
    } else {
      PassesEach(x, later[..|later| - 1]);
    }
  }

  /** The last step of a replay passes over the one before it. */
  lemma PassOver(allDeals: map<Id, Terms>, db: Tables, init: seq<Log>, x: Log, y: Log)
    requires Rank(x) < Rank(y) < 4 && !Creates(x, y)
    requires Replay(allDeals, db, init + [x]) == Replay(allDeals, db, [x] + init)
    ensures Replay(allDeals, db, (init + [y]) + [x]) == Replay(allDeals, db, ([x] + init) + [y])
  {
    ReplaySnoc(allDeals, db, init, x);
    ReplaySnoc(allDeals, db, init, y);
    ReplaySnoc(allDeals, db, init + [y], x);
    ReplaySnoc(allDeals, db, [x] + init, y);
    var d := Replay(allDeals, db, init);
    if d.Some? {
      StepsCommute(allDeals, d.value, x, y);
    }
  }

  /** A log moves to the front of logs written later than it, none of which it creates the row of. */
  lemma {:induction false} MoveToFront(allDeals: map<Id, Terms>, db: Tables, later: seq<Log>, x: Log)
    requires Passes(x, later)
    ensures Replay(allDeals, db, later + [x]) == Replay(allDeals, db, [x] + later)
  {
    if later == [] {
      assert later + [x] == [x] + later;
    } else {
      var init, y := later[..|later| - 1], later[|later| - 1];
      MoveToFront(allDeals, db, init, x);
      PassOver(allDeals, db, init, x, y);
      assert init + [y] == later;
      Associative([x], init, [y]);
    }
  }

  /** Logs written no later than class `r`, and logs written after it. */
  function WrittenUpTo(r: nat, logs: seq<Log>): seq<Log> {
    Filter(IsRegistration, logs)
    + (if r >= 1 then Filter(IsRegistryUpdate, logs) else [])
    + (if r >= 2 then Filter(IsProposal, logs) else [])
    + (if r >= 3 then Filter(IsDealUpdate, logs) else [])
  }

  function WrittenAfter(r: nat, logs: seq<Log>): seq<Log> {
    (if r < 1 then Filter(IsRegistryUpdate, logs) else [])
    + (if r < 2 then Filter(IsProposal, logs) else [])
    + (if r < 3 then Filter(IsDealUpdate, logs) else [])
  }

  lemma WriteOrderSplits(r: nat, logs: seq<Log>)
    ensures WriteOrder(logs) == WrittenUpTo(r, logs) + WrittenAfter(r, logs)
  {
  }

  lemma Associate(r: seq<Log>, u: seq<Log>, p: seq<Log>, m: seq<Log>, x: Log)
    ensures (r + [x]) + u + p + m == r + [x] + (u + p + m)
    ensures r + (u + [x]) + p + m == (r + u) + [x] + (p + m)
    ensures r + u + (p + [x]) + m == (r + u + p) + [x] + m
    ensures r + u + p + (m + [x]) == (r + u + p + m) + [x]
  {
  }

  lemma WrittenParts(n: nat, logs: seq<Log>)
    requires n < 4
    ensures var r, u, p, m := Filter(IsRegistration, logs), Filter(IsRegistryUpdate, logs),
                              Filter(IsProposal, logs), Filter(IsDealUpdate, logs);
      && WrittenUpTo(n, logs) == (if n == 0 then r else if n == 1 then r + u else if n == 2 then r + u + p else r + u + p + m)
      && WrittenAfter(n, logs) == (if n == 0 then u + p + m else if n == 1 then p + m else if n == 2 then m else [])
  {
  }

  /** The last log of a batch is written after its class and before the later classes. */
  lemma WriteOrderSnoc(logs: seq<Log>, x: Log)
    ensures Rank(x) == 4 ==> WriteOrder(logs + [x]) == WriteOrder(logs)
    ensures Rank(x) < 4 ==> WriteOrder(logs + [x]) == WrittenUpTo(Rank(x), logs) + [x] + WrittenAfter(Rank(x), logs)
  {
    var r, u, p, m := Filter(IsRegistration, logs), Filter(IsRegistryUpdate, logs),
                      Filter(IsProposal, logs), Filter(IsDealUpdate, logs);
    FilterSnoc(IsRegistration, logs, x);
    FilterSnoc(IsRegistryUpdate, logs, x);
    FilterSnoc(IsProposal, logs, x);
    FilterSnoc(IsDealUpdate, logs, x);
    Associate(r, u, p, m, x);
    if Rank(x) < 4 {
      assert WriteOrder(logs + [x])
          == if Rank(x) == 0 then (r + [x]) + u + p + m
             else if Rank(x) == 1 then r + (u + [x]) + p + m
             else if Rank(x) == 2 then r + u + (p + [x]) + m
             else r + u + p + (m + [x]);
      WrittenParts(Rank(x), logs);
    }
  }

  lemma WrittenAfterRanks(r: nat, logs: seq<Log>)
    ensures forall i :: 0 <= i < |WrittenAfter(r, logs)| ==>
      r < Rank(WrittenAfter(r, logs)[i]) < 4 && WrittenAfter(r, logs)[i] in logs
  {
    var w := WrittenAfter(r, logs);
    forall i | 0 <= i < |w| ensures r < Rank(w[i]) < 4 && w[i] in logs {
      assert w[i] in w;
    }
  }

  lemma {:induction false} FilterNone(q: Log -> bool, logs: seq<Log>)
    requires forall i :: 0 <= i < |logs| ==> !q(logs[i])
    ensures Filter(q, logs) == []
  {
    if logs == [] {
    } else {
      FilterNone(q, logs[..|logs| - 1]);
    }
  }

  lemma FilterKept(q: Log -> bool, a: seq<Log>, x: Log, b: seq<Log>)
    requires q(x) && Filter(q, b) == []
    ensures Filter(q, a + [x] + b) == Filter(q, a + b) + [x]
  {
    FilterConcat(q, a, b);
    FilterConcat(q, a + [x], b);
    FilterSnoc(q, a, x);
  }

  lemma FilterDropped(q: Log -> bool, a: seq<Log>, x: Log, b: seq<Log>)
    requires !q(x)
    ensures Filter(q, a + [x] + b) == Filter(q, a + b)
  {
    FilterConcat(q, a, b);
    FilterConcat(q, a + [x], b);
    FilterSnoc(q, a, x);
  }

  lemma NoneAfter(q: Log -> bool, n: nat, logs: seq<Log>)
    requires n < 4 && forall log :: q(log) ==> Rank(log) == n
    ensures Filter(q, WrittenAfter(n, logs)) == []
  {
    WrittenAfterRanks(n, logs);
    FilterNone(q, WrittenAfter(n, logs));
  }

  lemma FilterWriteOrderSnoc(q: Log -> bool, n: nat, logs: seq<Log>, x: Log)
    requires n < 4 && forall log :: q(log) ==> Rank(log) == n
    ensures Filter(q, WriteOrder(logs + [x])) == Filter(q, WriteOrder(logs)) + (if q(x) then [x] else [])
  {
    WriteOrderSnoc(logs, x);
    if Rank(x) < 4 {
      var a, b := WrittenUpTo(Rank(x), logs), WrittenAfter(Rank(x), logs);
      WriteOrderSplits(Rank(x), logs);
      if q(x) {
        NoneAfter(q, n, logs);
        FilterKept(q, a, x, b);
      } else {
        FilterDropped(q, a, x, b);
      }
    }
  }

  /** Writing by class keeps the order of the logs within a class. */
  lemma {:induction false} FilterWriteOrder(q: Log -> bool, n: nat, logs: seq<Log>)
    requires n < 4 && forall log :: q(log) ==> Rank(log) == n
    ensures Filter(q, WriteOrder(logs)) == Filter(q, logs)
  {
    if logs == [] {
    } else {
      var init, x := logs[..|logs| - 1], logs[|logs| - 1];
      assert logs == init + [x];
      FilterWriteOrder(q, n, init);
      FilterSnoc(q, init, x);
      FilterWriteOrderSnoc(q, n, init, x);
    }
  }

  lemma MoveAcross(allDeals: map<Id, Terms>, db: Tables, a: seq<Log>, later: seq<Log>, x: Log)
    requires Passes(x, later)
    ensures Replay(allDeals, db, a + [x] + later) == Replay(allDeals, db, a + later + [x])
  {
    ReplayConcat(allDeals, db, a, later + [x]);
    ReplayConcat(allDeals, db, a, [x] + later);
    Associative(a, later, [x]);
    Associative(a, [x], later);
    var d := Replay(allDeals, db, a);
    if d.Some? {
      MoveToFront(allDeals, d.value, later, x);
    }
  }

  /** One more log may be written last, if it creates nothing the others need. */
  lemma WriteOrderTakesLast(allDeals: map<Id, Terms>, db: Tables, logs: seq<Log>, x: Log)
    requires forall y :: y in logs ==> !Creates(x, y)
    ensures Replay(allDeals, db, WriteOrder(logs + [x])) == Replay(allDeals, db, WriteOrder(logs) + [x])
  {
    WriteOrderSnoc(logs, x);
    if Rank(x) == 4 {
      ReplaySnoc(allDeals, db, WriteOrder(logs), x);
    } else {
      var r := Rank(x);
      WriteOrderSplits(r, logs);
      WrittenAfterRanks(r, logs);
      PassesEach(x, WrittenAfter(r, logs));
      MoveAcross(allDeals, db, WrittenUpTo(r, logs), WrittenAfter(r, logs), x);
    }
  }

  lemma InOrderInit(logs: seq<Log>, x: Log)
    requires InOrder(logs + [x])
    ensures InOrder(logs)
    ensures forall y :: y in logs ==> !Creates(x, y)
  {
    var all := logs + [x];
    forall i, j | 0 <= i < j < |logs| ensures !Creates(logs[j], logs[i]) {
      assert all[i] == logs[i] && all[j] == logs[j];
    }
    forall y | y in logs ensures !Creates(x, y) {
      var i :| 0 <= i < |logs| && logs[i] == y;
      assert all[i] == y && all[|logs|] == x;
    }
  }

  /** For logs in order, writing by class is replaying in chain order. */
  lemma {:induction false} WriteOrderIsChainOrder(allDeals: map<Id, Terms>, db: Tables, logs: seq<Log>)
    requires InOrder(logs)
    ensures Replay(allDeals, db, WriteOrder(logs)) == Replay(allDeals, db, logs)
  {
    if logs == [] {
    } else {
      var init, x := logs[..|logs| - 1], logs[|logs| - 1];
      assert logs == init + [x];
      InOrderInit(init, x);
      WriteOrderIsChainOrder(allDeals, db, init);
      WriteOrderTakesLast(allDeals, db, init, x);
      ReplaySnoc(allDeals, db, WriteOrder(init), x);
      ReplaySnoc(allDeals, db, init, x);
    }
  }

  // ---------------------------------------------------------------- one batch

  lemma StepKeepsRows(allDeals: map<Id, Terms>, db: Tables, log: Log)
    ensures var d := Step(allDeals, db, log);
      d.Some? ==> db.providers.Keys <= d.value.providers.Keys && db.deals.Keys <= d.value.deals.Keys
  {
  }

  lemma {:induction false} ReplayKeepsRows(allDeals: map<Id, Terms>, db: Tables, logs: seq<Log>)
    ensures var d := Replay(allDeals, db, logs);
      d.Some? ==> db.providers.Keys <= d.value.providers.Keys && db.deals.Keys <= d.value.deals.Keys
  {
    if logs == [] {
    } else {
      ReplayKeepsRows(allDeals, db, logs[..|logs| - 1]);
      var d := Replay(allDeals, db, logs[..|logs| - 1]);
      if d.Some? {
        StepKeepsRows(allDeals, d.value, logs[|logs| - 1]);
      }
    }
  }

  /** A row an event found cannot be created any more. */
  lemma CreationFails(allDeals: map<Id, Terms>, before: Tables, y: Log, db: Tables, x: Log)
    requires Creates(x, y) && Step(allDeals, before, y).Some?
    requires before.providers.Keys <= db.providers.Keys && before.deals.Keys <= db.deals.Keys
    ensures Step(allDeals, db, x) == None
  {
  }

  /** Once an event found its row, nothing later can create that row. */
  lemma CreationAfterUseFails(allDeals: map<Id, Terms>, before: Tables, y: Log, between: seq<Log>, x: Log)
    requires Creates(x, y)
    ensures Replay(allDeals, before, [y] + between + [x]) == None
  {
    var first := Step(allDeals, before, y);
    assert Replay(allDeals, before, [y]) == first by { assert [y][..0] == []; }
    ReplayConcat(allDeals, before, [y], between);
    ReplaySnoc(allDeals, before, [y] + between, x);
    if first.Some? {
      StepKeepsRows(allDeals, before, y);
      ReplayKeepsRows(allDeals, first.value, between);
      var d := Replay(allDeals, first.value, between);
      if d.Some? {
        CreationFails(allDeals, before, y, d.value, x);
      }
    }
  }

  /** An event before the creation of its own row makes every replay fail, whatever was stored. */
  lemma OutOfOrderNeverReplays(allDeals: map<Id, Terms>, db: Tables, logs: seq<Log>)
    requires !InOrder(logs)
    ensures Replay(allDeals, db, logs) == None
  {
    var i, j :| 0 <= i < j < |logs| && Creates(logs[j], logs[i]);
    var a, b, c := logs[..i], [logs[i]] + logs[i+1..j] + [logs[j]], logs[j+1..];
    assert logs == a + b + c;
    ReplayConcat(allDeals, db, a + b, c);
    ReplayConcat(allDeals, db, a, b);
    var d := Replay(allDeals, db, a);
    if d.Some? {
      CreationAfterUseFails(allDeals, d.value, logs[i], logs[i+1..j], logs[j]);
    }
  }

  /**
   * One event at a time means the one transaction, failures included, when no event of the batch comes
   * before the creation of its row; when one does, replay fails. So the two agree exactly when the batch is
   * in order or its transaction fails.
   */
  lemma BatchIsReplayExactly(allDeals: map<Id, Terms>, db: Tables, logs: seq<Log>, order: GroupOrder)
    requires ValidOrder(order, logs)
    ensures Replay(allDeals, db, logs)
         == if InOrder(logs) then ExecuteAll(db, PrepareUpdates(logs, order, allDeals)) else None
    ensures Replay(allDeals, db, logs) == ExecuteAll(db, PrepareUpdates(logs, order, allDeals))
       <==> InOrder(logs) || ExecuteAll(db, PrepareUpdates(logs, order, allDeals)) == None
  {
    BatchIsReplayInWriteOrder(allDeals, db, logs, order);
    if InOrder(logs) {
      WriteOrderIsChainOrder(allDeals, db, logs);
    } else {
      OutOfOrderNeverReplays(allDeals, db, logs);
    }
  }

  lemma SingleGroup(key: Log -> Id, x: Log, y: Log)
    requires key(x) == key(y)
    ensures Enumerates([key(x)], key, [x, y]) && Enumerates([], key, [])
  {
    assert key([x, y][0]) == key(x);
  }

  lemma FilterPair(p: Log -> bool, x: Log, y: Log)
    ensures Filter(p, [x, y]) == (if p(x) then [x] else []) + (if p(y) then [y] else [])
  {
    assert [x, y][..1] == [x] && [x][..0] == [];
    assert Filter(p, [x]) == if p(x) then [x] else [];
  }

  lemma PauseBeforeRegister(pause: Log, register: Log)
    requires pause == Log(SPRegistry, ProviderPaused(7), 1) && register == Log(SPRegistry, ProviderRegistered(7, "org"), 2)
    ensures ValidOrder(GroupOrder([7], [], []), [pause, register])
  {
    FilterPair(IsRegistryLog, pause, register);
    FilterPair(IsCapabilitiesLog, pause, register);
    FilterPair(IsMarketLog, pause, register);
    SingleGroup(ProviderOf, pause, register);
    SingleGroup(DealOf, pause, register);
  }

  lemma RegisterWrittenFirst(pause: Log, register: Log)
    requires pause == Log(SPRegistry, ProviderPaused(7), 1) && register == Log(SPRegistry, ProviderRegistered(7, "org"), 2)
    ensures WriteOrder([pause, register]) == [register, pause]
  {
    FilterPair(IsRegistration, pause, register);
    FilterPair(IsRegistryUpdate, pause, register);
    FilterPair(IsProposal, pause, register);
    FilterPair(IsDealUpdate, pause, register);
  }

  lemma RegisterThenPause(allDeals: map<Id, Terms>, register: Log, pause: Log)
    requires IsRegistration(register) && pause.contract.SPRegistry? && pause.event.ProviderPaused?
    requires ProviderOf(register) == ProviderOf(pause)
    ensures Replay(allDeals, EMPTY_TABLES, [register, pause]).Some?
  {
    assert [register, pause][..1] == [register] && [register][..0] == [];
    assert Replay(allDeals, EMPTY_TABLES, [register]) == Step(allDeals, EMPTY_TABLES, register);
  }

  /** A batch that pauses a provider before registering it commits, and yet no replay of it succeeds. */
  lemma BatchMayHideDisorder(allDeals: map<Id, Terms>)
    ensures var pause, register := Log(SPRegistry, ProviderPaused(7), 1), Log(SPRegistry, ProviderRegistered(7, "org"), 2);
            var order := GroupOrder([7], [], []);
      && ValidOrder(order, [pause, register])
      && Replay(allDeals, EMPTY_TABLES, [pause, register]) == None
      && ExecuteAll(EMPTY_TABLES, PrepareUpdates([pause, register], order, allDeals)).Some?
  {
    var pause, register := Log(SPRegistry, ProviderPaused(7), 1), Log(SPRegistry, ProviderRegistered(7, "org"), 2);
    PauseBeforeRegister(pause, register);
    RegisterWrittenFirst(pause, register);
    assert Creates([pause, register][1], [pause, register][0]);
    OutOfOrderNeverReplays(allDeals, EMPTY_TABLES, [pause, register]);
    BatchIsReplayInWriteOrder(allDeals, EMPTY_TABLES, [pause, register], GroupOrder([7], [], []));
    RegisterThenPause(allDeals, register, pause);
  }

  lemma ReplayPair(allDeals: map<Id, Terms>, db: Tables, x: Log, y: Log)
    ensures Replay(allDeals, db, [x, y]) == Step2(allDeals, db, x, y)
  {
    assert [x, y][..1] == [x] && [x][..0] == [];
    assert Replay(allDeals, db, [x]) == Step(allDeals, db, x);
  }

  /** Two logs of ascending classes are written as they come. */
  lemma WriteOrderOfPair(x: Log, y: Log)
    requires Rank(x) <= Rank(y) < 4
    ensures WriteOrder([x, y]) == [x, y]
  {
    FilterPair(IsRegistration, x, y);
    FilterPair(IsRegistryUpdate, x, y);
    FilterPair(IsProposal, x, y);
    FilterPair(IsDealUpdate, x, y);
  }

  // ---------------------------------------------------------------- many batches

  /** How one run of the indexer changes the tables; `None` when its transaction is rolled back. */
  ghost function Commit(allDeals: map<Id, Terms>, orderOf: seq<Log> -> GroupOrder,
                        db: Tables, versionChanged: bool, logs: seq<Log>): Option<Tables> {
    ExecuteAll(db, (if versionChanged then PrepareCleanup() else []) + PrepareUpdates(logs, orderOf(logs), allDeals))
  }

  ghost function RunBatches(allDeals: map<Id, Terms>, orderOf: seq<Log> -> GroupOrder,
                            db: Tables, batches: seq<seq<Log>>): Option<Tables> {
    if batches == [] then Some(db)
    else
      var d := RunBatches(allDeals, orderOf, db, batches[..|batches| - 1]);
      if d.None? then None else Commit(allDeals, orderOf, d.value, false, batches[|batches| - 1])
  }

  ghost predicate ValidOrders(orderOf: seq<Log> -> GroupOrder) {
    forall logs :: ValidOrder(orderOf(logs), logs)
  }

  lemma CommitWithoutCleanup(allDeals: map<Id, Terms>, orderOf: seq<Log> -> GroupOrder, db: Tables, logs: seq<Log>)
    ensures Commit(allDeals, orderOf, db, false, logs) == ExecuteAll(db, PrepareUpdates(logs, orderOf(logs), allDeals))
  {
    assert [] + PrepareUpdates(logs, orderOf(logs), allDeals) == PrepareUpdates(logs, orderOf(logs), allDeals);
  }

  /** With a cleanup, whatever was stored before does not matter. */
  lemma CommitAfterCleanup(allDeals: map<Id, Terms>, orderOf: seq<Log> -> GroupOrder, db: Tables, logs: seq<Log>)
    ensures Commit(allDeals, orderOf, db, true, logs) == Commit(allDeals, orderOf, EMPTY_TABLES, false, logs)
  {
    CleanupEmptiesTables(db);
    ExecuteConcat(db, PrepareCleanup(), PrepareUpdates(logs, orderOf(logs), allDeals));
    CommitWithoutCleanup(allDeals, orderOf, EMPTY_TABLES, logs);
  }

  lemma InOrderParts(a: seq<Log>, b: seq<Log>)
    requires InOrder(a + b)
    ensures InOrder(a) && InOrder(b)
  {
    forall i, j | 0 <= i < j < |a| ensures !Creates(a[j], a[i]) {
      assert (a + b)[i] == a[i] && (a + b)[j] == a[j];
    }
    forall i, j | 0 <= i < j < |b| ensures !Creates(b[j], b[i]) {
      assert (a + b)[|a| + i] == b[i] && (a + b)[|a| + j] == b[j];
    }
  }

  /** Cutting an ordered log sequence into batches anywhere never changes the committed tables. */
  lemma {:induction false} BatchesAreReplay(
      allDeals: map<Id, Terms>, orderOf: seq<Log> -> GroupOrder, db: Tables, batches: seq<seq<Log>>)
    requires ValidOrders(orderOf)
    ensures Replay(allDeals, db, Flatten(batches))
         == if InOrder(Flatten(batches)) then RunBatches(allDeals, orderOf, db, batches) else None
  {
    if !InOrder(Flatten(batches)) {
      OutOfOrderNeverReplays(allDeals, db, Flatten(batches));
    } else if batches != [] {
      var init, logs := batches[..|batches| - 1], batches[|batches| - 1];
      InOrderParts(Flatten(init), logs);
      BatchesAreReplay(allDeals, orderOf, db, init);
      ReplayConcat(allDeals, db, Flatten(init), logs);
      var d := RunBatches(allDeals, orderOf, db, init);
      if d.Some? {
        BatchIsReplayExactly(allDeals, d.value, logs, orderOf(logs));
        CommitWithoutCleanup(allDeals, orderOf, d.value, logs);
      }
    }
  }

  /** What the batches write, in the order it is written, for logs in any order. */
  function WriteOrders(batches: seq<seq<Log>>): seq<Log> {
    if batches == [] then [] else WriteOrders(batches[..|batches| - 1]) + WriteOrder(batches[|batches| - 1])
  }

  lemma {:induction false} FilterWriteOrders(q: Log -> bool, n: nat, batches: seq<seq<Log>>)
    requires n < 4 && forall log :: q(log) ==> Rank(log) == n
    ensures Filter(q, WriteOrders(batches)) == Filter(q, Flatten(batches))
  {
    if batches == [] {
    } else {
      var init, logs := batches[..|batches| - 1], batches[|batches| - 1];
      FilterWriteOrders(q, n, init);
      FilterWriteOrder(q, n, logs);
      FilterConcat(q, WriteOrders(init), WriteOrder(logs));
      FilterConcat(q, Flatten(init), logs);
    }
  }

  lemma {:induction false} BatchesAreReplayInWriteOrder(
      allDeals: map<Id, Terms>, orderOf: seq<Log> -> GroupOrder, db: Tables, batches: seq<seq<Log>>)
    requires ValidOrders(orderOf)
    ensures RunBatches(allDeals, orderOf, db, batches) == Replay(allDeals, db, WriteOrders(batches))
  {
    if batches == [] {
    } else {
      var init, logs := batches[..|batches| - 1], batches[|batches| - 1];
      BatchesAreReplayInWriteOrder(allDeals, orderOf, db, init);
      ReplayConcat(allDeals, db, WriteOrders(init), WriteOrder(logs));
      var d := RunBatches(allDeals, orderOf, db, init);
      if d.Some? {
        BatchIsReplayInWriteOrder(allDeals, d.value, logs, orderOf(logs));
        CommitWithoutCleanup(allDeals, orderOf, d.value, logs);
      }
    }
  }

  // ---------------------------------------------------------------- capacity counters

  /** What a log adds to a provider's committed bytes. */
  function CommittedChange(p: Id, log: Log): int {
    if !IsRegistryLog(log) || ProviderOf(log) != p then 0
    else if log.event.CapacityCommitted? then log.event.committedBytes
    else if log.event.CapacityReleased? then -(log.event.releasedBytes as int)
    else 0
  }

  function PendingChange(p: Id, log: Log): int {
    if !IsRegistryLog(log) || ProviderOf(log) != p then 0
    else if log.event.PendingCapacityReserved? then log.event.sizeBytes
    else if log.event.PendingCapacityReleased? then -(log.event.sizeBytes as int)
    else 0
  }

  ghost function Committed(p: Id): Log -> int {
    log => CommittedChange(p, log)
  }

  ghost function Pending(p: Id): Log -> int {
    log => PendingChange(p, log)
  }

  lemma SumSnoc<T>(f: T -> int, xs: seq<T>, x: T)
    ensures Sum(f, xs + [x]) == Sum(f, xs) + f(x)
  {
    SumConcat(f, xs, [x]);
  }

  ghost predicate CounterMatches(db: Tables, p: Id, logs: seq<Log>) {
    if p in db.providers
    then db.providers[p].committedBytes == Sum(Committed(p), logs) && db.providers[p].pendingBytes == Sum(Pending(p), logs)
    else Sum(Committed(p), logs) == 0 && Sum(Pending(p), logs) == 0
  }

  /** Counters hold the balance of the logs replayed so far; unknown providers have none. */
  ghost predicate CountersMatch(db: Tables, logs: seq<Log>) {
    forall p: Id :: CounterMatches(db, p, logs)
  }

  lemma RowMovesCounters(row: Provider, log: Log)
    requires IsRegistryLog(log)
    ensures ProviderStep(row, log).committedBytes == row.committedBytes + CommittedChange(ProviderOf(log), log)
    ensures ProviderStep(row, log).pendingBytes == row.pendingBytes + PendingChange(ProviderOf(log), log)
  {
  }

  /** Which provider row a step touches, and to what. */
  lemma StepOnProviders(allDeals: map<Id, Terms>, db: Tables, log: Log)
    requires Step(allDeals, db, log).Some?
    ensures var providers, p := Step(allDeals, db, log).value.providers, ProviderOf(log);
      if IsRegistration(log) then
        p !in db.providers && providers.Keys == db.providers.Keys + {p}
        && providers[p].committedBytes == 0 && providers[p].pendingBytes == 0
        && forall q :: q in db.providers ==> providers[q] == db.providers[q]
      else if IsRegistryLog(log) && !IsCapabilitiesLog(log) then
        p in db.providers && providers == db.providers[p := ProviderStep(db.providers[p], log)]
      else providers == db.providers
  {
  }

  /** A step moves the counters of each provider by what its log says; new providers start at zero. */
  lemma StepMovesCounters(allDeals: map<Id, Terms>, db: Tables, log: Log, p: Id)
    requires Step(allDeals, db, log).Some?
    ensures var providers := Step(allDeals, db, log).value.providers;
            var committed := if p in db.providers then db.providers[p].committedBytes else 0;
            var pending := if p in db.providers then db.providers[p].pendingBytes else 0;
      && (p in db.providers ==> p in providers)
      && (p in providers ==> providers[p].committedBytes == committed + CommittedChange(p, log)
                             && providers[p].pendingBytes == pending + PendingChange(p, log))
      && (p !in providers ==> CommittedChange(p, log) == 0 && PendingChange(p, log) == 0)
  {
    StepOnProviders(allDeals, db, log);
    if IsRegistryLog(log) && ProviderOf(log) in db.providers {
      RowMovesCounters(db.providers[ProviderOf(log)], log);
    }
  }

  lemma StepKeepsCounter(allDeals: map<Id, Terms>, db: Tables, logs: seq<Log>, log: Log, p: Id)
    requires Step(allDeals, db, log).Some? && CounterMatches(db, p, logs)
    ensures CounterMatches(Step(allDeals, db, log).value, p, logs + [log])
  {
    SumSnoc(Committed(p), logs, log);
    SumSnoc(Pending(p), logs, log);
    StepMovesCounters(allDeals, db, log, p);
  }

  lemma {:induction false} ReplayKeepsCounters(allDeals: map<Id, Terms>, logs: seq<Log>)
    requires Replay(allDeals, EMPTY_TABLES, logs).Some?
    ensures CountersMatch(Replay(allDeals, EMPTY_TABLES, logs).value, logs)
  {
    if logs == [] {
    } else {
      var init, log := logs[..|logs| - 1], logs[|logs| - 1];
      assert logs == init + [log];
      ReplayKeepsCounters(allDeals, init);
      forall p: Id ensures CounterMatches(Replay(allDeals, EMPTY_TABLES, logs).value, p, logs) {
        StepKeepsCounter(allDeals, Replay(allDeals, EMPTY_TABLES, init).value, init, log, p);
      }
    }
  }

  lemma {:induction false} WriteOrderKeepsSum(f: Log -> int, logs: seq<Log>)
    requires forall log :: Rank(log) == 4 ==> f(log) == 0
    ensures Sum(f, WriteOrder(logs)) == Sum(f, logs)
  {
    if logs == [] {
    } else {
      var init, x := logs[..|logs| - 1], logs[|logs| - 1];
      assert logs == init + [x];
      WriteOrderKeepsSum(f, init);
      SumSnoc(f, init, x);
      WriteOrderSnoc(init, x);
      if Rank(x) < 4 {
        var a, b := WrittenUpTo(Rank(x), init), WrittenAfter(Rank(x), init);
        WriteOrderSplits(Rank(x), init);
        SumConcat(f, a, b);
        SumConcat(f, a + [x], b);
        SumSnoc(f, a, x);
      }
    }
  }

  lemma {:induction false} WriteOrdersKeepSum(f: Log -> int, batches: seq<seq<Log>>)
    requires forall log :: Rank(log) == 4 ==> f(log) == 0
    ensures Sum(f, WriteOrders(batches)) == Sum(f, Flatten(batches))
  {
    if batches == [] {
    } else {
      var init, logs := batches[..|batches| - 1], batches[|batches| - 1];
      WriteOrdersKeepSum(f, init);
      WriteOrderKeepsSum(f, logs);
      SumConcat(f, WriteOrders(init), WriteOrder(logs));
      SumConcat(f, Flatten(init), logs);
    }
  }

  /**
   * After any batches, cut and sorted anyhow, each provider's counters are the balance of all indexed
   * logs: `logs` is any arrangement of what the batches hold.
   */
  lemma BatchesKeepCounters(
      allDeals: map<Id, Terms>, orderOf: seq<Log> -> GroupOrder, batches: seq<seq<Log>>, logs: seq<Log>)
    requires ValidOrders(orderOf)
    requires RunBatches(allDeals, orderOf, EMPTY_TABLES, batches).Some?
    requires multiset(logs) == multiset(Flatten(batches))
    ensures CountersMatch(RunBatches(allDeals, orderOf, EMPTY_TABLES, batches).value, logs)
  {
    BatchesAreReplayInWriteOrder(allDeals, orderOf, EMPTY_TABLES, batches);
    ReplayKeepsCounters(allDeals, WriteOrders(batches));
    forall p: Id
      ensures CounterMatches(RunBatches(allDeals, orderOf, EMPTY_TABLES, batches).value, p, logs)
    {
      assert CounterMatches(RunBatches(allDeals, orderOf, EMPTY_TABLES, batches).value, p, WriteOrders(batches));
      WriteOrdersKeepSum(Committed(p), batches);
      WriteOrdersKeepSum(Pending(p), batches);
      SumIgnoresOrder(Committed(p), logs, Flatten(batches));
      SumIgnoresOrder(Pending(p), logs, Flatten(batches));
    }
  }
}
