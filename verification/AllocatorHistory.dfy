/**
 * Allocations of one allocator bucketed by week or month: the loop
 * (src/service/allocator/allocator.service.ts, getAllocationsByAllocator).
 */
module AllocatorHistory {
  import opened Wrappers
  import opened Sequences
  import opened AllocatorEntries

  // ---------------------------------------------------------------- the accumulators

  /** The loop's running sum, record per client and lists. */
  datatype Accumulators = Accumulators(
    sum: int, perClient: map<string, int>, clients: seq<string>, newClients: seq<string>, newAllocations: seq<Allocation>)

  function Known(perClient: map<string, int>, c: string): int {
    if c in perClient then perClient[c] else 0
  }

  ghost predicate TotalsMatch(perClient: map<string, int>, rows: seq<Row>) {
    forall c :: Known(perClient, c) == TotalOf(c, rows)
  }

  /** What the loop has accumulated after `i` rows, `first` of them before the current period. */
  ghost predicate Accumulated(
      rows: seq<Row>, first: nat, i: nat, acc: Accumulators)
    requires first <= i <= |rows|
  {
    && acc.sum == Sum(Amount, rows[..i])
    && acc.clients == ClientsOf(rows[..i])
    && TotalsMatch(acc.perClient, rows[..i])
    && acc.clients == ClientsOf(rows[..first]) + acc.newClients
    && acc.newAllocations == Map(AllocationOf, rows[first..i])
  }

  lemma TotalsMatchSnoc(perClient: map<string, int>, rows: seq<Row>, r: Row)
    requires TotalsMatch(perClient, rows)
    ensures TotalsMatch(perClient[r.client := Known(perClient, r.client) + r.sumOfAllocations], rows + [r])
  {
    var after := perClient[r.client := Known(perClient, r.client) + r.sumOfAllocations];
    assert (rows + [r])[..|rows|] == rows;
    forall c ensures Known(after, c) == TotalOf(c, rows + [r]) {
      assert Known(perClient, c) == TotalOf(c, rows);
    }
  }

  /** The accumulators with one more row. */
  function WithRow(acc: Accumulators, r: Row): Accumulators {
    var known := r.client in acc.clients;
    Accumulators(
      acc.sum + r.sumOfAllocations, acc.perClient[r.client := Known(acc.perClient, r.client) + r.sumOfAllocations],
      if known then acc.clients else acc.clients + [r.client],
      if known then acc.newClients else acc.newClients + [r.client],
      acc.newAllocations + [AllocationOf(r)])
  }

  lemma RowAdded(rows: seq<Row>, first: nat, i: nat)
    requires first <= i < |rows|
    ensures rows[..i + 1] == rows[..i] + [rows[i]]
    ensures Map(AllocationOf, rows[first..i + 1]) == Map(AllocationOf, rows[first..i]) + [AllocationOf(rows[i])]
  {
  }

  lemma AccumulateRow(rows: seq<Row>, first: nat, i: nat, acc: Accumulators)
    requires first <= i < |rows| && Accumulated(rows, first, i, acc)
    ensures Accumulated(rows, first, i + 1, WithRow(acc, rows[i]))
  {
    SumUpTo(Amount, rows, i);
    ClientsSnoc(rows, i);
    RowAdded(rows, first, i);
    TotalsMatchSnoc(acc.perClient, rows[..i], rows[i]);
    Associative(ClientsOf(rows[..first]), acc.newClients, [rows[i].client]);
  }

  function LookUp(clients: seq<string>, perClient: map<string, int>): seq<ClientTotal> {
    seq(|clients|, i requires 0 <= i < |clients| => ClientTotal(clients[i], Known(perClient, clients[i])))
  }

  lemma LookUpIsTotals(clients: seq<string>, perClient: map<string, int>, rows: seq<Row>)
    requires TotalsMatch(perClient, rows)
    ensures LookUp(clients, perClient) == Totals(clients, rows)
  {
  }

  function EntryFrom(acc: Accumulators, date: Time, returnAllocations: bool): Entry {
    Entry(date, acc.sum, LookUp(acc.clients, acc.perClient), LookUp(acc.newClients, acc.perClient),
          if returnAllocations then Some(acc.newAllocations) else None)
  }

  /** What the accumulators hold at the end of a period is its entry. */
  lemma AccumulatedIsEntry(rows: seq<Row>, p: Period, acc: Accumulators, returnAllocations: bool)
    requires p.first <= p.last <= |rows| && Accumulated(rows, p.first, p.last, acc)
    ensures EntryFrom(acc, p.date, returnAllocations) == EntryOf(rows, p, returnAllocations)
  {
    LookUpIsTotals(acc.clients, acc.perClient, rows[..p.last]);
    LookUpIsTotals(acc.newClients, acc.perClient, rows[..p.last]);
    assert acc.newClients == acc.clients[|ClientsOf(rows[..p.first])|..];
  }

  /** Periods emitted so far, followed by those of the rest. */
  ghost predicate Emitted(
      groupBy: GroupBy, cal: Calendar, rows: seq<Row>, all: seq<Period>, done: seq<Period>, first: nat, date: Time,
      returnEmptyPeriods: bool)
    requires ValidCalendar(cal) && first <= |rows|
  {
    Selected(all, returnEmptyPeriods) == done + Selected(Periods(groupBy, cal, rows, first, date), returnEmptyPeriods)
  }

  lemma SelectedMoves(done: seq<Period>, now: seq<Period>, rest: seq<Period>)
    ensures done + (now + rest) == (done + now) + rest
    ensures (done + now) + [] == done + now && done + [] == done
  {
  }

  lemma SelectedCons(p: Period, rest: seq<Period>, returnEmptyPeriods: bool)
    ensures Selected([p] + rest, returnEmptyPeriods)
         == (if returnEmptyPeriods || p.first < p.last then [p] else []) + Selected(rest, returnEmptyPeriods)
  {
    assert ([p] + rest)[1..] == rest;
  }

  /** The period of the rows `first..i` is the next one, whether it is emitted or not. */
  lemma PeriodEnds(
      groupBy: GroupBy, cal: Calendar, rows: seq<Row>, all: seq<Period>, done: seq<Period>, first: nat, i: nat, date: Time,
      returnEmptyPeriods: bool)
    requires ValidCalendar(cal) && first <= i <= |rows|
    requires Emitted(groupBy, cal, rows, all, done, first, date, returnEmptyPeriods)
    requires FirstAfter(rows, first, date) == i
    ensures var after := if returnEmptyPeriods || first < i then done + [Period(first, i, date)] else done;
      if i < |rows| then Emitted(groupBy, cal, rows, all, after, i, NextPeriod(groupBy, cal, date), returnEmptyPeriods)
      else Selected(all, returnEmptyPeriods) == after
  {
    var p := Period(first, i, date);
    var rest := RestOf(groupBy, cal, rows, i, date);
    PeriodsUnfold(groupBy, cal, rows, first, date);
    SelectedCons(p, rest, returnEmptyPeriods);
    SelectedMoves(done, if returnEmptyPeriods || first < i then [p] else [], Selected(rest, returnEmptyPeriods));
  }

  /** The entries of the emitted periods, all of them before `date`. */
  ghost predicate OutputOk(rows: seq<Row>, done: seq<Period>, result: seq<Entry>, date: Time, returnAllocations: bool) {
    && PeriodsFit(rows, done) && result == Entries(rows, done, returnAllocations)
    && (result != [] ==> result[|result| - 1].date < date)
  }

  lemma OutputGrows(
      rows: seq<Row>, done: seq<Period>, result: seq<Entry>, p: Period, next: Time, returnAllocations: bool)
    requires OutputOk(rows, done, result, p.date, returnAllocations) && p.first <= p.last <= |rows| && p.date < next
    ensures OutputOk(rows, done, result, next, returnAllocations)
    ensures OutputOk(rows, done + [p], result + [EntryOf(rows, p, returnAllocations)], next, returnAllocations)
  {
    EntriesSnoc(rows, done, p, returnAllocations);
  }

  /** Appends the entry of the finished period, unless it is empty and empty periods are not wanted. */
  method UpdateResult(
      result: seq<Entry>, date: Time, acc: Accumulators, returnEmptyPeriods: bool, returnAllocations: bool,
      ghost rows: seq<Row>, ghost done: seq<Period>, ghost p: Period, ghost next: Time)
    returns (after: seq<Entry>, ghost doneAfter: seq<Period>)
    requires p.first <= p.last <= |rows| && p.date == date < next
    requires Accumulated(rows, p.first, p.last, acc)
    requires OutputOk(rows, done, result, date, returnAllocations)
    ensures after == (if returnEmptyPeriods || p.first < p.last then result + [EntryOf(rows, p, returnAllocations)] else result)
    ensures doneAfter == (if returnEmptyPeriods || p.first < p.last then done + [p] else done)
    ensures OutputOk(rows, doneAfter, after, next, returnAllocations)
  {
    OutputGrows(rows, done, result, p, next, returnAllocations);
    after, doneAfter := result, done;
    if !returnEmptyPeriods && |acc.newAllocations| == 0 {
      return;
    }
    AccumulatedIsEntry(rows, p, acc, returnAllocations);
    after := result + [EntryFrom(acc, date, returnAllocations)];
    doneAfter := done + [p];
  }

  /** Adds one row to the accumulators. */
  method AddRow(acc: Accumulators, r: Row) returns (after: Accumulators)
    ensures after == WithRow(acc, r)
  {
    after := acc.(sum := acc.sum + r.sumOfAllocations);
    after := after.(perClient := acc.perClient[r.client := Known(acc.perClient, r.client) + r.sumOfAllocations]);
    if r.client !in acc.clients {
      after := after.(newClients := acc.newClients + [r.client]);
      after := after.(clients := acc.clients + [r.client]);
    }
    after := after.(newAllocations := acc.newAllocations + [AllocationOf(r)]);
  }

  /** Where the loop stands: `first..i` are the rows of the current period so far. */
  ghost predicate Bucketing(
      groupBy: GroupBy, cal: Calendar, rows: seq<Row>, all: seq<Period>, done: seq<Period>, first: nat, i: nat, date: Time,
      acc: Accumulators, result: seq<Entry>, returnEmptyPeriods: bool, returnAllocations: bool)
    requires ValidCalendar(cal)
  {
    && first <= i <= |rows| && i <= FirstAfter(rows, first, date)
    && Accumulated(rows, first, i, acc)
    && Emitted(groupBy, cal, rows, all, done, first, date, returnEmptyPeriods)
    && OutputOk(rows, done, result, date, returnAllocations)
  }

  lemma NothingEmittedYet(groupBy: GroupBy, cal: Calendar, rows: seq<Row>, date: Time, returnEmptyPeriods: bool,
                          returnAllocations: bool)
    requires ValidCalendar(cal)
    ensures Bucketing(groupBy, cal, rows, Periods(groupBy, cal, rows, 0, date), [], 0, 0, date,
                      Accumulators(0, map[], [], [], []), [], returnEmptyPeriods, returnAllocations)
  {
  }

  lemma RowTaken(
      groupBy: GroupBy, cal: Calendar, rows: seq<Row>, all: seq<Period>, done: seq<Period>, first: nat, i: nat, date: Time,
      acc: Accumulators, result: seq<Entry>, returnEmptyPeriods: bool, returnAllocations: bool)
    requires ValidCalendar(cal) && i < |rows| && rows[i].week <= date
    requires Bucketing(groupBy, cal, rows, all, done, first, i, date, acc, result, returnEmptyPeriods, returnAllocations)
    ensures Bucketing(groupBy, cal, rows, all, done, first, i + 1, date, WithRow(acc, rows[i]), result,
                      returnEmptyPeriods, returnAllocations)
  {
    AccumulateRow(rows, first, i, acc);
  }

  lemma NewPeriodStarts(rows: seq<Row>, first: nat, i: nat, acc: Accumulators)
    requires first <= i <= |rows| && Accumulated(rows, first, i, acc)
    ensures Accumulated(rows, i, i, acc.(newClients := [], newAllocations := []))
  {
  }

  /** Ends the current period before row `i`, which belongs to a later one, or after the last row. */
  method EndPeriod(
      groupBy: GroupBy, cal: Calendar, rows: seq<Row>, ghost all: seq<Period>, ghost done: seq<Period>, ghost first: nat,
      i: nat, date: Time, acc: Accumulators, result: seq<Entry>, returnEmptyPeriods: bool, returnAllocations: bool)
    returns (next: Time, after: seq<Entry>, ghost doneAfter: seq<Period>)
    requires ValidCalendar(cal)
    requires Bucketing(groupBy, cal, rows, all, done, first, i, date, acc, result, returnEmptyPeriods, returnAllocations)
    requires i < |rows| ==> rows[i].week > date
    ensures next == NextPeriod(groupBy, cal, date) > date
    ensures i < |rows| ==>
      Bucketing(groupBy, cal, rows, all, doneAfter, i, i, next, acc.(newClients := [], newAllocations := []), after,
                returnEmptyPeriods, returnAllocations)
    ensures i == |rows| ==>
      PeriodsFit(rows, Selected(all, returnEmptyPeriods))
      && after == Entries(rows, Selected(all, returnEmptyPeriods), returnAllocations)
  {
    PeriodsAdvance(groupBy, cal, date);
    next := NextPeriod(groupBy, cal, date);
    NewPeriodStarts(rows, first, i, acc);
    PeriodEnds(groupBy, cal, rows, all, done, first, i, date, returnEmptyPeriods);
    after, doneAfter := UpdateResult(result, date, acc, returnEmptyPeriods, returnAllocations,
                                     rows, done, Period(first, i, date), next);
  }

  /** The loop over the rows, from the first period's date on. */
  method BucketRows(
      rows: seq<Row>, groupBy: GroupBy, cal: Calendar, start: Time, returnEmptyPeriods: bool, returnAllocations: bool)
    returns (result: seq<Entry>)
    requires ValidCalendar(cal)
    ensures var ps := Selected(Periods(groupBy, cal, rows, 0, start), returnEmptyPeriods);
      PeriodsFit(rows, ps) && result == Entries(rows, ps, returnAllocations)
  {
    result := [];
    var date := start;
    ghost var all := Periods(groupBy, cal, rows, 0, date);
    var acc := Accumulators(0, map[], [], [], []);
    var i := 0;
    ghost var first: nat, done: seq<Period> := 0, [];
    NothingEmittedYet(groupBy, cal, rows, date, returnEmptyPeriods, returnAllocations);
    while i < |rows|
      invariant Bucketing(groupBy, cal, rows, all, done, first, i, date, acc, result, returnEmptyPeriods, returnAllocations)
      decreases |rows| - i, if i < |rows| && rows[i].week > date then rows[i].week - date else 0
    {
      if rows[i].week <= date {
        RowTaken(groupBy, cal, rows, all, done, first, i, date, acc, result, returnEmptyPeriods, returnAllocations);
        acc := AddRow(acc, rows[i]);
        i := i + 1;
      } else {
        date, result, done := EndPeriod(groupBy, cal, rows, all, done, first, i, date, acc, result,
                                        returnEmptyPeriods, returnAllocations);
        acc := acc.(newClients := [], newAllocations := []);
        first := i;
      }
    }
    if |result| == 0 || result[|result| - 1].date < date {
      date, result, done := EndPeriod(groupBy, cal, rows, all, done, first, i, date, acc, result,
                                      returnEmptyPeriods, returnAllocations);
    }
  }

  method GetAllocationsByAllocator(
      rows: seq<Row>, groupBy: GroupBy, cal: Calendar, returnEmptyPeriods: bool, returnAllocations: bool)
    returns (result: seq<Entry>)
    requires ValidCalendar(cal)
    ensures rows == [] ==> result == []
    ensures rows != [] ==>
      var ps := Selected(Periods(groupBy, cal, rows, 0, AlignDate(groupBy, cal, rows[0].week)), returnEmptyPeriods);
      PeriodsFit(rows, ps) && result == Entries(rows, ps, returnAllocations)
    ensures rows != [] ==> HistorySays(rows, groupBy, cal, returnEmptyPeriods, returnAllocations, result)
  {
    if |rows| == 0 {
      return [];
    }
    var date := AlignDate(groupBy, cal, rows[0].week);
    result := BucketRows(rows, groupBy, cal, date, returnEmptyPeriods, returnAllocations);
    EntriesAreHistory(rows, groupBy, cal, returnEmptyPeriods, returnAllocations);
  }
}
