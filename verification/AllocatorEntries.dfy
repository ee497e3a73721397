/**
 * The entries of an allocator's history by week or month, and what they say
 * (src/service/allocator/allocator.service.ts, getAllocationsByAllocator).
 */
module AllocatorEntries {
  import opened Wrappers
  import opened Sequences

  /** Milliseconds since the epoch. */
  type Time = int

  const DAY := 24 * 60 * 60 * 1000

  datatype GroupBy = Week | Month

  /** The parts of the UTC calendar that months need. */
  datatype Calendar = Calendar(dayOfMonth: Time -> int, startOfNextMonth: Time -> Time)

  /** Midnight on the first of a month. */
  predicate StartsMonth(cal: Calendar, t: Time) {
    t % 86400000 == 0 && cal.dayOfMonth(t) == 1
  }

  /** `date` is the first start of a month after `t`. */
  ghost predicate NextMonthStart(cal: Calendar, t: Time, date: Time) {
    t < date && StartsMonth(cal, date) && forall u :: t < u < date ==> !StartsMonth(cal, u)
  }

  ghost predicate ValidCalendar(cal: Calendar) {
    forall t :: NextMonthStart(cal, t, cal.startOfNextMonth(t))
  }

  /** Day of the week, Sunday is 0; the epoch was a Thursday. */
  function UtcDay(t: Time): int {
    (t / DAY + 4) % 7
  }

  function AlignDate(groupBy: GroupBy, cal: Calendar, t: Time): Time {
    match groupBy
    case Week => if UtcDay(t) != 1 then t + ((8 - UtcDay(t)) % 7) * DAY else t
    case Month => if cal.dayOfMonth(t) != 1 then cal.startOfNextMonth(t) else t
  }

  function NextPeriod(groupBy: GroupBy, cal: Calendar, t: Time): Time {
    match groupBy
    case Week => t + 7 * DAY
    case Month => cal.startOfNextMonth(t)
  }

  lemma PeriodsAdvance(groupBy: GroupBy, cal: Calendar, t: Time)
    requires ValidCalendar(cal)
    ensures NextPeriod(groupBy, cal, t) > t
    ensures AlignDate(groupBy, cal, t) >= t
  {
    assert NextMonthStart(cal, t, cal.startOfNextMonth(t));
  }

  lemma ShiftDays(t: Time, n: int)
    ensures UtcDay(t + n * DAY) == (UtcDay(t) + n) % 7
  {
    assert (t + n * DAY) / DAY == t / DAY + n;
  }

  /** Weeks are aligned to the first Monday at or after the first row, at the same time of day. */
  lemma WeeksStartOnMonday(cal: Calendar, t: Time)
    ensures var d := AlignDate(Week, cal, t);
      t <= d < t + 7 * DAY && UtcDay(d) == 1 && UtcDay(NextPeriod(Week, cal, d)) == 1 && (d - t) % DAY == 0
  {
    var days := (8 - UtcDay(t)) % 7;
    ShiftDays(t, days);
    ShiftDays(AlignDate(Week, cal, t), 7);
    assert (days * DAY) % DAY == 0;
  }

  // ---------------------------------------------------------------- what an entry means

  datatype Row = Row(week: Time, client: string, sumOfAllocations: int)

  datatype ClientTotal = ClientTotal(client: string, allocationsToDate: int)

  datatype Allocation = Allocation(client: string, allocation: int)

  datatype Entry = Entry(
    date: Time, totalAllocationsToDate: int, clientsToDate: seq<ClientTotal>, newClients: seq<ClientTotal>,
    newAllocations: Option<seq<Allocation>>)

  function Amount(r: Row): int {
    r.sumOfAllocations
  }

  /** What the rows allocate to one client. */
  function TotalOf(client: string, rows: seq<Row>): int {
    if rows == [] then 0
    else
      var r := rows[|rows| - 1];
      TotalOf(client, rows[..|rows| - 1]) + (if r.client == client then r.sumOfAllocations else 0)
  }

  /** The clients of the rows, each once, in order of first appearance. */
  function ClientsOf(rows: seq<Row>): seq<string> {
    if rows == [] then []
    else
      var before, c := ClientsOf(rows[..|rows| - 1]), rows[|rows| - 1].client;
      if c in before then before else before + [c]
  }

  function Totals(clients: seq<string>, rows: seq<Row>): seq<ClientTotal> {
    seq(|clients|, i requires 0 <= i < |clients| => ClientTotal(clients[i], TotalOf(clients[i], rows)))
  }

  function AllocationOf(r: Row): Allocation {
    Allocation(r.client, r.sumOfAllocations)
  }

  /** The rows `first..last` fall into the period that ends at `date`. */
  datatype Period = Period(first: nat, last: nat, date: Time)

  function EntryOf(rows: seq<Row>, p: Period, returnAllocations: bool): Entry
    requires p.first <= p.last <= |rows|
  {
    var before, clients := ClientsOf(rows[..p.first]), ClientsOf(rows[..p.last]);
    Entry(p.date, Sum(Amount, rows[..p.last]), Totals(clients, rows[..p.last]),
          Totals(if |before| <= |clients| then clients[|before|..] else [], rows[..p.last]),
          if returnAllocations then Some(Map(AllocationOf, rows[p.first..p.last])) else None)
  }

  /** The first row from `i` on that is later than `date`. */
  function FirstAfter(rows: seq<Row>, i: nat, date: Time): (n: nat)
    requires i <= |rows|
    ensures i <= n <= |rows|
    ensures n < |rows| ==> rows[n].week > date
    ensures forall k :: i <= k < n ==> rows[k].week <= date
    decreases |rows| - i
  {
    if i < |rows| && rows[i].week <= date then FirstAfter(rows, i + 1, date) else i
  }

  /** Every step consumes a row or advances the date towards the next row. */
  function Periods(groupBy: GroupBy, cal: Calendar, rows: seq<Row>, first: nat, date: Time): seq<Period>
    requires ValidCalendar(cal) && first <= |rows|
    decreases |rows| - first, if first < |rows| && rows[first].week > date then rows[first].week - date else 0
  {
    var last := FirstAfter(rows, first, date);
    PeriodsAdvance(groupBy, cal, date);
    if last == |rows| then [Period(first, last, date)]
    else [Period(first, last, date)] + Periods(groupBy, cal, rows, last, NextPeriod(groupBy, cal, date))
  }

  function Selected(ps: seq<Period>, returnEmptyPeriods: bool): seq<Period> {
    if ps == [] then []
    else (if returnEmptyPeriods || ps[0].first < ps[0].last then [ps[0]] else []) + Selected(ps[1..], returnEmptyPeriods)
  }

  ghost predicate PeriodsFit(rows: seq<Row>, ps: seq<Period>) {
    forall i :: 0 <= i < |ps| ==> ps[i].first <= ps[i].last <= |rows|
  }

  function Entries(rows: seq<Row>, ps: seq<Period>, returnAllocations: bool): (es: seq<Entry>)
    requires PeriodsFit(rows, ps)
    ensures |es| == |ps|
  {
    if ps == [] then []
    else [EntryOf(rows, ps[0], returnAllocations)] + Entries(rows, ps[1..], returnAllocations)
  }

  lemma {:induction false} EntriesAt(rows: seq<Row>, ps: seq<Period>, returnAllocations: bool, i: nat)
    requires PeriodsFit(rows, ps) && i < |ps|
    ensures Entries(rows, ps, returnAllocations)[i] == EntryOf(rows, ps[i], returnAllocations)
  {
    if i > 0 {
      EntriesAt(rows, ps[1..], returnAllocations, i - 1);
    }
  }

  lemma {:induction false} EntriesSnoc(rows: seq<Row>, ps: seq<Period>, p: Period, returnAllocations: bool)
    requires PeriodsFit(rows, ps) && p.first <= p.last <= |rows|
    ensures PeriodsFit(rows, ps + [p])
    ensures Entries(rows, ps + [p], returnAllocations)
         == Entries(rows, ps, returnAllocations) + [EntryOf(rows, p, returnAllocations)]
  {
    if ps == [] {
    } else {
      var e, rest := EntryOf(rows, ps[0], returnAllocations), Entries(rows, ps[1..], returnAllocations);
      EntriesSnoc(rows, ps[1..], p, returnAllocations);
      assert (ps + [p])[1..] == ps[1..] + [p];
      Associative([e], rest, [EntryOf(rows, p, returnAllocations)]);
    }
  }

  lemma ClientsSnoc(rows: seq<Row>, i: nat)
    requires i < |rows|
    ensures var before := ClientsOf(rows[..i]);
      ClientsOf(rows[..i + 1]) == if rows[i].client in before then before else before + [rows[i].client]
  {
    assert rows[..i + 1][..i] == rows[..i];
  }

  lemma SumUpTo(f: Row -> int, rows: seq<Row>, i: nat)
    requires i < |rows|
    ensures Sum(f, rows[..i + 1]) == Sum(f, rows[..i]) + f(rows[i])
  {
    assert rows[..i + 1] == rows[..i] + [rows[i]];
    SumConcat(f, rows[..i], [rows[i]]);
  }

  lemma PrefixOfPrefix(a: seq<string>, b: seq<string>, c: seq<string>)
    requires a <= b && b <= c
    ensures a <= c
  {
  }

  lemma ClientsStep(rows: seq<Row>, j: nat)
    requires j < |rows|
    ensures ClientsOf(rows[..j]) <= ClientsOf(rows[..j + 1])
  {
    ClientsSnoc(rows, j);
  }

  lemma {:induction false} ClientsPrefix(rows: seq<Row>, i: nat, j: nat)
    requires i <= j <= |rows|
    ensures ClientsOf(rows[..i]) <= ClientsOf(rows[..j])
    decreases j - i
  {
    if i == j {
    } else {
      ClientsPrefix(rows, i, j - 1);
      ClientsStep(rows, j - 1);
      PrefixOfPrefix(ClientsOf(rows[..i]), ClientsOf(rows[..j - 1]), ClientsOf(rows[..j]));
    }
  }

  lemma ClientsGrow(rows: seq<Row>, i: nat, j: nat)
    requires i <= j <= |rows|
    ensures |ClientsOf(rows[..i])| <= |ClientsOf(rows[..j])|
    ensures ClientsOf(rows[..j])[..|ClientsOf(rows[..i])|] == ClientsOf(rows[..i])
  {
    ClientsPrefix(rows, i, j);
  }

  /** The periods after the one that ends with row `i`. */
  function RestOf(groupBy: GroupBy, cal: Calendar, rows: seq<Row>, i: nat, date: Time): seq<Period>
    requires ValidCalendar(cal) && i <= |rows|
  {
    if i == |rows| then [] else Periods(groupBy, cal, rows, i, NextPeriod(groupBy, cal, date))
  }

  lemma PeriodsUnfold(groupBy: GroupBy, cal: Calendar, rows: seq<Row>, first: nat, date: Time)
    requires ValidCalendar(cal) && first <= |rows|
    ensures var i := FirstAfter(rows, first, date);
      Periods(groupBy, cal, rows, first, date) == [Period(first, i, date)] + RestOf(groupBy, cal, rows, i, date)
  {
  }

  // ---------------------------------------------------------------- what the entries say

  ghost predicate SortedByWeek(rows: seq<Row>) {
    forall i, j :: 0 <= i <= j < |rows| ==> rows[i].week <= rows[j].week
  }

  /** A period holds rows up to its date, and the row after it is later. */
  ghost predicate EndsAtDate(rows: seq<Row>, p: Period) {
    && p.first <= p.last <= |rows|
    && (forall k :: 0 <= k < p.last ==> rows[k].week <= p.date)
    && (p.last < |rows| ==> rows[p.last].week > p.date)
  }

  predicate Follows(p: Period, rest: seq<Period>) {
    rest == [] || (rest[0].first == p.last && p.date < rest[0].date)
  }

  /** Periods follow each other without gap, dates grow, and each ends just before a later row. */
  ghost predicate Consecutive(rows: seq<Row>, ps: seq<Period>) {
    ps == [] || (EndsAtDate(rows, ps[0]) && Follows(ps[0], ps[1..]) && Consecutive(rows, ps[1..]))
  }

  lemma ConsecutiveCons(rows: seq<Row>, p: Period, rest: seq<Period>)
    requires EndsAtDate(rows, p) && Follows(p, rest) && Consecutive(rows, rest)
    ensures Consecutive(rows, [p] + rest)
  {
    assert ([p] + rest)[1..] == rest;
  }

  lemma {:induction false} PeriodsAreConsecutive(
      groupBy: GroupBy, cal: Calendar, rows: seq<Row>, first: nat, date: Time)
    requires ValidCalendar(cal) && first <= |rows|
    requires forall k :: 0 <= k < first ==> rows[k].week <= date
    ensures var ps := Periods(groupBy, cal, rows, first, date);
      ps != [] && ps[0].first == first && ps[0].date == date && ps[|ps| - 1].last == |rows| && Consecutive(rows, ps)
    decreases |rows| - first, if first < |rows| && rows[first].week > date then rows[first].week - date else 0
  {
    var i := FirstAfter(rows, first, date);
    var p := Period(first, i, date);
    PeriodsUnfold(groupBy, cal, rows, first, date);
    assert EndsAtDate(rows, p);
    if i < |rows| {
      PeriodsAdvance(groupBy, cal, date);
      PeriodsAreConsecutive(groupBy, cal, rows, i, NextPeriod(groupBy, cal, date));
    }
    ConsecutiveCons(rows, p, RestOf(groupBy, cal, rows, i, date));
  }

  lemma {:induction false} ConsecutiveAt(rows: seq<Row>, ps: seq<Period>, i: nat)
    requires Consecutive(rows, ps) && i < |ps|
    ensures EndsAtDate(rows, ps[i])
  {
    if i > 0 {
      ConsecutiveAt(rows, ps[1..], i - 1);
    }
  }

  lemma ConsecutiveFit(rows: seq<Row>, ps: seq<Period>)
    requires Consecutive(rows, ps)
    ensures PeriodsFit(rows, ps)
  {
    forall i | 0 <= i < |ps| ensures ps[i].first <= ps[i].last <= |rows| {
      ConsecutiveAt(rows, ps, i);
    }
  }

  lemma {:induction false} DatesIncrease(rows: seq<Row>, ps: seq<Period>, i: nat, j: nat)
    requires Consecutive(rows, ps) && i < j < |ps|
    ensures ps[i].date < ps[j].date
    decreases j
  {
    if i > 0 {
      DatesIncrease(rows, ps[1..], i - 1, j - 1);
    } else if j > 1 {
      DatesIncrease(rows, ps[1..], 0, j - 1);
    }
  }

  /** The amount of a row when it is not later than `date`. */
  function AmountBy(date: Time): Row -> int {
    (r: Row) => if r.week <= date then r.sumOfAllocations else 0
  }

  lemma {:induction false} SumOfPrefix(rows: seq<Row>, n: nat, date: Time)
    requires n <= |rows|
    requires forall k :: 0 <= k < |rows| ==> (rows[k].week <= date <==> k < n)
    ensures Sum(AmountBy(date), rows) == Sum(Amount, rows[..n])
  {
    if rows == [] {
    } else {
      SumOfPrefix(rows[1..], if n > 0 then n - 1 else 0, date);
      if n > 0 {
        assert rows[..n][1..] == rows[1..][..n - 1];
      } else {
        assert rows[1..][..0] == [] && rows[..0] == [];
      }
    }
  }

  function ToDate(t: ClientTotal): int {
    t.allocationsToDate
  }

  lemma {:induction false} TotalsOfRowAdded(clients: seq<string>, rows: seq<Row>, r: Row)
    requires forall i, j :: 0 <= i < j < |clients| ==> clients[i] != clients[j]
    ensures Sum(ToDate, Totals(clients, rows + [r]))
         == Sum(ToDate, Totals(clients, rows)) + (if r.client in clients then r.sumOfAllocations else 0)
  {
    if clients == [] {
    } else {
      TotalsOfRowAdded(clients[1..], rows, r);
      assert (rows + [r])[..|rows|] == rows;
      assert Totals(clients, rows)[1..] == Totals(clients[1..], rows);
      assert Totals(clients, rows + [r])[1..] == Totals(clients[1..], rows + [r]);
      assert r.client in clients <==> r.client == clients[0] || r.client in clients[1..];
    }
  }

  lemma {:induction false} ClientsAreDistinct(rows: seq<Row>)
    ensures forall i, j :: 0 <= i < j < |ClientsOf(rows)| ==> ClientsOf(rows)[i] != ClientsOf(rows)[j]
    ensures forall c :: c in ClientsOf(rows) <==> exists k :: 0 <= k < |rows| && rows[k].client == c
  {
    if rows == [] {
    } else {
      var init := rows[..|rows| - 1];
      ClientsAreDistinct(init);
      assert forall k :: 0 <= k < |init| ==> init[k] == rows[k];
      assert rows[|rows| - 1].client in ClientsOf(rows);
    }
  }

  lemma {:induction false} NewClientHasNothing(rows: seq<Row>, c: string)
    requires c !in ClientsOf(rows)
    ensures TotalOf(c, rows) == 0
  {
    if rows == [] {
    } else {
      NewClientHasNothing(rows[..|rows| - 1], c);
    }
  }

  lemma {:induction false} ClientTotalsAddUp(rows: seq<Row>)
    ensures Sum(ToDate, Totals(ClientsOf(rows), rows)) == Sum(Amount, rows)
  {
    if rows == [] {
      assert Totals(ClientsOf(rows), rows) == [];
    } else {
      var init, r := rows[..|rows| - 1], rows[|rows| - 1];
      assert rows == init + [r];
      ClientTotalsAddUp(init);
      ClientsAreDistinct(init);
      SumConcat(Amount, init, [r]);
      TotalsOfRowAdded(ClientsOf(init), init, r);
      if r.client !in ClientsOf(init) {
        NewClientHasNothing(init, r.client);
        assert Totals(ClientsOf(rows), rows) == Totals(ClientsOf(init), rows) + [ClientTotal(r.client, TotalOf(r.client, rows))];
        SumConcat(ToDate, Totals(ClientsOf(init), rows), [ClientTotal(r.client, TotalOf(r.client, rows))]);
      }
    }
  }

  lemma EntryIsCumulative(rows: seq<Row>, p: Period)
    requires SortedByWeek(rows) && EndsAtDate(rows, p)
    ensures Sum(Amount, rows[..p.last]) == Sum(AmountBy(p.date), rows)
    ensures Sum(Amount, rows[..p.last]) == Sum(ToDate, Totals(ClientsOf(rows[..p.last]), rows[..p.last]))
  {
    forall k | 0 <= k < |rows| ensures rows[k].week <= p.date <==> k < p.last {
      if k >= p.last {
        assert rows[p.last].week <= rows[k].week;
      }
    }
    SumOfPrefix(rows, p.last, p.date);
    ClientTotalsAddUp(rows[..p.last]);
  }

  /** Where the i-th selected period stands among all periods. */
  ghost function IndexOfSelected(ps: seq<Period>, returnEmptyPeriods: bool, i: nat): (k: nat)
    requires i < |Selected(ps, returnEmptyPeriods)|
    ensures k < |ps| && ps[k] == Selected(ps, returnEmptyPeriods)[i]
  {
    if returnEmptyPeriods || ps[0].first < ps[0].last then
      if i == 0 then 0 else 1 + IndexOfSelected(ps[1..], returnEmptyPeriods, i - 1)
    else 1 + IndexOfSelected(ps[1..], returnEmptyPeriods, i)
  }

  lemma SelectedIsCumulative(rows: seq<Row>, ps: seq<Period>, returnEmptyPeriods: bool, i: nat)
    requires SortedByWeek(rows) && Consecutive(rows, ps) && i < |Selected(ps, returnEmptyPeriods)|
    ensures var p := Selected(ps, returnEmptyPeriods)[i];
      && p.last <= |rows|
      && Sum(Amount, rows[..p.last]) == Sum(AmountBy(p.date), rows)
      && Sum(Amount, rows[..p.last]) == Sum(ToDate, Totals(ClientsOf(rows[..p.last]), rows[..p.last]))
  {
    var k := IndexOfSelected(ps, returnEmptyPeriods, i);
    ConsecutiveAt(rows, ps, k);
    EntryIsCumulative(rows, ps[k]);
  }

  lemma {:induction false} SelectedKeepsOrder(ps: seq<Period>, returnEmptyPeriods: bool, i: nat, j: nat, k: nat, l: nat)
    requires i < j < |Selected(ps, returnEmptyPeriods)|
    requires k == IndexOfSelected(ps, returnEmptyPeriods, i) && l == IndexOfSelected(ps, returnEmptyPeriods, j)
    ensures k < l
  {
    if returnEmptyPeriods || ps[0].first < ps[0].last {
      if i > 0 {
        SelectedKeepsOrder(ps[1..], returnEmptyPeriods, i - 1, j - 1, k - 1, l - 1);
      }
    } else {
      SelectedKeepsOrder(ps[1..], returnEmptyPeriods, i, j, k - 1, l - 1);
    }
  }

  lemma SelectedDatesIncrease(rows: seq<Row>, ps: seq<Period>, returnEmptyPeriods: bool, i: nat, j: nat)
    requires Consecutive(rows, ps) && i < j < |Selected(ps, returnEmptyPeriods)|
    ensures Selected(ps, returnEmptyPeriods)[i].date < Selected(ps, returnEmptyPeriods)[j].date
  {
    var k, l := IndexOfSelected(ps, returnEmptyPeriods, i), IndexOfSelected(ps, returnEmptyPeriods, j);
    SelectedKeepsOrder(ps, returnEmptyPeriods, i, j, k, l);
    DatesIncrease(rows, ps, k, l);
  }

  lemma {:induction false} SelectedSubset(rows: seq<Row>, ps: seq<Period>, returnEmptyPeriods: bool)
    requires PeriodsFit(rows, ps)
    ensures PeriodsFit(rows, Selected(ps, returnEmptyPeriods))
  {
    if ps == [] {
    } else {
      SelectedSubset(rows, ps[1..], returnEmptyPeriods);
    }
  }

  /**
   * For week-sorted rows, every entry's total is the sum of exactly the rows not later than its date, and
   * the sum of what its clients have been allocated; dates strictly increase.
   */
  lemma EntriesAreCumulative(
      rows: seq<Row>, groupBy: GroupBy, cal: Calendar, returnEmptyPeriods: bool, returnAllocations: bool, i: nat, j: nat)
    requires ValidCalendar(cal) && rows != [] && SortedByWeek(rows)
    ensures var all := Periods(groupBy, cal, rows, 0, AlignDate(groupBy, cal, rows[0].week));
            var ps := Selected(all, returnEmptyPeriods);
      && PeriodsFit(rows, ps)
      && var es := Entries(rows, ps, returnAllocations);
      && (i < |es| ==> es[i].totalAllocationsToDate == Sum(AmountBy(es[i].date), rows))
      && (i < |es| ==> es[i].totalAllocationsToDate == Sum(ToDate, es[i].clientsToDate))
      && (i < j < |es| ==> es[i].date < es[j].date)
  {
    var all := Periods(groupBy, cal, rows, 0, AlignDate(groupBy, cal, rows[0].week));
    PeriodsAreConsecutive(groupBy, cal, rows, 0, AlignDate(groupBy, cal, rows[0].week));
    ConsecutiveFit(rows, all);
    SelectedSubset(rows, all, returnEmptyPeriods);
    if i < |Selected(all, returnEmptyPeriods)| {
      SelectedIsCumulative(rows, all, returnEmptyPeriods, i);
      EntriesAt(rows, Selected(all, returnEmptyPeriods), returnAllocations, i);
      if i < j < |Selected(all, returnEmptyPeriods)| {
        SelectedDatesIncrease(rows, all, returnEmptyPeriods, i, j);
        EntriesAt(rows, Selected(all, returnEmptyPeriods), returnAllocations, j);
      }
    }
  }

  function Names(ts: seq<ClientTotal>): seq<string> {
    seq(|ts|, i requires 0 <= i < |ts| => ts[i].client)
  }

  function AllNewClients(es: seq<Entry>): seq<string> {
    if es == [] then [] else Names(es[0].newClients) + AllNewClients(es[1..])
  }

  function AllNewAllocations(es: seq<Entry>): seq<Allocation> {
    if es == [] then []
    else (if es[0].newAllocations.Some? then es[0].newAllocations.value else []) + AllNewAllocations(es[1..])
  }

  lemma EntriesSplit(rows: seq<Row>, p: Period, rest: seq<Period>, returnAllocations: bool)
    requires p.first <= p.last <= |rows| && PeriodsFit(rows, rest)
    ensures PeriodsFit(rows, [p] + rest)
    ensures Entries(rows, [p] + rest, returnAllocations)
         == [EntryOf(rows, p, returnAllocations)] + Entries(rows, rest, returnAllocations)
  {
    assert ([p] + rest)[1..] == rest;
  }

  /** The entries that have allocations. */
  function WithAllocations(es: seq<Entry>): seq<Entry> {
    if es == [] then []
    else (if es[0].newAllocations.Some? && es[0].newAllocations.value != [] then [es[0]] else []) + WithAllocations(es[1..])
  }

  lemma EntriesCons(e: Entry, es: seq<Entry>)
    ensures AllNewClients([e] + es) == Names(e.newClients) + AllNewClients(es)
    ensures AllNewAllocations([e] + es)
         == (if e.newAllocations.Some? then e.newAllocations.value else []) + AllNewAllocations(es)
    ensures WithAllocations([e] + es)
         == (if e.newAllocations.Some? && e.newAllocations.value != [] then [e] else []) + WithAllocations(es)
  {
    assert ([e] + es)[1..] == es;
  }

  lemma PrefixSplits(before: seq<string>, after: seq<string>)
    requires |before| <= |after| && after[..|before|] == before
    ensures before + after[|before|..] == after
  {
  }

  lemma NamesOfTotals(clients: seq<string>, rows: seq<Row>)
    ensures Names(Totals(clients, rows)) == clients
  {
  }

  /** A period adds its first-time clients to those before. */
  lemma EntryNamesNewClients(rows: seq<Row>, p: Period)
    requires p.first <= p.last <= |rows|
    ensures ClientsOf(rows[..p.first]) + Names(EntryOf(rows, p, true).newClients) == ClientsOf(rows[..p.last])
  {
    ClientsGrow(rows, p.first, p.last);
    var before, after := ClientsOf(rows[..p.first]), ClientsOf(rows[..p.last]);
    NamesOfTotals(after[|before|..], rows[..p.last]);
    PrefixSplits(before, after);
  }

  /** A period lists its rows. */
  lemma EntryListsRows(rows: seq<Row>, p: Period)
    requires p.first <= p.last <= |rows|
    ensures EntryOf(rows, p, true).newAllocations.value + Map(AllocationOf, rows[p.last..]) == Map(AllocationOf, rows[p.first..])
    ensures EntryOf(rows, p, true).newAllocations.value == [] <==> p.first == p.last
  {
    assert rows[p.first..] == rows[p.first..p.last] + rows[p.last..];
  }

  /** The periods account for each row from `first` on, and each client first seen there, once. */
  ghost predicate Accounted(rows: seq<Row>, ps: seq<Period>, first: nat)
    requires first <= |rows|
  {
    && PeriodsFit(rows, ps)
    && var es := Entries(rows, ps, true);
    && ClientsOf(rows[..first]) + AllNewClients(es) == ClientsOf(rows)
    && AllNewAllocations(es) == Map(AllocationOf, rows[first..])
  }

  lemma AccountedCons(rows: seq<Row>, p: Period, rest: seq<Period>)
    requires p.first <= p.last <= |rows| && Accounted(rows, rest, p.last)
    ensures Accounted(rows, [p] + rest, p.first)
  {
    var e, es := EntryOf(rows, p, true), Entries(rows, rest, true);
    EntriesSplit(rows, p, rest, true);
    EntriesCons(e, es);
    EntryNamesNewClients(rows, p);
    EntryListsRows(rows, p);
    Associative(ClientsOf(rows[..p.first]), Names(e.newClients), AllNewClients(es));
  }

  lemma NothingLeft(rows: seq<Row>)
    ensures Accounted(rows, [], |rows|)
  {
    assert rows[..|rows|] == rows;
  }

  lemma SelectedFirst(ps: seq<Period>, returnEmptyPeriods: bool)
    requires ps != []
    ensures var rest := Selected(ps[1..], returnEmptyPeriods);
      Selected(ps, returnEmptyPeriods) == if returnEmptyPeriods || ps[0].first < ps[0].last then [ps[0]] + rest else rest
  {
    assert [] + Selected(ps[1..], returnEmptyPeriods) == Selected(ps[1..], returnEmptyPeriods);
  }

  lemma {:induction false} RestIsAccounted(rows: seq<Row>, ps: seq<Period>, first: nat, returnEmptyPeriods: bool)
    requires Consecutive(rows, ps) && first <= |rows|
    requires if ps == [] then first == |rows| else ps[0].first == first && ps[|ps| - 1].last == |rows|
    ensures Accounted(rows, Selected(ps, returnEmptyPeriods), first)
  {
    if ps == [] {
      NothingLeft(rows);
    } else {
      var p, rest := ps[0], ps[1..];
      RestIsAccounted(rows, rest, p.last, returnEmptyPeriods);
      SelectedFirst(ps, returnEmptyPeriods);
      if returnEmptyPeriods || p.first < p.last {
        AccountedCons(rows, p, Selected(rest, returnEmptyPeriods));
      }
    }
  }

  /**
   * With or without empty periods, the new allocations laid end to end are the input rows, and the new
   * clients laid end to end are all clients, each appearing in exactly one entry.
   */
  lemma EntriesAccountForEveryRow(rows: seq<Row>, groupBy: GroupBy, cal: Calendar, returnEmptyPeriods: bool)
    requires ValidCalendar(cal) && rows != []
    ensures var ps := Selected(Periods(groupBy, cal, rows, 0, AlignDate(groupBy, cal, rows[0].week)), returnEmptyPeriods);
      && PeriodsFit(rows, ps)
      && var es := Entries(rows, ps, true);
      && AllNewAllocations(es) == Map(AllocationOf, rows)
      && (forall i, j :: 0 <= i < j < |AllNewClients(es)| ==> AllNewClients(es)[i] != AllNewClients(es)[j])
      && (forall c :: c in AllNewClients(es) <==> exists k :: 0 <= k < |rows| && rows[k].client == c)
  {
    var date := AlignDate(groupBy, cal, rows[0].week);
    PeriodsAreConsecutive(groupBy, cal, rows, 0, date);
    RestIsAccounted(rows, Periods(groupBy, cal, rows, 0, date), 0, returnEmptyPeriods);
    assert rows[0..] == rows;
    ClientsAreDistinct(rows);
    var es := Entries(rows, Selected(Periods(groupBy, cal, rows, 0, date), returnEmptyPeriods), true);
    assert ClientsOf(rows[..0]) + AllNewClients(es) == AllNewClients(es);
  }

  lemma FilteredCons(rows: seq<Row>, p: Period, rest: seq<Period>, selected: seq<Period>)
    requires p.first <= p.last <= |rows| && PeriodsFit(rows, rest) && PeriodsFit(rows, selected)
    requires Entries(rows, selected, true) == WithAllocations(Entries(rows, rest, true))
    ensures var after := if p.first < p.last then [p] + selected else selected;
      PeriodsFit(rows, [p] + rest) && PeriodsFit(rows, after)
      && Entries(rows, after, true) == WithAllocations(Entries(rows, [p] + rest, true))
  {
    EntriesSplit(rows, p, rest, true);
    EntriesSplit(rows, p, selected, true);
    EntriesCons(EntryOf(rows, p, true), Entries(rows, rest, true));
    EntryListsRows(rows, p);
  }

  /** Leaving empty periods out is dropping the entries without allocations, and nothing else. */
  lemma {:induction false} WithoutEmptyIsFiltered(rows: seq<Row>, ps: seq<Period>)
    requires PeriodsFit(rows, ps)
    ensures Selected(ps, true) == ps && PeriodsFit(rows, Selected(ps, false))
    ensures Entries(rows, Selected(ps, false), true) == WithAllocations(Entries(rows, Selected(ps, true), true))
  {
    if ps == [] {
    } else {
      var p, rest := ps[0], ps[1..];
      WithoutEmptyIsFiltered(rows, rest);
      assert [p] + rest == ps;
      FilteredCons(rows, p, rest, Selected(rest, false));
      assert [] + Selected(rest, false) == Selected(rest, false);
    }
  }

  // ---------------------------------------------------------------- the dates

  /** Days since the epoch that are Mondays; the fifth of January 1970 was one. */
  predicate OnMonday(t: Time) {
    (t / 86400000) % 7 == 4
  }

  /**
   * The date of the first period: the first Monday not before the first row, at the row's time of day, or the
   * row's own date on the first of a month and else the next start of a month.
   */
  ghost predicate FirstDate(groupBy: GroupBy, cal: Calendar, week: Time, date: Time) {
    match groupBy
    case Week => week <= date < week + 7 * 86400000 && OnMonday(date) && (date - week) % 86400000 == 0
    case Month => if cal.dayOfMonth(week) == 1 then date == week else NextMonthStart(cal, week, date)
  }

  /** A week later, or the next start of a month. */
  ghost predicate NextDate(groupBy: GroupBy, cal: Calendar, date: Time, next: Time) {
    match groupBy
    case Week => next == date + 7 * 86400000
    case Month => NextMonthStart(cal, date, next)
  }

  lemma MondayIsDayOne(t: Time)
    ensures OnMonday(t) <==> UtcDay(t) == 1
  {
    var days := t / DAY;
    assert (days + 4) % 7 == 1 <==> days % 7 == 4;
  }

  lemma FirstPeriodDate(groupBy: GroupBy, cal: Calendar, week: Time)
    requires ValidCalendar(cal)
    ensures FirstDate(groupBy, cal, week, AlignDate(groupBy, cal, week))
  {
    if groupBy == Week {
      WeeksStartOnMonday(cal, week);
      MondayIsDayOne(AlignDate(groupBy, cal, week));
      assert DAY == 86400000;
    } else {
      assert NextMonthStart(cal, week, cal.startOfNextMonth(week));
    }
  }

  lemma NextPeriodDate(groupBy: GroupBy, cal: Calendar, date: Time)
    requires ValidCalendar(cal)
    ensures NextDate(groupBy, cal, date, NextPeriod(groupBy, cal, date))
  {
    assert NextMonthStart(cal, date, cal.startOfNextMonth(date));
  }

  /** Dates follow each other from the first one on, without leaving one out. */
  ghost predicate Stepwise(groupBy: GroupBy, cal: Calendar, dates: seq<Time>) {
    forall i :: 0 <= i < |dates| - 1 ==> NextDate(groupBy, cal, dates[i], dates[i + 1])
  }

  function DatesOf(es: seq<Entry>): seq<Time> {
    seq(|es|, i requires 0 <= i < |es| => es[i].date)
  }

  function PeriodDates(ps: seq<Period>): seq<Time> {
    seq(|ps|, i requires 0 <= i < |ps| => ps[i].date)
  }

  lemma StepwiseCons(groupBy: GroupBy, cal: Calendar, date: Time, rest: seq<Time>)
    requires Stepwise(groupBy, cal, rest) && (rest != [] ==> NextDate(groupBy, cal, date, rest[0]))
    ensures Stepwise(groupBy, cal, [date] + rest)
  {
    var dates := [date] + rest;
    forall i | 0 <= i < |dates| - 1 ensures NextDate(groupBy, cal, dates[i], dates[i + 1]) {
      if i > 0 {
        assert NextDate(groupBy, cal, rest[i - 1], rest[i]);
      }
    }
  }

  lemma {:induction false} PeriodsAreStepwise(groupBy: GroupBy, cal: Calendar, rows: seq<Row>, first: nat, date: Time)
    requires ValidCalendar(cal) && first <= |rows|
    ensures var ps := Periods(groupBy, cal, rows, first, date);
      ps != [] && ps[0].date == date && Stepwise(groupBy, cal, PeriodDates(ps))
    decreases |rows| - first, if first < |rows| && rows[first].week > date then rows[first].week - date else 0
  {
    var i := FirstAfter(rows, first, date);
    var rest := RestOf(groupBy, cal, rows, i, date);
    PeriodsUnfold(groupBy, cal, rows, first, date);
    if i < |rows| {
      PeriodsAdvance(groupBy, cal, date);
      NextPeriodDate(groupBy, cal, date);
      PeriodsAreStepwise(groupBy, cal, rows, i, NextPeriod(groupBy, cal, date));
    }
    StepwiseCons(groupBy, cal, date, PeriodDates(rest));
    assert PeriodDates([Period(first, i, date)] + rest) == [date] + PeriodDates(rest);
  }

  /** The dates start at the first one and step to the first one that is not before the last row. */
  ghost predicate DatesFit(groupBy: GroupBy, cal: Calendar, rows: seq<Row>, dates: seq<Time>)
    requires rows != []
  {
    && dates != [] && FirstDate(groupBy, cal, rows[0].week, dates[0]) && Stepwise(groupBy, cal, dates)
    && rows[|rows| - 1].week <= dates[|dates| - 1]
    && (|dates| > 1 ==> exists k :: 0 <= k < |rows| && rows[k].week > dates[|dates| - 2])
  }

  /** Only the last period reaches the last row. */
  ghost predicate OnlyLastReachesEnd(rows: seq<Row>, ps: seq<Period>) {
    forall k :: 0 <= k < |ps| - 1 ==> ps[k].last < |rows|
  }

  lemma ReachesCons(rows: seq<Row>, p: Period, rest: seq<Period>)
    requires OnlyLastReachesEnd(rows, rest) && (rest != [] ==> p.last < |rows|)
    ensures OnlyLastReachesEnd(rows, [p] + rest)
  {
    forall k | 0 <= k < |[p] + rest| - 1 ensures ([p] + rest)[k].last < |rows| {
      assert k > 0 ==> ([p] + rest)[k] == rest[k - 1];
    }
  }

  lemma {:induction false} PeriodsReachEnd(groupBy: GroupBy, cal: Calendar, rows: seq<Row>, first: nat, date: Time)
    requires ValidCalendar(cal) && first <= |rows|
    ensures OnlyLastReachesEnd(rows, Periods(groupBy, cal, rows, first, date))
    decreases |rows| - first, if first < |rows| && rows[first].week > date then rows[first].week - date else 0
  {
    var i := FirstAfter(rows, first, date);
    PeriodsUnfold(groupBy, cal, rows, first, date);
    if i < |rows| {
      PeriodsAdvance(groupBy, cal, date);
      PeriodsReachEnd(groupBy, cal, rows, i, NextPeriod(groupBy, cal, date));
    }
    ReachesCons(rows, Period(first, i, date), RestOf(groupBy, cal, rows, i, date));
  }

  lemma OthersEndBefore(rows: seq<Row>, ps: seq<Period>, i: nat)
    requires Consecutive(rows, ps) && OnlyLastReachesEnd(rows, ps) && i + 1 < |ps|
    ensures ps[i].last < |rows| && rows[ps[i].last].week > ps[i].date
  {
    ConsecutiveAt(rows, ps, i);
  }

  lemma EntryDates(rows: seq<Row>, ps: seq<Period>, returnAllocations: bool)
    requires PeriodsFit(rows, ps)
    ensures DatesOf(Entries(rows, ps, returnAllocations)) == PeriodDates(ps)
  {
    forall i | 0 <= i < |ps| ensures Entries(rows, ps, returnAllocations)[i].date == ps[i].date {
      EntriesAt(rows, ps, returnAllocations, i);
    }
  }

  lemma PeriodsHaveAllDates(rows: seq<Row>, groupBy: GroupBy, cal: Calendar, ps: seq<Period>)
    requires rows != [] && ps != [] && FirstDate(groupBy, cal, rows[0].week, ps[0].date)
    requires Stepwise(groupBy, cal, PeriodDates(ps)) && Consecutive(rows, ps) && OnlyLastReachesEnd(rows, ps)
    requires ps[|ps| - 1].last == |rows|
    ensures DatesFit(groupBy, cal, rows, PeriodDates(ps))
  {
    ConsecutiveAt(rows, ps, |ps| - 1);
    if |ps| > 1 {
      OthersEndBefore(rows, ps, |ps| - 2);
    }
  }

  /** With empty periods returned, no date is left out, and the last one is the first that covers all rows. */
  lemma EntriesHaveAllDates(rows: seq<Row>, groupBy: GroupBy, cal: Calendar, returnAllocations: bool)
    requires ValidCalendar(cal) && rows != []
    ensures var ps := Selected(Periods(groupBy, cal, rows, 0, AlignDate(groupBy, cal, rows[0].week)), true);
      PeriodsFit(rows, ps) && DatesFit(groupBy, cal, rows, DatesOf(Entries(rows, ps, returnAllocations)))
  {
    var date := AlignDate(groupBy, cal, rows[0].week);
    var ps := Periods(groupBy, cal, rows, 0, date);
    FirstPeriodDate(groupBy, cal, rows[0].week);
    PeriodsAreStepwise(groupBy, cal, rows, 0, date);
    PeriodsAreConsecutive(groupBy, cal, rows, 0, date);
    PeriodsReachEnd(groupBy, cal, rows, 0, date);
    ConsecutiveFit(rows, ps);
    WithoutEmptyIsFiltered(rows, ps);
    EntryDates(rows, ps, returnAllocations);
    PeriodsHaveAllDates(rows, groupBy, cal, ps);
  }

  // ---------------------------------------------------------------- the figures

  /** The row is later than `after`, if there is such a date, and not later than `date`. */
  predicate Within(after: Option<Time>, date: Time, r: Row) {
    (after.None? || r.week > after.value) && r.week <= date
  }

  /** What a row allocates to the client by `date`. */
  function AllocatedTo(client: string, date: Time): Row -> int {
    (r: Row) => if r.client == client && r.week <= date then r.sumOfAllocations else 0
  }

  /** One row of the client is not later than `date`. */
  ghost predicate ClientBy(rows: seq<Row>, client: string, date: Time) {
    exists k :: 0 <= k < |rows| && rows[k].client == client && rows[k].week <= date
  }

  ghost predicate NoClientTwice(ts: seq<ClientTotal>) {
    forall i, j :: 0 <= i < j < |ts| ==> ts[i].client != ts[j].client
  }

  ghost predicate Lists(ts: seq<ClientTotal>, client: string) {
    exists i :: 0 <= i < |ts| && ts[i].client == client
  }

  /** Each total is the sum of the client's rows up to `date`. */
  ghost predicate TotalsAre(ts: seq<ClientTotal>, rows: seq<Row>, date: Time) {
    forall i :: 0 <= i < |ts| ==> ts[i].allocationsToDate == Sum(AllocatedTo(ts[i].client, date), rows)
  }

  /** The allocations are those of these rows, one each, in their order. */
  ghost predicate AllocationsAre(allocations: seq<Allocation>, rows: seq<Row>) {
    && |allocations| == |rows|
    && forall k :: 0 <= k < |rows| ==>
         allocations[k].client == rows[k].client && allocations[k].allocation == rows[k].sumOfAllocations
  }

  /**
   * An entry lists the clients that have a row by its date, each once, with what they have been allocated by
   * then; as new those that had none by the date of the entry before; and the rows between the two dates.
   */
  ghost predicate EntrySays(rows: seq<Row>, after: Option<Time>, e: Entry, returnAllocations: bool) {
    && e.totalAllocationsToDate == Sum(AmountBy(e.date), rows)
    && NoClientTwice(e.clientsToDate) && NoClientTwice(e.newClients)
    && TotalsAre(e.clientsToDate, rows, e.date) && TotalsAre(e.newClients, rows, e.date)
    && (forall c :: Lists(e.clientsToDate, c) <==> ClientBy(rows, c, e.date))
    && (forall c :: Lists(e.newClients, c) <==> ClientBy(rows, c, e.date) && !(after.Some? && ClientBy(rows, c, after.value)))
    && (e.newAllocations.Some? <==> returnAllocations)
    && (returnAllocations ==> AllocationsAre(e.newAllocations.value, Filter((r: Row) => Within(after, e.date, r), rows)))
  }

  lemma {:induction false} FilterAllOrNone(f: Row -> bool, rows: seq<Row>)
    ensures (forall k :: 0 <= k < |rows| ==> f(rows[k])) ==> Filter(f, rows) == rows
    ensures (forall k :: 0 <= k < |rows| ==> !f(rows[k])) ==> Filter(f, rows) == []
  {
    if rows == [] {
    } else {
      var init := rows[..|rows| - 1];
      FilterAllOrNone(f, init);
      assert rows == init + [rows[|rows| - 1]];
      assert forall k :: 0 <= k < |init| ==> init[k] == rows[k];
    }
  }

  lemma ThreeParts(rows: seq<Row>, a: nat, b: nat)
    requires a <= b <= |rows|
    ensures rows == rows[0..a] + rows[a..b] + rows[b..|rows|]
  {
  }

  lemma FilterThreeParts(f: Row -> bool, before: seq<Row>, mid: seq<Row>, after: seq<Row>)
    requires Filter(f, before) == [] && Filter(f, mid) == mid && Filter(f, after) == []
    ensures Filter(f, before + mid + after) == mid
  {
    FilterConcat(f, before + mid, after);
    FilterConcat(f, before, mid);
  }

  lemma SliceKept(f: Row -> bool, rows: seq<Row>, a: nat, b: nat)
    requires a <= b <= |rows| && forall k :: a <= k < b ==> f(rows[k])
    ensures Filter(f, rows[a..b]) == rows[a..b]
  {
    FilterAllOrNone(f, rows[a..b]);
  }

  lemma SliceDropped(f: Row -> bool, rows: seq<Row>, a: nat, b: nat)
    requires a <= b <= |rows| && forall k :: a <= k < b ==> !f(rows[k])
    ensures Filter(f, rows[a..b]) == []
  {
    FilterAllOrNone(f, rows[a..b]);
  }

  lemma FilterIsSlice(f: Row -> bool, rows: seq<Row>, a: nat, b: nat)
    requires a <= b <= |rows| && forall k :: 0 <= k < |rows| ==> (f(rows[k]) <==> a <= k < b)
    ensures Filter(f, rows) == rows[a..b]
  {
    SliceDropped(f, rows, 0, a);
    SliceKept(f, rows, a, b);
    SliceDropped(f, rows, b, |rows|);
    FilterThreeParts(f, rows[0..a], rows[a..b], rows[b..|rows|]);
    ThreeParts(rows, a, b);
  }

  lemma {:induction false} TotalIsSum(client: string, rows: seq<Row>, n: nat, date: Time)
    requires n <= |rows| && forall k :: 0 <= k < |rows| ==> (rows[k].week <= date <==> k < n)
    ensures TotalOf(client, rows[..n]) == Sum(AllocatedTo(client, date), rows)
  {
    if rows == [] {
    } else {
      var m := |rows| - 1;
      var init := rows[..m];
      assert rows == init + [rows[m]];
      SumConcat(AllocatedTo(client, date), init, [rows[m]]);
      if n <= m {
        TotalIsSum(client, init, n, date);
        assert init[..n] == rows[..n];
      } else {
        TotalIsSum(client, init, m, date);
        assert rows[..n] == rows && init[..m] == init;
      }
    }
  }

  /** Exactly the first `n` rows are not later than `date`. */
  ghost predicate SplitAt(rows: seq<Row>, n: nat, date: Time) {
    n <= |rows| && forall k :: 0 <= k < |rows| ==> (rows[k].week <= date <==> k < n)
  }

  lemma SortedSplits(rows: seq<Row>, p: Period)
    requires SortedByWeek(rows) && EndsAtDate(rows, p)
    ensures SplitAt(rows, p.last, p.date)
  {
    forall k | 0 <= k < |rows| ensures rows[k].week <= p.date <==> k < p.last {
      if k >= p.last {
        assert rows[p.last].week <= rows[k].week;
      }
    }
  }

  lemma ListedBy(rows: seq<Row>, n: nat, date: Time, c: string)
    requires SplitAt(rows, n, date)
    ensures c in ClientsOf(rows[..n]) <==> ClientBy(rows, c, date)
  {
    ClientsAreDistinct(rows[..n]);
    if c in ClientsOf(rows[..n]) {
      var k :| 0 <= k < |rows[..n]| && rows[..n][k].client == c;
      assert rows[k].client == c;
    }
    if ClientBy(rows, c, date) {
      var k :| 0 <= k < |rows| && rows[k].client == c && rows[k].week <= date;
      assert rows[..n][k].client == c;
    }
  }

  lemma TotalsSay(clients: seq<string>, rows: seq<Row>, n: nat, date: Time)
    requires SplitAt(rows, n, date) && forall i, j :: 0 <= i < j < |clients| ==> clients[i] != clients[j]
    ensures var ts := Totals(clients, rows[..n]);
      && NoClientTwice(ts) && TotalsAre(ts, rows, date)
      && forall c :: Lists(ts, c) <==> c in clients
  {
    var ts := Totals(clients, rows[..n]);
    forall i | 0 <= i < |ts| ensures ts[i].allocationsToDate == Sum(AllocatedTo(ts[i].client, date), rows) {
      TotalIsSum(clients[i], rows, n, date);
    }
    forall c ensures Lists(ts, c) <==> c in clients {
      if c in clients {
        var i :| 0 <= i < |clients| && clients[i] == c;
        assert ts[i].client == c;
      }
    }
  }

  /** The last period before, if any, ends where this one begins. */
  ghost predicate Precedes(rows: seq<Row>, after: Option<Time>, first: nat) {
    if after.Some? then SplitAt(rows, first, after.value) else first == 0
  }

  lemma HalvesDiffer(clients: seq<string>, n: nat, c: string)
    requires n <= |clients| && forall i, j :: 0 <= i < j < |clients| ==> clients[i] != clients[j]
    ensures c in clients[..n] ==> c !in clients[n..]
  {
    forall i, j | 0 <= i < n && 0 <= j < |clients| - n ensures clients[..n][i] != clients[n..][j] {
      assert clients[i] != clients[n + j];
    }
  }

  /** The clients listed from position `|before|` on are those without a row before. */
  lemma NewClientsSay(rows: seq<Row>, after: Option<Time>, p: Period, c: string)
    requires p.first <= p.last <= |rows| && SplitAt(rows, p.last, p.date) && Precedes(rows, after, p.first)
    ensures var before, clients := ClientsOf(rows[..p.first]), ClientsOf(rows[..p.last]);
      && |before| <= |clients|
      && (c in clients[|before|..] <==> ClientBy(rows, c, p.date) && !(after.Some? && ClientBy(rows, c, after.value)))
  {
    var before, clients := ClientsOf(rows[..p.first]), ClientsOf(rows[..p.last]);
    ClientsGrow(rows, p.first, p.last);
    ClientsAreDistinct(rows[..p.last]);
    PrefixSplits(before, clients);
    ListedBy(rows, p.last, p.date, c);
    if after.Some? {
      ListedBy(rows, p.first, after.value, c);
    } else {
      assert ClientsOf(rows[..0]) == [];
    }
    assert c in clients <==> c in before || c in clients[|before|..];
    HalvesDiffer(clients, |before|, c);
  }

  lemma PeriodRows(rows: seq<Row>, after: Option<Time>, p: Period)
    requires p.first <= p.last <= |rows| && SplitAt(rows, p.last, p.date) && Precedes(rows, after, p.first)
    ensures Filter((r: Row) => Within(after, p.date, r), rows) == rows[p.first..p.last]
  {
    var f := (r: Row) => Within(after, p.date, r);
    FilterIsSlice(f, rows, p.first, p.last);
  }

  lemma PeriodSays(rows: seq<Row>, after: Option<Time>, p: Period, returnAllocations: bool)
    requires p.first <= p.last <= |rows| && SplitAt(rows, p.last, p.date) && Precedes(rows, after, p.first)
    ensures EntrySays(rows, after, EntryOf(rows, p, returnAllocations), returnAllocations)
  {
    var before, clients := ClientsOf(rows[..p.first]), ClientsOf(rows[..p.last]);
    ClientsGrow(rows, p.first, p.last);
    ClientsAreDistinct(rows[..p.last]);
    TotalsSay(clients, rows, p.last, p.date);
    TotalsSay(clients[|before|..], rows, p.last, p.date);
    SumOfPrefix(rows, p.last, p.date);
    PeriodRows(rows, after, p);
    var e := EntryOf(rows, p, returnAllocations);
    forall c ensures Lists(e.clientsToDate, c) <==> ClientBy(rows, c, e.date) {
      ListedBy(rows, p.last, p.date, c);
    }
    forall c ensures Lists(e.newClients, c) <==> ClientBy(rows, c, e.date) && !(after.Some? && ClientBy(rows, c, after.value)) {
      NewClientsSay(rows, after, p, c);
    }
  }

  /** Selected periods adjoin too: those left out have no rows. */
  ghost predicate Adjoin(ps: seq<Period>, first: nat) {
    ps == [] || (ps[0].first == first && Adjoin(ps[1..], ps[0].last))
  }

  lemma AdjoinCons(p: Period, rest: seq<Period>)
    requires Adjoin(rest, p.last)
    ensures Adjoin([p] + rest, p.first)
  {
    assert ([p] + rest)[1..] == rest;
  }

  lemma {:induction false} SelectedAdjoin(rows: seq<Row>, ps: seq<Period>, returnEmptyPeriods: bool, first: nat)
    requires Consecutive(rows, ps) && (ps != [] ==> ps[0].first == first)
    ensures Adjoin(Selected(ps, returnEmptyPeriods), first)
  {
    if ps == [] {
    } else {
      SelectedAdjoin(rows, ps[1..], returnEmptyPeriods, ps[0].last);
      SelectedFirst(ps, returnEmptyPeriods);
      if returnEmptyPeriods || ps[0].first < ps[0].last {
        AdjoinCons(ps[0], Selected(ps[1..], returnEmptyPeriods));
      }
    }
  }

  lemma {:induction false} AdjoinAt(ps: seq<Period>, first: nat, i: nat)
    requires Adjoin(ps, first) && i < |ps|
    ensures ps[i].first == if i == 0 then first else ps[i - 1].last
  {
    if i > 0 {
      AdjoinAt(ps[1..], ps[0].last, i - 1);
    }
  }

  /** The date of the entry before, if there is one. */
  function DateBefore(es: seq<Entry>, i: nat): Option<Time>
    requires i <= |es|
  {
    if i == 0 then None else Some(es[i - 1].date)
  }

  lemma SelectedSplits(rows: seq<Row>, ps: seq<Period>, returnEmptyPeriods: bool, i: nat)
    requires SortedByWeek(rows) && Consecutive(rows, ps) && i < |Selected(ps, returnEmptyPeriods)|
    ensures SplitAt(rows, Selected(ps, returnEmptyPeriods)[i].last, Selected(ps, returnEmptyPeriods)[i].date)
  {
    var k := IndexOfSelected(ps, returnEmptyPeriods, i);
    ConsecutiveAt(rows, ps, k);
    SortedSplits(rows, ps[k]);
  }

  /** The selected period before the i-th one, if any, ends where that one begins. */
  lemma SelectedPrecedes(rows: seq<Row>, all: seq<Period>, returnEmptyPeriods: bool, i: nat)
    requires SortedByWeek(rows) && Consecutive(rows, all) && (all != [] ==> all[0].first == 0)
    requires i < |Selected(all, returnEmptyPeriods)|
    ensures var ps := Selected(all, returnEmptyPeriods);
      Precedes(rows, if i == 0 then None else Some(ps[i - 1].date), ps[i].first)
  {
    SelectedAdjoin(rows, all, returnEmptyPeriods, 0);
    AdjoinAt(Selected(all, returnEmptyPeriods), 0, i);
    if i > 0 {
      SelectedSplits(rows, all, returnEmptyPeriods, i - 1);
    }
  }

  lemma EntrySaysAt(rows: seq<Row>, ps: seq<Period>, returnAllocations: bool, i: nat)
    requires PeriodsFit(rows, ps) && i < |ps| && SplitAt(rows, ps[i].last, ps[i].date)
    requires Precedes(rows, if i == 0 then None else Some(ps[i - 1].date), ps[i].first)
    ensures var es := Entries(rows, ps, returnAllocations); EntrySays(rows, DateBefore(es, i), es[i], returnAllocations)
  {
    EntriesAt(rows, ps, returnAllocations, i);
    if i > 0 {
      EntriesAt(rows, ps, returnAllocations, i - 1);
    }
    PeriodSays(rows, if i == 0 then None else Some(ps[i - 1].date), ps[i], returnAllocations);
  }

  lemma SelectedSay(rows: seq<Row>, all: seq<Period>, returnEmptyPeriods: bool, returnAllocations: bool, i: nat)
    requires SortedByWeek(rows) && Consecutive(rows, all) && (all != [] ==> all[0].first == 0)
    ensures var ps := Selected(all, returnEmptyPeriods);
      && PeriodsFit(rows, ps)
      && var es := Entries(rows, ps, returnAllocations);
      i < |es| ==> EntrySays(rows, DateBefore(es, i), es[i], returnAllocations)
  {
    ConsecutiveFit(rows, all);
    SelectedSubset(rows, all, returnEmptyPeriods);
    if i < |Selected(all, returnEmptyPeriods)| {
      SelectedPrecedes(rows, all, returnEmptyPeriods, i);
      SelectedSplits(rows, all, returnEmptyPeriods, i);
      EntrySaysAt(rows, Selected(all, returnEmptyPeriods), returnAllocations, i);
    }
  }

  /** For week-sorted rows, with or without empty periods, every entry says what the rows say. */
  lemma EntriesSay(
      rows: seq<Row>, groupBy: GroupBy, cal: Calendar, returnEmptyPeriods: bool, returnAllocations: bool, i: nat)
    requires ValidCalendar(cal) && rows != [] && SortedByWeek(rows)
    ensures var ps := Selected(Periods(groupBy, cal, rows, 0, AlignDate(groupBy, cal, rows[0].week)), returnEmptyPeriods);
      && PeriodsFit(rows, ps)
      && var es := Entries(rows, ps, returnAllocations);
      i < |es| ==> EntrySays(rows, DateBefore(es, i), es[i], returnAllocations)
  {
    var date := AlignDate(groupBy, cal, rows[0].week);
    PeriodsAreConsecutive(groupBy, cal, rows, 0, date);
    SelectedSay(rows, Periods(groupBy, cal, rows, 0, date), returnEmptyPeriods, returnAllocations, i);
  }

  ghost predicate AllSay(rows: seq<Row>, es: seq<Entry>, returnAllocations: bool) {
    forall i :: 0 <= i < |es| ==> EntrySays(rows, DateBefore(es, i), es[i], returnAllocations)
  }

  /** What the dates and the figures of a history are: every date if all are wanted, every figure for sorted rows. */
  ghost predicate HistorySays(
      rows: seq<Row>, groupBy: GroupBy, cal: Calendar, returnEmptyPeriods: bool, returnAllocations: bool, es: seq<Entry>)
    requires rows != []
  {
    && (returnEmptyPeriods ==> DatesFit(groupBy, cal, rows, DatesOf(es)))
    && (SortedByWeek(rows) ==> AllSay(rows, es, returnAllocations))
  }

  lemma EntriesAreHistory(
      rows: seq<Row>, groupBy: GroupBy, cal: Calendar, returnEmptyPeriods: bool, returnAllocations: bool)
    requires ValidCalendar(cal) && rows != []
    ensures var ps := Selected(Periods(groupBy, cal, rows, 0, AlignDate(groupBy, cal, rows[0].week)), returnEmptyPeriods);
      && PeriodsFit(rows, ps)
      && HistorySays(rows, groupBy, cal, returnEmptyPeriods, returnAllocations, Entries(rows, ps, returnAllocations))
  {
    var date := AlignDate(groupBy, cal, rows[0].week);
    var ps := Selected(Periods(groupBy, cal, rows, 0, date), returnEmptyPeriods);
    PeriodsAreConsecutive(groupBy, cal, rows, 0, date);
    ConsecutiveFit(rows, Periods(groupBy, cal, rows, 0, date));
    SelectedSubset(rows, Periods(groupBy, cal, rows, 0, date), returnEmptyPeriods);
    if returnEmptyPeriods {
      EntriesHaveAllDates(rows, groupBy, cal, returnAllocations);
    }
    if SortedByWeek(rows) {
      var es := Entries(rows, ps, returnAllocations);
      forall i | 0 <= i < |es| ensures EntrySays(rows, DateBefore(es, i), es[i], returnAllocations) {
        EntriesSay(rows, groupBy, cal, returnEmptyPeriods, returnAllocations, i);
      }
    }
  }
}
