/**
 * Rounded cumulative payment histories (src/service/po-rep/po-rep.service.ts,
 * getDealsPaymentsSummaryHistory; getDealsValueHistory has the same fold).
 */
module PoRepHistory {
  import opened Wrappers
  import opened Sequences

  /** Two decimal places, halves away from zero. */
  function ToHundredths(x: real): real {
    if x >= 0.0 then (x * 100.0 + 0.5).Floor as real / 100.0
    else -((-x * 100.0 + 0.5).Floor as real / 100.0)
  }

  datatype TokenTotal = TokenTotal(token: string, windowTotal: nat)

  datatype HistoryEntry = HistoryEntry(volumeUSD: real, cumulativeTotalUSD: real)

  function PowerOfTen(n: nat): (p: real)
    ensures p > 0.0
  {
    if n == 0 then 1.0 else 10.0 * PowerOfTen(n - 1)
  }

  /** One row's base units in dollars, for a token that has a rate and details. */
  function TokenWindowTotal(r: TokenTotal, decimals: map<string, nat>, rates: map<string, real>): real
    requires r.token in decimals && r.token in rates
  {
    r.windowTotal as real / PowerOfTen(decimals[r.token]) * rates[r.token]
  }

  /** A token without details, or with no rate or a rate of zero, makes the whole history fail. */
  function WindowVolume(
      rows: seq<TokenTotal>, decimals: map<string, nat>, rates: map<string, real>): Result<real, string> {
    if rows == [] then Success(0.0)
    else
      var r := rows[|rows| - 1];
      var current := WindowVolume(rows[..|rows| - 1], decimals, rates);
      if current.Failure? then current
      else if r.token !in rates || rates[r.token] == 0.0 || r.token !in decimals then Failure(r.token)
      else Success(current.value + TokenWindowTotal(r, decimals, rates))
  }

  /** The total before an entry. */
  function TotalBefore(es: seq<HistoryEntry>, i: nat): real
    requires i <= |es|
  {
    if i == 0 then 0.0 else es[i - 1].cumulativeTotalUSD
  }

  function WithEntry(es: seq<HistoryEntry>, volume: real): seq<HistoryEntry> {
    es + [HistoryEntry(ToHundredths(volume), ToHundredths(TotalBefore(es, |es|) + volume))]
  }

  /** One entry per window; each cumulative total is rounded again from the previous rounded one. */
  function PaymentsHistory(windows: seq<seq<TokenTotal>>, decimals: map<string, nat>, rates: map<string, real>)
    : Result<seq<HistoryEntry>, string>
  {
    if windows == [] then Success([])
    else
      var result := PaymentsHistory(windows[..|windows| - 1], decimals, rates);
      var volume := WindowVolume(windows[|windows| - 1], decimals, rates);
      if result.Failure? then result
      else if volume.Failure? then Failure(volume.error)
      else Success(WithEntry(result.value, volume.value))
  }

  // ---------------------------------------------------------------- rounding

  function Cents(n: int): real {
    n as real / 100.0
  }

  ghost predicate IsHundredths(x: real) {
    exists n :: x == Cents(n)
  }

  lemma RoundedIsHundredths(x: real)
    ensures IsHundredths(ToHundredths(x))
  {
    if x >= 0.0 {
      assert ToHundredths(x) == Cents((x * 100.0 + 0.5).Floor);
    } else {
      assert ToHundredths(x) == Cents(-((-x * 100.0 + 0.5).Floor));
    }
  }

  lemma RoundedIsClose(x: real)
    ensures -0.005 <= ToHundredths(x) - x <= 0.005
    ensures x >= 0.0 ==> ToHundredths(x) >= 0.0
  {
  }

  lemma FloorShifts(n: int, x: real)
    ensures (n as real + x).Floor == n + x.Floor
  {
  }

  /** Rounding a rounded total plus a volume is adding the rounded volume. */
  lemma RoundingAddsUp(total: real, volume: real)
    requires IsHundredths(total) && total >= 0.0 && volume >= 0.0
    ensures ToHundredths(total + volume) == total + ToHundredths(volume)
  {
    var n :| total == Cents(n);
    assert (total + volume) * 100.0 + 0.5 == n as real + (volume * 100.0 + 0.5);
    FloorShifts(n, volume * 100.0 + 0.5);
  }

  /** Without non-negative volumes this fails: 0.01 less half a cent stays 0.01, yet the volume shows as -0.01. */
  lemma RoundingNeedsNonNegativeVolumes()
    ensures ToHundredths(0.01 + -0.005) == 0.01 && 0.01 + ToHundredths(-0.005) == 0.0
  {
    assert (0.005 * 100.0 + 0.5).Floor == 1;
  }

  // ---------------------------------------------------------------- the history

  /** Sum of the volumes as displayed. */
  function Displayed(es: seq<HistoryEntry>): real {
    if es == [] then 0.0 else Displayed(es[..|es| - 1]) + es[|es| - 1].volumeUSD
  }

  // ---------------------------------------------------------------- volumes by token

  /** The token's base units in a row. */
  function UnitsIn(token: string): TokenTotal -> int {
    (r: TokenTotal) => if r.token == token then r.windowTotal else 0
  }

  /** Ten times ten, `n` times. */
  function TenTo(n: nat): nat {
    if n == 0 then 1 else TenTo(n - 1) * 10
  }

  lemma {:induction false} PowersAgree(n: nat)
    ensures PowerOfTen(n) == TenTo(n) as real && TenTo(n) > 0
  {
    if n == 0 {
    } else {
      PowersAgree(n - 1);
    }
  }

  /** A token that has decimals and a rate other than zero. */
  predicate Priced(token: string, decimals: map<string, nat>, rates: map<string, real>) {
    token in decimals && token in rates && rates[token] != 0.0
  }

  ghost predicate AllPriced(rows: seq<TokenTotal>, decimals: map<string, nat>, rates: map<string, real>) {
    forall i :: 0 <= i < |rows| ==> Priced(rows[i].token, decimals, rates)
  }

  /** What so many base units of a token are worth: their rate over ten to the token's decimals. */
  function Worth(units: int, token: string, decimals: map<string, nat>, rates: map<string, real>): real
    requires Priced(token, decimals, rates)
  {
    PowersAgree(decimals[token]);
    units as real * rates[token] / TenTo(decimals[token]) as real
  }

  /** The worth of all base units of each of the tokens. */
  function TokensWorth(
      tokens: seq<string>, rows: seq<TokenTotal>, decimals: map<string, nat>, rates: map<string, real>): real {
    if tokens == [] then 0.0
    else
      var t := tokens[0];
      TokensWorth(tokens[1..], rows, decimals, rates)
      + if Priced(t, decimals, rates) then Worth(Sum(UnitsIn(t), rows), t, decimals, rates) else 0.0
  }

  /** The tokens, each once, with all of the rows among them. */
  ghost predicate Tokens(tokens: seq<string>, rows: seq<TokenTotal>) {
    && (forall i, j :: 0 <= i < j < |tokens| ==> tokens[i] != tokens[j])
    && (forall i :: 0 <= i < |rows| ==> rows[i].token in tokens)
  }

  lemma QuotientTimes(a: real, b: real, c: real)
    requires c > 0.0
    ensures a / c * b == a * b / c
  {
  }

  lemma ProductAdds(a: real, b: real, c: real)
    ensures (a + b) * c == a * c + b * c
  {
  }

  lemma QuotientAdds(a: real, b: real, c: real)
    requires c > 0.0
    ensures (a + b) / c == a / c + b / c
  {
  }

  lemma WorthAdds(x: int, y: int, token: string, decimals: map<string, nat>, rates: map<string, real>)
    requires Priced(token, decimals, rates)
    ensures Worth(x + y, token, decimals, rates) == Worth(x, token, decimals, rates) + Worth(y, token, decimals, rates)
  {
    PowersAgree(decimals[token]);
    var rate, power := rates[token], TenTo(decimals[token]) as real;
    assert (x + y) as real == x as real + y as real;
    ProductAdds(x as real, y as real, rate);
    QuotientAdds(x as real * rate, y as real * rate, power);
  }

  /** One more row adds the worth of its own units, once, to its own token. */
  lemma {:induction false} TokensWorthSnoc(
      tokens: seq<string>, rows: seq<TokenTotal>, r: TokenTotal, decimals: map<string, nat>, rates: map<string, real>)
    requires forall i, j :: 0 <= i < j < |tokens| ==> tokens[i] != tokens[j]
    requires Priced(r.token, decimals, rates)
    ensures TokensWorth(tokens, rows + [r], decimals, rates)
         == TokensWorth(tokens, rows, decimals, rates)
            + if r.token in tokens then Worth(r.windowTotal, r.token, decimals, rates) else 0.0
  {
    if tokens == [] {
    } else {
      var t := tokens[0];
      TokensWorthSnoc(tokens[1..], rows, r, decimals, rates);
      SumConcat(UnitsIn(t), rows, [r]);
      assert Sum(UnitsIn(t), [r]) == UnitsIn(t)(r);
      if Priced(t, decimals, rates) {
        WorthAdds(Sum(UnitsIn(t), rows), UnitsIn(t)(r), t, decimals, rates);
      }
      assert r.token in tokens <==> r.token == t || r.token in tokens[1..];
    }
  }

  lemma {:induction false} NothingWorthNothing(
      tokens: seq<string>, decimals: map<string, nat>, rates: map<string, real>)
    ensures TokensWorth(tokens, [], decimals, rates) == 0.0
  {
    if tokens == [] {
    } else {
      NothingWorthNothing(tokens[1..], decimals, rates);
      if Priced(tokens[0], decimals, rates) {
        PowersAgree(decimals[tokens[0]]);
      }
    }
  }

  lemma RowWorth(r: TokenTotal, decimals: map<string, nat>, rates: map<string, real>)
    requires Priced(r.token, decimals, rates)
    ensures TokenWindowTotal(r, decimals, rates) == Worth(r.windowTotal, r.token, decimals, rates)
  {
    var units, rate, power := r.windowTotal as real, rates[r.token], PowerOfTen(decimals[r.token]);
    PowersAgree(decimals[r.token]);
    assert TokenWindowTotal(r, decimals, rates) == units / power * rate;
    assert Worth(r.windowTotal, r.token, decimals, rates) == units * rate / power;
    QuotientTimes(units, rate, power);
  }

  lemma VolumeSnoc(rows: seq<TokenTotal>, r: TokenTotal, decimals: map<string, nat>, rates: map<string, real>)
    requires Priced(r.token, decimals, rates) && WindowVolume(rows, decimals, rates).Success?
    ensures WindowVolume(rows + [r], decimals, rates)
         == Success(WindowVolume(rows, decimals, rates).value + Worth(r.windowTotal, r.token, decimals, rates))
  {
    var all := rows + [r];
    assert all[..|all| - 1] == rows && all[|all| - 1] == r;
    assert WindowVolume(all, decimals, rates)
        == Success(WindowVolume(rows, decimals, rates).value + TokenWindowTotal(r, decimals, rates));
    RowWorth(r, decimals, rates);
  }

  lemma AllPricedSnoc(rows: seq<TokenTotal>, r: TokenTotal, decimals: map<string, nat>, rates: map<string, real>)
    ensures AllPriced(rows + [r], decimals, rates) <==> AllPriced(rows, decimals, rates) && Priced(r.token, decimals, rates)
  {
    var all := rows + [r];
    assert all[|rows|] == r && forall i :: 0 <= i < |rows| ==> all[i] == rows[i];
  }

  lemma {:induction false} VolumePricedIff(rows: seq<TokenTotal>, decimals: map<string, nat>, rates: map<string, real>)
    ensures WindowVolume(rows, decimals, rates).Success? <==> AllPriced(rows, decimals, rates)
  {
    if rows == [] {
    } else {
      var init, r := rows[..|rows| - 1], rows[|rows| - 1];
      assert rows == init + [r];
      VolumePricedIff(init, decimals, rates);
      AllPricedSnoc(init, r, decimals, rates);
    }
  }

  /**
   * The volume of a window exists exactly when every row's token has decimals and a rate other than zero, and
   * is then the sum, over the tokens, of all their base units times the rate over ten to the decimals.
   */
  lemma {:induction false} VolumeIsWorth(
      rows: seq<TokenTotal>, tokens: seq<string>, decimals: map<string, nat>, rates: map<string, real>)
    requires Tokens(tokens, rows)
    ensures WindowVolume(rows, decimals, rates).Success? <==> AllPriced(rows, decimals, rates)
    ensures AllPriced(rows, decimals, rates) ==>
              WindowVolume(rows, decimals, rates) == Success(TokensWorth(tokens, rows, decimals, rates))
  {
    VolumePricedIff(rows, decimals, rates);
    if rows == [] {
      NothingWorthNothing(tokens, decimals, rates);
    } else {
      var init, r := rows[..|rows| - 1], rows[|rows| - 1];
      assert rows == init + [r];
      assert r.token in tokens && forall i :: 0 <= i < |init| ==> init[i] == rows[i];
      VolumeIsWorth(init, tokens, decimals, rates);
      AllPricedSnoc(init, r, decimals, rates);
      if AllPriced(rows, decimals, rates) {
        VolumeSnoc(init, r, decimals, rates);
        TokensWorthSnoc(tokens, init, r, decimals, rates);
      }
    }
  }

  lemma {:induction false} WorthIgnoresOrder(
      tokens: seq<string>, rows: seq<TokenTotal>, other: seq<TokenTotal>, decimals: map<string, nat>, rates: map<string, real>)
    requires multiset(rows) == multiset(other)
    ensures TokensWorth(tokens, rows, decimals, rates) == TokensWorth(tokens, other, decimals, rates)
  {
    if tokens == [] {
    } else {
      WorthIgnoresOrder(tokens[1..], rows, other, decimals, rates);
      SumIgnoresOrder(UnitsIn(tokens[0]), rows, other);
    }
  }

  /** Neither the order of the rows nor that of the tokens matters. */
  lemma VolumeIgnoresOrder(
      rows: seq<TokenTotal>, other: seq<TokenTotal>, decimals: map<string, nat>, rates: map<string, real>,
                           tokens: seq<string>)
    requires multiset(rows) == multiset(other) && Tokens(tokens, rows) && AllPriced(rows, decimals, rates)
    ensures WindowVolume(other, decimals, rates) == WindowVolume(rows, decimals, rates)
  {
    forall i | 0 <= i < |other| ensures other[i].token in tokens && Priced(other[i].token, decimals, rates) {
      PermutedMembers(rows, other, other[i]);
      var j :| 0 <= j < |rows| && rows[j] == other[i];
      assert Priced(rows[j].token, decimals, rates);
    }
    VolumeIsWorth(rows, tokens, decimals, rates);
    VolumeIsWorth(other, tokens, decimals, rates);
    WorthIgnoresOrder(tokens, rows, other, decimals, rates);
  }

  /** The worth of all windows. */
  function AllWorth(
      tokens: seq<string>, windows: seq<seq<TokenTotal>>, decimals: map<string, nat>, rates: map<string, real>): real {
    if windows == [] then 0.0
    else
      AllWorth(tokens, windows[..|windows| - 1], decimals, rates)
      + TokensWorth(tokens, windows[|windows| - 1], decimals, rates)
  }

  ghost predicate TokensOfAll(tokens: seq<string>, windows: seq<seq<TokenTotal>>) {
    forall i :: 0 <= i < |windows| ==> Tokens(tokens, windows[i])
  }

  ghost predicate AllWindowsPriced(
      windows: seq<seq<TokenTotal>>, decimals: map<string, nat>, rates: map<string, real>) {
    forall i :: 0 <= i < |windows| ==> AllPriced(windows[i], decimals, rates)
  }

  lemma WindowsPricedSnoc(
      windows: seq<seq<TokenTotal>>, rows: seq<TokenTotal>, decimals: map<string, nat>, rates: map<string, real>)
    ensures AllWindowsPriced(windows + [rows], decimals, rates)
       <==> AllWindowsPriced(windows, decimals, rates) && AllPriced(rows, decimals, rates)
  {
    var all := windows + [rows];
    assert all[|windows|] == rows && forall i :: 0 <= i < |windows| ==> all[i] == windows[i];
  }

  /** The history fails exactly when some row's token, in any window, has no decimals or no rate other than zero. */
  lemma {:induction false} HistoryFailsIff(
      windows: seq<seq<TokenTotal>>, decimals: map<string, nat>, rates: map<string, real>)
    ensures PaymentsHistory(windows, decimals, rates).Failure? <==> !AllWindowsPriced(windows, decimals, rates)
  {
    if windows == [] {
    } else {
      var init, last := windows[..|windows| - 1], windows[|windows| - 1];
      assert windows == init + [last];
      HistoryFailsIff(init, decimals, rates);
      VolumePricedIff(last, decimals, rates);
      WindowsPricedSnoc(init, last, decimals, rates);
    }
  }

  // ---------------------------------------------------------------- rounded sums

  /** Sum of the volumes before rounding; windows that fail count as nothing. */
  function Exact(windows: seq<seq<TokenTotal>>, decimals: map<string, nat>, rates: map<string, real>): real {
    if windows == [] then 0.0
    else
      var volume := WindowVolume(windows[|windows| - 1], decimals, rates);
      Exact(windows[..|windows| - 1], decimals, rates) + (if volume.Success? then volume.value else 0.0)
  }

  lemma {:induction false} ExactIsWorth(
      windows: seq<seq<TokenTotal>>, tokens: seq<string>, decimals: map<string, nat>, rates: map<string, real>)
    requires TokensOfAll(tokens, windows) && AllWindowsPriced(windows, decimals, rates)
    ensures Exact(windows, decimals, rates) == AllWorth(tokens, windows, decimals, rates)
  {
    if windows == [] {
    } else {
      var init, last := windows[..|windows| - 1], windows[|windows| - 1];
      assert forall i :: 0 <= i < |init| ==> init[i] == windows[i];
      ExactIsWorth(init, tokens, decimals, rates);
      VolumeIsWorth(last, tokens, decimals, rates);
    }
  }

  /** `shown` is the whole number of cents nearest to `x`, the upper one in the middle. */
  ghost predicate NearestCent(shown: real, x: real) {
    exists n: int :: shown == Cents(n) && n as real - 0.5 <= x * 100.0 < n as real + 0.5
  }

  lemma RoundedIsNearest(x: real)
    requires x >= 0.0
    ensures NearestCent(ToHundredths(x), x)
  {
    var n := (x * 100.0 + 0.5).Floor;
    assert ToHundredths(x) == Cents(n);
  }

  ghost predicate NonNegativeRates(rates: map<string, real>) {
    forall t :: t in rates ==> rates[t] >= 0.0
  }

  lemma QuotientIsNonNegative(a: real, b: real)
    requires a >= 0.0 && b > 0.0
    ensures a / b >= 0.0
  {
  }

  lemma ProductIsNonNegative(a: real, b: real)
    requires a >= 0.0 && b >= 0.0
    ensures a * b >= 0.0
  {
  }

  lemma {:induction false} VolumesAreNonNegative(
      rows: seq<TokenTotal>, decimals: map<string, nat>, rates: map<string, real>)
    requires NonNegativeRates(rates)
    ensures var v := WindowVolume(rows, decimals, rates); v.Success? ==> v.value >= 0.0
  {
    if rows == [] {
    } else {
      VolumesAreNonNegative(rows[..|rows| - 1], decimals, rates);
      var r := rows[|rows| - 1];
      if r.token in rates && r.token in decimals {
        QuotientIsNonNegative(r.windowTotal as real, PowerOfTen(decimals[r.token]));
        ProductIsNonNegative(r.windowTotal as real / PowerOfTen(decimals[r.token]), rates[r.token]);
      }
    }
  }

  /** Half a cent per entry. */
  function Tolerance(n: nat): real {
    0.005 * n as real
  }

  ghost predicate AddsUp(es: seq<HistoryEntry>, exact: real) {
    var total := TotalBefore(es, |es|);
    total == Displayed(es) && IsHundredths(total) && total >= 0.0
    && -Tolerance(|es|) <= total - exact <= Tolerance(|es|)
  }

  /** One more window, rounded on its own and together with the rounded total before it. */
  lemma EntryAddsUp(es: seq<HistoryEntry>, exact: real, volume: real)
    requires AddsUp(es, exact) && volume >= 0.0
    ensures AddsUp(WithEntry(es, volume), exact + volume)
    ensures WithEntry(es, volume)[|es|].cumulativeTotalUSD >= TotalBefore(es, |es|)
  {
    var total := TotalBefore(es, |es|);
    RoundingAddsUp(total, volume);
    RoundedIsClose(volume);
    RoundedIsHundredths(total + volume);
    assert WithEntry(es, volume)[..|es|] == es;
    assert Tolerance(|es| + 1) == Tolerance(|es|) + 0.005;
  }

  lemma {:induction false} PrefixAddsUp(
      windows: seq<seq<TokenTotal>>, decimals: map<string, nat>, rates: map<string, real>)
    requires NonNegativeRates(rates) && PaymentsHistory(windows, decimals, rates).Success?
    ensures AddsUp(PaymentsHistory(windows, decimals, rates).value, Exact(windows, decimals, rates))
  {
    if windows == [] {
      assert 0.0 == Cents(0);
    } else {
      var init, last := windows[..|windows| - 1], windows[|windows| - 1];
      PrefixAddsUp(init, decimals, rates);
      VolumesAreNonNegative(last, decimals, rates);
      var es, exact, volume := PaymentsHistory(init, decimals, rates).value, Exact(init, decimals, rates),
                               WindowVolume(last, decimals, rates).value;
      EntryAddsUp(es, exact, volume);
      assert PaymentsHistory(windows, decimals, rates).value == WithEntry(es, volume);
      assert Exact(windows, decimals, rates) == exact + volume;
    }
  }

  lemma {:induction false} HistoryOfPrefix(
      windows: seq<seq<TokenTotal>>, decimals: map<string, nat>, rates: map<string, real>, n: nat)
    requires PaymentsHistory(windows, decimals, rates).Success? && n <= |windows|
    ensures PaymentsHistory(windows[..n], decimals, rates).Success?
    ensures |PaymentsHistory(windows, decimals, rates).value| == |windows|
    ensures PaymentsHistory(windows[..n], decimals, rates).value == PaymentsHistory(windows, decimals, rates).value[..n]
    decreases |windows|
  {
    if windows == [] {
      assert windows[..n] == windows;
    } else {
      var init := windows[..|windows| - 1];
      HistoryOfPrefix(init, decimals, rates, if n < |windows| then n else |init|);
      if n < |windows| {
        assert init[..n] == windows[..n];
      } else {
        assert windows[..n] == windows;
      }
    }
  }

  /** The displayed volume of a window is its volume to the nearest cent. */
  lemma DisplayedVolume(windows: seq<seq<TokenTotal>>, decimals: map<string, nat>, rates: map<string, real>, i: nat)
    requires NonNegativeRates(rates) && PaymentsHistory(windows, decimals, rates).Success? && i < |windows|
    ensures |PaymentsHistory(windows, decimals, rates).value| == |windows|
    ensures WindowVolume(windows[i], decimals, rates).Success?
    ensures NearestCent(PaymentsHistory(windows, decimals, rates).value[i].volumeUSD, WindowVolume(windows[i], decimals, rates).value)
  {
    HistoryOfPrefix(windows, decimals, rates, i);
    HistoryOfPrefix(windows, decimals, rates, i + 1);
    assert windows[..i + 1][..i] == windows[..i];
    VolumesAreNonNegative(windows[i], decimals, rates);
    var volume := WindowVolume(windows[i], decimals, rates).value;
    RoundedIsNearest(volume);
    var es := PaymentsHistory(windows, decimals, rates).value;
    assert es[..i + 1] == WithEntry(es[..i], volume);
    assert es[i] == es[..i + 1][i];
  }

  lemma TokensOfPrefix(
      windows: seq<seq<TokenTotal>>, tokens: seq<string>, decimals: map<string, nat>, rates: map<string, real>, n: nat)
    requires TokensOfAll(tokens, windows) && AllWindowsPriced(windows, decimals, rates) && n <= |windows|
    ensures TokensOfAll(tokens, windows[..n]) && AllWindowsPriced(windows[..n], decimals, rates)
  {
  }

  /**
   * Although every step rounds the previous rounded total again, the i-th cumulative total is exactly the
   * sum of the displayed volumes so far, never falls, and is within half a cent per entry of what all base
   * units so far are worth, token by token; each displayed volume is the window's worth to the nearest cent.
   */
  lemma HistoryAddsUp(
      windows: seq<seq<TokenTotal>>, tokens: seq<string>, decimals: map<string, nat>, rates: map<string, real>, i: nat)
    requires NonNegativeRates(rates) && PaymentsHistory(windows, decimals, rates).Success? && i < |windows|
    requires TokensOfAll(tokens, windows)
    ensures var es := PaymentsHistory(windows, decimals, rates).value;
      && |es| == |windows|
      && NearestCent(es[i].volumeUSD, TokensWorth(tokens, windows[i], decimals, rates))
      && es[i].cumulativeTotalUSD == Displayed(es[..i + 1])
      && es[i].cumulativeTotalUSD >= TotalBefore(es, i)
      && -Tolerance(i + 1) <= es[i].cumulativeTotalUSD - AllWorth(tokens, windows[..i + 1], decimals, rates) <= Tolerance(i + 1)
  {
    HistoryOfPrefix(windows, decimals, rates, i);
    HistoryOfPrefix(windows, decimals, rates, i + 1);
    PrefixAddsUp(windows[..i], decimals, rates);
    PrefixAddsUp(windows[..i + 1], decimals, rates);
    VolumesAreNonNegative(windows[i], decimals, rates);
    assert windows[..i + 1][..i] == windows[..i];
    var es := PaymentsHistory(windows, decimals, rates).value;
    EntryAddsUp(es[..i], Exact(windows[..i], decimals, rates), WindowVolume(windows[i], decimals, rates).value);
    DisplayedVolume(windows, decimals, rates, i);
    HistoryFailsIff(windows, decimals, rates);
    VolumeIsWorth(windows[i], tokens, decimals, rates);
    TokensOfPrefix(windows, tokens, decimals, rates, i + 1);
    ExactIsWorth(windows[..i + 1], tokens, decimals, rates);
  }
}
