/**
 * Folding a batch of events into one update per row, as both indexers do with
 * filter / groupBy / reduce, against applying the events to the table one at a time.
 */
module GroupedUpdates {
  import opened Wrappers
  import opened Sequences

  // ---------------------------------------------------------------- one event at a time

  function ReplayRow<R, E>(step: (R, E) -> R, row: R, es: seq<E>): R {
    if es == [] then row
    else step(ReplayRow(step, row, es[..|es| - 1]), es[|es| - 1])
  }

  /** Every event changes the row it names; an event naming no row of the table changes nothing. */
  function ReplayTable<K, R, E>(key: E -> K, step: (R, E) -> R, table: map<K, R>, es: seq<E>): (t: map<K, R>)
    ensures t.Keys == table.Keys
  {
    if es == [] then table
    else
      var e := es[|es| - 1];
      var t := ReplayTable(key, step, table, es[..|es| - 1]);
      if key(e) in t then t[key(e) := step(t[key(e)], e)] else t
  }

  lemma ReplayTableSnoc<K, R, E>(key: E -> K, step: (R, E) -> R, table: map<K, R>, es: seq<E>, e: E)
    ensures ReplayTable(key, step, table, es + [e])
         == var t := ReplayTable(key, step, table, es);
            if key(e) in t then t[key(e) := step(t[key(e)], e)] else t
  {
    assert (es + [e])[..|es|] == es;
  }

  function Group<K(==), E(!new)>(key: E -> K, es: seq<E>, k: K): seq<E> {
    Filter((e: E) => key(e) == k, es)
  }

  lemma {:induction false} GroupOfAbsentKey<K, E(!new)>(key: E -> K, es: seq<E>, k: K)
    requires forall i :: 0 <= i < |es| ==> key(es[i]) != k
    ensures Group(key, es, k) == []
  {
    if es == [] {
    } else {
      GroupOfAbsentKey(key, es[..|es| - 1], k);
    }
  }

  /** A row sees one more event only if the event is its own. */
  lemma ReplayGroupSnoc<K, R, E(!new)>(key: E -> K, step: (R, E) -> R, row: R, es: seq<E>, e: E, k: K)
    ensures ReplayRow(step, row, Group(key, es + [e], k))
         == var r := ReplayRow(step, row, Group(key, es, k)); if key(e) == k then step(r, e) else r
  {
    FilterSnoc((x: E) => key(x) == k, es, e);
    var g := Group(key, es, k);
    assert (g + [e])[..|g|] == g;
  }

  /** A row is changed by its own events only, in their order. */
  lemma {:induction false} ReplayTableRows<K, R, E(!new)>(key: E -> K, step: (R, E) -> R, table: map<K, R>, es: seq<E>)
    ensures ReplayTable(key, step, table, es)
         == map k | k in table :: ReplayRow(step, table[k], Group(key, es, k))
  {
    if es == [] {
    } else {
      var init, e := es[..|es| - 1], es[|es| - 1];
      assert es == init + [e];
      ReplayTableRows(key, step, table, init);
      forall k | k in table
        ensures ReplayTable(key, step, table, es)[k] == ReplayRow(step, table[k], Group(key, es, k))
      {
        ReplayGroupSnoc(key, step, table[k], init, e, k);
      }
    }
  }

  lemma GroupSnoc<K, E(!new)>(key: E -> K, es: seq<E>, e: E, k: K)
    ensures Group(key, es + [e], k) == if key(e) == k then Group(key, es, k) + [e] else Group(key, es, k)
  {
    FilterSnoc((x: E) => key(x) == k, es, e);
  }

  lemma GroupPermuted<K, E(!new)>(key: E -> K, xs: seq<E>, ys: seq<E>, k: K)
    requires multiset(xs) == multiset(ys)
    ensures multiset(Group(key, xs, k)) == multiset(Group(key, ys, k))
  {
    FilterPermuted((x: E) => key(x) == k, xs, ys);
  }

  lemma ReplayTableAt<K, R, E(!new)>(key: E -> K, step: (R, E) -> R, table: map<K, R>, es: seq<E>, k: K)
    requires k in table
    ensures ReplayTable(key, step, table, es)[k] == ReplayRow(step, table[k], Group(key, es, k))
  {
    ReplayTableRows(key, step, table, es);
  }

  ghost predicate SameAt<K, R>(x: map<K, R>, y: map<K, R>, k: K)
    requires k in x && k in y
  {
    x[k] == y[k]
  }

  lemma EqualPointwise<K, R>(x: map<K, R>, y: map<K, R>)
    requires x.Keys == y.Keys
    ensures x == y <==> forall k :: k in x ==> SameAt(x, y, k)
  {
    if forall k :: k in x ==> SameAt(x, y, k) {
      forall k | k in x ensures x[k] == y[k] {
        assert SameAt(x, y, k);
      }
    }
  }

  /** Events that change no row may be left out. */
  lemma {:induction false} ReplayTableSkipsNoOps<K, R(!new), E(!new)>(
      key: E -> K, step: (R, E) -> R, table: map<K, R>, es: seq<E>, relevant: E -> bool)
    requires forall r: R, e: E :: !relevant(e) ==> step(r, e) == r
    ensures ReplayTable(key, step, table, Filter(relevant, es)) == ReplayTable(key, step, table, es)
  {
    if es == [] {
    } else {
      var init, e := es[..|es| - 1], es[|es| - 1];
      assert es == init + [e];
      ReplayTableSkipsNoOps(key, step, table, init, relevant);
      FilterSnoc(relevant, init, e);
      ReplayTableSnoc(key, step, table, Filter(relevant, init), e);
      var t := ReplayTable(key, step, table, init);
      if !relevant(e) && key(e) in t {
        assert step(t[key(e)], e) == t[key(e)];
        assert t[key(e) := t[key(e)]] == t;
      }
    }
  }

  // ---------------------------------------------------------------- one update per row

  /** The keys of the groups, each once, in any order. */
  ghost predicate Enumerates<K(!new), E(!new)>(order: seq<K>, key: E -> K, es: seq<E>) {
    && (forall i, j :: 0 <= i < j < |order| ==> order[i] != order[j])
    && (forall k :: k in order <==> exists i :: 0 <= i < |es| && key(es[i]) == k)
  }

  /** Every group is folded into one change of its row. */
  function UpdateGroups<K(==), R, E(!new)>(
      order: seq<K>, key: E -> K, fold: (seq<E>, R) -> R, table: map<K, R>, es: seq<E>): (t: map<K, R>)
    ensures t.Keys == table.Keys
  {
    if order == [] then table
    else
      var k := order[|order| - 1];
      var t := UpdateGroups(order[..|order| - 1], key, fold, table, es);
      if k in t then t[k := fold(Group(key, es, k), t[k])] else t
  }

  lemma {:induction false} UpdateGroupsRows<K, R, E(!new)>(
      order: seq<K>, key: E -> K, fold: (seq<E>, R) -> R, table: map<K, R>, es: seq<E>)
    requires forall i, j :: 0 <= i < j < |order| ==> order[i] != order[j]
    ensures UpdateGroups(order, key, fold, table, es)
         == map k | k in table :: if k in order then fold(Group(key, es, k), table[k]) else table[k]
  {
    if order == [] {
    } else {
      var init, k := order[..|order| - 1], order[|order| - 1];
      assert order == init + [k];
      UpdateGroupsRows(init, key, fold, table, es);
      assert k !in init;
    }
  }

  /**
   * One folded update per group is the same as replaying the events, in whatever order the groups
   * come, provided folding a group and applying it means replaying that group on its row.
   */
  lemma GroupedIsReplay<K(!new), R(!new), E(!new)>(
      order: seq<K>, key: E -> K, step: (R, E) -> R, fold: (seq<E>, R) -> R, table: map<K, R>, es: seq<E>)
    requires Enumerates(order, key, es)
    requires forall k, r :: fold(Group(key, es, k), r) == ReplayRow(step, r, Group(key, es, k))
    ensures UpdateGroups(order, key, fold, table, es) == ReplayTable(key, step, table, es)
  {
    UpdateGroupsRows(order, key, fold, table, es);
    ReplayTableRows(key, step, table, es);
    forall k | k in table && k !in order
      ensures Group(key, es, k) == []
    {
      GroupOfAbsentKey(key, es, k);
    }
  }

  // ---------------------------------------------------------------- inserting rows

  /** A multi-row insert fails as a whole when a key is repeated or already stored. */
  function InsertRows<K(==), R>(table: map<K, R>, rows: seq<(K, R)>): Option<map<K, R>> {
    if rows == [] then Some(table)
    else
      var (k, r) := rows[|rows| - 1];
      var t := InsertRows(table, rows[..|rows| - 1]);
      if t.None? || k in t.value then None else Some(t.value[k := r])
  }

  lemma InsertRowsSnoc<K, R>(table: map<K, R>, rows: seq<(K, R)>, row: (K, R))
    ensures InsertRows(table, rows + [row])
         == var t := InsertRows(table, rows);
            if t.None? || row.0 in t.value then None else Some(t.value[row.0 := row.1])
  {
    assert (rows + [row])[..|rows|] == rows;
  }

  function InsertRow<K(==), R>(table: Option<map<K, R>>, row: (K, R)): Option<map<K, R>> {
    if table.None? || row.0 in table.value then None else Some(table.value[row.0 := row.1])
  }

  lemma InsertRowCommutes<K, R>(table: Option<map<K, R>>, x: (K, R), y: (K, R))
    ensures InsertRow(InsertRow(table, x), y) == InsertRow(InsertRow(table, y), x)
  {
    if table.Some? && x.0 != y.0 {
      assert table.value[x.0 := x.1][y.0 := y.1] == table.value[y.0 := y.1][x.0 := x.1];
    }
  }

  lemma InsertRowLast<K, R>(table: map<K, R>, rows: seq<(K, R)>, row: (K, R))
    ensures InsertRows(table, rows + [row]) == InsertRow(InsertRows(table, rows), row)
  {
    InsertRowsSnoc(table, rows, row);
  }

  lemma InsertRowsSwap<K, R>(table: map<K, R>, rows: seq<(K, R)>, x: (K, R), y: (K, R))
    ensures InsertRows(table, rows + [x] + [y]) == InsertRows(table, rows + [y] + [x])
  {
    InsertRowLast(table, rows, x);
    InsertRowLast(table, rows, y);
    InsertRowLast(table, rows + [x], y);
    InsertRowLast(table, rows + [y], x);
    InsertRowCommutes(InsertRows(table, rows), x, y);
  }

  lemma {:induction false} InsertRowsMove<K, R>(table: map<K, R>, a: seq<(K, R)>, x: (K, R), b: seq<(K, R)>)
    ensures InsertRows(table, a + [x] + b) == InsertRows(table, a + b + [x])
  {
    if b == [] {
      assert a + [x] + b == a + b + [x];
    } else {
      var init, y := b[..|b| - 1], b[|b| - 1];
      assert a + [x] + b == (a + [x] + init) + [y];
      assert a + b + [x] == (a + init) + [y] + [x];
      InsertRowsMove(table, a, x, init);
      InsertRowLast(table, a + [x] + init, y);
      InsertRowLast(table, a + init + [x], y);
      InsertRowsSwap(table, a + init, x, y);
    }
  }

  /** A multi-row insert does not see the order of its rows. */
  lemma {:induction false} InsertRowsPermuted<K, R>(table: map<K, R>, xs: seq<(K, R)>, ys: seq<(K, R)>)
    requires multiset(xs) == multiset(ys)
    ensures InsertRows(table, xs) == InsertRows(table, ys)
  {
    if xs == [] {
      assert |ys| == |multiset(ys)| == 0;
    } else {
      var init, last := xs[..|xs| - 1], xs[|xs| - 1];
      var k := MatchLast(xs, ys);
      InsertRowsPermuted(table, init, Without(ys, k));
      assert xs == init + [last];
      assert ys == ys[..k] + [last] + ys[k + 1..];
      InsertRowsMove(table, ys[..k], last, ys[k + 1..]);
      InsertRowsSnoc(table, init, last);
      InsertRowsSnoc(table, Without(ys, k), last);
    }
  }
}
