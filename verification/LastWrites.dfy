/**
 * The value that the last of several events writes, whatever they write to.
 */
module LastWrites {
  import opened Wrappers
  import opened Sequences
  import opened GroupedUpdates

  /** `w` tells what an event writes, if anything. */
  function Last<E, V>(w: E -> Option<V>, es: seq<E>): Option<V> {
    if es == [] then None
    else if w(es[|es| - 1]).Some? then w(es[|es| - 1])
    else Last(w, es[..|es| - 1])
  }

  lemma LastSnoc<E, V>(w: E -> Option<V>, es: seq<E>, e: E)
    ensures Last(w, es + [e]) == if w(e).Some? then w(e) else Last(w, es)
  {
    assert (es + [e])[..|es|] == es;
  }

  lemma {:induction false} LastConcat<E, V>(w: E -> Option<V>, a: seq<E>, b: seq<E>)
    ensures Last(w, a + b) == if Last(w, b).Some? then Last(w, b) else Last(w, a)
  {
    if b == [] {
      assert a + b == a;
    } else {
      var init, e := b[..|b| - 1], b[|b| - 1];
      LastConcat(w, a, init);
      assert a + b == (a + init) + [e];
      LastSnoc(w, a + init, e);
    }
  }

  lemma {:induction false} SomethingWritten<E(!new), V>(w: E -> Option<V>, es: seq<E>)
    ensures Last(w, es).Some? <==> exists e :: e in es && w(e).Some?
  {
    if es == [] {
    } else {
      var init, last := es[..|es| - 1], es[|es| - 1];
      assert es == init + [last];
      SomethingWritten(w, init);
      assert forall e :: e in es <==> e in init || e == last;
    }
  }

  /** Something is written in one order exactly when it is in the other. */
  lemma WrittenInBoth<E(!new), V>(w: E -> Option<V>, a: seq<E>, b: seq<E>)
    requires multiset(a) == multiset(b)
    ensures Last(w, a).Some? <==> Last(w, b).Some?
  {
    SomethingWritten(w, a);
    SomethingWritten(w, b);
    forall e ensures e in a <==> e in b {
      PermutedMembers(a, b, e);
    }
  }

  /** Events that write nothing may be left out. */
  lemma {:induction false} LastSelected<E(!new), V>(q: E -> bool, w: E -> Option<V>, es: seq<E>)
    requires forall e :: w(e).Some? ==> q(e)
    ensures Last(w, Filter(q, es)) == Last(w, es)
  {
    if es == [] {
    } else {
      var init, e := es[..|es| - 1], es[|es| - 1];
      assert es == init + [e];
      LastSelected(q, w, init);
      FilterSnoc(q, init, e);
      LastSnoc(w, Filter(q, init), e);
    }
  }

  /** A row's own events are all that write to it. */
  lemma {:induction false} LastOfGroup<K, E(!new), V>(key: E -> K, w: E -> Option<V>, es: seq<E>, k: K)
    requires forall e :: w(e).Some? ==> key(e) == k
    ensures Last(w, Group(key, es, k)) == Last(w, es)
  {
    if es == [] {
    } else {
      var init, e := es[..|es| - 1], es[|es| - 1];
      assert es == init + [e];
      LastOfGroup(key, w, init, k);
      GroupSnoc(key, init, e, k);
      LastSnoc(w, Group(key, init, k), e);
    }
  }
}
