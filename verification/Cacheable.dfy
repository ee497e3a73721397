/**
 * Memoisation of an asynchronous method under concurrent callers (src/utils/cacheable.ts), for the
 * callers of one cache key. Each step runs from one await to the next.
 */
module Cacheable {
  import opened Wrappers

  type Caller = nat

  type Mutex = nat

  /** Where a caller is suspended. A result of `None` stands for null or undefined. */
  datatype Progress<Value> =
    | Waiting(mutex: Mutex)
    | Checked(mutex: Mutex, cached: Option<Value>)
    | Computing(mutex: Mutex)
    | Storing(mutex: Mutex, result: Option<Value>)
    | Leaving(mutex: Mutex, outcome: Result<Option<Value>, ()>)
    | Finished(outcome: Result<Option<Value>, ()>)

  /**
   * `entry` is the key's entry in the map of mutexes, `queues` the callers of every mutex ever created,
   * its holder first; `invocations` counts the calls of the wrapped method.
   */
  datatype Memo<Value> = Memo(
    entry: Option<Mutex>, created: nat, queues: map<Mutex, seq<Caller>>, cache: Option<Value>,
    callers: map<Caller, Progress<Value>>, invocations: nat)

  datatype Action<Value> =
    | Call(c: Caller)
    | Get(c: Caller)
    | Proceed(c: Caller)
    | Resolve(c: Caller, result: Option<Value>)
    | Reject(c: Caller)
    | Store(c: Caller)
    | Leave(c: Caller)
    | Expire

  /** The caller at the head of the queue holds the mutex. */
  predicate Holds<Value>(s: Memo<Value>, c: Caller, m: Mutex) {
    m in s.queues && s.queues[m] != [] && s.queues[m][0] == c
  }

  function Move<Value>(s: Memo<Value>, c: Caller, p: Progress<Value>): Memo<Value> {
    s.(callers := s.callers[c := p])
  }

  /** Finding or creating the key's mutex and queueing for it happen without an await between them. */
  function Arrive<Value>(s: Memo<Value>, c: Caller): Memo<Value> {
    var found := s.entry.Some? && s.entry.value in s.queues;
    var m := if found then s.entry.value else s.created;
    var queue := if found then s.queues[m] else [];
    Memo(Some(m), if found then s.created else s.created + 1, s.queues[m := queue + [c]], s.cache,
         s.callers[c := Waiting(m)], s.invocations)
  }

  /** Releasing the mutex hands it to the next waiter, and the key's entry goes whatever it is by now. */
  function Release<Value>(s: Memo<Value>, c: Caller, m: Mutex, outcome: Result<Option<Value>, ()>): Memo<Value>
    requires Holds(s, c, m)
  {
    s.(entry := None, queues := s.queues[m := s.queues[m][1..]], callers := s.callers[c := Finished(outcome)])
  }

  /** One step; a step that does not apply changes nothing. */
  function Next<Value>(s: Memo<Value>, a: Action<Value>): Memo<Value> {
    match a
    case Call(c) => if c in s.callers then s else Arrive(s, c)
    case Get(c) =>
      if c in s.callers && s.callers[c].Waiting? && Holds(s, c, s.callers[c].mutex)
      then Move(s, c, Checked(s.callers[c].mutex, s.cache)) else s
    case Proceed(c) =>
      if c in s.callers && s.callers[c].Checked? then
        var p := s.callers[c];
        if p.cached.Some? then Move(s, c, Leaving(p.mutex, Success(p.cached)))
        else Move(s, c, Computing(p.mutex)).(invocations := s.invocations + 1)
      else s
    case Resolve(c, result) =>
      if c in s.callers && s.callers[c].Computing? then Move(s, c, Storing(s.callers[c].mutex, result)) else s
    case Reject(c) =>
      if c in s.callers && (s.callers[c].Computing? || s.callers[c].Storing?)
      then Move(s, c, Leaving(s.callers[c].mutex, Failure(()))) else s
    case Store(c) =>
      if c in s.callers && s.callers[c].Storing? then
        var p := s.callers[c];
        Move(s, c, Leaving(p.mutex, Success(p.result))).(cache := p.result)
      else s
    case Leave(c) =>
      if c in s.callers && s.callers[c].Leaving? && Holds(s, c, s.callers[c].mutex)
      then Release(s, c, s.callers[c].mutex, s.callers[c].outcome) else s
    case Expire => s.(cache := None)
  }

  function Run<Value>(s: Memo<Value>, actions: seq<Action<Value>>): Memo<Value> {
    if actions == [] then s else Next(Run(s, actions[..|actions| - 1]), actions[|actions| - 1])
  }

  function Initial<Value>(): Memo<Value> {
    Memo(None, 0, map[], None, map[], 0)
  }

  // ---------------------------------------------------------------- the locks

  /** A queue holds unfinished callers of its mutex, each once. */
  ghost predicate QueueOk<Value>(s: Memo<Value>, m: Mutex)
    requires m in s.queues
  {
    var q := s.queues[m];
    && m < s.created
    && (forall i :: 0 <= i < |q| ==> q[i] in s.callers && !s.callers[q[i]].Finished? && s.callers[q[i]].mutex == m)
    && (forall i, j :: 0 <= i < j < |q| ==> q[i] != q[j])
  }

  /** An unfinished caller is queued for its mutex, and holds it once it is past waiting. */
  ghost predicate CallerOk<Value>(s: Memo<Value>, c: Caller)
    requires c in s.callers
  {
    var p := s.callers[c];
    p.Finished? || (p.mutex in s.queues && c in s.queues[p.mutex] && (p.Waiting? || Holds(s, c, p.mutex)))
  }

  ghost predicate LocksOk<Value>(s: Memo<Value>) {
    && (s.entry.Some? ==> s.entry.value in s.queues)
    && (forall m :: m in s.queues ==> QueueOk(s, m))
    && (forall c :: c in s.callers ==> CallerOk(s, c))
  }

  lemma ArriveKeepsLocks<Value>(s: Memo<Value>, c: Caller)
    requires LocksOk(s) && c !in s.callers
    ensures LocksOk(Arrive(s, c))
  {
    var t := Arrive(s, c);
    var m := t.entry.value;
    assert s.created !in s.queues;
    forall n | n in t.queues ensures QueueOk(t, n) {
      if n in s.queues { assert QueueOk(s, n); }
    }
    forall d | d in t.callers ensures CallerOk(t, d) {
      if d == c {
        assert t.queues[m][|t.queues[m]| - 1] == c;
      } else {
        assert CallerOk(s, d);
      }
    }
  }

  lemma MoveKeepsLocks<Value>(s: Memo<Value>, c: Caller, p: Progress<Value>)
    requires LocksOk(s) && c in s.callers && !s.callers[c].Finished? && !p.Finished?
    requires p.mutex == s.callers[c].mutex && Holds(s, c, p.mutex)
    ensures LocksOk(Move(s, c, p))
  {
    var t := Move(s, c, p);
    forall n | n in t.queues ensures QueueOk(t, n) { assert QueueOk(s, n); }
    forall d | d in t.callers ensures CallerOk(t, d) { assert CallerOk(s, d); }
  }

  lemma ReleaseKeepsLocks<Value>(s: Memo<Value>, c: Caller, m: Mutex, outcome: Result<Option<Value>, ()>)
    requires LocksOk(s) && c in s.callers && s.callers[c].Leaving? && s.callers[c].mutex == m && Holds(s, c, m)
    ensures LocksOk(Release(s, c, m, outcome))
  {
    var t := Release(s, c, m, outcome);
    var q := s.queues[m];
    assert QueueOk(s, m);
    forall n | n in t.queues ensures QueueOk(t, n) {
      assert QueueOk(s, n);
      if n == m {
        assert forall i :: 0 <= i < |t.queues[m]| ==> t.queues[m][i] == q[i + 1] && q[i + 1] != q[0];
      }
    }
    forall d | d in t.callers && d != c ensures CallerOk(t, d) {
      assert CallerOk(s, d);
      if !s.callers[d].Finished? && s.callers[d].mutex == m {
        var i :| 0 <= i < |q| && q[i] == d;
        assert t.queues[m][i - 1] == d;
      }
    }
  }

  lemma SameLocks<Value>(s: Memo<Value>, t: Memo<Value>)
    requires LocksOk(s) && t.entry == s.entry && t.created == s.created && t.queues == s.queues && t.callers == s.callers
    ensures LocksOk(t)
  {
    forall n | n in t.queues ensures QueueOk(t, n) { assert QueueOk(s, n); }
    forall d | d in t.callers ensures CallerOk(t, d) { assert CallerOk(s, d); }
  }

  lemma NextKeepsLocks<Value>(s: Memo<Value>, a: Action<Value>)
    requires LocksOk(s)
    ensures LocksOk(Next(s, a))
  {
    match a {
      case Call(c) => if c !in s.callers { ArriveKeepsLocks(s, c); }
      case Leave(c) =>
        if c in s.callers && s.callers[c].Leaving? && Holds(s, c, s.callers[c].mutex) {
          ReleaseKeepsLocks(s, c, s.callers[c].mutex, s.callers[c].outcome);
        }
      case Expire => SameLocks(s, Next(s, a));
      case _ =>
        var c := a.c;
        if c in s.callers {
          assert CallerOk(s, c);
          var p := Next(s, a).callers[c];
          if p != s.callers[c] {
            MoveKeepsLocks(s, c, p);
            SameLocks(Move(s, c, p), Next(s, a));
          }
        }
    }
  }

  // ---------------------------------------------------------------- the cached value

  /** The method resolves with a value, and entries do not expire. */
  predicate Benign<Value>(a: Action<Value>) {
    !a.Reject? && !a.Expire? && (a.Resolve? ==> a.result.Some?)
  }

  /** Before the value is cached, everyone queues for one mutex and only its holder may be computing. */
  ghost predicate NotYetCached<Value>(s: Memo<Value>) {
    && (forall c :: c in s.callers ==>
          var p := s.callers[c];
          && s.entry.Some?
          && (p.Waiting? || (p.Checked? && p.cached.None?) || p.Computing? || (p.Storing? && p.result.Some?))
          && p.mutex == s.entry.value)
    && s.invocations <= 1
    && (s.invocations == 0 ==> forall c :: c in s.callers ==> !s.callers[c].Computing? && !s.callers[c].Storing?)
    && (s.invocations == 1 ==> exists c :: c in s.callers && (s.callers[c].Computing? || s.callers[c].Storing?))
  }

  /** Afterwards nobody computes, and every result is that value. */
  ghost predicate AlreadyCached<Value>(s: Memo<Value>, v: Value) {
    && s.cache == Some(v) && s.invocations == 1
    && (forall c :: c in s.callers ==>
          var p := s.callers[c];
          || p.Waiting?
          || (p.Checked? && p.cached == Some(v))
          || ((p.Leaving? || p.Finished?) && p.outcome == Success(Some(v))))
  }

  ghost predicate Inv<Value>(s: Memo<Value>) {
    LocksOk(s) && if s.cache.None? then NotYetCached(s) else AlreadyCached(s, s.cache.value)
  }

  /** Two callers past waiting on one mutex are the same caller. */
  lemma OneHolder<Value>(s: Memo<Value>, c: Caller, d: Caller)
    requires LocksOk(s) && c in s.callers && d in s.callers
    requires !s.callers[c].Finished? && !s.callers[c].Waiting? && !s.callers[d].Finished? && !s.callers[d].Waiting?
    requires s.callers[c].mutex == s.callers[d].mutex
    ensures c == d
  {
    assert CallerOk(s, c) && CallerOk(s, d);
  }

  lemma ArriveKeepsNotYetCached<Value>(s: Memo<Value>, c: Caller)
    requires LocksOk(s) && NotYetCached(s) && c !in s.callers
    ensures NotYetCached(Arrive(s, c))
  {
    var t := Arrive(s, c);
    assert forall d :: d in s.callers ==> t.callers[d] == s.callers[d];
    if s.invocations == 1 {
      var d :| d in s.callers && (s.callers[d].Computing? || s.callers[d].Storing?);
      assert t.callers[d] == s.callers[d];
    }
  }

  /** Nobody else is past waiting, so the holder that starts computing is the first. */
  lemma ProceedKeepsNotYetCached<Value>(s: Memo<Value>, c: Caller)
    requires LocksOk(s) && NotYetCached(s) && c in s.callers && s.callers[c].Checked?
    ensures NotYetCached(Next(s, Proceed(c)))
  {
    var t := Next(s, Proceed(c));
    forall d | d in s.callers && d != c ensures s.callers[d].Waiting? && t.callers[d] == s.callers[d] {
      if !s.callers[d].Waiting? { OneHolder(s, c, d); }
    }
    assert s.invocations == 0;
    assert t.callers[c].Computing?;
  }

  /** A caller that moves on without starting or ending its computation. */
  lemma SameInvocations<Value>(s: Memo<Value>, t: Memo<Value>, c: Caller)
    requires c in s.callers && t.callers.Keys == s.callers.Keys && t.invocations == s.invocations
    requires forall d :: d in s.callers && d != c ==> t.callers[d] == s.callers[d]
    requires (t.callers[c].Computing? || t.callers[c].Storing?) == (s.callers[c].Computing? || s.callers[c].Storing?)
    requires NotYetCached(s)
    ensures t.invocations == 0 ==> forall d :: d in t.callers ==> !t.callers[d].Computing? && !t.callers[d].Storing?
    ensures t.invocations == 1 ==> exists d :: d in t.callers && (t.callers[d].Computing? || t.callers[d].Storing?)
  {
    if s.invocations == 1 {
      var d :| d in s.callers && (s.callers[d].Computing? || s.callers[d].Storing?);
      assert t.callers[d].Computing? || t.callers[d].Storing?;
    }
  }

  lemma KeepsNotYetCached<Value>(s: Memo<Value>, a: Action<Value>)
    requires LocksOk(s) && s.cache.None? && NotYetCached(s) && Benign(a) && !a.Store?
    ensures Next(s, a).cache.None? && NotYetCached(Next(s, a))
  {
    match a {
      case Call(c) => if c !in s.callers { ArriveKeepsNotYetCached(s, c); }
      case Proceed(c) => if c in s.callers && s.callers[c].Checked? { ProceedKeepsNotYetCached(s, c); }
      case Get(c) => if c in s.callers && s.callers[c].Waiting? { SameInvocations(s, Next(s, a), c); }
      case Resolve(c, _) => if c in s.callers && s.callers[c].Computing? { SameInvocations(s, Next(s, a), c); }
      case Leave(c) =>
      case Reject(c) =>
      case Store(c) =>
      case Expire =>
    }
  }

  /** The holder that computed stores the value; everyone else is still waiting. */
  lemma StoreCaches<Value>(s: Memo<Value>, c: Caller)
    requires LocksOk(s) && s.cache.None? && NotYetCached(s) && c in s.callers && s.callers[c].Storing?
    ensures var t := Next(s, Store(c)); t.cache.Some? && AlreadyCached(t, t.cache.value)
  {
    forall d | d in s.callers && d != c ensures s.callers[d].Waiting? {
      if !s.callers[d].Waiting? { OneHolder(s, c, d); }
    }
  }

  lemma NextKeepsInv<Value>(s: Memo<Value>, a: Action<Value>)
    requires Inv(s) && Benign(a)
    ensures Inv(Next(s, a))
  {
    NextKeepsLocks(s, a);
    if s.cache.None? {
      if a.Store? && a.c in s.callers && s.callers[a.c].Storing? {
        StoreCaches(s, a.c);
      } else if a.Store? {
        assert Next(s, a) == s;
      } else {
        KeepsNotYetCached(s, a);
      }
    }
  }

  lemma {:induction false} RunKeepsInv<Value>(actions: seq<Action<Value>>)
    requires forall i :: 0 <= i < |actions| ==> Benign(actions[i])
    ensures Inv(Run(Initial<Value>(), actions))
  {
    if actions == [] {
    } else {
      RunKeepsInv(actions[..|actions| - 1]);
      NextKeepsInv(Run(Initial<Value>(), actions[..|actions| - 1]), actions[|actions| - 1]);
    }
  }

  /** One of the calls of the wrapped method resolved with this. */
  ghost predicate ResolvedWith<Value>(actions: seq<Action<Value>>, result: Option<Value>) {
    exists i :: 0 <= i < |actions| && actions[i].Resolve? && actions[i].result == result
  }

  /** Whatever is cached, or about to be, is what a call resolved with. */
  ghost predicate OnlyResolved<Value>(s: Memo<Value>, actions: seq<Action<Value>>) {
    && (s.cache.Some? ==> ResolvedWith(actions, s.cache))
    && (forall c :: c in s.callers && s.callers[c].Storing? ==> ResolvedWith(actions, s.callers[c].result))
  }

  lemma ResolvedBefore<Value>(actions: seq<Action<Value>>, a: Action<Value>, result: Option<Value>)
    ensures ResolvedWith(actions, result) ==> ResolvedWith(actions + [a], result)
    ensures a.Resolve? && a.result == result ==> ResolvedWith(actions + [a], result)
  {
    var all := actions + [a];
    assert all[|actions|] == a;
    if ResolvedWith(actions, result) {
      var i :| 0 <= i < |actions| && actions[i].Resolve? && actions[i].result == result;
      assert all[i] == actions[i];
    }
  }

  lemma NextOnlyResolved<Value>(s: Memo<Value>, actions: seq<Action<Value>>, a: Action<Value>)
    requires OnlyResolved(s, actions)
    ensures OnlyResolved(Next(s, a), actions + [a])
  {
    var t := Next(s, a);
    if t.cache.Some? {
      ResolvedBefore(actions, a, t.cache);
    }
    forall c | c in t.callers && t.callers[c].Storing? ensures ResolvedWith(actions + [a], t.callers[c].result) {
      ResolvedBefore(actions, a, t.callers[c].result);
    }
  }

  lemma {:induction false} RunOnlyResolved<Value>(actions: seq<Action<Value>>)
    ensures OnlyResolved(Run(Initial<Value>(), actions), actions)
  {
    if actions == [] {
    } else {
      var init, a := actions[..|actions| - 1], actions[|actions| - 1];
      assert actions == init + [a];
      RunOnlyResolved(init);
      NextOnlyResolved(Run(Initial<Value>(), init), init, a);
    }
  }

  /**
   * Under every interleaving the wrapped method is called at most once, and every caller that has
   * finished returned one and the same value, the one that call resolved with, although the mutex leaves
   * the map while others wait on it.
   */
  lemma CalledAtMostOnce<Value>(actions: seq<Action<Value>>, c: Caller)
    requires forall i :: 0 <= i < |actions| ==> Benign(actions[i])
    ensures var s := Run(Initial<Value>(), actions);
      && s.invocations <= 1
      && (c in s.callers && s.callers[c].Finished? ==>
            s.cache.Some? && s.callers[c].outcome == Success(s.cache) && ResolvedWith(actions, s.cache))
  {
    RunKeepsInv(actions);
    RunOnlyResolved(actions);
  }

  // ---------------------------------------------------------------- what callers are told

  ghost predicate Rejected<Value>(actions: seq<Action<Value>>, c: Caller) {
    exists i :: 0 <= i < |actions| && actions[i] == Reject(c)
  }

  lemma RejectedBefore<Value>(actions: seq<Action<Value>>, a: Action<Value>, c: Caller)
    ensures Rejected(actions, c) || a == Reject(c) ==> Rejected(actions + [a], c)
  {
    var all := actions + [a];
    assert all[|actions|] == a;
    if Rejected(actions, c) {
      var i :| 0 <= i < |actions| && actions[i] == Reject(c);
      assert all[i] == actions[i];
    }
  }

  /** A result is one that a call resolved with, an error one that this caller met. */
  ghost predicate Told<Value>(actions: seq<Action<Value>>, c: Caller, outcome: Result<Option<Value>, ()>) {
    if outcome.Success? then ResolvedWith(actions, outcome.value) else Rejected(actions, c)
  }

  lemma ToldBefore<Value>(actions: seq<Action<Value>>, a: Action<Value>, c: Caller, outcome: Result<Option<Value>, ()>)
    requires Told(actions, c, outcome)
    ensures Told(actions + [a], c, outcome)
  {
    if outcome.Success? {
      ResolvedBefore(actions, a, outcome.value);
    } else {
      RejectedBefore(actions, a, c);
    }
  }

  ghost predicate Answered<Value>(actions: seq<Action<Value>>, c: Caller, p: Progress<Value>) {
    match p
    case Checked(_, cached) => cached.Some? ==> ResolvedWith(actions, cached)
    case Leaving(_, outcome) => Told(actions, c, outcome)
    case Finished(outcome) => Told(actions, c, outcome)
    case _ => true
  }

  ghost predicate AllAnswered<Value>(s: Memo<Value>, actions: seq<Action<Value>>) {
    forall c :: c in s.callers ==> Answered(actions, c, s.callers[c])
  }

  lemma AnsweredBefore<Value>(actions: seq<Action<Value>>, a: Action<Value>, c: Caller, p: Progress<Value>)
    requires Answered(actions, c, p)
    ensures Answered(actions + [a], c, p)
  {
    match p
    case Checked(_, cached) => ResolvedBefore(actions, a, cached);
    case Leaving(_, outcome) => ToldBefore(actions, a, c, outcome);
    case Finished(outcome) => ToldBefore(actions, a, c, outcome);
    case _ =>
  }

  /** The caller that a step moves is answered too. */
  lemma MovedIsAnswered<Value>(s: Memo<Value>, actions: seq<Action<Value>>, a: Action<Value>)
    requires OnlyResolved(s, actions) && AllAnswered(s, actions) && !a.Expire? && a.c in s.callers
    ensures Answered(actions + [a], a.c, Next(s, a).callers[a.c])
  {
    var p := s.callers[a.c];
    AnsweredBefore(actions, a, a.c, p);
    RejectedBefore(actions, a, a.c);
    match p
    case Waiting(_) => ResolvedBefore(actions, a, s.cache);
    case Checked(_, cached) => ResolvedBefore(actions, a, cached);
    case Storing(_, result) => ResolvedBefore(actions, a, result);
    case _ =>
  }

  lemma NextAllAnswered<Value>(s: Memo<Value>, actions: seq<Action<Value>>, a: Action<Value>)
    requires OnlyResolved(s, actions) && AllAnswered(s, actions)
    ensures AllAnswered(Next(s, a), actions + [a])
  {
    var t := Next(s, a);
    forall c | c in t.callers ensures Answered(actions + [a], c, t.callers[c]) {
      if c in s.callers {
        if !a.Expire? && a.c == c {
          MovedIsAnswered(s, actions, a);
        } else {
          AnsweredBefore(actions, a, c, s.callers[c]);
        }
      }
    }
  }

  lemma {:induction false} RunAllAnswered<Value>(actions: seq<Action<Value>>)
    ensures AllAnswered(Run(Initial<Value>(), actions), actions)
  {
    if actions == [] {
    } else {
      var init, a := actions[..|actions| - 1], actions[|actions| - 1];
      assert actions == init + [a];
      RunAllAnswered(init);
      RunOnlyResolved(init);
      NextAllAnswered(Run(Initial<Value>(), init), init, a);
    }
  }

  /**
   * Whatever the environment does: a caller that returns a result returns one that some call of the method
   * resolved with, and a caller fails only when its own call or its own storing of the result did.
   */
  lemma FinishedWasTold<Value>(actions: seq<Action<Value>>, c: Caller)
    ensures var s := Run(Initial<Value>(), actions);
      c in s.callers && s.callers[c].Finished? ==>
        if s.callers[c].outcome.Success? then ResolvedWith(actions, s.callers[c].outcome.value) else Rejected(actions, c)
  {
    RunAllAnswered(actions);
    assert var s := Run(Initial<Value>(), actions); c in s.callers ==> Answered(actions, c, s.callers[c]);
  }

  // ---------------------------------------------------------------- progress

  /** A caller that is past waiting can go on: the method it called may settle at any moment. */
  function StepOf<Value>(c: Caller, p: Progress<Value>): Action<Value> {
    match p
    case Waiting(_) => Get(c)
    case Checked(_, _) => Proceed(c)
    case Computing(_) => Reject(c)
    case Storing(_, _) => Store(c)
    case _ => Leave(c)
  }

  /** No deadlock: while a caller has not finished, the holder of its mutex can take its next step. */
  lemma SomeoneCanGoOn<Value>(s: Memo<Value>, c: Caller) returns (holder: Caller)
    requires LocksOk(s) && c in s.callers && !s.callers[c].Finished?
    ensures holder in s.callers && !s.callers[holder].Finished? && s.callers[holder].mutex == s.callers[c].mutex
    ensures Next(s, StepOf(holder, s.callers[holder])) != s
  {
    assert CallerOk(s, c);
    var m := s.callers[c].mutex;
    assert QueueOk(s, m);
    holder := s.queues[m][0];
    assert CallerOk(s, holder);
    var t := Next(s, StepOf(holder, s.callers[holder]));
    assert t.callers[holder] != s.callers[holder];
  }

  /** A throw, of the method or of storing its result, leaves the cache alone, fails its caller and hands the mutex on. */
  lemma ThrowReleases<Value>(s: Memo<Value>, c: Caller)
    requires LocksOk(s) && c in s.callers && (s.callers[c].Computing? || s.callers[c].Storing?)
    ensures var m, t := s.callers[c].mutex, Next(Next(s, Reject(c)), Leave(c));
      && m in s.queues && s.queues[m] != [] && s.queues[m][0] == c && t.queues == s.queues[m := s.queues[m][1..]]
      && t.entry == None && t.cache == s.cache && t.invocations == s.invocations
      && t.callers == s.callers[c := Finished(Failure(()))]
  {
    assert CallerOk(s, c);
    var failed := Next(s, Reject(c));
    assert failed.callers == s.callers[c := Leaving(s.callers[c].mutex, Failure(()))];
    assert failed.callers[c := Finished(Failure(()))] == s.callers[c := Finished(Failure(()))];
  }

  // ---------------------------------------------------------------- exactly when one call is enough

  /** What the environment may do to defeat the memo: a throw, a null result, an expiring entry. */
  datatype Hazard = Rejection | NullResult | Expiry

  predicate Drawn<Value>(hazards: set<Hazard>, a: Action<Value>) {
    && (a.Reject? ==> Rejection in hazards)
    && (a.Resolve? && a.result.None? ==> NullResult in hazards)
    && (a.Expire? ==> Expiry in hazards)
  }

  ghost predicate DrawnFrom<Value>(hazards: set<Hazard>, actions: seq<Action<Value>>) {
    forall i :: 0 <= i < |actions| ==> Drawn(hazards, actions[i])
  }

  /** No two callers have the wrapped method under way. */
  ghost predicate OneComputes<Value>(s: Memo<Value>) {
    forall c, d :: c in s.callers && d in s.callers && s.callers[c].Computing? && s.callers[d].Computing? ==> c == d
  }

  lemma InvOneComputes<Value>(s: Memo<Value>)
    requires Inv(s)
    ensures OneComputes(s)
  {
    forall c, d | c in s.callers && d in s.callers && s.callers[c].Computing? && s.callers[d].Computing? ensures c == d {
      if s.cache.None? {
        OneHolder(s, c, d);
      }
    }
  }

  /** Two callers, the first of which computes. */
  function Opening<Value>(): seq<Action<Value>> {
    [Call(0), Call(1), Get(0), Proceed(0)]
  }

  /** How the first call comes to nothing. */
  function Spoiled<Value>(hazard: Hazard, v: Value): seq<Action<Value>> {
    match hazard
    case Rejection => [Reject(0), Leave(0)]
    case NullResult => [Resolve(0, None), Store(0), Leave(0)]
    case Expiry => [Resolve(0, Some(v)), Store(0), Leave(0), Expire]
  }

  /** A third caller arrives, and it and the one still waiting compute at the same time. */
  function Closing<Value>(): seq<Action<Value>> {
    [Call(2), Get(1), Get(2), Proceed(1), Proceed(2)]
  }

  function Witness<Value>(hazard: Hazard, v: Value): seq<Action<Value>> {
    Opening() + Spoiled(hazard, v) + Closing()
  }

  /** Both callers of a failed, empty or expired first call compute at once, and the method is called three times. */
  ghost predicate TwoCompute<Value>(s: Memo<Value>) {
    s.invocations == 3 && 1 in s.callers && s.callers[1].Computing? && 2 in s.callers && s.callers[2].Computing?
  }

  function SpoiledOutcome<Value>(hazard: Hazard, v: Value): Progress<Value> {
    match hazard
    case Rejection => Finished(Failure(()))
    case NullResult => Finished(Success(None))
    case Expiry => Finished(Success(Some(v)))
  }

  /** The first caller computes, the second waits behind it. */
  function Opened<Value>(): Memo<Value> {
    Memo(Some(0), 1, map[0 := [0, 1]], None, map[0 := Computing(0), 1 := Waiting(0)], 1)
  }

  lemma {:induction false} RunConcat<Value>(s: Memo<Value>, a: seq<Action<Value>>, b: seq<Action<Value>>)
    ensures Run(s, a + b) == Run(Run(s, a), b)
  {
    if b == [] {
      assert a + b == a;
    } else {
      RunConcat(s, a, b[..|b| - 1]);
      assert (a + b)[..|a + b| - 1] == a + b[..|b| - 1];
    }
  }

  lemma RunFirst<Value>(s: Memo<Value>, actions: seq<Action<Value>>)
    requires actions != []
    ensures Run(s, actions) == Run(Next(s, actions[0]), actions[1..])
  {
    assert [actions[0]][..0] == [];
    assert Run(s, [actions[0]]) == Next(s, actions[0]);
    assert actions == [actions[0]] + actions[1..];
    RunConcat(s, [actions[0]], actions[1..]);
  }

  lemma TwoArrive<Value>()
    ensures Run(Initial<Value>(), [Call(0), Call(1)])
         == Memo(Some(0), 1, map[0 := [0, 1]], None, map[0 := Waiting(0), 1 := Waiting(0)], 0)
  {
    var s1: Memo<Value> := Memo(Some(0), 1, map[0 := [0]], None, map[0 := Waiting(0)], 0);
    assert [] + [0] == [0] && [0] + [1] == [0, 1];
    assert Next(Initial<Value>(), Call(0)) == s1;
    RunFirst(Initial<Value>(), [Call(0), Call(1)]);
    RunFirst(s1, [Call(0), Call(1)][1..]);
  }

  lemma HolderMisses<Value>(s: Memo<Value>, c: Caller, m: Mutex)
    requires s.cache.None? && c in s.callers && s.callers[c] == Waiting(m) && Holds(s, c, m)
    ensures Next(s, Get(c)) == s.(callers := s.callers[c := Checked(m, None)])
  {
  }

  lemma FirstComputes<Value>(s: Memo<Value>, actions: seq<Action<Value>>)
    requires s == Memo(Some(0), 1, map[0 := [0, 1]], None, map[0 := Waiting(0), 1 := Waiting(0)], 0)
    requires actions == [Get(0), Proceed(0)]
    ensures Run(s, actions) == Opened()
  {
    HolderMisses(s, 0, 0);
    var t := Next(s, Get(0));
    assert t.callers == map[0 := Checked(0, None), 1 := Waiting(0)];
    assert Next(t, Proceed(0)).callers == map[0 := Computing(0), 1 := Waiting(0)];
    RunFirst(s, actions);
    RunFirst(t, actions[1..]);
  }

  lemma FirstOpens<Value>()
    ensures Run(Initial<Value>(), Opening()) == Opened()
  {
    var arrive: seq<Action<Value>>, go: seq<Action<Value>> := [Call(0), Call(1)], [Get(0), Proceed(0)];
    assert Opening() == arrive + go;
    RunConcat(Initial<Value>(), arrive, go);
    TwoArrive<Value>();
    FirstComputes(Run(Initial<Value>(), arrive), go);
  }

  /** The first caller is done, nothing is cached, and the second still waits for a mutex that has left the map. */
  function Orphaned<Value>(first: Progress<Value>): Memo<Value> {
    Memo(None, 1, map[0 := [1]], None, map[0 := first, 1 := Waiting(0)], 1)
  }

  /** Leaving hands the mutex to the second caller and drops it from the map. */
  lemma FirstLeaves<Value>(s: Memo<Value>, outcome: Result<Option<Value>, ()>)
    requires s == Opened<Value>().(callers := map[0 := Leaving(0, outcome), 1 := Waiting(0)], cache := s.cache)
    ensures Next(s, Leave(0)) == Orphaned(Finished(outcome)).(cache := s.cache)
  {
    assert [0, 1][1..] == [1];
    assert s.queues[0 := [1]] == map[0 := [1]];
    assert s.callers[0 := Finished(outcome)] == map[0 := Finished(outcome), 1 := Waiting(0)];
  }

  lemma FirstRejects<Value>(s: Memo<Value>, actions: seq<Action<Value>>)
    requires s == Opened() && actions == [Reject(0), Leave(0)]
    ensures Run(s, actions) == Orphaned(Finished(Failure(())))
  {
    var s1 := s.(callers := map[0 := Leaving(0, Failure(())), 1 := Waiting(0)]);
    assert Next(s, Reject(0)) == s1;
    FirstLeaves(s1, Failure(()));
    RunFirst(s, actions);
    RunFirst(s1, actions[1..]);
  }

  lemma FirstStores<Value>(s: Memo<Value>, actions: seq<Action<Value>>, result: Option<Value>)
    requires s == Opened() && actions == [Resolve(0, result), Store(0), Leave(0)]
    ensures Run(s, actions) == Orphaned(Finished(Success(result))).(cache := result)
  {
    var s1 := s.(callers := map[0 := Storing(0, result), 1 := Waiting(0)]);
    var s2 := s.(callers := map[0 := Leaving(0, Success(result)), 1 := Waiting(0)], cache := result);
    assert Next(s, Resolve(0, result)) == s1;
    assert Next(s1, Store(0)) == s2;
    FirstLeaves(s2, Success(result));
    RunFirst(s, actions);
    RunFirst(s1, actions[1..]);
    RunFirst(s2, actions[2..]);
  }

  lemma FirstSpoils<Value>(s: Memo<Value>, hazard: Hazard, v: Value)
    requires s == Opened()
    ensures Run(s, Spoiled(hazard, v)) == Orphaned(SpoiledOutcome(hazard, v))
  {
    match hazard
    case Rejection => FirstRejects(s, Spoiled(hazard, v));
    case NullResult => FirstStores(s, Spoiled(hazard, v), None);
    case Expiry =>
      var stored: seq<Action<Value>> := [Resolve(0, Some(v)), Store(0), Leave(0)];
      assert Spoiled(hazard, v) == stored + [Expire];
      RunConcat(s, stored, [Expire]);
      FirstStores(s, stored, Some(v));
      var t := Run(s, stored);
      RunFirst(t, [Expire]);
      assert Next(t, Expire) == Orphaned(SpoiledOutcome(hazard, v));
  }

  lemma NewcomerArrives<Value>(s: Memo<Value>, first: Progress<Value>)
    requires s == Orphaned(first)
    ensures Next(s, Call(2))
         == Memo(Some(1), 2, map[0 := [1], 1 := [2]], None, map[0 := first, 1 := Waiting(0), 2 := Waiting(1)], 1)
  {
    assert [] + [2] == [2];
    assert s.queues[1 := [2]] == map[0 := [1], 1 := [2]];
    assert s.callers[2 := Waiting(1)] == map[0 := first, 1 := Waiting(0), 2 := Waiting(1)];
  }

  /** A newcomer gets its own mutex, so both it and the caller still waiting read an empty cache. */
  lemma BothMiss<Value>(actions: seq<Action<Value>>, s: Memo<Value>, first: Progress<Value>)
    requires actions == [Call(2), Get(1), Get(2)] && s == Orphaned(first)
    ensures var t := Run(s, actions);
      t.invocations == 1 && t.callers == map[0 := first, 1 := Checked(0, None), 2 := Checked(1, None)]
  {
    var s1 := Next(s, Call(2));
    NewcomerArrives(s, first);
    HolderMisses(s1, 1, 0);
    var s2 := s1.(callers := s1.callers[1 := Checked(0, None)]);
    HolderMisses(s2, 2, 1);
    RunFirst(s, actions);
    RunFirst(s1, actions[1..]);
    RunFirst(s2, actions[2..]);
  }

  lemma BothProceed<Value>(actions: seq<Action<Value>>, s: Memo<Value>, first: Progress<Value>)
    requires actions == [Proceed(1), Proceed(2)]
    requires s.callers == map[0 := first, 1 := Checked(0, None), 2 := Checked(1, None)]
    ensures var t := Run(s, actions);
      && t.invocations == s.invocations + 2
      && 1 in t.callers && t.callers[1].Computing? && 2 in t.callers && t.callers[2].Computing?
  {
    RunFirst(s, actions);
    RunFirst(Next(s, Proceed(1)), actions[1..]);
  }

  lemma BothCompute<Value>(s: Memo<Value>, first: Progress<Value>)
    requires s == Orphaned(first)
    ensures TwoCompute(Run(s, Closing()))
  {
    var miss: seq<Action<Value>>, go: seq<Action<Value>> := [Call(2), Get(1), Get(2)], [Proceed(1), Proceed(2)];
    assert Closing() == miss + go;
    RunConcat(s, miss, go);
    BothMiss(miss, s, first);
    BothProceed(go, Run(s, miss), first);
  }

  /**
   * The mutex alone guarantees nothing: after a throw, a null result or an expiry the map's entry is gone
   * while a caller still waits, a newcomer gets a mutex of its own, and both compute at the same time.
   */
  lemma TwoComputeAfter<Value>(hazard: Hazard, v: Value)
    ensures TwoCompute(Run(Initial<Value>(), Witness(hazard, v)))
    ensures DrawnFrom({hazard}, Witness(hazard, v))
  {
    var begun := Run(Initial<Value>(), Opening());
    var first := SpoiledOutcome(hazard, v);
    RunConcat(Initial<Value>(), Opening() + Spoiled(hazard, v), Closing());
    RunConcat(Initial<Value>(), Opening(), Spoiled(hazard, v));
    FirstOpens<Value>();
    FirstSpoils(begun, hazard, v);
    BothCompute(Run(begun, Spoiled(hazard, v)), first);
  }

  lemma DrawnFromMore<Value>(hazards: set<Hazard>, hazard: Hazard, actions: seq<Action<Value>>)
    requires DrawnFrom({hazard}, actions) && hazard in hazards
    ensures DrawnFrom(hazards, actions)
  {
    forall i | 0 <= i < |actions| ensures Drawn(hazards, actions[i]) {
      assert Drawn({hazard}, actions[i]);
    }
  }

  /** Every run that an environment with these hazards allows. */
  ghost predicate AlwaysOneComputes<Value(!new)>(hazards: set<Hazard>) {
    forall actions: seq<Action<Value>> :: DrawnFrom(hazards, actions) ==> OneComputes(Run(Initial<Value>(), actions))
  }

  ghost predicate AlwaysCalledOnce<Value(!new)>(hazards: set<Hazard>) {
    forall actions: seq<Action<Value>> :: DrawnFrom(hazards, actions) ==> Run(Initial<Value>(), actions).invocations <= 1
  }

  /**
   * At most one caller has the method under way, and it is called at most once, in every run, exactly when
   * the environment admits no throw, no null result and no expiry.
   */
  lemma AtMostOneIff<Value(!new)>(hazards: set<Hazard>, v: Value)
    ensures AlwaysOneComputes<Value>(hazards) <==> hazards == {}
    ensures AlwaysCalledOnce<Value>(hazards) <==> hazards == {}
  {
    if hazards == {} {
      forall actions: seq<Action<Value>> | DrawnFrom(hazards, actions)
        ensures OneComputes(Run(Initial<Value>(), actions)) && Run(Initial<Value>(), actions).invocations <= 1
      {
        forall i | 0 <= i < |actions| ensures Benign(actions[i]) {
          assert Drawn(hazards, actions[i]);
        }
        RunKeepsInv(actions);
        InvOneComputes(Run(Initial<Value>(), actions));
      }
    } else {
      var hazard :| hazard in hazards;
      TwoComputeAfter(hazard, v);
      DrawnFromMore(hazards, hazard, Witness(hazard, v));
      var s := Run(Initial<Value>(), Witness(hazard, v));
      assert !OneComputes(s) && s.invocations > 1;
    }
  }

  // ---------------------------------------------------------------- the decorated method

  /** What a step keeps, in the form the methods need it. */
  lemma StepKeeps<Value>(s: Memo<Value>, a: Action<Value>)
    requires LocksOk(s)
    ensures LocksOk(Next(s, a))
    ensures Inv(s) && Benign(a) ==> Inv(Next(s, a)) && Next(s, a).invocations <= 1
  {
    NextKeepsLocks(s, a);
    if Inv(s) && Benign(a) {
      NextKeepsInv(s, a);
    }
  }

  /** The state the decorator keeps for one key, with each stretch between two awaits as a method. */
  class CachedMethod<Value> {
    var functionCallMutex: Option<Mutex>
    var mutexesCreated: nat
    var queues: map<Mutex, seq<Caller>>
    var cached: Option<Value>
    var callers: map<Caller, Progress<Value>>
    var invocations: nat

    ghost function State(): Memo<Value>
      reads this
    {
      Memo(functionCallMutex, mutexesCreated, queues, cached, callers, invocations)
    }

    constructor ()
      ensures State() == Initial()
    {
      functionCallMutex, mutexesCreated, queues, cached, callers, invocations := None, 0, map[], None, map[], 0;
    }

    /** Looks the mutex up, creating it when the map has none, and queues for it. */
    method AcquireMutex(c: Caller)
      requires LocksOk(State()) && c !in callers
      modifies this
      ensures State() == Next(old(State()), Call(c)) && LocksOk(State())
      ensures old(Inv(State())) ==> Inv(State()) && invocations <= 1
    {
      ghost var before := State();
      if functionCallMutex.None? {
        functionCallMutex := Some(mutexesCreated);
        queues := queues[mutexesCreated := []];
        mutexesCreated := mutexesCreated + 1;
      }
      var m := functionCallMutex.value;
      queues := queues[m := queues[m] + [c]];
      callers := callers[c := Waiting(m)];
      assert State() == Arrive(before, c);
      StepKeeps(before, Call(c));
    }

    /** The holder reads the cache. */
    method ReadCache(c: Caller)
      requires LocksOk(State()) && c in callers && callers[c].Waiting? && Holds(State(), c, callers[c].mutex)
      modifies this`callers
      ensures State() == Next(old(State()), Get(c)) && LocksOk(State())
      ensures old(Inv(State())) ==> Inv(State()) && invocations <= 1
    {
      StepKeeps(State(), Get(c));
      callers := callers[c := Checked(callers[c].mutex, cached)];
    }

    /** A hit is returned; on a miss the wrapped method is called. */
    method UseOrCompute(c: Caller)
      requires LocksOk(State()) && c in callers && callers[c].Checked?
      modifies this`callers, this`invocations
      ensures State() == Next(old(State()), Proceed(c)) && LocksOk(State())
      ensures old(Inv(State())) ==> Inv(State()) && invocations <= 1
      ensures invocations == old(invocations) + (if old(callers[c].cached).Some? then 0 else 1)
    {
      StepKeeps(State(), Proceed(c));
      var p := callers[c];
      if p.cached.Some? {
        callers := callers[c := Leaving(p.mutex, Success(p.cached))];
      } else {
        invocations := invocations + 1;
        callers := callers[c := Computing(p.mutex)];
      }
    }

    /** The wrapped method settled: its result is stored next, its error thrown. */
    method Settle(c: Caller, result: Result<Option<Value>, ()>)
      requires LocksOk(State()) && c in callers && callers[c].Computing?
      modifies this`callers
      ensures State() == Next(old(State()), if result.Success? then Resolve(c, result.value) else Reject(c))
      ensures LocksOk(State())
      ensures old(Inv(State())) && result.Success? && result.value.Some? ==> Inv(State()) && invocations <= 1
    {
      StepKeeps(State(), if result.Success? then Resolve(c, result.value) else Reject(c));
      var m := callers[c].mutex;
      callers := callers[c := if result.Success? then Storing(m, result.value) else Leaving(m, Failure(()))];
    }

    method StoreResult(c: Caller)
      requires LocksOk(State()) && c in callers && callers[c].Storing?
      modifies this`callers, this`cached
      ensures State() == Next(old(State()), Store(c)) && LocksOk(State())
      ensures old(Inv(State())) ==> Inv(State()) && invocations <= 1
    {
      StepKeeps(State(), Store(c));
      var p := callers[c];
      cached := p.result;
      callers := callers[c := Leaving(p.mutex, Success(p.result))];
    }

    /** The finally block: release the mutex, then delete the map's entry. */
    method ReleaseMutex(c: Caller) returns (outcome: Result<Option<Value>, ()>)
      requires LocksOk(State()) && c in callers && callers[c].Leaving? && Holds(State(), c, callers[c].mutex)
      modifies this
      ensures State() == Next(old(State()), Leave(c)) && LocksOk(State())
      ensures old(Inv(State())) ==> Inv(State()) && invocations <= 1
      ensures outcome == old(callers[c].outcome)
    {
      StepKeeps(State(), Leave(c));
      var m := callers[c].mutex;
      outcome := callers[c].outcome;
      queues := queues[m := queues[m][1..]];
      callers := callers[c := Finished(outcome)];
      functionCallMutex := None;
    }
  }
}
