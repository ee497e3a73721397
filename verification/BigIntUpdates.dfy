/**
 * Merging of pending updates of one numeric column (src/utils/prisma.ts).
 *
 * A pending update is handed to the database once per batch, so merging must mean the same as
 * applying the updates one after another.
 */
module BigIntUpdates {
  import opened Wrappers
  import opened Sequences

  /** One pending update: nothing, a plain value, or an object of column operations. */
  datatype FieldUpdate =
    | Undefined
    | Direct(value: int)
    | Operations(setTo: Option<int>, increment: Option<int>, decrement: Option<int>,
                 multiply: Option<int>, divide: Option<int>)

  datatype MergeError = IncompatibleUpdates

  function Increment(n: int): FieldUpdate {
    Operations(None, Some(n), None, None, None)
  }

  function Decrement(n: int): FieldUpdate {
    Operations(None, None, Some(n), None, None)
  }

  function Multiply(n: int): FieldUpdate {
    Operations(None, None, None, Some(n), None)
  }

  function Divide(n: int): FieldUpdate {
    Operations(None, None, None, None, Some(n))
  }

  // ---------------------------------------------------------------- the merge

  datatype Arithmetic = Addition | Multiplication

  function SafeBigIntReverse(input: Option<int>): Option<int> {
    if input.Some? then Some(-input.value) else None
  }

  function ValueOrZero(input: Option<int>): int {
    if input.Some? then input.value else 0
  }

  function Reduce(kind: Arithmetic, input: seq<Option<int>>, start: int): int {
    if input == [] then start
    else
      var item := ValueOrZero(input[0]);
      Reduce(kind, input[1..], if kind == Addition then start + item else start * item)
  }

  /** Both kinds of reduction start from zero, as the source does. */
  function SafeBigintOperation(kind: Arithmetic, input: seq<Option<int>>): Option<int> {
    if forall i :: 0 <= i < |input| ==> input[i].None? then None
    else Some(Reduce(kind, input, 0))
  }

  function Merge(a: FieldUpdate, b: FieldUpdate): Result<FieldUpdate, MergeError> {
    if !a.Operations? || !b.Operations? then Success(b)
    else if b.increment.Some? || b.decrement.Some? then
      if b.setTo.Some? || b.divide.Some? || b.multiply.Some?
         || a.setTo.Some? || a.divide.Some? || a.multiply.Some? then Failure(IncompatibleUpdates)
      else
        var balance := SafeBigintOperation(Addition,
          [a.increment, b.increment, SafeBigIntReverse(a.decrement), SafeBigIntReverse(b.decrement)]);
        if balance.Some? && balance.value >= 0
        then Success(Operations(None, balance, None, None, None))
        else Success(Operations(None, None, SafeBigIntReverse(balance), None, None))
    else if b.multiply.Some? then
      if b.setTo.Some? || b.divide.Some?
         || a.setTo.Some? || a.divide.Some? || a.increment.Some? || a.decrement.Some?
      then Failure(IncompatibleUpdates)
      else Success(Operations(None, None, None, SafeBigintOperation(Multiplication, [a.multiply, b.multiply]), None))
    else if b.divide.Some? then
      if b.setTo.Some?
         || a.setTo.Some? || a.multiply.Some? || a.increment.Some? || a.decrement.Some?
      then Failure(IncompatibleUpdates)
      else Success(Operations(None, None, None, None, SafeBigintOperation(Multiplication, [a.divide, b.divide])))
    else Success(b)
  }

  // ---------------------------------------------------------------- what the database does

  /** The quotient without its fraction: what is left over has the sign of `x`. */
  function TruncatingDivision(x: int, d: int): (q: int)
    requires d != 0
    ensures var rest := x - q * d;
      (if x >= 0 then 0 <= rest else rest <= 0) && (rest < d || rest < -d) && (-rest < d || -rest < -d)
  {
    if x >= 0 then
      assert x == x / d * d + x % d;
      x / d
    else
      assert -x == (-x) / d * d + (-x) % d;
      assert -((-x) / d) * d == -((-x) / d * d);
      -((-x) / d)
  }

  /** The new column value; `None` when the database refuses the update. */
  function Apply(u: FieldUpdate, x: int): Option<int> {
    match u
    case Undefined => Some(x)
    case Direct(v) => Some(v)
    case Operations(Some(v), None, None, None, None) => Some(v)
    case Operations(None, Some(n), None, None, None) => Some(x + n)
    case Operations(None, None, Some(n), None, None) => Some(x - n)
    case Operations(None, None, None, Some(n), None) => Some(x * n)
    case Operations(None, None, None, None, Some(n)) => if n == 0 then None else Some(TruncatingDivision(x, n))
    case _ => None
  }

  // ---------------------------------------------------------------- counters

  /** A single increment or decrement. */
  predicate IsCounter(u: FieldUpdate) {
    u.Operations? && u.setTo.None? && u.multiply.None? && u.divide.None?
    && (u.increment.Some? <==> u.decrement.None?)
  }

  function Delta(u: FieldUpdate): int
    requires IsCounter(u)
  {
    if u.increment.Some? then u.increment.value else -u.decrement.value
  }

  /** The change a counter makes; zero for any other update. */
  function Change(u: FieldUpdate): int {
    if IsCounter(u) then Delta(u) else 0
  }

  /** The one update a net change is written as. */
  function Canonical(net: int): FieldUpdate {
    if net >= 0 then Increment(net) else Decrement(-net)
  }

  lemma ReduceFour(a: Option<int>, b: Option<int>, c: Option<int>, d: Option<int>)
    ensures Reduce(Addition, [a, b, c, d], 0) == ValueOrZero(a) + ValueOrZero(b) + ValueOrZero(c) + ValueOrZero(d)
  {
    var abc := ValueOrZero(a) + ValueOrZero(b) + ValueOrZero(c);
    assert [a, b, c, d][1..] == [b, c, d];
    assert [b, c, d][1..] == [c, d];
    assert [c, d][1..] == [d];
    assert Reduce(Addition, [c, d], ValueOrZero(a) + ValueOrZero(b)) == Reduce(Addition, [d], abc);
    assert Reduce(Addition, [d], abc) == Reduce(Addition, [], abc + ValueOrZero(d));
  }

  /** One merge of counters, whatever their shape, is the canonical update of the summed change. */
  lemma MergeCounters(a: FieldUpdate, b: FieldUpdate)
    requires IsCounter(a) && IsCounter(b)
    ensures Merge(a, b) == Success(Canonical(Delta(a) + Delta(b)))
  {
    var input := [a.increment, b.increment, SafeBigIntReverse(a.decrement), SafeBigIntReverse(b.decrement)];
    assert !forall i :: 0 <= i < |input| ==> input[i].None? by {
      if b.increment.Some? { assert input[1].Some?; } else { assert input[3].Some?; }
    }
    ReduceFour(input[0], input[1], input[2], input[3]);
  }

  /** Any way of merging a list of updates pairwise, keeping their order in the tree's leaves. */
  datatype MergeTree = Leaf(update: FieldUpdate) | Node(left: MergeTree, right: MergeTree)

  function Leaves(t: MergeTree): (us: seq<FieldUpdate>)
    ensures us != []
  {
    match t
    case Leaf(u) => [u]
    case Node(l, r) => Leaves(l) + Leaves(r)
  }

  function MergeAll(t: MergeTree): Result<FieldUpdate, MergeError> {
    match t
    case Leaf(u) => Success(u)
    case Node(l, r) =>
      var a := MergeAll(l);
      var b := MergeAll(r);
      if a.Failure? then a else if b.Failure? then b else Merge(a.value, b.value)
  }

  ghost predicate AllCounters(us: seq<FieldUpdate>) {
    forall i :: 0 <= i < |us| ==> IsCounter(us[i])
  }

  function ApplyEach(us: seq<FieldUpdate>, x: int): Option<int> {
    if us == [] then Some(x)
    else
      var y := Apply(us[0], x);
      if y.None? then None else ApplyEach(us[1..], y.value)
  }

  ghost function Net(us: seq<FieldUpdate>): int
    requires AllCounters(us)
  {
    if us == [] then 0 else Delta(us[0]) + Net(us[1..])
  }

  lemma {:induction false} NetConcat(a: seq<FieldUpdate>, b: seq<FieldUpdate>)
    requires AllCounters(a) && AllCounters(b)
    ensures AllCounters(a + b) && Net(a + b) == Net(a) + Net(b)
  {
    if a == [] {
      assert a + b == b;
    } else {
      NetConcat(a[1..], b);
      assert (a + b)[1..] == a[1..] + b;
    }
  }

  lemma {:induction false} ApplyEachIsNet(us: seq<FieldUpdate>, x: int)
    requires AllCounters(us)
    ensures ApplyEach(us, x) == Some(x + Net(us))
  {
    if us == [] {
    } else {
      ApplyEachIsNet(us[1..], x + Delta(us[0]));
    }
  }

  lemma {:induction false} MergeAllIsNet(t: MergeTree)
    requires AllCounters(Leaves(t))
    ensures MergeAll(t) == Success(if t.Leaf? then t.update else Canonical(Net(Leaves(t))))
    ensures IsCounter(MergeAll(t).value) && Delta(MergeAll(t).value) == Net(Leaves(t))
  {
    match t
    case Leaf(u) =>
    case Node(l, r) =>
      var ls, rs := Leaves(l), Leaves(r);
      assert AllCounters(ls) by {
        forall i | 0 <= i < |ls| ensures IsCounter(ls[i]) { assert ls[i] == (ls + rs)[i]; }
      }
      assert AllCounters(rs) by {
        forall i | 0 <= i < |rs| ensures IsCounter(rs[i]) { assert rs[i] == (ls + rs)[|ls| + i]; }
      }
      MergeAllIsNet(l);
      MergeAllIsNet(r);
      NetConcat(ls, rs);
      MergeCounters(MergeAll(l).value, MergeAll(r).value);
  }

  /** However counters are bracketed, applying the merge is applying them one after another. */
  lemma MergeMeansSequence(t: MergeTree, x: int)
    requires AllCounters(Leaves(t))
    ensures MergeAll(t).Success?
    ensures Apply(MergeAll(t).value, x) == ApplyEach(Leaves(t), x)
  {
    MergeAllIsNet(t);
    ApplyEachIsNet(Leaves(t), x);
  }

  lemma {:induction false} NetIsSum(us: seq<FieldUpdate>)
    requires AllCounters(us)
    ensures Net(us) == Sum(Change, us)
  {
    if us == [] {
    } else {
      NetIsSum(us[1..]);
    }
  }

  lemma LeafHasOneUpdate(t: MergeTree)
    ensures t.Leaf? <==> |Leaves(t)| == 1
  {
  }

  /** Order and bracketing never change the merged update itself, not merely its effect. */
  lemma MergeIgnoresOrderAndBrackets(t: MergeTree, s: MergeTree)
    requires AllCounters(Leaves(t)) && AllCounters(Leaves(s))
    requires multiset(Leaves(t)) == multiset(Leaves(s))
    ensures MergeAll(t) == MergeAll(s)
  {
    MergeAllIsNet(t);
    MergeAllIsNet(s);
    NetIsSum(Leaves(t));
    NetIsSum(Leaves(s));
    SumIgnoresOrder(Change, Leaves(t), Leaves(s));
    assert |Leaves(t)| == |multiset(Leaves(t))| == |Leaves(s)|;
    if t.Leaf? || s.Leaf? {
      LeafHasOneUpdate(t);
      LeafHasOneUpdate(s);
      assert Leaves(t)[0] in multiset(Leaves(s));
    }
  }

  /** Merging amounts that are never negative leaves an amount that is never negative. */
  lemma {:induction false} MergeKeepsAmountsNonNegative(t: MergeTree)
    requires AllCounters(Leaves(t))
    requires forall i :: 0 <= i < |Leaves(t)| ==>
      var u := Leaves(t)[i]; (u.increment.Some? ==> u.increment.value >= 0) && (u.decrement.Some? ==> u.decrement.value >= 0)
    ensures MergeAll(t).Success? && IsCounter(MergeAll(t).value)
    ensures var m := MergeAll(t).value;
      (m.increment.Some? && m.increment.value >= 0) || (m.decrement.Some? && m.decrement.value >= 0)
  {
    MergeAllIsNet(t);
    if t.Leaf? {
      assert Leaves(t)[0] == t.update;
    }
  }

  // ---------------------------------------------------------------- where merging goes wrong

  lemma ReduceProductIsZero(m: int, n: int)
    ensures SafeBigintOperation(Multiplication, [Some(m), Some(n)]) == Some(0)
  {
    var input := [Some(m), Some(n)];
    assert input[0].Some?;
    assert input[1..] == [Some(n)];
    assert input[1..][1..] == [];
    assert Reduce(Multiplication, input, 0) == Reduce(Multiplication, [Some(n)], 0 * m);
    assert 0 * m == 0 && 0 * n == 0;
    assert Reduce(Multiplication, [Some(n)], 0) == Reduce(Multiplication, [], 0 * n);
  }

  lemma ProductIsZeroIff(a: int, b: int)
    ensures a * b == 0 <==> a == 0 || b == 0
  {
  }

  /**
   * Products are accumulated from zero, so a merged multiplication always writes zero. It agrees
   * with multiplying twice exactly when one of the three factors is already zero.
   */
  lemma MergedMultiplicationAgreesIff(m: int, n: int, x: int)
    ensures Merge(Multiply(m), Multiply(n)) == Success(Multiply(0))
    ensures Apply(Merge(Multiply(m), Multiply(n)).value, x) == ApplyEach([Multiply(m), Multiply(n)], x)
            <==> x == 0 || m == 0 || n == 0
  {
    ReduceProductIsZero(m, n);
    var us := [Multiply(m), Multiply(n)];
    assert ApplyEach(us, x) == Some(x * m * n) by {
      assert us[1..] == [Multiply(n)];
      assert ApplyEach([Multiply(n)], x * m) == ApplyEach([], x * m * n);
    }
    ProductIsZeroIff(x * m, n);
    ProductIsZeroIff(x, m);
  }

  /** A merged division is a division by zero, which the database always refuses. */
  lemma MergedDivisionIsRefused(m: int, n: int, x: int)
    ensures Merge(Divide(m), Divide(n)).Success?
    ensures Apply(Merge(Divide(m), Divide(n)).value, x) == None
  {
    ReduceProductIsZero(m, n);
  }

  // ---------------------------------------------------------------- every merge

  /** The kinds of operation that exclude each other. */
  datatype Family = Setting | Adding | Multiplying | Dividing

  function Families(u: FieldUpdate): set<Family>
    requires u.Operations?
  {
    (if u.setTo.Some? then {Setting} else {})
    + (if u.increment.Some? || u.decrement.Some? then {Adding} else {})
    + (if u.multiply.Some? then {Multiplying} else {})
    + (if u.divide.Some? then {Dividing} else {})
  }

  /** The family that decides how an update is merged; without one it replaces what was pending. */
  function Leading(u: FieldUpdate): Option<Family> {
    if !u.Operations? then None
    else if u.increment.Some? || u.decrement.Some? then Some(Adding)
    else if u.multiply.Some? then Some(Multiplying)
    else if u.divide.Some? then Some(Dividing)
    else None
  }

  /** A merge is refused exactly when two objects of operations are not all of the later one's leading family. */
  lemma MergeFailsIff(a: FieldUpdate, b: FieldUpdate)
    ensures Merge(a, b).Failure?
       <==> a.Operations? && Leading(b).Some? && !(Families(a) + Families(b) <= {Leading(b).value})
  {
    if a.Operations? && b.Operations? && Leading(b).Some? {
      var all := Families(a) + Families(b);
      assert Setting in all <==> a.setTo.Some? || b.setTo.Some?;
      assert Adding in all <==> a.increment.Some? || a.decrement.Some? || b.increment.Some? || b.decrement.Some?;
      assert Multiplying in all <==> a.multiply.Some? || b.multiply.Some?;
      assert Dividing in all <==> a.divide.Some? || b.divide.Some?;
      assert all <= {Leading(b).value} <==> forall f: Family :: f in all ==> f == Leading(b).value;
    }
  }

  lemma ProductOfTwoIsZero(m: Option<int>, n: int)
    ensures SafeBigintOperation(Multiplication, [m, Some(n)]) == Some(0)
  {
    ReduceProductIsZero(ValueOrZero(m), n);
    var input := [m, Some(n)];
    assert input[1].Some? && input[1..] == [Some(n)];
    assert [Some(ValueOrZero(m)), Some(n)][1..] == [Some(n)];
    assert Reduce(Multiplication, input, 0) == Reduce(Multiplication, [Some(n)], 0 * ValueOrZero(m));
  }

  /**
   * What a merge that is not refused writes: additions their net amount, products and quotients zero, and
   * anything else the later update alone.
   */
  lemma MergeWrites(a: FieldUpdate, b: FieldUpdate)
    requires Merge(a, b).Success?
    ensures var merged := Merge(a, b).value;
      if !a.Operations? || Leading(b).None? then merged == b
      else match Leading(b).value
        case Adding =>
          merged == Canonical(ValueOrZero(a.increment) + ValueOrZero(b.increment)
                              - ValueOrZero(a.decrement) - ValueOrZero(b.decrement))
        case Multiplying => merged == Multiply(0)
        case Dividing => merged == Divide(0)
        case Setting => false
  {
    if a.Operations? && Leading(b).Some? {
      match Leading(b).value
      case Adding =>
        var input := [a.increment, b.increment, SafeBigIntReverse(a.decrement), SafeBigIntReverse(b.decrement)];
        assert !forall i :: 0 <= i < |input| ==> input[i].None? by {
          if b.increment.Some? { assert input[1].Some?; } else { assert input[3].Some?; }
        }
        ReduceFour(input[0], input[1], input[2], input[3]);
      case Multiplying => ProductOfTwoIsZero(a.multiply, b.multiply.value);
      case Dividing => ProductOfTwoIsZero(a.divide, b.divide.value);
      case Setting =>
    }
  }

  /** A later plain value or `set` wins over whatever was pending, and is what the database writes. */
  lemma LaterValueWins(a: FieldUpdate, v: int, x: int)
    ensures Merge(a, Direct(v)) == Success(Direct(v)) && Apply(Direct(v), x) == Some(v)
    ensures var later := Operations(Some(v), None, None, None, None);
      Merge(a, later) == Success(later) && Apply(later, x) == Some(v)
  {
  }
}
