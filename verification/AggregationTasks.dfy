/**
 * The aggregation scheduler (src/aggregation/aggregation-tasks.service.ts): runners are started pass
 * by pass as the tables they depend on get filled, each with up to three attempts.
 */
module AggregationTasks {
  import opened Wrappers
  import opened Sequences

  type Table = int

  datatype Runner = Runner(name: string, fills: seq<Table>, dependsOn: seq<Table>)

  /** One call of a runner's `run`. */
  datatype Call = Call(runner: Runner, succeeded: bool)

  const MAX_TRIES: nat := 3

  function FilledBy(executed: seq<Runner>): seq<Table> {
    if executed == [] then [] else FilledBy(executed[..|executed| - 1]) + executed[|executed| - 1].fills
  }

  predicate CanStart(r: Runner, filled: seq<Table>) {
    forall i :: 0 <= i < |r.dependsOn| ==> r.dependsOn[i] in filled
  }

  /** Every runner starts after everything it depends on was filled by runners before it. */
  ghost predicate DependenciesFirst(executed: seq<Runner>) {
    executed == []
    || (DependenciesFirst(executed[..|executed| - 1]) && CanStart(executed[|executed| - 1], FilledBy(executed[..|executed| - 1])))
  }

  lemma {:induction false} DependenciesAreFirst(executed: seq<Runner>, i: nat)
    requires DependenciesFirst(executed) && i < |executed|
    ensures CanStart(executed[i], FilledBy(executed[..i]))
  {
    var init := executed[..|executed| - 1];
    if i < |init| {
      DependenciesAreFirst(init, i);
      assert init[..i] == executed[..i];
    }
  }

  /** No runner that could still start is left. */
  ghost predicate NothingLeft(runners: seq<Runner>, executed: seq<Runner>) {
    forall r :: r in runners && CanStart(r, FilledBy(executed)) ==> r in executed
  }

  /** The calls made for one runner: failures, then a success, or three failures. */
  ghost predicate Attempt(r: Runner, calls: seq<Call>, succeeded: bool) {
    && 1 <= |calls| <= 3
    && (forall j :: 0 <= j < |calls| ==> calls[j].runner == r)
    && (forall j :: 0 <= j < |calls| - 1 ==> !calls[j].succeeded)
    && calls[|calls| - 1].succeeded == succeeded
    && (!succeeded ==> |calls| == 3)
  }

  ghost predicate Outcomes(calls: seq<Call>, outcome: nat -> bool, start: nat) {
    forall j :: 0 <= j < |calls| ==> calls[j].succeeded == outcome(start + j)
  }

  /** `outcome(n)` tells whether the n-th call made in this job succeeds. */
  method ExecuteWithRetries(
      runner: Runner, outcome: nat -> bool, start: nat) returns (succeeded: bool, calls: seq<Call>)
    ensures Attempt(runner, calls, succeeded)
    ensures Outcomes(calls, outcome, start)
  {
    succeeded, calls := false, [];
    var executionNumber := 0;
    while !succeeded && executionNumber < MAX_TRIES
      invariant executionNumber <= MAX_TRIES
      invariant |calls| == executionNumber + (if succeeded then 1 else 0) <= MAX_TRIES
      invariant forall j :: 0 <= j < |calls| ==> calls[j].runner == runner && calls[j].succeeded == (succeeded && j == |calls| - 1)
      invariant Outcomes(calls, outcome, start)
      decreases !succeeded, MAX_TRIES - executionNumber
    {
      succeeded := outcome(start + |calls|);
      calls := calls + [Call(runner, succeeded)];
      if !succeeded {
        executionNumber := executionNumber + 1;
      }
    }
  }

  /** What a job leaves: the failed runner if it threw, the runners completed in order, all attempts. */
  datatype Report = Report(error: Option<Runner>, filledTables: seq<Table>, executed: seq<Runner>, attempts: seq<seq<Call>>)

  /** Every executed runner has its own attempt, and that ended in a success. */
  ghost predicate AllCompleted(executed: seq<Runner>, attempts: seq<seq<Call>>) {
    |executed| <= |attempts| && forall i :: 0 <= i < |executed| ==> Attempt(executed[i], attempts[i], true)
  }

  ghost predicate ReportOk(report: Report, runners: seq<Runner>, outcome: nat -> bool) {
    && report.filledTables == FilledBy(report.executed)
    && DependenciesFirst(report.executed)
    && multiset(report.executed) <= multiset(runners)
    && |report.attempts| == |report.executed| + (if report.error.Some? then 1 else 0)
    && AllCompleted(report.executed, report.attempts)
    && Outcomes(Flatten(report.attempts), outcome, 0)
  }

  lemma CompletedSnoc(executed: seq<Runner>, attempts: seq<seq<Call>>, r: Runner, calls: seq<Call>)
    requires AllCompleted(executed, attempts) && |executed| == |attempts|
    ensures AllCompleted(executed, attempts + [calls])
    ensures Attempt(r, calls, true) ==> AllCompleted(executed + [r], attempts + [calls])
  {
    var es, cs := executed + [r], attempts + [calls];
    assert forall i :: 0 <= i < |executed| ==> cs[i] == attempts[i] && es[i] == executed[i];
  }

  function Remove(rs: seq<Runner>, r: Runner): (rest: seq<Runner>)
    requires r in rs
    ensures multiset(rest) == multiset(rs) - multiset{r}
    ensures |rest| == |rs| - 1
  {
    if rs[0] == r then
      assert rs == [rs[0]] + rs[1..];
      rs[1..]
    else
      assert rs == [rs[0]] + rs[1..];
      [rs[0]] + Remove(rs[1..], r)
  }

  lemma ExecutedSnoc(executed: seq<Runner>, r: Runner)
    requires DependenciesFirst(executed) && CanStart(r, FilledBy(executed))
    ensures DependenciesFirst(executed + [r])
    ensures FilledBy(executed + [r]) == FilledBy(executed) + r.fills
  {
    assert (executed + [r])[..|executed|] == executed;
  }

  function Completed(report: Report, r: Runner, calls: seq<Call>): Report {
    Report(None, report.filledTables + r.fills, report.executed + [r], report.attempts + [calls])
  }

  function Failed(report: Report, r: Runner, calls: seq<Call>): Report {
    Report(Some(r), report.filledTables, report.executed, report.attempts + [calls])
  }

  /** A started runner extends the report, as completed or as the one that failed. */
  lemma ReportExtended(report: Report, runners: seq<Runner>, outcome: nat -> bool, r: Runner, calls: seq<Call>)
    requires ReportOk(report, runners, outcome) && report.error.None? && CanStart(r, report.filledTables)
    requires multiset(report.executed) + multiset{r} <= multiset(runners)
    requires Outcomes(calls, outcome, |Flatten(report.attempts)|)
    ensures Attempt(r, calls, true) ==> ReportOk(Completed(report, r, calls), runners, outcome)
    ensures ReportOk(Failed(report, r, calls), runners, outcome)
  {
    assert Outcomes(Flatten(report.attempts + [calls]), outcome, 0) by { FlattenSnoc(report.attempts, calls); }
    ExecutedSnoc(report.executed, r);
    CompletedSnoc(report.executed, report.attempts, r, calls);
    assert multiset(report.executed + [r]) == multiset(report.executed) + multiset{r};
  }

  /** Each runner of the list is either pending or executed, as often as it is listed. */
  ghost predicate Split(runners: seq<Runner>, pending: seq<Runner>, executed: seq<Runner>) {
    multiset(pending) + multiset(executed) == multiset(runners)
  }

  lemma SplitMoves(runners: seq<Runner>, pending: seq<Runner>, executed: seq<Runner>, r: Runner)
    requires Split(runners, pending, executed) && r in pending
    ensures Split(runners, Remove(pending, r), executed + [r])
    ensures multiset(executed) + multiset{r} <= multiset(runners)
  {
    assert r in multiset(pending);
    assert multiset(executed + [r]) == multiset(executed) + multiset{r};
  }

  lemma SplitCounts(runners: seq<Runner>, pending: seq<Runner>, executed: seq<Runner>)
    requires Split(runners, pending, executed)
    ensures |pending| + |executed| == |runners|
    ensures forall r :: r in runners <==> r in pending || r in executed
  {
    assert |multiset(pending)| == |pending| && |multiset(executed)| == |executed| && |multiset(runners)| == |runners|;
    forall r ensures r in runners <==> r in pending || r in executed {
      assert r in multiset(runners) <==> r in multiset(pending) || r in multiset(executed);
    }
  }

  /** No pending runner among the first `n` can start. */
  ghost predicate Stuck(runners: seq<Runner>, n: nat, pending: seq<Runner>, filled: seq<Table>)
    requires n <= |runners|
  {
    n == 0 || (Stuck(runners, n - 1, pending, filled) && !(runners[n - 1] in pending && CanStart(runners[n - 1], filled)))
  }

  lemma {:induction false} StuckMeans(runners: seq<Runner>, n: nat, pending: seq<Runner>, filled: seq<Table>)
    requires n <= |runners| && Stuck(runners, n, pending, filled)
    ensures forall j :: 0 <= j < n && runners[j] in pending ==> !CanStart(runners[j], filled)
  {
    if n > 0 {
      StuckMeans(runners, n - 1, pending, filled);
    }
  }

  /** Starts one runner: it is recorded as completed, or its error ends the job. */
  method RunOne(runners: seq<Runner>, outcome: nat -> bool, pending: seq<Runner>, report: Report, r: Runner)
    returns (after: Report)
    requires ReportOk(report, runners, outcome) && report.error.None? && Split(runners, pending, report.executed)
    requires r in pending && CanStart(r, report.filledTables)
    ensures ReportOk(after, runners, outcome)
    ensures after.error.None? ==> after.executed == report.executed + [r] && Split(runners, Remove(pending, r), after.executed)
    ensures after.error.Some? ==>
      && after.error.value == r && after.executed == report.executed && after.filledTables == report.filledTables
      && Attempt(r, after.attempts[|after.executed|], false)
  {
    var succeeded, calls := ExecuteWithRetries(r, outcome, |Flatten(report.attempts)|);
    SplitMoves(runners, pending, report.executed, r);
    ReportExtended(report, runners, outcome, r, calls);
    after := if succeeded then Completed(report, r, calls) else Failed(report, r, calls);
  }

  /** One pass over the list, starting every pending runner whose dependencies are filled by then. */
  method RunPass(runners: seq<Runner>, outcome: nat -> bool, pending0: seq<Runner>, report0: Report)
    returns (report: Report, pending: seq<Runner>, executedRunners: nat)
    requires ReportOk(report0, runners, outcome) && report0.error.None? && Split(runners, pending0, report0.executed)
    ensures ReportOk(report, runners, outcome) && Split(runners, pending, report.executed)
    ensures |report.executed| == |report0.executed| + executedRunners
    ensures report.error.None? && executedRunners == 0 ==> Stuck(runners, |runners|, pending, report.filledTables)
    ensures report.error.Some? ==>
      && report.error.value in pending && CanStart(report.error.value, report.filledTables)
      && Attempt(report.error.value, report.attempts[|report.executed|], false)
  {
    report, pending, executedRunners := report0, pending0, 0;
    for i := 0 to |runners|
      invariant report.error.None? && ReportOk(report, runners, outcome) && Split(runners, pending, report.executed)
      invariant |report.executed| == |report0.executed| + executedRunners
      invariant executedRunners == 0 ==> Stuck(runners, i, pending, report.filledTables)
    {
      var r := runners[i];
      if r in pending && CanStart(r, report.filledTables) {
        report := RunOne(runners, outcome, pending, report, r);
        if report.error.Some? {
          return;
        }
        executedRunners := executedRunners + 1;
        pending := Remove(pending, r);
      }
    }
  }

  method RunAggregations(runners: seq<Runner>, outcome: nat -> bool) returns (report: Report, passes: nat)
    ensures ReportOk(report, runners, outcome)
    ensures passes <= |runners|
    ensures report.error.None? ==> NothingLeft(runners, report.executed)
    ensures report.error.Some? ==>
      && multiset(report.executed) + multiset{report.error.value} <= multiset(runners)
      && CanStart(report.error.value, report.filledTables)
      && Attempt(report.error.value, report.attempts[|report.executed|], false)
  {
    report, passes := Report(None, [], [], []), 0;
    var pending := runners;
    while |pending| > 0
      invariant report.error.None? && ReportOk(report, runners, outcome) && Split(runners, pending, report.executed)
      invariant passes <= |report.executed|
      decreases |pending|
    {
      var executedRunners;
      SplitCounts(runners, pending, report.executed);
      report, pending, executedRunners := RunPass(runners, outcome, pending, report);
      passes := passes + 1;
      SplitCounts(runners, pending, report.executed);
      if report.error.Some? {
        SplitMoves(runners, pending, report.executed, report.error.value);
        return;
      }
      if executedRunners == 0 {
        StuckMeans(runners, |runners|, pending, report.filledTables);
        break;
      }
    }
    SplitCounts(runners, pending, report.executed);
  }

  // ---------------------------------------------------------------- the set of executed runners

  /** A set of runners containing every runner whose dependencies its members fill. */
  ghost predicate IsClosed(runners: seq<Runner>, s: set<Runner>) {
    forall r :: r in runners && (forall t :: t in r.dependsOn ==> exists q :: q in s && t in q.fills) ==> r in s
  }

  lemma {:induction false} FilledByMembers(executed: seq<Runner>, t: Table)
    ensures t in FilledBy(executed) <==> exists q :: q in executed && t in q.fills
  {
    if executed == [] {
    } else {
      var init, q := executed[..|executed| - 1], executed[|executed| - 1];
      assert executed == init + [q];
      FilledByMembers(init, t);
    }
  }

  /** Every order in which runners can start stays inside every closed set. */
  lemma {:induction false} StaysInClosedSets(runners: seq<Runner>, executed: seq<Runner>, s: set<Runner>)
    requires DependenciesFirst(executed) && IsClosed(runners, s)
    requires forall r :: r in executed ==> r in runners
    ensures forall r :: r in executed ==> r in s
  {
    if executed == [] {
    } else {
      var init, r := executed[..|executed| - 1], executed[|executed| - 1];
      assert executed == init + [r];
      StaysInClosedSets(runners, init, s);
      forall t | t in r.dependsOn ensures exists q :: q in s && t in q.fills {
        FilledByMembers(init, t);
      }
    }
  }

  /**
   * When nothing is left to start, the executed runners are the least set closed under "everything
   * it depends on is filled by a member".
   */
  lemma ExecutedIsLeastFixpoint(runners: seq<Runner>, executed: seq<Runner>)
    requires DependenciesFirst(executed) && NothingLeft(runners, executed)
    requires forall r :: r in executed ==> r in runners
    ensures IsClosed(runners, set r | r in executed)
    ensures forall s :: IsClosed(runners, s) ==> (set r | r in executed) <= s
  {
    var done := set r | r in executed;
    forall r | r in runners && (forall t :: t in r.dependsOn ==> exists q :: q in done && t in q.fills) ensures r in done {
      forall i | 0 <= i < |r.dependsOn| ensures r.dependsOn[i] in FilledBy(executed) {
        FilledByMembers(executed, r.dependsOn[i]);
        assert r.dependsOn[i] in r.dependsOn;
      }
    }
    forall s | IsClosed(runners, s) ensures done <= s {
      StaysInClosedSets(runners, executed, s);
    }
  }

  /** The order of the runner list does not matter: two complete jobs execute the same runners. */
  lemma ExecutedIgnoresListOrder(
      runners: seq<Runner>, other: seq<Runner>, executed: seq<Runner>, executedOther: seq<Runner>)
    requires multiset(runners) == multiset(other)
    requires DependenciesFirst(executed) && NothingLeft(runners, executed) && multiset(executed) <= multiset(runners)
    requires DependenciesFirst(executedOther) && NothingLeft(other, executedOther) && multiset(executedOther) <= multiset(other)
    ensures (set r | r in executed) == (set r | r in executedOther)
  {
    forall r ensures r in runners <==> r in other {
      assert r in multiset(runners) <==> r in multiset(other);
    }
    forall r | r in executed ensures r in runners { assert r in multiset(executed); }
    forall r | r in executedOther ensures r in other { assert r in multiset(executedOther); }
    ExecutedIsLeastFixpoint(runners, executed);
    ExecutedIsLeastFixpoint(other, executedOther);
    assert IsClosed(other, set r | r in executed);
    assert IsClosed(runners, set r | r in executedOther);
  }

  ghost predicate AllFailed(calls: seq<Call>) {
    |calls| == 3 && forall j :: 0 <= j < |calls| ==> !calls[j].succeeded
  }

  /** A job throws exactly when one of the runners it started failed all three attempts. */
  lemma ThrowsIffThreeFailures(report: Report, runners: seq<Runner>, outcome: nat -> bool)
    requires ReportOk(report, runners, outcome)
    requires report.error.Some? ==> Attempt(report.error.value, report.attempts[|report.executed|], false)
    ensures report.error.Some?
       <==> exists i :: 0 <= i < |report.attempts| && AllFailed(report.attempts[i])
  {
    var n := |report.executed|;
    if report.error.Some? {
      assert AllFailed(report.attempts[n]);
    }
    forall i | 0 <= i < n ensures !AllFailed(report.attempts[i]) {
      assert Attempt(report.executed[i], report.attempts[i], true);
    }
  }

  // ---------------------------------------------------------------- the hourly job

  class AggregationTasksService {
    const aggregationRunners: seq<Runner>
    var jobInProgress: bool
    var healthy: bool
    var lastSuccess: Option<int>
    var lastRun: Option<int>

    constructor (runners: seq<Runner>)
      ensures aggregationRunners == runners && !jobInProgress && healthy && lastSuccess == None && lastRun == None
    {
      aggregationRunners := runners;
      jobInProgress, healthy, lastSuccess, lastRun := false, true, None, None;
    }

    /**
     * A tick during a job changes nothing. Otherwise the job always releases its guard, and is healthy
     * exactly when it did not throw, even if runners with impossible dependencies never ran.
     */
    method RunAggregationJob(startedAt: int, finishedAt: int, outcome: nat -> bool) returns (report: Option<Report>)
      modifies this
      ensures old(jobInProgress) ==> report.None? && unchanged(this)
      ensures !old(jobInProgress) ==>
        && report.Some? && !jobInProgress && lastRun == Some(startedAt)
        && ReportOk(report.value, aggregationRunners, outcome)
        && healthy == report.value.error.None?
        && lastSuccess == (if healthy then Some(finishedAt) else old(lastSuccess))
        && (healthy ==> NothingLeft(aggregationRunners, report.value.executed))
    {
      if jobInProgress {
        return None;
      }
      jobInProgress := true;
      lastRun, healthy := Some(startedAt), true;
      var result, passes := RunAggregations(aggregationRunners, outcome);
      if result.error.None? {
        lastSuccess := Some(finishedAt);
      } else {
        healthy := false;
      }
      jobInProgress := false;
      report := Some(result);
    }
  }
}
