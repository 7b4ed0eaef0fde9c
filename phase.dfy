/**
 * The per-attempt bookkeeping of a test phase (RunTestWithLiveDashboard),
 * sequentialised: the actors' attempts run one after another, each random
 * draw, stopwatch reading and database outcome supplied as a Draw.
 */
module Phase {
  import opened Metrics
  import opened Users

  /** What the guarded database write did: committed, or raised an exception with this message. */
  datatype WriteResult = Saved | Threw(message: string)

  /**
   * The environment's side of one attempt: the coin that picks a donation
   * (random.Next(0, 2) == 0) over a task, the write's outcome, and the
   * stopwatch and clock readings recorded in the metric.
   */
  datatype Draw = Draw(chooseDonation: bool, write: WriteResult, durationMs: real, timestamp: int)

  /** The message of the exception raised by indexing an empty user list. */
  const INDEX_OUT_OF_RANGE: string :=
    "Index was out of range. Must be non-negative and less than the size of the collection. (Parameter 'index')"

  /**
   * The metric one attempt appends, for a user pool of `poolSize` users.
   * With an empty pool the user lookup throws before a kind is chosen.
   */
  function AttemptMetric(poolSize: nat, testName: string, d: Draw): OperationMetric
  {
    if poolSize == 0 then
      OperationMetric(testName, NO_KIND, d.durationMs, d.timestamp, true, INDEX_OUT_OF_RANGE)
    else
      var kind := if d.chooseDonation then DONATION else TASK;
      match d.write
      case Saved => OperationMetric(testName, kind, d.durationMs, d.timestamp, false, "")
      case Threw(msg) => OperationMetric(testName, kind, d.durationMs, d.timestamp, true, msg)
  }

  /** The metrics a sequence of attempts appends, in order. */
  function PhaseMetrics(poolSize: nat, testName: string, ds: seq<Draw>): seq<OperationMetric>
  {
    if ds == [] then []
    else PhaseMetrics(poolSize, testName, ds[..|ds| - 1]) + [AttemptMetric(poolSize, testName, ds[|ds| - 1])]
  }

  /** The actors' draws, actor after actor. */
  function Flatten(rows: seq<seq<Draw>>): seq<Draw>
  {
    if rows == [] then [] else Flatten(rows[..|rows| - 1]) + rows[|rows| - 1]
  }

  /** One row of `actionsPerUser` draws for each of `users` actors. */
  predicate DrawsFor(draws: seq<seq<Draw>>, users: nat, actionsPerUser: nat)
  {
    |draws| == users && forall i | 0 <= i < |draws| :: |draws[i]| == actionsPerUser
  }

  /**
   * Each attempt ends in exactly one of three outcomes, and the metric says
   * which: a created donation, a created task, or a failure.
   */
  lemma AttemptOutcome(poolSize: nat, testName: string, d: Draw)
    ensures var m := AttemptMetric(poolSize, testName, d);
      && m.testName == testName && m.durationMs == d.durationMs && m.timestamp == d.timestamp
      && (IsCreated(m, DONATION) <==> poolSize > 0 && d.write.Saved? && d.chooseDonation)
      && (IsCreated(m, TASK) <==> poolSize > 0 && d.write.Saved? && !d.chooseDonation)
      && (m.isFailed <==> poolSize == 0 || d.write.Threw?)
      && (m.isFailed ==> m.errorMessage == (if poolSize == 0 then INDEX_OUT_OF_RANGE else d.write.message))
      && (!m.isFailed ==> m.errorMessage == "")
      && (m.operationType == NO_KIND <==> poolSize == 0)
  {
  }

  lemma {:induction false} PhaseMetricsLength(poolSize: nat, testName: string, ds: seq<Draw>)
    ensures |PhaseMetrics(poolSize, testName, ds)| == |ds|
  {
    if ds != [] {
      PhaseMetricsLength(poolSize, testName, ds[..|ds| - 1]);
    }
  }

  lemma PhaseMetricsAppend(poolSize: nat, testName: string, ds: seq<Draw>, d: Draw)
    ensures PhaseMetrics(poolSize, testName, ds + [d]) == PhaseMetrics(poolSize, testName, ds) + [AttemptMetric(poolSize, testName, d)]
  {
    assert (ds + [d])[..|ds|] == ds;
  }

  lemma {:induction false} PhaseMetricsConcat(poolSize: nat, testName: string, a: seq<Draw>, b: seq<Draw>)
    ensures PhaseMetrics(poolSize, testName, a + b) == PhaseMetrics(poolSize, testName, a) + PhaseMetrics(poolSize, testName, b)
    decreases |b|
  {
    if b != [] {
      var init := b[..|b| - 1];
      assert (a + b)[..|a + b| - 1] == a + init && (a + b)[|a + b| - 1] == b[|b| - 1];
      PhaseMetricsConcat(poolSize, testName, a, init);
    } else {
      assert a + b == a;
    }
  }

  /** The i-th metric of a phase is the metric of its i-th attempt. */
  lemma {:induction false} PhaseMetricsAt(poolSize: nat, testName: string, ds: seq<Draw>, i: nat)
    requires i < |ds|
    ensures |PhaseMetrics(poolSize, testName, ds)| == |ds|
    ensures PhaseMetrics(poolSize, testName, ds)[i] == AttemptMetric(poolSize, testName, ds[i])
  {
    PhaseMetricsLength(poolSize, testName, ds);
    if i < |ds| - 1 {
      PhaseMetricsAt(poolSize, testName, ds[..|ds| - 1], i);
    }
  }

  /** A phase's metrics are all failures, donations or tasks, so its counters partition its attempts. */
  lemma PhaseCountsPartition(poolSize: nat, testName: string, ds: seq<Draw>)
    ensures var ms := PhaseMetrics(poolSize, testName, ds);
      |ms| == CountFailed(ms) + CountCreated(ms, DONATION) + CountCreated(ms, TASK)
  {
    var ms := PhaseMetrics(poolSize, testName, ds);
    PhaseMetricsLength(poolSize, testName, ds);
    forall i | 0 <= i < |ms| ensures ms[i].isFailed || ms[i].operationType in {DONATION, TASK} {
      PhaseMetricsAt(poolSize, testName, ds, i);
    }
    CountsPartition(ms);
  }

  /** With an empty user pool every attempt fails and nothing is created. */
  lemma {:induction false} EmptyPoolAllFail(testName: string, ds: seq<Draw>)
    ensures var ms := PhaseMetrics(0, testName, ds);
      CountFailed(ms) == |ds| && CountCreated(ms, DONATION) == 0 && CountCreated(ms, TASK) == 0
  {
    if ds != [] {
      var init := ds[..|ds| - 1];
      EmptyPoolAllFail(testName, init);
      CountsAppend(PhaseMetrics(0, testName, init), AttemptMetric(0, testName, ds[|ds| - 1]));
    }
  }

  /** With a non-empty pool no failure happens before a kind is chosen. */
  lemma {:induction false} NonEmptyPoolAlwaysKinded(poolSize: nat, testName: string, ds: seq<Draw>, i: nat)
    requires poolSize > 0 && i < |ds|
    ensures |PhaseMetrics(poolSize, testName, ds)| == |ds|
    ensures PhaseMetrics(poolSize, testName, ds)[i].operationType in {DONATION, TASK}
  {
    PhaseMetricsAt(poolSize, testName, ds, i);
  }

  /** Every actor contributes `actionsPerUser` attempts: users * actionsPerUser in all. */
  lemma {:induction false} FlattenLength(rows: seq<seq<Draw>>, users: nat, actionsPerUser: nat)
    requires DrawsFor(rows, users, actionsPerUser)
    ensures |Flatten(rows)| == users * actionsPerUser
  {
    if rows != [] {
      var init := rows[..|rows| - 1];
      assert DrawsFor(init, users - 1, actionsPerUser) by {
        forall i | 0 <= i < |init| ensures |init[i]| == actionsPerUser {
          assert init[i] == rows[i];
        }
      }
      FlattenLength(init, users - 1, actionsPerUser);
      assert (users - 1) * actionsPerUser + actionsPerUser == users * actionsPerUser;
    }
  }

  lemma FlattenStep(rows: seq<seq<Draw>>, i: nat)
    requires i < |rows|
    ensures Flatten(rows[..i + 1]) == Flatten(rows[..i]) + rows[i]
  {
    assert rows[..i + 1][..i] == rows[..i];
  }

  /**
   * The harness's shared state: the four counters the actors increment
   * and the metric list they append to (shared by all phases of one run).
   */
  class LoadStressHarness {
    var totalActions: int
    var failedActions: int
    var donationsCreated: int
    var tasksCreated: int
    var operationMetrics: seq<OperationMetric>

    constructor ()
      ensures totalActions == 0 && failedActions == 0 && donationsCreated == 0 && tasksCreated == 0
      ensures operationMetrics == []
    {
      totalActions, failedActions, donationsCreated, tasksCreated := 0, 0, 0, 0;
      operationMetrics := [];
    }

    /**
     * The counters describe `added`, the metrics this phase has appended
     * after `base`, the metrics of earlier phases.
     */
    ghost predicate Tallied(base: seq<OperationMetric>, added: seq<OperationMetric>)
      reads this
    {
      && operationMetrics == base + added
      && totalActions == |added|
      && failedActions == CountFailed(added)
      && donationsCreated == CountCreated(added, DONATION)
      && tasksCreated == CountCreated(added, TASK)
    }

    /** One iteration of an actor's loop: attempt a write and record its outcome. */
    method RecordAttempt(usersList: seq<ApplicationUser>, testName: string, d: Draw)
      modifies this
      ensures var m := AttemptMetric(|usersList|, testName, d);
        && operationMetrics == old(operationMetrics) + [m]
        && totalActions == old(totalActions) + 1
        && failedActions == old(failedActions) + (if m.isFailed then 1 else 0)
        && donationsCreated == old(donationsCreated) + (if IsCreated(m, DONATION) then 1 else 0)
        && tasksCreated == old(tasksCreated) + (if IsCreated(m, TASK) then 1 else 0)
    {
      var operationType := NO_KIND;
      if |usersList| == 0 {
        // picking a user indexes an empty list
        failedActions := failedActions + 1;
        totalActions := totalActions + 1;
        operationMetrics := operationMetrics
          + [OperationMetric(testName, operationType, d.durationMs, d.timestamp, true, INDEX_OUT_OF_RANGE)];
        return;
      }
      operationType := if d.chooseDonation then DONATION else TASK;
      match d.write {
        case Saved =>
          if d.chooseDonation {
            donationsCreated := donationsCreated + 1;
          } else {
            tasksCreated := tasksCreated + 1;
          }
          operationMetrics := operationMetrics
            + [OperationMetric(testName, operationType, d.durationMs, d.timestamp, false, "")];
          totalActions := totalActions + 1;
        case Threw(msg) =>
          failedActions := failedActions + 1;
          totalActions := totalActions + 1;
          operationMetrics := operationMetrics
            + [OperationMetric(testName, operationType, d.durationMs, d.timestamp, true, msg)];
      }
    }

    /** One actor's loop: its attempts, one after another, each tallied. */
    method RunActor(usersList: seq<ApplicationUser>, testName: string, actions: seq<Draw>,
                    ghost base: seq<OperationMetric>, ghost prior: seq<OperationMetric>)
      requires Tallied(base, prior)
      modifies this
      ensures Tallied(base, prior + PhaseMetrics(|usersList|, testName, actions))
    {
      assert actions[..0] == [] && prior + [] == prior;
      for j := 0 to |actions|
        invariant Tallied(base, prior + PhaseMetrics(|usersList|, testName, actions[..j]))
      {
        ghost var done := PhaseMetrics(|usersList|, testName, actions[..j]);
        ghost var m := AttemptMetric(|usersList|, testName, actions[j]);
        RecordAttempt(usersList, testName, actions[j]);
        assert actions[..j + 1] == actions[..j] + [actions[j]];
        PhaseMetricsAppend(|usersList|, testName, actions[..j], actions[j]);
        CountsAppend(prior + done, m);
        assert prior + done + [m] == prior + (done + [m]);
      }
      assert actions[..|actions|] == actions;
    }

    /**
     * One phase: `users` actors each make `actionsPerUser` attempts; the
     * counters start at zero and the result reports them.
     */
    method RunTest(usersList: seq<ApplicationUser>, users: nat, actionsPerUser: nat, testName: string,
                   draws: seq<seq<Draw>>) returns (result: TestResult)
      requires DrawsFor(draws, users, actionsPerUser)
      modifies this
      ensures Tallied(old(operationMetrics), PhaseMetrics(|usersList|, testName, Flatten(draws)))
      ensures result == TestResult(testName, users, actionsPerUser, totalActions, failedActions,
                                   donationsCreated, tasksCreated)
      ensures result.totalActions == users * actionsPerUser
      ensures result.totalActions == result.failedActions + result.donationsCreated + result.tasksCreated
    {
      ghost var base := operationMetrics;
      totalActions, failedActions, donationsCreated, tasksCreated := 0, 0, 0, 0;
      assert base + [] == base;
      for i := 0 to users
        invariant Tallied(base, PhaseMetrics(|usersList|, testName, Flatten(draws[..i])))
      {
        ghost var before := Flatten(draws[..i]);
        RunActor(usersList, testName, draws[i], base, PhaseMetrics(|usersList|, testName, before));
        FlattenStep(draws, i);
        PhaseMetricsConcat(|usersList|, testName, before, draws[i]);
      }
      assert draws[..users] == draws;
      FlattenLength(draws, users, actionsPerUser);
      PhaseMetricsLength(|usersList|, testName, Flatten(draws));
      PhaseCountsPartition(|usersList|, testName, Flatten(draws));
      result := TestResult(testName, users, actionsPerUser, totalActions, failedActions,
                           donationsCreated, tasksCreated);
    }

    /**
     * The two phases the program runs against one user pool: a load test of
     * 50 actors x 10 attempts, then a stress test of 200 actors x 20.
     */
    method RunLoadAndStress(usersList: seq<ApplicationUser>, loadDraws: seq<seq<Draw>>, stressDraws: seq<seq<Draw>>)
      returns (load: TestResult, stress: TestResult)
      requires DrawsFor(loadDraws, 50, 10) && DrawsFor(stressDraws, 200, 20)
      modifies this
      ensures var lm := PhaseMetrics(|usersList|, "Load Test", Flatten(loadDraws));
        load == TestResult("Load Test", 50, 10, 500, CountFailed(lm), CountCreated(lm, DONATION), CountCreated(lm, TASK))
      ensures var sm := PhaseMetrics(|usersList|, "Stress Test", Flatten(stressDraws));
        stress == TestResult("Stress Test", 200, 20, 4000, CountFailed(sm), CountCreated(sm, DONATION), CountCreated(sm, TASK))
      ensures load.totalActions == load.failedActions + load.donationsCreated + load.tasksCreated
      ensures stress.totalActions == stress.failedActions + stress.donationsCreated + stress.tasksCreated
      ensures Tallied(old(operationMetrics) + PhaseMetrics(|usersList|, "Load Test", Flatten(loadDraws)),
        PhaseMetrics(|usersList|, "Stress Test", Flatten(stressDraws)))
      ensures operationMetrics == old(operationMetrics)
        + PhaseMetrics(|usersList|, "Load Test", Flatten(loadDraws))
        + PhaseMetrics(|usersList|, "Stress Test", Flatten(stressDraws))
      ensures |operationMetrics| == |old(operationMetrics)| + load.totalActions + stress.totalActions
    {
      load := RunTest(usersList, 50, 10, "Load Test", loadDraws);
      stress := RunTest(usersList, 200, 20, "Stress Test", stressDraws);
    }
  }
}
