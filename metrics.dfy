/**
 * The records the load/stress harness keeps: one OperationMetric per write
 * attempt, one TestResult per phase, and the counting over a metric list
 * that states what the phase counters mean.
 */
module Metrics {

  /** The operation kinds a metric can carry; "" is the value before a kind is chosen. */
  const DONATION: string := "DONATION"
  const TASK: string := "TASK"
  const NO_KIND: string := ""

  /** One attempted write: the test it belongs to, its kind, its duration and outcome. */
  datatype OperationMetric = OperationMetric(
    testName: string,
    operationType: string,
    durationMs: real,
    timestamp: int,
    isFailed: bool,
    errorMessage: string)

  /** The aggregate snapshot a phase returns (the timing fields are not modelled). */
  datatype TestResult = TestResult(
    testName: string,
    users: nat,
    actionsPerUser: nat,
    totalActions: nat,
    failedActions: nat,
    donationsCreated: nat,
    tasksCreated: nat)

  /** The console colours the reports choose between. */
  datatype ConsoleColor = Green | Yellow | Red

  /** A metric recording a successful write of the given kind. */
  predicate IsCreated(m: OperationMetric, kind: string)
  {
    !m.isFailed && m.operationType == kind
  }

  /** Number of failed metrics in `ms`. */
  function CountFailed(ms: seq<OperationMetric>): (n: nat)
    ensures n <= |ms|
  {
    if ms == [] then 0
    else CountFailed(ms[..|ms| - 1]) + (if ms[|ms| - 1].isFailed then 1 else 0)
  }

  /** Number of successful metrics of kind `kind` in `ms`. */
  function CountCreated(ms: seq<OperationMetric>, kind: string): (n: nat)
    ensures n <= |ms|
  {
    if ms == [] then 0
    else CountCreated(ms[..|ms| - 1], kind) + (if IsCreated(ms[|ms| - 1], kind) then 1 else 0)
  }

  /** Every metric is a failure, a created donation or a created task. */
  ghost predicate WellKinded(ms: seq<OperationMetric>)
  {
    forall i | 0 <= i < |ms| :: ms[i].isFailed || ms[i].operationType in {DONATION, TASK}
  }

  lemma CountsAppend(ms: seq<OperationMetric>, m: OperationMetric)
    ensures CountFailed(ms + [m]) == CountFailed(ms) + (if m.isFailed then 1 else 0)
    ensures CountCreated(ms + [m], DONATION) == CountCreated(ms, DONATION) + (if IsCreated(m, DONATION) then 1 else 0)
    ensures CountCreated(ms + [m], TASK) == CountCreated(ms, TASK) + (if IsCreated(m, TASK) then 1 else 0)
  {
    assert (ms + [m])[..|ms|] == ms;
  }

  lemma {:induction false} CountsConcat(a: seq<OperationMetric>, b: seq<OperationMetric>)
    ensures CountFailed(a + b) == CountFailed(a) + CountFailed(b)
    ensures CountCreated(a + b, DONATION) == CountCreated(a, DONATION) + CountCreated(b, DONATION)
    ensures CountCreated(a + b, TASK) == CountCreated(a, TASK) + CountCreated(b, TASK)
    decreases |b|
  {
    if b != [] {
      var init := b[..|b| - 1];
      assert (a + b)[..|a + b| - 1] == a + init && (a + b)[|a + b| - 1] == b[|b| - 1];
      CountsConcat(a, init);
    } else {
      assert a + b == a;
    }
  }

  /**
   * In a list where every metric is a failure, a donation or a task, the
   * three counts partition the list: the counter identity of a phase.
   */
  lemma {:induction false} CountsPartition(ms: seq<OperationMetric>)
    requires WellKinded(ms)
    ensures |ms| == CountFailed(ms) + CountCreated(ms, DONATION) + CountCreated(ms, TASK)
  {
    if ms != [] {
      var init := ms[..|ms| - 1];
      assert WellKinded(init) by {
        forall i | 0 <= i < |init| ensures init[i].isFailed || init[i].operationType in {DONATION, TASK} {
          assert init[i] == ms[i];
        }
      }
      CountsPartition(init);
      assert ms[|ms| - 1].isFailed || ms[|ms| - 1].operationType in {DONATION, TASK};
    }
  }
}
