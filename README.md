# Disaster Alleviation load/stress harness — a Dafny model

This project models the sequential logic of the Disaster Alleviation database load and stress
test harness (`DisasterAlleviation.LoadStressTests/Program.cs`). It proves properties of that
model with Dafny. The harness:

- seeds a pool of test users;
- runs a *load* phase (50 simulated users × 10 actions) and a *stress* phase (200 × 20). In each
  phase every action picks a user, chooses between creating a donation and a volunteer task,
  writes it under a global lock, and records one `OperationMetric`;
- reports the ten slowest operations, the maximum duration and the number of slow (> 1 s)
  operations;
- grades the success rates and prints recommendations.

Modules, one per component of the harness:

- `Metrics` (`metrics.dfy`): the `OperationMetric` and `TestResult` records and the console
  colours. It also defines counting over a metric list (failed, created donations, created tasks),
  which is what the phase counters are specified against.
- `Phase` (`phase.dfy`): the per-attempt bookkeeping of `RunTestWithLiveDashboard`.
  - The class `LoadStressHarness` holds the four counters and the shared, append-only metric list.
  - `RecordAttempt` is one iteration of an actor's loop, `RunActor` one actor's loop, and `RunTest`
    one phase with its actors run one after another.
  - `RunLoadAndStress` runs the two phases as the program's entry point does.
  - The environment supplies each attempt as a `Draw`: the donation/task coin, whether the guarded
    write committed or threw (and with what message), and the stopwatch and clock readings.
- `Users` (`users.dfy`): `EnsureDefaultUsers` as a method with its loop, and the generated user
  for each index.
- `Decimal` (`decimal.dfy`): the `{n}` and `{n:D3}` renderings used in the generated users'
  strings. Their inverse, `DecimalValue`, is the partner the round-trip lemmas are stated against.
- `SlowOperations` (`slow_operations.dfy`): `OrderByDescending(m => m.DurationMs).Take(10)`,
  modelled as a stable insertion sort and a prefix, plus the maximum, the slow count, the early
  return and the row colour.
- `Thresholds` (`thresholds.dfy`): the 95 / 85 bands of the indicator and the row colour, and the
  four recommendation conditions.

Two behaviours of the program that are easy to assume otherwise:

- Ties in the slowest-operations list keep list order, because `OrderByDescending` is stable. They
  are not broken by timestamp. Each metric's timestamp is read under the metrics lock just before
  the metric is appended (229-237, 249-259), so list order is the order the timestamps were read
  in, and ties come out earliest timestamp first unless the wall clock goes backwards.
- An empty user pool or zero actors is not rejected up front. With an empty pool, every attempt
  fails on the user lookup (`random.Next(0)` is 0 and indexing an empty list throws), so every
  metric is a failure with operation type `""`. With zero actors or zero actions the phase
  records nothing.

## Model

| member | source | states |
|---|---|---|
| `Phase.AttemptOutcome` | DisasterAlleviation.LoadStressTests/Program.cs:172-260 | Each attempt ends in exactly one of: a created donation, a created task, or a failure. Success needs a non-empty pool and a committed write. A failure carries the exception message; a success carries an empty message. The kind stays `""` exactly when the user lookup threw before a kind was chosen. The test name, duration and timestamp come from the attempt. |
| `Phase.PhaseMetricsLength` | DisasterAlleviation.LoadStressTests/Program.cs:229-260 | A phase appends exactly one metric per attempt. None is lost or duplicated. |
| `Phase.PhaseMetricsAt` | DisasterAlleviation.LoadStressTests/Program.cs:170-260 | The i-th metric a phase appends is the metric of its i-th attempt. |
| `Phase.PhaseCountsPartition` | DisasterAlleviation.LoadStressTests/Program.cs:201-246 | The phase's metrics split exactly into failures, created donations and created tasks: `total == failed + donations + tasks`. |
| `Phase.EmptyPoolAllFail` | DisasterAlleviation.LoadStressTests/Program.cs:178-260 | With an empty user pool, every attempt is counted as failed and no donation or task is created. |
| `Phase.NonEmptyPoolAlwaysKinded` | DisasterAlleviation.LoadStressTests/Program.cs:178-205 | With a non-empty pool, every metric carries the kind "DONATION" or "TASK". |
| `Phase.FlattenLength` | DisasterAlleviation.LoadStressTests/Program.cs:165-170 | Every actor has `actionsPerUser` attempts, so a phase has `users * actionsPerUser` attempts in all. |
| `Phase.LoadStressHarness.constructor` | DisasterAlleviation.LoadStressTests/Program.cs:17 | The harness starts with zero counters and an empty metric list. |
| `Phase.LoadStressHarness.RecordAttempt` | DisasterAlleviation.LoadStressTests/Program.cs:172-261 | One attempt appends exactly its metric and increments `totalActions` once, on both paths. It increments exactly one of `failedActions`, `donationsCreated` and `tasksCreated`, the one the metric says. |
| `Phase.LoadStressHarness.RunActor` | DisasterAlleviation.LoadStressTests/Program.cs:170-262 | After an actor's loop, the counters still describe exactly the metrics the phase has appended so far. |
| `Phase.LoadStressHarness.RunTest` | DisasterAlleviation.LoadStressTests/Program.cs:147-291 | The counters start at zero. The metric list grows by the phase's metrics, in attempt order. The counters count exactly those metrics. The result reports the counters, with `totalActions == users * actionsPerUser` and `totalActions == failed + donations + tasks`. |
| `Phase.LoadStressHarness.RunLoadAndStress` | DisasterAlleviation.LoadStressTests/Program.cs:44-52 | The load phase makes 500 attempts and the stress phase 4000. Each result reports its phase's own failed, donation and task counts over that phase's metrics, and they add up to its total. The shared list holds the load metrics followed by the stress metrics, so its growth is the sum of the two totals. Afterwards the counters count exactly the stress metrics. |
| `Users.Take` | DisasterAlleviation.LoadStressTests/Program.cs:111 | `Take(count)` gives the first `min(count, n)` elements: all of them when there are fewer than `count`, none for a count of zero. |
| `Users.EnsureDefaultUsers` | DisasterAlleviation.LoadStressTests/Program.cs:107-139 | Returns exactly `minUsers` users. The fetched users are an unchanged prefix. `newUsersCount == minUsers - fetched`. The user at index i beyond the prefix is the generated user i. A save happens exactly when `newUsersCount > 0`. |
| `Users.DefaultUserNumber` | DisasterAlleviation.LoadStressTests/Program.cs:119-121 | The generated user's e-mail equals its user name and is "auto" + the numeral of i+1 + "@example.com". |
| `Users.DefaultUserCellphone` | DisasterAlleviation.LoadStressTests/Program.cs:124 | The cellphone number is "07100000" followed by digits that denote i+1, zero-padded to exactly three digits, or to its own number of digits when it has more. |
| `Users.DefaultUsersDistinct` | DisasterAlleviation.LoadStressTests/Program.cs:117-125 | Generated users at different indices never share an e-mail address or user name. |
| `Decimal.NatToStringRoundTrip` | DisasterAlleviation.LoadStressTests/Program.cs:119 | `{n}` is a non-empty digit string with no leading zero, and it denotes n. |
| `Decimal.ZeroPaddedRoundTrip` | DisasterAlleviation.LoadStressTests/Program.cs:124 | `{n:D3}` is a digit string of length `max(3, digits of n)` that denotes n. |
| `Decimal.NatToStringInjective` | DisasterAlleviation.LoadStressTests/Program.cs:119-121 | Different numbers render differently. |
| `SlowOperations.OrderByDurationDescendingCorrect` | DisasterAlleviation.LoadStressTests/Program.cs:379-380 | The descending order is a permutation of the metrics and is non-increasing in duration. It is stable: for every duration, the metrics of that duration keep their list order. |
| `SlowOperations.SlowestOperationsCorrect` | DisasterAlleviation.LoadStressTests/Program.cs:379-382 | The table has `min(10, n)` rows. They are non-increasing in duration and form a sub-multiset of the metrics. The metrics left out are never longer than any kept row. |
| `SlowOperations.SlowestOperationsOmitNothingLonger` | DisasterAlleviation.LoadStressTests/Program.cs:379-382 | A metric that is not in the table is no longer than any row of the table. |
| `SlowOperations.SlowestOperationsStable` | DisasterAlleviation.LoadStressTests/Program.cs:380-382 | For each duration, the rows with that duration are the first metrics of that duration, in list order. |
| `SlowOperations.EqualDurationsKeepOrder` | DisasterAlleviation.LoadStressTests/Program.cs:380 | Sorting metrics that all have the same duration leaves them as they are. |
| `SlowOperations.SlowestOperationsExample` | DisasterAlleviation.LoadStressTests/Program.cs:379-382 | For durations 50, 1200, 30, 900, 5, 1500 followed by six times 1 ms, the table has 10 rows. The first three are the 1500, 1200 and 900 ms operations, in that order. |
| `SlowOperations.AnalyseEmptyIff` | DisasterAlleviation.LoadStressTests/Program.cs:384-388 | The report returns early, before any statistic, exactly when no metric was recorded. |
| `SlowOperations.MaxDuration` | DisasterAlleviation.LoadStressTests/Program.cs:406 | The maximum duration is at least every duration and equals one of them. |
| `SlowOperations.SlowCountIsSlowOnes` | DisasterAlleviation.LoadStressTests/Program.cs:407 | The slow count is the number of metrics strictly over 1000 ms. The length of the filtered list is that count. Each metric occurs in the filtered list exactly as often as in the input when it is slow, and not at all otherwise. |
| `SlowOperations.SlowOnesMax` | DisasterAlleviation.LoadStressTests/Program.cs:486-491 | When some operation is slow, the worst slow operation is the worst operation overall, and it is over 1000 ms. |
| `SlowOperations.DurationColorBands` | DisasterAlleviation.LoadStressTests/Program.cs:396-397 | A row is red above 1000 ms, yellow above 500 ms up to 1000 ms, and green otherwise. |
| `SlowOperations.DurationColorMonotone` | DisasterAlleviation.LoadStressTests/Program.cs:396-397 | A longer operation is never shown in a milder colour. |
| `Thresholds.SuccessBands` | DisasterAlleviation.LoadStressTests/Program.cs:528-532 | A rate ≥ 95 gets ✅ and green. A rate in [85, 95) gets ⚠️ and yellow. A rate below 85 gets ❌ and red. Each holds in both directions. |
| `Thresholds.SuccessColorMonotone` | DisasterAlleviation.LoadStressTests/Program.cs:445-446 | A higher success rate never gets a worse row colour. |
| `Thresholds.RecommendationsIff` | DisasterAlleviation.LoadStressTests/Program.cs:496-522 | The high-failure advice is printed iff stress < 90. The degradation advice is printed iff the stress average exceeds twice the load average. The resilience advice is printed iff load ≥ 95 and stress ≥ 85. The scalability note is printed iff the stress average is below the load average. Each is printed at most once. |
| `Thresholds.RecommendationsCombinations` | DisasterAlleviation.LoadStressTests/Program.cs:504-522 | With non-negative averages, the degradation and scalability notes never both appear. The resilience and high-failure advice appear together exactly when load ≥ 95 and 85 ≤ stress < 90. |
| `Metrics.CountsPartition` | DisasterAlleviation.LoadStressTests/Program.cs:201-246 | In any list where every metric is a failure, a donation or a task, the three counts add up to the length of the list. |

## Left out

- Database and EF Core: `EnsureCreated` and the connection (24-40), `ToListAsync`, `Add` and
  `SaveChangesAsync` (111, 127, 134, 195-199, 217-221). A write is modelled only as committed or
  threw. The donation and task rows that are written (donor/helper id, random amount, status,
  GUID title) are not modelled.
- Users.EnsureDefaultUsers: the stored users are given as a sequence already in Id order. The
  GUID `Id` of a user is not modelled. A failing save during setup is not modelled.
- Concurrency: `Task.Run`, `Task.WhenAll`, `Interlocked`, the metrics lock and `ExecuteWithLock`
  (359-366). Actors run one after another, actor by actor. Every interleaving gives the same
  counters, but the real list holds the metrics in interleaving order, not actor by actor.
- Phase.LoadStressHarness.RecordAttempt: the exception that reaches the catch block arrives through
  `ExecuteWithLock`'s `task.Wait()` as an `AggregateException`. The model takes its message as
  given by the write outcome.
- Phase.LoadStressHarness.RunTest: `users` and `actionsPerUser` are natural numbers. A negative
  `users` would throw when the task array is allocated (155); that is not modelled.
- Users.EnsureDefaultUsers: `minUsers` is a natural number. The database runs `Take(minUsers)` as a row-count clause, which rejects a negative count, so a negative `minUsers` throws; that is not modelled. The program's only call passes 500.
- Phase.LoadStressHarness.RunTest: the counters (147-150) and `users * actionsPerUser` (153, 318) are 32-bit `int`s in the program and unbounded integers here. The two phases make at most 4000 attempts, far below 2^31, so no overflow is possible in the program's runs.
- The live dashboard (297-354), the headers, the error line and all console rendering (72-102,
  416-462), including the rows' status column ("✅ OK" / "❌ FAIL", 395) and the writing of the
  colours; which colour a row gets is modelled.
- Floating point and timing: `Stopwatch`, `DateTime.Now`, `TotalTimeSeconds` and
  `AvgTimePerActionMs` (287-288; the latter divides by a total that may be 0), the success-rate
  divisions (444, 475-476), `CalculateScalingFactor` (537-542), `Average` (405), and the progress
  percentage (315-324). `TestResult` omits the two timing fields. Durations, success rates and
  averages are exact `real` inputs, so NaN and infinity are not represented.
- Randomness: `random.Next` and `Guid.NewGuid`. Each attempt's choices are an input `Draw`. The
  index of the chosen user matters only for the row that is written, so only the pool's emptiness
  is modelled.
- DisasterAlleviation.TestsConsole/Program.cs and the web application are not part of this model.
