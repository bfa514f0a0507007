# Step tracker and idea log, in Dafny

This project models the core of the StepTrackerIdeaLog console program. That program records short walks: a step count, a duration in minutes, a free-text idea and a cosmetic character style. It then reports on them. The model covers four parts:

- **The session record** `WalkSession` and the guarded rate `StepsPerMinute`. The rate is 0 when the duration is not positive and `steps / minutes` otherwise.
- **The session log** `StepTracker`. It is a class over a fixed array of `MaxSessions` (5) slots plus a `count`, as in the program.
  - `AddSession` is a guarded append. It rejects a session when the log is full or when the steps or minutes are not positive, and a rejected call changes nothing.
  - `GetSessionCount`, `GetTotalSteps` and `GetAverageStepsPerMinute` read the log. The last two are loops over the stored prefix, proved against the specification functions `SumSteps` and `MeanRate`.
  - The class invariant `Valid()` states three things: the array has 5 slots; `0 <= count <= 5`; every stored session has positive steps and minutes.
- **The metrics helper** `Metrics`, with its own guarded rate over whole minutes.
- **The activity hierarchy** (base activity, walk, run). It is a tagged datatype `Activity = Plain | Walk | Run`, and a run carries a treadmill flag.

Minutes and rates are Dafny `real`, and step counts are mathematical `int`. The results stated are the exact quotients and sums.

Two modelling choices follow the code literally:

- The capacity is the global constant `MAX_SESSIONS`, not a parameter of the log.
- `steps` is a signed `int` that the log (not the type) restricts to positive values.

## Model

| member | source | states |
|---|---|---|
| `StepTrackerIdeaLog.StyleCode` | StepTrackerIdeaLog/StepTrackerIdeaLog.cpp:19-23 | each style carries a number between 1 and 3 |
| `StepTrackerIdeaLog.StyleOfCode` | StepTrackerIdeaLog/StepTrackerIdeaLog.cpp:19-23 | a number names a style exactly when it is 1, 2 or 3, and the style it names carries that number |
| `StepTrackerIdeaLog.StyleCodeRoundTrip` | StepTrackerIdeaLog/StepTrackerIdeaLog.cpp:19-23 | turning a style into its number and back gives the same style |
| `StepTrackerIdeaLog.StepsPerMinute` | StepTrackerIdeaLog/StepTrackerIdeaLog.cpp:266-270 | the rate is 0 for any steps when minutes <= 0; otherwise rate * minutes == steps; it is positive for an accepted session |
| `StepTrackerIdeaLog.StepTracker.constructor` | StepTrackerIdeaLog/StepTrackerIdeaLog.cpp:133-139 | a new log satisfies the invariant, stores no sessions, and every slot holds the default session |
| `StepTrackerIdeaLog.StepTracker.AddSession` | StepTrackerIdeaLog/StepTrackerIdeaLog.cpp:141-147 | succeeds exactly when count < 5, steps > 0 and minutes > 0. On success the session lands at index old count, count grows by 1 and the stored sequence gains it at the end. On failure count and every slot are unchanged. No other slot changes, and the invariant is kept |
| `StepTrackerIdeaLog.StepTracker.GetSessionCount` | StepTrackerIdeaLog/StepTrackerIdeaLog.cpp:149-151 | returns the number of stored sessions, which lies between 0 and 5 |
| `StepTrackerIdeaLog.StepTracker.GetTotalSteps` | StepTrackerIdeaLog/StepTrackerIdeaLog.cpp:153-158 | returns the sum of steps over the stored sessions, which is at least the number of sessions |
| `StepTrackerIdeaLog.StepTracker.GetAverageStepsPerMinute` | StepTrackerIdeaLog/StepTrackerIdeaLog.cpp:160-167 | returns the mean of the per-session rates of the stored sessions. Every divisor is positive by the invariant. The result is 0 exactly when the log is empty |
| `StepTrackerIdeaLog.SumStepsPermutation` | StepTrackerIdeaLog/StepTrackerIdeaLog.cpp:153-158 | two logs holding the same sessions in any order have the same total |
| `StepTrackerIdeaLog.SumStepsAtLeastLength` | StepTrackerIdeaLog/StepTrackerIdeaLog.cpp:153-158 | over accepted sessions the total is at least the number of sessions |
| `StepTrackerIdeaLog.MeanRateBounds` | StepTrackerIdeaLog/StepTrackerIdeaLog.cpp:160-167 | the mean of a non-empty log lies between any lower and upper bound of the per-session rates, so equal rates average to that rate |
| `StepTrackerIdeaLog.MeanRateZeroIffEmpty` | StepTrackerIdeaLog/StepTrackerIdeaLog.cpp:160-167 | over accepted sessions the mean rate is 0 if and only if there are no sessions |
| `StepTrackerIdeaLog.Metrics.SetSteps` | StepTrackerIdeaLog/StepTrackerIdeaLog.cpp:81-82 | after setting the steps, the getter returns the new value |
| `StepTrackerIdeaLog.Metrics.StepsPerMinute` | StepTrackerIdeaLog/StepTrackerIdeaLog.cpp:84-87 | the rate is 0 when minutes <= 0; otherwise rate * minutes == steps |
| `StepTrackerIdeaLog.SessionRateAgreesWithMetrics` | StepTrackerIdeaLog/StepTrackerIdeaLog.cpp:84-87 | for whole-number minutes the session rate and the metrics rate coincide, guards included |
| `StepTrackerIdeaLog.GettersReturnStoredFields` | StepTrackerIdeaLog/StepTrackerIdeaLog.cpp:57-120 | the plain, walk and run activities return the name, duration and style they were built with. Walks and runs also keep their steps, and runs their treadmill flag. The default-built metrics, activity, walk and run hold an empty name, duration 0, 0 steps, the Vampire style and no treadmill |
| `StepTrackerIdeaLog.TotalStepsExample` | StepTrackerIdeaLog/StepTrackerIdeaLog.cpp:325-330 | adding (1000 steps, 20 min) and (2000 steps, 40 min) to a new log gives a total of 3000 |
| `StepTrackerIdeaLog.ZeroMinutesExample` | StepTrackerIdeaLog/StepTrackerIdeaLog.cpp:332-335 | a session of 100 steps in 0.0 minutes has rate 0; adding it to a new log is rejected and the log stays empty |
| `StepTrackerIdeaLog.AverageExample` | StepTrackerIdeaLog/StepTrackerIdeaLog.cpp:160-167 | adding (600, 30) and (1200, 60) gives an average of 20 steps per minute |
| `StepTrackerIdeaLog.CapacityExample` | StepTrackerIdeaLog/StepTrackerIdeaLog.cpp:141-147 | five valid sessions are accepted, the sixth is rejected, and the count stays 5 |
| `StepTrackerIdeaLog.MetricsRateExample` | StepTrackerIdeaLog/StepTrackerIdeaLog.cpp:310-318 | 300 steps over 30 minutes is 10 per minute, and a walk built with 20 minutes reports duration 20 |

## Left out

- Console I/O is not modelled: the banner, the menu, the `getMenuChoice` retry loop and the `main` dispatch loop. They only prompt and recover `cin` errors.
- The interactive free function `addSession(WalkSession[], int&)` is not modelled. It validates steps, minutes and style by re-prompting on the console. Its style check matches `StyleOfCode`, and its steps/minutes check matches the guard in `StepTracker.AddSession`.
- `displaySessions` and `saveToFile` are not modelled. They do column formatting, two-decimal output and writing `walk_report.txt`.
- The virtual `print` methods of the activity classes are not modelled, because they only write to standard output. The rate a walk or run prints is `Metrics.StepsPerMinute` over its duration.
- StepTrackerIdeaLog.StepTracker.AddSession: minutes are a finite real here, so NaN and the infinities of a C++ `double` are not modelled. The program's guard `minutes <= 0` is false for NaN, so the program accepts a NaN-minute session, and it accepts an infinite one. The positivity invariant `Valid()` and the acceptance condition hold here only because minutes are finite.
- StepTrackerIdeaLog.StepsPerMinute: states the exact real quotient. IEEE-754 double rounding is not modelled. Non-finite minutes are not modelled either: in the program, NaN minutes give a NaN rate, not 0, and infinite minutes give 0.
- StepTrackerIdeaLog.Metrics.StepsPerMinute: states the exact real quotient. IEEE-754 double rounding is not modelled.
- StepTrackerIdeaLog.StepTracker.GetAverageStepsPerMinute: states the exact real mean. IEEE-754 double rounding is not modelled. Non-finite minutes are not modelled either. In the program, a stored session with infinite minutes adds 0 to the total, so a non-empty log can average 0.0. A NaN-minute session makes the average NaN. The clause "0 exactly when the log is empty" holds only for finite minutes.
- StepTrackerIdeaLog.StepTracker.GetTotalSteps: sums with unbounded integers. The C++ `int` accumulator could overflow on very large step counts, which is undefined behaviour there.
- `Metrics.SetSteps` returns an updated value instead of updating an object in place. `Metrics` lives inside an activity value and is never shared, so no aliasing is lost.
