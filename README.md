# tiny-console-logger, modelled in Dafny

A model of the logger factory of `tiny-console-logger`: a small leveled
logging facade. Each logger holds a severity threshold (an index into the
fixed ordering trace < debug < info < warn < error, WARN by default), a
formatter and a reporter. Its six logging methods (`trace`, `debug`, `log`,
`info`, `warn`, `error`) are each bound to a method name and a severity —
`log` is filtered at INFO but reports under its own name. A call is admitted
when the threshold index is at most the method's level index; an admitted
call passes its arguments through the formatter and hands the result, the
method name and the method's own level to the reporter. `setLevel` rejects
any value that is not one of the five levels with an "Unknown log level"
error and leaves the threshold alone; `getLevel`, `setFormatter` and
`setReporter` read or replace one field each.

Files:

- `logger.dfy`, module `TinyConsoleLogger`: the levels and their ordering,
  the `indexOf` lookup, the admission rule, the method-to-level table, the
  default formatter, the pure specification `Dispatch` of one logging call,
  and the `Logger` class, whose methods change its fields in place.
- `scenarios.dfy`, module `LoggerScenarios`: the behaviour the repository's
  tests check, as methods that drive a fresh logger and return what its
  reporters received.

Modelling choices:

- `LogLevel` is a datatype; `Value()` is the string each enum member holds.
  `setLevel` takes a string, because the library compares run-time strings
  and a caller can pass any value (`'xxx'` in the tests).
- The formatter is a total Dafny function value. The reporter is a value
  `Reporter<R>`: the default reporter or a caller-supplied one named by an
  `R`. Every call a logger makes to its reporter is appended to that
  logger's `reports` sequence as a `Report(reporter, args, methodName,
  level)`; for a reporter installed in one logger only, its call count is
  the number of records naming it.
- `createMethod` and the six closures it builds are modelled by one method,
  `Logger.Invoke(m, args)`, and the table `MethodLevel(m)`.
- The error thrown by `setLevel` becomes the outcome
  `Fail(UnknownLogLevel(value))`, whose `Message()` is the thrown text.

## Model

| member | source | states |
|---|---|---|
| TinyConsoleLogger.ValueInjective | index.ts:1-7 | the five enum members have pairwise distinct string values |
| TinyConsoleLogger.IndexOfValue | index.ts:38-39 | `indexOf`: -1 exactly when no level in the list has the value; otherwise the first index holding it |
| TinyConsoleLogger.IndexOfValueOfMember | index.ts:38 | in a list of distinct levels, looking up a member's value yields that member's position |
| TinyConsoleLogger.Rank | index.ts:38 | each level's rank is an index into the ordering that holds that level |
| TinyConsoleLogger.IndexOfLevel | index.ts:44 | the index a logging method computes for its level is that level's rank |
| TinyConsoleLogger.IndexOfUnknown | index.ts:60-61 | looking up a string in the ordering yields -1 if and only if it is not the value of any level |
| TinyConsoleLogger.AdmitsIsTotalOrder | index.ts:38 | admission is reflexive, antisymmetric, transitive and total on the five levels |
| TinyConsoleLogger.AdmitsFollowsSeverity | index.ts:38 | for each threshold, exactly the levels at or above it in trace < debug < info < warn < error are admitted |
| TinyConsoleLogger.MethodLevel | index.ts:53-58 | every logging method is bound to the level of the same name, except `log`, which is bound to INFO |
| TinyConsoleLogger.DefaultFormatter | index.ts:33 | the default formatter returns its arguments: same length, same elements, same order |
| TinyConsoleLogger.Dispatch | index.ts:43-49 | a call yields at most one report, one exactly when the threshold admits the method's level, and that report carries the current reporter, the formatter's output on (args, method name, method level), the method name and the method's own level |
| TinyConsoleLogger.LogSharesInfoSeverity | index.ts:55-56 | `log` and `info` are admitted under the same thresholds; `log` reports name `log` at INFO, `info` reports name `info` at INFO |
| TinyConsoleLogger.DefaultFormatterReportsArgs | index.ts:33 | under the default formatter every report carries the call's arguments unchanged |
| TinyConsoleLogger.DefaultThresholdAdmits | index.ts:39 | at the default threshold WARN a call reaches the reporter if and only if it is `warn` or `error` |
| TinyConsoleLogger.LoweringThresholdKeepsCalls | index.ts:46 | a call admitted at some threshold is admitted at every lower threshold |
| TinyConsoleLogger.Logger.constructor | index.ts:37-41 | a new logger has threshold WARN, the default formatter, the default reporter and no reports |
| TinyConsoleLogger.Logger.Invoke | index.ts:43-49 | a logging call appends exactly `Dispatch` of the current threshold, formatter and reporter to the reports and changes nothing else; the threshold index stays in range |
| TinyConsoleLogger.Logger.SetLevel | index.ts:59-63 | succeeds if and only if the value is a level's value, and then the threshold is that level; otherwise fails with UnknownLogLevel(value) and the threshold is unchanged; only the threshold may change |
| TinyConsoleLogger.Logger.GetLevel | index.ts:64-66 | returns the current threshold: the level whose rank is the current threshold index |
| TinyConsoleLogger.Logger.SetReporter | index.ts:67-69 | the reporter becomes the given one; threshold, formatter and reports are unchanged |
| TinyConsoleLogger.Logger.SetFormatter | index.ts:70-72 | the formatter becomes the given one; threshold, reporter and reports are unchanged |
| LoggerScenarios.AdmittedCallReachesReporter | index.test.ts:5-79 | with a spy reporter, an admitted call on any method reaches the spy once with args `a b c`, the method's name and the method's own level |
| LoggerScenarios.SuppressedCallIsSilent | index.test.ts:49-57 | a call below the threshold (such as `log` at WARN) never reaches the spy |
| LoggerScenarios.LogReportsAtInfo | index.test.ts:38-47 | `log` at threshold INFO reaches the spy exactly once, with args `a b c`, under the name `log` with level `info` |
| LoggerScenarios.GetLevelAfterSetLevel | index.test.ts:91-99 | after `setLevel(X)`, `getLevel()` returns X, for any two levels set in turn |
| LoggerScenarios.DefaultLevelIsWarn | index.test.ts:101-104 | a new logger's level is WARN |
| LoggerScenarios.FormatterChangesArguments | index.test.ts:106-124 | the spy receives exactly the custom formatter's output `[INFO] a b c (reporter.log)`, with name `log` and level INFO |
| LoggerScenarios.UnknownLevelFails | index.test.ts:126-131 | `setLevel('xxx')` fails with "Unknown log level xxx" and the level stays INFO |
| LoggerScenarios.DefaultReporterReceivesWarn | index.test.ts:138-142 | without a reporter override, `warn('a','b','c')` hands `a b c` unchanged to the default reporter under `warn` |
| LoggerScenarios.LoggersAreIndependent | index.ts:37-41 | after the first logger gets level ERROR, a spy reporter and a prefixing formatter (its `warn` suppressed, its `error` formatted and sent to the spy), a second logger is still at WARN and its `warn('a')` reaches the default reporter with `a` unformatted |

## Left out

- `defaultReporter` (index.ts:34-35): its forwarding to the global `console` method of the same name, and its silent no-op when `console` or that method is missing, are foreign I/O; the model records the call as received by `DefaultReporter` and stops there.
- The `!format || !report` guard (index.ts:47): under the declared types the formatter and reporter are always defined, so the model holds them as non-null values and the guard has no counterpart.
- Exceptions raised by a caller's formatter or reporter, which propagate to the caller of the logging method: the formatter is a total function and the reporter a recording sink.
- Reporters shared between loggers: each logger's `reports` holds only the calls that logger made, so a reporter installed in several loggers (the default reporter always is), or `defaultReporter` called directly, is not modelled as one sink; the total calls it receives and their interleaving across loggers are not captured.
- The contents of the `any[]` arguments: they are a sequence of an arbitrary element type `A`.
- The test suite's spies, console patching and hooks (index.test.ts:133-152) are not modelled; the scenarios use a named custom reporter in place of a spy.
