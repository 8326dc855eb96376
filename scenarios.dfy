/**
  The behaviour the logger's test suite checks, stated as methods that build
  a logger, drive it, and return what its reporters received. A spying
  reporter is `CustomReporter("spy")`; arguments are strings.
 */
module LoggerScenarios {
  import opened TinyConsoleLogger

  const Spy: Reporter<string> := CustomReporter("spy")

  /** A logger over string arguments with the spy reporter installed and the threshold set. */
  method SpiedLogger(threshold: LogLevel) returns (logger: Logger<string, string>)
    ensures fresh(logger) && logger.Valid()
    ensures logger.Level() == threshold && logger.report == Spy
    ensures logger.format == DefaultFormatter && logger.reports == []
  {
    logger := new Logger();
    logger.SetReporter(Spy);
    var outcome := logger.SetLevel(threshold.Value());
    ValueInjective(logger.Level(), threshold);
  }

  /** A call at or above the threshold reaches the reporter once, with the method's own name and level. */
  method AdmittedCallReachesReporter(threshold: LogLevel, m: MethodName) returns (received: seq<Report<string, string>>)
    requires Admits(threshold, MethodLevel(m))
    ensures received == [Report(Spy, ["a", "b", "c"], m, MethodLevel(m))]
  {
    var logger := SpiedLogger(threshold);
    logger.Invoke(m, ["a", "b", "c"]);
    received := logger.reports;
  }

  /** A call below the threshold never reaches the reporter. */
  method SuppressedCallIsSilent(threshold: LogLevel, m: MethodName) returns (received: seq<Report<string, string>>)
    requires !Admits(threshold, MethodLevel(m))
    ensures received == []
  {
    var logger := SpiedLogger(threshold);
    logger.Invoke(m, ["a", "b", "c"]);
    received := logger.reports;
  }

  /** `log` at threshold INFO reports under the name `log` at level INFO. */
  method LogReportsAtInfo() returns (received: seq<Report<string, string>>)
    ensures received == [Report(Spy, ["a", "b", "c"], Log, INFO)]
    ensures received[0].methodName.Name() == "log" && received[0].level.Value() == "info"
  {
    var logger := SpiedLogger(INFO);
    logger.Invoke(Log, ["a", "b", "c"]);
    received := logger.reports;
  }

  /** `getLevel` returns the level last set. */
  method GetLevelAfterSetLevel(first: LogLevel, second: LogLevel) returns (afterFirst: LogLevel, afterSecond: LogLevel)
    ensures afterFirst == first && afterSecond == second
  {
    var logger := new Logger<string, string>();
    var outcome := logger.SetLevel(first.Value());
    ValueInjective(logger.Level(), first);
    afterFirst := logger.GetLevel();
    outcome := logger.SetLevel(second.Value());
    ValueInjective(logger.Level(), second);
    afterSecond := logger.GetLevel();
  }

  /** A new logger starts at WARN. */
  method DefaultLevelIsWarn() returns (level: LogLevel)
    ensures level == WARN
  {
    var logger := new Logger<string, string>();
    level := logger.GetLevel();
  }

  /** The upper-case tag the test formatter puts in front of the arguments. */
  function UpperCaseTag(l: LogLevel): string {
    match l
    case TRACE => "[TRACE]"
    case DEBUG => "[DEBUG]"
    case INFO => "[INFO]"
    case WARN => "[WARN]"
    case ERROR => "[ERROR]"
  }

  /** The reporter receives exactly what a custom formatter returns. */
  method FormatterChangesArguments() returns (received: seq<Report<string, string>>)
    ensures received == [Report(Spy, ["[INFO]", "a", "b", "c", "(reporter.log)"], Log, INFO)]
  {
    var logger := SpiedLogger(INFO);
    var formatter := (args: seq<string>, m: MethodName, l: LogLevel) =>
      [UpperCaseTag(l)] + args + ["(reporter." + m.Name() + ")"];
    assert "(reporter." + Log.Name() + ")" == "(reporter.log)";
    assert formatter(["a", "b", "c"], Log, INFO) == ["[INFO]", "a", "b", "c", "(reporter.log)"];
    logger.SetFormatter(formatter);
    logger.Invoke(Log, ["a", "b", "c"]);
    received := logger.reports;
  }

  /** Setting an unknown level fails and keeps the previous threshold. */
  method UnknownLevelFails() returns (outcome: Outcome, level: LogLevel)
    ensures outcome == Fail(UnknownLogLevel("xxx")) && outcome.error.Message() == "Unknown log level xxx"
    ensures level == INFO
  {
    var logger := new Logger<string, string>();
    outcome := logger.SetLevel(INFO.Value());
    ValueInjective(logger.Level(), INFO);
    outcome := logger.SetLevel("xxx");
    level := logger.GetLevel();
  }

  /** Without a reporter override, `warn` hands its arguments unchanged to the default reporter. */
  method DefaultReporterReceivesWarn() returns (received: seq<Report<string, string>>)
    ensures received == [Report(DefaultReporter, ["a", "b", "c"], Warn, WARN)]
  {
    var logger := new Logger<string, string>();
    logger.Invoke(Warn, ["a", "b", "c"]);
    received := logger.reports;
  }

  /**
    Two loggers share no state: changing the first one's level, reporter and
    formatter leaves the second at its defaults, so its `warn` still goes
    unformatted to the default reporter.
   */
  method LoggersAreIndependent() returns (changed: LogLevel, untouched: LogLevel,
                                          changedReports: seq<Report<string, string>>,
                                          untouchedReports: seq<Report<string, string>>)
    ensures changed == ERROR && untouched == WARN
    ensures changedReports == [Report(Spy, ["!", "a"], Error, ERROR)]
    ensures untouchedReports == [Report(DefaultReporter, ["a"], Warn, WARN)]
  {
    var first := new Logger<string, string>();
    var second := new Logger<string, string>();
    var outcome := first.SetLevel(ERROR.Value());
    ValueInjective(first.Level(), ERROR);
    first.SetReporter(Spy);
    var shout := (args: seq<string>, m: MethodName, l: LogLevel) => ["!"] + args;
    assert shout(["a"], Error, ERROR) == ["!", "a"];
    first.SetFormatter(shout);
    assert second.Level() == WARN && second.reports == [];
    first.Invoke(Error, ["a"]);
    assert first.reports == [Report(Spy, ["!", "a"], Error, ERROR)];
    first.Invoke(Warn, ["a"]);
    assert first.reports == [Report(Spy, ["!", "a"], Error, ERROR)];
    second.Invoke(Warn, ["a"]);
    changed := first.GetLevel();
    untouched := second.GetLevel();
    changedReports := first.reports;
    untouchedReports := second.reports;
  }
}
