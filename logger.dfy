/**
  A model of a leveled console-logging facade.

  A logger keeps a severity threshold (an index into the fixed list of five
  levels), a formatter and a reporter. Six logging methods are each bound to
  a method name and a severity; a call is admitted when the threshold is at
  or below the method's severity, and an admitted call passes its arguments
  through the formatter and hands the result to the reporter.

  The reporter is an external sink: every call this logger makes to its
  reporter is appended to the logger's `reports` sequence together with the
  reporter it was made to.
 */
module TinyConsoleLogger {

  // ---------------------------------------------------------------------------
  // Severity levels
  // ---------------------------------------------------------------------------

  /** The five severities; each stands for the string value of the enum member. */
  datatype LogLevel = TRACE | DEBUG | INFO | WARN | ERROR {
    /** The string the enum member holds at run time. */
    function Value(): string {
      match this
      case TRACE => "trace"
      case DEBUG => "debug"
      case INFO => "info"
      case WARN => "warn"
      case ERROR => "error"
    }
  }

  /** The fixed ordering of the levels, from least to most severe. */
  const LevelOrder: seq<LogLevel> := [TRACE, DEBUG, INFO, WARN, ERROR]

  /** True when `value` is the string value of one of the five levels. */
  predicate IsLevelValue(value: string) {
    exists l: LogLevel :: l.Value() == value
  }

  /** No two levels share a string value. */
  lemma ValueInjective(a: LogLevel, b: LogLevel)
    ensures a.Value() == b.Value() <==> a == b
  {
  }

  /**
    The position of `value` in `order`, comparing each level by its string
    value, or -1 when no level has that value (the list's `indexOf`).
   */
  function IndexOfValue(order: seq<LogLevel>, value: string): (r: int)
    ensures -1 <= r < |order|
    ensures r == -1 <==> forall i :: 0 <= i < |order| ==> order[i].Value() != value
    ensures 0 <= r ==> order[r].Value() == value
    ensures 0 <= r ==> forall i :: 0 <= i < r ==> order[i].Value() != value
  {
    if order == [] then -1
    else if order[0].Value() == value then 0
    else
      var k := IndexOfValue(order[1..], value);
      if k == -1 then -1 else k + 1
  }

  /** In a list whose levels are pairwise distinct, looking up a member's value finds that member. */
  lemma {:induction false} IndexOfValueOfMember(order: seq<LogLevel>, i: nat)
    requires i < |order|
    requires forall j, k :: 0 <= j < k < |order| ==> order[j] != order[k]
    ensures IndexOfValue(order, order[i].Value()) == i
  {
    if i > 0 {
      ValueInjective(order[0], order[i]);
      IndexOfValueOfMember(order[1..], i - 1);
    }
  }

  /** The position of a level in the ordering: its severity rank. */
  function Rank(l: LogLevel): (r: nat)
    ensures r < |LevelOrder| && LevelOrder[r] == l
  {
    match l
    case TRACE => 0
    case DEBUG => 1
    case INFO => 2
    case WARN => 3
    case ERROR => 4
  }

  /** Looking a level up by its value in the ordering yields its rank. */
  lemma IndexOfLevel(l: LogLevel)
    ensures IndexOfValue(LevelOrder, l.Value()) == Rank(l)
  {
    IndexOfValueOfMember(LevelOrder, Rank(l));
  }

  /** Looking up a string that is not a level's value yields -1, and only then. */
  lemma IndexOfUnknown(value: string)
    ensures IndexOfValue(LevelOrder, value) == -1 <==> !IsLevelValue(value)
  {
    if IsLevelValue(value) {
      var l: LogLevel :| l.Value() == value;
      IndexOfLevel(l);
    }
  }

  /** The admission rule: a call at `level` passes a logger whose threshold is `threshold`. */
  predicate Admits(threshold: LogLevel, level: LogLevel) {
    Rank(threshold) <= Rank(level)
  }

  /** Admission is a total order on the five levels. */
  lemma AdmitsIsTotalOrder()
    ensures forall a: LogLevel :: Admits(a, a)
    ensures forall a: LogLevel, b: LogLevel :: Admits(a, b) && Admits(b, a) ==> a == b
    ensures forall a: LogLevel, b: LogLevel, c: LogLevel :: Admits(a, b) && Admits(b, c) ==> Admits(a, c)
    ensures forall a: LogLevel, b: LogLevel :: Admits(a, b) || Admits(b, a)
  {
  }

  /** The ordering is trace < debug < info < warn < error. */
  lemma AdmitsFollowsSeverity(threshold: LogLevel, level: LogLevel)
    ensures Admits(threshold, level) <==>
      match threshold
      case TRACE => true
      case DEBUG => level != TRACE
      case INFO => level in {INFO, WARN, ERROR}
      case WARN => level in {WARN, ERROR}
      case ERROR => level == ERROR
  {
  }

  // ---------------------------------------------------------------------------
  // Logging methods, formatters and reporters
  // ---------------------------------------------------------------------------

  /** The six logging methods of a logger. */
  datatype MethodName = Trace | Debug | Log | Info | Warn | Error {
    /** The method's name as the reporter sees it. */
    function Name(): string {
      match this
      case Trace => "trace"
      case Debug => "debug"
      case Log => "log"
      case Info => "info"
      case Warn => "warn"
      case Error => "error"
    }
  }

  /**
    The severity each logging method is bound to: every method has the level
    of the same name, except `log`, which is filtered and reported at INFO.
   */
  function MethodLevel(m: MethodName): (l: LogLevel)
    ensures m != Log ==> l.Value() == m.Name()
    ensures m == Log ==> l == INFO
  {
    match m
    case Trace => TRACE
    case Debug => DEBUG
    case Log => INFO
    case Info => INFO
    case Warn => WARN
    case Error => ERROR
  }

  /** A formatter maps (arguments, method name, level) to the arguments to report. */
  type Formatter<!A> = (seq<A>, MethodName, LogLevel) -> seq<A>

  /** The default formatter hands back its arguments as they are. */
  function DefaultFormatter<A>(args: seq<A>, methodName: MethodName, level: LogLevel): (r: seq<A>)
    ensures |r| == |args| && forall i :: 0 <= i < |r| ==> r[i] == args[i]
  {
    args
  }

  /** A reporter: the default one, which forwards to the console, or one the caller supplied. */
  datatype Reporter<R> = DefaultReporter | CustomReporter(id: R)

  /** One call a reporter received: the formatted arguments, the method name and the method's level. */
  datatype Report<A, R> = Report(reporter: Reporter<R>, args: seq<A>, methodName: MethodName, level: LogLevel)

  /**
    What one call of method `m` with `args` hands to the reporter, given the
    logger's threshold, formatter and reporter: nothing when the call is not
    admitted, else exactly one report of the formatted arguments under the
    method's own name and level.
   */
  function Dispatch<A, R>(threshold: LogLevel, format: Formatter<A>, report: Reporter<R>,
                          m: MethodName, args: seq<A>): (out: seq<Report<A, R>>)
    ensures |out| <= 1
    ensures out != [] <==> Admits(threshold, MethodLevel(m))
    ensures forall c :: c in out ==>
      c.reporter == report && c.methodName == m && c.level == MethodLevel(m) &&
      c.args == format(args, m, MethodLevel(m))
  {
    var level := MethodLevel(m);
    if Admits(threshold, level) then [Report(report, format(args, m, level), m, level)] else []
  }

  /**
    `log` and `info` are admitted under the same thresholds; `log` reports
    under its own name but at INFO, as `info` does.
   */
  lemma LogSharesInfoSeverity<A, R>(threshold: LogLevel, format: Formatter<A>, report: Reporter<R>, args: seq<A>)
    ensures |Dispatch(threshold, format, report, Log, args)| == |Dispatch(threshold, format, report, Info, args)|
    ensures Dispatch(threshold, format, report, Log, args) != [] ==>
      Dispatch(threshold, format, report, Log, args)[0] == Report(report, format(args, Log, INFO), Log, INFO) &&
      Dispatch(threshold, format, report, Info, args)[0] == Report(report, format(args, Info, INFO), Info, INFO)
  {
  }

  /** Under the default formatter an admitted call reports its arguments unchanged. */
  lemma DefaultFormatterReportsArgs<A, R>(threshold: LogLevel, report: Reporter<R>, m: MethodName, args: seq<A>)
    ensures forall c :: c in Dispatch(threshold, DefaultFormatter, report, m, args) ==> c.args == args
  {
  }

  /** At the default threshold WARN only `warn` and `error` reach the reporter. */
  lemma DefaultThresholdAdmits<A, R>(format: Formatter<A>, report: Reporter<R>, m: MethodName, args: seq<A>)
    ensures Dispatch(WARN, format, report, m, args) != [] <==> m in {Warn, Error}
  {
  }

  /** Calls admitted at some threshold stay admitted at every lower threshold. */
  lemma LoweringThresholdKeepsCalls<A, R>(low: LogLevel, high: LogLevel, format: Formatter<A>,
                                                              report: Reporter<R>, m: MethodName, args: seq<A>)
    requires Admits(low, high)
    ensures Dispatch(high, format, report, m, args) != [] ==> Dispatch(low, format, report, m, args) != []
  {
  }

  // ---------------------------------------------------------------------------
  // Errors
  // ---------------------------------------------------------------------------

  /** The one error the logger raises: setting a level that is not one of the five. */
  datatype LoggerError = UnknownLogLevel(value: string) {
    function Message(): string {
      "Unknown log level " + value
    }
  }

  /** Whether an operation completed or raised an error. */
  datatype Outcome = Pass | Fail(error: LoggerError)

  // ---------------------------------------------------------------------------
  // The logger object
  // ---------------------------------------------------------------------------

  /**
    One logger instance. `A` is the type of the logged arguments and `R`
    identifies caller-supplied reporters. `reports` records, in order, every
    call this logger has made to its reporter.
   */
  class Logger<A, R> {
    var currentLevelIndex: int
    var report: Reporter<R>
    var format: Formatter<A>
    var reports: seq<Report<A, R>>

    /** The threshold index always points into the level ordering. */
    ghost predicate Valid()
      reads this
    {
      0 <= currentLevelIndex < |LevelOrder|
    }

    /** The current threshold. */
    ghost function Level(): LogLevel
      reads this
      requires Valid()
    {
      LevelOrder[currentLevelIndex]
    }

    /** A fresh logger: threshold WARN, default formatter, default reporter, nothing reported. */
    constructor ()
      ensures Valid()
      ensures Level() == WARN
      ensures report == DefaultReporter && format == DefaultFormatter
      ensures reports == []
    {
      IndexOfLevel(WARN);
      currentLevelIndex := IndexOfValue(LevelOrder, WARN.Value());
      report := DefaultReporter;
      format := DefaultFormatter;
      reports := [];
    }

    /**
      Calls logging method `m` with `args`: admitted only when the threshold
      index is at most the method's own level index, and then reports the
      formatter's output with the method's name and level.
     */
    method Invoke(m: MethodName, args: seq<A>)
      requires Valid()
      modifies this`reports
      ensures Valid()
      ensures reports == old(reports) + Dispatch(Level(), format, report, m, args)
    {
      var logLevel := MethodLevel(m);
      var levelIndex := IndexOfValue(LevelOrder, logLevel.Value());
      IndexOfLevel(logLevel);
      if currentLevelIndex > levelIndex {
        return;
      }
      reports := reports + [Report(report, format(args, m, logLevel), m, logLevel)];
    }

    /**
      Sets the threshold to the level whose value is `value`; fails with
      UnknownLogLevel, leaving the threshold as it was, when there is none.
     */
    method SetLevel(value: string) returns (outcome: Outcome)
      requires Valid()
      modifies this`currentLevelIndex
      ensures Valid()
      ensures outcome == Pass <==> IsLevelValue(value)
      ensures outcome != Pass ==> outcome == Fail(UnknownLogLevel(value))
      ensures outcome == Pass ==> Level().Value() == value
      ensures outcome != Pass ==> currentLevelIndex == old(currentLevelIndex)
    {
      var idx := IndexOfValue(LevelOrder, value);
      IndexOfUnknown(value);
      if idx == -1 {
        return Fail(UnknownLogLevel(value));
      }
      currentLevelIndex := idx;
      return Pass;
    }

    /** The current threshold, read back from the level ordering. */
    method GetLevel() returns (l: LogLevel)
      requires Valid()
      ensures l == Level()
      ensures Rank(l) == currentLevelIndex
    {
      l := LevelOrder[currentLevelIndex];
    }

    /** Replaces the reporter; nothing else changes. */
    method SetReporter(reporter: Reporter<R>)
      modifies this`report
      ensures report == reporter
    {
      report := reporter;
    }

    /** Replaces the formatter; nothing else changes. */
    method SetFormatter(formatter: Formatter<A>)
      modifies this`format
      ensures format == formatter
    {
      format := formatter;
    }
  }
}
