/**
 * `org.kitei.logging.Log`: a wrapper around an slf4j logger that adds
 * varargs formatting, exception trimming and a level-dispatching `log`.
 *
 * The wrapped logger is a `Logger` object with fixed enabled levels that
 * keeps the events of enabled levels, as slf4j does. Each public method of
 * `Log` is proved against a function giving the sequence of calls it makes
 * into the wrapped logger and the exception, if any, that escapes it.
 */
module Logging {
  import opened Wrappers
  import opened JavaRuntime
  import FormattingUtils

  datatype LogLevel = TRACE | DEBUG | INFO | WARN | ERROR

  /** The enum constant's name, which is what `%s` prints for it. */
  function LevelName(level: LogLevel): string
  {
    match level
    case TRACE => "TRACE"
    case DEBUG => "DEBUG"
    case INFO => "INFO"
    case WARN => "WARN"
    case ERROR => "ERROR"
  }

  /** `Log.class.getName()`. */
  const LOG_NAME: string := "org.kitei.logging.Log"

  /** One call into the wrapped logger: level, message (possibly null) and attached throwable (possibly null). */
  datatype Event = Event(level: LogLevel, text: Option<string>, thrown: Option<Throwable>)

  /** What a logger whose enabled levels are `enabled` keeps of `calls`: calls at disabled levels are dropped. */
  function Recorded(enabled: set<LogLevel>, calls: seq<Event>): (r: seq<Event>)
    ensures forall e :: e in r ==> e in calls && e.level in enabled
    ensures forall e :: e in calls && e.level in enabled ==> e in r
    decreases |calls|
  {
    if calls == [] then []
    else (if calls[0].level in enabled then [calls[0]] else []) + Recorded(enabled, calls[1..])
  }

  lemma {:induction false} RecordedAppend(enabled: set<LogLevel>, a: seq<Event>, b: seq<Event>)
    ensures Recorded(enabled, a + b) == Recorded(enabled, a) + Recorded(enabled, b)
    decreases |a|
  {
    if a == [] {
      assert a + b == b;
    } else {
      assert (a + b)[0] == a[0];
      assert (a + b)[1..] == a[1..] + b;
      RecordedAppend(enabled, a[1..], b);
    }
  }

  /** The wrapped slf4j logger. */
  class Logger {
    const enabled: set<LogLevel>
    var events: seq<Event>

    constructor (enabled: set<LogLevel>)
      ensures this.enabled == enabled && events == []
    {
      this.enabled := enabled;
      events := [];
    }

    /** `isTraceEnabled()` and the like. */
    predicate IsEnabled(level: LogLevel)
    {
      level in enabled
    }

    /** `trace(msg)`, `trace(msg, t)` and the same methods of the other levels. */
    method Write(level: LogLevel, text: Option<string>, thrown: Option<Throwable>)
      modifies this
      ensures events == old(events) + Recorded(enabled, [Event(level, text, thrown)])
    {
      assert [Event(level, text, thrown)][1..] == [];
      if level in enabled {
        events := events + [Event(level, text, thrown)];
      }
    }
  }

  /** What the behaviour of a `Log` depends on. */
  datatype Config = Config(enabled: set<LogLevel>, trimExceptions: bool, format: Formatter)

  /** The calls a private helper makes into the logger, and the text it returns or the exception that escapes it. */
  datatype Rendering = Rendering(calls: seq<Event>, result: Result<string, Throwable>)

  /** The calls a public method makes into the logger, and the exception that escapes it, if any. */
  datatype Effect = Effect(calls: seq<Event>, escaped: Option<Throwable>)

  /** The ERROR message reporting a template that `String.format` rejected. */
  function InvalidFormatReport(level: LogLevel, msg: string, args: seq<Arg>): string
  {
    "Invalid format string while logging: " + LevelName(level) + " '" + msg + "' " + FormattingUtils.ArgsText(args)
  }

  /** The text logged instead of a message whose template `String.format` rejected. */
  function QuotedFallback(msg: string, args: seq<Arg>): string
  {
    "'" + msg + "' " + FormattingUtils.ArgsText(args)
  }

  /**
   * The private `safeFormat(level, msg, args)`. Unlike the one in
   * `FormattingUtils` it catches only `IllegalFormatException`: it then
   * reports the template at ERROR and returns it quoted; any other
   * exception escapes, and so does an Error from `safeArgs`, which runs
   * before the report is written.
   */
  function SafeFormatted(c: Config, level: LogLevel, msg: Option<string>, args: seq<Arg>): Rendering
  {
    match msg
    case None => Rendering([], if |args| == 0 then Success("") else FormattingUtils.ArgsRendered(args))
    case Some(m) =>
      match c.format(m, args)
      case Success(text) => Rendering([], Success(text))
      case Failure(e) =>
        if e.kind != IllegalFormat then Rendering([], Failure(e))
        else
          match FormattingUtils.ArgsRendered(args)
          case Failure(error) => Rendering([], Failure(error))
          case Success(_) => Rendering([Event(ERROR, Some(InvalidFormatReport(level, m, args)), None)], Success(QuotedFallback(m, args)))
  }

  /** `s.indexOf(c)`: the first position of `c` in `s`, or -1. */
  function IndexOf(s: string, c: char): (k: int)
    ensures -1 <= k < |s|
    ensures k == -1 <==> c !in s
    ensures 0 <= k ==> s[k] == c && c !in s[..k]
    decreases |s|
  {
    if s == [] then -1
    else if s[0] == c then 0
    else
      var k := IndexOf(s[1..], c);
      assert s[1..][..if k < 0 then 0 else k] == s[1..if k < 0 then 1 else k + 1];
      if k == -1 then -1 else k + 1
  }

  const TRIM_NOTE: string := " (Switch to DEBUG for full stack trace): "

  /**
   * The text `summarize` builds from the formatted message and the
   * throwable: the formatted message alone when there is no exception
   * message, `": "` and the message when it is one line, and otherwise only
   * its first line behind a note that DEBUG would show the stack trace.
   */
  function Summary(formatted: string, t: Option<Throwable>): (r: string)
    ensures t.None? || t.value.message.None? ==> r == formatted
    ensures t.Some? && t.value.message.Some? && '\n' !in t.value.message.value
            ==> r == formatted + ": " + t.value.message.value
    ensures t.Some? && t.value.message.Some? && '\n' in t.value.message.value
            ==> var m := t.value.message.value;
                exists k :: 0 <= k < |m| && m[k] == '\n' && '\n' !in m[..k] && r == formatted + TRIM_NOTE + m[..k]
  {
    var message := if t.None? then None else t.value.message;
    match message
    case None => formatted
    case Some(m) =>
      var index := IndexOf(m, '\n');
      if index == -1 then formatted + ": " + m
      else formatted + TRIM_NOTE + m[..index]
  }

  /** The private `summarize(level, t, msg, args)`. */
  function Summarized(c: Config, level: LogLevel, t: Option<Throwable>, msg: Option<string>, args: seq<Arg>): Rendering
  {
    var f := SafeFormatted(c, level, msg, args);
    match f.result
    case Success(text) => Rendering(f.calls, Success(Summary(text, t)))
    case Failure(e) => Rendering(f.calls, Failure(e))
  }

  /** Passing a rendered message to the logger: the call happens only if rendering did not throw. */
  function Emitting(r: Rendering, level: LogLevel, thrown: Option<Throwable>): Effect
  {
    match r.result
    case Success(text) => Effect(r.calls + [Event(level, Some(text), thrown)], None)
    case Failure(e) => Effect(r.calls, Some(e))
  }

  lemma EmittingText(r: Rendering, level: LogLevel, thrown: Option<Throwable>)
    requires r.result.Success?
    ensures Emitting(r, level, thrown) == Effect(r.calls + [Event(level, Some(r.result.value), thrown)], None)
  {
  }

  /** The levels whose methods trim exceptions: `trace` and `debug` never do. */
  predicate Trims(level: LogLevel)
  {
    level == INFO || level == WARN || level == ERROR
  }

  /** `x(Throwable t, String message)`; `x(Throwable t)` is this with the message `""`. */
  function ThrownEffect(c: Config, level: LogLevel, t: Option<Throwable>, msg: Option<string>): Effect
  {
    if Trims(level) && c.trimExceptions && DEBUG !in c.enabled
    then Emitting(Summarized(c, level, t, msg, []), level, None)
    else Effect([Event(level, msg, t)], None)
  }

  /** `x(String message, Object... args)`. */
  function ArgsEffect(c: Config, level: LogLevel, msg: Option<string>, args: seq<Arg>): Effect
  {
    if level in c.enabled then Emitting(SafeFormatted(c, level, msg, args), level, None)
    else Effect([], None)
  }

  /** `x(Throwable t, String message, Object... args)`. */
  function ThrownArgsEffect(c: Config, level: LogLevel, t: Option<Throwable>, msg: Option<string>, args: seq<Arg>): Effect
  {
    if Trims(level) && c.trimExceptions then
      if DEBUG in c.enabled then Emitting(SafeFormatted(c, level, msg, args), level, t)
      else if level in c.enabled then Emitting(Summarized(c, level, t, msg, args), level, None)
      else Effect([], None)
    else if level in c.enabled then Emitting(SafeFormatted(c, level, msg, args), level, t)
    else Effect([], None)
  }

  /** The `IllegalStateException` that `findLog` throws when the stack is too short. */
  function InvalidDepth(depth: nat, available: int): Throwable
  {
    Throwable("IllegalStateException",
              Some("Attempt to generate a logger for an invalid depth (" + DecimalString(depth) + " vs. " + DecimalString(available) + ")."),
              OtherException)
  }

  /** The first frame at or after `i` whose class is not `Log`, or the end of the stack. */
  function SkipLogFrames(stack: seq<string>, i: nat): (k: nat)
    ensures i <= k
    ensures k == i || k <= |stack|
    ensures forall j :: i <= j < k ==> j < |stack| && stack[j] == LOG_NAME
    ensures k < |stack| ==> stack[k] != LOG_NAME
    decreases |stack| - i
  {
    if i < |stack| && stack[i] == LOG_NAME then SkipLogFrames(stack, i + 1) else i
  }

  /**
   * The private `findLog(depth)` over the stack's class names, frame 0 being
   * `getStackTrace` itself: skips the `Log` frames from frame 1 on and names
   * the category of the frame `depth` further, or throws
   * `IllegalStateException` when the stack is not that deep.
   */
  method FindLog(stack: seq<string>, depth: nat) returns (r: Result<string, Throwable>)
    ensures var i := SkipLogFrames(stack, 1);
            r == if i + depth < |stack| then Success(stack[i + depth]) else Failure(InvalidDepth(depth, |stack| - i))
  {
    var i := 1;
    while i < |stack| && stack[i] == LOG_NAME
      invariant 1 <= i && (i == 1 || i <= |stack|)
      invariant SkipLogFrames(stack, i) == SkipLogFrames(stack, 1)
      decreases |stack| - i
    {
      i := i + 1;
    }
    if i + depth < |stack| {
      return Success(stack[i + depth]);
    }
    return Failure(InvalidDepth(depth, |stack| - i));
  }

  class Log {
    const wrappedLogger: Logger
    const trimExceptions: bool
    /** `String.format` as this JVM performs it. */
    const format: Formatter

    /** `trimExceptions` stands for the system property the source reads at construction. */
    constructor (wrappedLogger: Logger, trimExceptions: bool, format: Formatter)
      ensures this.wrappedLogger == wrappedLogger && this.trimExceptions == trimExceptions && this.format == format
    {
      this.wrappedLogger := wrappedLogger;
      this.trimExceptions := trimExceptions;
      this.format := format;
    }

    function Configuration(): Config
    {
      Config(wrappedLogger.enabled, trimExceptions, format)
    }

    /** The wrapped logger recorded what it keeps of `calls`, and nothing else. */
    twostate predicate Performed(calls: seq<Event>)
      reads wrappedLogger
    {
      wrappedLogger.events == old(wrappedLogger.events) + Recorded(wrappedLogger.enabled, calls)
    }

    method SafeFormat(level: LogLevel, msg: Option<string>, args: seq<Arg>) returns (r: Result<string, Throwable>)
      modifies wrappedLogger
      ensures Performed(SafeFormatted(Configuration(), level, msg, args).calls)
      ensures r == SafeFormatted(Configuration(), level, msg, args).result
    {
      if msg.None? {
        if |args| == 0 {
          r := Success("");
        } else {
          r := FormattingUtils.SafeArgs(args);
        }
      } else {
        var attempt := format(msg.value, args);
        match attempt {
          case Success(text) =>
            r := Success(text);
          case Failure(e) =>
            if e.kind == IllegalFormat {
              var shown := FormattingUtils.SafeArgs(args);
              if shown.Failure? {
                return shown;
              }
              wrappedLogger.Write(ERROR, Some("Invalid format string while logging: " + LevelName(level) + " '" + msg.value + "' " + shown.value), None);
              var again := FormattingUtils.SafeArgs(args);
              r := Success("'" + msg.value + "' " + again.value);
            } else {
              r := Failure(e);
            }
        }
      }
    }

    method Summarize(level: LogLevel, t: Option<Throwable>, msg: Option<string>, args: seq<Arg>) returns (r: Result<string, Throwable>)
      modifies wrappedLogger
      ensures Performed(Summarized(Configuration(), level, t, msg, args).calls)
      ensures r == Summarized(Configuration(), level, t, msg, args).result
    {
      var message := if t.None? then None else t.value.message;
      var formatted := SafeFormat(level, msg, args);
      if formatted.Failure? {
        return Failure(formatted.error);
      }
      if message.None? {
        return Success(formatted.value);
      }
      var index := IndexOf(message.value, '\n');
      if index == -1 {
        return Success(formatted.value + ": " + message.value);
      }
      var shortMsg := message.value[..index];
      return Success(formatted.value + TRIM_NOTE + shortMsg);
    }

    /** `wrappedLogger.x(safeFormat(level, msg, args), t)`. */
    method WriteFormatted(level: LogLevel, msg: Option<string>, args: seq<Arg>, t: Option<Throwable>) returns (escaped: Option<Throwable>)
      modifies wrappedLogger
      ensures Performed(Emitting(SafeFormatted(Configuration(), level, msg, args), level, t).calls)
      ensures escaped == Emitting(SafeFormatted(Configuration(), level, msg, args), level, t).escaped
    {
      ghost var rendering := SafeFormatted(Configuration(), level, msg, args);
      var text := SafeFormat(level, msg, args);
      assert text == rendering.result;
      match text {
        case Failure(e) =>
          escaped := Some(e);
        case Success(s) =>
          EmittingText(rendering, level, t);
          wrappedLogger.Write(level, Some(s), t);
          RecordedAppend(wrappedLogger.enabled, rendering.calls, [Event(level, Some(s), t)]);
          escaped := None;
      }
    }

    /** `wrappedLogger.x(summarize(level, t, msg, args))`. */
    method WriteSummary(level: LogLevel, t: Option<Throwable>, msg: Option<string>, args: seq<Arg>) returns (escaped: Option<Throwable>)
      modifies wrappedLogger
      ensures Performed(Emitting(Summarized(Configuration(), level, t, msg, args), level, None).calls)
      ensures escaped == Emitting(Summarized(Configuration(), level, t, msg, args), level, None).escaped
    {
      ghost var rendering := Summarized(Configuration(), level, t, msg, args);
      var text := Summarize(level, t, msg, args);
      assert text == rendering.result;
      match text {
        case Failure(e) =>
          escaped := Some(e);
        case Success(s) =>
          EmittingText(rendering, level, None);
          wrappedLogger.Write(level, Some(s), None);
          RecordedAppend(wrappedLogger.enabled, rendering.calls, [Event(level, Some(s), None)]);
          escaped := None;
      }
    }

    // ---------------------------------------------------------------- trace

    method Trace(message: Option<string>)
      modifies wrappedLogger
      ensures Performed([Event(TRACE, message, None)])
    {
      wrappedLogger.Write(TRACE, message, None);
    }

    method TraceThrown(t: Option<Throwable>)
      modifies wrappedLogger
      ensures Performed(ThrownEffect(Configuration(), TRACE, t, Some("")).calls)
    {
      wrappedLogger.Write(TRACE, Some(""), t);
    }

    method TraceThrownMessage(t: Option<Throwable>, message: Option<string>)
      modifies wrappedLogger
      ensures Performed(ThrownEffect(Configuration(), TRACE, t, message).calls)
    {
      wrappedLogger.Write(TRACE, message, t);
    }

    method TraceArgs(message: Option<string>, args: seq<Arg>) returns (escaped: Option<Throwable>)
      modifies wrappedLogger
      ensures Performed(ArgsEffect(Configuration(), TRACE, message, args).calls)
      ensures escaped == ArgsEffect(Configuration(), TRACE, message, args).escaped
    {
      escaped := None;
      if wrappedLogger.IsEnabled(TRACE) {
        escaped := WriteFormatted(TRACE, message, args, None);
      }
    }

    method TraceThrownArgs(t: Option<Throwable>, message: Option<string>, args: seq<Arg>) returns (escaped: Option<Throwable>)
      modifies wrappedLogger
      ensures Performed(ThrownArgsEffect(Configuration(), TRACE, t, message, args).calls)
      ensures escaped == ThrownArgsEffect(Configuration(), TRACE, t, message, args).escaped
    {
      escaped := None;
      if wrappedLogger.IsEnabled(TRACE) {
        escaped := WriteFormatted(TRACE, message, args, t);
      }
    }

    // ---------------------------------------------------------------- debug

    method Debug(message: Option<string>)
      modifies wrappedLogger
      ensures Performed([Event(DEBUG, message, None)])
    {
      wrappedLogger.Write(DEBUG, message, None);
    }

    method DebugThrown(t: Option<Throwable>)
      modifies wrappedLogger
      ensures Performed(ThrownEffect(Configuration(), DEBUG, t, Some("")).calls)
    {
      wrappedLogger.Write(DEBUG, Some(""), t);
    }

    method DebugThrownMessage(t: Option<Throwable>, message: Option<string>)
      modifies wrappedLogger
      ensures Performed(ThrownEffect(Configuration(), DEBUG, t, message).calls)
    {
      wrappedLogger.Write(DEBUG, message, t);
    }

    method DebugArgs(message: Option<string>, args: seq<Arg>) returns (escaped: Option<Throwable>)
      modifies wrappedLogger
      ensures Performed(ArgsEffect(Configuration(), DEBUG, message, args).calls)
      ensures escaped == ArgsEffect(Configuration(), DEBUG, message, args).escaped
    {
      escaped := None;
      if wrappedLogger.IsEnabled(DEBUG) {
        escaped := WriteFormatted(DEBUG, message, args, None);
      }
    }

    method DebugThrownArgs(t: Option<Throwable>, message: Option<string>, args: seq<Arg>) returns (escaped: Option<Throwable>)
      modifies wrappedLogger
      ensures Performed(ThrownArgsEffect(Configuration(), DEBUG, t, message, args).calls)
      ensures escaped == ThrownArgsEffect(Configuration(), DEBUG, t, message, args).escaped
    {
      escaped := None;
      if wrappedLogger.IsEnabled(DEBUG) {
        escaped := WriteFormatted(DEBUG, message, args, t);
      }
    }

    // ----------------------------------------------------------------- info

    method Info(message: Option<string>)
      modifies wrappedLogger
      ensures Performed([Event(INFO, message, None)])
    {
      wrappedLogger.Write(INFO, message, None);
    }

    method InfoThrown(t: Option<Throwable>) returns (escaped: Option<Throwable>)
      modifies wrappedLogger
      ensures Performed(ThrownEffect(Configuration(), INFO, t, Some("")).calls)
      ensures escaped == ThrownEffect(Configuration(), INFO, t, Some("")).escaped
    {
      escaped := None;
      if !trimExceptions {
        wrappedLogger.Write(INFO, Some(""), t);
      } else if wrappedLogger.IsEnabled(DEBUG) {
        wrappedLogger.Write(INFO, Some(""), t);
      } else {
        escaped := WriteSummary(INFO, t, Some(""), []);
      }
    }

    method InfoThrownMessage(t: Option<Throwable>, message: Option<string>) returns (escaped: Option<Throwable>)
      modifies wrappedLogger
      ensures Performed(ThrownEffect(Configuration(), INFO, t, message).calls)
      ensures escaped == ThrownEffect(Configuration(), INFO, t, message).escaped
    {
      escaped := None;
      if !trimExceptions {
        wrappedLogger.Write(INFO, message, t);
      } else if wrappedLogger.IsEnabled(DEBUG) {
        wrappedLogger.Write(INFO, message, t);
      } else {
        escaped := WriteSummary(INFO, t, message, []);
      }
    }

    method InfoArgs(message: Option<string>, args: seq<Arg>) returns (escaped: Option<Throwable>)
      modifies wrappedLogger
      ensures Performed(ArgsEffect(Configuration(), INFO, message, args).calls)
      ensures escaped == ArgsEffect(Configuration(), INFO, message, args).escaped
    {
      escaped := None;
      if wrappedLogger.IsEnabled(INFO) {
        escaped := WriteFormatted(INFO, message, args, None);
      }
    }

    method InfoThrownArgs(t: Option<Throwable>, message: Option<string>, args: seq<Arg>) returns (escaped: Option<Throwable>)
      modifies wrappedLogger
      ensures Performed(ThrownArgsEffect(Configuration(), INFO, t, message, args).calls)
      ensures escaped == ThrownArgsEffect(Configuration(), INFO, t, message, args).escaped
    {
      escaped := None;
      if !trimExceptions {
        if wrappedLogger.IsEnabled(INFO) {
          escaped := WriteFormatted(INFO, message, args, t);
        }
      } else if wrappedLogger.IsEnabled(DEBUG) {
        escaped := WriteFormatted(INFO, message, args, t);
      } else if wrappedLogger.IsEnabled(INFO) {
        escaped := WriteSummary(INFO, t, message, args);
      }
    }

    // ----------------------------------------------------------------- warn

    method Warn(message: Option<string>)
      modifies wrappedLogger
      ensures Performed([Event(WARN, message, None)])
    {
      wrappedLogger.Write(WARN, message, None);
    }

    method WarnThrown(t: Option<Throwable>) returns (escaped: Option<Throwable>)
      modifies wrappedLogger
      ensures Performed(ThrownEffect(Configuration(), WARN, t, Some("")).calls)
      ensures escaped == ThrownEffect(Configuration(), WARN, t, Some("")).escaped
    {
      escaped := None;
      if !trimExceptions {
        wrappedLogger.Write(WARN, Some(""), t);
      } else if wrappedLogger.IsEnabled(DEBUG) {
        wrappedLogger.Write(WARN, Some(""), t);
      } else {
        escaped := WriteSummary(WARN, t, Some(""), []);
      }
    }

    method WarnThrownMessage(t: Option<Throwable>, message: Option<string>) returns (escaped: Option<Throwable>)
      modifies wrappedLogger
      ensures Performed(ThrownEffect(Configuration(), WARN, t, message).calls)
      ensures escaped == ThrownEffect(Configuration(), WARN, t, message).escaped
    {
      escaped := None;
      if !trimExceptions {
        wrappedLogger.Write(WARN, message, t);
      } else if wrappedLogger.IsEnabled(DEBUG) {
        wrappedLogger.Write(WARN, message, t);
      } else {
        escaped := WriteSummary(WARN, t, message, []);
      }
    }

    method WarnArgs(message: Option<string>, args: seq<Arg>) returns (escaped: Option<Throwable>)
      modifies wrappedLogger
      ensures Performed(ArgsEffect(Configuration(), WARN, message, args).calls)
      ensures escaped == ArgsEffect(Configuration(), WARN, message, args).escaped
    {
      escaped := None;
      if wrappedLogger.IsEnabled(WARN) {
        escaped := WriteFormatted(WARN, message, args, None);
      }
    }

    method WarnThrownArgs(t: Option<Throwable>, message: Option<string>, args: seq<Arg>) returns (escaped: Option<Throwable>)
      modifies wrappedLogger
      ensures Performed(ThrownArgsEffect(Configuration(), WARN, t, message, args).calls)
      ensures escaped == ThrownArgsEffect(Configuration(), WARN, t, message, args).escaped
    {
      escaped := None;
      if !trimExceptions {
        if wrappedLogger.IsEnabled(WARN) {
          escaped := WriteFormatted(WARN, message, args, t);
        }
      } else if wrappedLogger.IsEnabled(DEBUG) {
        escaped := WriteFormatted(WARN, message, args, t);
      } else if wrappedLogger.IsEnabled(WARN) {
        escaped := WriteSummary(WARN, t, message, args);
      }
    }

    // ---------------------------------------------------------------- error

    method Error(message: Option<string>)
      modifies wrappedLogger
      ensures Performed([Event(ERROR, message, None)])
    {
      wrappedLogger.Write(ERROR, message, None);
    }

    method ErrorThrown(t: Option<Throwable>) returns (escaped: Option<Throwable>)
      modifies wrappedLogger
      ensures Performed(ThrownEffect(Configuration(), ERROR, t, Some("")).calls)
      ensures escaped == ThrownEffect(Configuration(), ERROR, t, Some("")).escaped
    {
      escaped := None;
      if !trimExceptions {
        wrappedLogger.Write(ERROR, Some(""), t);
      } else if wrappedLogger.IsEnabled(DEBUG) {
        wrappedLogger.Write(ERROR, Some(""), t);
      } else {
        escaped := WriteSummary(ERROR, t, Some(""), []);
      }
    }

    method ErrorThrownMessage(t: Option<Throwable>, message: Option<string>) returns (escaped: Option<Throwable>)
      modifies wrappedLogger
      ensures Performed(ThrownEffect(Configuration(), ERROR, t, message).calls)
      ensures escaped == ThrownEffect(Configuration(), ERROR, t, message).escaped
    {
      escaped := None;
      if !trimExceptions {
        wrappedLogger.Write(ERROR, message, t);
      } else if wrappedLogger.IsEnabled(DEBUG) {
        wrappedLogger.Write(ERROR, message, t);
      } else {
        escaped := WriteSummary(ERROR, t, message, []);
      }
    }

    method ErrorArgs(message: Option<string>, args: seq<Arg>) returns (escaped: Option<Throwable>)
      modifies wrappedLogger
      ensures Performed(ArgsEffect(Configuration(), ERROR, message, args).calls)
      ensures escaped == ArgsEffect(Configuration(), ERROR, message, args).escaped
    {
      escaped := None;
      if wrappedLogger.IsEnabled(ERROR) {
        escaped := WriteFormatted(ERROR, message, args, None);
      }
    }

    method ErrorThrownArgs(t: Option<Throwable>, message: Option<string>, args: seq<Arg>) returns (escaped: Option<Throwable>)
      modifies wrappedLogger
      ensures Performed(ThrownArgsEffect(Configuration(), ERROR, t, message, args).calls)
      ensures escaped == ThrownArgsEffect(Configuration(), ERROR, t, message, args).escaped
    {
      escaped := None;
      if !trimExceptions {
        if wrappedLogger.IsEnabled(ERROR) {
          escaped := WriteFormatted(ERROR, message, args, t);
        }
      } else if wrappedLogger.IsEnabled(DEBUG) {
        escaped := WriteFormatted(ERROR, message, args, t);
      } else if wrappedLogger.IsEnabled(ERROR) {
        escaped := WriteSummary(ERROR, t, message, args);
      }
    }

    // ------------------------------------------------------------------ log

    /** `log(level, message)`: the message method of that level. */
    method LogMessage(level: LogLevel, message: Option<string>)
      modifies wrappedLogger
      ensures Performed([Event(level, message, None)])
    {
      match level {
        case TRACE => Trace(message);
        case DEBUG => Debug(message);
        case INFO => Info(message);
        case WARN => Warn(message);
        case ERROR => Error(message);
      }
    }

    /** `log(level, t)`: the throwable method of that level. */
    method LogThrown(level: LogLevel, t: Option<Throwable>) returns (escaped: Option<Throwable>)
      modifies wrappedLogger
      ensures Performed(ThrownEffect(Configuration(), level, t, Some("")).calls)
      ensures escaped == ThrownEffect(Configuration(), level, t, Some("")).escaped
    {
      escaped := None;
      match level {
        case TRACE => TraceThrown(t);
        case DEBUG => DebugThrown(t);
        case INFO => escaped := InfoThrown(t);
        case WARN => escaped := WarnThrown(t);
        case ERROR => escaped := ErrorThrown(t);
      }
    }

    /** `log(level, t, message)`. */
    method LogThrownMessage(level: LogLevel, t: Option<Throwable>, message: Option<string>) returns (escaped: Option<Throwable>)
      modifies wrappedLogger
      ensures Performed(ThrownEffect(Configuration(), level, t, message).calls)
      ensures escaped == ThrownEffect(Configuration(), level, t, message).escaped
    {
      escaped := None;
      match level {
        case TRACE => TraceThrownMessage(t, message);
        case DEBUG => DebugThrownMessage(t, message);
        case INFO => escaped := InfoThrownMessage(t, message);
        case WARN => escaped := WarnThrownMessage(t, message);
        case ERROR => escaped := ErrorThrownMessage(t, message);
      }
    }

    /** `log(level, message, args...)`. */
    method LogArgs(level: LogLevel, message: Option<string>, args: seq<Arg>) returns (escaped: Option<Throwable>)
      modifies wrappedLogger
      ensures Performed(ArgsEffect(Configuration(), level, message, args).calls)
      ensures escaped == ArgsEffect(Configuration(), level, message, args).escaped
    {
      match level {
        case TRACE => escaped := TraceArgs(message, args);
        case DEBUG => escaped := DebugArgs(message, args);
        case INFO => escaped := InfoArgs(message, args);
        case WARN => escaped := WarnArgs(message, args);
        case ERROR => escaped := ErrorArgs(message, args);
      }
    }

    /** `log(level, t, message, args...)`. */
    method LogThrownArgs(level: LogLevel, t: Option<Throwable>, message: Option<string>, args: seq<Arg>) returns (escaped: Option<Throwable>)
      modifies wrappedLogger
      ensures Performed(ThrownArgsEffect(Configuration(), level, t, message, args).calls)
      ensures escaped == ThrownArgsEffect(Configuration(), level, t, message, args).escaped
    {
      match level {
        case TRACE => escaped := TraceThrownArgs(t, message, args);
        case DEBUG => escaped := DebugThrownArgs(t, message, args);
        case INFO => escaped := InfoThrownArgs(t, message, args);
        case WARN => escaped := WarnThrownArgs(t, message, args);
        case ERROR => escaped := ErrorThrownArgs(t, message, args);
      }
    }
  }
}
