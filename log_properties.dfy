/**
 * What the `Log` methods promise, stated over the functions that specify
 * them: when a throwable reaches the logger, which levels a varargs call can
 * reach, what a rejected template produces, and the scenarios the logging
 * tests walk through.
 */
module LogProperties {
  import opened Wrappers
  import opened JavaRuntime
  import FormattingUtils
  import opened Logging

  /** Severity order of the levels, TRACE lowest. */
  function Rank(level: LogLevel): nat
  {
    match level
    case TRACE => 0
    case DEBUG => 1
    case INFO => 2
    case WARN => 3
    case ERROR => 4
  }

  /** The enabled levels of a log4j category: everything at or above its threshold. */
  predicate Threshold(enabled: set<LogLevel>)
  {
    forall a, b :: a in enabled && Rank(a) <= Rank(b) ==> b in enabled
  }

  /**
   * The private `safeFormat` writes to the logger only when the template is
   * rejected as an illegal format and no argument's `toString()` throws an
   * Error, and then exactly one ERROR event without a throwable. It throws
   * when `String.format` throws anything else, or when `safeArgs` runs and
   * an argument throws an Error.
   */
  lemma SafeFormattedReports(c: Config, level: LogLevel, msg: Option<string>, args: seq<Arg>)
    ensures var r := SafeFormatted(c, level, msg, args);
            var formatFails := msg.Some? && c.format(msg.value, args).Failure?;
            && |r.calls| <= 1
            && (r.calls != [] <==> formatFails && c.format(msg.value, args).error.kind == IllegalFormat && FormattingUtils.FirstError(args).None?)
            && (forall e :: e in r.calls ==> e.level == ERROR && e.thrown == None)
            && (r.result.Failure? <==> (formatFails && c.format(msg.value, args).error.kind != IllegalFormat)
                                       || ((msg.None? || formatFails) && FormattingUtils.FirstError(args).Some?))
  {
    if msg.None? && args == [] {
      assert FormattingUtils.FirstError(args) == None;
    }
  }

  /**
   * `Log`'s `safeFormat` and `FormattingUtils.safeFormat` agree except when
   * `String.format` throws an exception: then the former quotes the template
   * without the `args:` label (or lets a non-format exception through) and
   * the latter appends the diagnostic. Both let an Error through.
   */
  lemma SafeFormatsAgree(c: Config, level: LogLevel, msg: Option<string>, args: seq<Arg>)
    ensures (msg.None? || c.format(msg.value, args).Success?)
            ==> SafeFormatted(c, level, msg, args).result == FormattingUtils.SafeFormat(c.format, msg, args)
    ensures msg.Some? && c.format(msg.value, args).Failure? && c.format(msg.value, args).error.kind == JavaError
            ==> SafeFormatted(c, level, msg, args).result == FormattingUtils.SafeFormat(c.format, msg, args)
                == Failure(c.format(msg.value, args).error)
    ensures msg.Some? && c.format(msg.value, args).Failure? && c.format(msg.value, args).error.kind == IllegalFormat
            && FormattingUtils.FirstError(args).None?
            ==> SafeFormatted(c, level, msg, args).result.Success? && FormattingUtils.SafeFormat(c.format, msg, args).Success?
                && SafeFormatted(c, level, msg, args).result.value != FormattingUtils.SafeFormat(c.format, msg, args).value
  {
    if msg.Some? && c.format(msg.value, args).Failure? && c.format(msg.value, args).error.kind == IllegalFormat
       && FormattingUtils.FirstError(args).None? {
      var m := msg.value;
      var shown := FormattingUtils.ArgsText(args);
      var quoted := QuotedFallback(m, args);
      var fallback := FormattingUtils.FallbackText(m, args, c.format(m, args).error);
      assert quoted == "'" + m + "' " + shown;
      assert fallback == "'" + m + "'" + ", args: " + shown + "\n(Caught " + c.format(m, args).error.simpleName + " from String.format)";
      assert quoted[|m| + 2] == ' ';
      assert fallback[|m| + 2] == ',';
    }
  }

  /**
   * A template rejected as an illegal format, at an enabled level, records
   * the ERROR report and then the quoted template at that level.
   */
  lemma BadTemplateRecorded(c: Config, level: LogLevel, m: string, args: seq<Arg>)
    requires level in c.enabled && ERROR in c.enabled
    requires c.format(m, args).Failure? && c.format(m, args).error.kind == IllegalFormat
    requires FormattingUtils.FirstError(args) == None
    ensures var effect := ArgsEffect(c, level, Some(m), args);
            && effect.escaped == None
            && Recorded(c.enabled, effect.calls)
               == [Event(ERROR, Some(InvalidFormatReport(level, m, args)), None), Event(level, Some(QuotedFallback(m, args)), None)]
  {
    var report := Event(ERROR, Some(InvalidFormatReport(level, m, args)), None);
    var logged := Event(level, Some(QuotedFallback(m, args)), None);
    assert ArgsEffect(c, level, Some(m), args).calls == [report] + [logged];
    RecordedAppend(c.enabled, [report], [logged]);
    assert [report][1..] == [] && [logged][1..] == [];
  }

  /**
   * `TestLog.TestBadFormatting`: `warn("Not a number: %d", "100")` on a
   * category where WARN is enabled records the ERROR report and then the
   * quoted template at WARN.
   */
  lemma BadFormatRecorded(c: Config)
    requires WARN in c.enabled && ERROR in c.enabled
    requires c.format("Not a number: %d", [Arg(Success("100"))]).Failure?
    requires c.format("Not a number: %d", [Arg(Success("100"))]).error.kind == IllegalFormat
    ensures var effect := ArgsEffect(c, WARN, Some("Not a number: %d"), [Arg(Success("100"))]);
            && effect.escaped == None
            && Recorded(c.enabled, effect.calls)
               == [Event(ERROR, Some("Invalid format string while logging: WARN 'Not a number: %d' [100]"), None),
                   Event(WARN, Some("'Not a number: %d' [100]"), None)]
  {
    var args := [Arg(Success("100"))];
    assert args[..0] == [];
    assert FormattingUtils.FirstError(args) == None;
    BadTemplateRecorded(c, WARN, "Not a number: %d", args);
    assert FormattingUtils.Joined(args) == "100";
    assert FormattingUtils.ArgsText(args) == "[100]";
    assert LevelName(WARN) == "WARN";
    assert InvalidFormatReport(WARN, "Not a number: %d", args)
        == "Invalid format string while logging: " + "WARN" + " '" + "Not a number: %d" + "' " + "[100]";
    assert QuotedFallback("Not a number: %d", args) == "'" + "Not a number: %d" + "' " + "[100]";
    BadFormatReportText();
    BadFormatQuotedText();
  }

  lemma BadFormatReportText()
    ensures "Invalid format string while logging: " + "WARN" + " '" + "Not a number: %d" + "' " + "[100]"
         == "Invalid format string while logging: WARN 'Not a number: %d' [100]"
  {
  }

  lemma BadFormatQuotedText()
    ensures "'" + "Not a number: %d" + "' " + "[100]" == "'Not a number: %d' [100]"
  {
  }

  /** Whether `x(t, message)` attaches the throwable: trace and debug always, info, warn and error unless trimming with DEBUG off. */
  predicate PassesThrowable(c: Config, level: LogLevel)
  {
    !Trims(level) || !c.trimExceptions || DEBUG in c.enabled
  }

  /**
   * The trim decision of `x(Throwable t, String message)`: when the
   * throwable is passed on it is the one logged call, with the message
   * unchanged; otherwise no call carries a throwable and, unless formatting
   * throws, the last call is the summary at the same level.
   */
  lemma ThrownDecision(c: Config, level: LogLevel, t: Option<Throwable>, msg: Option<string>)
    ensures var effect := ThrownEffect(c, level, t, msg);
            && (PassesThrowable(c, level) ==> effect == Effect([Event(level, msg, t)], None))
            && (!PassesThrowable(c, level) ==> forall e :: e in effect.calls ==> e.thrown == None)
            && (!PassesThrowable(c, level) && effect.escaped.None?
                ==> var formatted := SafeFormatted(c, level, msg, []).result.value;
                    effect.calls[|effect.calls| - 1] == Event(level, Some(Summary(formatted, t)), None))
  {
    if !PassesThrowable(c, level) {
      SafeFormattedReports(c, level, msg, []);
    }
  }

  /**
   * The same decision for `x(Throwable t, String message, Object... args)`,
   * which in addition logs nothing at a disabled level except when trimming
   * with DEBUG enabled.
   */
  lemma ThrownArgsDecision(c: Config, level: LogLevel, t: Option<Throwable>, msg: Option<string>, args: seq<Arg>)
    ensures var effect := ThrownArgsEffect(c, level, t, msg, args);
            && (t.Some? && effect.escaped.None? && effect.calls != []
                ==> (effect.calls[|effect.calls| - 1].thrown == t <==> PassesThrowable(c, level)))
            && (!PassesThrowable(c, level) ==> forall e :: e in effect.calls ==> e.thrown == None)
            && (level !in c.enabled && !(Trims(level) && c.trimExceptions && DEBUG in c.enabled) ==> effect == Effect([], None))
  {
    SafeFormattedReports(c, level, msg, args);
  }

  /**
   * Under a log4j threshold a varargs call at a disabled level makes no
   * call at all (not even the ERROR report of a bad template), with or
   * without a throwable, whatever the trim setting.
   */
  lemma VarargsGated(c: Config, level: LogLevel, t: Option<Throwable>, msg: Option<string>, args: seq<Arg>)
    requires Threshold(c.enabled)
    requires level !in c.enabled
    ensures ArgsEffect(c, level, msg, args) == Effect([], None)
    ensures ThrownArgsEffect(c, level, t, msg, args) == Effect([], None)
  {
    if Trims(level) && c.trimExceptions && DEBUG in c.enabled {
      assert false;
    }
  }

  /** At an enabled level a varargs call records its formatted text at that level, unless formatting throws. */
  lemma VarargsLogged(c: Config, level: LogLevel, msg: Option<string>, args: seq<Arg>)
    requires level in c.enabled
    ensures var effect := ArgsEffect(c, level, msg, args);
            effect.escaped.None?
            ==> Event(level, Some(SafeFormatted(c, level, msg, args).result.value), None) in Recorded(c.enabled, effect.calls)
  {
  }

  /**
   * `TestWarnDebugLogging.testDebug3`: with trimming on, `warn(e)` for an
   * exception with a one-line message records `": " + message` without the
   * throwable when DEBUG is off, and `""` with the throwable when it is on.
   */
  lemma WarnThrowableScenario(c: Config, t: Throwable)
    requires c.trimExceptions && WARN in c.enabled
    requires c.format("", []) == Success("")
    requires t.message.Some? && '\n' !in t.message.value
    ensures DEBUG !in c.enabled
            ==> Recorded(c.enabled, ThrownEffect(c, WARN, Some(t), Some("")).calls) == [Event(WARN, Some(": " + t.message.value), None)]
    ensures DEBUG in c.enabled
            ==> Recorded(c.enabled, ThrownEffect(c, WARN, Some(t), Some("")).calls) == [Event(WARN, Some(""), Some(t))]
  {
    var e := ThrownEffect(c, WARN, Some(t), Some(""));
    if DEBUG !in c.enabled {
      assert SafeFormatted(c, WARN, Some(""), []) == Rendering([], Success(""));
      assert "" + ": " + t.message.value == ": " + t.message.value;
      assert Summarized(c, WARN, Some(t), Some(""), []) == Rendering([], Success(": " + t.message.value));
      assert Summary("", Some(t)) == "" + ": " + t.message.value;
      assert e.calls == [Event(WARN, Some(": " + t.message.value), None)];
    }
    assert e.calls[1..] == [];
  }

  /** A summary only ever appends one line: the formatted message is kept and what follows it holds no line break. */
  lemma SummaryAddsOneLine(formatted: string, t: Option<Throwable>)
    ensures var r := Summary(formatted, t);
            |formatted| <= |r| && r[..|formatted|] == formatted && '\n' !in r[|formatted|..]
  {
    var r := Summary(formatted, t);
    var tail: string;
    if t.Some? && t.value.message.Some? {
      var m := t.value.message.value;
      if '\n' in m {
        var k :| 0 <= k < |m| && m[k] == '\n' && '\n' !in m[..k] && r == formatted + TRIM_NOTE + m[..k];
        assert '\n' !in TRIM_NOTE;
        tail := TRIM_NOTE + m[..k];
      } else {
        tail := ": " + m;
      }
    } else {
      tail := [];
    }
    assert r == formatted + tail && '\n' !in tail;
    assert r[|formatted|..] == tail;
  }
}
