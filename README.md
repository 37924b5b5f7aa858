# kitei core, modelled in Dafny

This project models three pieces of the kitei Java library and proves what
they promise.

- **Robot-legs bindings** (`org.kitei.guice.RobotLegsBindingBuilder`). One
  implementation class can be bound several times, once under each context
  annotation (`ForA`, `ForB`). Its dependencies marked with the placeholder
  annotation `@RobotLeg` are then looked up under that same context
  annotation. The provider scans the class's injection points and keeps an
  entry from each tagged dependency `(T, context)` to its placeholder
  `(T, @RobotLeg)`. When the parent injector is injected, it builds a child
  injector. The child binds the class and redirects each placeholder key to
  its tagged key. If the parent lacks a tagged key, it fails on the first
  one. `get()` builds the class in that child. `getDependencies()` reports the
  tagged dependencies.
- **Safe formatting** (`org.kitei.internal.FormattingUtils`). `safeArgs`
  renders arguments as `[a,b,...]`, with `<ExceptionName>` for an argument
  whose `toString()` throws an exception. `safeFormat` falls back to a
  diagnostic text when `String.format` throws an exception. Neither catches a
  `java.lang.Error` (a `StackOverflowError` from a recursive `toString()`,
  say): that escapes both, and `Log`'s `safeFormat` with them.
- **The `Log` wrapper** (`org.kitei.logging.Log`). It has varargs formatting
  with an ERROR report for a bad template. It trims exceptions to a one-line
  summary when the trim setting is on and DEBUG is off. It gates the varargs
  methods by level, dispatches through `log(level, ...)`, and finds a
  logger's category by walking the stack in `findLog`.

Modules, one file each:

- `Wrappers` (`wrappers.dfy`) holds `Option` and `Result`.
- `JavaRuntime` (`java_runtime.dfy`) holds a thrown exception (an
  `IllegalFormatException`, another `Exception`, or an `Error`), a varargs
  element seen through `String.valueOf`, `String.format` as a function value,
  and `%d` of an int.
- `FormattingUtils` (`formatting_utils.dfy`) models `safeArgs` and
  `safeFormat`.
- `Logging` (`logging.dfy`) holds the wrapped slf4j logger as a `Logger`
  object and `Log` as a class. Each of `Log`'s methods is proved against a
  function. That function gives the calls the method makes into the logger
  and the exception that escapes it, if any.
- `LogProperties` (`log_properties.dfy`) proves the trim decision, level
  gating, bad-template handling and the logging tests' scenarios.
- `RobotLegs` (`robot_legs.dfy`) holds keys, dependencies, injection points,
  the parent and child injectors, `RobotLegsProvider` as a class, and the
  two `bindRobotLegs` factories.
- `RobotLegsScenarios` (`robot_legs_scenarios.dfy`) proves the `Bar`/`Foo`/`Baz`
  setup of the binding test.

## Model

| member | source | states |
|---|---|---|
| FormattingUtils.ArgsText | src/main/java/org/kitei/internal/FormattingUtils.java:44-59 | the rendering always starts with `[` and ends with `]`, and is `[]` for no arguments |
| FormattingUtils.FirstErrorIsFirst | src/main/java/org/kitei/internal/FormattingUtils.java:46-52 | no Error escapes exactly when no element's `toString()` throws one, and otherwise the first such element's Error escapes |
| FormattingUtils.ArgsRendered | src/main/java/org/kitei/internal/FormattingUtils.java:42-60 | `safeArgs` throws nothing but a `java.lang.Error`; `catch (Exception e)` handles everything else |
| FormattingUtils.SafeArgs | src/main/java/org/kitei/internal/FormattingUtils.java:42-60 | the iterator loop builds exactly the bracketed, comma-separated rendering of the elements, or lets the first element's Error out |
| FormattingUtils.SeparatorCount | src/main/java/org/kitei/internal/FormattingUtils.java:46-56 | apart from commas inside the elements, n >= 1 elements give n - 1 separators and no trailing comma |
| FormattingUtils.JoinedAppend | src/main/java/org/kitei/internal/FormattingUtils.java:46-57 | rendering is element by element: two non-empty runs of arguments render separately, joined by one comma |
| FormattingUtils.FailedElementRendered | src/main/java/org/kitei/internal/FormattingUtils.java:47-52 | an element whose `toString()` throws becomes `<SimpleName>` in its place, and the elements after it are still rendered |
| FormattingUtils.SafeFormat | src/main/java/org/kitei/internal/FormattingUtils.java:27-40 | only a `java.lang.Error` escapes `safeFormat`, and a null template without arguments gives `""`; its branches are stated by ErrorEscapes, NullTemplate, FormattedUnchanged and FallbackNamesCause |
| FormattingUtils.ErrorEscapes | src/main/java/org/kitei/internal/FormattingUtils.java:27-40 | `safeFormat` throws exactly when `String.format` throws an Error (which is what escapes), or when `safeArgs` runs and an argument throws one |
| FormattingUtils.NullTemplate | src/main/java/org/kitei/internal/FormattingUtils.java:29-31 | a null template gives `""` exactly when there are no arguments, and otherwise does what `safeArgs(args)` does |
| FormattingUtils.FormattedUnchanged | src/main/java/org/kitei/internal/FormattingUtils.java:33-34 | when `String.format` succeeds its text is returned unchanged |
| FormattingUtils.FallbackNamesCause | src/main/java/org/kitei/internal/FormattingUtils.java:36-38 | when `String.format` throws an exception and no argument throws an Error, the result quotes the template, lists the arguments and names the exception class on a second line |
| Logging.IndexOf | src/main/java/org/kitei/logging/Log.java:552 | `indexOf('\n')` is -1 exactly when there is no line break, and otherwise the position of the first one |
| Logging.Summary | src/main/java/org/kitei/logging/Log.java:544-560 | no exception message: the formatted text alone; a one-line message: `formatted + ": " + message`; otherwise the text before the first line break behind the DEBUG note |
| Logging.SkipLogFrames | src/main/java/org/kitei/logging/Log.java:92-95 | from frame 1, the frames skipped all belong to `Log`, and the frame stopped at does not |
| Logging.FindLog | src/main/java/org/kitei/logging/Log.java:90-101 | the loop returns frame `i + depth` past the `Log` frames, or `IllegalStateException` with the depth and the frames left when the stack is too short |
| Logging.Log.constructor | src/main/java/org/kitei/logging/Log.java:103-107 | the log keeps the wrapped logger, the trim setting and the formatter |
| Logging.Log.SafeFormat | src/main/java/org/kitei/logging/Log.java:562-576 | a null template gives `""` or the bracketed arguments; a rejected template writes one ERROR report and returns it quoted, calling `safeArgs` twice as the source does; any other exception escapes, and so does an Error from `safeArgs` |
| Logging.Log.Summarize | src/main/java/org/kitei/logging/Log.java:544-560 | the summary of the formatted message and the exception, with the calls formatting made |
| Logging.Log.Trace | src/main/java/org/kitei/logging/Log.java:152-155 | one TRACE call with the message and no throwable |
| Logging.Log.TraceThrown | src/main/java/org/kitei/logging/Log.java:157-160 | one TRACE call with `""` and the throwable, never trimmed |
| Logging.Log.TraceThrownMessage | src/main/java/org/kitei/logging/Log.java:162-165 | one TRACE call with the message and the throwable, never trimmed |
| Logging.Log.TraceArgs | src/main/java/org/kitei/logging/Log.java:167-172 | nothing unless TRACE is enabled, then the formatted message |
| Logging.Log.TraceThrownArgs | src/main/java/org/kitei/logging/Log.java:174-179 | nothing unless TRACE is enabled, then the formatted message with the throwable |
| Logging.Log.Debug | src/main/java/org/kitei/logging/Log.java:187-190 | one DEBUG call with the message |
| Logging.Log.DebugThrown | src/main/java/org/kitei/logging/Log.java:192-195 | one DEBUG call with `""` and the throwable, never trimmed |
| Logging.Log.DebugThrownMessage | src/main/java/org/kitei/logging/Log.java:197-200 | one DEBUG call with the message and the throwable, never trimmed |
| Logging.Log.DebugArgs | src/main/java/org/kitei/logging/Log.java:202-207 | nothing unless DEBUG is enabled, then the formatted message |
| Logging.Log.DebugThrownArgs | src/main/java/org/kitei/logging/Log.java:209-214 | nothing unless DEBUG is enabled, then the formatted message with the throwable |
| Logging.Log.Info | src/main/java/org/kitei/logging/Log.java:222-225 | one INFO call with the message |
| Logging.Log.InfoThrown | src/main/java/org/kitei/logging/Log.java:227-240 | `""` with the throwable unless trimming with DEBUG off, then the summary without it |
| Logging.Log.InfoThrownMessage | src/main/java/org/kitei/logging/Log.java:242-255 | the message with the throwable unless trimming with DEBUG off, then the summary without it |
| Logging.Log.InfoArgs | src/main/java/org/kitei/logging/Log.java:257-262 | nothing unless INFO is enabled, then the formatted message |
| Logging.Log.InfoThrownArgs | src/main/java/org/kitei/logging/Log.java:264-279 | the trim table: not trimming, gated by INFO with the throwable; trimming, with DEBUG on the throwable passes, else gated by INFO the summary |
| Logging.Log.Warn | src/main/java/org/kitei/logging/Log.java:287-290 | one WARN call with the message |
| Logging.Log.WarnThrown | src/main/java/org/kitei/logging/Log.java:292-305 | `""` with the throwable unless trimming with DEBUG off, then the summary without it |
| Logging.Log.WarnThrownMessage | src/main/java/org/kitei/logging/Log.java:307-320 | the message with the throwable unless trimming with DEBUG off, then the summary without it |
| Logging.Log.WarnArgs | src/main/java/org/kitei/logging/Log.java:322-327 | nothing unless WARN is enabled, then the formatted message |
| Logging.Log.WarnThrownArgs | src/main/java/org/kitei/logging/Log.java:329-344 | the trim table at WARN, as for INFO |
| Logging.Log.Error | src/main/java/org/kitei/logging/Log.java:352-355 | one ERROR call with the message |
| Logging.Log.ErrorThrown | src/main/java/org/kitei/logging/Log.java:357-370 | `""` with the throwable unless trimming with DEBUG off, then the summary without it |
| Logging.Log.ErrorThrownMessage | src/main/java/org/kitei/logging/Log.java:372-385 | the message with the throwable unless trimming with DEBUG off, then the summary without it |
| Logging.Log.ErrorArgs | src/main/java/org/kitei/logging/Log.java:387-392 | nothing unless ERROR is enabled, then the formatted message |
| Logging.Log.ErrorThrownArgs | src/main/java/org/kitei/logging/Log.java:394-409 | the trim table at ERROR, as for INFO |
| Logging.Log.LogMessage | src/main/java/org/kitei/logging/Log.java:417-440 | `log(level, message)` has exactly the effect of that level's message method |
| Logging.Log.LogThrown | src/main/java/org/kitei/logging/Log.java:442-465 | `log(level, t)` has exactly the effect of that level's throwable method |
| Logging.Log.LogThrownMessage | src/main/java/org/kitei/logging/Log.java:467-490 | `log(level, t, message)` has exactly the effect of that level's method |
| Logging.Log.LogArgs | src/main/java/org/kitei/logging/Log.java:492-515 | `log(level, message, args)` has exactly the effect of that level's varargs method |
| Logging.Log.LogThrownArgs | src/main/java/org/kitei/logging/Log.java:517-540 | `log(level, t, message, args)` has exactly the effect of that level's method |
| LogProperties.SafeFormattedReports | src/main/java/org/kitei/logging/Log.java:562-576 | the private `safeFormat` writes only for a rejected template whose arguments throw no Error, then exactly one ERROR event with no throwable; it throws exactly when `String.format` throws something else, or when `safeArgs` runs and an argument throws an Error |
| LogProperties.SafeFormatsAgree | src/main/java/org/kitei/logging/Log.java:562-576 | `Log`'s `safeFormat` agrees with `FormattingUtils.safeFormat` unless `String.format` throws, both let an Error from `String.format` through, and they differ on a rejected template |
| LogProperties.BadTemplateRecorded | src/main/java/org/kitei/logging/Log.java:568-574 | at an enabled level a rejected template records the ERROR report, then the quoted template at that level |
| LogProperties.BadFormatRecorded | src/test/java/org/kitei/logging/TestLog.java:108-115 | `warn("Not a number: %d", "100")` records `Invalid format string while logging: WARN 'Not a number: %d' [100]`, then `'Not a number: %d' [100]` |
| LogProperties.ThrownDecision | src/main/java/org/kitei/logging/Log.java:292-320 | `x(t, message)` passes the throwable with the message unchanged unless trimming at INFO/WARN/ERROR with DEBUG off; then no call has a throwable and the last is the summary |
| LogProperties.ThrownArgsDecision | src/main/java/org/kitei/logging/Log.java:329-344 | the logged call carries the throwable exactly when it is passed through; a disabled level logs nothing unless trimming with DEBUG on |
| LogProperties.VarargsGated | src/main/java/org/kitei/logging/Log.java:322-344 | with log4j thresholds, a varargs call at a disabled level makes no call at all, with or without a throwable |
| LogProperties.VarargsLogged | src/main/java/org/kitei/logging/Log.java:257-262 | at an enabled level a varargs call records its formatted message, unless formatting throws |
| LogProperties.WarnThrowableScenario | src/test/java/org/kitei/logging/TestWarnDebugLogging.java:102-120 | with trimming, `warn(e)` records `": " + message` without the throwable with DEBUG off, and `""` with the throwable with DEBUG on |
| LogProperties.SummaryAddsOneLine | src/main/java/org/kitei/logging/Log.java:544-560 | a summary keeps the formatted message and adds no line break after it |
| RobotLegs.InjectionPoints | src/main/java/org/kitei/guice/RobotLegsBindingBuilder.java:103-105 | the constructor is scanned first, then every instance method and field |
| RobotLegs.DependencyEntriesSound | src/main/java/org/kitei/guice/RobotLegsBindingBuilder.java:109-114 | an injection point's entries are its `@RobotLeg` dependencies, each keyed by the same type literal under the context annotation |
| RobotLegs.PointEntriesSound | src/main/java/org/kitei/guice/RobotLegsBindingBuilder.java:108-116 | every entry maps the tagged dependency to a `@RobotLeg` dependency some injection point declares |
| RobotLegs.DependencyEntriesComplete | src/main/java/org/kitei/guice/RobotLegsBindingBuilder.java:109-114 | every `@RobotLeg` dependency of an injection point gets its entry |
| RobotLegs.PointEntriesComplete | src/main/java/org/kitei/guice/RobotLegsBindingBuilder.java:108-116 | every `@RobotLeg` dependency of any injection point gets its entry |
| RobotLegs.EntryFor | src/main/java/org/kitei/guice/RobotLegsBindingBuilder.java:108-116 | an entry exists exactly for each declared `@RobotLeg` dependency, tagged with the same type under the context; unannotated dependencies get none |
| RobotLegs.MemberDependencyRewritten | src/main/java/org/kitei/guice/RobotLegsBindingBuilder.java:103-105 | a `@RobotLeg` dependency of an injected method or field is rewritten too |
| RobotLegs.FirstUnboundIsFirst | src/main/java/org/kitei/guice/RobotLegsBindingBuilder.java:131-140 | the check fails exactly when some tagged key is unbound in the parent, and reports the first such key in map order |
| RobotLegs.RedirectsDomain | src/main/java/org/kitei/guice/RobotLegsBindingBuilder.java:131-136 | the child's linked bindings are exactly the placeholder keys |
| RobotLegs.RedirectsToContext | src/main/java/org/kitei/guice/RobotLegsBindingBuilder.java:133-135 | each placeholder key `(T, @RobotLeg)` is linked to `(T, context)`, not the other way round |
| RobotLegs.ConfiguredChildFor | src/main/java/org/kitei/guice/RobotLegsBindingBuilder.java:121-144 | the child exists exactly when the parent binds every `@RobotLeg` type under the context; the error names a missing one; the child binds the class and one redirect per placeholder and nothing else |
| RobotLegs.ResolvedUnderContext | src/main/java/org/kitei/guice/RobotLegsBindingBuilder.java:147-150 | in the child each `@RobotLeg` dependency is supplied by its type under the context, every other dependency by its own key |
| RobotLegs.RobotLegsProvider.constructor | src/main/java/org/kitei/guice/RobotLegsBindingBuilder.java:98-119 | the nested loops fill the map with exactly the entries of the scanned injection points, in scan order |
| RobotLegs.RobotLegsProvider.SetInjector | src/main/java/org/kitei/guice/RobotLegsBindingBuilder.java:121-144 | stores the configured child injector, or reports the first unbound tagged key and leaves the field unchanged |
| RobotLegs.RobotLegsProvider.Get | src/main/java/org/kitei/guice/RobotLegsBindingBuilder.java:146-150 | the class built in the child: placeholders supplied by the context's bindings, other dependencies by their own keys |
| RobotLegs.RobotLegsProvider.GetDependencies | src/main/java/org/kitei/guice/RobotLegsBindingBuilder.java:152-156 | exactly the tagged dependencies, one for each `@RobotLeg` type the class declares |
| RobotLegs.RobotLegsBindingBuilder.constructor | src/main/java/org/kitei/guice/RobotLegsBindingBuilder.java:66-71 | the builder keeps its provider |
| RobotLegs.BindRobotLegsImplementation | src/main/java/org/kitei/guice/RobotLegsBindingBuilder.java:53-60 | a fresh provider for the implementation under the annotation, bound to `clazz` annotated with the annotation |
| RobotLegs.BindRobotLegs | src/main/java/org/kitei/guice/RobotLegsBindingBuilder.java:46-51 | the same with the bound class as its own implementation |
| RobotLegsScenarios.BarEntries | src/test/java/org/kitei/guice/robotlegs/Bar.java:25-31 | `Bar(@RobotLeg Foo, Baz)` gets one entry, for `Foo`, under any context |
| RobotLegsScenarios.BarUnderEachContext | src/test/java/org/kitei/guice/TestRobotLegsBindingBuilder.java:40-63 | under `ForA` and `ForB` the child is created; `Foo` comes from that context's binding and `Baz` from the one shared key |
| RobotLegsScenarios.MissingContextBinding | src/main/java/org/kitei/guice/RobotLegsBindingBuilder.java:132-139 | without `Foo` bound under `ForB`, binding `Bar` under `ForB` fails, naming `(Foo, ForB)` |

## Left out

- `String.format` is not modelled. A formatter is any function from a template and arguments to a text or a thrown exception. `IllegalFormatException` is a flag on the exception.
- `Thread.getStackTrace` is an input: the sequence of frame class names. `FindLog` returns the category name. It does not return the `Log` that `forCategory` would build.
- `findLog()` and `findCallerLog()` are `findLog(0)` and `findLog(1)`. `forClass`, `forCategory`, `forLogger`, `getWrappedLogger` and the `isXEnabled` methods only delegate to slf4j. None of them is modelled.
- The trim setting is a constructor parameter. The source reads it from a system property. `SystemPropertyKeys` is not part of this model.
- The slf4j logger and the log4j backend are a `Logger` whose enabled levels are fixed. It keeps the calls at enabled levels. Appender layout, the trailing newline and `Throwable.toString` are not modelled.
- Logging.Log.SafeFormat: the `%s` of a level in the ERROR report is the enum constant's name. The model writes that name directly. It does not format it.
- Log4jConfigurator, LoggingAssimilator, Providers and GuiceUtils are not part of this model. They do I/O and global configuration, or only forward to Guice.
- Guice's reflection is not modelled: `InjectionPoint.forConstructorOf` and `forInstanceMethodsAndFields` are given as data (`ImplementationClass`). The `ImmutableSet` of injection points is taken to hold distinct members. Duplicates are not merged.
- RobotLegs.RobotLegsProvider.constructor: requires distinct tagged keys. With two `@RobotLeg` dependencies of one type, `ImmutableMap.Builder` gets a duplicate key, and Guava's behaviour then is not modelled.
- RobotLegs.RobotLegsProvider.Get: requires a stored child injector. The source dereferences null before `setInjector`. It returns which parent key supplies each dependency. It does not build an object. Guice's construction, scopes and singleton identity (the shared `Baz` instance) are not modelled. Neither is the failure Guice raises for an unbound non-placeholder dependency.
- RobotLegs.RobotLegsProvider.SetInjector: the error carries the missing key, not the message text built from `Key.toString()`. Guice reports an exception thrown in a module through its own `CreationException`, and that wrapping is not modelled. There is no once-only guard, as in the source.
- `in(...)` and `asEagerSingleton()` on the binding builder only forward to Guice's `ScopedBindingBuilder`. They are not modelled. The binder keeps only the provider bindings the factories make.
- A null varargs array is not modelled. Nulls are modelled where the source handles them: a null message or template, a null throwable, and a null exception message.
- The null checks that throw `NullPointerException` through `checkNotNull` are not modelled, since no model value can be null: `clazz` and `annotation` in the provider's constructor (RobotLegsBindingBuilder.java:100-101), `delegate` and `scopedBindingBuilder` in the builder's constructor (RobotLegsBindingBuilder.java:69-70), and `wrappedLogger` in `Log`'s constructor (Log.java:105).
- RobotLegs.RobotLegsProvider.constructor: a class without an injectable constructor, or with invalid injection points, makes `InjectionPoint.forConstructorOf` or `forInstanceMethodsAndFields` throw a `ConfigurationException` in the source. The model cannot express such a class, because `ImplementationClass` always carries an injectable constructor, so that error path is not modelled.
- Logging.Log.SafeFormat: like the source it calls `safeArgs` twice for a rejected template, but an argument's `toString()` is taken to be deterministic and free of side effects (`Arg` fixes one outcome), so both calls render the same text.
