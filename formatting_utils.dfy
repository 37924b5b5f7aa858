/**
 * `org.kitei.internal.FormattingUtils`: formatting that catches every
 * `Exception`. `safeArgs` renders an argument array as `[a,b,...]`, and
 * `safeFormat` falls back to a diagnostic string when `String.format` fails.
 * Neither catches a `java.lang.Error`: that escapes to the caller.
 */
module FormattingUtils {
  import opened Wrappers
  import opened JavaRuntime

  /**
   * One element as `safeArgs` renders it: `String.valueOf(arg)`, or
   * `<SimpleName>` when that throws an exception (an Error never gets here:
   * see `FirstError`).
   */
  function Element(a: Arg): string
  {
    match a.valueOf
    case Success(text) => text
    case Failure(e) => "<" + e.simpleName + ">"
  }

  /** The rendered elements, in order, separated by single commas. */
  function Joined(args: seq<Arg>): string
    decreases |args|
  {
    if |args| == 0 then ""
    else if |args| == 1 then Element(args[0])
    else Joined(args[..|args| - 1]) + "," + Element(args[|args| - 1])
  }

  /** The text `safeArgs(args)` returns when no element throws an Error. */
  function ArgsText(args: seq<Arg>): (r: string)
    ensures |r| >= 2 && r[0] == '[' && r[|r| - 1] == ']'
    ensures args == [] ==> r == "[]"
  {
    "[" + Joined(args) + "]"
  }

  predicate ThrowsError(a: Arg)
  {
    a.valueOf.Failure? && a.valueOf.error.kind == JavaError
  }

  /** The Error thrown by the first element whose `toString()` throws one, if any. */
  function FirstError(args: seq<Arg>): Option<Throwable>
    decreases |args|
  {
    if args == [] then None
    else
      match FirstError(args[..|args| - 1])
      case Some(e) => Some(e)
      case None => if ThrowsError(args[|args| - 1]) then Some(args[|args| - 1].valueOf.error) else None
  }

  /** `FirstError` is none exactly when no element throws an Error, and otherwise the first one's. */
  lemma {:induction false} FirstErrorIsFirst(args: seq<Arg>)
    ensures FirstError(args).None? <==> forall i :: 0 <= i < |args| ==> !ThrowsError(args[i])
    ensures FirstError(args).Some? ==>
              exists i :: 0 <= i < |args| && ThrowsError(args[i]) && args[i].valueOf.error == FirstError(args).value
                          && forall j :: 0 <= j < i ==> !ThrowsError(args[j])
    decreases |args|
  {
    if args != [] {
      var init := args[..|args| - 1];
      FirstErrorIsFirst(init);
      assert forall i :: 0 <= i < |init| ==> init[i] == args[i];
    }
  }

  /**
   * What `safeArgs(args)` does: the Error of the first element that throws
   * one escapes; otherwise it returns the rendering.
   */
  function ArgsRendered(args: seq<Arg>): (r: Result<string, Throwable>)
    ensures r.Failure? ==> r.error.kind == JavaError
  {
    match FirstError(args)
    case Some(e) => FirstErrorKind(args); Failure(e)
    case None => Success(ArgsText(args))
  }

  lemma {:induction false} FirstErrorKind(args: seq<Arg>)
    ensures FirstError(args).Some? ==> FirstError(args).value.kind == JavaError
    decreases |args|
  {
    if args != [] {
      FirstErrorKind(args[..|args| - 1]);
    }
  }

  /**
   * `safeArgs`: walks the arguments with an iterator, appending each
   * element (or `<SimpleName>` when its `toString()` throws an exception)
   * and a comma whenever another element follows. An Error leaves the loop.
   */
  method SafeArgs(args: seq<Arg>) returns (r: Result<string, Throwable>)
    ensures r == ArgsRendered(args)
  {
    var joined := "";
    var i := 0;
    while i < |args|
      invariant 0 <= i <= |args|
      invariant FirstError(args[..i]) == None
      invariant joined == Joined(args[..i]) + (if 0 < i < |args| then "," else "")
    {
      FirstErrorStep(args, i);
      if ThrowsError(args[i]) {
        FirstErrorExtends(args, i + 1);
        assert ArgsRendered(args) == Failure(args[i].valueOf.error);
        return Failure(args[i].valueOf.error);
      }
      var element: string;
      match args[i].valueOf {
        case Success(text) =>
          element := text;
        case Failure(e) =>
          element := "<" + e.simpleName + ">";
      }
      JoinedStep(args, i);
      joined := joined + element;
      if i + 1 < |args| {
        joined := joined + ",";
      }
      i := i + 1;
    }
    assert args[..i] == args;
    assert ArgsRendered(args) == Success(ArgsText(args));
    assert "[" + joined + "]" == ArgsText(args);
    r := Success("[" + joined + "]");
  }

  lemma FirstErrorStep(args: seq<Arg>, i: nat)
    requires i < |args|
    ensures FirstError(args[..i + 1]) == if FirstError(args[..i]).Some? then FirstError(args[..i])
                                         else if ThrowsError(args[i]) then Some(args[i].valueOf.error) else None
  {
    var p := args[..i + 1];
    assert p[..i] == args[..i];
  }

  /** Once an element throws an Error, no later element changes which Error escapes. */
  lemma {:induction false} FirstErrorExtends(args: seq<Arg>, i: nat)
    requires i <= |args| && FirstError(args[..i]).Some?
    ensures FirstError(args) == FirstError(args[..i])
    decreases |args| - i
  {
    if i < |args| {
      FirstErrorStep(args, i);
      FirstErrorExtends(args, i + 1);
    } else {
      assert args[..i] == args;
    }
  }

  lemma JoinedStep(args: seq<Arg>, i: nat)
    requires i < |args|
    ensures Joined(args[..i + 1]) == Joined(args[..i]) + (if i > 0 then "," else "") + Element(args[i])
  {
    var p := args[..i + 1];
    assert p[..i] == args[..i];
    assert p[i] == args[i];
    if i == 0 {
      assert Joined(args[..i]) == "";
    }
  }

  /** Number of occurrences of `c` in `s`. */
  function Count(c: char, s: string): nat
    decreases |s|
  {
    if s == [] then 0 else (if s[0] == c then 1 else 0) + Count(c, s[1..])
  }

  lemma {:induction false} CountAppend(c: char, a: string, b: string)
    ensures Count(c, a + b) == Count(c, a) + Count(c, b)
    decreases |a|
  {
    if a == [] {
      assert a + b == b;
    } else {
      assert (a + b)[1..] == a[1..] + b;
      CountAppend(c, a[1..], b);
    }
  }

  /** Commas that the elements' own texts contribute. */
  function ElementCommas(args: seq<Arg>): nat
    decreases |args|
  {
    if args == [] then 0 else ElementCommas(args[..|args| - 1]) + Count(',', Element(args[|args| - 1]))
  }

  /**
   * Besides the commas inside the elements' own texts, `safeArgs` writes
   * exactly one separator between neighbouring elements and no trailing one:
   * n >= 1 elements give n - 1 separators, none give none.
   */
  lemma {:induction false} SeparatorCount(args: seq<Arg>)
    ensures Count(',', ArgsText(args)) == (if args == [] then 0 else |args| - 1) + ElementCommas(args)
  {
    JoinedCommas(args);
    CountAppend(',', "[", Joined(args));
    CountAppend(',', "[" + Joined(args), "]");
  }

  lemma {:induction false} JoinedCommas(args: seq<Arg>)
    ensures Count(',', Joined(args)) == (if args == [] then 0 else |args| - 1) + ElementCommas(args)
    decreases |args|
  {
    if |args| == 0 {
    } else if |args| == 1 {
      assert args[..0] == [];
    } else {
      var init, last := args[..|args| - 1], args[|args| - 1];
      JoinedCommas(init);
      CountAppend(',', Joined(init), ",");
      CountAppend(',', Joined(init) + ",", Element(last));
    }
  }

  /** Rendering is element by element: two non-empty halves render on their own, joined by one comma. */
  lemma {:induction false} JoinedAppend(a: seq<Arg>, b: seq<Arg>)
    requires a != [] && b != []
    ensures Joined(a + b) == Joined(a) + "," + Joined(b)
    decreases |b|
  {
    var ab := a + b;
    assert |ab| >= 2;
    var last := b[|b| - 1];
    assert ab[|ab| - 1] == last;
    if |b| == 1 {
      assert ab[..|ab| - 1] == a;
      assert Joined(b) == Element(last);
      assert Joined(ab) == Joined(a) + "," + Element(last);
    } else {
      var init := b[..|b| - 1];
      assert ab[..|ab| - 1] == a + init;
      JoinedAppend(a, init);
      assert Joined(b) == Joined(init) + "," + Element(last);
      calc {
        Joined(ab);
        Joined(a + init) + "," + Element(last);
        Joined(a) + "," + Joined(init) + "," + Element(last);
      }
    }
  }

  /**
   * An argument whose `toString()` throws is rendered `<SimpleName>` in its
   * place, and the arguments after it are still rendered.
   */
  lemma FailedElementRendered(before: seq<Arg>, e: Throwable, after: seq<Arg>)
    ensures Joined(before + [Arg(Failure(e))] + after)
         == (if before == [] then "" else Joined(before) + ",")
          + "<" + e.simpleName + ">"
          + (if after == [] then "" else "," + Joined(after))
  {
    var x := [Arg(Failure(e))];
    FailedElementLast(before, e);
    if after == [] {
      assert before + x + after == before + x;
    } else {
      JoinedAppend(before + x, after);
    }
  }

  lemma FailedElementLast(before: seq<Arg>, e: Throwable)
    ensures before == [] ==> Joined(before + [Arg(Failure(e))]) == "<" + e.simpleName + ">"
    ensures before != [] ==> Joined(before + [Arg(Failure(e))]) == Joined(before) + "," + "<" + e.simpleName + ">"
  {
    var x := [Arg(Failure(e))];
    assert Joined(x) == "<" + e.simpleName + ">";
    if before == [] {
      assert before + x == x;
    } else {
      JoinedAppend(before, x);
    }
  }

  /** The diagnostic `safeFormat` returns when `String.format` throws the exception `e`. */
  function FallbackText(msg: string, args: seq<Arg>, e: Throwable): string
  {
    "'" + msg + "', args: " + ArgsText(args) + "\n(Caught " + e.simpleName + " from String.format)"
  }

  /**
   * `safeFormat(msg, args)`: a null template yields `""` without arguments
   * and `safeArgs(args)` with them; otherwise `String.format`, or the
   * diagnostic when it throws an exception. Only a `java.lang.Error` escapes
   * it, from `String.format` or from an argument's `toString()`.
   */
  function SafeFormat(format: Formatter, msg: Option<string>, args: seq<Arg>): (r: Result<string, Throwable>)
    ensures r.Failure? ==> r.error.kind == JavaError
    ensures msg.None? && args == [] ==> r == Success("")
  {
    match msg
    case None => if |args| == 0 then Success("") else ArgsRendered(args)
    case Some(m) =>
      match format(m, args)
      case Success(text) => Success(text)
      case Failure(e) =>
        if e.kind == JavaError then Failure(e)
        else
          match ArgsRendered(args)
          case Failure(error) => Failure(error)
          case Success(_) => Success(FallbackText(m, args, e))
  }

  /**
   * `safeFormat` throws exactly when `String.format` throws an Error, or
   * when `safeArgs` runs (for a null template with arguments, or for the
   * diagnostic) and an argument throws one; `String.format`'s Error comes
   * first.
   */
  lemma ErrorEscapes(format: Formatter, msg: Option<string>, args: seq<Arg>)
    ensures var r := SafeFormat(format, msg, args);
            var formatError := msg.Some? && format(msg.value, args).Failure? && format(msg.value, args).error.kind == JavaError;
            var argsRun := msg.None? || format(msg.value, args).Failure?;
            && (r.Failure? <==> formatError || (argsRun && FirstError(args).Some?))
            && (formatError ==> r == Failure(format(msg.value, args).error))
            && (!formatError && argsRun && FirstError(args).Some? ==> r == Failure(FirstError(args).value))
  {
    if msg.None? && args == [] {
      assert FirstError(args) == None;
    }
  }

  /** A null template: empty exactly when there are no arguments, otherwise what `safeArgs` does. */
  lemma NullTemplate(format: Formatter, args: seq<Arg>)
    ensures SafeFormat(format, None, args) == Success("") <==> args == []
    ensures args != [] ==> SafeFormat(format, None, args) == ArgsRendered(args)
  {
  }

  /** When `String.format` succeeds its text is returned unchanged, whatever the arguments' `toString()` does. */
  lemma FormattedUnchanged(format: Formatter, msg: string, args: seq<Arg>)
    requires format(msg, args).Success?
    ensures SafeFormat(format, Some(msg), args) == Success(format(msg, args).value)
  {
  }

  /**
   * When `String.format` throws an exception and no argument throws an
   * Error, the result quotes the template, lists the arguments through
   * `safeArgs`, and names the exception on a second line.
   */
  lemma FallbackNamesCause(format: Formatter, msg: string, args: seq<Arg>)
    requires format(msg, args).Failure? && format(msg, args).error.kind != JavaError
    requires FirstError(args) == None
    ensures SafeFormat(format, Some(msg), args).Success?
    ensures var r := SafeFormat(format, Some(msg), args).value;
            var quoted := "'" + msg + "'";
            var cause := "\n(Caught " + format(msg, args).error.simpleName + " from String.format)";
            && |quoted| + |cause| <= |r|
            && r[..|quoted|] == quoted
            && r[|r| - |cause|..] == cause
            && r == quoted + ", args: " + ArgsText(args) + cause
  {
    var e := format(msg, args).error;
    assert SafeFormat(format, Some(msg), args) == Success(FallbackText(msg, args, e));
    var r := FallbackText(msg, args, e);
    var quoted := "'" + msg + "'";
    var middle := ", args: " + ArgsText(args);
    var cause := "\n(Caught " + format(msg, args).error.simpleName + " from String.format)";
    assert r == quoted + middle + cause;
    assert (quoted + middle + cause)[..|quoted|] == quoted;
    assert (quoted + middle + cause)[|quoted + middle|..] == cause;
  }
}
