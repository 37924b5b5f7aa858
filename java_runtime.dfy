/**
 * The pieces of the Java runtime that the formatting and logging code
 * relies on, reduced to what their callers can observe.
 */
module JavaRuntime {
  import opened Wrappers

  /** Where a thrown class sits among the types the catch clauses here name. */
  datatype ThrowableKind =
    | IllegalFormat  // a `java.util.IllegalFormatException`, the only kind `Log` catches around `String.format`
    | OtherException // any other `java.lang.Exception`
    | JavaError      // a `java.lang.Error`, such as `StackOverflowError`, which `catch (Exception e)` lets through

  /**
   * A thrown exception: its class's simple name (what `getClass().getSimpleName()`
   * returns), its `getMessage()` (which may be null), and its kind.
   */
  datatype Throwable = Throwable(simpleName: string, message: Option<string>, kind: ThrowableKind)

  /**
   * One element of a varargs `Object...` array, seen through `String.valueOf`:
   * either the text its `toString()` produced or the exception it threw.
   */
  datatype Arg = Arg(valueOf: Result<string, Throwable>)

  /**
   * `String.format(template, args)`: the formatting grammar is not modelled,
   * so a formatter is any function from a template and its arguments to the
   * formatted text or the exception it throws.
   */
  type Formatter = (string, seq<Arg>) -> Result<string, Throwable>

  function DigitChar(d: nat): char
    requires d < 10
  {
    "0123456789"[d]
  }

  function Digits(n: nat): string
    decreases n
  {
    if n < 10 then [DigitChar(n)] else Digits(n / 10) + [DigitChar(n % 10)]
  }

  /** `%d` applied to an `int`: decimal digits with a leading '-' when negative. */
  function DecimalString(n: int): string
  {
    if n < 0 then "-" + Digits(-n) else Digits(n)
  }
}
