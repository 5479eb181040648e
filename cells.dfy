/**
 * Shared vocabulary of the cell-processor layer: the values a cell
 * processor sees, the ways it can fail, and what a processor is.
 *
 * Java's `Number & Comparable` integer classes become `Number`, an
 * unbounded integer tagged with its runtime class; `null` becomes the
 * `Null` value; exceptions become `Failure` values.
 */
module Cells {

  datatype Option<+T> = None | Some(value: T)

  /** Integer-valued `Number` classes a bound can have at run time. */
  datatype NumClass = ByteClass | ShortClass | IntegerClass | LongClass | BigIntegerClass

  /** A boxed integer: its runtime class and its value. */
  datatype Number = Number(cls: NumClass, n: int)

  /**
   * A cell value as a processor receives it: `null`, a boxed integer,
   * a string, or any other object, described by its class name, its
   * `toString()` text and whether it implements `Comparable`. An `Obj`
   * never stands for a `java.lang.Number`: the only numbers are `Num`.
   */
  datatype Value =
    | Null
    | Num(num: Number)
    | Str(s: string)
    | Obj(className: string, text: string, comparable: bool)

  /** Why a constraint processor raised a constraint violation. */
  datatype Reason = NotComparable | OutOfRange | BelowMin

  /**
   * The exceptions of the processors and builders, as values.
   * `Violation` is `SuperCsvConstraintViolationException`: it carries the
   * message code and message variables of the processor that raised it.
   */
  datatype Failure =
    | NullInput                                          // validateInputNotNull
    | TypeMismatch(expected: NumClass, actual: Value)     // SuperCsvCellProcessorException
    | Violation(code: string, vars: map<string, Value>, reason: Reason)
    | ClassCast(actual: Value)                            // java.lang.ClassCastException
    | IllegalArgument(message: string)
    | NullPointer(message: string)
    | InvalidAnnotation(message: string)                  // SuperCsvInvalidAnnotationException
    | DateTimeParse(text: string)                         // DateTimeParseException
    | StageFailure(message: string)                       // any failure of a stage outside this model

  datatype Result<+T> = Ok(value: T) | Err(failure: Failure)

  /** What `CellProcessor.execute` produces: a value or a failure. */
  type Outcome = Result<Value>

  /**
   * The effect of one stage: hand a value to the next stage, fail, or
   * return a value without calling the next stage.
   */
  datatype Step = Pass(v: Value) | Halt(failure: Failure) | Done(result: Value)

  /** A cell processor, seen through its `execute` behaviour. */
  type Processor = Value -> Outcome

  /**
   * The processor that ends every chain (Super CSV's NullObjectPattern):
   * it returns its input.
   */
  function Terminal(v: Value): (o: Outcome)
  {
    Ok(v)
  }

  /** Continue with `next` after a stage, as `next.execute(result, context)` does. */
  function Continue(s: Step, next: Processor): (o: Outcome)
  {
    match s
    case Halt(f) => Err(f)
    case Pass(v) => next(v)
    case Done(v) => Ok(v)
  }

  predicate IsDigit(c: char) { '0' <= c <= '9' }

  /** Decimal digits of a natural number, most significant first. */
  function Digits(n: nat): (s: string)
    ensures |s| > 0
    ensures forall i :: 0 <= i < |s| ==> IsDigit(s[i])
    ensures n > 0 ==> s[0] != '0'
    ensures n == 0 ==> s == "0"
  {
    if n < 10 then [(n as char) + '0']
    else Digits(n / 10) + [((n % 10) as char) + '0']
  }

  /** Reads back a string of decimal digits. */
  function DigitsValue(s: string): (n: nat)
  {
    if s == [] then 0
    else 10 * DigitsValue(s[..|s| - 1]) + (s[|s| - 1] as int - '0' as int) % 10
  }

  /**
   * `Integer.toString` / `Long.toString` / `BigInteger.toString`: '-' for
   * a negative number, then its digits with no leading zero.
   */
  function Decimal(n: int): (s: string)
    ensures |s| > 0
    ensures (s[0] == '-') <==> n < 0
    ensures var k := if n < 0 then 1 else 0;
            k < |s| && (forall i :: k <= i < |s| ==> IsDigit(s[i])) && (s[k] == '0' <==> n == 0)
    ensures n == 0 ==> s == "0"
  {
    if n < 0 then "-" + Digits(-n) else Digits(n)
  }

  lemma {:induction false} DigitsRoundTrip(n: nat)
    ensures DigitsValue(Digits(n)) == n
  {
    if n >= 10 {
      var s := Digits(n);
      assert s[..|s| - 1] == Digits(n / 10);
      DigitsRoundTrip(n / 10);
    }
  }

  /** `Decimal` loses nothing: the integer is read back from its text. */
  lemma DecimalRoundTrip(n: int)
    ensures var s := Decimal(n);
            (if s[0] == '-' then -(DigitsValue(s[1..]) as int) else DigitsValue(s)) == n
  {
    if n < 0 {
      assert Decimal(n)[1..] == Digits(-n);
      DigitsRoundTrip(-n);
    } else {
      DigitsRoundTrip(n);
    }
  }

  /** `Object.toString()` of a non-null value. */
  function Text(v: Value): (s: string)
    requires v != Null
  {
    match v
    case Num(x) => Decimal(x.n)
    case Str(s) => s
    case Obj(_, t, _) => t
  }
}
