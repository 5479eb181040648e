/**
 * `NumberRange`: a constraint processor that lets through values lying
 * between two bounds, both bounds included, and hands them unchanged to
 * the next processor.
 *
 * The bounds are fixed at construction (Java `final` fields), so the
 * processor is a datatype value; construction is a function that
 * returns either the processor or the `IllegalArgumentException` the
 * constructor throws.
 */
module NumberRanges {
  import opened Cells

  /** Canonical name of the Java class, the stem of its message code. */
  const CANONICAL_NAME := "org.supercsv.ext.cellprocessor.constraint.NumberRange"

  const NULL_BOUNDS_MESSAGE := "min and max should not be null"

  /**
   * A constructed processor: both bounds have the runtime class `cls`
   * (the type argument `T`), and `next` is the processor it delegates to.
   */
  datatype NumberRange = NumberRange(cls: NumClass, min: int, max: int, next: Processor)

  /** What construction guarantees of every processor it returns. */
  predicate Valid(r: NumberRange)
  {
    r.min <= r.max
  }

  /** `max (%s) should not be < min (%s)` with both bounds in decimal. */
  function OrderMessage(min: int, max: int): (message: string)
  {
    "max (" + Decimal(max) + ") should not be < min (" + Decimal(min) + ")"
  }

  /**
   * `checkPreconditions`: `None` when the bounds are acceptable, otherwise
   * the `IllegalArgumentException` raised. A null bound is reported
   * before the order of the bounds is looked at; equal bounds are
   * accepted.
   */
  function CheckPreconditions(min: Option<int>, max: Option<int>): (r: Option<Failure>)
    ensures r.None? <==> min.Some? && max.Some? && min.value <= max.value
    ensures min.None? || max.None? ==> r == Some(IllegalArgument(NULL_BOUNDS_MESSAGE))
    ensures min.Some? && max.Some? && min.value > max.value ==>
              r == Some(IllegalArgument(OrderMessage(min.value, max.value)))
  {
    if min.None? || max.None? then Some(IllegalArgument(NULL_BOUNDS_MESSAGE))
    else if min.value > max.value then Some(IllegalArgument(OrderMessage(min.value, max.value)))
    else None
  }

  /**
   * The constructor with an explicit next processor: it succeeds exactly
   * when `checkPreconditions` does, and then keeps the bounds and `next`.
   */
  function NewWithNext(cls: NumClass, min: Option<int>, max: Option<int>, next: Processor): (r: Result<NumberRange>)
    ensures r.Ok? <==> min.Some? && max.Some? && min.value <= max.value
    ensures r.Ok? ==> Valid(r.value) && r.value.cls == cls && r.value.next == next
                      && r.value.min == min.value && r.value.max == max.value
    ensures r.Err? ==> Some(r.failure) == CheckPreconditions(min, max) && r.failure.IllegalArgument?
  {
    match CheckPreconditions(min, max)
    case Some(f) => Err(f)
    case None => Ok(NumberRange(cls, min.value, max.value, next))
  }

  /** The constructor without a next processor: the chain ends here. */
  function New(cls: NumClass, min: Option<int>, max: Option<int>): (r: Result<NumberRange>)
    ensures r.Ok? <==> min.Some? && max.Some? && min.value <= max.value
    ensures r.Ok? ==> Valid(r.value) && r.value.cls == cls && r.value.next == Terminal
                      && r.value.min == min.value && r.value.max == max.value
    ensures r.Err? ==> Some(r.failure) == CheckPreconditions(min, max) && r.failure.IllegalArgument?
  {
    NewWithNext(cls, min, max, Terminal)
  }

  /** The static factory `range(min, max)`: the same as the constructor. */
  function Range(cls: NumClass, min: Option<int>, max: Option<int>): (r: Result<NumberRange>)
    ensures r == New(cls, min, max)
  {
    New(cls, min, max)
  }

  /** The static factory `range(min, max, next)`: the same as the constructor. */
  function RangeWithNext(cls: NumClass, min: Option<int>, max: Option<int>, next: Processor): (r: Result<NumberRange>)
    ensures r == NewWithNext(cls, min, max, next)
  {
    NewWithNext(cls, min, max, next)
  }

  /** True when `v` lies between the bounds of `r`, both included. */
  predicate InRange(r: NumberRange, v: Value)
  {
    v.Num? && v.num.cls == r.cls && r.min <= v.num.n <= r.max
  }

  /** `getMessageCode`: the canonical class name followed by `.violated`. */
  function MessageCode(r: NumberRange): (code: string)
    ensures |code| == |CANONICAL_NAME| + 9
    ensures code[..|CANONICAL_NAME|] == CANONICAL_NAME
    ensures code[|CANONICAL_NAME|..] == ".violated"
  {
    CANONICAL_NAME + ".violated"
  }

  /** `getMessageVariable`: exactly `min` and `max`, as boxed numbers of class `cls`. */
  function MessageVariables(r: NumberRange): (vars: map<string, Value>)
    ensures vars.Keys == {"min", "max"}
    ensures vars["min"] == Num(Number(r.cls, r.min))
    ensures vars["max"] == Num(Number(r.cls, r.max))
  {
    map["min" := Num(Number(r.cls, r.min)), "max" := Num(Number(r.cls, r.max))]
  }

  /** The constraint violation this processor raises. */
  function Violated(r: NumberRange, reason: Reason): (f: Failure)
  {
    Violation(MessageCode(r), MessageVariables(r), reason)
  }

  /**
   * The checks of `execute`, before delegation: null input first, then
   * a value that is not `Comparable`, then the cast to `T` and the two
   * comparisons. A `Comparable` value of another class reaches the cast
   * or `compareTo` and fails with a `ClassCastException`, which is not a
   * constraint violation.
   */
  function Check(r: NumberRange, v: Value): (s: Step)
    ensures v == Null ==> s == Halt(NullInput)
    ensures s.Pass? <==> InRange(r, v)
    ensures s.Pass? ==> s.v == v
    ensures v.Obj? && !v.comparable ==> s == Halt(Violated(r, NotComparable))
    ensures v.Num? && v.num.cls == r.cls && !InRange(r, v) ==> s == Halt(Violated(r, OutOfRange))
    ensures v != Null && !(v.Obj? && !v.comparable) && !(v.Num? && v.num.cls == r.cls) ==>
              s == Halt(ClassCast(v))
    ensures s.Halt? && s.failure.Violation? ==>
              s.failure.code == MessageCode(r) && s.failure.vars == MessageVariables(r)
  {
    match v
    case Null => Halt(NullInput)
    case Obj(_, _, comparable) =>
      if !comparable then Halt(Violated(r, NotComparable)) else Halt(ClassCast(v))
    case Str(_) => Halt(ClassCast(v))
    case Num(x) =>
      if x.cls != r.cls then Halt(ClassCast(v))
      else if x.n < r.min || x.n > r.max then Halt(Violated(r, OutOfRange))
      else Pass(v)
  }

  /** `execute`: the checks, then `next.execute` on the same value. */
  function Execute(r: NumberRange, v: Value): (o: Outcome)
    ensures InRange(r, v) ==> o == r.next(v)
    ensures !InRange(r, v) ==> o.Err? && o.failure == Check(r, v).failure
  {
    Continue(Check(r, v), r.next)
  }

  /** `formateValue`: empty for null, otherwise `toString()`. */
  function FormateValue(v: Value): (s: string)
    ensures v == Null ==> s == ""
    ensures v != Null ==> s == Text(v)
  {
    if v == Null then "" else Text(v)
  }

  /** Both bounds themselves pass: the range is inclusive at each end. */
  lemma BoundsIncluded(r: NumberRange)
    requires Valid(r)
    ensures Execute(r, Num(Number(r.cls, r.min))) == r.next(Num(Number(r.cls, r.min)))
    ensures Execute(r, Num(Number(r.cls, r.max))) == r.next(Num(Number(r.cls, r.max)))
  {
  }

  /**
   * For a number of the bounds' class, the processor itself rejects the
   * value if and only if it is below `min` or above `max`, and then with
   * its own violation; otherwise the result is whatever `next` makes of
   * the same value.
   */
  lemma FailsExactlyOutside(r: NumberRange, n: int)
    ensures Check(r, Num(Number(r.cls, n))).Halt? <==> n < r.min || n > r.max
    ensures n < r.min || n > r.max ==>
              Execute(r, Num(Number(r.cls, n))) == Err(Violation(MessageCode(r), MessageVariables(r), OutOfRange))
    ensures r.min <= n <= r.max ==> Execute(r, Num(Number(r.cls, n))) == r.next(Num(Number(r.cls, n)))
  {
  }

  /** A processor built with equal bounds accepts that one value and nothing else of its class. */
  lemma SingletonRange(cls: NumClass, b: int, n: int)
    ensures New(cls, Some(b), Some(b)).Ok?
    ensures Execute(New(cls, Some(b), Some(b)).value, Num(Number(cls, n))).Ok? <==> n == b
    ensures n == b ==> Execute(New(cls, Some(b), Some(b)).value, Num(Number(cls, n))) == Ok(Num(Number(cls, n)))
  {
  }

  /**
   * A `Comparable` value that is not a number of the bounds' class is
   * never a constraint violation: whatever its content, `execute` fails
   * with a `ClassCastException` and `next` is not called.
   */
  lemma WrongClassIsClassCast(r: NumberRange, v: Value)
    requires v != Null && !(v.Obj? && !v.comparable) && !(v.Num? && v.num.cls == r.cls)
    ensures Execute(r, v) == Err(ClassCast(v))
    ensures !Execute(r, v).failure.Violation?
  {
  }

  /** Numbers print as the decimal text `Decimal`, which reads back to the number. */
  lemma FormattedNumberReadsBack(x: Number)
    ensures var s := FormateValue(Num(x));
            s != "" && (if s[0] == '-' then -(DigitsValue(s[1..]) as int) else DigitsValue(s)) == x.n
  {
    DecimalRoundTrip(x.n);
  }
}
