/**
 * `Min`: a constraint processor that lets through values not below one
 * bound, the bound itself included, and hands them unchanged to the next
 * processor.
 *
 * The bound and the next processor are fixed at construction (`const`);
 * the display formatter is the one setting that changes afterwards, so
 * the processor is a class whose `formatter` field a fluent setter
 * updates in place.
 */
module Mins {
  import opened Cells

  /** Canonical name of the Java class, the stem of its message code. */
  const CANONICAL_NAME := "org.supercsv.ext.cellprocessor.constraint.Min"

  const NULL_MIN_MESSAGE := "min should not be null"

  /** A `java.text.NumberFormat`, known here only by its identity. */
  datatype NumberFormat = NumberFormat(id: nat)

  /**
   * `checkPreconditions`: `None` for a present bound, otherwise the
   * `NullPointerException` raised.
   */
  function CheckPreconditions(min: Option<Number>): (r: Option<Failure>)
    ensures r.None? <==> min.Some?
    ensures min.None? ==> r == Some(NullPointer(NULL_MIN_MESSAGE))
  {
    if min.None? then Some(NullPointer(NULL_MIN_MESSAGE)) else None
  }

  class Min {
    /** The bound; its runtime class is the class every input must have. */
    const minimum: Number
    /** The processor the value is handed to when it passes. */
    const next: Processor
    /** Used only to display numbers in messages; `None` is Java `null`. */
    var formatter: Option<NumberFormat>

    /** `Min(min)`, for a bound that passed `checkPreconditions`. */
    constructor (min: Number)
      ensures minimum == min && next == Terminal && formatter == None
    {
      minimum := min;
      next := Terminal;
      formatter := None;
    }

    /** `Min(min, next)`, for a bound that passed `checkPreconditions`. */
    constructor WithNext(min: Number, next: Processor)
      ensures minimum == min && this.next == next && formatter == None
    {
      minimum := min;
      this.next := next;
      formatter := None;
    }

    /** True when `v` has the bound's class and is not below it. */
    predicate AtLeast(v: Value)
    {
      v.Num? && v.num.cls == minimum.cls && v.num.n >= minimum.n
    }

    /** `getMessageCode`: the canonical class name followed by `.violated`. */
    function MessageCode(): (code: string)
      ensures |code| == |CANONICAL_NAME| + 9
      ensures code[..|CANONICAL_NAME|] == CANONICAL_NAME
      ensures code[|CANONICAL_NAME|..] == ".violated"
    {
      CANONICAL_NAME + ".violated"
    }

    /** `getMessageVariable`: exactly `min`. */
    function MessageVariables(): (vars: map<string, Value>)
      ensures vars.Keys == {"min"}
      ensures vars["min"] == Num(minimum)
    {
      map["min" := Num(minimum)]
    }

    /**
     * The checks of `execute`, before delegation: null input first, then
     * a value whose class is not the bound's class (a type mismatch, not a
     * constraint violation), then the comparison with the bound.
     */
    function Check(v: Value): (s: Step)
      ensures v == Null ==> s == Halt(NullInput)
      ensures v != Null && !(v.Num? && v.num.cls == minimum.cls) ==>
                s == Halt(TypeMismatch(minimum.cls, v))
      ensures v.Num? && v.num.cls == minimum.cls && v.num.n < minimum.n ==>
                s == Halt(Violation(MessageCode(), MessageVariables(), BelowMin))
      ensures s.Pass? <==> AtLeast(v)
      ensures s.Pass? ==> s.v == v
    {
      match v
      case Null => Halt(NullInput)
      case Num(x) =>
        if x.cls != minimum.cls then Halt(TypeMismatch(minimum.cls, v))
        else if x.n < minimum.n then Halt(Violation(MessageCode(), MessageVariables(), BelowMin))
        else Pass(v)
      case _ => Halt(TypeMismatch(minimum.cls, v))
    }

    /** `execute`: the checks, then `next.execute` on the same value. */
    function Execute(v: Value): (o: Outcome)
      ensures AtLeast(v) ==> o == next(v)
      ensures !AtLeast(v) ==> o.Err? && o.failure == Check(v).failure
    {
      Continue(Check(v), next)
    }

    /**
     * `getFormatter`: the formatter currently set, `None` after
     * construction and the argument of the latest `setFormatter` after it.
     */
    function GetFormatter(): (f: Option<NumberFormat>)
      reads this
      ensures f == formatter
    {
      formatter
    }

    /**
     * `formatValue`: empty for null; a number goes through the formatter
     * when one is set (`render` stands for `NumberFormatWrapper.format`);
     * anything else, or a number with no formatter, is `toString()`.
     */
    function FormatValue(v: Value, render: (NumberFormat, Number) -> string): (s: string)
      reads this
      ensures v == Null ==> s == ""
      ensures v.Num? && formatter.Some? ==> s == render(formatter.value, v.num)
      ensures v != Null && !(v.Num? && formatter.Some?) ==> s == Text(v)
    {
      if v == Null then ""
      else if v.Num? && GetFormatter().Some? then render(GetFormatter().value, v.num)
      else Text(v)
    }

    /** `setFormatter`: replaces the formatter and returns this object; the bound is a `const` and cannot change. */
    method SetFormatter(f: Option<NumberFormat>) returns (self: Min)
      modifies this
      ensures self == this
      ensures formatter == f && GetFormatter() == f
    {
      formatter := f;
      self := this;
    }
  }

  /** `new Min(min)`: the `NullPointerException` for a null bound, else a fresh processor. */
  method NewMin(min: Option<Number>) returns (r: Result<Min>)
    ensures r.Ok? <==> min.Some?
    ensures r.Ok? ==> fresh(r.value) && r.value.minimum == min.value
                      && r.value.next == Terminal && r.value.formatter == None
    ensures r.Err? ==> Some(r.failure) == CheckPreconditions(min)
  {
    var check := CheckPreconditions(min);
    if check.Some? {
      r := Err(check.value);
    } else {
      var m := new Min(min.value);
      r := Ok(m);
    }
  }

  /** `new Min(min, next)`: the `NullPointerException` for a null bound, else a fresh processor. */
  method NewMinWithNext(min: Option<Number>, next: Processor) returns (r: Result<Min>)
    ensures r.Ok? <==> min.Some?
    ensures r.Ok? ==> fresh(r.value) && r.value.minimum == min.value
                      && r.value.next == next && r.value.formatter == None
    ensures r.Err? ==> Some(r.failure) == CheckPreconditions(min)
  {
    var check := CheckPreconditions(min);
    if check.Some? {
      r := Err(check.value);
    } else {
      var m := new Min.WithNext(min.value, next);
      r := Ok(m);
    }
  }

  /** The bound itself passes: the bound is inclusive. */
  lemma BoundIncluded(m: Min)
    ensures m.Execute(Num(m.minimum)) == m.next(Num(m.minimum))
  {
  }

  /**
   * For a number of the bound's class, the processor itself rejects the
   * value if and only if it is below the bound; otherwise the result is
   * whatever `next` makes of the same value.
   */
  lemma FailsExactlyBelow(m: Min, n: int)
    ensures m.Check(Num(Number(m.minimum.cls, n))).Halt? <==> n < m.minimum.n
    ensures n < m.minimum.n ==>
              m.Execute(Num(Number(m.minimum.cls, n))) == Err(Violation(m.MessageCode(), m.MessageVariables(), BelowMin))
    ensures n >= m.minimum.n ==> m.Execute(Num(Number(m.minimum.cls, n))) == m.next(Num(Number(m.minimum.cls, n)))
  {
  }

  /**
   * A wrong-typed value is never a constraint violation: whatever its
   * content, it is reported as a type mismatch naming the bound's class.
   */
  lemma WrongTypeIsMismatch(m: Min, v: Value)
    requires v != Null && !(v.Num? && v.num.cls == m.minimum.cls)
    ensures m.Execute(v) == Err(TypeMismatch(m.minimum.cls, v))
    ensures !m.Execute(v).failure.Violation?
  {
  }

  /**
   * Setting a formatter changes how numbers are displayed and nothing
   * about what the processor accepts: before and after, `execute` gives
   * the same outcome on every value.
   */
  method SetFormatterKeepsExecute(m: Min, f: NumberFormat, v: Value, render: (NumberFormat, Number) -> string)
      returns (before: Outcome, after: Outcome)
    modifies m
    ensures before == after == m.Execute(v)
    ensures v.Num? ==> m.FormatValue(v, render) == render(f, v.num)
  {
    before := m.Execute(v);
    var self := m.SetFormatter(Some(f));
    after := self.Execute(v);
  }
}
