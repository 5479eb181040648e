/**
 * `LocalDateTimeCellProcessorBuilder`: builds, for one `LocalDateTime`
 * column, the processor chain used when reading (text to date-time) and
 * the one used when writing (date-time to text).
 *
 * A chain is the list of its stages, first stage first; the empty list
 * is the end of the chain. The date-time library (parsing, formatting)
 * and the parent-class helpers that read the column's annotation are
 * not part of this model: the helpers' results arrive as
 * `ColumnSettings`, parsing is the parameter `parse`, the stages
 * `prependRangeProcessor` puts in front are the parameter `prepend`, and
 * what each stage does to a value at run time is the parameter `step`.
 */
module LocalDateTimeBuilder {
  import opened Cells

  datatype LocalDateTime = LocalDateTime(year: int, month: int, day: int, hour: int, minute: int, second: int, nano: int)

  datatype ResolverStyle = Strict | Smart | Lenient

  /** A `DateTimeFormatter`, determined by the four settings it is created from. */
  datatype Formatter = Formatter(pattern: string, style: ResolverStyle, locale: string, zone: string)

  /**
   * What the parent-class helpers (`getPattern`, `getResolverStyle`,
   * `getLocale`, `getZoneId`, `getMin`, `getMax`) read from the column's
   * annotation; `None` for an absent bound.
   */
  datatype ColumnSettings = ColumnSettings(
    pattern: string, style: ResolverStyle, locale: string, zone: string,
    min: Option<string>, max: Option<string>)

  /** `LocalDateTime.parse(text, formatter)`: `None` where it throws `DateTimeParseException`. */
  type Parser = (string, Formatter) -> Option<LocalDateTime>

  /** One stage of a chain. */
  datatype Stage =
    | ParseDateTime(f: Formatter)       // ParseLocalDateTime
    | FormatDateTime(f: Formatter)      // FmtLocalDateTime
    | Custom(name: string)              // any other stage: the caller's, or a validation stage

  type Chain = seq<Stage>

  /** A non-null processor: it has at least one stage. */
  type Stages = chain: Chain | |chain| > 0 witness [Custom("processor")]

  /**
   * `prependRangeProcessor(min, max, formatter, cp)`: the stages it puts
   * ahead of `cp`, which depend only on the parsed bounds and the formatter.
   */
  type Prepend = (Option<LocalDateTime>, Option<LocalDateTime>, Formatter) -> Chain

  /** `createDateTimeFormatter(pattern, style, locale, zone)`. */
  function FormatterOf(c: ColumnSettings): (f: Formatter)
  {
    Formatter(c.pattern, c.style, c.locale, c.zone)
  }

  /** The caller's processor as stages: Java `null` is no stage at all. */
  function Supplied(processor: Option<Stages>): (chain: Chain)
  {
    if processor.None? then [] else processor.value
  }

  /** The message of the `SuperCsvInvalidAnnotationException` of `getParseValue`. */
  function DefaultValueMessage(text: string, pattern: string): (message: string)
  {
    "default '" + text + "' value cannot parse to Date with pattern '" + pattern + "'"
  }

  /**
   * `getParseValue`: the column's default value text parsed with the
   * column's formatter; a text that does not parse is an invalid
   * annotation (a build error), never a validation failure.
   */
  function GetParseValue(c: ColumnSettings, text: string, parse: Parser): (r: Result<LocalDateTime>)
    ensures r.Ok? <==> parse(text, FormatterOf(c)).Some?
    ensures r.Ok? ==> r.value == parse(text, FormatterOf(c)).value
    ensures r.Err? ==> r.failure == InvalidAnnotation(DefaultValueMessage(text, c.pattern))
  {
    match parse(text, FormatterOf(c))
    case Some(d) => Ok(d)
    case None => Err(InvalidAnnotation(DefaultValueMessage(text, c.pattern)))
  }

  /**
   * `getMin(...).map(s -> parseTemporal(s, formatter))`: an absent bound
   * stays absent; a present one is parsed, and a text that does not
   * parse escapes as `DateTimeParseException`.
   */
  function ParseBound(bound: Option<string>, f: Formatter, parse: Parser): (r: Result<Option<LocalDateTime>>)
    ensures r.Err? <==> bound.Some? && parse(bound.value, f).None?
    ensures r.Err? ==> r.failure == DateTimeParse(bound.value)
    ensures r.Ok? ==> (r.value.Some? <==> bound.Some?)
    ensures r.Ok? && bound.Some? ==> r.value == parse(bound.value, f)
  {
    match bound
    case None => Ok(None)
    case Some(s) =>
      match parse(s, f)
      case None => Err(DateTimeParse(s))
      case Some(d) => Ok(Some(d))
  }

  /** `buildInputCellProcessor`: parsing first, then the caller's processor. */
  function BuildInput(c: ColumnSettings, processor: Option<Stages>): (chain: Chain)
    ensures |chain| == |Supplied(processor)| + 1
    ensures chain[0] == ParseDateTime(FormatterOf(c))
    ensures chain[1..] == Supplied(processor)
  {
    [ParseDateTime(FormatterOf(c))] + Supplied(processor)
  }

  /** The range stages of a write chain: what `prepend` makes of the parsed bounds. */
  function RangePrefix(c: ColumnSettings, parse: Parser, prepend: Prepend): (prefix: Chain)
    requires ParseBound(c.min, FormatterOf(c), parse).Ok? && ParseBound(c.max, FormatterOf(c), parse).Ok?
  {
    prepend(ParseBound(c.min, FormatterOf(c), parse).value, ParseBound(c.max, FormatterOf(c), parse).value,
            FormatterOf(c))
  }

  /**
   * `buildOutputCellProcessor`: both bounds are parsed first, with the
   * column's own formatter and whether or not validation is ignored; then
   * formatting is put ahead of the caller's processor, and, unless
   * validation is ignored, the stages of `prependRangeProcessor` ahead of
   * formatting.
   */
  function BuildOutput(c: ColumnSettings, processor: Option<Stages>, ignoreValidation: bool, parse: Parser,
                       prepend: Prepend): (r: Result<Chain>)
    ensures r.Err? <==> (c.min.Some? && parse(c.min.value, FormatterOf(c)).None?)
                        || (c.max.Some? && parse(c.max.value, FormatterOf(c)).None?)
    ensures r.Err? && c.min.Some? && parse(c.min.value, FormatterOf(c)).None? ==>
              r.failure == DateTimeParse(c.min.value)
    ensures r.Err? && !(c.min.Some? && parse(c.min.value, FormatterOf(c)).None?) ==>
              r.failure == DateTimeParse(c.max.value)
    ensures r.Ok? && ignoreValidation ==>
              r.value == [FormatDateTime(FormatterOf(c))] + Supplied(processor)
    ensures r.Ok? && !ignoreValidation ==>
              r.value == RangePrefix(c, parse, prepend) + [FormatDateTime(FormatterOf(c))] + Supplied(processor)
  {
    var f := FormatterOf(c);
    match ParseBound(c.min, f, parse)
    case Err(e) => Err(e)
    case Ok(min) =>
      match ParseBound(c.max, f, parse)
      case Err(e) => Err(e)
      case Ok(max) =>
        var formatted := [FormatDateTime(f)] + Supplied(processor);
        if ignoreValidation then Ok(formatted)
        else Ok(prepend(min, max, f) + formatted)
  }

  /**
   * Runs a chain on a value: each stage's `step` either hands a value to
   * the rest of the chain, fails, or returns early; past the last stage,
   * `last` receives the value.
   */
  function Run(chain: Chain, v: Value, step: (Stage, Value) -> Step, last: Processor): (o: Outcome)
    decreases |chain|
  {
    if chain == [] then last(v)
    else Continue(step(chain[0], v), w => Run(chain[1..], w, step, last))
  }

  /** `CellProcessor.execute` of a whole chain. */
  function Execute(chain: Chain, v: Value, step: (Stage, Value) -> Step): (o: Outcome)
  {
    Run(chain, v, step, Terminal)
  }

  /**
   * The effect of a run of stages taken as one stage: the value the last
   * of them hands on, or the first failure or early return.
   */
  function Through(chain: Chain, v: Value, step: (Stage, Value) -> Step): (s: Step)
    decreases |chain|
  {
    if chain == [] then Pass(v)
    else
      match step(chain[0], v)
      case Pass(w) => Through(chain[1..], w, step)
      case Halt(f) => Halt(f)
      case Done(x) => Done(x)
  }

  /**
   * Chaining is composition: running `a + b` is running `a` with the
   * rest of the work being `b`.
   */
  lemma {:induction false} RunAppend(a: Chain, b: Chain, v: Value, step: (Stage, Value) -> Step, last: Processor)
    ensures Run(a + b, v, step, last) == Run(a, v, step, w => Run(b, w, step, last))
    decreases |a|
  {
    if a == [] {
      assert a + b == b;
    } else {
      assert (a + b)[0] == a[0];
      assert (a + b)[1..] == a[1..] + b;
      match step(a[0], v)
      case Pass(w) => RunAppend(a[1..], b, w, step, last);
      case Halt(_) =>
      case Done(_) =>
    }
  }

  /** A run of stages behaves as the single stage `Through` describes. */
  lemma {:induction false} RunThrough(a: Chain, v: Value, step: (Stage, Value) -> Step, last: Processor)
    ensures Run(a, v, step, last) == Continue(Through(a, v, step), last)
    decreases |a|
  {
    if a != [] {
      match step(a[0], v)
      case Pass(w) => RunThrough(a[1..], w, step, last);
      case Halt(_) =>
      case Done(_) =>
    }
  }

  /**
   * Reading parses first: whatever parsing produces is what the caller's
   * processor receives, and a parse failure stops the chain.
   */
  lemma ReadParsesFirst(c: ColumnSettings, processor: Option<Stages>, v: Value, step: (Stage, Value) -> Step)
    ensures step(ParseDateTime(FormatterOf(c)), v).Halt? ==>
              Execute(BuildInput(c, processor), v, step) == Err(step(ParseDateTime(FormatterOf(c)), v).failure)
    ensures step(ParseDateTime(FormatterOf(c)), v).Pass? ==>
              Execute(BuildInput(c, processor), v, step)
                == Execute(Supplied(processor), step(ParseDateTime(FormatterOf(c)), v).v, step)
  {
  }

  /**
   * In every write chain, formatting comes directly ahead of the caller's
   * processor (or ends the chain); ahead of formatting stand the stages of
   * `prependRangeProcessor` when validation is not ignored, and nothing
   * when it is.
   */
  lemma FormatDirectlyAheadOfSupplied(c: ColumnSettings, processor: Option<Stages>, ignoreValidation: bool,
                                      parse: Parser, prepend: Prepend)
    requires BuildOutput(c, processor, ignoreValidation, parse, prepend).Ok?
    ensures var chain := BuildOutput(c, processor, ignoreValidation, parse, prepend).value;
            var i := if ignoreValidation then 0 else |RangePrefix(c, parse, prepend)|;
            |chain| == i + 1 + |Supplied(processor)|
            && chain[..i] == (if ignoreValidation then [] else RangePrefix(c, parse, prepend))
            && chain[i] == FormatDateTime(FormatterOf(c))
            && chain[i + 1..] == Supplied(processor)
  {
  }

  /**
   * The bounds are parsed eagerly: ignoring validation removes the range
   * stages but not the build failure of a bound that does not parse.
   */
  lemma BoundsParsedEagerly(c: ColumnSettings, processor: Option<Stages>, parse: Parser, prepend: Prepend)
    ensures BuildOutput(c, processor, true, parse, prepend).Err? <==> BuildOutput(c, processor, false, parse, prepend).Err?
    ensures BuildOutput(c, processor, true, parse, prepend).Err? ==>
              BuildOutput(c, processor, true, parse, prepend).failure
                == BuildOutput(c, processor, false, parse, prepend).failure
  {
  }

  /**
   * When validation is not ignored, it runs before formatting: a value the
   * range stages reject is never formatted, and a value they pass is
   * formatted and handed on exactly as in the chain without validation.
   */
  lemma ValidationBeforeFormatting(c: ColumnSettings, processor: Option<Stages>, parse: Parser, prepend: Prepend,
                                   v: Value, step: (Stage, Value) -> Step)
    requires BuildOutput(c, processor, false, parse, prepend).Ok?
    ensures var chain := BuildOutput(c, processor, false, parse, prepend).value;
            var range := Through(RangePrefix(c, parse, prepend), v, step);
            (range.Halt? ==> Execute(chain, v, step) == Err(range.failure))
            && (range.Done? ==> Execute(chain, v, step) == Ok(range.result))
            && (range.Pass? ==>
                  Execute(chain, v, step) == Execute(BuildOutput(c, processor, true, parse, prepend).value, range.v, step))
  {
    var prefix := RangePrefix(c, parse, prepend);
    var formatted := BuildOutput(c, processor, true, parse, prepend).value;
    RunAppend(prefix, formatted, v, step, Terminal);
    RunThrough(prefix, v, step, w => Run(formatted, w, step, Terminal));
  }
}
