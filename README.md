# Super CSV annotation extension: range constraints and the `LocalDateTime` chain builder

This project models three pieces of the Super CSV annotation extension:

- `NumberRange`, a cell processor that accepts a number between two bounds, both bounds included.
- `Min`, a cell processor that accepts a number not below one bound, the bound included.
- `LocalDateTimeCellProcessorBuilder`, which builds the read chain and the write chain of processors for a `LocalDateTime` column.

`NumberRange` and `Min` either fail or hand the value they received, unchanged, to their `next` processor and return what that processor returns. The builder's parse and format stages instead hand on a converted value.

## Modules

- `Cells` (`cells.dfy`) holds the shared vocabulary.
  - Values: `null`, boxed integers tagged with their runtime class, strings, and other objects.
  - `Failure`: the exceptions, as values.
  - `Processor = Value -> Outcome`: a processor seen through its `execute`.
  - `Terminal`: Super CSV's end-of-chain processor, which returns its input.
  - `Decimal`: the decimal `toString` of integer numbers.
- `NumberRanges` (`number_range.dfy`) is a datatype plus functions.
  - The bounds are `final`, so a processor is an immutable value.
  - Construction returns the processor or the `IllegalArgumentException`.
- `Mins` (`min.dfy`) is a class.
  - The bound and `next` are `const`.
  - The display `formatter` is a mutable field, changed by the fluent `SetFormatter`.
- `LocalDateTimeBuilder` (`local_date_time_builder.dfy`) represents chains as lists of stages, first stage first.
  - `Run` and `Execute` interpret a chain. What each stage does to a value is the parameter `step`.
  - Date-time parsing is the parameter `parse`.
  - The stages that `prependRangeProcessor` puts in front of the write chain are the parameter `prepend`.
  - A caller's processor is `Option<Stages>`: `None` is Java `null`, and a non-null processor has at least one stage.

## Behaviour worth knowing

- **Always inclusive.** A later `NumberRange` of this library (package `com.github.mygreen.supercsv`) has an inclusive/exclusive flag and an `inclusive` message variable. The class modelled here has neither: it is always inclusive, and its message variables are exactly `min` and `max`.
- **Exception kinds for unusable values.** Of the values that are not numbers of the bounds' class, only one that is not `Comparable` gets a constraint violation (`NumberRange.java:70-74`). A `Comparable` value of another class makes `compareTo` (or the cast to `T`) throw `ClassCastException`. The model reports this as `Failure.ClassCast`, not as a violation.
- **Eager bound parsing.** The write builder parses the min/max bound texts before it looks at `ignoreValidationProcessor`. So a bound that does not parse fails the build (`DateTimeParseException`) even when validation is ignored.

## Model

| member | source | states |
|---|---|---|
| `Cells.Decimal` | src/main/java/org/supercsv/ext/cellprocessor/constraint/NumberRange.java:60 | the text of a bound is '-' exactly for negative numbers, then decimal digits with no leading zero ("0" for zero) |
| `Cells.DecimalRoundTrip` | src/main/java/org/supercsv/ext/cellprocessor/constraint/NumberRange.java:60 | the decimal text of a number reads back to that number |
| `NumberRanges.CheckPreconditions` | src/main/java/org/supercsv/ext/cellprocessor/constraint/NumberRange.java:54-62 | passes iff both bounds are present and min <= max (equal bounds accepted); a missing bound gives the null-bounds `IllegalArgumentException`, checked before order; min > max gives the order message with both bounds |
| `NumberRanges.New` | src/main/java/org/supercsv/ext/cellprocessor/constraint/NumberRange.java:40-45 | succeeds iff both bounds are present and ordered; the result keeps the bounds, satisfies min <= max and ends the chain; otherwise the precondition's `IllegalArgumentException` |
| `NumberRanges.NewWithNext` | src/main/java/org/supercsv/ext/cellprocessor/constraint/NumberRange.java:47-52 | the same as `New`, with the given next processor kept |
| `NumberRanges.Range` | src/main/java/org/supercsv/ext/cellprocessor/constraint/NumberRange.java:32-34 | the two-argument factory gives exactly what the two-argument constructor gives |
| `NumberRanges.RangeWithNext` | src/main/java/org/supercsv/ext/cellprocessor/constraint/NumberRange.java:36-38 | the three-argument factory gives exactly what the three-argument constructor gives |
| `NumberRanges.MessageCode` | src/main/java/org/supercsv/ext/cellprocessor/constraint/NumberRange.java:93-96 | the code is the canonical class name followed by `.violated` |
| `NumberRanges.MessageVariables` | src/main/java/org/supercsv/ext/cellprocessor/constraint/NumberRange.java:98-104 | the variables are exactly `min` and `max`, bound to the two bounds |
| `NumberRanges.Check` | src/main/java/org/supercsv/ext/cellprocessor/constraint/NumberRange.java:66-81 | null input is rejected first; a non-`Comparable` value is a violation; any other value that is not a number of the bounds' class is a `ClassCastException`; a number of that class outside [min, max] is a violation carrying the processor's code and variables; the check passes iff the value is a number of that class within [min, max], and then passes the same value |
| `NumberRanges.Execute` | src/main/java/org/supercsv/ext/cellprocessor/constraint/NumberRange.java:66-84 | a value in range gets exactly what `next` returns for that same value; any other value gets the check's failure |
| `NumberRanges.FormateValue` | src/main/java/org/supercsv/ext/cellprocessor/constraint/NumberRange.java:106-112 | null gives the empty string, anything else its `toString()` text |
| `NumberRanges.BoundsIncluded` | src/main/java/org/supercsv/ext/cellprocessor/constraint/NumberRange.java:77-83 | both `min` and `max` themselves are handed to `next` |
| `NumberRanges.FailsExactlyOutside` | src/main/java/org/supercsv/ext/cellprocessor/constraint/NumberRange.java:77-83 | the processor rejects a number iff it is below min or above max, with its own violation; otherwise the result is `next`'s result for the same value |
| `NumberRanges.SingletonRange` | src/main/java/org/supercsv/ext/cellprocessor/constraint/NumberRange.java:59-61 | equal bounds construct successfully and accept that one number and no other of its class |
| `NumberRanges.WrongClassIsClassCast` | src/main/java/org/supercsv/ext/cellprocessor/constraint/NumberRange.java:76-77 | a `Comparable` value that is not a number of the bounds' class fails `execute` with a `ClassCastException`, never with a constraint violation |
| `NumberRanges.FormattedNumberReadsBack` | src/main/java/org/supercsv/ext/cellprocessor/constraint/NumberRange.java:107-112 | a number's display text is non-empty and reads back to the number |
| `Mins.CheckPreconditions` | src/main/java/org/supercsv/ext/cellprocessor/constraint/Min.java:47-51 | passes iff the bound is present; a null bound gives the `NullPointerException` with its message |
| `Mins.Min.constructor` | src/main/java/org/supercsv/ext/cellprocessor/constraint/Min.java:35-39 | keeps the bound, ends the chain, no formatter |
| `Mins.Min.WithNext` | src/main/java/org/supercsv/ext/cellprocessor/constraint/Min.java:41-45 | keeps the bound and the next processor, no formatter |
| `Mins.NewMin` | src/main/java/org/supercsv/ext/cellprocessor/constraint/Min.java:35-51 | a fresh processor iff the bound is present, otherwise the precondition's `NullPointerException` |
| `Mins.NewMinWithNext` | src/main/java/org/supercsv/ext/cellprocessor/constraint/Min.java:41-51 | the same as `NewMin`, with the given next processor kept |
| `Mins.Min.MessageCode` | src/main/java/org/supercsv/ext/cellprocessor/constraint/Min.java:75-78 | the code is the canonical class name followed by `.violated` |
| `Mins.Min.MessageVariables` | src/main/java/org/supercsv/ext/cellprocessor/constraint/Min.java:80-85 | the variables are exactly `min`, bound to the bound |
| `Mins.Min.Check` | src/main/java/org/supercsv/ext/cellprocessor/constraint/Min.java:55-70 | null input is rejected first; a value not of the bound's class is a type mismatch naming that class; a smaller number is a violation; the check passes iff the value is of the bound's class and not below it, and then passes the same value |
| `Mins.Min.Execute` | src/main/java/org/supercsv/ext/cellprocessor/constraint/Min.java:55-73 | an accepted value gets exactly what `next` returns for that same value; any other value gets the check's failure |
| `Mins.Min.FormatValue` | src/main/java/org/supercsv/ext/cellprocessor/constraint/Min.java:87-102 | null gives the empty string; a number with a formatter set gives the formatter's output; anything else gives `toString()` |
| `Mins.Min.GetFormatter` | src/main/java/org/supercsv/ext/cellprocessor/constraint/Min.java:108-110 | returns the formatter currently set: none after construction, and the argument of the latest `setFormatter` after it (with `SetFormatter`'s contract) |
| `Mins.Min.SetFormatter` | src/main/java/org/supercsv/ext/cellprocessor/constraint/Min.java:108-115 | returns the same object; afterwards the field and `getFormatter()` are the argument |
| `Mins.BoundIncluded` | src/main/java/org/supercsv/ext/cellprocessor/constraint/Min.java:66-72 | the bound itself is handed to `next` |
| `Mins.FailsExactlyBelow` | src/main/java/org/supercsv/ext/cellprocessor/constraint/Min.java:66-72 | the processor rejects a number of the bound's class iff it is below the bound, with its own violation; otherwise the result is `next`'s result for the same value |
| `Mins.WrongTypeIsMismatch` | src/main/java/org/supercsv/ext/cellprocessor/constraint/Min.java:59-62 | a non-null value of another class is a type mismatch and never a constraint violation |
| `Mins.SetFormatterKeepsExecute` | src/main/java/org/supercsv/ext/cellprocessor/constraint/Min.java:108-115 | `execute` gives the same outcome on a value before and after a formatter is set, and numbers are then displayed through it |
| `LocalDateTimeBuilder.GetParseValue` | src/main/java/org/supercsv/ext/builder/time/LocalDateTimeCellProcessorBuilder.java:37-57 | succeeds iff the text parses with the column's formatter, giving the parsed value; otherwise an invalid-annotation build error naming the text and the pattern |
| `LocalDateTimeBuilder.ParseBound` | src/main/java/org/supercsv/ext/builder/time/LocalDateTimeCellProcessorBuilder.java:71-72 | an absent bound stays absent; a present one is the parsed value, or a `DateTimeParseException` for its text |
| `LocalDateTimeBuilder.BuildInput` | src/main/java/org/supercsv/ext/builder/time/LocalDateTimeCellProcessorBuilder.java:84-101 | the read chain is the parse stage followed by exactly the caller's stages; with no caller processor, parsing ends the chain |
| `LocalDateTimeBuilder.BuildOutput` | src/main/java/org/supercsv/ext/builder/time/LocalDateTimeCellProcessorBuilder.java:59-82 | fails iff a present bound text does not parse (min reported before max), whatever the ignore flag; otherwise the format stage followed by the caller's stages, with the stages `prependRangeProcessor` returns for the parsed bounds and the formatter in front iff validation is not ignored |
| `LocalDateTimeBuilder.RunAppend` | src/main/java/org/supercsv/ext/builder/time/LocalDateTimeCellProcessorBuilder.java:74-79 | putting stages in front of a chain composes behaviours: running `a + b` is running `a` with `b` as the rest of the work |
| `LocalDateTimeBuilder.RunThrough` | src/main/java/org/supercsv/ext/builder/time/LocalDateTimeCellProcessorBuilder.java:77-79 | a run of stages behaves as one stage: the value its last stage hands on goes to the rest of the chain, and its first failure or early return ends the chain |
| `LocalDateTimeBuilder.ReadParsesFirst` | src/main/java/org/supercsv/ext/builder/time/LocalDateTimeCellProcessorBuilder.java:96-99 | reading runs the parse stage first; its failure is the chain's failure, and its output is what the caller's processor receives |
| `LocalDateTimeBuilder.FormatDirectlyAheadOfSupplied` | src/main/java/org/supercsv/ext/builder/time/LocalDateTimeCellProcessorBuilder.java:74-81 | in every write chain the format stage sits directly ahead of the caller's stages; ahead of it stand exactly the stages `prependRangeProcessor` returns when validation is not ignored, and nothing when it is |
| `LocalDateTimeBuilder.BoundsParsedEagerly` | src/main/java/org/supercsv/ext/builder/time/LocalDateTimeCellProcessorBuilder.java:69-81 | the build fails, with the same failure, whether or not validation is ignored |
| `LocalDateTimeBuilder.ValidationBeforeFormatting` | src/main/java/org/supercsv/ext/builder/time/LocalDateTimeCellProcessorBuilder.java:77-79 | when validation is on, a value the range stages reject (or return early) is never formatted; a value they pass runs through the validation-free chain |

## Left out

- `CsvContext` (row and column of the cell) is not modelled. It is only passed along and has no effect on the outcomes here.
- Exception detail messages raised at execution time (`does not lie between ...`) are not modelled. A violation carries the processor's message code, its message variables and a reason tag instead. The build-time messages are modelled.
- Java integer widths are not modelled. Values are unbounded integers tagged with their class, so an `Integer` beyond 32 bits is representable.
- Floating-point and `BigDecimal` values are left out, and with them the `DoubleCellProcessor` paths.
- Mins.Min.FormatValue: a `Number` outside the five integer classes (`Double`, `BigDecimal`, `AtomicInteger`, ...) is not a value of this model; an `Obj` is never a `Number`. Such a value would go through the formatter (`Min.java:92-96`), and `Min.Check` would reject it as a type mismatch, as it does every `Obj`.
- Mins.Min.Check: `isAssignableFrom` is modelled as "same class". This is exact for the final classes `Byte`, `Short`, `Integer` and `Long`. It leaves out subclasses of `BigInteger`.
- A null `next` processor is not modelled. The base class `CellProcessorAdaptor` rejects it before the bounds are checked, and that class is not part of this model. `next` is always a processor here.
- `getMin`/`getMax` of `NumberRange` and `getMin` of `Min` are plain getters, read here as the fields `min`, `max` and `minimum`.
- `Object.toString()` is modelled only for numbers (decimal) and strings. Other objects carry their text.
- `NumberFormatWrapper.format` is the parameter `render`.
- Date-time parsing and formatting are not modelled: `DateTimeFormatter`, `ResolverStyle`, `Locale`, `ZoneId`, `ParseLocalDateTime` and `FmtLocalDateTime`. Parsing is the parameter `parse`, which covers both `LocalDateTime.parse` and `parseTemporal`. What a parse or format stage does at run time is left to `step`.
- The parent-class helpers are not part of this model: `getAnnotation`, `getPattern`, `getResolverStyle`, `getLocale`, `getZoneId`, `getMin`, `getMax` and `createDateTimeFormatter`. Their results arrive as `ColumnSettings`, and the formatter is the tuple of its four settings.
- `prependRangeProcessor` is not part of this model. It is the parameter `prepend`: the stages it puts ahead of the format stage, as a function of the parsed bounds and the formatter. Nothing is assumed about them, not even that there are any when both bounds are absent. The model does assume that it keeps the format stage and the caller's stages as they are, behind its own.
- `getDefaultPattern` (`"yyyy/MM/dd HH:mm:ss"`) is used only by the parent class's `getPattern`, which is not part of this model; the pattern arrives in `ColumnSettings`.
- Message resolution (templates, resource bundles, locales) is not modelled.
