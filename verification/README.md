# Leveled logger, modelled in Dafny

A model of a small Swift logging library. Callers log items at one of five
severity levels. A `Logger` drops calls below its configured minimum level.
For the rest it turns the items into text, joins them with single spaces into
a `Message`, formats the message with its active `Formatter`, and writes the
result to its single active `Destination`. Formatting and writing errors are
printed and swallowed. Replacing the destination opens the new one, closes the
old one, then installs the new one.

Modules, one per source file, plus two shared ones:

- `Results` (results.dfy): `Failure`, `Outcome`, `Result` and `Option`. These stand for Swift's thrown errors.
- `Levels` (levels.dfy): `Level`, its `UInt8` raw values, its names, and the filter `Admits` (the source's `_loggable`).
- `Messages` (messages.dfy): the immutable `Message` record and an uninterpreted `Date`.
- `Formatters` (formatters.dfy): `ValueFormatter`, `MetaFormatter` and caller-supplied formatters as one datatype, and `Format`.
- `Destinations` (destinations.dfy): what a destination does (console or caller-supplied, with default or overriding `open`/`close`), and a `Destination` class that records the lines written to it and counts every call to its `open` and `close`.
- `Pipeline` (pipeline.dfy): item stringification, `joined(separator:)`, and the outcome of one `log` call (`LogStep`) and of one `setDestination` call (`SwapStep`), stated as values.
- `Loggers` (logger.dfy): the `Logger` class, whose methods carry out `LogStep` and `SwapStep` on its fields, and the `Trace` … `Error` entry points.

Notes on the code that the model keeps:

- When the old destination's `close` throws during `setDestination`, the call aborts before the assignment. The new destination has been opened but is not installed (Sources/Logger/Logger.swift:66-68).
- The initial `ConsoleDestination` is never opened (Sources/Logger/Logger.swift:57).
- `log` checks the level before it stringifies any item and before it reads `Date()` (Sources/Logger/Logger.swift:97, 120).

## Model

| member | source | states |
|---|---|---|
| Levels.RawValue | Sources/Logger/Logger.swift:10-15 | every level's raw value is at most 4 |
| Levels.FromRawValue | Sources/Logger/Logger.swift:10-15 | the derived initialiser succeeds exactly on raw values 0 to 4 |
| Levels.RawValueRoundTrip | Sources/Logger/Logger.swift:10-15 | raw value and initialiser are mutually inverse |
| Levels.RawValuesIncrease | Sources/Logger/Logger.swift:10-15 | in declaration order the raw values are 0,1,2,3,4, strictly increasing, and the list holds every level |
| Levels.Description | Sources/Logger/Logger.swift:17-30 | each name is 4 or 5 lowercase letters |
| Levels.Admits | Sources/Logger/Logger.swift:92-94 | `_loggable`; its own contract: `error` always passes, everything passes under `trace`, `trace` passes only under `trace`; order facts in the lemmas below |
| Levels.DescriptionsDistinct | Sources/Logger/Logger.swift:17-30 | different levels have different names |
| Levels.ErrorAlwaysAdmitted | Sources/Logger/Logger.swift:92-94 | `error` passes the filter whatever the minimum |
| Levels.TraceAdmittedOnlyUnderTrace | Sources/Logger/Logger.swift:92-94 | `trace` passes iff the minimum is `trace` |
| Levels.AdmitsFollowsDeclarationOrder | Sources/Logger/Logger.swift:92-94 | a level passes iff it is declared no earlier than the minimum |
| Levels.AdmitsTotal | Sources/Logger/Logger.swift:92-94 | the filter relation is total and antisymmetric |
| Levels.RaisingMinimumFiltersMore | Sources/Logger/Logger.swift:92-94 | a higher minimum admits a subset of what a lower one admits |
| Messages.InitialiserStoresArguments | Sources/Logger/Message.swift:10-19 | the initialiser's fields equal its arguments, and every message is the one built from its fields |
| Formatters.Format | Sources/Logger/Formatter.swift:15-17 | `format(message:)`; its own contract: the built-ins never throw and end with the message text, and `ValueFormatter` adds nothing; layout in `MetaFormatLayout` |
| Formatters.BuiltInFormattersNeverFail | Sources/Logger/Formatter.swift:14-31 | `ValueFormatter` and `MetaFormatter` never throw |
| Formatters.ValueFormatIsText | Sources/Logger/Formatter.swift:15-17 | `ValueFormatter` returns exactly the message text |
| Formatters.ValueFormatIgnoresMetadata | Sources/Logger/Formatter.swift:15-17 | messages with equal text format equally, whatever their time and level |
| Formatters.MetaFormatLayout | Sources/Logger/Formatter.swift:29-31 | output is timestamp, " [", level name, "] ", text, in that order with nothing else |
| Formatters.MetaFormatEndsWithText | Sources/Logger/Formatter.swift:30 | output ends with the message text |
| Formatters.MetaFormatBracketsLevel | Sources/Logger/Formatter.swift:30 | output holds "[" + level name + "]" right after the timestamp and a space |
| Destinations.OpenOutcome | Sources/Logger/Destination.swift:25-26 | the result of `open()`: the default never throws |
| Destinations.CloseOutcome | Sources/Logger/Destination.swift:28-29 | the result of `close()`: the default never throws |
| Destinations.WriteOutcome | Sources/Logger/Destination.swift:34-36 | the result of `write(message:)`: the console's never throws |
| Destinations.DefaultLifecycleNeverFails | Sources/Logger/Destination.swift:24-30 | a destination that keeps the default `open`/`close` never fails them |
| Destinations.ConsoleNeverFails | Sources/Logger/Destination.swift:33-37 | the console keeps the default lifecycle and its write never fails |
| Destinations.Destination.constructor | Sources/Logger/Destination.swift:11-22 | a new destination has the given behaviour and no recorded calls or lines |
| Destinations.Destination.Open | Sources/Logger/Destination.swift:14-14 | outcome is the behaviour's; every call is counted; the lines and close count do not change |
| Destinations.Destination.Close | Sources/Logger/Destination.swift:17-17 | outcome is the behaviour's; every call is counted; the lines and open count do not change |
| Destinations.Destination.Write | Sources/Logger/Destination.swift:34-36 | a successful write appends exactly the message as one line; a failed one appends nothing |
| Pipeline.Stringify | Sources/Logger/Logger.swift:104-115 | the `switch` for one item; its contract is `StringifyPrecedence` |
| Pipeline.Texts | Sources/Logger/Logger.swift:101-116 | the `strings` array: one text per item, in order; `StringifyAll` carries it out |
| Pipeline.StringifyPrecedence | Sources/Logger/Logger.swift:103-115 | texts pass through; a value with both descriptions uses `description`; `debugDescription` and interpolation apply only when nothing earlier does |
| Pipeline.Join | Sources/Logger/Logger.swift:120 | `joined(separator:)`; its contract is in `SplitJoin`, `JoinEnds`, `JoinSmall`, `JoinSnoc` |
| Pipeline.JoinEnds | Sources/Logger/Logger.swift:120 | the joined text starts with the first part and ends with the last |
| Pipeline.SplitJoin | Sources/Logger/Logger.swift:120 | joining with one character and cutting at it gives back the parts, when no part holds the character |
| Pipeline.JoinSmall | Sources/Logger/Logger.swift:120 | joining nothing gives "", joining one text gives that text |
| Pipeline.JoinSnoc | Sources/Logger/Logger.swift:120 | one more part adds the separator and that part at the end |
| Pipeline.MessageOf | Sources/Logger/Logger.swift:120 | the message of `log`: space-joined texts, the clock reading, the call's level; stated in `WrittenIffAllStepsSucceed` |
| Pipeline.LogStep | Sources/Logger/Logger.swift:96-128 | one `log` call; its own contract: filtered iff the level fails, a write only with the formatter's output and a good write, a report only with the error that was thrown |
| Pipeline.ReportLine | Sources/Logger/Logger.swift:127 | the printed "Failed to write log message:" line; it is what `Loggers.Logger.Log` adds to the diagnostics |
| Pipeline.FilteredIffNotAdmitted | Sources/Logger/Logger.swift:96-99 | a call has no effect iff its level fails the filter |
| Pipeline.ErrorNeverFilteredTraceOnlyUnderTrace | Sources/Logger/Logger.swift:92-99 | `error` calls are never dropped; `trace` calls are dropped iff the minimum is not `trace` |
| Pipeline.WrittenIffAllStepsSucceed | Sources/Logger/Logger.swift:101-125 | text t is written iff the level passes, the formatter returns t for the message of the space-joined item texts at the call's level, and the write succeeds |
| Pipeline.FormatFailureWritesNothing | Sources/Logger/Logger.swift:118-128 | a throwing formatter means no write, and its error is the one reported |
| Pipeline.AdmittedCallWritesOrReports | Sources/Logger/Logger.swift:118-128 | an admitted call adds exactly one line: either to the destination or to the diagnostics |
| Pipeline.BuiltInsToConsoleAlwaysWrite | Sources/Logger/Logger.swift:118-125 | built-in formatter plus console: every admitted call is written |
| Pipeline.ErrorMinimumWritesOnlyErrors | Sources/Logger/Logger.swift:92-125 | under minimum `error`, other levels write nothing; with a built-in formatter and a destination whose write succeeds, `error` writes one line |
| Pipeline.PlainItemsExample | Sources/Logger/Logger.swift:101-125 | items "a", 1, true through `ValueFormatter` write "a 1 true" |
| Pipeline.MetaExample | Sources/Logger/Formatter.swift:29-31 | "hello" at `info` through `MetaFormatter` writes "<stamp> [info] hello" |
| Pipeline.SwapStep | Sources/Logger/Logger.swift:64-70 | one `setDestination` call; its own contract: installed iff nothing thrown, and a thrown error is the open's or the close's |
| Pipeline.InstalledIffOpenAndClosePass | Sources/Logger/Logger.swift:64-70 | the new destination is installed iff its open and the old one's close both succeed, exactly when nothing is thrown |
| Pipeline.OpenFailureKeepsCurrent | Sources/Logger/Logger.swift:64-66 | a failed open is rethrown and nothing is installed |
| Pipeline.CloseFailureKeepsCurrent | Sources/Logger/Logger.swift:66-68 | after a good open, a failed close is rethrown and nothing is installed |
| Pipeline.DefaultLifecycleAlwaysSwaps | Sources/Logger/Logger.swift:64-70 | swapping between default-lifecycle destinations always succeeds |
| Loggers.StringifyAll | Sources/Logger/Logger.swift:101-116 | the loop yields one text per item, in order, each by the precedence of the `switch` |
| Loggers.Logger.constructor | Sources/Logger/Logger.swift:39-57 | starts with the given level and formatter and a fresh console destination on which `open` has never been called |
| Loggers.Logger.SetLevel | Sources/Logger/Logger.swift:83-85 | replaces the minimum level only |
| Loggers.Logger.SetFormatter | Sources/Logger/Logger.swift:50-54 | replaces the formatter only |
| Loggers.Logger.Log | Sources/Logger/Logger.swift:96-129 | the destination gains exactly the lines and the diagnostics exactly the reports `LogStep` gives; configuration and lifecycle counts are unchanged |
| Loggers.Logger.SetDestination | Sources/Logger/Logger.swift:64-70 | outcome and installed destination are `SwapStep`'s; the new one is opened exactly once; the old one is closed once iff that open succeeded; no lines change |
| Loggers.Trace | Sources/Logger/Logger.swift:132-134 | `Log` at `trace`: the same effects on lines, diagnostics and configuration |
| Loggers.Debug | Sources/Logger/Logger.swift:136-138 | `Log` at `debug`: the same effects on lines, diagnostics and configuration |
| Loggers.Info | Sources/Logger/Logger.swift:140-142 | `Log` at `info`: the same effects on lines, diagnostics and configuration |
| Loggers.Warn | Sources/Logger/Logger.swift:144-146 | `Log` at `warn`: the same effects on lines, diagnostics and configuration |
| Loggers.Error | Sources/Logger/Logger.swift:148-150 | `Log` at `error`: the same effects on lines, diagnostics and configuration |

## Left out

- The `DispatchQueue` that serialises every access and call is not modelled. Each method runs alone. The race between the filter check and the write, which take the lock separately, is out of scope.
- `Date()` is a parameter `now` of `Log`. The ISO-8601 GMT date formatter is the uninterpreted function `stamp` carried by `MetaFormatter`. `Date` is an uninterpreted value.
- Printing is not modelled as I/O. The console's output is the destination's `lines`. The "Failed to write log message:" output of `log` is the logger's `diagnostics`.
- The `#available` formatter choice and the `#if DEBUG` default level are build and platform configuration. The constructor takes the level and formatter as arguments instead.
- `Logger.shared` is not modelled. The `Trace` … `Error` functions take the logger as an argument.
- The `level`, `formatter` and `destination` getters are plain field reads in the model.
- Swift's `as` casts on `Any` are replaced by the `Item` datatype. It has one variant per case of the `switch`, chosen by the first case the value matches. The `CustomStringConvertible` variant also carries an optional debug description, for values that conform to both protocols.
- A caller-supplied destination has one fixed outcome per operation. A caller-supplied formatter is a pure function. Formatters and destinations whose results depend on their history are not modelled.
- Loggers.Logger.Log: "no stringification and no formatter call when filtered" is stated only as "no change to any state". With pure formatters nothing else is observable.
- Package.swift is a build manifest and is not part of this model.
