/**
  The `Logger` coordinator of Sources/Logger/Logger.swift: the minimum level,
  the formatter and the destination it holds, `log(level:items:)`,
  `setDestination(_:)`, and the `Trace` to `Error` entry points. The lock that
  serialises these in the source is not modelled: each method runs alone.
 */
module Loggers {
  import opened Results
  import Levels
  import opened Messages
  import opened Formatters
  import opened Destinations
  import opened Pipeline

  /** The loop at the start of `log` that turns each item into its text, in order. */
  method StringifyAll(items: seq<Item>) returns (strings: seq<string>)
    ensures |strings| == |items|
    ensures forall i :: 0 <= i < |items| ==> strings[i] == Stringify(items[i])
    ensures strings == Texts(items)
  {
    strings := [];
    for i := 0 to |items|
      invariant |strings| == i
      invariant forall k :: 0 <= k < i ==> strings[k] == Stringify(items[k])
    {
      strings := strings + [Stringify(items[i])];
    }
  }

  class Logger {
    /** `_level`: calls below it are filtered out. */
    var level: Levels.Level
    /** `_formatter`. */
    var formatter: Formatter
    /** `_destination`: the active destination. */
    var destination: Destination
    /** The "Failed to write log message:" lines `log` prints on a swallowed error. */
    var diagnostics: seq<string>

    /**
      A logger with the given minimum level and formatter, writing to a new
      console destination; the source chooses level and formatter by build
      and platform configuration, and does not open the console.
     */
    constructor (level: Levels.Level, formatter: Formatter)
      ensures this.level == level && this.formatter == formatter
      ensures fresh(destination) && destination.behaviour == ConsoleDestination
      ensures destination.opens == 0 && destination.closes == 0 && destination.lines == []
      ensures diagnostics == []
    {
      this.level := level;
      this.formatter := formatter;
      destination := new Destination(ConsoleDestination);
      diagnostics := [];
    }

    /** The `level` setter. */
    method SetLevel(l: Levels.Level)
      modifies this
      ensures level == l
      ensures formatter == old(formatter) && destination == old(destination)
      ensures diagnostics == old(diagnostics)
    {
      level := l;
    }

    /** The `formatter` setter; formatters have no lifecycle. */
    method SetFormatter(f: Formatter)
      modifies this
      ensures formatter == f
      ensures level == old(level) && destination == old(destination)
      ensures diagnostics == old(diagnostics)
    {
      formatter := f;
    }

    /**
      `log(level:items:)` with the clock reading `now`. A call below the
      minimum returns before anything else; otherwise the items' texts are
      joined with single spaces into a message that is formatted and written.
      A thrown error is printed to the diagnostics and never reaches the caller.
     */
    method Log(l: Levels.Level, items: seq<Item>, now: Date)
      modifies this, destination
      ensures destination == old(destination) && level == old(level) && formatter == old(formatter)
      ensures destination.opens == old(destination.opens) && destination.closes == old(destination.closes)
      ensures var e := LogStep(level, formatter, destination.behaviour, l, items, now);
        && destination.lines == old(destination.lines) + WrittenLines(e)
        && diagnostics == old(diagnostics) + ReportedLines(e)
    {
      if !Levels.Admits(level, l) {
        return;
      }
      var strings := StringifyAll(items);
      var message := Message(Join(strings, " "), now, l);
      var formatted := Format(formatter, message);
      match formatted
      case Err(e) =>
        diagnostics := diagnostics + [ReportLine(e)];
      case Ok(text) =>
        var written := destination.Write(text);
        if written.Fail? {
          diagnostics := diagnostics + [ReportLine(written.error)];
        }
    }

    /**
      `setDestination(_:)`: open `incoming`, then close the active destination,
      then install `incoming`. A throw from either step is returned as the
      outcome and leaves the active destination in place; when `close` throws,
      `incoming` has already been opened.
     */
    method SetDestination(incoming: Destination) returns (o: Outcome)
      modifies this, incoming, destination
      ensures var s := SwapStep(incoming.behaviour, old(destination).behaviour);
        && o == s.outcome
        && destination == (if s.installed then incoming else old(destination))
      ensures incoming.opens == old(incoming.opens) + 1
      ensures old(destination).closes == old(destination.closes) +
        (if OpenOutcome(incoming.behaviour) == Pass then 1 else 0)
      ensures incoming != old(destination) ==>
        incoming.closes == old(incoming.closes) && old(destination).opens == old(destination.opens)
      ensures incoming.lines == old(incoming.lines) && old(destination).lines == old(destination.lines)
      ensures level == old(level) && formatter == old(formatter) && diagnostics == old(diagnostics)
    {
      o := incoming.Open();
      if o.Fail? {
        return;
      }
      o := destination.Close();
      if o.Fail? {
        return;
      }
      destination := incoming;
    }
  }

  /** `Trace(_:)`: `log` at `trace`. */
  method Trace(logger: Logger, items: seq<Item>, now: Date)
    modifies logger, logger.destination
    ensures logger.destination == old(logger.destination)
    ensures logger.level == old(logger.level) && logger.formatter == old(logger.formatter)
    ensures logger.destination.opens == old(logger.destination.opens)
    ensures logger.destination.closes == old(logger.destination.closes)
    ensures var e := LogStep(logger.level, logger.formatter, logger.destination.behaviour, Levels.Trace, items, now);
      && logger.destination.lines == old(logger.destination.lines) + WrittenLines(e)
      && logger.diagnostics == old(logger.diagnostics) + ReportedLines(e)
  {
    logger.Log(Levels.Trace, items, now);
  }

  /** `Debug(_:)`: `log` at `debug`. */
  method Debug(logger: Logger, items: seq<Item>, now: Date)
    modifies logger, logger.destination
    ensures logger.destination == old(logger.destination)
    ensures logger.level == old(logger.level) && logger.formatter == old(logger.formatter)
    ensures logger.destination.opens == old(logger.destination.opens)
    ensures logger.destination.closes == old(logger.destination.closes)
    ensures var e := LogStep(logger.level, logger.formatter, logger.destination.behaviour, Levels.Debug, items, now);
      && logger.destination.lines == old(logger.destination.lines) + WrittenLines(e)
      && logger.diagnostics == old(logger.diagnostics) + ReportedLines(e)
  {
    logger.Log(Levels.Debug, items, now);
  }

  /** `Info(_:)`: `log` at `info`. */
  method Info(logger: Logger, items: seq<Item>, now: Date)
    modifies logger, logger.destination
    ensures logger.destination == old(logger.destination)
    ensures logger.level == old(logger.level) && logger.formatter == old(logger.formatter)
    ensures logger.destination.opens == old(logger.destination.opens)
    ensures logger.destination.closes == old(logger.destination.closes)
    ensures var e := LogStep(logger.level, logger.formatter, logger.destination.behaviour, Levels.Info, items, now);
      && logger.destination.lines == old(logger.destination.lines) + WrittenLines(e)
      && logger.diagnostics == old(logger.diagnostics) + ReportedLines(e)
  {
    logger.Log(Levels.Info, items, now);
  }

  /** `Warn(_:)`: `log` at `warn`. */
  method Warn(logger: Logger, items: seq<Item>, now: Date)
    modifies logger, logger.destination
    ensures logger.destination == old(logger.destination)
    ensures logger.level == old(logger.level) && logger.formatter == old(logger.formatter)
    ensures logger.destination.opens == old(logger.destination.opens)
    ensures logger.destination.closes == old(logger.destination.closes)
    ensures var e := LogStep(logger.level, logger.formatter, logger.destination.behaviour, Levels.Warn, items, now);
      && logger.destination.lines == old(logger.destination.lines) + WrittenLines(e)
      && logger.diagnostics == old(logger.diagnostics) + ReportedLines(e)
  {
    logger.Log(Levels.Warn, items, now);
  }

  /** `Error(_:)`: `log` at `error`. */
  method Error(logger: Logger, items: seq<Item>, now: Date)
    modifies logger, logger.destination
    ensures logger.destination == old(logger.destination)
    ensures logger.level == old(logger.level) && logger.formatter == old(logger.formatter)
    ensures logger.destination.opens == old(logger.destination.opens)
    ensures logger.destination.closes == old(logger.destination.closes)
    ensures var e := LogStep(logger.level, logger.formatter, logger.destination.behaviour, Levels.Error, items, now);
      && logger.destination.lines == old(logger.destination.lines) + WrittenLines(e)
      && logger.diagnostics == old(logger.diagnostics) + ReportedLines(e)
  {
    logger.Log(Levels.Error, items, now);
  }

  /** A client of the contracts above: filtering at `error`. */
  method FilterScenario(now: Date)
  {
    var logger := new Logger(Levels.Info, ValueFormatter);
    var console := logger.destination;
    logger.SetLevel(Levels.Error);
    Warn(logger, [Str("ignored")], now);
    assert console.lines == [];
    var items := [Str("boom"), Describable("1", None)];
    assert Texts(items) == ["boom", "1"];
    assert Join(["boom", "1"], " ") == "boom" + " " + Join(["1"], " ");
    assert LogStep(Levels.Error, ValueFormatter, ConsoleDestination, Levels.Error, items, now) == Written("boom 1");
    Error(logger, items, now);
    assert console.lines == ["boom 1"];
  }

  /**
    A client of the contracts above: a swap that succeeds, then a swap whose
    `close` throws and so installs nothing.
   */
  method SwapScenario()
  {
    var logger := new Logger(Levels.Info, ValueFormatter);
    var console := logger.destination;
    assert console.opens == 0;
    var sticky := new Destination(CustomDestination(Implemented(Pass), Implemented(Fail(Failure("busy"))), Pass));
    var o := logger.SetDestination(sticky);
    assert o == Pass && logger.destination == sticky && sticky.opens == 1 && console.closes == 1;

    var other := new Destination(ConsoleDestination);
    o := logger.SetDestination(other);
    assert o == Fail(Failure("busy")) && logger.destination == sticky && sticky.closes == 1 && other.opens == 1;
  }
}
