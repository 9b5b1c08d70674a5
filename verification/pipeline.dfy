/**
  What one `Logger.log(level:items:)` call and one `Logger.setDestination(_:)`
  call do, stated as values (Sources/Logger/Logger.swift). The `Logger` class
  carries these out on its fields; the functions here say what the outcome is.
 */
module Pipeline {
  import opened Results
  import opened Levels
  import opened Messages
  import opened Formatters
  import opened Destinations

  /**
    An argument passed to `log`, one variant per case of the source's
    `switch`, by the first case the value matches.
   */
  datatype Item =
      /** A `String`. */
    | Str(text: string)
      /** A `Substring`, by its characters. */
    | Sub(chars: string)
      /**
        Any other `CustomStringConvertible`; `alsoDebug` is its `debugDescription` when
        the value also conforms to `CustomDebugStringConvertible`.
       */
    | Describable(description: string, alsoDebug: Option<string>)
      /** A `CustomDebugStringConvertible` that is not `CustomStringConvertible`. */
    | DebugDescribable(debugDescription: string)
      /** Anything else, by what string interpolation makes of it. */
    | Opaque(interpolation: string)

  /** The text the `switch` in `log` appends for one item. */
  function Stringify(item: Item): string
  {
    match item
    case Str(s) => s
    case Sub(s) => s
    case Describable(d, _) => d
    case DebugDescribable(dd) => dd
    case Opaque(i) => i
  }

  /**
    The precedence of the `switch`: texts pass through, a value with both a
    description and a debug description uses the description, and the debug
    description and interpolation are used only when nothing earlier applies.
   */
  lemma StringifyPrecedence(s: string, d: string, dd: string, i: string)
    ensures Stringify(Str(s)) == s && Stringify(Sub(s)) == s
    ensures Stringify(Describable(d, Some(dd))) == d && Stringify(Describable(d, None)) == d
    ensures Stringify(DebugDescribable(dd)) == dd
    ensures Stringify(Opaque(i)) == i
  {
  }

  /** The `strings` array `log` builds, one entry per item in order. */
  function Texts(items: seq<Item>): (strings: seq<string>)
    ensures |strings| == |items|
    ensures forall i :: 0 <= i < |items| ==> strings[i] == Stringify(items[i])
  {
    seq(|items|, i requires 0 <= i < |items| => Stringify(items[i]))
  }

  /** `joined(separator:)`: the parts with `sep` between each neighbouring pair. */
  function Join(parts: seq<string>, sep: string): string
  {
    if |parts| == 0 then ""
    else if |parts| == 1 then parts[0]
    else parts[0] + sep + Join(parts[1..], sep)
  }

  /** The position of the first `c` in `s`. */
  function IndexOf(s: string, c: char): (i: nat)
    requires c in s
    ensures i < |s| && s[i] == c && c !in s[..i]
  {
    if s[0] == c then 0 else 1 + IndexOf(s[1..], c)
  }

  /** Cuts `s` at every `c`: the reference that `Join` is checked against. */
  function Split(s: string, c: char): (parts: seq<string>)
    ensures |parts| > 0
    decreases |s|
  {
    if c in s then
      var i := IndexOf(s, c);
      [s[..i]] + Split(s[i + 1..], c)
    else
      [s]
  }

  /**
    Joining with one character loses nothing when no part contains that
    character: cutting the joined text at it gives the parts back.
   */
  lemma {:induction false} SplitJoin(parts: seq<string>, c: char)
    requires |parts| > 0
    requires forall k :: 0 <= k < |parts| ==> c !in parts[k]
    ensures Split(Join(parts, [c]), c) == parts
  {
    if |parts| > 1 {
      var rest := Join(parts[1..], [c]);
      assert Join(parts, [c]) == parts[0] + [c] + rest;
      SplitAtFirst(parts[0], c, rest);
      SplitJoin(parts[1..], c);
      assert parts == [parts[0]] + parts[1..];
    }
  }

  /** Cutting a text that begins with a part free of `c`, then `c`, first yields that part. */
  lemma SplitAtFirst(head: string, c: char, tail: string)
    requires c !in head
    ensures Split(head + [c] + tail, c) == [head] + Split(tail, c)
  {
    var s := head + [c] + tail;
    assert s[|head|] == c;
    assert s[..|head|] == head;
    var i := IndexOf(s, c);
    assert i == |head|;
    assert s[i + 1..] == tail;
  }

  /** The joined text starts with the first part and ends with the last. */
  lemma {:induction false} JoinEnds(parts: seq<string>, sep: string)
    requires |parts| > 0
    ensures var joined, first, last := Join(parts, sep), parts[0], parts[|parts| - 1];
      && |first| <= |joined| && joined[..|first|] == first
      && |last| <= |joined| && joined[|joined| - |last|..] == last
  {
    if |parts| > 1 {
      JoinEnds(parts[1..], sep);
      var joined, rest := Join(parts, sep), Join(parts[1..], sep);
      assert joined == parts[0] + sep + rest;
      var last := parts[|parts| - 1];
      assert parts[1..][|parts[1..]| - 1] == last;
      assert joined[|joined| - |last|..] == rest[|rest| - |last|..];
    }
  }

  /** The joined text of one item is that item's text; of none, the empty text. */
  lemma JoinSmall(parts: seq<string>, sep: string)
    ensures |parts| == 0 ==> Join(parts, sep) == ""
    ensures |parts| == 1 ==> Join(parts, sep) == parts[0]
  {
  }

  /** Adding one more part puts one separator and that part at the end. */
  lemma {:induction false} JoinSnoc(parts: seq<string>, last: string, sep: string)
    requires |parts| > 0
    ensures Join(parts + [last], sep) == Join(parts, sep) + sep + last
  {
    if |parts| > 1 {
      assert (parts + [last])[1..] == parts[1..] + [last];
      JoinSnoc(parts[1..], last, sep);
    }
  }

  /** The message `log` builds from its arguments and the clock reading `now`. */
  function MessageOf(level: Level, items: seq<Item>, now: Date): Message
  {
    Message(Join(Texts(items), " "), now, level)
  }

  /** What one `log` call does. */
  datatype Effect =
    /** The level did not pass the filter: nothing happens. */
    | Filtered
      /** Exactly one successful write of `text` to the destination. */
    | Written(text: string)
      /** Formatting or writing threw; the error is printed and dropped. */
    | Reported(failure: Failure)

  /**
    The effect of `log(level:items:)` on a logger whose minimum level is
    `minimum`, whose formatter is `formatter` and whose destination behaves
    as `sink`, when the clock reads `now`.
   */
  function LogStep(minimum: Level, formatter: Formatter, sink: Behaviour,
                   level: Level, items: seq<Item>, now: Date): (e: Effect)
    ensures e == Filtered <==> !Admits(minimum, level)
    ensures e.Written? ==> Format(formatter, MessageOf(level, items, now)) == Ok(e.text) && WriteOutcome(sink) == Pass
    ensures e.Reported? ==> Format(formatter, MessageOf(level, items, now)) == Err(e.failure) || WriteOutcome(sink) == Fail(e.failure)
  {
    if !Admits(minimum, level) then Filtered
    else
      match Format(formatter, MessageOf(level, items, now))
      case Err(e) => Reported(e)
      case Ok(text) =>
        match WriteOutcome(sink)
        case Pass => Written(text)
        case Fail(e) => Reported(e)
  }

  /** The line `log` prints when formatting or writing throws. */
  function ReportLine(failure: Failure): string
  {
    "Failed to write log message: " + failure.description
  }

  /** The lines an effect adds to the destination. */
  function WrittenLines(e: Effect): seq<string>
  {
    if e.Written? then [e.text] else []
  }

  /** The lines an effect adds to the diagnostic output. */
  function ReportedLines(e: Effect): seq<string>
  {
    if e.Reported? then [ReportLine(e.failure)] else []
  }

  /** A call is filtered out exactly when its level fails the filter. */
  lemma FilteredIffNotAdmitted(minimum: Level, formatter: Formatter, sink: Behaviour,
                               level: Level, items: seq<Item>, now: Date)
    ensures LogStep(minimum, formatter, sink, level, items, now) == Filtered <==> !Admits(minimum, level)
  {
  }

  /** An `error` call is never filtered out; a `trace` call only when the minimum is not `trace`. */
  lemma ErrorNeverFilteredTraceOnlyUnderTrace(minimum: Level, formatter: Formatter, sink: Behaviour,
                                               items: seq<Item>, now: Date)
    ensures LogStep(minimum, formatter, sink, Error, items, now) != Filtered
    ensures LogStep(minimum, formatter, sink, Trace, items, now) == Filtered <==> minimum != Trace
  {
  }

  /**
    A write happens exactly when the level passes, the formatter succeeds on
    the message built from the joined item texts and the call's level, and the
    destination accepts; the text written is the formatter's output.
   */
  lemma WrittenIffAllStepsSucceed(minimum: Level, formatter: Formatter, sink: Behaviour,
                                  level: Level, items: seq<Item>, now: Date, text: string)
    ensures LogStep(minimum, formatter, sink, level, items, now) == Written(text) <==>
      && Admits(minimum, level)
      && Format(formatter, Message(Join(Texts(items), " "), now, level)) == Ok(text)
      && WriteOutcome(sink) == Pass
  {
  }

  /** A formatter that throws means nothing is written, and its error is the one reported. */
  lemma FormatFailureWritesNothing(minimum: Level, formatter: Formatter, sink: Behaviour,
                                   level: Level, items: seq<Item>, now: Date, e: Failure)
    requires Admits(minimum, level)
    requires Format(formatter, MessageOf(level, items, now)) == Err(e)
    ensures LogStep(minimum, formatter, sink, level, items, now) == Reported(e)
  {
  }

  /** A call that is not filtered out either writes once or reports once, never both. */
  lemma AdmittedCallWritesOrReports(minimum: Level, formatter: Formatter, sink: Behaviour,
                                    level: Level, items: seq<Item>, now: Date)
    requires Admits(minimum, level)
    ensures var e := LogStep(minimum, formatter, sink, level, items, now);
      |WrittenLines(e)| + |ReportedLines(e)| == 1
  {
  }

  /** With a built-in formatter and the console, every call that passes the filter is written. */
  lemma BuiltInsToConsoleAlwaysWrite(minimum: Level, formatter: Formatter,
                                     level: Level, items: seq<Item>, now: Date)
    requires !formatter.CustomFormatter?
    requires Admits(minimum, level)
    ensures LogStep(minimum, formatter, ConsoleDestination, level, items, now).Written?
  {
  }

  /** The minimum set to `error`: `trace` to `warn` write nothing, `error` writes once. */
  lemma ErrorMinimumWritesOnlyErrors(formatter: Formatter, sink: Behaviour, items: seq<Item>, now: Date)
    ensures forall l: Level :: l != Error ==> LogStep(Error, formatter, sink, l, items, now) == Filtered
    ensures !formatter.CustomFormatter? && WriteOutcome(sink) == Pass ==>
      |WrittenLines(LogStep(Error, formatter, sink, Error, items, now))| == 1
  {
  }

  /** `log(level: .info, items: ["a", 1, true])` through `ValueFormatter` writes "a 1 true". */
  lemma PlainItemsExample(now: Date)
    ensures var items := [Str("a"), Describable("1", None), Describable("true", None)];
      LogStep(Info, ValueFormatter, ConsoleDestination, Info, items, now) == Written("a 1 true")
  {
    var items := [Str("a"), Describable("1", None), Describable("true", None)];
    assert Texts(items) == ["a", "1", "true"];
    assert Join(["a", "1", "true"], " ") == "a" + " " + Join(["1", "true"], " ");
    assert Join(["1", "true"], " ") == "1" + " " + Join(["true"], " ");
  }

  /** `log(level: .info, items: ["hello"])` through `MetaFormatter` writes "<stamp> [info] hello". */
  lemma MetaExample(now: Date)
    ensures var stamp := (d: Date) => "2024-01-02T03:04:05Z";
      LogStep(Info, MetaFormatter(stamp), ConsoleDestination, Info, [Str("hello")], now)
        == Written("2024-01-02T03:04:05Z [info] hello")
  {
  }

  /** What one `setDestination(_:)` call does: its outcome and whether the new destination is installed. */
  datatype Swap = Swap(outcome: Outcome, installed: bool)

  /**
    `setDestination(_:)` with a new destination behaving as `incoming` while
    the active one behaves as `current`: open the new one, then close the old
    one, then install; the first error thrown ends the call and is rethrown.
   */
  function SwapStep(incoming: Behaviour, current: Behaviour): (s: Swap)
    ensures s.installed <==> s.outcome == Pass
    ensures s.outcome.Fail? ==> s.outcome == OpenOutcome(incoming) || s.outcome == CloseOutcome(current)
  {
    match OpenOutcome(incoming)
    case Fail(e) => Swap(Fail(e), false)
    case Pass =>
      match CloseOutcome(current)
      case Fail(e) => Swap(Fail(e), false)
      case Pass => Swap(Pass, true)
  }

  /** The new destination is installed exactly when both `open` and `close` succeed, and then the call does not throw. */
  lemma InstalledIffOpenAndClosePass(incoming: Behaviour, current: Behaviour)
    ensures SwapStep(incoming, current).installed <==>
      OpenOutcome(incoming) == Pass && CloseOutcome(current) == Pass
    ensures SwapStep(incoming, current).installed <==> SwapStep(incoming, current).outcome == Pass
  {
  }

  /** A failed `open` is rethrown and the old destination is kept. */
  lemma OpenFailureKeepsCurrent(incoming: Behaviour, current: Behaviour)
    requires OpenOutcome(incoming).Fail?
    ensures SwapStep(incoming, current) == Swap(OpenOutcome(incoming), false)
  {
  }

  /** After a successful `open`, a failed `close` is rethrown and the new destination is not installed. */
  lemma CloseFailureKeepsCurrent(incoming: Behaviour, current: Behaviour)
    requires OpenOutcome(incoming) == Pass && CloseOutcome(current).Fail?
    ensures SwapStep(incoming, current) == Swap(CloseOutcome(current), false)
  {
  }

  /** Destinations with the default lifecycle, the console among them, always swap. */
  lemma DefaultLifecycleAlwaysSwaps(incoming: Behaviour, current: Behaviour)
    requires !OverridesOpen(incoming) && !OverridesClose(current)
    ensures SwapStep(incoming, current) == Swap(Pass, true)
  {
  }
}
