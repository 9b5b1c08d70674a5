/**
  The `Destination` capability of Sources/Logger/Destination.swift: a sink
  with `open`, `close` and `write`, each of which may throw. `open` and
  `close` default to doing nothing; `ConsoleDestination` keeps those defaults
  and prints each message as one line.
 */
module Destinations {
  import opened Results

  /** How a conformance provides `open` or `close`. */
  datatype Hook =
    /** The protocol extension's default: returns at once, changes nothing. */
    | Inherited
      /** The conformance's own implementation, with the outcome it has. */
    | Implemented(outcome: Outcome)

  /** What a destination does when called. */
  datatype Behaviour =
    /** `ConsoleDestination`: default lifecycle, `write` prints the message. */
    | ConsoleDestination
      /** A caller-supplied conformance. */
    | CustomDestination(open: Hook, close: Hook, write: Outcome)

  function HookOutcome(h: Hook): Outcome
  {
    match h
    case Inherited => Pass
    case Implemented(o) => o
  }

  /** Whether `open` is the conformance's own code rather than the default. */
  predicate OverridesOpen(b: Behaviour)
  {
    b.CustomDestination? && b.open.Implemented?
  }

  /** Whether `close` is the conformance's own code rather than the default. */
  predicate OverridesClose(b: Behaviour)
  {
    b.CustomDestination? && b.close.Implemented?
  }

  /** The outcome of calling `open()`. */
  function OpenOutcome(b: Behaviour): (o: Outcome)
    ensures !OverridesOpen(b) ==> o == Pass
  {
    match b
    case ConsoleDestination => Pass
    case CustomDestination(open, _, _) => HookOutcome(open)
  }

  /** The outcome of calling `close()`. */
  function CloseOutcome(b: Behaviour): (o: Outcome)
    ensures !OverridesClose(b) ==> o == Pass
  {
    match b
    case ConsoleDestination => Pass
    case CustomDestination(_, close, _) => HookOutcome(close)
  }

  /** The outcome of calling `write(message:)`. */
  function WriteOutcome(b: Behaviour): (o: Outcome)
    ensures b.ConsoleDestination? ==> o == Pass
  {
    match b
    case ConsoleDestination => Pass
    case CustomDestination(_, _, write) => write
  }

  /** The default `open` and `close` never throw. */
  lemma DefaultLifecycleNeverFails(b: Behaviour)
    ensures !OverridesOpen(b) ==> OpenOutcome(b) == Pass
    ensures !OverridesClose(b) ==> CloseOutcome(b) == Pass
  {
  }

  /** `ConsoleDestination` keeps the default lifecycle and its `write` never throws. */
  lemma ConsoleNeverFails()
    ensures !OverridesOpen(ConsoleDestination) && !OverridesClose(ConsoleDestination)
    ensures OpenOutcome(ConsoleDestination) == Pass
    ensures CloseOutcome(ConsoleDestination) == Pass
    ensures WriteOutcome(ConsoleDestination) == Pass
  {
  }

  /**
    One destination object. `lines` is what it has accepted through `write`,
    one entry per successful write; `opens` and `closes` count every call made
    to `open` and `close`, whether it runs the default or the conformance's own
    code and whether it throws.
   */
  class Destination {
    const behaviour: Behaviour
    var opens: nat
    var closes: nat
    var lines: seq<string>

    constructor (behaviour: Behaviour)
      ensures this.behaviour == behaviour
      ensures opens == 0 && closes == 0 && lines == []
    {
      this.behaviour := behaviour;
      opens, closes, lines := 0, 0, [];
    }

    /** `open()`: the call is counted; the default neither throws nor touches the lines. */
    method Open() returns (o: Outcome)
      modifies this
      ensures o == OpenOutcome(behaviour)
      ensures opens == old(opens) + 1
      ensures closes == old(closes) && lines == old(lines)
    {
      o := OpenOutcome(behaviour);
      opens := opens + 1;
    }

    /** `close()`: the call is counted; the default neither throws nor touches the lines. */
    method Close() returns (o: Outcome)
      modifies this
      ensures o == CloseOutcome(behaviour)
      ensures closes == old(closes) + 1
      ensures opens == old(opens) && lines == old(lines)
    {
      o := CloseOutcome(behaviour);
      closes := closes + 1;
    }

    /** `write(message:)`: on success the message is recorded as one more line, unchanged. */
    method Write(message: string) returns (o: Outcome)
      modifies this
      ensures o == WriteOutcome(behaviour)
      ensures lines == old(lines) + (if o.Pass? then [message] else [])
      ensures opens == old(opens) && closes == old(closes)
    {
      o := WriteOutcome(behaviour);
      if o.Pass? {
        lines := lines + [message];
      }
    }
  }
}
