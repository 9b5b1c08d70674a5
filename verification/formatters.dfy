/**
  The `Formatter` capability of Sources/Logger/Formatter.swift: a throwing
  `format(message:)` that turns a `Message` into the text a destination
  receives, with the two built-in variants and room for a caller's own.
 */
module Formatters {
  import opened Results
  import opened Levels
  import opened Messages

  datatype Formatter =
    /** `ValueFormatter`: the message text alone. */
    | ValueFormatter
      /**
        `MetaFormatter`: timestamp, bracketed level name, text. `stamp` stands for
        its private ISO-8601 date formatter set to GMT, which the model does not
        interpret.
       */
    | MetaFormatter(stamp: Date -> string)
      /** A caller-supplied conformance to the protocol; it may throw. */
    | CustomFormatter(run: Message -> Result<string>)

  /** `format(message:)`, dispatched on the variant. */
  function Format(f: Formatter, m: Message): (r: Result<string>)
    ensures !f.CustomFormatter? ==> r.Ok?
    ensures !f.CustomFormatter? ==> |m.value| <= |r.value| && r.value[|r.value| - |m.value|..] == m.value
    ensures f.ValueFormatter? ==> |r.value| == |m.value|
  {
    match f
    case ValueFormatter => Ok(m.value)
    case MetaFormatter(stamp) => Ok(stamp(m.sentAt) + " [" + Description(m.level) + "] " + m.value)
    case CustomFormatter(run) => run(m)
  }

  /** The two built-in formatters never throw. */
  lemma BuiltInFormattersNeverFail(f: Formatter, m: Message)
    requires !f.CustomFormatter?
    ensures Format(f, m).Ok?
  {
  }

  /** `ValueFormatter` returns exactly the message text. */
  lemma ValueFormatIsText(m: Message)
    ensures Format(ValueFormatter, m) == Ok(m.value)
  {
  }

  /** `ValueFormatter` ignores the timestamp and the level. */
  lemma ValueFormatIgnoresMetadata(m: Message, n: Message)
    requires m.value == n.value
    ensures Format(ValueFormatter, m) == Format(ValueFormatter, n)
  {
  }

  /**
    `MetaFormatter` output, read left to right: the rendered timestamp, " [",
    the level name, "] ", then the message text, and nothing else.
   */
  lemma MetaFormatLayout(stamp: Date -> string, m: Message)
    ensures Format(MetaFormatter(stamp), m).Ok?
    ensures var out, t, d := Format(MetaFormatter(stamp), m).value, stamp(m.sentAt), Description(m.level);
      && |out| == |t| + |d| + |m.value| + 4
      && out[..|t|] == t
      && out[|t|..|t| + 2] == " ["
      && out[|t| + 2..|t| + 2 + |d|] == d
      && out[|t| + 2 + |d|..|t| + 4 + |d|] == "] "
      && out[|t| + 4 + |d|..] == m.value
  {
  }

  /** `MetaFormatter` output ends with the message text. */
  lemma MetaFormatEndsWithText(stamp: Date -> string, m: Message)
    ensures var out := Format(MetaFormatter(stamp), m).value;
      |m.value| <= |out| && out[|out| - |m.value|..] == m.value
  {
  }

  /** `MetaFormatter` output contains the level name in brackets, right after the timestamp. */
  lemma MetaFormatBracketsLevel(stamp: Date -> string, m: Message)
    ensures var out, k := Format(MetaFormatter(stamp), m).value, |stamp(m.sentAt)| + 1;
      && k + |Description(m.level)| + 2 <= |out|
      && out[k..k + |Description(m.level)| + 2] == "[" + Description(m.level) + "]"
  {
  }
}
