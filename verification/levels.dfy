/**
  The `Level` enumeration of Sources/Logger/Logger.swift (raw type `UInt8`,
  raw values 0 to 4, a lowercase name per case) and the level filter
  `_loggable`.
 */
module Levels {
  import opened Results

  /** Swift's `UInt8`, the raw-value type of `Level`. */
  newtype UInt8 = x: int | 0 <= x < 0x100

  datatype Level = Trace | Debug | Info | Warn | Error

  /** Every level, in declaration order. */
  const AllLevels: seq<Level> := [Trace, Debug, Info, Warn, Error]

  /** `Level.rawValue`. */
  function RawValue(l: Level): (raw: UInt8)
    ensures raw <= 4
  {
    match l
    case Trace => 0
    case Debug => 1
    case Info => 2
    case Warn => 3
    case Error => 4
  }

  /** The failable initialiser `Level(rawValue:)` that Swift derives from the raw values. */
  function FromRawValue(raw: UInt8): (l: Option<Level>)
    ensures l.Some? <==> raw <= 4
  {
    if raw == 0 then Some(Trace)
    else if raw == 1 then Some(Debug)
    else if raw == 2 then Some(Info)
    else if raw == 3 then Some(Warn)
    else if raw == 4 then Some(Error)
    else None
  }

  /** The raw value and the initialiser are inverse to each other. */
  lemma RawValueRoundTrip(l: Level, raw: UInt8)
    ensures FromRawValue(RawValue(l)) == Some(l)
    ensures FromRawValue(raw) == Some(l) ==> RawValue(l) == raw
  {
  }

  /** Raw values are 0 to 4 and strictly increase in declaration order. */
  lemma RawValuesIncrease()
    ensures forall i :: 0 <= i < |AllLevels| ==> RawValue(AllLevels[i]) as int == i
    ensures forall i, j :: 0 <= i < j < |AllLevels| ==> RawValue(AllLevels[i]) < RawValue(AllLevels[j])
    ensures forall l: Level :: l in AllLevels
  {
    forall l: Level ensures l in AllLevels {
      match l
      case Trace => assert AllLevels[0] == l;
      case Debug => assert AllLevels[1] == l;
      case Info => assert AllLevels[2] == l;
      case Warn => assert AllLevels[3] == l;
      case Error => assert AllLevels[4] == l;
    }
  }

  /** `Level.description`: the lowercase name of the case. */
  function Description(l: Level): (name: string)
    ensures 4 <= |name| <= 5
    ensures forall i :: 0 <= i < |name| ==> 'a' <= name[i] <= 'z'
  {
    match l
    case Trace => "trace"
    case Debug => "debug"
    case Info => "info"
    case Warn => "warn"
    case Error => "error"
  }

  /** No two levels share a name, so a name identifies its level. */
  lemma DescriptionsDistinct(l: Level, m: Level)
    ensures Description(l) == Description(m) ==> l == m
  {
  }

  /** `_loggable`: a call at `l` passes the filter under the configured `minimum`. */
  predicate Admits(minimum: Level, l: Level)
    ensures l == Error ==> Admits(minimum, l)
    ensures minimum == Trace ==> Admits(minimum, l)
    ensures l == Trace ==> (Admits(minimum, l) <==> minimum == Trace)
  {
    RawValue(l) >= RawValue(minimum)
  }

  /** `error` passes every filter. */
  lemma ErrorAlwaysAdmitted(minimum: Level)
    ensures Admits(minimum, Error)
  {
  }

  /** `trace` passes only the `trace` filter. */
  lemma TraceAdmittedOnlyUnderTrace(minimum: Level)
    ensures Admits(minimum, Trace) <==> minimum == Trace
  {
  }

  /** The filter compares positions in declaration order. */
  lemma AdmitsFollowsDeclarationOrder(i: nat, j: nat)
    requires i < |AllLevels| && j < |AllLevels|
    ensures Admits(AllLevels[i], AllLevels[j]) <==> i <= j
  {
  }

  /** Of any two levels, one passes the filter set to the other. */
  lemma AdmitsTotal(l: Level, m: Level)
    ensures Admits(l, m) || Admits(m, l)
    ensures Admits(l, m) && Admits(m, l) ==> l == m
  {
  }

  /** Raising the minimum never lets more calls through. */
  lemma RaisingMinimumFiltersMore(lower: Level, higher: Level, l: Level)
    requires Admits(lower, higher)
    ensures Admits(higher, l) ==> Admits(lower, l)
  {
  }
}
