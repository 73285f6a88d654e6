/** Decoded numbers: prices and amounts scaled to six decimals, quantities and times of
    day, with the integer widths and the truncating division of the source. */
module FixedPoint {
  import opened Common
  import opened Remainders
  import opened Wire

  const I64_MAX: int := 0x7FFF_FFFF_FFFF_FFFF
  const I64_MIN: int := -0x8000_0000_0000_0000
  const NULL_I32: int := -0x8000_0000
  const NULL_TIME: nat := 1_000_000_000

  datatype DecodeError =
    | Truncated | InvalidOffset | RangeOverlap | CountExceeded | CountMismatch
    | InvalidText | InvalidNativeSequence | FixedPointOverflow

  datatype Quality =
    | NullSourceValue | InvalidTime | InvalidQuantity | InvalidPrice | UnknownEnum
    | DepthTruncated | NotInCatalog | InvalidAmount | InvalidOrderReference | NonIntegralMatchedQuantity

  /** A decoded field with the flags it raised, or the reason it cannot be decoded. */
  datatype Field<+T> = Field(value: T, quality: set<Quality>) | Bad(error: DecodeError)

  datatype FixedDecimal = FixedDecimal(raw: int, p6: int, scale: nat, rawValid: bool, p6Valid: bool)

  datatype ScaledInteger = ScaledInteger(raw: int, scale: nat, valid: bool)

  predicate IsI64(x: int) { I64_MIN <= x <= I64_MAX }

  function Pow10(n: nat): (p: nat)
    ensures p > 0
  {
    if n == 0 then 1 else 10 * Pow10(n - 1)
  }

  /** Division as the source language does it: toward zero. */
  function Truncate(a: int, b: int): int
    requires b > 0
  {
    if a >= 0 then a / b else -((-a) / b)
  }

  /** Scales to six decimals; none when the result does not fit. */
  function NormalizeP6(v: FixedDecimal): Option<FixedDecimal> {
    if v.scale > 6 then None
    else if !v.rawValid then Some(v)
    else
      var multiplier := Pow10(6 - v.scale);
      if (v.raw > 0 && v.raw > Truncate(I64_MAX, multiplier)) || (v.raw < 0 && v.raw < Truncate(I64_MIN, multiplier))
      then None
      else Some(v.(p6 := v.raw * multiplier, p6Valid := true))
  }

  lemma GuardExact(raw: int, m: nat)
    requires m in {1, 10, 100, 1_000, 10_000, 100_000, 1_000_000}
    ensures IsI64(raw * m) <==>
      !(raw > 0 && raw > Truncate(I64_MAX, m)) && !(raw < 0 && raw < Truncate(I64_MIN, m))
  {
  }

  /** The overflow guard is exact on both signs: a valid raw value is scaled if and only
      if the product fits in 64 bits, and then to exactly that product. */
  lemma NormalizeExact(v: FixedDecimal)
    requires v.rawValid && v.scale <= 6
    ensures NormalizeP6(v).Some? <==> IsI64(v.raw * Pow10(6 - v.scale))
    ensures NormalizeP6(v).Some? ==>
      NormalizeP6(v).value == v.(p6 := v.raw * Pow10(6 - v.scale), p6Valid := true)
  {
    assert Pow10(0) == 1 && Pow10(1) == 10 && Pow10(2) == 100 && Pow10(3) == 1_000;
    assert Pow10(4) == 10_000 && Pow10(5) == 100_000 && Pow10(6) == 1_000_000;
    GuardExact(v.raw, Pow10(6 - v.scale));
  }

  // ---- fields --------------------------------------------------------------------

  /** A raw decimal of `width` bytes; the type's minimum means there is no value. */
  function LoadDecimalRaw(body: seq<byte>, offset: nat, width: nat, scale: nat): Field<FixedDecimal>
    requires width == 4 || width == 8
  {
    var loaded := LoadSigned(body, offset, width);
    if loaded.None? then Bad(Truncated)
    else if loaded.value == (if width == 4 then NULL_I32 else I64_MIN) then
      Field(FixedDecimal(loaded.value, 0, scale, false, false), {NullSourceValue})
    else Field(FixedDecimal(loaded.value, 0, scale, true, false), {})
  }

  function DecodePrice(body: seq<byte>, offset: nat, width: nat, scale: nat): Field<FixedDecimal>
    requires width == 4 || width == 8
  {
    var raw := LoadDecimalRaw(body, offset, width, scale);
    if raw.Bad? || !raw.value.rawValid then raw
    else if raw.value.raw <= 0 then Field(raw.value, {InvalidPrice})
    else
      var scaled := NormalizeP6(raw.value);
      if scaled.None? then Bad(FixedPointOverflow) else Field(scaled.value, {})
  }

  function DecodeQuantity(body: seq<byte>, offset: nat, scale: nat, nullable: bool): Field<ScaledInteger> {
    var loaded := LoadSigned(body, offset, 8);
    if loaded.None? then Bad(Truncated)
    else if nullable && loaded.value == I64_MIN then Field(ScaledInteger(loaded.value, scale, false), {NullSourceValue})
    else if loaded.value < 0 then Field(ScaledInteger(loaded.value, scale, false), {InvalidQuantity})
    else Field(ScaledInteger(loaded.value, scale, true), {})
  }

  /** HHMMSSmmm as nanoseconds since midnight. */
  function DecodeTime(raw: nat): Option<nat> {
    if raw == NULL_TIME then None
    else
      var hour, minute, second, millisecond := raw / 10_000_000, raw / 100_000 % 100, raw / 1_000 % 100, raw % 1_000;
      if hour >= 24 || minute >= 60 || second >= 60 then None
      else Some(Nanoseconds(hour, minute, second, millisecond))
  }

  function TimeQuality(raw: nat): set<Quality> {
    if raw == NULL_TIME then {NullSourceValue, InvalidTime}
    else if DecodeTime(raw).None? then {InvalidTime} else {}
  }

  function Packed(hour: nat, minute: nat, second: nat, millisecond: nat): nat {
    hour * 10_000_000 + minute * 100_000 + second * 1_000 + millisecond
  }

  function Nanoseconds(hour: nat, minute: nat, second: nat, millisecond: nat): nat {
    (hour * 3_600 + minute * 60 + second) * 1_000_000_000 + millisecond * 1_000_000
  }

  lemma TimeParts(raw: nat)
    ensures raw == Packed(raw / 10_000_000, raw / 100_000 % 100, raw / 1_000 % 100, raw % 1_000)
  {
    var q, ms := raw / 1_000, raw % 1_000;
    var q2, s := q / 100, q % 100;
    Recompose(raw, 1_000);
    Recompose(q, 100);
    Recompose(q2, 100);
    Decompose(raw, 100_000, q2, s * 1_000 + ms);
    Decompose(raw, 10_000_000, q2 / 100, q2 % 100 * 100_000 + s * 1_000 + ms);
  }

  lemma LaterTime(h: nat, m: nat, s: nat, ms: nat, h': nat, m': nat, s': nat, ms': nat)
    requires h < 24 && m < 60 && s < 60 && ms < 1_000 && h' < 24 && m' < 60 && s' < 60 && ms' < 1_000
    requires Packed(h, m, s, ms) < Packed(h', m', s', ms')
    ensures Nanoseconds(h, m, s, ms) < Nanoseconds(h', m', s', ms') < 86_400 * 1_000_000_000
  {
    if h == h' {
      if m == m' {
        assert s <= s';
      } else {
        assert m < m';
      }
    } else {
      assert h < h';
    }
  }

  /** Accepted times are times of one day, and later ones decode to later ones. */
  lemma TimeIncreases(a: nat, b: nat)
    requires DecodeTime(a).Some? && DecodeTime(b).Some? && a < b
    ensures DecodeTime(a).value < DecodeTime(b).value < 86_400 * 1_000_000_000
  {
    TimeParts(a);
    TimeParts(b);
    LaterTime(a / 10_000_000, a / 100_000 % 100, a / 1_000 % 100, a % 1_000,
              b / 10_000_000, b / 100_000 % 100, b / 1_000 % 100, b % 1_000);
  }

  lemma Unpacked(hour: nat, minute: nat, second: nat, millisecond: nat)
    requires minute < 100 && second < 100 && millisecond < 1_000
    ensures var raw := Packed(hour, minute, second, millisecond);
      && raw / 10_000_000 == hour && raw / 100_000 % 100 == minute
      && raw / 1_000 % 100 == second && raw % 1_000 == millisecond
  {
    var raw := Packed(hour, minute, second, millisecond);
    Decompose(raw, 1_000, hour * 10_000 + minute * 100 + second, millisecond);
    Decompose(raw / 1_000, 100, hour * 100 + minute, second);
    Decompose(raw, 100_000, hour * 100 + minute, second * 1_000 + millisecond);
    Decompose(raw / 100_000, 100, hour, minute);
    Decompose(raw, 10_000_000, hour, minute * 100_000 + second * 1_000 + millisecond);
  }

  /** Exactly the well-formed times are accepted. */
  lemma TimeAccepted(hour: nat, minute: nat, second: nat, millisecond: nat)
    requires minute < 100 && second < 100 && millisecond < 1_000
    ensures DecodeTime(Packed(hour, minute, second, millisecond)) ==
      if hour < 24 && minute < 60 && second < 60 then Some(Nanoseconds(hour, minute, second, millisecond)) else None
  {
    Unpacked(hour, minute, second, millisecond);
  }
}
