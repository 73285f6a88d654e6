/** The Shanghai tick record: decoding with all four record types, and the two shortcuts
    that read a message's channel and sequence without decoding it. */
module ShanghaiTick {
  import opened Common
  import opened DynamicRanges
  import opened FixedPoint
  import opened Wire

  const FIXED := 70

  datatype Action = UnknownAction | Add | Cancel | Trade | Status
  datatype Side = UnknownSide | Buy | Sell
  datatype Aggressor = UnknownAggressor | BuyAggressor | SellAggressor | Neutral
  datatype Phase = UnknownPhase | StartPhase | OpeningCall | Continuous | Suspended | ClosingCall | Closed | Ended

  datatype Validity =
    | PriceValid | QuantityValid | AmountValid | PrimaryOrderIdValid | BuyOrderIdValid | SellOrderIdValid
    | SideValid | AggressorValid | ExchangeTimeValid | PhaseValid | MatchedQuantityValid

  datatype Record = Record(
    sequence: nat,
    channel: nat,
    security: seq<byte>,
    exchangeTimeRaw: nat,
    exchangeTimeNs: nat,
    buyOrder: int,
    sellOrder: int,
    primaryOrder: int,
    quantity: ScaledInteger,
    price: FixedDecimal,
    amount: FixedDecimal,
    matchedQuantity: int,
    rawType: nat,
    rawSide: nat,
    action: Action,
    side: Side,
    aggressor: Aggressor,
    phase: Phase,
    validity: set<Validity>,
    quality: set<Quality>)

  datatype Outcome = Tick(record: Record) | Undecodable(error: DecodeError)

  const LETTER_A: seq<byte> := [65]
  const LETTER_B: seq<byte> := [66]
  const LETTER_D: seq<byte> := [68]
  const LETTER_N: seq<byte> := [78]
  const LETTER_S: seq<byte> := [83]
  const LETTER_T: seq<byte> := [84]

  /** "START", "OCALL", "TRADE", "SUSP", "CCALL", "CLOSE", "ENDTR" */
  function ParsePhase(text: seq<byte>): Phase {
    if text == [83, 84, 65, 82, 84] then StartPhase
    else if text == [79, 67, 65, 76, 76] then OpeningCall
    else if text == [84, 82, 65, 68, 69] then Continuous
    else if text == [83, 85, 83, 80] then Suspended
    else if text == [67, 67, 65, 76, 76] then ClosingCall
    else if text == [67, 76, 79, 83, 69] then Closed
    else if text == [69, 78, 68, 84, 82] then Ended
    else UnknownPhase
  }

  function OneLetter(text: seq<byte>): nat {
    if |text| == 1 then text[0] else 0
  }

  function If<T>(condition: bool, x: T): set<T> {
    if condition then {x} else {}
  }

  // ---- the stages of a decode ------------------------------------------------------

  /** The positions are native sequence and channel, both of which must be positive. */
  function Positions(body: seq<byte>): Option<(nat, nat)> {
    var sequence, channel := LoadSigned(body, 0, 8), LoadSigned(body, 8, 4);
    if sequence.None? || sequence.value <= 0 || channel.None? || channel.value <= 0 then None
    else Some((sequence.value, channel.value))
  }

  function Number(body: seq<byte>, at: nat): int {
    var loaded := LoadSigned(body, at, 8);
    if loaded.Some? then loaded.value else 0
  }

  /** Everything that does not depend on the record type. */
  function Base(body: seq<byte>, security: seq<byte>, position: (nat, nat)): Field<Record> {
    var time := Load(body, 18, 4);
    var price, amount := LoadDecimalRaw(body, 44, 4, 3), LoadDecimalRaw(body, 56, 8, 3);
    if time.None? then Bad(Truncated)
    else if price.Bad? then Bad(price.error)
    else if amount.Bad? then Bad(amount.error)
    else
      var buy, sell, quantity := Number(body, 28), Number(body, 36), Number(body, 48);
      var ns := DecodeTime(time.value);
      Field(
        Record(position.0, position.1, security, time.value, if ns.Some? then ns.value else 0,
               buy, sell, 0, ScaledInteger(quantity, 0, quantity >= 0), price.value, amount.value,
               0, 0, 0, UnknownAction, UnknownSide, UnknownAggressor, UnknownPhase,
               If(ns.Some?, ExchangeTimeValid),
               If(buy < 0 || sell < 0, InvalidOrderReference) + If(quantity < 0, InvalidQuantity)
                 + TimeQuality(time.value) + price.quality + amount.quality),
        {})
  }

  function SetOrderSide(r: Record, flag: seq<byte>): Record {
    if flag != LETTER_B && flag != LETTER_S then r.(quality := r.quality + {UnknownEnum})
    else
      var order := if flag == LETTER_B then r.buyOrder else r.sellOrder;
      r.(side := if flag == LETTER_B then Buy else Sell, primaryOrder := order,
         validity := r.validity + {SideValid} + If(order > 0, PrimaryOrderIdValid))
  }

  /** Normalizes a valid price that is positive, and flags one that is not. */
  function WithPrice(r: Record): Field<Record> {
    if r.price.rawValid && r.price.raw > 0 then
      var scaled := NormalizeP6(r.price);
      if scaled.None? then Bad(FixedPointOverflow)
      else Field(r.(price := scaled.value, validity := r.validity + {PriceValid}), {})
    else if r.price.rawValid then Field(r.(quality := r.quality + {InvalidPrice}), {})
    else Field(r, {})
  }

  function WithQuantity(r: Record): Record {
    r.(validity := r.validity + If(r.quantity.valid, QuantityValid))
  }

  /** In an add record the amount field is the matched quantity in thousandths. */
  function WithMatched(r: Record): Record {
    if !r.amount.rawValid then r
    else if r.amount.raw < 0 then r.(quality := r.quality + {InvalidQuantity})
    else if r.amount.raw % 1_000 != 0 then r.(quality := r.quality + {NonIntegralMatchedQuantity})
    else r.(matchedQuantity := r.amount.raw / 1_000, validity := r.validity + {MatchedQuantityValid})
  }

  function WithAmount(r: Record): Field<Record> {
    if r.amount.rawValid && r.amount.raw >= 0 then
      var scaled := NormalizeP6(r.amount);
      if scaled.None? then Bad(FixedPointOverflow)
      else Field(r.(amount := scaled.value, validity := r.validity + {AmountValid}), {})
    else if r.amount.rawValid then Field(r.(quality := r.quality + {InvalidAmount}), {})
    else Field(r, {})
  }

  function WithOrderIds(r: Record): Record {
    r.(validity := r.validity + If(r.buyOrder > 0, BuyOrderIdValid) + If(r.sellOrder > 0, SellOrderIdValid))
  }

  function WithAggressor(r: Record, flag: seq<byte>): Record {
    if flag == LETTER_B then r.(aggressor := BuyAggressor, validity := r.validity + {AggressorValid})
    else if flag == LETTER_S then r.(aggressor := SellAggressor, validity := r.validity + {AggressorValid})
    else if flag == LETTER_N then r.(aggressor := Neutral, validity := r.validity + {AggressorValid})
    else r.(quality := r.quality + {UnknownEnum})
  }

  function WithPhase(r: Record, flag: seq<byte>): Record {
    var phase := ParsePhase(flag);
    if phase == UnknownPhase then r.(quality := r.quality + {UnknownEnum})
    else r.(phase := phase, validity := r.validity + {PhaseValid})
  }

  function ByType(r: Record, kind: seq<byte>, flag: seq<byte>): Field<Record> {
    if kind == LETTER_A then
      var priced := WithPrice(r.(action := Add));
      if priced.Bad? then priced else Field(WithMatched(SetOrderSide(WithQuantity(priced.value), flag)), {})
    else if kind == LETTER_D then Field(SetOrderSide(WithQuantity(r.(action := Cancel)), flag), {})
    else if kind == LETTER_T then
      var priced := WithPrice(r.(action := Trade));
      if priced.Bad? then priced
      else
        var amount := WithAmount(priced.value);
        if amount.Bad? then amount
        else
          Field(WithAggressor(WithOrderIds(WithQuantity(amount.value)), flag), {})
    else if kind == LETTER_S then
      Field(WithPhase(r.(action := Status, quantity := r.quantity.(valid := false)), flag), {})
    else Field(r.(quantity := r.quantity.(valid := false), quality := r.quality + {UnknownEnum}), {})
  }

  /** The whole decode, without the catalog lookup. */
  function Decode(g: Guard, body: seq<byte>, maximumText: nat): Outcome {
    if |body| < FIXED then Undecodable(Truncated)
    else
      var security := ReadText(g, body, 12, FIXED, maximumText, true);
      if security.Rejected? then Undecodable(security.error)
      else if Positions(body).None? then Undecodable(InvalidNativeSequence)
      else
        var base := Base(body, security.value.bytes, Positions(body).value);
        if base.Bad? then Undecodable(base.error)
        else
          var kind := ReadText(security.guard, body, 22, FIXED, maximumText, true);
          if kind.Rejected? then Undecodable(kind.error)
          else
            var flag := ReadText(kind.guard, body, 64, FIXED, maximumText, true);
            if flag.Rejected? then Undecodable(flag.error)
            else
              var letters := base.value.(
                rawType := OneLetter(kind.value.bytes), rawSide := OneLetter(flag.value.bytes));
              var typed := ByType(letters, kind.value.bytes, flag.value.bytes);
              if typed.Bad? then Undecodable(typed.error) else Tick(typed.value)
  }

  /** Reads one of the body's texts; what was disciplined stays so. */
  method ReadTextOf(reader: Reader, body: seq<byte>, at: nat, maximumText: nat) returns (r: Guarded<TextView>)
    modifies reader
    ensures r == ReadText(old(reader.guard), body, at, FIXED, maximumText, true)
    ensures reader.guard == if r.Accepted? then r.guard else old(reader.guard)
    ensures old(reader.guard).on && Disciplined(old(reader.guard).ranges, FIXED, |body|) ==>
      reader.guard.on && Disciplined(reader.guard.ranges, FIXED, |body|)
  {
    if reader.guard.on && Disciplined(reader.guard.ranges, FIXED, |body|) {
      TextDisciplined(reader.guard, body, at, FIXED, maximumText, true);
    }
    r := reader.Text(body, at, FIXED, maximumText, true);
  }

  /** The decode as it runs: loads in order, ranges protected as texts are accepted. */
  method DecodeTick(reader: Reader, body: seq<byte>, maximumText: nat) returns (r: Outcome)
    modifies reader
    ensures r == Decode(old(reader.guard), body, maximumText)
    ensures old(reader.guard).on && Disciplined(old(reader.guard).ranges, FIXED, |body|) ==>
      reader.guard.on && Disciplined(reader.guard.ranges, FIXED, |body|)
  {
    if |body| < FIXED {
      return Undecodable(Truncated);
    }
    var security := ReadTextOf(reader, body, 12, maximumText);
    if security.Rejected? {
      return Undecodable(security.error);
    }
    var rawSequence := LoadUnsigned(body, 0, 8);
    var rawChannel := LoadUnsigned(body, 8, 4);
    if rawSequence.None? || Signed(rawSequence.value, 8) <= 0 || rawChannel.None? || Signed(rawChannel.value, 4) <= 0 {
      return Undecodable(InvalidNativeSequence);
    }
    var base := Base(body, security.value.bytes, (Signed(rawSequence.value, 8), Signed(rawChannel.value, 4)));
    if base.Bad? {
      return Undecodable(base.error);
    }
    var record := base.value;
    var kind := ReadTextOf(reader, body, 22, maximumText);
    if kind.Rejected? {
      return Undecodable(kind.error);
    }
    var flag := ReadTextOf(reader, body, 64, maximumText);
    if flag.Rejected? {
      return Undecodable(flag.error);
    }
    record := record.(rawType := OneLetter(kind.value.bytes), rawSide := OneLetter(flag.value.bytes));
    var typed := ByType(record, kind.value.bytes, flag.value.bytes);
    return if typed.Bad? then Undecodable(typed.error) else Tick(typed.value);
  }

  // ---- reading the position without decoding ---------------------------------------

  /** ExtractTickNativeDescriptor for this record: channel and sequence. */
  function Descriptor(body: seq<byte>): Option<(nat, nat)> {
    if |body| < FIXED then None
    else
      var position := Positions(body);
      if position.None? then None else Some((position.value.1, position.value.0))
  }

  const SHANGHAI_ROUTES := 0x0400000000
  const SHENZHEN_ROUTES := 0x0600000000

  /** ExtractAdmissionRoute for this record: the market's base or'ed with the channel. The
      two do not share bits, so this is a sum. */
  function Route(body: seq<byte>): Option<nat> {
    if |body| < FIXED then None
    else
      var channel := LoadSigned(body, 8, 4);
      if channel.None? || channel.value <= 0 then None else Some(SHANGHAI_ROUTES + channel.value)
  }

  /** ExtractAdmissionRoute for Shenzhen orders (58 bytes) and transactions (70 bytes). */
  function ShenzhenRoute(body: seq<byte>, fixed: nat): Option<nat> {
    var channel := Load(body, 0, 4);
    if |body| < fixed || channel.None? then None else Some(SHENZHEN_ROUTES + channel.value)
  }

  function LaneOf(route: nat, lanes: nat): nat
    requires lanes > 0
  {
    route % lanes
  }

  // ---- the scaled numbers ------------------------------------------------------------

  const TYPED: set<Validity> := {PriceValid, AmountValid, MatchedQuantityValid}

  /** A record before its type is known: its raw numbers are loaded, none is scaled. */
  predicate Unscaled(r: Record, price: int, amount: int) {
    && r.validity !! TYPED && r.action == UnknownAction
    && r.price.scale == 3 && r.price.raw == price && r.price.rawValid == (price != NULL_I32) && !r.price.p6Valid
    && r.amount.scale == 3 && r.amount.raw == amount && r.amount.rawValid == (amount != I64_MIN) && !r.amount.p6Valid
  }

  /** What the two raw numbers of a body became: a price in an add or a trade, an amount in a
      trade, a matched quantity in an add; each only if it makes sense, and then exactly. */
  predicate ScaledNumbers(t: Record, price: int, amount: int) {
    && (PriceValid in t.validity <==> (t.action == Add || t.action == Trade) && price > 0)
    && (PriceValid in t.validity <==> t.price.p6Valid) && (t.price.p6Valid ==> t.price.p6 == price * 1_000)
    && (AmountValid in t.validity <==> t.action == Trade && amount >= 0)
    && (AmountValid in t.validity <==> t.amount.p6Valid) && (t.amount.p6Valid ==> t.amount.p6 == amount * 1_000)
    && (MatchedQuantityValid in t.validity <==> t.action == Add && amount >= 0 && amount % 1_000 == 0)
    && (MatchedQuantityValid in t.validity ==> t.matchedQuantity * 1_000 == amount)
  }

  lemma PriceScaled(r: Record, price: int, amount: int)
    requires Unscaled(r.(action := UnknownAction), price, amount) && WithPrice(r).Field?
    ensures var t := WithPrice(r).value;
      && t == r.(price := t.price, validity := t.validity, quality := t.quality)
      && t.validity == r.validity + If(price > 0, PriceValid)
      && t.price.p6Valid == (price > 0) && (price > 0 ==> t.price.p6 == price * 1_000)
  {
    assert Pow10(3) == 1_000;
    if r.price.rawValid { NormalizeExact(r.price); }
  }

  lemma AmountScaled(r: Record, amount: int)
    requires r.amount.scale == 3 && r.amount.raw == amount && r.amount.rawValid == (amount != I64_MIN)
    requires !r.amount.p6Valid
    requires WithAmount(r).Field?
    ensures var t := WithAmount(r).value;
      && t == r.(amount := t.amount, validity := t.validity, quality := t.quality)
      && t.validity == r.validity + If(amount >= 0, AmountValid)
      && t.amount.p6Valid == (amount >= 0) && (amount >= 0 ==> t.amount.p6 == amount * 1_000)
  {
    assert Pow10(3) == 1_000;
    if r.amount.rawValid { NormalizeExact(r.amount); }
  }

  /** Nothing was decided about the numbers from `r` to `t`. */
  predicate SameNumbers(r: Record, t: Record) {
    && t.action == r.action && t.price == r.price && t.amount == r.amount && t.matchedQuantity == r.matchedQuantity
    && (PriceValid in t.validity <==> PriceValid in r.validity)
    && (AmountValid in t.validity <==> AmountValid in r.validity)
    && (MatchedQuantityValid in t.validity <==> MatchedQuantityValid in r.validity)
  }

  lemma OrderKeepsNumbers(r: Record, flag: seq<byte>)
    ensures SameNumbers(r, SetOrderSide(WithQuantity(r), flag))
  {
    assert SameNumbers(r, WithQuantity(r));
  }

  lemma TradeKeepsNumbers(r: Record, flag: seq<byte>)
    ensures SameNumbers(r, WithAggressor(WithOrderIds(WithQuantity(r)), flag))
  {
    assert SameNumbers(r, WithQuantity(r));
    assert SameNumbers(r, WithOrderIds(WithQuantity(r)));
  }

  lemma AddScales(r: Record, price: int, amount: int, flag: seq<byte>)
    requires Unscaled(r, price, amount) && ByType(r, LETTER_A, flag).Field?
    ensures ScaledNumbers(ByType(r, LETTER_A, flag).value, price, amount)
  {
    PriceScaled(r.(action := Add), price, amount);
    OrderKeepsNumbers(WithPrice(r.(action := Add)).value, flag);
  }

  lemma TradeScales(r: Record, price: int, amount: int, flag: seq<byte>)
    requires Unscaled(r, price, amount) && ByType(r, LETTER_T, flag).Field?
    ensures ScaledNumbers(ByType(r, LETTER_T, flag).value, price, amount)
  {
    PriceScaled(r.(action := Trade), price, amount);
    var priced := WithPrice(r.(action := Trade)).value;
    AmountScaled(priced, amount);
    TradeKeepsNumbers(WithAmount(priced).value, flag);
  }

  lemma TypeScales(r: Record, price: int, amount: int, kind: seq<byte>, flag: seq<byte>)
    requires Unscaled(r, price, amount) && ByType(r, kind, flag).Field?
    ensures ScaledNumbers(ByType(r, kind, flag).value, price, amount)
  {
    if kind == LETTER_A {
      AddScales(r, price, amount, flag);
    } else if kind == LETTER_T {
      TradeScales(r, price, amount, flag);
    } else if kind == LETTER_D {
      OrderKeepsNumbers(r.(action := Cancel), flag);
    }
  }

  /** The record of a body before its type is known. */
  lemma BaseUnscaled(body: seq<byte>, security: seq<byte>, position: (nat, nat))
    requires Base(body, security, position).Field?
    ensures var price, amount := LoadSigned(body, 44, 4), LoadSigned(body, 56, 8);
      price.Some? && amount.Some? && Unscaled(Base(body, security, position).value, price.value, amount.value)
  {
  }

  /** Whatever decodes has exactly the numbers its body says. */
  lemma NumbersExact(g: Guard, body: seq<byte>, maximumText: nat)
    requires Decode(g, body, maximumText).Tick?
    ensures var price, amount := LoadSigned(body, 44, 4), LoadSigned(body, 56, 8);
      price.Some? && amount.Some? && ScaledNumbers(Decode(g, body, maximumText).record, price.value, amount.value)
  {
    var security := ReadText(g, body, 12, FIXED, maximumText, true);
    var kind := ReadText(security.guard, body, 22, FIXED, maximumText, true);
    var flag := ReadText(kind.guard, body, 64, FIXED, maximumText, true);
    var base := Base(body, security.value.bytes, Positions(body).value).value;
    BaseUnscaled(body, security.value.bytes, Positions(body).value);
    TypeScales(base.(rawType := OneLetter(kind.value.bytes), rawSide := OneLetter(flag.value.bytes)),
               LoadSigned(body, 44, 4).value, LoadSigned(body, 56, 8).value, kind.value.bytes, flag.value.bytes);
  }

  lemma PositionBounds(body: seq<byte>)
    requires |body| >= FIXED && Positions(body).Some?
    ensures var (sequence, channel) := Positions(body).value;
      0 < sequence < 0x8000_0000_0000_0000 && 0 < channel < 0x8000_0000
  {
    BytesOfValue(body, 0, 8);
    BytesOfValue(body, 8, 4);
    assert Power(4) == 0x1_0000_0000 && Power(8) == 0x1_0000_0000_0000_0000;
  }

  predicate SamePlace(r: Record, t: Record) {
    t.sequence == r.sequence && t.channel == r.channel
  }

  lemma AddKeepsPosition(r: Record, flag: seq<byte>)
    ensures var t := ByType(r, LETTER_A, flag); t.Field? ==> SamePlace(r, t.value)
  {
    var priced := WithPrice(r.(action := Add));
    assert priced.Field? ==> SamePlace(r, WithQuantity(priced.value));
  }

  lemma TradeKeepsPosition(r: Record, flag: seq<byte>)
    ensures var t := ByType(r, LETTER_T, flag); t.Field? ==> SamePlace(r, t.value)
  {
    var priced := WithPrice(r.(action := Trade));
    if priced.Field? {
      var amount := WithAmount(priced.value);
      assert amount.Field? ==> SamePlace(r, WithOrderIds(WithQuantity(amount.value)));
    }
  }

  lemma TypeKeepsPosition(r: Record, kind: seq<byte>, flag: seq<byte>)
    ensures var t := ByType(r, kind, flag); t.Field? ==> SamePlace(r, t.value)
  {
    if kind == LETTER_A {
      AddKeepsPosition(r, flag);
    } else if kind == LETTER_T {
      TradeKeepsPosition(r, flag);
    }
  }

  /** Whatever decodes is routed and frozen under the very position it decodes to. */
  lemma ShortcutsAgree(g: Guard, body: seq<byte>, maximumText: nat)
    requires Decode(g, body, maximumText).Tick?
    ensures var r := Decode(g, body, maximumText).record;
      && Descriptor(body) == Some((r.channel, r.sequence))
      && Route(body) == Some(SHANGHAI_ROUTES + r.channel)
      && 0 < r.sequence < 0x8000_0000_0000_0000 && 0 < r.channel < 0x8000_0000
  {
    PositionBounds(body);
    var security := ReadText(g, body, 12, FIXED, maximumText, true);
    var kind := ReadText(security.guard, body, 22, FIXED, maximumText, true);
    var flag := ReadText(kind.guard, body, 64, FIXED, maximumText, true);
    var base := Base(body, security.value.bytes, Positions(body).value).value;
    TypeKeepsPosition(base.(rawType := OneLetter(kind.value.bytes), rawSide := OneLetter(flag.value.bytes)),
                      kind.value.bytes, flag.value.bytes);
  }

  /** Past the texts, a decode fails exactly for a trade whose amount does not fit. */
  lemma OverflowExactly(r: Record, kind: seq<byte>, flag: seq<byte>)
    requires r.price.scale == 3 && r.amount.scale == 3 && -0x8000_0000 <= r.price.raw < 0x8000_0000
    ensures ByType(r, kind, flag).Bad? <==>
      kind == LETTER_T && r.amount.rawValid && r.amount.raw >= 0 && r.amount.raw * 1_000 > I64_MAX
  {
    assert Pow10(3) == 1_000;
    if r.price.rawValid { NormalizeExact(r.price); }
    if r.amount.rawValid { NormalizeExact(r.amount); }
  }

  /** All messages of one channel go to one lane, and no two channels share a route. */
  lemma OneLanePerChannel(body: seq<byte>, other: seq<byte>, lanes: nat)
    requires Descriptor(body).Some? && Descriptor(other).Some? && lanes > 0
    ensures Route(body).Some? && Route(other).Some?
    ensures Descriptor(body).value.0 == Descriptor(other).value.0 <==> Route(body) == Route(other)
    ensures Descriptor(body).value.0 == Descriptor(other).value.0 ==>
      LaneOf(Route(body).value, lanes) == LaneOf(Route(other).value, lanes)
  {
  }

  /** Nor does a Shanghai channel share a route with a Shenzhen one. */
  lemma MarketsApart(body: seq<byte>, other: seq<byte>, fixed: nat)
    requires Route(body).Some? && ShenzhenRoute(other, fixed).Some?
    ensures Route(body) != ShenzhenRoute(other, fixed)
  {
    BytesOfValue(body, 8, 4);
    assert Power(4) == 0x1_0000_0000;
  }
}
