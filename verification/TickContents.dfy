/** What a decoded Shanghai tick says, told from the bytes of its body: the numbers at their
    offsets, and what the letters of its two texts stand for. */
module TickContents {
  import opened Common
  import opened DynamicRanges
  import opened FixedPoint
  import opened ShanghaiTick
  import opened Wire

  function Ascii(text: string): seq<byte>
    requires forall i :: 0 <= i < |text| ==> text[i] < 128 as char
  {
    seq(|text|, i requires 0 <= i < |text| => text[i] as byte)
  }

  /** The text that a descriptor points to: a 16-bit length and a 32-bit relative offset. */
  predicate TextAt(body: seq<byte>, descriptor: nat, text: seq<byte>) {
    var length, relative := Load(body, descriptor, 2), Load(body, descriptor + 2, 4);
    && length == Some(|text|) && relative.Some? && descriptor + relative.value + |text| <= |body|
    && text == body[descriptor + relative.value..][..|text|]
  }

  // ---- what the letters stand for --------------------------------------------------------

  predicate ActionSays(action: Action, kind: seq<byte>) {
    && (action == Add <==> kind == Ascii("A")) && (action == Cancel <==> kind == Ascii("D"))
    && (action == Trade <==> kind == Ascii("T")) && (action == Status <==> kind == Ascii("S"))
  }

  /** An add or a cancel has a side, and with it the order of that side. */
  predicate SideSays(t: Record, flag: seq<byte>) {
    var order := t.action == Add || t.action == Cancel;
    && (t.side == Buy <==> order && flag == Ascii("B")) && (t.side == Sell <==> order && flag == Ascii("S"))
    && (SideValid in t.validity <==> t.side != UnknownSide)
    && t.primaryOrder == (if t.side == Buy then t.buyOrder else if t.side == Sell then t.sellOrder else 0)
    && (PrimaryOrderIdValid in t.validity <==> t.primaryOrder > 0)
  }

  /** A trade has an aggressor and both orders. */
  predicate AggressorSays(t: Record, flag: seq<byte>) {
    var trade := t.action == Trade;
    && (t.aggressor == BuyAggressor <==> trade && flag == Ascii("B"))
    && (t.aggressor == SellAggressor <==> trade && flag == Ascii("S"))
    && (t.aggressor == Neutral <==> trade && flag == Ascii("N"))
    && (AggressorValid in t.validity <==> t.aggressor != UnknownAggressor)
    && (BuyOrderIdValid in t.validity <==> trade && t.buyOrder > 0)
    && (SellOrderIdValid in t.validity <==> trade && t.sellOrder > 0)
  }

  /** A status record has a phase. */
  predicate PhaseSays(t: Record, flag: seq<byte>) {
    var status := t.action == Status;
    && (t.phase == StartPhase <==> status && flag == Ascii("START"))
    && (t.phase == OpeningCall <==> status && flag == Ascii("OCALL"))
    && (t.phase == Continuous <==> status && flag == Ascii("TRADE"))
    && (t.phase == Suspended <==> status && flag == Ascii("SUSP"))
    && (t.phase == ClosingCall <==> status && flag == Ascii("CCALL"))
    && (t.phase == Closed <==> status && flag == Ascii("CLOSE"))
    && (t.phase == Ended <==> status && flag == Ascii("ENDTR"))
    && (PhaseValid in t.validity <==> t.phase != UnknownPhase)
  }

  /** Orders and trades have a quantity if it is not negative. */
  predicate QuantitySays(t: Record) {
    && (t.quantity.valid <==>
          (t.action == Add || t.action == Cancel || t.action == Trade) && t.quantity.raw >= 0)
    && (QuantityValid in t.validity <==> t.quantity.valid)
  }

  /** What its kind needs and the letters do not give is flagged. */
  predicate UnknownSays(t: Record) {
    UnknownEnum in t.quality <==>
      match t.action
      case Add => t.side == UnknownSide
      case Cancel => t.side == UnknownSide
      case Trade => t.aggressor == UnknownAggressor
      case Status => t.phase == UnknownPhase
      case UnknownAction => true
  }

  predicate LettersSay(t: Record, kind: seq<byte>, flag: seq<byte>) {
    && ActionSays(t.action, kind) && SideSays(t, flag) && AggressorSays(t, flag) && PhaseSays(t, flag)
    && QuantitySays(t) && UnknownSays(t)
  }

  /** The fields that do not depend on the record type, at their offsets. */
  predicate FieldsSay(t: Record, body: seq<byte>) {
    && LoadSigned(body, 0, 8) == Some(t.sequence) && LoadSigned(body, 8, 4) == Some(t.channel)
    && TextAt(body, 12, t.security)
    && Load(body, 18, 4) == Some(t.exchangeTimeRaw)
    && (ExchangeTimeValid in t.validity <==> DecodeTime(t.exchangeTimeRaw).Some?)
    && (ExchangeTimeValid in t.validity ==> Some(t.exchangeTimeNs) == DecodeTime(t.exchangeTimeRaw))
    && LoadSigned(body, 28, 8) == Some(t.buyOrder) && LoadSigned(body, 36, 8) == Some(t.sellOrder)
    && LoadSigned(body, 44, 4) == Some(t.price.raw) && LoadSigned(body, 48, 8) == Some(t.quantity.raw)
    && LoadSigned(body, 56, 8) == Some(t.amount.raw)
  }

  // ---- before the type is known ------------------------------------------------------------

  /** Nothing is known yet but the quantity. */
  predicate Blank(r: Record) {
    && r.action == UnknownAction && r.side == UnknownSide && r.aggressor == UnknownAggressor
    && r.phase == UnknownPhase && r.primaryOrder == 0 && (r.quantity.valid <==> r.quantity.raw >= 0)
    && QuantityValid !in r.validity && SideValid !in r.validity && PrimaryOrderIdValid !in r.validity
    && AggressorValid !in r.validity && BuyOrderIdValid !in r.validity && SellOrderIdValid !in r.validity
    && PhaseValid !in r.validity && UnknownEnum !in r.quality
  }

  lemma BaseSays(body: seq<byte>, security: seq<byte>, position: (nat, nat))
    requires |body| >= FIXED && Base(body, security, position).Field?
    requires LoadSigned(body, 0, 8) == Some(position.0) && LoadSigned(body, 8, 4) == Some(position.1)
    requires TextAt(body, 12, security)
    ensures var r := Base(body, security, position).value; Blank(r) && FieldsSay(r, body)
  {
  }

  // ---- the stages --------------------------------------------------------------------------

  const NUMBER_FLAGS: set<Quality> := {InvalidPrice, InvalidQuantity, InvalidAmount, NonIntegralMatchedQuantity}

  /** Only scaled numbers and what is said about them was added. */
  predicate OnlyNumbers(r: Record, t: Record) {
    && t == r.(price := t.price, amount := t.amount, matchedQuantity := t.matchedQuantity,
               validity := t.validity, quality := t.quality)
    && t.price.raw == r.price.raw && t.amount.raw == r.amount.raw
    && r.validity <= t.validity <= r.validity + TYPED && r.quality <= t.quality <= r.quality + NUMBER_FLAGS
  }

  lemma NumbersOnly(r: Record)
    ensures WithPrice(r).Field? ==> OnlyNumbers(r, WithPrice(r).value)
    ensures WithAmount(r).Field? ==> OnlyNumbers(r, WithAmount(r).value)
    ensures OnlyNumbers(r, WithMatched(r))
  {
  }

  /** The letters are told the same whatever is said about numbers. */
  lemma StillSay(r: Record, t: Record, kind: seq<byte>, flag: seq<byte>)
    requires OnlyNumbers(r, t) && LettersSay(r, kind, flag)
    ensures LettersSay(t, kind, flag)
  {
  }

  lemma Letters()
    ensures Ascii("A") == LETTER_A && Ascii("B") == LETTER_B && Ascii("D") == LETTER_D
    ensures Ascii("N") == LETTER_N && Ascii("S") == LETTER_S && Ascii("T") == LETTER_T
  {
  }

  lemma Phases(flag: seq<byte>)
    ensures ParsePhase(flag) == StartPhase <==> flag == Ascii("START")
    ensures ParsePhase(flag) == OpeningCall <==> flag == Ascii("OCALL")
    ensures ParsePhase(flag) == Continuous <==> flag == Ascii("TRADE")
    ensures ParsePhase(flag) == Suspended <==> flag == Ascii("SUSP")
    ensures ParsePhase(flag) == ClosingCall <==> flag == Ascii("CCALL")
    ensures ParsePhase(flag) == Closed <==> flag == Ascii("CLOSE")
    ensures ParsePhase(flag) == Ended <==> flag == Ascii("ENDTR")
  {
    assert Ascii("START") == [83, 84, 65, 82, 84] && Ascii("OCALL") == [79, 67, 65, 76, 76];
    assert Ascii("TRADE") == [84, 82, 65, 68, 69] && Ascii("SUSP") == [83, 85, 83, 80];
    assert Ascii("CCALL") == [67, 67, 65, 76, 76] && Ascii("CLOSE") == [67, 76, 79, 83, 69];
    assert Ascii("ENDTR") == [69, 78, 68, 84, 82];
  }

  /** The fields that `FieldsSay` speaks of. */
  predicate SameFields(r: Record, t: Record) {
    && t.sequence == r.sequence && t.channel == r.channel && t.security == r.security
    && t.exchangeTimeRaw == r.exchangeTimeRaw && t.exchangeTimeNs == r.exchangeTimeNs
    && (ExchangeTimeValid in t.validity <==> ExchangeTimeValid in r.validity)
    && t.buyOrder == r.buyOrder && t.sellOrder == r.sellOrder
    && t.price.raw == r.price.raw && t.quantity.raw == r.quantity.raw && t.amount.raw == r.amount.raw
  }

  /** A record of this action before its letters were looked at. */
  predicate Typed(r: Record, action: Action) {
    r.action == action && Blank(r.(action := UnknownAction))
  }

  lemma StaysTyped(r: Record, t: Record, action: Action)
    requires Typed(r, action) && OnlyNumbers(r, t)
    ensures Typed(t, action) && SameFields(r, t)
  {
  }

  lemma OrderSays(r: Record, kind: seq<byte>, flag: seq<byte>)
    requires Typed(r, r.action) && (r.action == Add || r.action == Cancel) && ActionSays(r.action, kind)
    ensures LettersSay(SetOrderSide(WithQuantity(r), flag), kind, flag)
  {
    Letters();
  }

  lemma TradeSays(r: Record, kind: seq<byte>, flag: seq<byte>)
    requires Typed(r, Trade) && ActionSays(Trade, kind)
    ensures LettersSay(WithAggressor(WithOrderIds(WithQuantity(r)), flag), kind, flag)
  {
    Letters();
  }

  lemma StatusSays(r: Record, kind: seq<byte>, flag: seq<byte>)
    requires Typed(r, Status) && ActionSays(Status, kind)
    ensures LettersSay(WithPhase(r.(quantity := r.quantity.(valid := false)), flag), kind, flag)
  {
    Phases(flag);
  }

  lemma AddSays(r: Record, flag: seq<byte>)
    requires Typed(r, Add)
    ensures var t := WithMatched(SetOrderSide(WithQuantity(r), flag)); LettersSay(t, LETTER_A, flag) && SameFields(r, t)
  {
    Letters();
    OrderSays(r, LETTER_A, flag);
    var sided := SetOrderSide(WithQuantity(r), flag);
    NumbersOnly(sided);
    StillSay(sided, WithMatched(sided), LETTER_A, flag);
  }

  lemma AddSaysAll(r: Record, flag: seq<byte>)
    requires Blank(r) && ByType(r, LETTER_A, flag).Field?
    ensures LettersSay(ByType(r, LETTER_A, flag).value, LETTER_A, flag)
    ensures SameFields(r, ByType(r, LETTER_A, flag).value)
  {
    var start := r.(action := Add);
    NumbersOnly(start);
    var priced := WithPrice(start).value;
    StaysTyped(start, priced, Add);
    AddSays(priced, flag);
  }

  lemma CancelSaysAll(r: Record, flag: seq<byte>)
    requires Blank(r)
    ensures ByType(r, LETTER_D, flag).Field?
    ensures LettersSay(ByType(r, LETTER_D, flag).value, LETTER_D, flag)
    ensures SameFields(r, ByType(r, LETTER_D, flag).value)
  {
    Letters();
    OrderSays(r.(action := Cancel), LETTER_D, flag);
  }

  lemma TradeSaysAll(r: Record, flag: seq<byte>)
    requires Blank(r) && ByType(r, LETTER_T, flag).Field?
    ensures LettersSay(ByType(r, LETTER_T, flag).value, LETTER_T, flag)
    ensures SameFields(r, ByType(r, LETTER_T, flag).value)
  {
    var start := r.(action := Trade);
    NumbersOnly(start);
    var priced := WithPrice(start).value;
    StaysTyped(start, priced, Trade);
    NumbersOnly(priced);
    StaysTyped(priced, WithAmount(priced).value, Trade);
    Letters();
    TradeSays(WithAmount(priced).value, LETTER_T, flag);
  }

  lemma StatusSaysAll(r: Record, flag: seq<byte>)
    requires Blank(r)
    ensures ByType(r, LETTER_S, flag).Field?
    ensures LettersSay(ByType(r, LETTER_S, flag).value, LETTER_S, flag)
    ensures SameFields(r, ByType(r, LETTER_S, flag).value)
  {
    Letters();
    StatusSays(r.(action := Status), LETTER_S, flag);
  }

  lemma TypeSays(r: Record, kind: seq<byte>, flag: seq<byte>)
    requires Blank(r) && ByType(r, kind, flag).Field?
    ensures LettersSay(ByType(r, kind, flag).value, kind, flag) && SameFields(r, ByType(r, kind, flag).value)
  {
    if kind == LETTER_A {
      AddSaysAll(r, flag);
    } else if kind == LETTER_D {
      CancelSaysAll(r, flag);
    } else if kind == LETTER_T {
      TradeSaysAll(r, flag);
    } else if kind == LETTER_S {
      StatusSaysAll(r, flag);
    } else {
      Letters();
    }
  }

  lemma TextIs(g: Guard, body: seq<byte>, descriptor: nat, maximum: nat)
    requires ReadText(g, body, descriptor, FIXED, maximum, true).Accepted?
    ensures TextAt(body, descriptor, ReadText(g, body, descriptor, FIXED, maximum, true).value.bytes)
  {
  }

  /** Whatever decodes says what its body says: every field as loaded at its offset, and
      action, side, orders, aggressor and phase by the letters of the texts at 22 and 64. */
  lemma TickSays(g: Guard, body: seq<byte>, maximumText: nat) returns (kind: seq<byte>, flag: seq<byte>)
    requires Decode(g, body, maximumText).Tick?
    ensures TextAt(body, 22, kind) && TextAt(body, 64, flag)
    ensures var t := Decode(g, body, maximumText).record; FieldsSay(t, body) && LettersSay(t, kind, flag)
  {
    var security := ReadText(g, body, 12, FIXED, maximumText, true);
    var kindRead := ReadText(security.guard, body, 22, FIXED, maximumText, true);
    var flagRead := ReadText(kindRead.guard, body, 64, FIXED, maximumText, true);
    TextIs(g, body, 12, maximumText);
    TextIs(security.guard, body, 22, maximumText);
    TextIs(kindRead.guard, body, 64, maximumText);
    kind, flag := kindRead.value.bytes, flagRead.value.bytes;
    var position := Positions(body).value;
    BaseSays(body, security.value.bytes, position);
    var base := Base(body, security.value.bytes, position).value;
    TypeSays(base.(rawType := OneLetter(kind), rawSide := OneLetter(flag)), kind, flag);
  }
}
