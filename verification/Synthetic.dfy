/** The benchmark's encoder, and the round trips: what it writes, the engine reads back. */
module Synthetic {
  import opened Common
  import opened DynamicRanges
  import opened FixedPoint
  import opened ShanghaiTick
  import opened Wire

  // ---- the body --------------------------------------------------------------------

  function Blank(n: nat): seq<byte> {
    seq(n, _ => 0)
  }

  /** The numbers of a synthetic trade, in the order they are stored. */
  function Numbers(channel: nat): seq<byte> {
    Put(Put(Put(Put(Put(Put(Put(Blank(FIXED), 8, 4, channel), 18, 4, 93_000_123), 28, 8, 101), 36, 8, 202),
        44, 4, 12_345), 48, 8, 100), 56, 8, 1_234_500)
  }

  function Body(channel: nat, security: seq<byte>): seq<byte> {
    WithTexts(Numbers(channel), security)
  }

  method MakeBody(channel: nat, security: seq<byte>) returns (body: Buffer)
    ensures fresh(body) && body.bytes == Body(channel, security)
  {
    body := new Buffer(FIXED);
    body.PutUnsigned(8, 4, channel);
    body.PutUnsigned(18, 4, 93_000_123);
    body.PutUnsigned(28, 8, 101);
    body.PutUnsigned(36, 8, 202);
    body.PutUnsigned(44, 4, 12_345);
    body.PutUnsigned(48, 8, 100);
    body.PutUnsigned(56, 8, 1_234_500);
    body.AppendText(12, security);
    body.AppendText(22, LETTER_T);
    body.AppendText(64, LETTER_B);
  }

  /** The body as sent: the native sequence is stored into it before every call. */
  function Sent(channel: nat, security: seq<byte>, sequence: nat): seq<byte> {
    Put(Body(channel, security), 0, 8, sequence)
  }

  function NumberSlots(channel: nat): seq<Slot> {
    [Slot(8, 4, channel), Slot(18, 4, 93_000_123), Slot(28, 8, 101), Slot(36, 8, 202),
     Slot(44, 4, 12_345), Slot(48, 8, 100), Slot(56, 8, 1_234_500)]
  }

  predicate Encodable(channel: nat, security: seq<byte>, sequence: nat) {
    && 0 < channel < 0x8000_0000 && 0 < sequence < 0x8000_0000_0000_0000
    && 0 < |security| <= 0xFFFF && Printable(security)
  }

  lemma Widths()
    ensures Power(1) == 0x100 && Power(2) == 0x1_0000 && Power(4) == 0x1_0000_0000
    ensures Power(8) == 0x1_0000_0000_0000_0000
  {
  }

  lemma NumbersStored(channel: nat)
    requires channel < 0x8000_0000
    ensures HasAll(Numbers(channel), NumberSlots(channel))
  {
    Widths();
    var b0, f0: seq<Slot> := Blank(FIXED), [];
    PutOneMore(b0, f0, 8, 4, channel);
    var b1, f1 := Put(b0, 8, 4, channel), f0 + [Slot(8, 4, channel)];
    PutOneMore(b1, f1, 18, 4, 93_000_123);
    var b2, f2 := Put(b1, 18, 4, 93_000_123), f1 + [Slot(18, 4, 93_000_123)];
    PutOneMore(b2, f2, 28, 8, 101);
    var b3, f3 := Put(b2, 28, 8, 101), f2 + [Slot(28, 8, 101)];
    PutOneMore(b3, f3, 36, 8, 202);
    var b4, f4 := Put(b3, 36, 8, 202), f3 + [Slot(36, 8, 202)];
    PutOneMore(b4, f4, 44, 4, 12_345);
    var b5, f5 := Put(b4, 44, 4, 12_345), f4 + [Slot(44, 4, 12_345)];
    PutOneMore(b5, f5, 48, 8, 100);
    var b6, f6 := Put(b5, 48, 8, 100), f5 + [Slot(48, 8, 100)];
    PutOneMore(b6, f6, 56, 8, 1_234_500);
    var b7, f7 := Put(b6, 56, 8, 1_234_500), f6 + [Slot(56, 8, 1_234_500)];
    assert f7 == NumberSlots(channel);
  }

  function BodySlots(channel: nat, n: nat): seq<Slot> {
    NumberSlots(channel) + [Slot(12, 2, n)] + [Slot(14, 4, 58)] + [Slot(22, 2, 1)] + [Slot(24, 4, 48 + n)]
      + [Slot(64, 2, 1)] + [Slot(66, 4, 7 + n)]
  }

  /** The three texts, appended to any fixed part. */
  function WithTexts(fixed: seq<byte>, security: seq<byte>): seq<byte>
    requires |fixed| == FIXED
  {
    Appended(Appended(Appended(fixed, 12, security), 22, LETTER_T), 64, LETTER_B)
  }

  lemma BesideDescriptor(at: nat, width: nat, fs: seq<Slot>, descriptor: nat, length: nat, offset: nat)
    requires AllBeside(at, width, fs) && (at + width <= descriptor || descriptor + 6 <= at)
    ensures AllBeside(at, width, fs + [Slot(descriptor, 2, length)] + [Slot(descriptor + 2, 4, offset)])
  {
    BesideMore(at, width, fs, Slot(descriptor, 2, length));
    BesideMore(at, width, fs + [Slot(descriptor, 2, length)], Slot(descriptor + 2, 4, offset));
  }

  lemma DescriptorsStored(fixed: seq<byte>, fs: seq<Slot>, security: seq<byte>)
    requires |fixed| == FIXED && |security| <= 0xFFFF && HasAll(fixed, fs)
    requires AllBeside(12, 6, fs) && AllBeside(22, 6, fs) && AllBeside(64, 6, fs)
    ensures var n := |security|;
      HasAll(WithTexts(fixed, security),
             fs + [Slot(12, 2, n)] + [Slot(14, 4, 58)] + [Slot(22, 2, 1)] + [Slot(24, 4, 48 + n)]
               + [Slot(64, 2, 1)] + [Slot(66, 4, 7 + n)])
  {
    var n := |security|;
    AppendOneMore(fixed, fs, 12, security);
    var b1, f1 := Appended(fixed, 12, security), fs + [Slot(12, 2, n)] + [Slot(14, 4, 58)];
    BesideDescriptor(22, 6, fs, 12, n, 58);
    AppendOneMore(b1, f1, 22, LETTER_T);
    var b2, f2 := Appended(b1, 22, LETTER_T), f1 + [Slot(22, 2, 1)] + [Slot(24, 4, 48 + n)];
    BesideDescriptor(64, 6, fs, 12, n, 58);
    BesideDescriptor(64, 6, f1, 22, 1, 48 + n);
    AppendOneMore(b2, f2, 64, LETTER_B);
  }

  lemma NumbersBeside(channel: nat)
    ensures AllBeside(0, 8, NumberSlots(channel))
    ensures AllBeside(12, 6, NumberSlots(channel)) && AllBeside(22, 6, NumberSlots(channel))
    ensures AllBeside(64, 6, NumberSlots(channel))
  {
  }

  lemma BodyStored(channel: nat, security: seq<byte>)
    requires channel < 0x8000_0000 && |security| <= 0xFFFF
    ensures HasAll(Body(channel, security), BodySlots(channel, |security|))
  {
    NumbersStored(channel);
    NumbersBeside(channel);
    DescriptorsStored(Numbers(channel), NumberSlots(channel), security);
  }

  lemma SentStored(channel: nat, security: seq<byte>, sequence: nat)
    requires Encodable(channel, security, sequence)
    ensures HasAll(Sent(channel, security, sequence), BodySlots(channel, |security|) + [Slot(0, 8, sequence)])
  {
    Widths();
    BodyStored(channel, security);
    NumbersBeside(channel);
    var n, f0 := |security|, NumberSlots(channel);
    var f1 := f0 + [Slot(12, 2, n)] + [Slot(14, 4, 58)];
    var f2 := f1 + [Slot(22, 2, 1)] + [Slot(24, 4, 48 + n)];
    BesideDescriptor(0, 8, f0, 12, n, 58);
    BesideDescriptor(0, 8, f1, 22, 1, 48 + n);
    BesideDescriptor(0, 8, f2, 64, 1, 7 + n);
    PutOneMore(Body(channel, security), BodySlots(channel, |security|), 0, 8, sequence);
  }

  // ---- the texts -------------------------------------------------------------------

  lemma PutBelow(buffer: seq<byte>, offset: nat, width: nat, value: nat, from: nat, to: nat)
    requires offset + width <= from <= to <= |buffer|
    ensures Put(buffer, offset, width, value)[from..to] == buffer[from..to]
  {
  }

  lemma AppendedKeeps(buffer: seq<byte>, descriptor: nat, text: seq<byte>, from: nat, to: nat)
    requires descriptor + 6 <= |buffer| && descriptor + 6 <= from <= to <= |buffer| + |text|
    ensures Appended(buffer, descriptor, text)[from..to] == (buffer + text)[from..to]
  {
    var length, offset := |text| % 0x1_0000, (|buffer| - descriptor) % 0x1_0000_0000;
    PutBelow(buffer + text, descriptor, 2, length, from, to);
    PutBelow(Put(buffer + text, descriptor, 2, length), descriptor + 2, 4, offset, from, to);
  }

  lemma TextsAppended(fixed: seq<byte>, security: seq<byte>)
    requires |fixed| == FIXED
    ensures var b, n := WithTexts(fixed, security), |security|;
      |b| == 72 + n && b[70..72 + n] == security + LETTER_T + LETTER_B
  {
    var n := |security|;
    var b1 := Appended(fixed, 12, security);
    var b2 := Appended(b1, 22, LETTER_T);
    AppendedKeeps(fixed, 12, security, 70, 70 + n);
    assert b1[70..70 + n] == security;
    AppendedKeeps(b1, 22, LETTER_T, 70, 71 + n);
    assert b2[70..71 + n] == security + LETTER_T;
    AppendedKeeps(b2, 64, LETTER_B, 70, 72 + n);
  }

  lemma TextsStored(channel: nat, security: seq<byte>, sequence: nat)
    ensures var body, n := Sent(channel, security, sequence), |security|;
      && |body| == 72 + n && body[70..70 + n] == security
      && body[70 + n..71 + n] == LETTER_T && body[71 + n..72 + n] == LETTER_B
  {
    var body, n := Sent(channel, security, sequence), |security|;
    TextsAppended(Numbers(channel), security);
    PutBelow(Body(channel, security), 0, 8, sequence, 70, 72 + n);
    Split(body, security);
  }

  lemma Split(body: seq<byte>, security: seq<byte>)
    requires |body| == 72 + |security| && body[70..72 + |security|] == security + LETTER_T + LETTER_B
    ensures var n := |security|;
      body[70..70 + n] == security && body[70 + n..71 + n] == LETTER_T && body[71 + n..72 + n] == LETTER_B
  {
    var n, tail := |security|, body[70..72 + |security|];
    SliceOfSlice(body, 70, 72 + n, 0, n);
    SliceOfSlice(body, 70, 72 + n, n, n + 1);
    SliceOfSlice(body, 70, 72 + n, n + 1, n + 2);
    assert tail[..n] == security && tail[n..n + 1] == LETTER_T && tail[n + 1..n + 2] == LETTER_B;
  }

  lemma SliceOfSlice(body: seq<byte>, lo: nat, hi: nat, from: nat, to: nat)
    requires from <= to && lo + to <= hi <= |body|
    ensures body[lo..hi][from..to] == body[lo + from..lo + to]
  {
    var a, b := body[lo..hi][from..to], body[lo + from..lo + to];
    assert |a| == |b| && forall k :: 0 <= k < |a| ==> a[k] == b[k];
  }

  /** A text that a descriptor points to is read back, and its range protected. */
  lemma ReadsBack(g: Guard, body: seq<byte>, descriptor: nat, start: nat, text: seq<byte>, maximumText: nat)
    requires g.on && |body| <= 0x1_0047 && FIXED <= start && start + |text| <= |body| && descriptor + 6 <= start
    requires 0 < |text| <= maximumText && Printable(text) && body[start..start + |text|] == text
    requires Load(body, descriptor, 2) == Some(|text|) && Load(body, descriptor + 2, 4) == Some(start - descriptor)
    requires forall i :: 0 <= i < |g.ranges| ==> g.ranges[i].end <= start
    ensures ReadText(g, body, descriptor, FIXED, maximumText, true) ==
      Accepted(TextView(start, text), g.(ranges := g.ranges + [Range(start, start + |text|)]))
  {
  }

  // ---- round trip ------------------------------------------------------------------

  /** What the sent body says. */
  function Expected(channel: nat, security: seq<byte>, sequence: nat): Record {
    Record(
      sequence, channel, security, 93_000_123, 34_200_123_000_000, 101, 202, 0,
      ScaledInteger(100, 0, true),
      FixedDecimal(12_345, 12_345_000, 3, true, true),
      FixedDecimal(1_234_500, 1_234_500_000, 3, true, true),
      0, 84, 66, Trade, UnknownSide, BuyAggressor, UnknownPhase,
      {ExchangeTimeValid, PriceValid, QuantityValid, AmountValid, BuyOrderIdValid, SellOrderIdValid, AggressorValid},
      {})
  }

  lemma LastSlot(body: seq<byte>, fs: seq<Slot>, f: Slot)
    requires HasAll(body, fs + [f])
    ensures HasAll(body, fs) && Load(body, f.at, f.width) == Some(f.value)
  {
    var all := fs + [f];
    assert Has(body, all, |fs|);
    forall i | 0 <= i < |fs| ensures Has(body, fs, i) {
      assert Has(body, all, i);
    }
  }

  lemma NumberLoads(body: seq<byte>, channel: nat)
    requires HasAll(body, NumberSlots(channel))
    ensures Load(body, 8, 4) == Some(channel) && Load(body, 18, 4) == Some(93_000_123)
    ensures Load(body, 28, 8) == Some(101) && Load(body, 36, 8) == Some(202) && Load(body, 44, 4) == Some(12_345)
    ensures Load(body, 48, 8) == Some(100) && Load(body, 56, 8) == Some(1_234_500)
  {
    var fs := NumberSlots(channel);
    assert Has(body, fs, 0) && Has(body, fs, 1) && Has(body, fs, 2) && Has(body, fs, 3);
    assert Has(body, fs, 4) && Has(body, fs, 5) && Has(body, fs, 6);
  }

  /** What a body must hold to be read back. */
  predicate Carries(b: seq<byte>, channel: nat, security: seq<byte>, sequence: nat) {
    var n := |security|;
    && Load(b, 0, 8) == Some(sequence) && Load(b, 8, 4) == Some(channel) && Load(b, 18, 4) == Some(93_000_123)
    && Load(b, 28, 8) == Some(101) && Load(b, 36, 8) == Some(202) && Load(b, 44, 4) == Some(12_345)
    && Load(b, 48, 8) == Some(100) && Load(b, 56, 8) == Some(1_234_500)
    && Load(b, 12, 2) == Some(n) && Load(b, 14, 4) == Some(58)
    && Load(b, 22, 2) == Some(1) && Load(b, 24, 4) == Some(48 + n)
    && Load(b, 64, 2) == Some(1) && Load(b, 66, 4) == Some(7 + n)
  }

  /** The fields of the sent body, one load at a time. */
  lemma Loads(channel: nat, security: seq<byte>, sequence: nat)
    requires Encodable(channel, security, sequence)
    ensures Carries(Sent(channel, security, sequence), channel, security, sequence)
  {
    SentStored(channel, security, sequence);
    var b, n := Sent(channel, security, sequence), |security|;
    var f0 := NumberSlots(channel);
    var f1 := f0 + [Slot(12, 2, n)];
    var f2 := f1 + [Slot(14, 4, 58)];
    var f3 := f2 + [Slot(22, 2, 1)];
    var f4 := f3 + [Slot(24, 4, 48 + n)];
    var f5 := f4 + [Slot(64, 2, 1)];
    LastSlot(b, BodySlots(channel, n), Slot(0, 8, sequence));
    LastSlot(b, f5, Slot(66, 4, 7 + n));
    LastSlot(b, f4, Slot(64, 2, 1));
    LastSlot(b, f3, Slot(24, 4, 48 + n));
    LastSlot(b, f2, Slot(22, 2, 1));
    LastSlot(b, f1, Slot(14, 4, 58));
    LastSlot(b, f0, Slot(12, 2, n));
    NumberLoads(b, channel);
  }

  lemma PositionsBack(body: seq<byte>, channel: nat, security: seq<byte>, sequence: nat)
    requires Encodable(channel, security, sequence) && Carries(body, channel, security, sequence)
    ensures Positions(body) == Some((sequence, channel))
  {
    Widths();
  }

  /** The record before its type is known. */
  function Untyped(channel: nat, security: seq<byte>, sequence: nat): Record {
    Record(
      sequence, channel, security, 93_000_123, 34_200_123_000_000, 101, 202, 0,
      ScaledInteger(100, 0, true),
      FixedDecimal(12_345, 0, 3, true, false), FixedDecimal(1_234_500, 0, 3, true, false),
      0, 0, 0, UnknownAction, UnknownSide, UnknownAggressor, UnknownPhase,
      {ExchangeTimeValid}, {})
  }

  lemma SmallSigned(body: seq<byte>, at: nat, width: nat, value: nat)
    requires width == 4 || width == 8
    requires Load(body, at, width) == Some(value) && value < 0x7FFF_FFFF
    ensures LoadSigned(body, at, width) == Some(value)
  {
    Widths();
  }

  lemma BaseBack(body: seq<byte>, channel: nat, security: seq<byte>, sequence: nat)
    requires Encodable(channel, security, sequence) && Carries(body, channel, security, sequence)
    ensures Base(body, security, (sequence, channel)) == Field(Untyped(channel, security, sequence), {})
  {
    SmallSigned(body, 28, 8, 101);
    SmallSigned(body, 36, 8, 202);
    SmallSigned(body, 48, 8, 100);
    DecimalBack(body, 44, 4, 12_345);
    DecimalBack(body, 56, 8, 1_234_500);
    MorningTime();
  }

  lemma MorningTime()
    ensures DecodeTime(93_000_123) == Some(34_200_123_000_000) && TimeQuality(93_000_123) == {}
  {
    TimeAccepted(9, 30, 0, 123);
  }

  lemma DecimalBack(body: seq<byte>, at: nat, width: nat, value: nat)
    requires width == 4 || width == 8
    requires Load(body, at, width) == Some(value) && value < 0x7FFF_FFFF
    ensures LoadDecimalRaw(body, at, width, 3) == Field(FixedDecimal(value, 0, 3, true, false), {})
  {
    SmallSigned(body, at, width, value);
  }

  lemma TypedBack(channel: nat, security: seq<byte>, sequence: nat)
    ensures ByType(Untyped(channel, security, sequence).(rawType := 84, rawSide := 66), LETTER_T, LETTER_B)
         == Field(Expected(channel, security, sequence), {})
  {
    var r := Untyped(channel, security, sequence).(rawType := 84, rawSide := 66, action := Trade);
    assert Pow10(3) == 1_000;
    NormalizeExact(r.price);
    NormalizeExact(r.amount);
    var priced := WithPrice(r).value;
    var amount := WithAmount(priced).value;
    var q := WithQuantity(amount);
    assert WithAggressor(WithOrderIds(q), LETTER_B).validity == Expected(channel, security, sequence).validity;
  }

  /** The three texts lie one after the other behind the fixed part. */
  predicate HoldsTexts(body: seq<byte>, security: seq<byte>) {
    var n := |security|;
    && |body| == 72 + n && body[70..70 + n] == security
    && body[70 + n..71 + n] == LETTER_T && body[71 + n..72 + n] == LETTER_B
  }

  predicate Readable(body: seq<byte>, channel: nat, security: seq<byte>, sequence: nat, maximumText: nat) {
    && Encodable(channel, security, sequence) && |security| <= maximumText
    && Carries(body, channel, security, sequence) && HoldsTexts(body, security)
  }

  function AfterId(n: nat): Guard { Guard(true, [Range(70, 70 + n)]) }

  function AfterType(n: nat): Guard { Guard(true, [Range(70, 70 + n), Range(70 + n, 71 + n)]) }

  function AfterFlag(n: nat): Guard {
    Guard(true, [Range(70, 70 + n), Range(70 + n, 71 + n), Range(71 + n, 72 + n)])
  }

  lemma IdRead(body: seq<byte>, channel: nat, security: seq<byte>, sequence: nat, maximumText: nat)
    requires Readable(body, channel, security, sequence, maximumText)
    ensures ReadText(Guard(true, []), body, 12, FIXED, maximumText, true)
         == Accepted(TextView(70, security), AfterId(|security|))
  {
    ReadsBack(Guard(true, []), body, 12, 70, security, maximumText);
    var r := Range(70, 70 + |security|);
    assert [] + [r] == [r];
  }

  lemma TypeRead(body: seq<byte>, channel: nat, security: seq<byte>, sequence: nat, maximumText: nat)
    requires Readable(body, channel, security, sequence, maximumText)
    ensures ReadText(AfterId(|security|), body, 22, FIXED, maximumText, true)
         == Accepted(TextView(70 + |security|, LETTER_T), AfterType(|security|))
  {
    var n := |security|;
    ReadsBack(AfterId(n), body, 22, 70 + n, LETTER_T, maximumText);
    assert AfterId(n).ranges + [Range(70 + n, 71 + n)] == AfterType(n).ranges;
  }

  lemma FlagRead(body: seq<byte>, channel: nat, security: seq<byte>, sequence: nat, maximumText: nat)
    requires Readable(body, channel, security, sequence, maximumText)
    ensures ReadText(AfterType(|security|), body, 64, FIXED, maximumText, true)
         == Accepted(TextView(71 + |security|, LETTER_B), AfterFlag(|security|))
  {
    var n := |security|;
    ReadsBack(AfterType(n), body, 64, 71 + n, LETTER_B, maximumText);
    assert AfterType(n).ranges + [Range(71 + n, 72 + n)] == AfterFlag(n).ranges;
  }

  lemma DecodesBack(body: seq<byte>, channel: nat, security: seq<byte>, sequence: nat, maximumText: nat)
    requires Readable(body, channel, security, sequence, maximumText)
    ensures Decode(Guard(true, []), body, maximumText) == Tick(Expected(channel, security, sequence))
  {
    IdRead(body, channel, security, sequence, maximumText);
    TypeRead(body, channel, security, sequence, maximumText);
    FlagRead(body, channel, security, sequence, maximumText);
    PositionsBack(body, channel, security, sequence);
    BaseBack(body, channel, security, sequence);
    TypedBack(channel, security, sequence);
  }

  /** What the encoder writes, the decoder reads back: for every positive channel and
      sequence and every printable security id that is not empty and whose length fits its
      descriptor, the sent body decodes to the record it was made from, is routed by its
      channel, and yields its position. It decodes exactly when the id is within the limit. */
  lemma RoundTrip(channel: nat, security: seq<byte>, sequence: nat, maximumText: nat)
    requires Encodable(channel, security, sequence)
    ensures var body := Sent(channel, security, sequence);
      && Decode(Guard(true, []), body, maximumText) ==
         (if |security| <= maximumText then Tick(Expected(channel, security, sequence)) else Undecodable(CountExceeded))
      && Descriptor(body) == Some((channel, sequence))
      && Route(body) == Some(SHANGHAI_ROUTES + channel)
  {
    var body := Sent(channel, security, sequence);
    Loads(channel, security, sequence);
    TextsStored(channel, security, sequence);
    DecodesBack(body, channel, security, sequence, |security|);
    ShortcutsAgree(Guard(true, []), body, |security|);
    if |security| <= maximumText { DecodesBack(body, channel, security, sequence, maximumText); }
  }

  // ---- the header ------------------------------------------------------------------

  datatype Header = Header(
    headSize: nat, messageSize: nat, encoding: nat, serviceId: nat, serviceVersion: nat, messageId: nat,
    localTime: nat, vendorSequence: nat)

  const HEADER_BYTES := 23

  function ParseHeader(bytes: seq<byte>): Option<Header> {
    if |bytes| < HEADER_BYTES then None
    else
      Some(Header(Load(bytes, 0, 1).value, Load(bytes, 1, 4).value, Load(bytes, 5, 1).value, Load(bytes, 6, 1).value,
                  Load(bytes, 7, 2).value, Load(bytes, 9, 2).value, Load(bytes, 11, 4).value, Load(bytes, 15, 8).value))
  }

  function HeaderBytes(messageSize: nat): seq<byte> {
    Put(Put(Put(Put(Put(Put(Put(Blank(HEADER_BYTES), 0, 1, 23), 1, 4, messageSize),
        5, 1, 1), 6, 1, 4), 7, 2, 101), 9, 2, 24), 11, 4, 93_000_000)
  }

  method MakeHeader(bodySize: nat) returns (header: Buffer)
    ensures fresh(header) && header.bytes == HeaderBytes((23 + bodySize) % 0x1_0000_0000)
  {
    header := new Buffer(HEADER_BYTES);
    header.PutUnsigned(0, 1, 23);
    header.PutUnsigned(1, 4, (23 + bodySize) % 0x1_0000_0000);
    header.PutUnsigned(5, 1, 1);
    header.PutUnsigned(6, 1, 4);
    header.PutUnsigned(7, 2, 101);
    header.PutUnsigned(9, 2, 24);
    header.PutUnsigned(11, 4, 93_000_000);
  }

  function HeaderSlots(messageSize: nat): seq<Slot> {
    [Slot(0, 1, 23), Slot(1, 4, messageSize), Slot(5, 1, 1), Slot(6, 1, 4), Slot(7, 2, 101), Slot(9, 2, 24),
     Slot(11, 4, 93_000_000)]
  }

  lemma HeaderStored(messageSize: nat)
    requires messageSize < 0x1_0000_0000
    ensures HasAll(HeaderBytes(messageSize), HeaderSlots(messageSize))
  {
    Widths();
    var b0, f0: seq<Slot> := Blank(HEADER_BYTES), [];
    PutOneMore(b0, f0, 0, 1, 23);
    var b1, f1 := Put(b0, 0, 1, 23), f0 + [Slot(0, 1, 23)];
    PutOneMore(b1, f1, 1, 4, messageSize);
    var b2, f2 := Put(b1, 1, 4, messageSize), f1 + [Slot(1, 4, messageSize)];
    PutOneMore(b2, f2, 5, 1, 1);
    var b3, f3 := Put(b2, 5, 1, 1), f2 + [Slot(5, 1, 1)];
    PutOneMore(b3, f3, 6, 1, 4);
    var b4, f4 := Put(b3, 6, 1, 4), f3 + [Slot(6, 1, 4)];
    PutOneMore(b4, f4, 7, 2, 101);
    var b5, f5 := Put(b4, 7, 2, 101), f4 + [Slot(7, 2, 101)];
    PutOneMore(b5, f5, 9, 2, 24);
    var b6, f6 := Put(b5, 9, 2, 24), f5 + [Slot(9, 2, 24)];
    PutOneMore(b6, f6, 11, 4, 93_000_000);
    var b7, f7 := Put(b6, 11, 4, 93_000_000), f6 + [Slot(11, 4, 93_000_000)];
    assert f7 == HeaderSlots(messageSize);
  }

  /** The header with the arrival's ordinal stored parses to what it was made from, and
      announces exactly the body it precedes. */
  lemma HeaderRoundTrip(bodySize: nat, ordinal: nat)
    requires 23 + bodySize < 0x1_0000_0000 && ordinal < 0x1_0000_0000_0000_0000
    ensures ParseHeader(Put(HeaderBytes(23 + bodySize), 15, 8, ordinal)) ==
      Some(Header(23, 23 + bodySize, 1, 4, 101, 24, 93_000_000, ordinal))
  {
    Widths();
    HeaderStored(23 + bodySize);
    var fs := HeaderSlots(23 + bodySize);
    PutOneMore(HeaderBytes(23 + bodySize), fs, 15, 8, ordinal);
    var b, all := Put(HeaderBytes(23 + bodySize), 15, 8, ordinal), fs + [Slot(15, 8, ordinal)];
    LastSlot(b, fs, Slot(15, 8, ordinal));
    assert Has(b, fs, 0) && Has(b, fs, 1) && Has(b, fs, 2) && Has(b, fs, 3);
    assert Has(b, fs, 4) && Has(b, fs, 5) && Has(b, fs, 6);
  }
}
