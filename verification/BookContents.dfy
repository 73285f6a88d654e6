/** What a decoded book says, at the literal offsets of the two wire formats: each side's
    depth, and of each retained level the price, the quantity and the number of orders. */
module BookContents {
  import opened Common
  import opened DynamicRanges
  import opened FixedPoint
  import opened SnapshotBook
  import opened Wire

  /** A price with three decimals in 32 bits: scaled to six if and only if positive. */
  predicate ShanghaiPrice(p: FixedDecimal, raw: int) {
    && p.raw == raw && p.scale == 3 && (p.rawValid <==> raw != -0x8000_0000)
    && (p.p6Valid <==> raw > 0) && p.p6 == if raw > 0 then raw * 1_000 else 0
  }

  /** A price with six decimals in 64 bits: taken as it is if and only if positive. */
  predicate ShenzhenPrice(p: FixedDecimal, raw: int) {
    && p.raw == raw && p.scale == 6 && (p.rawValid <==> raw != -0x8000_0000_0000_0000)
    && (p.p6Valid <==> raw > 0) && p.p6 == if raw > 0 then raw else 0
  }

  /** The level at this place of a Shanghai body: 4 bytes, price, quantity, number of orders,
      list of at most as many orders. */
  predicate ShanghaiLevel(body: seq<byte>, at: nat, level: Level) {
    var price, quantity := LoadSigned(body, at + 4, 4), LoadSigned(body, at + 8, 8);
    var orders, queued := Load(body, at + 16, 4), Load(body, at + 20, 4);
    && price.Some? && ShanghaiPrice(level.price, price.value)
    && quantity.Some? && level.quantity == ScaledInteger(quantity.value, 3, quantity.value >= 0)
    && orders == Some(level.orderCount) && queued.Some? && queued.value <= level.orderCount
  }

  /** The level at this place of a Shenzhen body: quantity, price, number of orders, list of
      at most as many orders. */
  predicate ShenzhenLevel(body: seq<byte>, at: nat, level: Level) {
    var price, quantity := LoadSigned(body, at + 8, 8), LoadSigned(body, at, 8);
    var orders, queued := Load(body, at + 16, 4), Load(body, at + 20, 4);
    && price.Some? && ShenzhenPrice(level.price, price.value)
    && quantity.Some? && level.quantity == ScaledInteger(quantity.value, 0, quantity.value >= 0)
    && orders == Some(level.orderCount) && queued.Some? && queued.value <= level.orderCount
  }

  /** How a level is recognized at its place. */
  type LevelTest = (nat, Level) -> bool

  function ShanghaiTest(body: seq<byte>): LevelTest {
    (at: nat, level: Level) => ShanghaiLevel(body, at, level)
  }

  function ShenzhenTest(body: seq<byte>): LevelTest {
    (at: nat, level: Level) => ShenzhenLevel(body, at, level)
  }

  /** One side of a book: a count and an offset relative to the descriptor, then levels of 28
      bytes, of which the first ten are retained. */
  predicate BookSide(body: seq<byte>, descriptor: nat, depth: nat, levels: seq<Level>, test: LevelTest) {
    var count, relative := Load(body, descriptor, 4), Load(body, descriptor + 4, 4);
    && count == Some(depth) && relative.Some? && |levels| == (if depth < 10 then depth else 10)
    && forall i :: 0 <= i < |levels| ==> test(descriptor + relative.value + 28 * i, levels[i])
  }

  // ---- one level -----------------------------------------------------------------------

  lemma ShanghaiPriceIs(body: seq<byte>, at: nat)
    requires DecodePrice(body, at, 4, 3).Field?
    ensures var raw := LoadSigned(body, at, 4); raw.Some? && ShanghaiPrice(DecodePrice(body, at, 4, 3).value, raw.value)
  {
    var raw := LoadDecimalRaw(body, at, 4, 3);
    if raw.value.rawValid { NormalizeExact(raw.value); }
    assert Pow10(3) == 1_000;
  }

  lemma ShenzhenPriceIs(body: seq<byte>, at: nat)
    requires DecodePrice(body, at, 8, 6).Field?
    ensures var raw := LoadSigned(body, at, 8); raw.Some? && ShenzhenPrice(DecodePrice(body, at, 8, 6).value, raw.value)
  {
    var raw := LoadDecimalRaw(body, at, 8, 6);
    if raw.value.rawValid { NormalizeExact(raw.value); }
    assert Pow10(0) == 1;
  }

  lemma ShanghaiLevelIs(body: seq<byte>, at: nat, maximumQueue: nat, p: Progress)
    requires DecodeLevel(body, SHANGHAI, at, maximumQueue, p).Done?
    ensures ShanghaiLevel(body, at, DecodeLevel(body, SHANGHAI, at, maximumQueue, p).value)
  {
    ShanghaiPriceIs(body, at + 4);
  }

  lemma ShenzhenLevelIs(body: seq<byte>, at: nat, maximumQueue: nat, p: Progress)
    requires DecodeLevel(body, SHENZHEN, at, maximumQueue, p).Done?
    ensures ShenzhenLevel(body, at, DecodeLevel(body, SHENZHEN, at, maximumQueue, p).value)
  {
    ShenzhenPriceIs(body, at + 8);
  }

  // ---- the levels of a side ----------------------------------------------------------------

  /** What step i yields passes the test at its place. */
  ghost predicate StepPasses(step: Step, test: LevelTest, list: ListView, i: nat, p: Progress) {
    step(i, p).Done? ==> test(ItemAt(list, i), step(i, p).value)
  }

  lemma {:induction false} LevelsPass(step: Step, test: LevelTest, list: ListView, n: nat, p: Progress)
    requires forall i, q :: StepPasses(step, test, list, i, q)
    requires DecodeLevels(step, n, p).Done?
    ensures var levels := DecodeLevels(step, n, p).value;
      && |levels| == (if n < 10 then n else 10)
      && forall i :: 0 <= i < |levels| ==> test(ItemAt(list, i), levels[i])
  {
    if n > 0 {
      LevelsPass(step, test, list, n - 1, p);
      assert StepPasses(step, test, list, n - 1, DecodeLevels(step, n - 1, p).progress);
    }
  }

  /** The levels of a list that was read at this descriptor. */
  lemma SideIs(
    body: seq<byte>, g: Guard, descriptor: nat, fixed: nat, maximum: nat, step: Step, test: LevelTest, p: Progress)
    requires var r := ReadList(g, body, descriptor, 28, fixed, maximum);
      && r.Accepted? && DecodeLevels(step, r.value.count, p).Done?
      && forall i, q :: StepPasses(step, test, r.value, i, q)
    ensures var list := ReadList(g, body, descriptor, 28, fixed, maximum).value;
      BookSide(body, descriptor, list.count, DecodeLevels(step, list.count, p).value, test)
  {
    var list := ReadList(g, body, descriptor, 28, fixed, maximum).value;
    LevelsPass(step, test, list, list.count, p);
    var levels := DecodeLevels(step, list.count, p).value;
    forall i | 0 <= i < |levels|
      ensures test(descriptor + Load(body, descriptor + 4, 4).value + 28 * i, levels[i])
    {
      assert ItemAt(list, i) == descriptor + Load(body, descriptor + 4, 4).value + 28 * i;
    }
  }

  // ---- the book ----------------------------------------------------------------------------

  /** Levels of this layout pass the test. */
  ghost predicate Recognizes(test: LevelTest, body: seq<byte>, l: Layout, maximumQueue: nat, at: nat, p: Progress)
    requires ValidLayout(l)
  {
    var r := DecodeLevel(body, l, at, maximumQueue, p); r.Done? ==> test(at, r.value)
  }

  lemma BookIs(
    body: seq<byte>, l: Layout, maximumDepth: nat, maximumQueue: nat, g: Guard, quality: set<Quality>, test: LevelTest)
    requires ValidLayout(l) && DecodeBook(body, l, maximumDepth, maximumQueue, g, quality).Done?
    requires forall at, p :: Recognizes(test, body, l, maximumQueue, at, p)
    ensures var book := DecodeBook(body, l, maximumDepth, maximumQueue, g, quality).value;
      && BookSide(body, l.bidsAt, book.bidDepth, book.bids, test)
      && BookSide(body, l.asksAt, book.askDepth, book.asks, test)
  {
    var bids := ReadList(g, body, l.bidsAt, LEVEL_BYTES, l.fixed, maximumDepth);
    var asks := ReadList(bids.guard, body, l.asksAt, LEVEL_BYTES, l.fixed, maximumDepth);
    var cut := if bids.value.count > BOOK_DEPTH || asks.value.count > BOOK_DEPTH then {DepthTruncated} else {};
    var start := Progress(asks.guard, 0, quality + cut);
    var bidStep := LevelStep(body, l, bids.value, maximumQueue);
    var askStep := LevelStep(body, l, asks.value, maximumQueue);
    forall i: nat, p: Progress ensures StepPasses(bidStep, test, bids.value, i, p) {
      assert Recognizes(test, body, l, maximumQueue, ItemAt(bids.value, i), p);
    }
    forall i: nat, p: Progress ensures StepPasses(askStep, test, asks.value, i, p) {
      assert Recognizes(test, body, l, maximumQueue, ItemAt(asks.value, i), p);
    }
    SideIs(body, g, l.bidsAt, l.fixed, maximumDepth, bidStep, test, start);
    SideIs(body, bids.guard, l.asksAt, l.fixed, maximumDepth, askStep, test,
           DecodeLevels(bidStep, bids.value.count, start).progress);
  }

  /** A Shanghai book says what its body says. */
  lemma ShanghaiBook(
    body: seq<byte>, maximumDepth: nat, maximumQueue: nat, g: Guard, quality: set<Quality>)
    requires DecodeBook(body, SHANGHAI, maximumDepth, maximumQueue, g, quality).Done?
    ensures var book := DecodeBook(body, SHANGHAI, maximumDepth, maximumQueue, g, quality).value;
      && BookSide(body, 228, book.bidDepth, book.bids, ShanghaiTest(body))
      && BookSide(body, 236, book.askDepth, book.asks, ShanghaiTest(body))
  {
    var test := ShanghaiTest(body);
    forall at: nat, p: Progress ensures Recognizes(test, body, SHANGHAI, maximumQueue, at, p) {
      if DecodeLevel(body, SHANGHAI, at, maximumQueue, p).Done? {
        ShanghaiLevelIs(body, at, maximumQueue, p);
      }
    }
    BookIs(body, SHANGHAI, maximumDepth, maximumQueue, g, quality, test);
  }

  /** A Shenzhen book says what its body says. */
  lemma ShenzhenBook(
    body: seq<byte>, maximumDepth: nat, maximumQueue: nat, g: Guard, quality: set<Quality>)
    requires DecodeBook(body, SHENZHEN, maximumDepth, maximumQueue, g, quality).Done?
    ensures var book := DecodeBook(body, SHENZHEN, maximumDepth, maximumQueue, g, quality).value;
      && BookSide(body, 208, book.bidDepth, book.bids, ShenzhenTest(body))
      && BookSide(body, 216, book.askDepth, book.asks, ShenzhenTest(body))
  {
    var test := ShenzhenTest(body);
    forall at: nat, p: Progress ensures Recognizes(test, body, SHENZHEN, maximumQueue, at, p) {
      if DecodeLevel(body, SHENZHEN, at, maximumQueue, p).Done? {
        ShenzhenLevelIs(body, at, maximumQueue, p);
      }
    }
    BookIs(body, SHENZHEN, maximumDepth, maximumQueue, g, quality, test);
  }

  // ---- the flags ---------------------------------------------------------------------------

  /** Levels raise no other flags than these. */
  const LEVEL_FLAGS: set<Quality> := {NullSourceValue, InvalidPrice, InvalidQuantity}

  predicate FlagsOfLevels(before: set<Quality>, after: set<Quality>) {
    before <= after <= before + LEVEL_FLAGS
  }

  lemma {:induction false} QueueRaises(body: seq<byte>, l: Layout, queue: ListView, n: nat)
    requires QueueFlags(QueueStep(body, l, queue), n).Field?
    ensures QueueFlags(QueueStep(body, l, queue), n).quality <= LEVEL_FLAGS
  {
    if n > 0 { QueueRaises(body, l, queue, n - 1); }
  }

  lemma LevelRaises(body: seq<byte>, l: Layout, at: nat, maximumQueue: nat, p: Progress)
    requires ValidLayout(l) && DecodeLevel(body, l, at, maximumQueue, p).Done?
    ensures FlagsOfLevels(p.quality, DecodeLevel(body, l, at, maximumQueue, p).progress.quality)
  {
    var queue := ReadList(p.guard, body, at + 20, l.queueItem, l.fixed, maximumQueue);
    QueueRaises(body, l, queue.value, queue.value.count);
  }

  ghost predicate StepRaises(step: Step, i: nat, p: Progress) {
    step(i, p).Done? ==> FlagsOfLevels(p.quality, step(i, p).progress.quality)
  }

  lemma {:induction false} LevelsRaise(step: Step, n: nat, p: Progress)
    requires forall i, q :: StepRaises(step, i, q)
    requires DecodeLevels(step, n, p).Done?
    ensures FlagsOfLevels(p.quality, DecodeLevels(step, n, p).progress.quality)
  {
    if n > 0 {
      LevelsRaise(step, n - 1, p);
      assert StepRaises(step, n - 1, DecodeLevels(step, n - 1, p).progress);
    }
  }

  lemma ListRaises(body: seq<byte>, l: Layout, list: ListView, maximumQueue: nat, p: Progress)
    requires ValidLayout(l) && DecodeLevels(LevelStep(body, l, list, maximumQueue), list.count, p).Done?
    ensures FlagsOfLevels(
      p.quality, DecodeLevels(LevelStep(body, l, list, maximumQueue), list.count, p).progress.quality)
  {
    var step := LevelStep(body, l, list, maximumQueue);
    forall i: nat, q: Progress ensures StepRaises(step, i, q) {
      if step(i, q).Done? { LevelRaises(body, l, ItemAt(list, i), maximumQueue, q); }
    }
    LevelsRaise(step, list.count, p);
  }

  /** The book is flagged as truncated exactly if a side has more than ten levels. */
  lemma TruncatedExactly(
    body: seq<byte>, l: Layout, maximumDepth: nat, maximumQueue: nat, g: Guard, quality: set<Quality>)
    requires ValidLayout(l) && DecodeBook(body, l, maximumDepth, maximumQueue, g, quality).Done?
    requires DepthTruncated !in quality
    ensures var r := DecodeBook(body, l, maximumDepth, maximumQueue, g, quality);
      DepthTruncated in r.progress.quality <==> r.value.bidDepth > 10 || r.value.askDepth > 10
  {
    var bids := ReadList(g, body, l.bidsAt, LEVEL_BYTES, l.fixed, maximumDepth);
    var asks := ReadList(bids.guard, body, l.asksAt, LEVEL_BYTES, l.fixed, maximumDepth);
    var cut := if bids.value.count > BOOK_DEPTH || asks.value.count > BOOK_DEPTH then {DepthTruncated} else {};
    var start := Progress(asks.guard, 0, quality + cut);
    ListRaises(body, l, bids.value, maximumQueue, start);
    ListRaises(body, l, asks.value, maximumQueue,
               DecodeLevels(LevelStep(body, l, bids.value, maximumQueue), bids.value.count, start).progress);
  }
}
