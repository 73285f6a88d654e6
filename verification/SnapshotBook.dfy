/** The book of a snapshot: two lists of levels, each level with its own nested queue.
    The loops of the decoder against a specification over the body's bytes, and what the
    range discipline gives: every load is in bounds, and the accepted lists never take
    more bytes than the body has. */
module SnapshotBook {
  import opened Common
  import opened DynamicRanges
  import opened FixedPoint
  import opened Remainders
  import opened Wire

  const LEVEL_BYTES := 28
  const BOOK_DEPTH := 10

  /** Where the two markets put things: the lists of the two sides in the body, the fields in
      a level, `queueQuantityAt` in a queue item; the order count is at 16 and the queue's list
      at 20 in both. */
  datatype Layout = Layout(
    fixed: nat,
    bidsAt: nat,
    asksAt: nat,
    priceAt: nat,
    priceWidth: nat,
    priceScale: nat,
    quantityAt: nat,
    queueItem: nat,
    queueQuantityAt: nat,
    quantityScale: nat,
    nullable: bool)

  const SHANGHAI := Layout(248, 228, 236, 4, 4, 3, 8, 16, 8, 3, true)
  const SHENZHEN := Layout(224, 208, 216, 8, 8, 6, 0, 8, 0, 0, false)

  predicate ValidLayout(l: Layout) {
    l == SHANGHAI || l == SHENZHEN
  }

  datatype Level = Level(price: FixedDecimal, quantity: ScaledInteger, orderCount: nat)

  /** What the decoding of levels carries along: ranges, queue items so far, flags. */
  datatype Progress = Progress(guard: Guard, queueItems: nat, quality: set<Quality>)

  datatype Outcome<+T> = Done(value: T, progress: Progress) | Failed(error: DecodeError)

  /** Where item i of a list starts. */
  function ItemAt(list: ListView, i: nat): nat {
    ProductGrows(0, i, list.itemSize);
    list.start + i * list.itemSize
  }

  // ---- specification ---------------------------------------------------------------

  function LevelFields(body: seq<byte>, l: Layout, at: nat): Field<Level>
    requires ValidLayout(l)
  {
    var price := DecodePrice(body, at + l.priceAt, l.priceWidth, l.priceScale);
    var quantity := DecodeQuantity(body, at + l.quantityAt, l.quantityScale, l.nullable);
    var orders := Load(body, at + 16, 4);
    if price.Bad? then Bad(price.error)
    else if quantity.Bad? then Bad(quantity.error)
    else if orders.None? then Bad(Truncated)
    else Field(Level(price.value, quantity.value, orders.value), price.quality + quantity.quality)
  }

  /** How the quantity of queue item i is decoded. */
  type ItemStep = nat -> Field<ScaledInteger>

  function QueueStep(body: seq<byte>, l: Layout, queue: ListView): ItemStep {
    (i: nat) => DecodeQuantity(body, ItemAt(queue, i) + l.queueQuantityAt, l.quantityScale, l.nullable)
  }

  /** The flags raised by the quantities of the first n queue items. */
  function QueueFlags(item: ItemStep, n: nat): Field<()> {
    if n == 0 then Field((), {})
    else
      var before := QueueFlags(item, n - 1);
      if before.Bad? then before
      else if item(n - 1).Bad? then Bad(item(n - 1).error)
      else Field((), before.quality + item(n - 1).quality)
  }

  function DecodeLevel(body: seq<byte>, l: Layout, at: nat, maximumQueue: nat, p: Progress): Outcome<Level>
    requires ValidLayout(l)
  {
    var fields := LevelFields(body, l, at);
    if fields.Bad? then Failed(fields.error)
    else
      var queue := ReadList(p.guard, body, at + 20, l.queueItem, l.fixed, maximumQueue);
      if queue.Rejected? then Failed(queue.error)
      else if queue.value.count > fields.value.orderCount then Failed(CountMismatch)
      else if p.queueItems + queue.value.count > maximumQueue then Failed(CountExceeded)
      else
        var flags := QueueFlags(QueueStep(body, l, queue.value), queue.value.count);
        if flags.Bad? then Failed(flags.error)
        else Done(fields.value,
                  Progress(queue.guard, p.queueItems + queue.value.count, p.quality + fields.quality + flags.quality))
  }

  /** How level i of some list is decoded. */
  type Step = (nat, Progress) -> Outcome<Level>

  function LevelStep(body: seq<byte>, l: Layout, list: ListView, maximumQueue: nat): Step
    requires ValidLayout(l)
  {
    (i: nat, p: Progress) => DecodeLevel(body, l, ItemAt(list, i), maximumQueue, p)
  }

  /** The first n levels of a list; those beyond the book's depth are only validated. */
  function DecodeLevels(step: Step, n: nat, p: Progress): Outcome<seq<Level>> {
    if n == 0 then Done([], p)
    else
      var before := DecodeLevels(step, n - 1, p);
      if before.Failed? then before
      else
        var level := step(n - 1, before.progress);
        if level.Failed? then Failed(level.error)
        else Done(if n <= BOOK_DEPTH then before.value + [level.value] else before.value, level.progress)
  }

  datatype Book = Book(bids: seq<Level>, asks: seq<Level>, bidDepth: nat, askDepth: nat)

  /** Both lists, then the bid levels, then the ask levels. */
  function DecodeBook(
    body: seq<byte>, l: Layout, maximumDepth: nat, maximumQueue: nat, g: Guard, quality: set<Quality>): Outcome<Book>
    requires ValidLayout(l)
  {
    var bids := ReadList(g, body, l.bidsAt, LEVEL_BYTES, l.fixed, maximumDepth);
    if bids.Rejected? then Failed(bids.error)
    else
      var asks := ReadList(bids.guard, body, l.asksAt, LEVEL_BYTES, l.fixed, maximumDepth);
      if asks.Rejected? then Failed(asks.error)
      else
        var cut := if bids.value.count > BOOK_DEPTH || asks.value.count > BOOK_DEPTH then {DepthTruncated} else {};
        var start := Progress(asks.guard, 0, quality + cut);
        var bid := DecodeLevels(LevelStep(body, l, bids.value, maximumQueue), bids.value.count, start);
        if bid.Failed? then Failed(bid.error)
        else
          var ask := DecodeLevels(LevelStep(body, l, asks.value, maximumQueue), asks.value.count, bid.progress);
          if ask.Failed? then Failed(ask.error)
          else Done(Book(bid.value, ask.value, bids.value.count, asks.value.count), ask.progress)
  }

  // ---- the loops -------------------------------------------------------------------

  /** `step` decodes level i of this list. Methods that only repeat steps need not know how. */
  ghost predicate StepIs(
    step: Step, body: seq<byte>, l: Layout, list: ListView, maximumQueue: nat, i: nat, p: Progress) {
    ValidLayout(l) && step(i, p) == DecodeLevel(body, l, ItemAt(list, i), maximumQueue, p)
  }

  ghost predicate Steps(step: Step, body: seq<byte>, l: Layout, list: ListView, maximumQueue: nat) {
    ValidLayout(l) && forall i, p :: StepIs(step, body, l, list, maximumQueue, i, p)
  }

  class BookReader {
    const body: seq<byte>
    const layout: Layout
    const maximumQueue: nat
    const reader: Reader
    var queueItems: nat
    var quality: set<Quality>

    constructor (bytes: seq<byte>, l: Layout, queue: nat, ranges: Reader, flags: set<Quality>)
      ensures body == bytes && layout == l && maximumQueue == queue && reader == ranges
      ensures queueItems == 0 && quality == flags
    {
      body, layout, maximumQueue, reader := bytes, l, queue, ranges;
      queueItems, quality := 0, flags;
    }

    ghost function Now(): Progress
      reads this, reader
    {
      Progress(reader.guard, queueItems, quality)
    }

    method ScanQueue(queue: ListView, item: ItemStep) returns (error: Option<DecodeError>)
      modifies this`quality
      ensures var flags := QueueFlags(item, queue.count);
        if flags.Bad? then error == Some(flags.error) else error.None? && quality == old(quality) + flags.quality
    {
      var i := 0;
      while i < queue.count
        invariant 0 <= i <= queue.count
        invariant QueueFlags(item, i).Field? && quality == old(quality) + QueueFlags(item, i).quality
      {
        var decoded := item(i);
        if decoded.Bad? {
          FlagsStayBad(item, i + 1, queue.count);
          return Some(decoded.error);
        }
        quality := quality + decoded.quality;
        i := i + 1;
      }
      return None;
    }

    /** One level: its fields, its queue's list, the two count limits, the queue's items.
        The subtraction from the queue limit cannot underflow. */
    method ValidateAndDecodeLevel(list: ListView, index: nat, ghost step: Step) returns (r: Field<Level>)
      requires Steps(step, body, layout, list, maximumQueue) && queueItems <= maximumQueue
      modifies this`queueItems, this`quality, reader
      ensures queueItems <= maximumQueue
      ensures var level := step(index, old(Now()));
        if level.Failed? then r == Bad(level.error) else r == Field(level.value, {}) && Now() == level.progress
    {
      assert StepIs(step, body, layout, list, maximumQueue, index, Now());
      var at := ItemAt(list, index);
      var fields := LevelFields(body, layout, at);
      if fields.Bad? {
        return Bad(fields.error);
      }
      quality := quality + fields.quality;
      var queue := reader.List(body, at + 20, layout.queueItem, layout.fixed, maximumQueue);
      if queue.Rejected? {
        return Bad(queue.error);
      }
      if queue.value.count > fields.value.orderCount {
        return Bad(CountMismatch);
      }
      var remaining: nat := maximumQueue - queueItems;
      if queue.value.count > remaining {
        return Bad(CountExceeded);
      }
      queueItems := queueItems + queue.value.count;
      var error := ScanQueue(queue.value, QueueStep(body, layout, queue.value));
      return if error.Some? then Bad(error.value) else Field(fields.value, {});
    }

    method Levels(list: ListView, ghost step: Step) returns (r: Field<seq<Level>>)
      requires Steps(step, body, layout, list, maximumQueue) && queueItems <= maximumQueue
      modifies this`queueItems, this`quality, reader
      ensures queueItems <= maximumQueue
      ensures var levels := DecodeLevels(step, list.count, old(Now()));
        if levels.Failed? then r == Bad(levels.error) else r == Field(levels.value, {}) && Now() == levels.progress
    {
      ghost var start := Now();
      var retained: seq<Level> := [];
      var index := 0;
      while index < list.count
        invariant 0 <= index <= list.count && queueItems <= maximumQueue
        invariant DecodeLevels(step, index, start) == Done(retained, Now())
      {
        var level := ValidateAndDecodeLevel(list, index, step);
        if level.Bad? {
          LevelsStayFailed(step, index + 1, list.count, start);
          return Bad(level.error);
        }
        if index < BOOK_DEPTH {
          retained := retained + [level.value];
        }
        index := index + 1;
      }
      return Field(retained, {});
    }

    method LevelsOf(list: ListView) returns (r: Field<seq<Level>>)
      requires ValidLayout(layout) && queueItems <= maximumQueue
      modifies this`queueItems, this`quality, reader
      ensures queueItems <= maximumQueue
      ensures var levels := DecodeLevels(LevelStep(body, layout, list, maximumQueue), list.count, old(Now()));
        if levels.Failed? then r == Bad(levels.error) else r == Field(levels.value, {}) && Now() == levels.progress
    {
      ghost var step := LevelStep(body, layout, list, maximumQueue);
      forall i: nat, p: Progress ensures StepIs(step, body, layout, list, maximumQueue, i, p) {
      }
      r := Levels(list, step);
    }

    method Decode(maximumDepth: nat) returns (r: Field<Book>)
      requires ValidLayout(layout) && queueItems == 0
      modifies this`queueItems, this`quality, reader
      ensures var book := DecodeBook(body, layout, maximumDepth, maximumQueue, old(reader.guard), old(quality));
        if book.Failed? then r == Bad(book.error) else r == Field(book.value, {}) && Now() == book.progress
    {
      var bids := reader.List(body, layout.bidsAt, LEVEL_BYTES, layout.fixed, maximumDepth);
      if bids.Rejected? {
        return Bad(bids.error);
      }
      var asks := reader.List(body, layout.asksAt, LEVEL_BYTES, layout.fixed, maximumDepth);
      if asks.Rejected? {
        return Bad(asks.error);
      }
      quality := quality +
        if bids.value.count > BOOK_DEPTH || asks.value.count > BOOK_DEPTH then {DepthTruncated} else {};
      var bid := LevelsOf(bids.value);
      if bid.Bad? {
        return Bad(bid.error);
      }
      var ask := LevelsOf(asks.value);
      if ask.Bad? {
        return Bad(ask.error);
      }
      return Field(Book(bid.value, ask.value, bids.value.count, asks.value.count), {});
    }
  }

  lemma {:induction false} FlagsStayBad(item: ItemStep, n: nat, m: nat)
    requires n <= m && QueueFlags(item, n).Bad?
    ensures QueueFlags(item, m) == QueueFlags(item, n)
  {
    if n < m { FlagsStayBad(item, n, m - 1); }
  }

  lemma {:induction false} LevelsStayFailed(step: Step, n: nat, m: nat, p: Progress)
    requires n <= m && DecodeLevels(step, n, p).Failed?
    ensures DecodeLevels(step, m, p) == DecodeLevels(step, n, p)
  {
    if n < m { LevelsStayFailed(step, n, m - 1, p); }
  }

  // ---- what the discipline gives -----------------------------------------------------

  lemma LoadInBounds(body: seq<byte>, at: nat, width: nat)
    requires at + width <= |body|
    ensures Load(body, at, width).Some? && Load(body, at, width).value < Power(width)
  {
    BytesOfValue(body, at, width);
  }

  lemma CountInBounds(body: seq<byte>, at: nat)
    requires at + 4 <= |body|
    ensures Load(body, at, 4).Some?
  {
    LoadInBounds(body, at, 4);
  }

  lemma QuantityInBounds(body: seq<byte>, at: nat, scale: nat, nullable: bool)
    requires at + 8 <= |body|
    ensures DecodeQuantity(body, at, scale, nullable).Field?
  {
    LoadInBounds(body, at, 8);
  }

  /** The prices of levels never overflow: 32 bits times a thousand, or 64 bits as they are. */
  lemma PriceInBounds(body: seq<byte>, at: nat, l: Layout)
    requires ValidLayout(l) && at + l.priceWidth <= |body|
    ensures DecodePrice(body, at, l.priceWidth, l.priceScale).Field?
  {
    LoadInBounds(body, at, l.priceWidth);
    assert Power(4) == 0x1_0000_0000 && Power(8) == 0x1_0000_0000_0000_0000;
    var raw := LoadDecimalRaw(body, at, l.priceWidth, l.priceScale);
    if raw.value.rawValid {
      NormalizeExact(raw.value);
      assert Pow10(0) == 1 && Pow10(3) == 1_000;
    }
  }

  lemma FieldsInBounds(body: seq<byte>, l: Layout, at: nat)
    requires ValidLayout(l) && at + LEVEL_BYTES <= |body|
    ensures LevelFields(body, l, at).Field?
  {
    PriceInBounds(body, at + l.priceAt, l);
    QuantityInBounds(body, at + l.quantityAt, l.quantityScale, l.nullable);
    LoadInBounds(body, at + 16, 4);
  }

  lemma ItemInBounds(list: ListView, i: nat, size: nat)
    requires i < list.count && list.start + list.count * list.itemSize <= size
    ensures ItemAt(list, i) + list.itemSize <= size
  {
    ProductGrows(i + 1, list.count, list.itemSize);
    assert (i + 1) * list.itemSize == i * list.itemSize + list.itemSize;
  }

  lemma QueueItemInBounds(body: seq<byte>, l: Layout, queue: ListView, i: nat)
    requires ValidLayout(l) && queue.itemSize == l.queueItem && i < queue.count
    requires queue.start + queue.count * queue.itemSize <= |body|
    ensures QueueStep(body, l, queue)(i).Field?
  {
    ItemInBounds(queue, i, |body|);
    QuantityInBounds(body, ItemAt(queue, i) + l.queueQuantityAt, l.quantityScale, l.nullable);
  }

  lemma {:induction false} QueueInBounds(body: seq<byte>, l: Layout, queue: ListView, n: nat)
    requires ValidLayout(l) && queue.itemSize == l.queueItem && n <= queue.count
    requires queue.start + queue.count * queue.itemSize <= |body|
    ensures QueueFlags(QueueStep(body, l, queue), n).Field?
  {
    if n > 0 {
      QueueInBounds(body, l, queue, n - 1);
      QueueItemInBounds(body, l, queue, n - 1);
    }
  }

  /** A failure that the counts and ranges in the body explain; no load ever fails. */
  predicate Declared(e: DecodeError) {
    e == InvalidOffset || e == RangeOverlap || e == CountExceeded || e == CountMismatch
  }

  predicate Orderly(p: Progress, l: Layout, size: nat, maximumQueue: nat) {
    p.guard.on && Disciplined(p.guard.ranges, l.fixed, size) && p.queueItems <= maximumQueue
  }

  lemma ListInBounds(g: Guard, body: seq<byte>, at: nat, itemSize: nat, l: Layout, maximum: nat)
    requires itemSize > 0 && l.fixed <= |body| && at + 8 <= |body|
    ensures var r := ReadList(g, body, at, itemSize, l.fixed, maximum); r.Rejected? ==> Declared(r.error)
  {
    CountInBounds(body, at);
    CountInBounds(body, at + 4);
  }

  /** What the nested queue of a level does to the progress. */
  lemma QueueOrderly(body: seq<byte>, l: Layout, at: nat, maximumQueue: nat, p: Progress)
    requires ValidLayout(l) && l.fixed <= |body| && at + LEVEL_BYTES <= |body| && Orderly(p, l, |body|, maximumQueue)
    ensures var queue := ReadList(p.guard, body, at + 20, l.queueItem, l.fixed, maximumQueue);
      if queue.Rejected? then Declared(queue.error)
      else
        && queue.guard.on && Disciplined(queue.guard.ranges, l.fixed, |body|)
        && QueueFlags(QueueStep(body, l, queue.value), queue.value.count).Field?
  {
    ListInBounds(p.guard, body, at + 20, l.queueItem, l, maximumQueue);
    ListDisciplined(p.guard, body, at + 20, l.queueItem, l.fixed, maximumQueue);
    var queue := ReadList(p.guard, body, at + 20, l.queueItem, l.fixed, maximumQueue);
    if queue.Accepted? && queue.value.count > 0 {
      QueueInBounds(body, l, queue.value, queue.value.count);
    }
  }

  lemma LevelOrderly(body: seq<byte>, l: Layout, at: nat, maximumQueue: nat, p: Progress)
    requires ValidLayout(l) && l.fixed <= |body| && at + LEVEL_BYTES <= |body| && Orderly(p, l, |body|, maximumQueue)
    ensures var r := DecodeLevel(body, l, at, maximumQueue, p);
      if r.Failed? then Declared(r.error)
      else
        && Orderly(r.progress, l, |body|, maximumQueue)
        && Field(r.value, LevelFields(body, l, at).quality) == LevelFields(body, l, at)
  {
    FieldsInBounds(body, l, at);
    QueueOrderly(body, l, at, maximumQueue, p);
  }

  /** A level decoded from its own bytes. */
  predicate LevelIs(body: seq<byte>, l: Layout, list: ListView, i: nat, level: Level)
    requires ValidLayout(l)
  {
    var f := LevelFields(body, l, ItemAt(list, i)); f.Field? && f.value == level
  }

  /** Step i, from orderly progress, fails as declared or stays orderly and yields a level
      that `ok` accepts. */
  ghost predicate StepOrderly(
    step: Step, ok: (nat, Level) -> bool, l: Layout, size: nat, maximumQueue: nat, count: nat, i: nat, p: Progress)
  {
    i < count && Orderly(p, l, size, maximumQueue) ==>
      var r := step(i, p);
      if r.Failed? then Declared(r.error) else Orderly(r.progress, l, size, maximumQueue) && ok(i, r.value)
  }

  lemma {:induction false} LevelsOrderly(
    step: Step, ok: (nat, Level) -> bool, l: Layout, size: nat, maximumQueue: nat, count: nat, n: nat, p: Progress)
    requires forall i, q :: StepOrderly(step, ok, l, size, maximumQueue, count, i, q)
    requires n <= count && Orderly(p, l, size, maximumQueue)
    ensures var r := DecodeLevels(step, n, p);
      if r.Failed? then Declared(r.error)
      else
        && Orderly(r.progress, l, size, maximumQueue)
        && |r.value| == (if n < BOOK_DEPTH then n else BOOK_DEPTH)
        && forall i :: 0 <= i < |r.value| ==> ok(i, r.value[i])
  {
    if n > 0 {
      LevelsOrderly(step, ok, l, size, maximumQueue, count, n - 1, p);
      var before := DecodeLevels(step, n - 1, p);
      if before.Done? {
        assert StepOrderly(step, ok, l, size, maximumQueue, count, n - 1, before.progress);
      }
    }
  }

  /** The retained levels are the first ones of the list, decoded from their own bytes. */
  predicate Retained(body: seq<byte>, l: Layout, list: ListView, levels: seq<Level>)
    requires ValidLayout(l)
  {
    && |levels| == (if list.count < BOOK_DEPTH then list.count else BOOK_DEPTH)
    && forall i :: 0 <= i < |levels| ==> LevelIs(body, l, list, i, levels[i])
  }

  predicate Inside(list: ListView, size: nat) {
    list.itemSize == LEVEL_BYTES && (list.count > 0 ==> list.start + list.count * list.itemSize <= size)
  }

  lemma ListLevelsOrderly(body: seq<byte>, l: Layout, list: ListView, maximumQueue: nat, p: Progress)
    requires ValidLayout(l) && l.fixed <= |body| && Inside(list, |body|) && Orderly(p, l, |body|, maximumQueue)
    ensures var r := DecodeLevels(LevelStep(body, l, list, maximumQueue), list.count, p);
      if r.Failed? then Declared(r.error)
      else Orderly(r.progress, l, |body|, maximumQueue) && Retained(body, l, list, r.value)
  {
    var step := LevelStep(body, l, list, maximumQueue);
    var ok := (i: nat, level: Level) => LevelIs(body, l, list, i, level);
    forall i: nat, q: Progress ensures StepOrderly(step, ok, l, |body|, maximumQueue, list.count, i, q) {
      if i < list.count && Orderly(q, l, |body|, maximumQueue) {
        ItemInBounds(list, i, |body|);
        LevelOrderly(body, l, ItemAt(list, i), maximumQueue, q);
      }
    }
    LevelsOrderly(step, ok, l, |body|, maximumQueue, list.count, list.count, p);
  }

  lemma BookListOrderly(g: Guard, body: seq<byte>, at: nat, l: Layout, maximum: nat)
    requires l.fixed <= |body| && at + 8 <= |body| && g.on && Disciplined(g.ranges, l.fixed, |body|)
    ensures var r := ReadList(g, body, at, LEVEL_BYTES, l.fixed, maximum);
      if r.Rejected? then Declared(r.error)
      else
        && Inside(r.value, |body|) && r.value.count <= maximum
        && r.guard.on && Disciplined(r.guard.ranges, l.fixed, |body|)
  {
    ListInBounds(g, body, at, LEVEL_BYTES, l, maximum);
    ListDisciplined(g, body, at, LEVEL_BYTES, l.fixed, maximum);
  }

  /** Decoding a book of a body that holds its fixed part: every load is in bounds, so the
      only failures are those that counts and ranges declare; when it succeeds, all ranges
      of the decode are disjoint, behind the fixed part and together no longer than the
      rest of the body, the queue items are within their limit, and the retained levels
      are the first ones of each list. */
  lemma BookOrderly(
    body: seq<byte>, l: Layout, maximumDepth: nat, maximumQueue: nat, g: Guard, quality: set<Quality>)
    requires ValidLayout(l) && l.fixed <= |body|
    requires g.on && Disciplined(g.ranges, l.fixed, |body|)
    ensures var r := DecodeBook(body, l, maximumDepth, maximumQueue, g, quality);
      if r.Failed? then Declared(r.error)
      else
        var bids := ReadList(g, body, l.bidsAt, LEVEL_BYTES, l.fixed, maximumDepth);
        bids.Accepted? &&
        var asks := ReadList(bids.guard, body, l.asksAt, LEVEL_BYTES, l.fixed, maximumDepth);
        && asks.Accepted?
        && Disciplined(r.progress.guard.ranges, l.fixed, |body|)
        && 0 <= Total(r.progress.guard.ranges) <= |body| - l.fixed
        && r.progress.queueItems <= maximumQueue
        && Retained(body, l, bids.value, r.value.bids) && Retained(body, l, asks.value, r.value.asks)
  {
    BookListOrderly(g, body, l.bidsAt, l, maximumDepth);
    var bids := ReadList(g, body, l.bidsAt, LEVEL_BYTES, l.fixed, maximumDepth);
    if bids.Accepted? {
      BookListOrderly(bids.guard, body, l.asksAt, l, maximumDepth);
      var asks := ReadList(bids.guard, body, l.asksAt, LEVEL_BYTES, l.fixed, maximumDepth);
      if asks.Accepted? {
        var cut := if bids.value.count > BOOK_DEPTH || asks.value.count > BOOK_DEPTH then {DepthTruncated} else {};
        var start := Progress(asks.guard, 0, quality + cut);
        ListLevelsOrderly(body, l, bids.value, maximumQueue, start);
        var bid := DecodeLevels(LevelStep(body, l, bids.value, maximumQueue), bids.value.count, start);
        if bid.Done? {
          ListLevelsOrderly(body, l, asks.value, maximumQueue, bid.progress);
          var ask := DecodeLevels(LevelStep(body, l, asks.value, maximumQueue), asks.value.count, bid.progress);
          if ask.Done? {
            TotalBounded(ask.progress.guard.ranges, l.fixed, |body|);
          }
        }
      }
    }
  }
}
