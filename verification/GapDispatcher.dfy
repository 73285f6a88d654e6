/** Publishing gaps and polling for them, call by call: per-channel mailboxes, words of
    dirty bits, and the consumer's leftover bits. GapMailbox and GapNotification show that
    the steps inside the calls may interleave freely; here each call runs by itself, which
    mailboxes a publication under way keeps busy being a parameter of a poll, and GapQuiet
    carries what is proved about polls over to the interleavings. */
module GapDispatcher {
  import opened Canonical
  import opened Remainders
  import opened ProbeTable

  const WORD_BITS := 64

  /** A mailbox at rest: the generations published and delivered, and the newest gap. */
  datatype Mailbox = Mailbox(generation: nat, gap: Gap, delivered: nat)

  datatype Shape = Shape(producers: nat, channels: nat)

  predicate ValidShape(sh: Shape) {
    sh.producers > 0 && sh.channels > 0
  }

  function WordsPer(sh: Shape): (n: nat)
    requires ValidShape(sh)
    ensures n > 0 && (sh.channels - 1) / WORD_BITS < n
  {
    (sh.channels + WORD_BITS - 1) / WORD_BITS
  }

  function SlotOf(sh: Shape, producer: nat, channel: nat): nat {
    producer * sh.channels + channel
  }

  function WordOf(sh: Shape, producer: nat, channel: nat): nat
    requires ValidShape(sh)
  {
    producer * WordsPer(sh) + channel / WORD_BITS
  }

  function ProducerOf(sh: Shape, word: nat): nat
    requires ValidShape(sh)
  {
    word / WordsPer(sh)
  }

  function ChannelOf(sh: Shape, word: nat, bit: nat): nat
    requires ValidShape(sh)
  {
    word % WordsPer(sh) * WORD_BITS + bit
  }

  /** A channel's word and bit lead back to the channel. */
  lemma BitLeadsBack(sh: Shape, producer: nat, channel: nat)
    requires ValidShape(sh) && producer < sh.producers && channel < sh.channels
    ensures WordOf(sh, producer, channel) < sh.producers * WordsPer(sh)
    ensures ProducerOf(sh, WordOf(sh, producer, channel)) == producer
    ensures ChannelOf(sh, WordOf(sh, producer, channel), channel % WORD_BITS) == channel
  {
    Decompose(WordOf(sh, producer, channel), WordsPer(sh), producer, channel / WORD_BITS);
    ProductGrows(producer + 1, sh.producers, WordsPer(sh));
    assert (producer + 1) * WordsPer(sh) == producer * WordsPer(sh) + WordsPer(sh);
  }

  lemma WordHasProducer(sh: Shape, word: nat)
    requires ValidShape(sh) && word < sh.producers * WordsPer(sh)
    ensures ProducerOf(sh, word) < sh.producers
  {
    Recompose(word, WordsPer(sh));
    if ProducerOf(sh, word) >= sh.producers {
      ProductGrows(sh.producers, ProducerOf(sh, word), WordsPer(sh));
    }
  }

  lemma SlotInBounds(sh: Shape, producer: nat, channel: nat)
    requires producer < sh.producers && channel < sh.channels
    ensures SlotOf(sh, producer, channel) < sh.producers * sh.channels
  {
    ProductGrows(producer + 1, sh.producers, sh.channels);
    assert (producer + 1) * sh.channels == producer * sh.channels + sh.channels;
  }

  lemma SlotsDiffer(sh: Shape, p: nat, c: nat, q: nat, d: nat)
    requires c < sh.channels && d < sh.channels && SlotOf(sh, p, c) == SlotOf(sh, q, d)
    ensures p == q && c == d
  {
    Decompose(SlotOf(sh, p, c), sh.channels, p, c);
    Decompose(SlotOf(sh, q, d), sh.channels, q, d);
  }

  // ---- the shared state as a value ---------------------------------------------------

  datatype Board = Board(mail: seq<Mailbox>, dirty: seq<set<nat>>, pending: seq<set<nat>>)

  predicate Shaped(sh: Shape, b: Board) {
    && ValidShape(sh)
    && |b.mail| == sh.producers * sh.channels
    && |b.dirty| == |b.pending| == sh.producers * WordsPer(sh)
  }

  const UNUSED := Mailbox(0, Gap(UnknownMarket, 0, 0, 0, 0, 0, 0, 0), 0)

  /** What a dispatcher starts with. */
  function Initial(sh: Shape): (b: Board)
    requires ValidShape(sh)
    ensures Shaped(sh, b)
  {
    var words := sh.producers * WordsPer(sh);
    Board(seq(sh.producers * sh.channels, _ => UNUSED), seq(words, _ => {}), seq(words, _ => {}))
  }

  predicate Fresh(m: Mailbox) { m.generation != m.delivered }

  /** The channel has a gap that was not delivered yet. */
  predicate Undelivered(sh: Shape, b: Board, p: nat, c: nat)
    requires Shaped(sh, b)
  {
    p < sh.producers && c < sh.channels && SlotOf(sh, p, c) < |b.mail| && Fresh(b.mail[SlotOf(sh, p, c)])
  }

  predicate Noticed(sh: Shape, b: Board, p: nat, c: nat)
    requires Shaped(sh, b) && p < sh.producers && c < sh.channels
  {
    BitLeadsBack(sh, p, c);
    var w := WordOf(sh, p, c);
    c % WORD_BITS in b.dirty[w] || c % WORD_BITS in b.pending[w]
  }

  /** An undelivered gap has its bit in its dirty or its leftover word. */
  predicate NothingLost(sh: Shape, b: Board)
    requires Shaped(sh, b)
  {
    forall p, c :: 0 <= p < sh.producers && 0 <= c < sh.channels && Undelivered(sh, b, p, c) ==> Noticed(sh, b, p, c)
  }

  predicate AllDelivered(sh: Shape, b: Board)
    requires Shaped(sh, b)
  {
    forall p, c :: 0 <= p < sh.producers && 0 <= c < sh.channels ==> !Undelivered(sh, b, p, c)
  }

  /** The bits a poll looks at in a word: leftovers first, fresh bits only without any. */
  function Candidates(b: Board, w: nat): set<nat>
    requires w < |b.dirty| == |b.pending|
  {
    if b.pending[w] == {} then b.dirty[w] else b.pending[w]
  }

  /** This bit names a channel with an undelivered gap. */
  predicate News(sh: Shape, b: Board, w: nat, bit: nat)
    requires Shaped(sh, b)
  {
    Undelivered(sh, b, ProducerOf(sh, w), ChannelOf(sh, w, bit))
  }

  /** What is left of a word's dirty bits once the poll has looked at it. */
  function DirtyAfter(b: Board, w: nat): set<nat>
    requires w < |b.dirty| == |b.pending|
  {
    if b.pending[w] == {} then {} else b.dirty[w]
  }

  /** The poll has gone through word w and found nothing. */
  predicate Swept(sh: Shape, b: Board, r: Board, w: nat)
    requires Shaped(sh, b) && Shaped(sh, r) && w < |b.dirty|
  {
    && (forall bit :: bit in Candidates(b, w) ==> !News(sh, b, w, bit))
    && r.pending[w] == {} && r.dirty[w] == DirtyAfter(b, w)
  }

  /** The outcome of a poll that returns false. */
  predicate PolledNothing(sh: Shape, b: Board, r: Board)
    requires Shaped(sh, b) && Shaped(sh, r)
  {
    r.mail == b.mail && forall w :: 0 <= w < |b.dirty| ==> Swept(sh, b, r, w)
  }

  lemma PolledNothingKeeps(sh: Shape, b: Board, r: Board)
    requires Shaped(sh, b) && Shaped(sh, r) && NothingLost(sh, b) && PolledNothing(sh, b, r)
    ensures NothingLost(sh, r)
  {
    forall p, c | 0 <= p < sh.producers && 0 <= c < sh.channels && Undelivered(sh, r, p, c)
      ensures Noticed(sh, r, p, c)
    {
      var w := WordOf(sh, p, c);
      BitLeadsBack(sh, p, c);
      assert Undelivered(sh, b, p, c) && Noticed(sh, b, p, c) && Swept(sh, b, r, w);
      assert News(sh, b, w, c % WORD_BITS);
    }
  }

  /** With the producers at rest, two polls in a row that return false mean that every
      gap was delivered. */
  lemma TwoQuietPolls(sh: Shape, b: Board, r: Board, t: Board)
    requires Shaped(sh, b) && Shaped(sh, r) && Shaped(sh, t) && NothingLost(sh, b)
    requires PolledNothing(sh, b, r) && PolledNothing(sh, r, t)
    ensures AllDelivered(sh, b) && AllDelivered(sh, t)
  {
    PolledNothingKeeps(sh, b, r);
    PolledNothingKeeps(sh, r, t);
    forall p, c | 0 <= p < sh.producers && 0 <= c < sh.channels ensures !Undelivered(sh, t, p, c) {
      BitLeadsBack(sh, p, c);
      assert Swept(sh, b, r, WordOf(sh, p, c)) && Swept(sh, r, t, WordOf(sh, p, c));
      assert !Noticed(sh, t, p, c);
    }
    forall p, c | 0 <= p < sh.producers && 0 <= c < sh.channels ensures !Undelivered(sh, b, p, c) {
      assert !Undelivered(sh, t, p, c);
    }
  }

  /** A word whose leftovers hide a fresh bit for an undelivered gap. */
  predicate Hides(sh: Shape, b: Board, w: nat)
    requires Shaped(sh, b) && w < |b.dirty|
  {
    b.pending[w] != {} && exists bit :: bit in b.dirty[w] && News(sh, b, w, bit)
  }

  /** One poll that returns false is enough exactly when no leftovers hid anything. */
  lemma OneQuietPoll(sh: Shape, b: Board, r: Board)
    requires Shaped(sh, b) && Shaped(sh, r) && NothingLost(sh, b) && PolledNothing(sh, b, r)
    ensures AllDelivered(sh, r) <==> forall w :: 0 <= w < |b.dirty| ==> !Hides(sh, b, w)
  {
    if AllDelivered(sh, r) {
      forall w | 0 <= w < |b.dirty| ensures !Hides(sh, b, w) {
        forall bit | bit in b.dirty[w] ensures !News(sh, b, w, bit) {
          assert News(sh, b, w, bit) == News(sh, r, w, bit);
        }
      }
    } else {
      var p, c :| 0 <= p < sh.producers && 0 <= c < sh.channels && Undelivered(sh, r, p, c);
      var w := WordOf(sh, p, c);
      BitLeadsBack(sh, p, c);
      assert Undelivered(sh, b, p, c) && Noticed(sh, b, p, c) && Swept(sh, b, r, w);
      assert News(sh, b, w, c % WORD_BITS);
      assert Hides(sh, b, w);
    }
  }

  // ---- the calls ---------------------------------------------------------------------

  /** The board after gap number g.epoch of a channel was published and its bit set. */
  function Publish(sh: Shape, b: Board, p: nat, c: nat, gap: Gap): (r: Board)
    requires Shaped(sh, b) && p < sh.producers && c < sh.channels
    ensures Shaped(sh, r)
  {
    SlotInBounds(sh, p, c);
    BitLeadsBack(sh, p, c);
    var m, w := b.mail[SlotOf(sh, p, c)], WordOf(sh, p, c);
    b.(mail := b.mail[SlotOf(sh, p, c) := Mailbox(m.generation + 1, gap, m.delivered)],
       dirty := b.dirty[w := b.dirty[w] + {c % WORD_BITS}])
  }

  lemma PublishKeeps(sh: Shape, b: Board, p: nat, c: nat, gap: Gap)
    requires Shaped(sh, b) && NothingLost(sh, b) && p < sh.producers && c < sh.channels
    ensures NothingLost(sh, Publish(sh, b, p, c, gap))
  {
    var r := Publish(sh, b, p, c, gap);
    SlotInBounds(sh, p, c);
    BitLeadsBack(sh, p, c);
    forall q, d | 0 <= q < sh.producers && 0 <= d < sh.channels && Undelivered(sh, r, q, d)
      ensures Noticed(sh, r, q, d)
    {
      SlotInBounds(sh, q, d);
      BitLeadsBack(sh, q, d);
      if q != p || d != c {
        if SlotOf(sh, q, d) == SlotOf(sh, p, c) { SlotsDiffer(sh, p, c, q, d); }
        assert Undelivered(sh, b, q, d) && Noticed(sh, b, q, d);
      }
    }
  }

  /** Bit `bit` of word w delivered its channel's newest gap; lower candidates had no news. */
  predicate Delivers(sh: Shape, b: Board, r: Board, w: nat, bit: nat)
    requires Shaped(sh, b) && Shaped(sh, r) && w < |b.dirty|
  {
    && bit in Candidates(b, w) && News(sh, b, w, bit)
    && (forall lower :: lower in Candidates(b, w) && lower < bit ==> !News(sh, b, w, lower))
    && r.pending[w] == (set k | k in Candidates(b, w) && k > bit)
    && r.dirty[w] == DirtyAfter(b, w)
    && var slot := SlotOf(sh, ProducerOf(sh, w), ChannelOf(sh, w, bit));
       r.mail == b.mail[slot := b.mail[slot].(delivered := b.mail[slot].generation)]
  }

  datatype SnapshotResult = Ready | NoChange | Busy

  /** A publication under way keeps the snapshot of this bit's mailbox busy. */
  predicate BusyAt(sh: Shape, busy: set<nat>, w: nat, bit: nat)
    requires ValidShape(sh)
  {
    ChannelOf(sh, w, bit) < sh.channels && SlotOf(sh, ProducerOf(sh, w), ChannelOf(sh, w, bit)) in busy
  }

  /** None of the word's candidates below `end` is busy. */
  predicate CalmBelow(sh: Shape, b: Board, busy: set<nat>, w: nat, end: nat)
    requires Shaped(sh, b) && w < |b.dirty|
  {
    forall bit :: bit in Candidates(b, w) && bit < end ==> !BusyAt(sh, busy, w, bit)
  }

  /** None of them is. */
  predicate Calm(sh: Shape, b: Board, busy: set<nat>, w: nat)
    requires Shaped(sh, b) && w < |b.dirty|
  {
    forall bit :: bit in Candidates(b, w) ==> !BusyAt(sh, busy, w, bit)
  }

  /** The snapshot of bit `bit` of word w was busy and the bit was put back; lower candidates
      had no news. */
  predicate GivesUp(sh: Shape, b: Board, r: Board, w: nat, bit: nat)
    requires Shaped(sh, b) && Shaped(sh, r) && w < |b.dirty|
  {
    && bit in Candidates(b, w)
    && (forall lower :: lower in Candidates(b, w) && lower < bit ==> !News(sh, b, w, lower))
    && r.pending[w] == (set k | k in Candidates(b, w) && k >= bit)
    && r.dirty[w] == DirtyAfter(b, w)
    && r.mail == b.mail
  }

  /** What a poll does in one word, by how it ends there. */
  predicate WordPolled(sh: Shape, b: Board, r: Board, busy: set<nat>, w: nat, result: SnapshotResult, bit: nat)
    requires Shaped(sh, b) && Shaped(sh, r) && w < |b.dirty|
  {
    match result
    case NoChange => r.mail == b.mail && Swept(sh, b, r, w) && Calm(sh, b, busy, w)
    case Ready => Delivers(sh, b, r, w, bit) && !BusyAt(sh, busy, w, bit) && CalmBelow(sh, b, busy, w, bit)
    case Busy => GivesUp(sh, b, r, w, bit) && BusyAt(sh, busy, w, bit) && CalmBelow(sh, b, busy, w, bit)
  }

  /** Looking at one word loses nothing, however it ends. */
  lemma WordKeeps(sh: Shape, b: Board, r: Board, busy: set<nat>, w: nat, result: SnapshotResult, bit: nat)
    requires Shaped(sh, b) && Shaped(sh, r) && NothingLost(sh, b) && w < |b.dirty|
    requires forall v :: 0 <= v < |b.dirty| && v != w ==> r.dirty[v] == b.dirty[v] && r.pending[v] == b.pending[v]
    requires WordPolled(sh, b, r, busy, w, result, bit)
    ensures NothingLost(sh, r)
  {
    forall p, c | 0 <= p < sh.producers && 0 <= c < sh.channels && Undelivered(sh, r, p, c)
      ensures Noticed(sh, r, p, c)
    {
      BitLeadsBack(sh, p, c);
      assert Undelivered(sh, b, p, c) && Noticed(sh, b, p, c);
      if WordOf(sh, p, c) == w && c % WORD_BITS in Candidates(b, w) {
        assert News(sh, b, w, c % WORD_BITS);
      }
    }
  }

  /** The board when the poll of word w has `left` of its candidates still to look at. */
  function Looking(b: Board, w: nat, left: set<nat>): Board
    requires w < |b.dirty| == |b.pending|
  {
    b.(dirty := b.dirty[w := DirtyAfter(b, w)], pending := b.pending[w := left])
  }

  /** The candidates looked at so far are the lowest ones, had no news, and were not busy. */
  predicate Looked(sh: Shape, b: Board, busy: set<nat>, w: nat, left: set<nat>)
    requires Shaped(sh, b) && w < |b.dirty|
  {
    && left <= Candidates(b, w)
    && (forall k :: k in Candidates(b, w) && k !in left ==> !News(sh, b, w, k) && !BusyAt(sh, busy, w, k))
    && (forall k, l :: k in Candidates(b, w) && k !in left && l in left ==> k < l)
  }

  /** The board after this bit delivered. */
  function Delivered(sh: Shape, b: Board, w: nat, bit: nat, left: set<nat>): Board
    requires Shaped(sh, b) && w < |b.dirty| && News(sh, b, w, bit)
  {
    var slot := SlotOf(sh, ProducerOf(sh, w), ChannelOf(sh, w, bit));
    Looking(b, w, left).(mail := b.mail[slot := b.mail[slot].(delivered := b.mail[slot].generation)])
  }

  lemma LooksOn(sh: Shape, b: Board, busy: set<nat>, w: nat, left: set<nat>, next: nat)
    requires Shaped(sh, b) && w < |b.dirty| && Looked(sh, b, busy, w, left)
    requires next in left && (forall k :: k in left ==> next <= k)
    ensures CalmBelow(sh, b, busy, w, next)
    ensures BusyAt(sh, busy, w, next) ==> GivesUp(sh, b, Looking(b, w, left), w, next)
    ensures !BusyAt(sh, busy, w, next) && !News(sh, b, w, next) ==> Looked(sh, b, busy, w, left - {next})
    ensures News(sh, b, w, next) ==> Delivers(sh, b, Delivered(sh, b, w, next, left - {next}), w, next)
  {
    assert left == (set k | k in Candidates(b, w) && k >= next);
    assert left - {next} == (set k | k in Candidates(b, w) && k > next);
  }

  /** One more bit of the word: the poll goes on, or it is decided how it ends there. */
  lemma WordAdvances(
    sh: Shape, b: Board, busy: set<nat>, w: nat, left: set<nat>, next: nat, result: SnapshotResult, r: Board)
    requires Shaped(sh, b) && Shaped(sh, r) && w < |b.dirty| && Looked(sh, b, busy, w, left)
    requires next in left && (forall k :: k in left ==> next <= k)
    requires result == Busy ==> BusyAt(sh, busy, w, next) && r == Looking(b, w, left)
    requires result == NoChange ==>
      !BusyAt(sh, busy, w, next) && !News(sh, b, w, next) && r == Looking(b, w, left - {next})
    requires result == Ready ==>
      !BusyAt(sh, busy, w, next) && News(sh, b, w, next) && r == Delivered(sh, b, w, next, left - {next})
    ensures result == NoChange ==> Looked(sh, b, busy, w, left - {next})
    ensures result != NoChange ==> WordPolled(sh, b, r, busy, w, result, next)
  {
    LooksOn(sh, b, busy, w, left, next);
  }

  /** After `count` words from the cursor on: those are swept, the others untouched. */
  predicate Reached(sh: Shape, b: Board, r: Board, cursor: nat, count: nat, w: nat)
    requires Shaped(sh, b) && Shaped(sh, r) && cursor < |b.dirty| && w < |b.dirty|
  {
    if Distance(cursor, w, |b.dirty|) < count then Swept(sh, b, r, w)
    else r.dirty[w] == b.dirty[w] && r.pending[w] == b.pending[w]
  }

  predicate Sweeping(sh: Shape, b: Board, r: Board, cursor: nat, count: nat)
    requires Shaped(sh, b) && Shaped(sh, r) && cursor < |b.dirty|
  {
    forall w :: 0 <= w < |b.dirty| ==> Reached(sh, b, r, cursor, count, w)
  }

  /** One more word without news. */
  lemma SweepsOn(sh: Shape, b: Board, r: Board, t: Board, cursor: nat, count: nat)
    requires Shaped(sh, b) && Shaped(sh, r) && Shaped(sh, t) && cursor < |b.dirty| && count < |b.dirty|
    requires r.mail == b.mail && Sweeping(sh, b, r, cursor, count)
    requires var w := Walk(cursor, count, |b.dirty|);
      && Swept(sh, r, t, w)
      && forall v :: 0 <= v < |b.dirty| && v != w ==> t.dirty[v] == r.dirty[v] && t.pending[v] == r.pending[v]
    ensures Sweeping(sh, b, t, cursor, count + 1)
  {
    var at := Walk(cursor, count, |b.dirty|);
    assert Reached(sh, b, r, cursor, count, at);
    var next := count + 1;
    forall w | 0 <= w < |b.dirty| ensures Reached(sh, b, t, cursor, next, w) {
      assert Reached(sh, b, r, cursor, count, w);
      if w == at {
        forall bit | bit in Candidates(b, w) ensures !News(sh, b, w, bit) {
          assert !News(sh, r, w, bit);
        }
      }
    }
  }

  /** The outcome of a poll that returns true: the first word from the cursor on that has
      news, and its lowest bit with news. */
  predicate PolledAt(sh: Shape, b: Board, r: Board, cursor: nat, word: nat, bit: nat)
    requires Shaped(sh, b) && Shaped(sh, r) && cursor < |b.dirty|
  {
    && word < |b.dirty|
    && Delivers(sh, b, r, word, bit)
    && (forall w :: 0 <= w < |b.dirty| && w != word ==> Reached(sh, b, r, cursor, Distance(cursor, word, |b.dirty|), w))
  }

  lemma DeliversThere(sh: Shape, b: Board, r: Board, t: Board, cursor: nat, count: nat, bit: nat)
    requires Shaped(sh, b) && Shaped(sh, r) && Shaped(sh, t) && cursor < |b.dirty| && count < |b.dirty|
    requires r.mail == b.mail && Sweeping(sh, b, r, cursor, count)
    requires var w := Walk(cursor, count, |b.dirty|);
      && Delivers(sh, r, t, w, bit)
      && forall v :: 0 <= v < |b.dirty| && v != w ==> t.dirty[v] == r.dirty[v] && t.pending[v] == r.pending[v]
    ensures PolledAt(sh, b, t, cursor, Walk(cursor, count, |b.dirty|), bit)
  {
    var at := Walk(cursor, count, |b.dirty|);
    assert Reached(sh, b, r, cursor, count, at);
    forall lower | lower in Candidates(b, at) && lower < bit ensures !News(sh, b, at, lower) {
      assert !News(sh, r, at, lower);
    }
    forall w | 0 <= w < |b.dirty| && w != at ensures Reached(sh, b, t, cursor, count, w) {
      assert Reached(sh, b, r, cursor, count, w);
    }
  }

  /** The outcome of a poll that a busy snapshot ended: the words before were swept. */
  predicate GaveUpAt(sh: Shape, b: Board, r: Board, cursor: nat, word: nat, bit: nat)
    requires Shaped(sh, b) && Shaped(sh, r) && cursor < |b.dirty|
  {
    && word < |b.dirty|
    && GivesUp(sh, b, r, word, bit)
    && forall w :: 0 <= w < |b.dirty| && w != word ==>
         Reached(sh, b, r, cursor, Distance(cursor, word, |b.dirty|), w)
  }

  lemma GivesUpThere(sh: Shape, b: Board, r: Board, t: Board, cursor: nat, count: nat, bit: nat)
    requires Shaped(sh, b) && Shaped(sh, r) && Shaped(sh, t) && cursor < |b.dirty| && count < |b.dirty|
    requires r.mail == b.mail && Sweeping(sh, b, r, cursor, count)
    requires var w := Walk(cursor, count, |b.dirty|);
      && GivesUp(sh, r, t, w, bit)
      && forall v :: 0 <= v < |b.dirty| && v != w ==> t.dirty[v] == r.dirty[v] && t.pending[v] == r.pending[v]
    ensures GaveUpAt(sh, b, t, cursor, Walk(cursor, count, |b.dirty|), bit)
  {
    var at := Walk(cursor, count, |b.dirty|);
    assert Reached(sh, b, r, cursor, count, at);
    forall lower | lower in Candidates(b, at) && lower < bit ensures !News(sh, b, at, lower) {
      assert !News(sh, r, at, lower);
    }
    forall w | 0 <= w < |b.dirty| && w != at ensures Reached(sh, b, t, cursor, count, w) {
      assert Reached(sh, b, r, cursor, count, w);
    }
  }

  /** A busy snapshot that ends a poll loses nothing either. */
  lemma GivingUpKeeps(sh: Shape, b: Board, r: Board, cursor: nat, word: nat, bit: nat)
    requires Shaped(sh, b) && Shaped(sh, r) && cursor < |b.dirty| && NothingLost(sh, b)
    requires GaveUpAt(sh, b, r, cursor, word, bit)
    ensures NothingLost(sh, r) && bit in r.pending[word]
  {
    forall p, c | 0 <= p < sh.producers && 0 <= c < sh.channels && Undelivered(sh, r, p, c)
      ensures Noticed(sh, r, p, c)
    {
      var w := WordOf(sh, p, c);
      BitLeadsBack(sh, p, c);
      assert Undelivered(sh, b, p, c) && Noticed(sh, b, p, c);
      assert w != word ==> Reached(sh, b, r, cursor, Distance(cursor, word, |b.dirty|), w);
      assert News(sh, b, w, c % WORD_BITS);
    }
  }

  predicate AllCalm(sh: Shape, b: Board, busy: set<nat>)
    requires Shaped(sh, b)
  {
    forall w :: 0 <= w < |b.dirty| ==> Calm(sh, b, busy, w)
  }

  predicate CalmAt(sh: Shape, b: Board, busy: set<nat>, cursor: nat, count: nat, w: nat)
    requires Shaped(sh, b) && cursor < |b.dirty| && w < |b.dirty|
  {
    Distance(cursor, w, |b.dirty|) < count ==> Calm(sh, b, busy, w)
  }

  /** No candidate of the first `count` words from the cursor on was busy. */
  predicate CalmSoFar(sh: Shape, b: Board, busy: set<nat>, cursor: nat, count: nat)
    requires Shaped(sh, b) && cursor < |b.dirty|
  {
    forall w :: 0 <= w < |b.dirty| ==> CalmAt(sh, b, busy, cursor, count, w)
  }

  /** Nor was one before bit `bit` of this word. */
  predicate CalmUpTo(sh: Shape, b: Board, busy: set<nat>, cursor: nat, word: nat, bit: nat)
    requires Shaped(sh, b) && cursor < |b.dirty| && word < |b.dirty|
  {
    CalmSoFar(sh, b, busy, cursor, Distance(cursor, word, |b.dirty|)) && CalmBelow(sh, b, busy, word, bit)
  }

  lemma CalmsOn(
    sh: Shape, b: Board, r: Board, t: Board, busy: set<nat>, cursor: nat, count: nat, result: SnapshotResult, bit: nat)
    requires Shaped(sh, b) && Shaped(sh, r) && Shaped(sh, t) && cursor < |b.dirty| && count < |b.dirty|
    requires Sweeping(sh, b, r, cursor, count) && CalmSoFar(sh, b, busy, cursor, count)
    requires WordPolled(sh, r, t, busy, Walk(cursor, count, |b.dirty|), result, bit)
    ensures result == NoChange ==> CalmSoFar(sh, b, busy, cursor, count + 1)
    ensures result != NoChange ==> CalmUpTo(sh, b, busy, cursor, Walk(cursor, count, |b.dirty|), bit)
  {
    var at := Walk(cursor, count, |b.dirty|);
    assert Reached(sh, b, r, cursor, count, at);
    if result == NoChange {
      var next := count + 1;
      forall w | 0 <= w < |b.dirty| ensures CalmAt(sh, b, busy, cursor, next, w) {
        assert CalmAt(sh, b, busy, cursor, count, w);
        if w == at {
          forall k | k in Candidates(b, w) ensures !BusyAt(sh, busy, w, k) {
            assert k in Candidates(r, w);
          }
        }
      }
    } else {
      forall k | k in Candidates(b, at) && k < bit ensures !BusyAt(sh, busy, at, k) {
        assert k in Candidates(r, at);
      }
    }
  }

  /** One more word of a poll: it goes on, or it is decided how the poll ends. */
  lemma PollAdvances(
    sh: Shape, b: Board, r: Board, t: Board, busy: set<nat>, cursor: nat, count: nat, result: SnapshotResult, bit: nat)
    requires Shaped(sh, b) && Shaped(sh, r) && Shaped(sh, t) && cursor < |b.dirty| && count < |b.dirty|
    requires r.mail == b.mail && Sweeping(sh, b, r, cursor, count) && CalmSoFar(sh, b, busy, cursor, count)
    requires var w := Walk(cursor, count, |b.dirty|);
      && WordPolled(sh, r, t, busy, w, result, bit)
      && forall v :: 0 <= v < |b.dirty| && v != w ==> t.dirty[v] == r.dirty[v] && t.pending[v] == r.pending[v]
    ensures result == NoChange ==>
      t.mail == b.mail && Sweeping(sh, b, t, cursor, count + 1) && CalmSoFar(sh, b, busy, cursor, count + 1)
    ensures result != NoChange ==> Ended(sh, b, t, busy, cursor, Walk(cursor, count, |b.dirty|), result, bit)
  {
    CalmsOn(sh, b, r, t, busy, cursor, count, result, bit);
    match result
    case NoChange => SweepsOn(sh, b, r, t, cursor, count);
    case Ready => DeliversThere(sh, b, r, t, cursor, count, bit);
    case Busy => GivesUpThere(sh, b, r, t, cursor, count, bit);
  }

  /** How a poll ended that did not go through all words. */
  predicate Ended(
    sh: Shape, b: Board, r: Board, busy: set<nat>, cursor: nat, word: nat, result: SnapshotResult, bit: nat)
    requires Shaped(sh, b) && Shaped(sh, r) && cursor < |b.dirty|
  {
    && (result == Ready ==> PolledAt(sh, b, r, cursor, word, bit))
    && (result == Busy ==> GaveUpAt(sh, b, r, cursor, word, bit))
    && word < |b.dirty| && BusyAt(sh, busy, word, bit) == (result == Busy)
    && CalmUpTo(sh, b, busy, cursor, word, bit)
  }

  lemma SweptAll(sh: Shape, b: Board, r: Board, busy: set<nat>, cursor: nat)
    requires Shaped(sh, b) && Shaped(sh, r) && cursor < |b.dirty| && r.mail == b.mail
    requires Sweeping(sh, b, r, cursor, |b.dirty|) && CalmSoFar(sh, b, busy, cursor, |b.dirty|)
    ensures PolledNothing(sh, b, r) && AllCalm(sh, b, busy)
  {
    forall w | 0 <= w < |b.dirty| ensures Swept(sh, b, r, w) && Calm(sh, b, busy, w) {
      assert Reached(sh, b, r, cursor, |b.dirty|, w) && CalmAt(sh, b, busy, cursor, |b.dirty|, w);
    }
  }

  class Dispatcher {
    const shape: Shape
    const mail: array<Mailbox>
    const dirty: array<set<nat>>
    const pending: array<set<nat>>
    var wordCursor: nat

    ghost function Now(): Board
      reads mail, dirty, pending
    {
      Board(mail[..], dirty[..], pending[..])
    }

    ghost predicate Valid()
      reads this, mail, dirty, pending
    {
      && Shaped(shape, Now())
      && dirty != pending
      && wordCursor < dirty.Length
      && NothingLost(shape, Now())
    }

    constructor (producers: nat, channels: nat)
      requires producers > 0 && channels > 0
      ensures Valid() && shape == Shape(producers, channels) && AllDelivered(shape, Now())
      ensures Now() == Initial(shape) && wordCursor == 0
      ensures fresh(mail) && fresh(dirty) && fresh(pending)
    {
      shape := Shape(producers, channels);
      var words := producers * WordsPer(Shape(producers, channels));
      ProductGrows(1, producers, WordsPer(Shape(producers, channels)));
      mail := new Mailbox[producers * channels](_ => UNUSED);
      dirty := new set<nat>[words](_ => {});
      pending := new set<nat>[words](_ => {});
      wordCursor := 0;
    }

    method PublishGap(producer: nat, channel: nat, gap: Gap) returns (ok: bool)
      requires Valid()
      modifies mail, dirty
      ensures Valid()
      ensures ok == (producer < shape.producers && channel < shape.channels)
      ensures Now() == if ok then Publish(shape, old(Now()), producer, channel, gap) else old(Now())
    {
      if producer >= shape.producers || channel >= shape.channels {
        return false;
      }
      SlotInBounds(shape, producer, channel);
      BitLeadsBack(shape, producer, channel);
      PublishKeeps(shape, Now(), producer, channel, gap);
      ghost var target := Publish(shape, Now(), producer, channel, gap);
      var slot := SlotOf(shape, producer, channel);
      mail[slot] := Mailbox(mail[slot].generation + 1, gap, mail[slot].delivered);
      assert mail[..] == target.mail;
      var word := WordOf(shape, producer, channel);
      dirty[word] := dirty[word] + {channel % WORD_BITS};
      assert dirty[..] == target.dirty;
      return true;
    }

    /** Takes the snapshot that a bit asks for; ready when it was news. */
    method Snapshot(word: nat, bit: nat, busy: set<nat>) returns (result: SnapshotResult, gap: Gap)
      requires Shaped(shape, Now()) && word < dirty.Length
      modifies mail
      ensures result == if BusyAt(shape, busy, word, bit) then Busy
                        else if News(shape, old(Now()), word, bit) then Ready else NoChange
      ensures var slot := SlotOf(shape, ProducerOf(shape, word), ChannelOf(shape, word, bit));
        if result == Ready then
          && gap == old(Now()).mail[slot].gap
          && Now().mail == old(Now()).mail[
               slot := old(Now()).mail[slot].(delivered := old(Now()).mail[slot].generation)]
        else Now().mail == old(Now()).mail
    {
      gap := UNUSED.gap;
      var producer := word / WordsPer(shape);
      var channel := word % WordsPer(shape) * WORD_BITS + bit;
      WordHasProducer(shape, word);
      if channel >= shape.channels {
        return NoChange, gap;
      }
      SlotInBounds(shape, producer, channel);
      var slot := producer * shape.channels + channel;
      if slot in busy {
        return Busy, gap;
      }
      if !Fresh(mail[slot]) {
        return NoChange, gap;
      }
      gap := mail[slot].gap;
      mail[slot] := mail[slot].(delivered := mail[slot].generation);
      return Ready, gap;
    }

    /** The bit-by-bit loop over one word; a busy snapshot puts its bit back and ends it. */
    method PollWord(word: nat, busy: set<nat>) returns (result: SnapshotResult, gap: Gap, ghost bit: nat)
      requires Valid() && word < dirty.Length
      modifies mail, dirty, pending
      ensures Valid()
      ensures forall v :: 0 <= v < dirty.Length && v != word ==>
        dirty[v] == old(dirty[v]) && pending[v] == old(pending[v])
      ensures WordPolled(shape, old(Now()), Now(), busy, word, result, bit)
      ensures result == Ready ==> gap == old(Now()).mail[SlotOfBit(word, bit)].gap
    {
      ghost var before := Now();
      if pending[word] == {} {
        pending[word] := dirty[word];
        dirty[word] := {};
      }
      result, bit, gap := NoChange, 0, UNUSED.gap;
      while result == NoChange && pending[word] != {}
        invariant result == NoChange ==>
          Now() == Looking(before, word, pending[word]) && Looked(shape, before, busy, word, pending[word])
        invariant result != NoChange ==> WordPolled(shape, before, Now(), busy, word, result, bit)
        invariant result == Ready ==> gap == before.mail[SlotOfBit(word, bit)].gap
        invariant forall v :: 0 <= v < dirty.Length && v != word ==>
          dirty[v] == old(dirty[v]) && pending[v] == old(pending[v])
        decreases result == NoChange, pending[word]
      {
        var next := LowestBit(pending[word]);
        ghost var left := pending[word];
        pending[word] := pending[word] - {next};
        assert Now() == Looking(before, word, left - {next});
        result, gap := Snapshot(word, next, busy);
        bit := next;
        if result == Busy {
          pending[word] := pending[word] + {next};
          assert left - {next} + {next} == left;
          assert Now() == Looking(before, word, left);
        }
        WordAdvances(shape, before, busy, word, left, next, result, Now());
      }
      WordKeeps(shape, before, Now(), busy, word, result, bit);
    }

    ghost function SlotOfBit(word: nat, bit: nat): nat
      requires ValidShape(shape)
    {
      SlotOf(shape, ProducerOf(shape, word), ChannelOf(shape, word, bit))
    }

    /** Polls the words in turn, starting after the one that delivered last, and gives up at
        the first snapshot that is busy. */
    method TryPollGap(busy: set<nat>)
      returns (found: bool, gap: Gap, ghost result: SnapshotResult, ghost word: nat, ghost bit: nat)
      requires Valid()
      modifies this`wordCursor, mail, dirty, pending
      ensures Valid() && found == (result == Ready)
      ensures result == NoChange ==> PolledNothing(shape, old(Now()), Now()) && AllCalm(shape, old(Now()), busy)
      ensures result != NoChange ==> Ended(shape, old(Now()), Now(), busy, old(wordCursor), word, result, bit)
      ensures wordCursor == if found then Next(word, dirty.Length) else old(wordCursor)
      ensures found ==> gap == old(Now()).mail[SlotOfBit(word, bit)].gap
    {
      ghost var before := Now();
      var count := 0;
      while count < dirty.Length
        invariant 0 <= count <= dirty.Length && Valid() && wordCursor == old(wordCursor)
        invariant Now().mail == before.mail && Sweeping(shape, before, Now(), wordCursor, count)
        invariant CalmSoFar(shape, before, busy, wordCursor, count)
      {
        ghost var sofar := Now();
        var at := (wordCursor + count) % dirty.Length;
        WalkIsRemainder(wordCursor, count, dirty.Length);
        var polled: SnapshotResult;
        polled, gap, bit := PollWord(at, busy);
        PollAdvances(shape, before, sofar, Now(), busy, wordCursor, count, polled, bit);
        if polled == Ready {
          wordCursor := Next(at, dirty.Length);
          return true, gap, polled, at, bit;
        }
        if polled == Busy {
          return false, gap, polled, at, bit;
        }
        count := count + 1;
      }
      SweptAll(shape, before, Now(), busy, wordCursor);
      return false, UNUSED.gap, NoChange, 0, 0;
    }
  }

  /** `countr_zero` */
  method LowestBit(bits: set<nat>) returns (bit: nat)
    requires bits != {}
    ensures bit in bits && forall k :: k in bits ==> bit <= k
  {
    bit := 0;
    ghost var some :| some in bits;
    while bit !in bits
      invariant bit <= some && forall k :: k in bits ==> bit <= k
      decreases some - bit
    {
      bit := bit + 1;
    }
  }

  // ---- one false is not enough ---------------------------------------------------------

  datatype Call = Publishes(producer: nat, channel: nat, gap: Gap) | Finds(word: nat, bit: nat) | FindsNothing

  /** A dispatcher between two calls. */
  datatype Turn = Turn(board: Board, cursor: nat)

  /** The call takes the dispatcher from `t` to `r`, as the class's contracts say. */
  predicate Makes(sh: Shape, t: Turn, call: Call, r: Turn) {
    && Shaped(sh, t.board) && Shaped(sh, r.board) && t.cursor < |t.board.dirty|
    && match call
       case Publishes(p, c, gap) =>
         p < sh.producers && c < sh.channels && r == Turn(Publish(sh, t.board, p, c, gap), t.cursor)
       case Finds(word, bit) =>
         PolledAt(sh, t.board, r.board, t.cursor, word, bit) && r.cursor == Next(word, |t.board.dirty|)
       case FindsNothing => PolledNothing(sh, t.board, r.board) && r.cursor == t.cursor
  }

  /** These calls, one after the other, take a new dispatcher through these turns. */
  predicate History(sh: Shape, turns: seq<Turn>, calls: seq<Call>) {
    && ValidShape(sh) && |turns| == |calls| + 1 && turns[0] == Turn(Initial(sh), 0)
    && forall i :: 0 <= i < |calls| ==> Makes(sh, turns[i], calls[i], turns[i + 1])
  }

  predicate TwoChannels(sh: Shape) {
    ValidShape(sh) && sh.channels >= 2
  }

  /** The first two channels of the first producer, with everything else unused. */
  function PairBoard(sh: Shape, left: Mailbox, right: Mailbox, dirty: set<nat>, pending: set<nat>): (b: Board)
    requires TwoChannels(sh)
    ensures Shaped(sh, b) && |b.mail| >= 2 && |b.dirty| > 0
    ensures b.mail[0] == left && b.mail[1] == right && b.dirty[0] == dirty && b.pending[0] == pending
    ensures forall w :: 0 < w < |b.dirty| ==> b.dirty[w] == b.pending[w] == {}
  {
    ProductGrows(1, sh.producers, sh.channels);
    ProductGrows(1, sh.producers, WordsPer(sh));
    var b := Initial(sh);
    Board(b.mail[0 := left][1 := right], b.dirty[0 := dirty], b.pending[0 := pending])
  }

  lemma PairNews(sh: Shape, left: Mailbox, right: Mailbox, dirty: set<nat>, pending: set<nat>)
    requires TwoChannels(sh)
    ensures var b := PairBoard(sh, left, right, dirty, pending);
      && SlotOf(sh, ProducerOf(sh, 0), ChannelOf(sh, 0, 0)) == 0
      && SlotOf(sh, ProducerOf(sh, 0), ChannelOf(sh, 0, 1)) == 1
      && (News(sh, b, 0, 0) <==> Fresh(left)) && (News(sh, b, 0, 1) <==> Fresh(right))
  {
    Decompose(0, WordsPer(sh), 0, 0);
  }

  function Put(m: Mailbox, g: Gap): Mailbox { Mailbox(m.generation + 1, g, m.delivered) }

  function Read(m: Mailbox): Mailbox { m.(delivered := m.generation) }

  lemma LeftPublishes(
    sh: Shape, left: Mailbox, right: Mailbox, dirty: set<nat>, pending: set<nat>, g: Gap, more: set<nat>, cursor: nat)
    requires TwoChannels(sh) && more == dirty + {0} && cursor < sh.producers * WordsPer(sh)
    ensures Makes(sh, Turn(PairBoard(sh, left, right, dirty, pending), cursor), Publishes(0, 0, g),
                  Turn(PairBoard(sh, Put(left, g), right, more, pending), cursor))
  {
    var b, r := PairBoard(sh, left, right, dirty, pending), PairBoard(sh, Put(left, g), right, more, pending);
    assert SlotOf(sh, 0, 0) == 0 && WordOf(sh, 0, 0) == 0;
    assert Publish(sh, b, 0, 0, g).mail == r.mail && Publish(sh, b, 0, 0, g).dirty == r.dirty;
    assert b.pending == r.pending;
  }

  lemma RightPublishes(
    sh: Shape, left: Mailbox, right: Mailbox, dirty: set<nat>, pending: set<nat>, g: Gap, more: set<nat>, cursor: nat)
    requires TwoChannels(sh) && more == dirty + {1} && cursor < sh.producers * WordsPer(sh)
    ensures Makes(sh, Turn(PairBoard(sh, left, right, dirty, pending), cursor), Publishes(0, 1, g),
                  Turn(PairBoard(sh, left, Put(right, g), more, pending), cursor))
  {
    var b, r := PairBoard(sh, left, right, dirty, pending), PairBoard(sh, left, Put(right, g), more, pending);
    assert SlotOf(sh, 0, 1) == 1 && WordOf(sh, 0, 1) == 0;
    assert Publish(sh, b, 0, 1, g).mail == r.mail && Publish(sh, b, 0, 1, g).dirty == r.dirty;
    assert b.pending == r.pending;
  }

  /** A poll finds what the first word delivers, as the other words are empty. */
  lemma FindsInFirst(sh: Shape, b: Board, r: Board, cursor: nat, bit: nat)
    requires Shaped(sh, b) && Shaped(sh, r) && cursor < |b.dirty| && Delivers(sh, b, r, 0, bit)
    requires forall w :: 0 < w < |b.dirty| ==> b.dirty[w] == b.pending[w] == r.dirty[w] == r.pending[w] == {}
    ensures Makes(sh, Turn(b, cursor), Finds(0, bit), Turn(r, Next(0, |b.dirty|)))
  {
    forall w | 0 <= w < |b.dirty| && w != 0 ensures Reached(sh, b, r, cursor, Distance(cursor, 0, |b.dirty|), w) {
      assert b.dirty[w] == {};
    }
  }

  lemma FindsNothingAnywhere(sh: Shape, b: Board, r: Board, cursor: nat)
    requires Shaped(sh, b) && Shaped(sh, r) && cursor < |b.dirty| && r.mail == b.mail && Swept(sh, b, r, 0)
    requires forall w :: 0 < w < |b.dirty| ==> b.dirty[w] == b.pending[w] == r.dirty[w] == r.pending[w] == {}
    ensures Makes(sh, Turn(b, cursor), FindsNothing, Turn(r, cursor))
  {
    forall w | 0 <= w < |b.dirty| ensures Swept(sh, b, r, w) {
      if w > 0 { assert b.dirty[w] == {}; }
    }
  }

  /** A poll that exchanges both bits and delivers the left channel's gap. */
  lemma PairExchanges(sh: Shape, left: Mailbox, right: Mailbox, cursor: nat)
    requires TwoChannels(sh) && Fresh(left) && cursor < sh.producers * WordsPer(sh)
    ensures Makes(sh, Turn(PairBoard(sh, left, right, {0, 1}, {}), cursor), Finds(0, 0),
                  Turn(PairBoard(sh, Read(left), right, {}, {1}), Next(0, sh.producers * WordsPer(sh))))
  {
    var b, r := PairBoard(sh, left, right, {0, 1}, {}), PairBoard(sh, Read(left), right, {}, {1});
    PairNews(sh, left, right, {0, 1}, {});
    assert {1} == (set k | k in Candidates(b, 0) && k > 0);
    assert r.mail == b.mail[0 := Read(left)];
    assert Delivers(sh, b, r, 0, 0);
    FindsInFirst(sh, b, r, cursor, 0);
  }

  /** A poll that looks at the leftover bit of the right channel: with news ... */
  lemma PairFindsRight(sh: Shape, left: Mailbox, right: Mailbox, dirty: set<nat>, cursor: nat)
    requires TwoChannels(sh) && Fresh(right) && cursor < sh.producers * WordsPer(sh)
    ensures Makes(sh, Turn(PairBoard(sh, left, right, dirty, {1}), cursor), Finds(0, 1),
                  Turn(PairBoard(sh, left, Read(right), dirty, {}), Next(0, sh.producers * WordsPer(sh))))
  {
    var b, r := PairBoard(sh, left, right, dirty, {1}), PairBoard(sh, left, Read(right), dirty, {});
    PairNews(sh, left, right, dirty, {1});
    assert b.pending[0] == {1} && 1 in b.pending[0];
    assert {} == (set k | k in Candidates(b, 0) && k > 1);
    assert r.mail == b.mail[1 := Read(right)];
    assert Delivers(sh, b, r, 0, 1);
    FindsInFirst(sh, b, r, cursor, 1);
  }

  /** ... and without. */
  lemma PairFindsNothing(sh: Shape, left: Mailbox, right: Mailbox, dirty: set<nat>, cursor: nat)
    requires TwoChannels(sh) && !Fresh(right) && cursor < sh.producers * WordsPer(sh)
    ensures Makes(sh, Turn(PairBoard(sh, left, right, dirty, {1}), cursor), FindsNothing,
                  Turn(PairBoard(sh, left, right, dirty, {}), cursor))
  {
    var b, r := PairBoard(sh, left, right, dirty, {1}), PairBoard(sh, left, right, dirty, {});
    PairNews(sh, left, right, dirty, {1});
    assert b.pending[0] == {1} && 1 in b.pending[0];
    assert Swept(sh, b, r, 0);
    FindsNothingAnywhere(sh, b, r, cursor);
  }

  function HidingCalls(g: Gap): seq<Call> {
    [Publishes(0, 0, g), Publishes(0, 1, g), Finds(0, 0), Publishes(0, 0, g), Publishes(0, 1, g),
     Finds(0, 1), Finds(0, 0), Publishes(0, 0, g), FindsNothing]
  }

  function HidingTurns(sh: Shape, g: Gap): seq<Turn>
    requires TwoChannels(sh)
  {
    var one, two, seen := Mailbox(1, g, 0), Mailbox(2, g, 1), Mailbox(2, g, 2);
    var next := Next(0, sh.producers * WordsPer(sh));
    [Turn(PairBoard(sh, UNUSED, UNUSED, {}, {}), 0),
     Turn(PairBoard(sh, one, UNUSED, {0}, {}), 0),
     Turn(PairBoard(sh, one, one, {0, 1}, {}), 0),
     Turn(PairBoard(sh, Read(one), one, {}, {1}), next),
     Turn(PairBoard(sh, two, one, {0}, {1}), next),
     Turn(PairBoard(sh, two, Mailbox(2, g, 0), {0, 1}, {1}), next),
     Turn(PairBoard(sh, two, seen, {0, 1}, {}), next),
     Turn(PairBoard(sh, Read(two), seen, {}, {1}), next),
     Turn(PairBoard(sh, Mailbox(3, g, 2), seen, {0}, {1}), next),
     Turn(PairBoard(sh, Mailbox(3, g, 2), seen, {0}, {}), next)]
  }

  lemma HidingStarts(sh: Shape, g: Gap, i: nat)
    requires TwoChannels(sh) && i < 2
    ensures Makes(sh, HidingTurns(sh, g)[i], HidingCalls(g)[i], HidingTurns(sh, g)[i + 1])
  {
    ProductGrows(1, sh.producers, WordsPer(sh));
    match i
    case 0 => LeftPublishes(sh, UNUSED, UNUSED, {}, {}, g, {0}, 0);
    case _ => RightPublishes(sh, Mailbox(1, g, 0), UNUSED, {0}, {}, g, {0, 1}, 0);
  }

  lemma HidingDelivers(sh: Shape, g: Gap, i: nat)
    requires TwoChannels(sh) && 2 <= i < 4
    ensures Makes(sh, HidingTurns(sh, g)[i], HidingCalls(g)[i], HidingTurns(sh, g)[i + 1])
  {
    var one := Mailbox(1, g, 0);
    ProductGrows(1, sh.producers, WordsPer(sh));
    match i
    case 2 => PairExchanges(sh, one, one, 0);
    case _ => LeftPublishes(sh, Read(one), one, {}, {1}, g, {0}, Next(0, sh.producers * WordsPer(sh)));
  }

  lemma HidingContinues(sh: Shape, g: Gap, i: nat)
    requires TwoChannels(sh) && 4 <= i < 6
    ensures Makes(sh, HidingTurns(sh, g)[i], HidingCalls(g)[i], HidingTurns(sh, g)[i + 1])
  {
    var two := Mailbox(2, g, 1);
    ProductGrows(1, sh.producers, WordsPer(sh));
    var next := Next(0, sh.producers * WordsPer(sh));
    match i
    case 4 => RightPublishes(sh, two, Mailbox(1, g, 0), {0}, {1}, g, {0, 1}, next);
    case _ => PairFindsRight(sh, two, Mailbox(2, g, 0), {0, 1}, next);
  }

  lemma HidingEnds(sh: Shape, g: Gap, i: nat)
    requires TwoChannels(sh) && 6 <= i < 9
    ensures Makes(sh, HidingTurns(sh, g)[i], HidingCalls(g)[i], HidingTurns(sh, g)[i + 1])
  {
    var two, seen := Mailbox(2, g, 1), Mailbox(2, g, 2);
    ProductGrows(1, sh.producers, WordsPer(sh));
    var next := Next(0, sh.producers * WordsPer(sh));
    match i
    case 6 => PairExchanges(sh, two, seen, next);
    case 7 => LeftPublishes(sh, Read(two), seen, {}, {1}, g, {0}, next);
    case _ => PairFindsNothing(sh, Mailbox(3, g, 2), seen, {0}, next);
  }

  /** One false is not enough, in any dispatcher with two channels: in this history the last
      poll finds nothing, because the leftover bit of the second channel, whose gap was
      delivered already, hides the fresh bit of the first; and the newest gap of the first
      channel is undelivered. */
  lemma OneFalseIsNotEnough(sh: Shape, g: Gap)
    requires TwoChannels(sh)
    ensures var turns := HidingTurns(sh, g); var calls := HidingCalls(g);
      && History(sh, turns, calls) && calls[|calls| - 1] == FindsNothing
      && !AllDelivered(sh, turns[|calls|].board)
  {
    var turns, calls := HidingTurns(sh, g), HidingCalls(g);
    forall i | 0 <= i < |calls| ensures Makes(sh, turns[i], calls[i], turns[i + 1]) {
      if i < 2 {
        HidingStarts(sh, g, i);
      } else if i < 4 {
        HidingDelivers(sh, g, i);
      } else if i < 6 {
        HidingContinues(sh, g, i);
      } else {
        HidingEnds(sh, g, i);
      }
    }
    var b := turns[0].board;
    assert b.mail == Initial(sh).mail && b.dirty == Initial(sh).dirty && b.pending == Initial(sh).pending;
    HidingEnds(sh, g, 8);
    PairNews(sh, Mailbox(3, g, 2), Mailbox(2, g, 2), {0}, {});
    assert turns[9].board == PairBoard(sh, Mailbox(3, g, 2), Mailbox(2, g, 2), {0}, {});
  }
}
