/** From the interleavings to the calls: whenever the producers of a concurrent run are at
    rest and the consumer is between calls, the shared state is a board on which no
    notification is lost, and two polls in a row that find nothing prove that every gap
    published in that run was delivered. */
module GapQuiet {
  import opened Canonical
  import opened Remainders
  import opened GapDispatcher
  import GapNotification

  /** The bit of a slot within its word. */
  function BitOf(sh: Shape, slot: nat): nat
    requires ValidShape(sh)
  {
    slot % sh.channels % WORD_BITS
  }

  /** Which word a slot's bit is in. */
  function WordAt(sh: Shape, slot: nat): nat
    requires ValidShape(sh)
  {
    WordOf(sh, slot / sh.channels, slot % sh.channels)
  }

  function LayoutOf(sh: Shape): GapNotification.Layout
    requires ValidShape(sh)
  {
    (slot: nat) => WordAt(sh, slot)
  }

  /** The bits that a set of slots sets in word w. */
  function BitsIn(sh: Shape, slots: set<nat>, w: nat): set<nat>
    requires ValidShape(sh)
  {
    set slot | slot in slots && WordAt(sh, slot) == w :: BitOf(sh, slot)
  }

  function Words(sh: Shape): nat
    requires ValidShape(sh)
  {
    sh.producers * WordsPer(sh)
  }

  /** The mailboxes and words that a state of the concurrent run stands for; which gap each
      mailbox holds does not matter here. */
  function BoardOf(sh: Shape, s: GapNotification.State, gaps: seq<Gap>): Board
    requires ValidShape(sh) && |s.published| == |s.delivered| == |gaps|
  {
    Board(seq(|s.published|, slot requires 0 <= slot < |s.published| =>
            Mailbox(s.published[slot], gaps[slot], s.delivered[slot])),
          seq(Words(sh), w requires 0 <= w < Words(sh) => BitsIn(sh, s.dirty, w)),
          seq(Words(sh), w requires 0 <= w < Words(sh) => BitsIn(sh, s.pending, w)))
  }

  /** No call is under way on either side. */
  predicate AtRest(s: GapNotification.State) {
    s.consumer.Between? && forall p :: 0 <= p < |s.producers| ==> s.producers[p].Rests?
  }

  lemma SlotLeadsBack(sh: Shape, p: nat, c: nat)
    requires ValidShape(sh) && p < sh.producers && c < sh.channels
    ensures SlotOf(sh, p, c) < sh.producers * sh.channels
    ensures WordAt(sh, SlotOf(sh, p, c)) == WordOf(sh, p, c) < Words(sh)
    ensures BitOf(sh, SlotOf(sh, p, c)) == c % WORD_BITS
  {
    SlotInBounds(sh, p, c);
    BitLeadsBack(sh, p, c);
    Decompose(SlotOf(sh, p, c), sh.channels, p, c);
  }

  predicate Sized(s: GapNotification.State, slots: nat) {
    |s.published| == |s.delivered| == slots
  }

  lemma MoveKeepsSizes(s: GapNotification.State, word: GapNotification.Layout, m: GapNotification.Move, slots: nat)
    requires Sized(s, slots) && GapNotification.Enabled(s, word, m)
    ensures Sized(GapNotification.Apply(s, word, m), slots)
  {
  }

  lemma {:induction false} RunSizes(
    slots: nat, producers: nat, word: GapNotification.Layout, moves: seq<GapNotification.Move>)
    ensures Sized(GapNotification.Run(slots, producers, word, moves), slots)
  {
    if moves != [] {
      var earlier, m := moves[..|moves| - 1], moves[|moves| - 1];
      var s := GapNotification.Run(slots, producers, word, earlier);
      RunSizes(slots, producers, word, earlier);
      if GapNotification.Enabled(s, word, m) { MoveKeepsSizes(s, word, m, slots); }
    }
  }

  /** The bridge. */
  lemma BoardLosesNothing(sh: Shape, s: GapNotification.State, gaps: seq<Gap>)
    requires ValidShape(sh) && GapNotification.NothingLost(s) && AtRest(s)
    requires |s.published| == |gaps| == sh.producers * sh.channels
    ensures Shaped(sh, BoardOf(sh, s, gaps)) && NothingLost(sh, BoardOf(sh, s, gaps))
  {
    var b := BoardOf(sh, s, gaps);
    forall p, c | 0 <= p < sh.producers && 0 <= c < sh.channels && Undelivered(sh, b, p, c)
      ensures Noticed(sh, b, p, c)
    {
      var slot := SlotOf(sh, p, c);
      SlotLeadsBack(sh, p, c);
      assert GapNotification.Safe(s, slot);
      assert slot in s.dirty || slot in s.pending;
    }
  }

  /** The board that a concurrent run leaves to the next call. */
  function BoardAfter(sh: Shape, producers: nat, moves: seq<GapNotification.Move>, gaps: seq<Gap>): (b: Board)
    requires ValidShape(sh) && |gaps| == sh.producers * sh.channels
    ensures Shaped(sh, b)
  {
    RunSizes(|gaps|, producers, LayoutOf(sh), moves);
    BoardOf(sh, GapNotification.Run(|gaps|, producers, LayoutOf(sh), moves), gaps)
  }

  /** Two polls in a row that return false, after any concurrent run that has come to rest,
      mean that the newest gap of every channel of every producer was delivered. */
  lemma TwoQuietPollsOfRun(
    sh: Shape, producers: nat, moves: seq<GapNotification.Move>, gaps: seq<Gap>, r: Board, t: Board, p: nat, c: nat)
    requires ValidShape(sh) && |gaps| == sh.producers * sh.channels && p < sh.producers && c < sh.channels
    requires AtRest(GapNotification.Run(|gaps|, producers, LayoutOf(sh), moves))
    requires Shaped(sh, r) && PolledNothing(sh, BoardAfter(sh, producers, moves, gaps), r)
    requires Shaped(sh, t) && PolledNothing(sh, r, t)
    ensures var s := GapNotification.Run(|gaps|, producers, LayoutOf(sh), moves); var slot := SlotOf(sh, p, c);
      slot < |s.published| && slot < |s.delivered| && s.delivered[slot] == s.published[slot]
  {
    var s := GapNotification.Run(|gaps|, producers, LayoutOf(sh), moves);
    RunSizes(|gaps|, producers, LayoutOf(sh), moves);
    GapNotification.NeverLost(|gaps|, producers, LayoutOf(sh), moves);
    BoardLosesNothing(sh, s, gaps);
    TwoQuietPolls(sh, BoardOf(sh, s, gaps), r, t);
    SlotLeadsBack(sh, p, c);
    assert !Undelivered(sh, BoardOf(sh, s, gaps), p, c);
  }
}
