/** The benchmark's arrival schedules: each deals every (channel, sequence) pair exactly
    once, and the locally reversed one stays within the reorder span. */
module Arrivals {
  import opened Canonical
  import opened Remainders
  import opened ChannelSpec
  import opened Ledger
  import opened LaneSpec
  import opened TraceTheorems
  import opened OneChannel
  import opened Healing

  datatype Pattern = Ordered | LocalReverse

  datatype SyntheticArrival = SyntheticArrival(channelIndex: nat, sequence: nat)

  /** What the locally reversed pattern deals as arrival `offset` of block `block`. */
  function DealInBlock(block: nat, offset: nat, channels: nat, window: nat): SyntheticArrival
    requires channels > 0 && offset < window
  {
    QuotientIsNat(block, channels);
    ProductIsNat(block / channels, window);
    SyntheticArrival(block % channels, block / channels * window + (window - offset))
  }

  function MakeArrival(ordinal: nat, pattern: Pattern, channels: nat, window: nat): SyntheticArrival
    requires channels > 0 && window > 0
  {
    QuotientIsNat(ordinal, window);
    QuotientIsNat(ordinal, channels);
    if pattern == Ordered then SyntheticArrival(ordinal % channels, ordinal / channels + 1)
    else DealInBlock(ordinal / window, ordinal % window, channels, window)
  }

  /** The ordered pattern is the reversed one with a window of one, so what is proved about
      the reversed one covers it. */
  lemma OrderedIsWindowOne(ordinal: nat, channels: nat, window: nat)
    requires channels > 0 && window > 0
    ensures MakeArrival(ordinal, Ordered, channels, window) == MakeArrival(ordinal, LocalReverse, channels, 1)
  {
    Decompose(ordinal, 1, ordinal, 0);
  }

  /** The ordinal that carries this pair. */
  function OrdinalOf(a: SyntheticArrival, pattern: Pattern, channels: nat, window: nat): nat
    requires channels > 0 && window > 0 && a.channelIndex < channels && a.sequence > 0
  {
    if pattern == Ordered then
      ProductGrows(0, a.sequence - 1, channels);
      (a.sequence - 1) * channels + a.channelIndex
    else
      var block := (a.sequence - 1) / window;
      ProductGrows(0, block, channels);
      ProductGrows(0, block * channels + a.channelIndex, window);
      (block * channels + a.channelIndex) * window + (window - 1 - (a.sequence - 1) % window)
  }

  predicate ArrivalAt(ordinal: nat, pattern: Pattern, channels: nat, window: nat)
    requires channels > 0 && window > 0
  {
    var a := MakeArrival(ordinal, pattern, channels, window); a.channelIndex < channels && a.sequence > 0
  }

  lemma ArrivalValid(ordinal: nat, pattern: Pattern, channels: nat, window: nat)
    requires channels > 0 && window > 0
    ensures ArrivalAt(ordinal, pattern, channels, window)
  {
    var channelBlock := ordinal / window / channels;
    ProductGrows(0, channelBlock, window);
    assert 0 <= ordinal % window < window;
    assert 0 <= ordinal / window % channels < channels;
  }

  /** The schedule never repeats a pair ... */
  lemma OrdinalRecovered(ordinal: nat, pattern: Pattern, channels: nat, window: nat)
    requires channels > 0 && window > 0
    ensures ArrivalAt(ordinal, pattern, channels, window) &&
            OrdinalOf(MakeArrival(ordinal, pattern, channels, window), pattern, channels, window) == ordinal
  {
    ArrivalValid(ordinal, pattern, channels, window);
    var a := MakeArrival(ordinal, pattern, channels, window);
    if pattern == Ordered {
      Recompose(ordinal, channels);
    } else {
      var g, offset := ordinal / window, ordinal % window;
      Recompose(ordinal, window);
      Recompose(g, channels);
      Decompose(a.sequence - 1, window, g / channels, window - 1 - offset);
    }
  }

  /** ... and misses none. */
  lemma ArrivalRecovered(a: SyntheticArrival, pattern: Pattern, channels: nat, window: nat)
    requires channels > 0 && window > 0 && a.channelIndex < channels && a.sequence > 0
    ensures MakeArrival(OrdinalOf(a, pattern, channels, window), pattern, channels, window) == a
  {
    if pattern == Ordered {
      Decompose(OrdinalOf(a, pattern, channels, window), channels, a.sequence - 1, a.channelIndex);
    } else {
      var block, rest := (a.sequence - 1) / window, (a.sequence - 1) % window;
      Recompose(a.sequence - 1, window);
      Decompose(OrdinalOf(a, pattern, channels, window), window, block * channels + a.channelIndex, window - 1 - rest);
      Decompose(block * channels + a.channelIndex, channels, block, a.channelIndex);
    }
  }

  lemma BlockBefore(block: nat, quanta: nat, channelIndex: nat, channels: nat, window: nat)
    requires channelIndex < channels && block < quanta
    ensures (block * channels + channelIndex + 1) * window <= (quanta * channels) * window
    ensures (block + 1) * window <= quanta * window
  {
    ProductGrows(block + 1, quanta, channels);
    assert (block + 1) * channels == block * channels + channels;
    ProductGrows(block * channels + channelIndex + 1, quanta * channels, window);
    ProductGrows(block + 1, quanta, window);
  }

  lemma BlockAfter(block: nat, quanta: nat, channelIndex: nat, channels: nat, window: nat)
    requires quanta <= block
    ensures (quanta * channels) * window <= (block * channels + channelIndex) * window
    ensures quanta * window <= block * window
  {
    ProductGrows(quanta, block, channels);
    ProductGrows(quanta * channels, block * channels + channelIndex, window);
    ProductGrows(quanta, block, window);
  }

  lemma Regrouped(quanta: nat, channels: nat, window: nat)
    ensures (quanta * channels) * window == (quanta * window) * channels
  {
    assert (quanta * channels) * window == quanta * (channels * window) == quanta * (window * channels);
  }

  /** A whole number of quanta (channels x window arrivals each) deals exactly the
      sequences 1 .. quanta x window on every channel, in either pattern. */
  lemma QuantaExact(a: SyntheticArrival, pattern: Pattern, channels: nat, window: nat, quanta: nat)
    requires channels > 0 && window > 0 && a.channelIndex < channels && a.sequence > 0
    ensures OrdinalOf(a, pattern, channels, window) < (quanta * channels) * window <==> a.sequence <= quanta * window
  {
    if pattern == Ordered {
      var all := quanta * window;
      Regrouped(quanta, channels, window);
      Apart(a.sequence - 1, all, channels);
      if all <= a.sequence - 1 { ProductGrows(all, a.sequence - 1, channels); }
    } else {
      var block, rest := (a.sequence - 1) / window, (a.sequence - 1) % window;
      Recompose(a.sequence - 1, window);
      var home := block * channels + a.channelIndex;
      assert (home + 1) * window == home * window + window;
      assert (block + 1) * window == block * window + window;
      if block < quanta {
        BlockBefore(block, quanta, a.channelIndex, channels, window);
      } else {
        BlockAfter(block, quanta, a.channelIndex, channels, window);
      }
    }
  }

  // ---- one channel of the reversed schedule ------------------------------------

  /** The sequence of a channel's k-th arrival, counting from 0. */
  function ReversedSequence(k: nat, window: nat): nat
    requires window > 0
  {
    k / window * window + (window - k % window)
  }

  /** The ordinal at which a channel has its k-th arrival. */
  function ReversedOrdinal(channelIndex: nat, k: nat, channels: nat, window: nat): nat
    requires window > 0
  {
    (k / window * channels + channelIndex) * window + k % window
  }

  lemma ChannelSchedule(channelIndex: nat, k: nat, channels: nat, window: nat)
    requires window > 0 && channelIndex < channels
    ensures MakeArrival(ReversedOrdinal(channelIndex, k, channels, window), LocalReverse, channels, window)
         == SyntheticArrival(channelIndex, ReversedSequence(k, window))
    ensures ReversedOrdinal(channelIndex, k, channels, window) < ReversedOrdinal(channelIndex, k + 1, channels, window)
  {
    Recompose(k, window);
    Decompose(ReversedOrdinal(channelIndex, k, channels, window), window, k / window * channels + channelIndex,
      k % window);
    Decompose(k / window * channels + channelIndex, channels, k / window, channelIndex);
    if k % window + 1 < window {
      Decompose(k + 1, window, k / window, k % window + 1);
    } else {
      Decompose(k + 1, window, k / window + 1, 0);
      assert (k / window + 1) * channels + channelIndex == k / window * channels + channelIndex + channels;
      ProductGrows(k / window * channels + channelIndex + 1, (k / window + 1) * channels + channelIndex, window);
      assert (k / window * channels + channelIndex + 1) * window
          == (k / window * channels + channelIndex) * window + window;
    }
  }

  lemma {:induction false} ScheduleAscends(channelIndex: nat, j: nat, k: nat, channels: nat, window: nat)
    requires window > 0 && channelIndex < channels && j <= k
    ensures ReversedOrdinal(channelIndex, j, channels, window) <= ReversedOrdinal(channelIndex, k, channels, window)
    ensures j < k ==>
      ReversedOrdinal(channelIndex, j, channels, window) < ReversedOrdinal(channelIndex, k, channels, window)
  {
    if j < k {
      ScheduleAscends(channelIndex, j, k - 1, channels, window);
      ChannelSchedule(channelIndex, k - 1, channels, window);
    }
  }

  /** An arrival of a channel is its k-th for some k. */
  lemma OnSchedule(ordinal: nat, channels: nat, window: nat) returns (k: nat)
    requires channels > 0 && window > 0
    ensures ReversedOrdinal(
      MakeArrival(ordinal, LocalReverse, channels, window).channelIndex, k, channels, window) == ordinal
  {
    var block, offset := ordinal / window, ordinal % window;
    Recompose(ordinal, window);
    Recompose(block, channels);
    ProductGrows(0, block / channels, window);
    k := block / channels * window + offset;
    Decompose(k, window, block / channels, offset);
  }

  /** What the first n ordinals deal to the channels of one lane, in order. */
  function Dealt(n: nat, channels: nat, window: nat, mine: set<nat>): seq<SyntheticArrival>
    requires channels > 0 && window > 0
  {
    if n == 0 then []
    else
      var a := MakeArrival(n - 1, LocalReverse, channels, window);
      Dealt(n - 1, channels, window, mine) + if a.channelIndex in mine then [a] else []
  }

  /** To one channel the schedule deals its reversed sequences, each in its turn, and
      nothing else; `Dealt` has the arrivals whose ordinals are below n. */
  lemma {:induction false} DealtToOne(n: nat, channels: nat, window: nat, c: nat)
    requires window > 0 && c < channels
    ensures var dealt := Dealt(n, channels, window, {c});
      && (forall k :: 0 <= k < |dealt| ==> dealt[k] == SyntheticArrival(c, ReversedSequence(k, window)))
      && n <= ReversedOrdinal(c, |dealt|, channels, window)
      && (|dealt| > 0 ==> ReversedOrdinal(c, |dealt| - 1, channels, window) < n)
  {
    if n > 0 {
      var m, earlier := n - 1, Dealt(n - 1, channels, window, {c});
      var a := MakeArrival(m, LocalReverse, channels, window);
      DealtToOne(m, channels, window, c);
      ChannelSchedule(c, |earlier|, channels, window);
      if a.channelIndex == c {
        var k := OnSchedule(m, channels, window);
        if k < |earlier| { ScheduleAscends(c, k, |earlier| - 1, channels, window); }
        if k > |earlier| { ScheduleAscends(c, |earlier|, k, channels, window); }
        assert k == |earlier|;
      } else {
        assert ReversedOrdinal(c, |earlier|, channels, window) != m;
      }
    }
  }

  /** In whole quanta every channel gets its share. */
  lemma QuantaDealt(quanta: nat, channels: nat, window: nat, c: nat)
    requires window > 0 && c < channels
    ensures |Dealt((quanta * channels) * window, channels, window, {c})| == quanta * window
  {
    var n, all := (quanta * channels) * window, quanta * window;
    var k := |Dealt(n, channels, window, {c})|;
    DealtToOne(n, channels, window, c);
    ProductGrows(0, quanta, window);
    QuotaMet(k, quanta, channels, window, c);
    if k > 0 { QuotaMet(k - 1, quanta, channels, window, c); }
  }

  /** A channel's k-th arrival is within the quanta if and only if k is below its quota. */
  lemma QuotaMet(k: nat, quanta: nat, channels: nat, window: nat, c: nat)
    requires window > 0 && c < channels
    ensures ReversedOrdinal(c, k, channels, window) < (quanta * channels) * window <==> k < quanta * window
  {
    var block := k / window;
    Recompose(k, window);
    var home := block * channels + c;
    assert (home + 1) * window == home * window + window;
    assert (block + 1) * window == block * window + window;
    if block < quanta {
      BlockBefore(block, quanta, c, channels, window);
    } else {
      BlockAfter(block, quanta, c, channels, window);
    }
  }

  /** The channel receives the reversed schedule's sequences in the schedule's order. */
  predicate Reversed(ds: seq<Decoded>, window: nat)
    requires window > 0
  {
    forall k :: 0 <= k < |ds| ==> ds[k].tick.sequence == ReversedSequence(k, window)
  }

  /** After `block` whole blocks, which carried the sequences up to `whole`, and `offset`
      more arrivals. */
  lemma {:induction false} ReceivedReversed(ds: seq<Decoded>, window: nat, block: nat, whole: nat, offset: nat, n: nat)
    requires window > 0 && offset < window && whole == block * window && |ds| == whole + offset && Reversed(ds, window)
    ensures n in Received(ds) <==> 0 < n <= whole || whole + window - offset < n <= whole + window
    decreases |ds|
  {
    if ds != [] {
      var earlier, k := ds[..|ds| - 1], |ds| - 1;
      if offset > 0 {
        Decompose(k, window, block, offset - 1);
        ReceivedReversed(earlier, window, block, whole, offset - 1, n);
      } else {
        PreviousBlock(block, window);
        Decompose(k, window, block - 1, window - 1);
        ReceivedReversed(earlier, window, block - 1, whole - window, window - 1, n);
      }
    } else {
      PreviousBlock(block, window);
    }
  }

  lemma PreviousBlock(block: nat, window: nat)
    requires window > 0
    ensures block == 0 || (block - 1) * window == block * window - window >= 0
    ensures block == 0 <==> block * window == 0
  {
    if block > 0 {
      ProductGrows(1, block, window);
      assert (block - 1) * window + window == block * window;
    }
  }

  lemma LeastAfterReversed(ds: seq<Decoded>, window: nat)
    requires window > 0 && Reversed(ds, window)
    ensures LeastMissing(Received(ds), 1) == |ds| / window * window + 1
  {
    Recompose(|ds|, window);
    LeastAfterBlocks(ds, window, |ds| / window, |ds| / window * window, |ds| % window);
  }

  lemma LeastAfterBlocks(ds: seq<Decoded>, window: nat, block: nat, whole: nat, offset: nat)
    requires window > 0 && offset < window && whole == block * window && |ds| == whole + offset && Reversed(ds, window)
    ensures LeastMissing(Received(ds), 1) == whole + 1
  {
    forall n: nat ensures n in Received(ds) <==> 0 < n <= whole || whole + window - offset < n <= whole + window {
      ReceivedReversed(ds, window, block, whole, offset, n);
    }
    LeastMissingIs(Received(ds), whole + 1);
  }

  lemma ReversedParts(k: nat, window: nat)
    requires window > 0
    ensures var s := ReversedSequence(k, window) - 1;
      s >= 0 && s / window == k / window && s % window == window - 1 - k % window
  {
    ProductGrows(0, k / window, window);
    Decompose(ReversedSequence(k, window) - 1, window, k / window, window - 1 - k % window);
  }

  lemma SequencesDistinct(i: nat, j: nat, window: nat)
    requires window > 0 && ReversedSequence(i, window) == ReversedSequence(j, window)
    ensures i == j
  {
    ReversedParts(i, window);
    ReversedParts(j, window);
    Recompose(i, window);
    Recompose(j, window);
  }

  lemma ReversedConsistent(ds: seq<Decoded>, window: nat)
    requires window > 0 && Reversed(ds, window)
    ensures Consistent(ds)
  {
    forall d, e | d in ds && e in ds ensures Agree(d, e) {
      var i :| 0 <= i < |ds| && ds[i] == d;
      var j :| 0 <= j < |ds| && ds[j] == e;
      if d.tick.sequence == e.tick.sequence { SequencesDistinct(i, j, window); }
    }
  }

  lemma ReversedWithinSpan(cfg: Config, ds: seq<Decoded>, window: nat)
    requires 0 < window <= cfg.maximumSpan + 1 && Reversed(ds, window)
    ensures WithinSpan(cfg, ds)
  {
    forall k | 0 <= k < |ds| ensures InSpan(cfg, ds, k) {
      LeastAfterReversed(ds[..k], window);
    }
  }

  lemma WholeBlocksContiguous(ds: seq<Decoded>, window: nat, n: nat)
    requires window > 0 && Reversed(ds, window) && |ds| % window == 0 && n in Received(ds)
    ensures n <= |ds|
  {
    Recompose(|ds|, window);
    ReceivedReversed(ds, window, |ds| / window, |ds|, 0, n);
  }

  // ---- the lane fed the schedule -------------------------------------------------------

  /** The body that carries a pair; the benchmark numbers its channels from 1. */
  predicate Carries(d: Decoded, a: SyntheticArrival) {
    d.tick.market == Shanghai && d.tick.channel == a.channelIndex + 1 && d.tick.sequence == a.sequence
  }

  predicate Carry(ds: seq<Decoded>, pairs: seq<SyntheticArrival>) {
    |ds| == |pairs| && forall k :: 0 <= k < |ds| ==> Carries(ds[k], pairs[k])
  }

  /** The bodies among the inputs. */
  function Bodies(inputs: seq<Input>): seq<Decoded> {
    if inputs == [] then []
    else Bodies(inputs[..|inputs| - 1]) + if inputs[|inputs| - 1].Arrival? then [inputs[|inputs| - 1].body] else []
  }

  function OfName(ds: seq<Decoded>, market: Market, channel: nat): seq<Decoded> {
    if ds == [] then []
    else
      var t := ds[|ds| - 1].tick;
      OfName(ds[..|ds| - 1], market, channel)
        + if t.market == market && t.channel == channel then [ds[|ds| - 1]] else []
  }

  function OfIndex(pairs: seq<SyntheticArrival>, c: nat): seq<SyntheticArrival> {
    if pairs == [] then []
    else OfIndex(pairs[..|pairs| - 1], c) + if pairs[|pairs| - 1].channelIndex == c then [pairs[|pairs| - 1]] else []
  }

  lemma {:induction false} OnChannelIsOfName(inputs: seq<Input>, market: Market, channel: nat)
    ensures OnChannel(inputs, market, channel) == OfName(Bodies(inputs), market, channel)
  {
    if inputs != [] {
      OnChannelIsOfName(inputs[..|inputs| - 1], market, channel);
      var earlier, last := Bodies(inputs[..|inputs| - 1]), inputs[|inputs| - 1];
      if last.Arrival? {
        assert Bodies(inputs) == earlier + [last.body] && (earlier + [last.body])[..|earlier|] == earlier;
      } else {
        assert Bodies(inputs) == earlier + [] == earlier;
      }
    }
  }

  lemma {:induction false} OfIndexDealt(n: nat, channels: nat, window: nat, mine: set<nat>, c: nat)
    requires channels > 0 && window > 0 && c in mine
    ensures OfIndex(Dealt(n, channels, window, mine), c) == Dealt(n, channels, window, {c})
  {
    if n > 0 {
      OfIndexDealt(n - 1, channels, window, mine, c);
      var a, earlier := MakeArrival(n - 1, LocalReverse, channels, window), Dealt(n - 1, channels, window, mine);
      if a.channelIndex in mine {
        assert Dealt(n, channels, window, mine) == earlier + [a] && (earlier + [a])[..|earlier|] == earlier;
      } else {
        assert Dealt(n, channels, window, mine) == earlier + [] == earlier;
      }
    }
  }

  lemma {:induction false} CarriedOf(ds: seq<Decoded>, pairs: seq<SyntheticArrival>, c: nat)
    requires Carry(ds, pairs)
    ensures Carry(OfName(ds, Shanghai, c + 1), OfIndex(pairs, c))
  {
    if ds != [] {
      CarriedOf(ds[..|ds| - 1], pairs[..|pairs| - 1], c);
    }
  }

  /** What a lane that is fed the schedule hears of one channel. */
  lemma ChannelIsReversed(inputs: seq<Input>, n: nat, channels: nat, window: nat, mine: set<nat>, c: nat)
    requires window > 0 && c < channels && c in mine && Carry(Bodies(inputs), Dealt(n, channels, window, mine))
    ensures var ds := OnChannel(inputs, Shanghai, c + 1);
      Reversed(ds, window) && |ds| == |Dealt(n, channels, window, {c})|
  {
    OnChannelIsOfName(inputs, Shanghai, c + 1);
    OfIndexDealt(n, channels, window, mine, c);
    CarriedOf(Bodies(inputs), Dealt(n, channels, window, mine), c);
    DealtToOne(n, channels, window, c);
  }

  /** How many of k arrivals are in whole blocks. */
  function WholeBlocks(k: nat, window: nat): nat
    requires window > 0
  {
    ProductGrows(0, k / window, window);
    k / window * window
  }

  /** Local reversal heals for every window up to the span plus one, whatever n arrivals of
      the schedule were dealt and whichever channels the lane serves: of the k arrivals of a
      channel every whole block was consumed, exactly once, in order and with no gap, and
      nothing is left waiting when the last block is whole. */
  lemma LocalReversalHeals(
    cfg: Config, inputs: seq<Input>, v: Verdicts, n: nat, channels: nat, window: nat, mine: set<nat>, c: nat, s: nat)
    requires ValidConfig(cfg) && cfg.mode == FromOpen && cfg.gapWait > 0 && ValidInputs(inputs)
    requires 0 < window <= cfg.maximumSpan + 1 && c < channels && c in mine
    requires Carry(Bodies(inputs), Dealt(n, channels, window, mine)) && Quiet(cfg, inputs, v, Shanghai, c + 1)
    ensures var lane := Run(cfg, inputs, v); var k := |Dealt(n, channels, window, {c})|;
      && (k > 0 && !lane.exhausted ==> Present(lane, Shanghai, c + 1))
      && (Served(cfg, lane, Shanghai, c + 1) ==>
            HealedUpTo(Found(cfg, lane, Shanghai, c + 1), WholeBlocks(k, window), s))
      && (Served(cfg, lane, Shanghai, c + 1) && k % window == 0 ==> s !in Found(cfg, lane, Shanghai, c + 1).pending)
  {
    var ds := OnChannel(inputs, Shanghai, c + 1);
    ChannelIsReversed(inputs, n, channels, window, mine, c);
    ReversedWithinSpan(cfg, ds, window);
    ReversedConsistent(ds, window);
    LeastAfterReversed(ds, window);
    BoundedReorderingHeals(cfg, inputs, v, Shanghai, c + 1, s);
    Recompose(|ds|, window);
    if |ds| % window == 0 && s in Received(ds) { WholeBlocksContiguous(ds, window, s); }
  }

  /** The sequences 1 .. last were consumed once each and in order, with nothing missing. */
  ghost predicate HealedUpTo(c: Channel, last: nat, s: nat) {
    && GapCount(c.books.trace) == 0 && c.books.historyComplete && !c.frozen
    && c.books.expected == last + 1
    && ConsumedTimes(c.books.trace, s) == (if 0 < s <= last then 1 else 0)
    && Increasing(Delivered(c.books.trace), last + 1)
  }

  lemma WholeQuanta(quanta: nat, window: nat)
    requires window > 0 && quanta > 0
    ensures quanta * window > 0 && (quanta * window) % window == 0
    ensures WholeBlocks(quanta * window, window) == quanta * window
  {
    ProductGrows(1, quanta, window);
    Decompose(quanta * window, window, quanta, 0);
  }

  lemma WholeShareHeals(
    cfg: Config, inputs: seq<Input>, v: Verdicts, n: nat, channels: nat, window: nat, mine: set<nat>, c: nat,
    share: nat, s: nat)
    requires ValidConfig(cfg) && cfg.mode == FromOpen && cfg.gapWait > 0 && ValidInputs(inputs)
    requires 0 < window <= cfg.maximumSpan + 1 && c < channels && c in mine
    requires |Dealt(n, channels, window, {c})| == share > 0 && share % window == 0
    requires WholeBlocks(share, window) == share
    requires Carry(Bodies(inputs), Dealt(n, channels, window, mine)) && Quiet(cfg, inputs, v, Shanghai, c + 1)
    ensures var lane := Run(cfg, inputs, v);
      && (!lane.exhausted ==> Present(lane, Shanghai, c + 1))
      && (Served(cfg, lane, Shanghai, c + 1) ==>
            ShareHealed(Found(cfg, lane, Shanghai, c + 1), OnChannel(inputs, Shanghai, c + 1), share, s))
  {
    LocalReversalHeals(cfg, inputs, v, n, channels, window, mine, c, s);
    if Served(cfg, Run(cfg, inputs, v), Shanghai, c + 1) && Matched(OnChannel(inputs, Shanghai, c + 1)) {
      ScheduleReachesOwners(cfg, inputs, v, n, channels, window, mine, c);
    }
  }

  /** The channel has consumed its whole share, and if its instruments are in the catalog
      the owners got 1, 2, 3, ... up to the last. */
  ghost predicate ShareHealed(r: Channel, ds: seq<Decoded>, share: nat, s: nat) {
    HealedUpTo(r, share, s) && s !in r.pending && (Matched(ds) ==> OwnersGot(r.books.trace, share))
  }

  /** n arrivals are whole quanta, and `share` is what they deal to each channel. */
  predicate IsQuanta(n: nat, share: nat, quanta: nat, channels: nat, window: nat) {
    quanta > 0 && n == (quanta * channels) * window && share == quanta * window
  }

  lemma QuantaFacts(n: nat, share: nat, quanta: nat, channels: nat, window: nat, c: nat)
    requires window > 0 && c < channels && IsQuanta(n, share, quanta, channels, window)
    ensures |Dealt(n, channels, window, {c})| == share > 0 && share % window == 0 && WholeBlocks(share, window) == share
  {
    QuantaDealt(quanta, channels, window, c);
    WholeQuanta(quanta, window);
  }

  /** After whole quanta every channel of the lane has had its whole share. */
  lemma QuantaHeal(
    cfg: Config, inputs: seq<Input>, v: Verdicts, quanta: nat, channels: nat, window: nat, n: nat, share: nat,
    mine: set<nat>, c: nat, s: nat)
    requires ValidConfig(cfg) && cfg.mode == FromOpen && cfg.gapWait > 0 && ValidInputs(inputs)
    requires 0 < window <= cfg.maximumSpan + 1 && c < channels && c in mine
    requires IsQuanta(n, share, quanta, channels, window)
    requires Carry(Bodies(inputs), Dealt(n, channels, window, mine)) && Quiet(cfg, inputs, v, Shanghai, c + 1)
    ensures var lane := Run(cfg, inputs, v);
      && (!lane.exhausted ==> Present(lane, Shanghai, c + 1))
      && (Served(cfg, lane, Shanghai, c + 1) ==>
            ShareHealed(Found(cfg, lane, Shanghai, c + 1), OnChannel(inputs, Shanghai, c + 1), share, s))
  {
    QuantaFacts(n, share, quanta, channels, window, c);
    WholeShareHeals(cfg, inputs, v, n, channels, window, mine, c, share, s);
  }

  lemma ScheduleReachesOwners(
    cfg: Config, inputs: seq<Input>, v: Verdicts, n: nat, channels: nat, window: nat, mine: set<nat>, c: nat)
    requires ValidConfig(cfg) && cfg.mode == FromOpen && cfg.gapWait > 0 && ValidInputs(inputs)
    requires 0 < window <= cfg.maximumSpan + 1 && c < channels && c in mine
    requires Carry(Bodies(inputs), Dealt(n, channels, window, mine)) && Quiet(cfg, inputs, v, Shanghai, c + 1)
    requires Served(cfg, Run(cfg, inputs, v), Shanghai, c + 1)
    requires Matched(OnChannel(inputs, Shanghai, c + 1))
    ensures OwnersGot(Found(cfg, Run(cfg, inputs, v), Shanghai, c + 1).books.trace,
                      WholeBlocks(|Dealt(n, channels, window, {c})|, window))
  {
    var ds := OnChannel(inputs, Shanghai, c + 1);
    ChannelIsReversed(inputs, n, channels, window, mine, c);
    ReversedWithinSpan(cfg, ds, window);
    ReversedConsistent(ds, window);
    LeastAfterReversed(ds, window);
    OwnersGetAll(cfg, inputs, v, Shanghai, c + 1);
  }

  /** The window bound is exact: a wider one records a gap at its very first arrival. */
  lemma WiderWindowSkips(cfg: Config, id: Identity, d: Decoded, now: nat, v: Verdicts, window: nat)
    requires ValidConfig(cfg) && cfg.mode == FromOpen
    requires window > cfg.maximumSpan + 1 && Reversed([d], window) && Belongs(id, d)
    ensures GapCount(ProcessChannel(cfg, Cell(NewChannel(cfg, id), 0), d, now, v).chan.books.trace) == 1
  {
    var c := NewChannel(cfg, id);
    assert d.tick.sequence == [d][0].tick.sequence == ReversedSequence(0, window) == window;
    var pending := c.pending[d.tick.sequence := d];
    assert pending.Keys == {d.tick.sequence};
    var moved := SkipTo(id, c.books, window, now);
    DrainSkipsNothing(id, moved, pending, v);
  }
}
