/** The table through which a lane finds its channels refines the growing map from
    (market, channel) to index. */
module ChannelIndex {
  import opened Canonical
  import opened ChannelSpec
  import opened Ledger
  import opened LaneSpec
  import opened ProbeTable

  datatype Name = Name(market: Market, channel: nat)

  /** The hash of a channel's name; nothing depends on which function it is. */
  type Hash = Name -> nat

  ghost function NamesOf(chans: seq<Channel>): (names: seq<Name>)
    ensures |names| == |chans|
    ensures forall i :: 0 <= i < |chans| ==> names[i] == Name(chans[i].id.market, chans[i].id.channel)
  {
    seq(|chans|, i requires 0 <= i < |chans| => Name(chans[i].id.market, chans[i].id.channel))
  }

  ghost predicate Numbered(chans: seq<Channel>, i: nat)
    requires i < |chans|
  {
    chans[i].id.mailbox == i
  }

  /** Every channel is filed under its name, and the table is at most half full. */
  ghost predicate Kept(cfg: Config, hash: Hash, x: Index, chans: seq<Channel>) {
    && |chans| <= cfg.maximumChannels && 0 < 2 * cfg.maximumChannels <= |x.slots|
    && (forall i :: 0 <= i < |chans| ==> Numbered(chans, i))
    && Indexed(x, hash, NamesOf(chans))
  }

  lemma AbsentIndex(chans: seq<Channel>, market: Market, channel: nat)
    requires Name(market, channel) !in NamesOf(chans)
    ensures IndexOf(chans, market, channel) == |chans|
  {
    forall j | 0 <= j < |chans| ensures !Names(chans[j].id, market, channel) {
      assert NamesOf(chans)[j] in NamesOf(chans);
    }
  }

  lemma PresentIndex(cfg: Config, hash: Hash, x: Index, chans: seq<Channel>, i: nat)
    requires Kept(cfg, hash, x, chans) && i < |chans|
    ensures IndexOf(chans, chans[i].id.market, chans[i].id.channel) == i
  {
    var first := IndexOf(chans, chans[i].id.market, chans[i].id.channel);
    assert Names(chans[i].id, chans[i].id.market, chans[i].id.channel);
    KeyOnce(x, hash, NamesOf(chans), first, i);
  }

  /** Filing a new channel at the free slot that ended its probe. */
  lemma RegisterChannel(cfg: Config, hash: Hash, x: Index, lane: Lane, market: Market, channel: nat, d: nat)
    requires Kept(cfg, hash, x, lane.chans) && d < |x.slots| && |lane.chans| < cfg.maximumChannels
    requires var home := Home(hash, Name(market, channel), |x.slots|);
      && Passed(x, NamesOf(lane.chans), home, Name(market, channel), d)
      && x.slots[Walk(home, d, |x.slots|)] == 0
    requires IndexOf(lane.chans, market, channel) == |lane.chans|
    ensures Kept(cfg, hash, Registered(x, Home(hash, Name(market, channel), |x.slots|), d),
                 WithChannel(cfg, lane, market, channel))
  {
    var chans' := WithChannel(cfg, lane, market, channel);
    Register(x, hash, NamesOf(lane.chans), Name(market, channel), d);
    assert NamesOf(chans') == NamesOf(lane.chans) + [Name(market, channel)];
    forall i | 0 <= i < |chans'| ensures Numbered(chans', i) {
      if i < |lane.chans| { assert Numbered(lane.chans, i); }
    }
  }

  /** Replacing a channel by a continuation of it leaves the index valid. */
  lemma Continues(cfg: Config, hash: Hash, x: Index, chans: seq<Channel>, i: nat, c: Channel)
    requires Kept(cfg, hash, x, chans) && i < |chans| && c.id == chans[i].id
    ensures Kept(cfg, hash, x, chans[i := c])
  {
    var chans' := chans[i := c];
    assert NamesOf(chans') == NamesOf(chans);
    forall j | 0 <= j < |chans'| ensures Numbered(chans', j) {
      assert Numbered(chans, j);
    }
  }

  // ---- what callers see ------------------------------------------------------

  /** An arrival changes no channel but its own. */
  lemma OthersUntouched(cfg: Config, lane: Lane, d: Decoded, now: nat, v: Verdicts, j: nat)
    requires cfg.entries > 0 && j < |lane.chans| && !Names(lane.chans[j].id, d.tick.market, d.tick.channel)
    ensures var r := Process(cfg, lane, d, now, v).chans; j < |r| && r[j] == lane.chans[j]
  {
  }

  lemma StepKeepsName(cfg: Config, lane: Lane, input: Input, v: Verdicts, j: nat)
    requires cfg.entries > 0 && Sound(cfg, lane) && ValidInput(input) && j < |lane.chans|
    ensures var r := Step(cfg, lane, input, v).chans; |lane.chans| <= |r| && r[j].id == lane.chans[j].id
  {
    match input
    case Arrival(d, now) =>
      if !Refused(cfg, lane, d.tick.market, d.tick.channel) {
        WithChannelPlaced(cfg, lane, d.tick.market, d.tick.channel);
        var chans := WithChannel(cfg, lane, d.tick.market, d.tick.channel);
        ProcessKeeps(cfg, Cell(chans[IndexOf(lane.chans, d.tick.market, d.tick.channel)], lane.deadline), d, now, v);
      }
    case BadBody(_, _, _, _) =>
    case Timer(now) => ScanEach(cfg, lane.(deadline := 0), |lane.chans|, now, v, j, ANY);
    case Shutdown(now) => FlushEach(cfg, lane, |lane.chans|, now, v, j, ANY);
  }

  lemma StepKeepsIndex(cfg: Config, lane: Lane, input: Input, v: Verdicts, market: Market, channel: nat)
    requires cfg.entries > 0 && Sound(cfg, lane) && ValidInput(input)
    requires IndexOf(lane.chans, market, channel) < |lane.chans|
    ensures IndexOf(Step(cfg, lane, input, v).chans, market, channel) == IndexOf(lane.chans, market, channel)
    ensures |lane.chans| <= |Step(cfg, lane, input, v).chans|
  {
    var r := Step(cfg, lane, input, v).chans;
    forall j | 0 <= j < |lane.chans| ensures |lane.chans| <= |r| && r[j].id == lane.chans[j].id {
      StepKeepsName(cfg, lane, input, v, j);
    }
    IndexStable(lane.chans, r, market, channel);
  }

  /** A name found after the first n inputs keeps its index for ever. */
  lemma {:induction false} IndexForever(
    cfg: Config, inputs: seq<Input>, n: nat, v: Verdicts, market: Market, channel: nat)
    requires cfg.entries > 0 && ValidInputs(inputs) && n <= |inputs|
    requires var chans := Run(cfg, inputs[..n], v).chans; IndexOf(chans, market, channel) < |chans|
    ensures var chans := Run(cfg, inputs, v).chans; IndexOf(chans, market, channel) < |chans|
    ensures IndexOf(Run(cfg, inputs, v).chans, market, channel) ==
            IndexOf(Run(cfg, inputs[..n], v).chans, market, channel)
  {
    if n == |inputs| {
      assert inputs[..n] == inputs;
    } else {
      var earlier := inputs[..|inputs| - 1];
      assert earlier[..n] == inputs[..n];
      IndexForever(cfg, earlier, n, v, market, channel);
      RunKeeps(cfg, earlier, v);
      StepKeepsIndex(cfg, Run(cfg, earlier, v), inputs[|inputs| - 1], v, market, channel);
    }
  }

  /** Every channel of every run has a mailbox slot of its own that the dispatcher accepts,
      so publishing a gap never fails. */
  lemma GapSlotInBounds(cfg: Config, inputs: seq<Input>, v: Verdicts, i: nat)
    requires cfg.entries > 0 && ValidInputs(inputs) && i < |Run(cfg, inputs, v).chans|
    ensures Run(cfg, inputs, v).chans[i].id.mailbox == i < cfg.maximumChannels
  {
    RunKeeps(cfg, inputs, v);
  }
}
