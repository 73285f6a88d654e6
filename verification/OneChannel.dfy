/** What a run does to one of its channels: each input takes the channel from where it was,
    whatever the others do, and only ever adds to its trace. */
module OneChannel {
  import opened Canonical
  import opened ChannelSpec
  import opened Ledger
  import opened Accounting
  import opened LaneSpec
  import opened TraceTheorems
  import opened ChannelIndex

  // ---- traces grow -----------------------------------------------------------------

  predicate NamedBy(id: Identity, d: Decoded) {
    Names(id, d.tick.market, d.tick.channel)
  }

  /** What this channel publishes at this time is its own and says so: ticks and late records
      are records of the channel, gaps and faults name it and the time. */
  predicate EventOf(id: Identity, now: nat, e: Event) {
    match e
    case Emitted(body, out, _) => Names(id, out.market, out.channel) && out.sequence == body.tick.sequence
    case GapRecorded(g) => Names(id, g.market, g.channel) && g.detected == now
    case Diverted(body, record, _) =>
      Names(id, record.tick.market, record.tick.channel) && record.tick.sequence == body.tick.sequence
    case Faulted(f, _) => Names(id, f.market, f.channel) && f.detected == now
    case _ => true
  }

  /** `t` is `p` with events of this channel at this time added. */
  predicate Continued(id: Identity, now: nat, p: Trace, t: Trace) {
    p == t || (t.Then? && EventOf(id, now, t.last) && Continued(id, now, p, t.earlier))
  }

  lemma {:induction false} ContinuedPrefix(id: Identity, now: nat, p: Trace, t: Trace)
    requires Continued(id, now, p, t)
    ensures Prefix(p, t)
  {
    if p != t { ContinuedPrefix(id, now, p, t.earlier); }
  }

  lemma {:induction false} ContinuedTwice(id: Identity, now: nat, a: Trace, b: Trace, c: Trace)
    requires Continued(id, now, a, b) && Continued(id, now, b, c)
    ensures Continued(id, now, a, c)
  {
    if b != c { ContinuedTwice(id, now, a, b, c.earlier); }
  }

  predicate Grows(now: nat, c: Channel, r: Channel) {
    c.id == r.id && Continued(c.id, now, c.books.trace, r.books.trace)
  }

  lemma GrowsTwice(now: nat, a: Channel, b: Channel, c: Channel)
    requires Grows(now, a, b) && Grows(now, b, c)
    ensures Grows(now, a, c)
  {
    ContinuedTwice(a.id, now, a.books.trace, b.books.trace, c.books.trace);
  }

  ghost predicate TableOf(id: Identity, pending: Table) {
    forall s :: s in pending ==> NamedBy(id, pending[s])
  }

  lemma {:induction false} DrainGrows(id: Identity, b: Books, pending: Table, v: Verdicts, now: nat)
    requires TableOf(id, pending)
    ensures Continued(id, now, b.trace, Drain(id, b, pending, v).books.trace)
    decreases pending.Keys
  {
    if b.expected in pending {
      RemovalShrinks(pending, b.expected);
      var (e, ok) := EmitOne(id, b, pending[b.expected], v);
      assert Continued(id, now, b.trace, e.trace.earlier);
      if ok {
        var next := e.(expected := b.expected + 1);
        DrainGrows(id, next, pending - {b.expected}, v, now);
        ContinuedTwice(id, now, b.trace, next.trace, Drain(id, b, pending, v).books.trace);
      }
    }
  }

  /** Draining after at most one event. */
  lemma DrainGrowsFrom(before: Trace, id: Identity, b: Books, pending: Table, v: Verdicts, now: nat)
    requires TableOf(id, pending)
    requires b.trace == before || (b.trace.Then? && b.trace.earlier == before && EventOf(id, now, b.trace.last))
    ensures Continued(id, now, before, Drain(id, b, pending, v).books.trace)
  {
    DrainGrows(id, b, pending, v, now);
    assert Continued(id, now, before, before);
    ContinuedTwice(id, now, before, b.trace, Drain(id, b, pending, v).books.trace);
  }

  lemma FinishGrows(cfg: Config, cell: Cell, now: nat, v: Verdicts)
    requires TableOf(cell.chan.id, cell.chan.pending)
    ensures Grows(now, cell.chan, FinishDiscovery(cfg, cell, now, v).chan)
  {
    var c := cell.chan;
    if c.pending != map[] {
      var m := MinimumPending(c.pending);
      DrainGrowsFrom(c.books.trace, c.id, Log(c.books, OriginFixed(m)).(expected := m), c.pending, v, now);
    }
  }

  lemma ForceGrows(cfg: Config, cell: Cell, now: nat, v: Verdicts)
    requires TableOf(cell.chan.id, cell.chan.pending)
    ensures Grows(now, cell.chan, ForceGapToMinimum(cfg, cell, now, v).chan)
  {
    var c := cell.chan;
    if c.pending != map[] {
      DrainGrowsFrom(c.books.trace, c.id, MovedTo(c.id, c.books, MinimumPending(c.pending), now), c.pending, v, now);
    }
  }

  lemma PassThroughGrows(cfg: Config, cell: Cell, d: Decoded, now: nat, v: Verdicts)
    requires TableOf(cell.chan.id, cell.chan.pending) && NamedBy(cell.chan.id, d)
    ensures Grows(now, cell.chan, PassThrough(cfg, cell, d, now, v).chan)
  {
    var c := cell.chan;
    var e := EmitOne(c.id, c.books, d, v).0;
    DrainGrowsFrom(c.books.trace, c.id, e.(expected := d.tick.sequence + 1), c.pending, v, now);
    assert Continued(c.id, now, c.books.trace, e.trace.earlier);
  }

  lemma RetainGrows(cfg: Config, cell: Cell, d: Decoded, now: nat, v: Verdicts)
    requires TableOf(cell.chan.id, cell.chan.pending) && NamedBy(cell.chan.id, d)
    requires d.tick.sequence >= cell.chan.books.expected
    ensures Grows(now, cell.chan, Retain(cfg, cell, d, now, v).chan)
  {
    var c := cell.chan.(pending := cell.chan.pending[d.tick.sequence := d]);
    ForceGrows(cfg, cell.(chan := c), now, v);
    ForceGrows(cfg, Cell(c.(gapOpen := now), Schedule(cell.deadline, now, cfg.gapWait)), now, v);
  }

  lemma ClashGrows(cfg: Config, c: Channel, d: Decoded, now: nat, v: Verdicts)
    requires NamedBy(c.id, d)
    ensures Grows(now, c, Clash(cfg, c, d, now, v))
  {
    var b := Log(c.books, ConflictDropped(d));
    assert Continued(c.id, now, c.books.trace, b.trace);
  }

  lemma MakeRoomGrows(cfg: Config, cell: Cell, sequence: nat, now: nat, v: Verdicts)
    requires TableOf(cell.chan.id, cell.chan.pending) && cell.chan.books.expected < sequence
    ensures Grows(now, cell.chan, MakeRoom(cfg, cell, sequence, now, v).chan)
  {
    ForceGrows(cfg, cell, now, v);
    var c := cell.chan;
    assert Continued(c.id, now, c.books.trace, SkipTo(c.id, c.books, sequence, now).trace.earlier);
  }

  lemma DivertGrows(now: nat, c: Channel, d: Decoded, reason: LateReason, v: Verdicts)
    requires NamedBy(c.id, d)
    ensures Grows(now, c, c.(books := Divert(c.id, c.books, d, reason, v)))
  {
    assert Continued(c.id, now, c.books.trace, c.books.trace);
  }

  lemma {:induction false} ProcessActiveGrows(cfg: Config, cell: Cell, d: Decoded, now: nat, v: Verdicts)
    requires cfg.entries > 0 && Settled(cfg, cell.chan) && Belongs(cell.chan.id, d)
    ensures Grows(now, cell.chan, ProcessActive(cfg, cell, d, now, v).chan)
    decreases cell.chan.pending.Keys, d.tick.sequence > cell.chan.books.expected
  {
    var c := cell.chan;
    var s := d.tick.sequence;
    if s == c.books.expected {
      PassThroughGrows(cfg, cell, d, now, v);
    } else if s < c.books.expected {
      DivertGrows(now, c, d, BehindCommittedFrontier, v);
    } else {
      match Insertion(cfg, c.pending, d)
      case Duplicate =>
      case Conflict => ClashGrows(cfg, c, d, now, v);
      case Collision =>
        var room := MakeRoom(cfg, cell, s, now, v);
        MakeRoomGrows(cfg, cell, s, now, v);
        MakeRoomKeeps(cfg, cell, d, now, v);
        ProcessActiveGrows(cfg, room, d, now, v);
        GrowsTwice(now, c, room.chan, ProcessActive(cfg, room, d, now, v).chan);
      case Inserted => RetainGrows(cfg, cell, d, now, v);
    }
  }

  lemma DiscoverGrows(cfg: Config, cell: Cell, d: Decoded, now: nat, v: Verdicts)
    requires cfg.entries > 0 && cfg.mode == Partial && cell.chan.discovering
    requires Receptive(cfg, cell.chan) && Belongs(cell.chan.id, d)
    ensures Grows(now, cell.chan, Discover(cfg, cell, d, now, v).chan)
  {
    var c := cell.chan;
    match Insertion(cfg, c.pending, d)
    case Collision =>
      var settled := FinishDiscovery(cfg, cell, now, v);
      FinishGrows(cfg, cell, now, v);
      FinishDiscoveryKeeps(cfg, cell, now, v);
      ProcessActiveGrows(cfg, settled, d, now, v);
      GrowsTwice(now, c, settled.chan, ProcessActive(cfg, settled, d, now, v).chan);
    case Inserted =>
      FinishGrows(cfg, StartHold(cfg, cell.(chan := c.(pending := c.pending[d.tick.sequence := d])), now), now, v);
    case _ =>
  }

  lemma ProcessGrows(cfg: Config, cell: Cell, d: Decoded, now: nat, v: Verdicts)
    requires cfg.entries > 0 && Receptive(cfg, cell.chan) && Belongs(cell.chan.id, d)
    ensures Grows(now, cell.chan, ProcessChannel(cfg, cell, d, now, v).chan)
  {
    if cell.chan.frozen {
    } else if cfg.mode == Partial && cell.chan.discovering {
      DiscoverGrows(cfg, cell, d, now, v);
    } else {
      ProcessActiveGrows(cfg, cell, d, now, v);
    }
  }

  lemma PollGrows(cfg: Config, cell: Cell, now: nat, v: Verdicts)
    requires TableOf(cell.chan.id, cell.chan.pending)
    ensures Grows(now, cell.chan, PollChannel(cfg, cell, now, v).chan)
  {
    FinishGrows(cfg, cell, now, v);
    ForceGrows(cfg, cell, now, v);
  }

  lemma {:induction false} ForceAllGrows(cfg: Config, cell: Cell, now: nat, v: Verdicts)
    requires cfg.entries > 0 && Settled(cfg, cell.chan)
    ensures Grows(now, cell.chan, ForceAll(cfg, cell, now, v).chan)
    decreases cell.chan.pending.Keys
  {
    if cell.chan.pending != map[] {
      var forced := ForceGapToMinimum(cfg, cell, now, v);
      ForceGrows(cfg, cell, now, v);
      ForceKeeps(cfg, cell, now, v);
      ForceAllGrows(cfg, forced, now, v);
      GrowsTwice(now, cell.chan, forced.chan, ForceAll(cfg, forced, now, v).chan);
    }
  }

  lemma FlushGrows(cfg: Config, cell: Cell, now: nat, v: Verdicts)
    requires cfg.entries > 0 && Good(cfg, cell.chan)
    ensures Grows(now, cell.chan, FlushChannel(cfg, cell, now, v).chan)
  {
    if cell.chan.discovering {
      var settled := FinishDiscovery(cfg, cell, now, v);
      FinishGrows(cfg, cell, now, v);
      FinishDiscoveryKeeps(cfg, cell, now, v);
      ForceAllGrows(cfg, settled, now, v);
      GrowsTwice(now, cell.chan, settled.chan, ForceAll(cfg, settled, now, v).chan);
    } else if !cell.chan.frozen {
      ForceAllGrows(cfg, cell, now, v);
    }
  }

  // ---- one input, one channel --------------------------------------------------------

  /** The input takes channel `c` to `r`; `deadline` is the shared timer it found. */
  ghost predicate Takes(cfg: Config, c: Channel, input: Input, deadline: nat, v: Verdicts, r: Channel)
    requires cfg.entries > 0
  {
    match input
    case Arrival(d, now) => r == if NamedBy(c.id, d) then ProcessChannel(cfg, Cell(c, deadline), d, now, v).chan else c
    case BadBody(market, channel, observed, now) =>
      r == if cfg.mode == FromOpen && Names(c.id, market, channel)
           then Freeze(c, DecodeFailure, observed, now, v) else c
    case Timer(now) => r == c || r == PollChannel(cfg, Cell(c, deadline), now, v).chan
    case Shutdown(now) => r == FlushChannel(cfg, Cell(c, deadline), now, v).chan
  }

  lemma TakesGrows(cfg: Config, c: Channel, input: Input, deadline: nat, v: Verdicts, r: Channel)
    requires cfg.entries > 0 && Takes(cfg, c, input, deadline, v, r) && ValidInput(input)
    requires Receptive(cfg, c) && (input.Shutdown? ==> Good(cfg, c))
    ensures Grows(input.now, c, r)
  {
    match input
    case Arrival(d, now) => if NamedBy(c.id, d) { ProcessGrows(cfg, Cell(c, deadline), d, now, v); }
    case BadBody(_, _, _, _) =>
    case Timer(now) => PollGrows(cfg, Cell(c, deadline), now, v);
    case Shutdown(now) => FlushGrows(cfg, Cell(c, deadline), now, v);
  }

  lemma {:induction false} ScanTakes(
    cfg: Config, lane: Lane, n: nat, now: nat, v: Verdicts, j: nat) returns (deadline: nat)
    requires j < n <= |lane.chans|
    ensures Scan(cfg, lane, n, now, v).chans[j] == PollChannel(cfg, Cell(lane.chans[j], deadline), now, v).chan
  {
    if j == n - 1 {
      deadline := Scan(cfg, lane, j, now, v).deadline;
    } else {
      deadline := ScanTakes(cfg, lane, n - 1, now, v, j);
    }
  }

  lemma {:induction false} FlushTakes(
    cfg: Config, lane: Lane, n: nat, now: nat, v: Verdicts, j: nat) returns (deadline: nat)
    requires j < n <= |lane.chans|
    ensures Flush(cfg, lane, n, now, v).chans[j] == FlushChannel(cfg, Cell(lane.chans[j], deadline), now, v).chan
  {
    if j == n - 1 {
      deadline := Flush(cfg, lane, j, now, v).deadline;
    } else {
      deadline := FlushTakes(cfg, lane, n - 1, now, v, j);
    }
  }

  /** A name leads to the one channel that has it. */
  lemma IndexIs(cfg: Config, lane: Lane, j: nat, market: Market, channel: nat)
    requires Placed(cfg, lane.chans) && j < |lane.chans|
    ensures Names(lane.chans[j].id, market, channel) <==> IndexOf(lane.chans, market, channel) == j
  {
  }

  /** Every channel of a lane is taken from where it was. */
  lemma StepTakes(cfg: Config, lane: Lane, input: Input, v: Verdicts, j: nat) returns (deadline: nat)
    requires cfg.entries > 0 && Sound(cfg, lane) && j < |lane.chans|
    ensures var r := Step(cfg, lane, input, v).chans;
      j < |r| && Takes(cfg, lane.chans[j], input, deadline, v, r[j])
  {
    deadline := lane.deadline;
    match input
    case Arrival(d, now) => IndexIs(cfg, lane, j, d.tick.market, d.tick.channel);
    case BadBody(market, channel, _, _) => IndexIs(cfg, lane, j, market, channel);
    case Timer(now) => deadline := ScanTakes(cfg, lane.(deadline := 0), |lane.chans|, now, v, j);
    case Shutdown(now) => deadline := FlushTakes(cfg, lane, |lane.chans|, now, v, j);
  }

  predicate About(input: Input, market: Market, channel: nat) {
    match input
    case Arrival(d, _) => d.tick.market == market && d.tick.channel == channel
    case BadBody(m, c, _, _) => m == market && c == channel
    case _ => false
  }

  /** At most one channel is created, by an input about it, and is taken on at once. */
  lemma StepCreates(cfg: Config, lane: Lane, input: Input, v: Verdicts)
    requires cfg.entries > 0 && Sound(cfg, lane) && ValidInput(input)
    ensures var r := Step(cfg, lane, input, v).chans; var n := |lane.chans|;
      && n <= |r| <= n + 1
      && (|r| == n + 1 ==>
            && n < cfg.maximumChannels
            && About(input, r[n].id.market, r[n].id.channel) && r[n].id.mailbox == n
            && Takes(cfg, NewChannel(cfg, r[n].id), input, lane.deadline, v, r[n]))
  {
    match input
    case Arrival(d, now) =>
      if !Refused(cfg, lane, d.tick.market, d.tick.channel) {
        WithChannelPlaced(cfg, lane, d.tick.market, d.tick.channel);
        var chans := WithChannel(cfg, lane, d.tick.market, d.tick.channel);
        ProcessKeeps(cfg, Cell(chans[IndexOf(lane.chans, d.tick.market, d.tick.channel)], lane.deadline), d, now, v);
      }
    case _ =>
  }

  // ---- one channel of a run --------------------------------------------------------

  function Given(input: Input, market: Market, channel: nat): seq<Decoded> {
    if input.Arrival? && About(input, market, channel) then [input.body] else []
  }

  /** The records of one channel, in the order in which the lane was given them. */
  function OnChannel(inputs: seq<Input>, market: Market, channel: nat): seq<Decoded> {
    if inputs == [] then []
    else OnChannel(inputs[..|inputs| - 1], market, channel) + Given(inputs[|inputs| - 1], market, channel)
  }

  function IndexIn(lane: Lane, market: Market, channel: nat): nat {
    IndexOf(lane.chans, market, channel)
  }

  predicate Present(lane: Lane, market: Market, channel: nat) {
    IndexIn(lane, market, channel) < |lane.chans|
  }

  /** The channel as its next input will find it, new if need be. */
  function Found(cfg: Config, lane: Lane, market: Market, channel: nat): Channel {
    var i := IndexIn(lane, market, channel);
    if i < |lane.chans| then lane.chans[i] else NewChannel(cfg, Identity(market, channel, i))
  }

  /** A channel that is absent was given nothing, unless the lane is full: then it stays absent. */
  lemma {:induction false} AbsentHeardNothing(
    cfg: Config, inputs: seq<Input>, v: Verdicts, market: Market, channel: nat)
    requires cfg.entries > 0 && ValidInputs(inputs)
    requires !Present(Run(cfg, inputs, v), market, channel)
    ensures OnChannel(inputs, market, channel) == [] || Full(cfg, Run(cfg, inputs, v))
    ensures OnChannel(inputs, market, channel) == [] || Run(cfg, inputs, v).exhausted
  {
    if inputs != [] {
      var earlier, last := inputs[..|inputs| - 1], inputs[|inputs| - 1];
      var before := Run(cfg, earlier, v);
      RunKeeps(cfg, earlier, v);
      StepSound(cfg, before, last, v, ANY);
      StepCreates(cfg, before, last, v);
      if Present(before, market, channel) {
        StepKeepsIndex(cfg, before, last, v, market, channel);
      } else {
        AbsentHeardNothing(cfg, earlier, v, market, channel);
        if About(last, market, channel) && last.Arrival? && !Refused(cfg, before, market, channel) {
          ProcessPresent(cfg, before, last.body, last.now, v);
        }
      }
    }
  }

  predicate Full(cfg: Config, lane: Lane) {
    |lane.chans| >= cfg.maximumChannels
  }

  lemma ProcessPresent(cfg: Config, lane: Lane, d: Decoded, now: nat, v: Verdicts)
    requires cfg.entries > 0 && Sound(cfg, lane) && 0 < d.tick.sequence < SEQUENCE_LIMIT
    requires !Refused(cfg, lane, d.tick.market, d.tick.channel)
    ensures Present(Process(cfg, lane, d, now, v), d.tick.market, d.tick.channel)
  {
    WithChannelPlaced(cfg, lane, d.tick.market, d.tick.channel);
    var chans := WithChannel(cfg, lane, d.tick.market, d.tick.channel);
    var i := IndexOf(lane.chans, d.tick.market, d.tick.channel);
    ProcessKeeps(cfg, Cell(chans[i], lane.deadline), d, now, v);
    var r := Process(cfg, lane, d, now, v).chans;
    assert NamedBy(r[i].id, d);
  }

  /** The last input takes the channel from where the earlier ones left it. */
  lemma LastTakes(cfg: Config, inputs: seq<Input>, v: Verdicts, market: Market, channel: nat) returns (deadline: nat)
    requires cfg.entries > 0 && ValidInputs(inputs) && inputs != []
    requires Present(Run(cfg, inputs, v), market, channel)
    ensures var earlier := inputs[..|inputs| - 1]; var last := inputs[|inputs| - 1];
      var before := Run(cfg, earlier, v); var after := Run(cfg, inputs, v);
      var c := Found(cfg, before, market, channel);
      && Receptive(cfg, c) && Names(c.id, market, channel)
      && IndexIn(after, market, channel) == IndexIn(before, market, channel)
      && Takes(cfg, c, last, deadline, v, Found(cfg, after, market, channel))
      && (Present(before, market, channel) ==> Good(cfg, c))
      && (!Present(before, market, channel) ==>
            OnChannel(earlier, market, channel) == [] && About(last, market, channel))
  {
    var earlier, last := inputs[..|inputs| - 1], inputs[|inputs| - 1];
    var before, after := Run(cfg, earlier, v), Run(cfg, inputs, v);
    RunKeeps(cfg, earlier, v);
    StepCreates(cfg, before, last, v);
    if Present(before, market, channel) {
      StepKeepsIndex(cfg, before, last, v, market, channel);
      deadline := StepTakes(cfg, before, last, v, IndexIn(before, market, channel));
    } else {
      AbsentHeardNothing(cfg, earlier, v, market, channel);
      Appears(cfg, before, last, v, market, channel);
      deadline := before.deadline;
    }
  }

  lemma Appears(cfg: Config, lane: Lane, input: Input, v: Verdicts, market: Market, channel: nat)
    requires cfg.entries > 0 && Sound(cfg, lane) && ValidInput(input) && !Present(lane, market, channel)
    requires Present(Step(cfg, lane, input, v), market, channel)
    ensures var r := Step(cfg, lane, input, v); var n := |lane.chans|;
      && IndexIn(r, market, channel) == n && |r.chans| == n + 1 && r.chans[n].id == Identity(market, channel, n)
  {
    var r := Step(cfg, lane, input, v);
    StepCreates(cfg, lane, input, v);
    forall j | 0 <= j < |lane.chans| ensures !Names(r.chans[j].id, market, channel) {
      StepKeepsName(cfg, lane, input, v, j);
      assert !Names(lane.chans[j].id, market, channel);
    }
  }

  // ---- every event of a run ----------------------------------------------------------

  /** The event is the channel's, at one of these times. */
  ghost predicate EventAtSome(id: Identity, clocks: set<nat>, e: Event) {
    exists now :: now in clocks && EventOf(id, now, e)
  }

  /** All events are the channel's, each at one of these times. */
  ghost predicate AllOf(id: Identity, clocks: set<nat>, t: Trace) {
    t.Then? ==> EventAtSome(id, clocks, t.last) && AllOf(id, clocks, t.earlier)
  }

  /** The clock readings of a run. */
  function Clocks(inputs: seq<Input>): set<nat> {
    if inputs == [] then {} else Clocks(inputs[..|inputs| - 1]) + {inputs[|inputs| - 1].now}
  }

  lemma {:induction false} AllOfMore(id: Identity, clocks: set<nat>, now: nat, p: Trace, t: Trace)
    requires AllOf(id, clocks, p) && Continued(id, now, p, t)
    ensures AllOf(id, clocks + {now}, t)
  {
    if t.Then? {
      if p == t {
        AllOfMore(id, clocks, now, p.earlier, t.earlier);
        var at :| at in clocks && EventOf(id, at, t.last);
        assert at in clocks + {now};
      } else {
        AllOfMore(id, clocks, now, p, t.earlier);
        assert now in clocks + {now};
      }
    }
  }

  /** What the last input makes a channel publish names the channel and that input's clock. */
  lemma LastPublishesOwn(cfg: Config, inputs: seq<Input>, v: Verdicts, market: Market, channel: nat)
    requires cfg.entries > 0 && ValidInputs(inputs) && inputs != [] && Present(Run(cfg, inputs, v), market, channel)
    ensures var before := Run(cfg, inputs[..|inputs| - 1], v);
      Grows(inputs[|inputs| - 1].now, Found(cfg, before, market, channel),
            Found(cfg, Run(cfg, inputs, v), market, channel))
  {
    var earlier, last := inputs[..|inputs| - 1], inputs[|inputs| - 1];
    var deadline := LastTakes(cfg, inputs, v, market, channel);
    TakesGrows(cfg, Found(cfg, Run(cfg, earlier, v), market, channel), last, deadline, v,
               Found(cfg, Run(cfg, inputs, v), market, channel));
  }

  /** On every run, every tick, late record, gap and fault of a channel is its own and names
      it, and every gap and fault carries the clock reading of some input. */
  lemma {:induction false} PublishesOwn(cfg: Config, inputs: seq<Input>, v: Verdicts, market: Market, channel: nat)
    requires cfg.entries > 0 && ValidInputs(inputs) && Present(Run(cfg, inputs, v), market, channel)
    ensures var c := Found(cfg, Run(cfg, inputs, v), market, channel);
      Names(c.id, market, channel) && AllOf(c.id, Clocks(inputs), c.books.trace)
  {
    var earlier, last := inputs[..|inputs| - 1], inputs[|inputs| - 1];
    var before := Run(cfg, earlier, v);
    var deadline := LastTakes(cfg, inputs, v, market, channel);
    var c, r := Found(cfg, before, market, channel), Found(cfg, Run(cfg, inputs, v), market, channel);
    if Present(before, market, channel) { PublishesOwn(cfg, earlier, v, market, channel); }
    LastPublishesOwn(cfg, inputs, v, market, channel);
    AllOfMore(c.id, Clocks(earlier), last.now, c.books.trace, r.books.trace);
  }

  lemma {:induction false} EmittedIsNamed(mode: StartMode, id: Identity, clocks: set<nat>, trace: Trace, x: Decoded)
    requires Told(mode, trace) && AllOf(id, clocks, trace) && EmittedTimes(trace, x) > 0
    ensures NamedBy(id, x) && Disposals(trace, x) > 0
  {
    if !(trace.last.Emitted? && trace.last.body == x) {
      EmittedIsNamed(mode, id, clocks, trace.earlier, x);
    }
  }
}
