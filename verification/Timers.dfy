/** The cached deadline: a timer poll that returns early skips no channel whose hold or
    gap wait has been reached. Zero is a sentinel in every timer field, so clock readings
    are positive; and a drain whose tick is refused ends before the timer is set, so this
    is said of the channels none of whose ticks was refused. Both conditions are needed. */
module Timers {
  import opened Canonical
  import opened ChannelSpec
  import opened Ledger
  import opened LaneSpec
  import opened OneChannel

  /** The dispatch queue took every tick of the channel. */
  predicate NoneRefused(trace: Trace) {
    trace.Then? ==> NoneRefused(trace.earlier) && (trace.last.Emitted? ==> trace.last.ok)
  }

  /** A live channel has a running timer exactly while it retains records. */
  predicate Running(c: Channel) {
    c.frozen ||
    (if c.pending == map[] then c.gapOpen == 0
     else if c.discovering then c.firstSeen != 0
     else c.gapOpen != 0)
  }

  function DueOf(cfg: Config, c: Channel): nat {
    if c.discovering then Due(c.firstSeen, cfg.initialHold) else Due(c.gapOpen, cfg.gapWait)
  }

  /** ... and the shared deadline is set, and not later than that timer's. */
  predicate Armed(cfg: Config, c: Channel, deadline: nat) {
    Running(c) && (c.frozen || c.pending == map[] || 0 < deadline <= DueOf(cfg, c))
  }

  predicate RunningUnlessRefused(c: Channel) {
    NoneRefused(c.books.trace) ==> Running(c)
  }

  predicate ArmedUnlessRefused(cfg: Config, c: Channel, deadline: nat) {
    NoneRefused(c.books.trace) ==> Armed(cfg, c, deadline)
  }

  /** The deadline only ever moves earlier. */
  predicate Sooner(before: nat, after: nat) {
    before != 0 ==> 0 < after <= before
  }

  predicate ArmedCell(cfg: Config, cell: Cell, r: Cell) {
    ArmedUnlessRefused(cfg, r.chan, r.deadline) && Sooner(cell.deadline, r.deadline)
  }

  lemma {:induction false} DrainTaken(id: Identity, b: Books, pending: Table, v: Verdicts)
    requires NoneRefused(Drain(id, b, pending, v).books.trace)
    ensures Drain(id, b, pending, v).ok
    decreases pending.Keys
  {
    if b.expected in pending {
      RemovalShrinks(pending, b.expected);
      var (e, ok) := EmitOne(id, b, pending[b.expected], v);
      if ok {
        DrainTaken(id, e.(expected := b.expected + 1), pending - {b.expected}, v);
      }
    }
  }

  lemma DrainContiguousArms(cfg: Config, cell: Cell, now: nat, v: Verdicts)
    requires now > 0 && !cell.chan.discovering
    ensures var r := DrainContiguous(cfg, cell, now, v); ArmedCell(cfg, cell, r) && !r.chan.discovering
  {
    var c := cell.chan;
    if NoneRefused(Drain(c.id, c.books, c.pending, v).books.trace) {
      DrainTaken(c.id, c.books, c.pending, v);
    }
  }

  lemma ForceArms(cfg: Config, cell: Cell, now: nat, v: Verdicts)
    requires now > 0 && !cell.chan.discovering
    ensures var r := ForceGapToMinimum(cfg, cell, now, v); ArmedCell(cfg, cell, r) && !r.chan.discovering
  {
    var c := cell.chan;
    if c.pending != map[] {
      var moved := MovedTo(c.id, c.books, MinimumPending(c.pending), now);
      DrainContiguousArms(cfg, cell.(chan := c.(books := moved)), now, v);
    }
  }

  lemma FinishDiscoveryArms(cfg: Config, cell: Cell, now: nat, v: Verdicts)
    requires now > 0 && cell.chan.discovering && cell.chan.pending != map[]
    ensures var r := FinishDiscovery(cfg, cell, now, v); ArmedCell(cfg, cell, r) && !r.chan.discovering
  {
    var c := cell.chan;
    var started := Log(c.books, OriginFixed(MinimumPending(c.pending))).(expected := MinimumPending(c.pending));
    DrainContiguousArms(cfg, cell.(chan := c.(discovering := false, books := started)), now, v);
  }

  lemma PassThroughArms(cfg: Config, cell: Cell, d: Decoded, now: nat, v: Verdicts)
    requires now > 0 && !cell.chan.discovering
    ensures ArmedCell(cfg, cell, PassThrough(cfg, cell, d, now, v))
  {
    var c := cell.chan;
    var e := EmitOne(c.id, c.books, d, v).0;
    DrainContiguousArms(cfg, cell.(chan := c.(books := e.(expected := d.tick.sequence + 1))), now, v);
  }

  lemma RetainArms(cfg: Config, cell: Cell, d: Decoded, now: nat, v: Verdicts)
    requires now > 0 && !cell.chan.discovering && ArmedUnlessRefused(cfg, cell.chan, cell.deadline)
    requires d.tick.sequence > cell.chan.books.expected
    ensures ArmedCell(cfg, cell, Retain(cfg, cell, d, now, v))
  {
    var c := cell.chan.(pending := cell.chan.pending[d.tick.sequence := d]);
    assert d.tick.sequence in c.pending;
    if d.tick.sequence - c.books.expected > cfg.maximumSpan || c.gapOpen != 0 {
      ForceArms(cfg, cell.(chan := c), now, v);
    } else {
      ForceArms(cfg, Cell(c.(gapOpen := now), Schedule(cell.deadline, now, cfg.gapWait)), now, v);
    }
  }

  lemma MakeRoomArms(cfg: Config, cell: Cell, sequence: nat, now: nat, v: Verdicts)
    requires now > 0 && !cell.chan.discovering && ArmedUnlessRefused(cfg, cell.chan, cell.deadline)
    requires cell.chan.books.expected < sequence
    ensures var r := MakeRoom(cfg, cell, sequence, now, v); ArmedCell(cfg, cell, r) && !r.chan.discovering
  {
    ForceArms(cfg, cell, now, v);
  }

  lemma {:induction false} ProcessActiveArms(cfg: Config, cell: Cell, d: Decoded, now: nat, v: Verdicts)
    requires cfg.entries > 0 && now > 0
    requires !cell.chan.discovering && ArmedUnlessRefused(cfg, cell.chan, cell.deadline)
    ensures ArmedCell(cfg, cell, ProcessActive(cfg, cell, d, now, v))
    decreases cell.chan.pending.Keys, d.tick.sequence > cell.chan.books.expected
  {
    var c := cell.chan;
    var s := d.tick.sequence;
    if s == c.books.expected {
      PassThroughArms(cfg, cell, d, now, v);
    } else if s > c.books.expected {
      match Insertion(cfg, c.pending, d)
      case Collision =>
        MakeRoomArms(cfg, cell, s, now, v);
        ProcessActiveArms(cfg, MakeRoom(cfg, cell, s, now, v), d, now, v);
      case Inserted => RetainArms(cfg, cell, d, now, v);
      case _ =>
    }
  }

  lemma DiscoverArms(cfg: Config, cell: Cell, d: Decoded, now: nat, v: Verdicts)
    requires cfg.entries > 0 && now > 0
    requires cell.chan.discovering && ArmedUnlessRefused(cfg, cell.chan, cell.deadline)
    requires cell.chan.pending == map[] ==> cell.chan.firstSeen == 0
    ensures ArmedCell(cfg, cell, Discover(cfg, cell, d, now, v))
  {
    var c := cell.chan;
    match Insertion(cfg, c.pending, d)
    case Collision =>
      FinishDiscoveryArms(cfg, cell, now, v);
      ProcessActiveArms(cfg, FinishDiscovery(cfg, cell, now, v), d, now, v);
    case Inserted =>
      var held := StartHold(cfg, cell.(chan := c.(pending := c.pending[d.tick.sequence := d])), now);
      assert d.tick.sequence in held.chan.pending;
      FinishDiscoveryArms(cfg, held, now, v);
    case _ =>
  }

  lemma ProcessArms(cfg: Config, cell: Cell, d: Decoded, now: nat, v: Verdicts)
    requires cfg.entries > 0 && now > 0
    requires Receptive(cfg, cell.chan) && ArmedUnlessRefused(cfg, cell.chan, cell.deadline)
    ensures ArmedCell(cfg, cell, ProcessChannel(cfg, cell, d, now, v))
  {
    var c := cell.chan;
    if !c.frozen {
      if cfg.mode == Partial && c.discovering {
        DiscoverArms(cfg, cell, d, now, v);
      } else {
        ProcessActiveArms(cfg, cell, d, now, v);
      }
    }
  }

  /** The scan re-arms a channel from its own timer, whatever the deadline was. */
  lemma PollArms(cfg: Config, cell: Cell, now: nat, v: Verdicts)
    requires now > 0 && RunningUnlessRefused(cell.chan)
    ensures ArmedCell(cfg, cell, PollChannel(cfg, cell, now, v))
  {
    if cell.chan.pending == map[] {
    } else if cell.chan.discovering {
      FinishDiscoveryArms(cfg, cell, now, v);
    } else {
      ForceArms(cfg, cell, now, v);
    }
  }

  lemma {:induction false} ForceAllArms(cfg: Config, cell: Cell, now: nat, v: Verdicts)
    requires now > 0 && !cell.chan.discovering && ArmedUnlessRefused(cfg, cell.chan, cell.deadline)
    ensures ArmedCell(cfg, cell, ForceAll(cfg, cell, now, v))
    decreases cell.chan.pending.Keys
  {
    if cell.chan.pending != map[] {
      ForceArms(cfg, cell, now, v);
      ForceAllArms(cfg, ForceGapToMinimum(cfg, cell, now, v), now, v);
    }
  }

  lemma FlushArms(cfg: Config, cell: Cell, now: nat, v: Verdicts)
    requires now > 0 && ArmedUnlessRefused(cfg, cell.chan, cell.deadline)
    requires cell.chan.discovering ==> cell.chan.pending != map[]
    ensures ArmedCell(cfg, cell, FlushChannel(cfg, cell, now, v))
  {
    if !cell.chan.frozen {
      if cell.chan.discovering {
        FinishDiscoveryArms(cfg, cell, now, v);
        ForceAllArms(cfg, FinishDiscovery(cfg, cell, now, v), now, v);
      } else {
        ForceAllArms(cfg, cell, now, v);
      }
    }
  }

  // ---- lanes -------------------------------------------------------------------

  predicate ArmedUpTo(cfg: Config, lane: Lane, n: nat)
    requires n <= |lane.chans|
  {
    forall i :: 0 <= i < n ==> ArmedUnlessRefused(cfg, lane.chans[i], lane.deadline)
  }

  predicate AllArmed(cfg: Config, lane: Lane) {
    ArmedUpTo(cfg, lane, |lane.chans|)
  }

  lemma {:induction false} ScanArms(cfg: Config, lane: Lane, n: nat, now: nat, v: Verdicts)
    requires now > 0 && n <= |lane.chans|
    requires forall i :: 0 <= i < |lane.chans| ==> RunningUnlessRefused(lane.chans[i])
    ensures ArmedUpTo(cfg, Scan(cfg, lane, n, now, v), n)
  {
    if n > 0 {
      ScanArms(cfg, lane, n - 1, now, v);
      var before := Scan(cfg, lane, n - 1, now, v);
      PollArms(cfg, Cell(before.chans[n - 1], before.deadline), now, v);
    }
  }

  lemma {:induction false} FlushLaneArms(cfg: Config, lane: Lane, n: nat, now: nat, v: Verdicts)
    requires now > 0 && n <= |lane.chans| && AllArmed(cfg, lane)
    requires forall i :: 0 <= i < |lane.chans| && lane.chans[i].discovering ==> lane.chans[i].pending != map[]
    ensures AllArmed(cfg, Flush(cfg, lane, n, now, v))
  {
    if n > 0 {
      FlushLaneArms(cfg, lane, n - 1, now, v);
      var before := Flush(cfg, lane, n - 1, now, v);
      FlushArms(cfg, Cell(before.chans[n - 1], before.deadline), now, v);
    }
  }

  function Clock(input: Input): nat {
    input.now
  }

  lemma StepArms(cfg: Config, lane: Lane, input: Input, v: Verdicts)
    requires cfg.entries > 0 && Clock(input) > 0 && Sound(cfg, lane) && AllArmed(cfg, lane)
    ensures AllArmed(cfg, Step(cfg, lane, input, v))
  {
    match input
    case Arrival(body, now) =>
      if !Refused(cfg, lane, body.tick.market, body.tick.channel) {
        WithChannelPlaced(cfg, lane, body.tick.market, body.tick.channel);
        var chans := WithChannel(cfg, lane, body.tick.market, body.tick.channel);
        var i := IndexOf(lane.chans, body.tick.market, body.tick.channel);
        ProcessArms(cfg, Cell(chans[i], lane.deadline), body, now, v);
      }
    case BadBody(_, _, _, _) =>
    case Timer(now) => ScanArms(cfg, lane.(deadline := 0), |lane.chans|, now, v);
    case Shutdown(now) => FlushLaneArms(cfg, lane, |lane.chans|, now, v);
  }

  lemma {:induction false} RunArmed(cfg: Config, inputs: seq<Input>, v: Verdicts)
    requires cfg.entries > 0 && ValidInputs(inputs)
    requires forall i :: 0 <= i < |inputs| ==> Clock(inputs[i]) > 0
    ensures AllArmed(cfg, Run(cfg, inputs, v))
  {
    if inputs != [] {
      var earlier, last := inputs[..|inputs| - 1], inputs[|inputs| - 1];
      RunArmed(cfg, earlier, v);
      RunKeeps(cfg, earlier, v);
      StepArms(cfg, Run(cfg, earlier, v), last, v);
    }
  }

  // ---- the fast path -------------------------------------------------------------

  /** The hold or gap wait of this channel has been reached. */
  predicate Ripe(cfg: Config, c: Channel, now: nat) {
    && !c.frozen && c.pending != map[]
    && if c.discovering then Reached(now, c.firstSeen, cfg.initialHold) else Reached(now, c.gapOpen, cfg.gapWait)
  }

  /** A poll does to the channel what a scan of all channels would, and skips no ripe one. */
  ghost predicate Skipless(cfg: Config, lane: Lane, i: nat, now: nat, v: Verdicts)
    requires i < |lane.chans|
  {
    && Poll(cfg, lane, now, v).chans[i] == FullScan(cfg, lane, now, v).chans[i]
    && (lane.deadline == 0 || now < lane.deadline ==> !Ripe(cfg, lane.chans[i], now))
  }

  /** On every run, the early return skips no channel of which no tick was refused: a poll
      leaves it exactly as a scan of all channels would. */
  lemma FastPathExact(cfg: Config, inputs: seq<Input>, now: nat, v: Verdicts, i: nat)
    requires cfg.entries > 0 && ValidInputs(inputs)
    requires forall k :: 0 <= k < |inputs| ==> Clock(inputs[k]) > 0
    requires i < |Run(cfg, inputs, v).chans| && NoneRefused(Run(cfg, inputs, v).chans[i].books.trace)
    ensures Skipless(cfg, Run(cfg, inputs, v), i, now, v)
  {
    RunArmed(cfg, inputs, v);
    var lane := Run(cfg, inputs, v);
    if lane.deadline == 0 || now < lane.deadline {
      assert Armed(cfg, lane.chans[i], lane.deadline);
      var found := ScanTakes(cfg, lane.(deadline := 0), |lane.chans|, now, v, i);
    }
  }

  // ---- why both conditions are needed ------------------------------------------------

  const TIGHT := Config(FromOpen, 1, 4, 4, 1_000, 1_000)

  lemma OneStep(lane: Lane, c: Channel, d: Decoded, now: nat, v: Verdicts)
    requires lane.chans == [c] && NamedBy(c.id, d)
    ensures var r := ProcessChannel(TIGHT, Cell(c, lane.deadline), d, now, v);
      Step(TIGHT, lane, Arrival(d, now), v) == Lane([r.chan], r.deadline, lane.exhausted)
  {
    assert IndexOf(lane.chans, d.tick.market, d.tick.channel) == 0;
  }

  /** The first record of a FROM_OPEN channel comes too early and is retained. */
  lemma FirstIsEarly(d: Decoded, now: nat, v: Verdicts) returns (c: Channel)
    requires d.tick.sequence == 2
    ensures Run(TIGHT, [Arrival(d, now)], v) == Lane([c], now + 1_000, false) || now + 1_000 > U64_MAX
    ensures c == NewChannel(TIGHT, Identity(d.tick.market, d.tick.channel, 0)).(gapOpen := now, pending := map[2 := d])
  {
    var inputs := [Arrival(d, now)];
    var start := NewChannel(TIGHT, Identity(d.tick.market, d.tick.channel, 0));
    assert inputs[..0] == [];
    assert Run(TIGHT, inputs, v) == Step(TIGHT, EMPTY, inputs[0], v) == Process(TIGHT, EMPTY, d, now, v);
    assert !Collides(TIGHT, map[], 2);
    assert Insertion(TIGHT, start.pending, d).Inserted?;
    c := start.(gapOpen := now, pending := map[2 := d]);
    assert start.pending[d.tick.sequence := d] == map[2 := d];
    assert Retain(TIGHT, Cell(start, 0), d, now, v) == Cell(c, Schedule(0, now, 1_000));
  }

  /** A clock reading of zero reads as "no timer": the wait of a record that arrives then is
      never found over, however late the poll. */
  lemma ZeroClockStalls(d: Decoded, now: nat, v: Verdicts)
    requires d.tick.sequence == 2 && now >= 1_000
    ensures var lane := Run(TIGHT, [Arrival(d, 0)], v);
      && |lane.chans| == 1 && Ripe(TIGHT, lane.chans[0], now)
      && Poll(TIGHT, lane, now, v).chans == lane.chans && !Running(lane.chans[0])
  {
    var c := FirstIsEarly(d, 0, v);
    var lane := Run(TIGHT, [Arrival(d, 0)], v);
    assert 2 in c.pending;
    var found := ScanTakes(TIGHT, lane.(deadline := 0), 1, now, v, 0);
  }

  /** The answers of a dispatch queue that refuses a channel's second call. */
  predicate SecondRefused(v: Verdicts) {
    v(0, 0) && !v(0, 1)
  }

  /** A refused tick leaves the wait of a gap open that is closed: here 2 waits for 1, 1 comes
      and 2 is refused. Nothing is retained, yet the timer runs on. */
  lemma RefusedTickDisarms(first: Decoded, second: Decoded, v: Verdicts) returns (c: Channel)
    requires first.tick.sequence == 1 && second.tick.sequence == 2 && first.catalogMatch && second.catalogMatch
    requires first.tick.market == second.tick.market && first.tick.channel == second.tick.channel && SecondRefused(v)
    ensures var lane := Run(TIGHT, [Arrival(second, 5), Arrival(first, 6)], v);
      && lane == Lane([c], 1_005, false) && c.id == Identity(first.tick.market, first.tick.channel, 0)
      && c.pending == map[] && c.gapOpen == 5 && c.books.expected == 2 && !c.frozen && !c.discovering
      && !Running(c) && !NoneRefused(c.books.trace)
  {
    var b := FirstIsEarly(second, 5, v);
    var inputs := [Arrival(second, 5), Arrival(first, 6)];
    assert inputs[..1] == [Arrival(second, 5)];
    OneStep(Run(TIGHT, inputs[..1], v), b, first, 6, v);
    var cell := Cell(b, 1_005);
    var passed := EmitOne(b.id, b.books, first, v).0.(expected := 2);
    var tried := EmitOne(b.id, passed, second, v).0;
    assert 2 in b.pending && b.pending[2] == second && b.pending - {2} == map[];
    assert Drain(b.id, passed, b.pending, v) == Drained(tried, map[], false);
    c := b.(books := tried, pending := map[]);
    assert PassThrough(TIGHT, cell, first, 6, v) == Cell(c, 1_005);
  }

  /** ... so the next gap is not scheduled: once a scan has cleared the cached deadline, a
      record that waits for 3 is ripe and no poll ever finds it. */
  lemma RefusedTickStalls(first: Decoded, second: Decoded, fourth: Decoded, now: nat, v: Verdicts)
    requires first.tick.sequence == 1 && second.tick.sequence == 2 && fourth.tick.sequence == 4
    requires first.catalogMatch && second.catalogMatch && SecondRefused(v) && now >= 1_006
    requires first.tick.market == second.tick.market == fourth.tick.market
    requires first.tick.channel == second.tick.channel == fourth.tick.channel
    ensures var lane := Run(TIGHT, [Arrival(second, 5), Arrival(first, 6), Timer(1_005), Arrival(fourth, 1_006)], v);
      && |lane.chans| == 1 && Ripe(TIGHT, lane.chans[0], now) && !Skipless(TIGHT, lane, 0, now, v)
  {
    var c := RefusedTickDisarms(first, second, v);
    var inputs := [Arrival(second, 5), Arrival(first, 6), Timer(1_005), Arrival(fourth, 1_006)];
    assert inputs[..3][..2] == [Arrival(second, 5), Arrival(first, 6)] && inputs[..3][2] == Timer(1_005);
    var cleared := Run(TIGHT, inputs[..3], v);
    var idle := Lane([c], 0, false);
    assert Scan(TIGHT, idle, 1, 1_005, v) == Polled(TIGHT, idle, 0, 1_005, v) == idle.(chans := [c][0 := c]);
    assert [c][0 := c] == [c];
    assert cleared == Poll(TIGHT, Lane([c], 1_005, false), 1_005, v) == idle;
    OneStep(cleared, c, fourth, 1_006, v);
    var pending := c.pending[4 := fourth];
    assert 4 in pending && !Collides(TIGHT, c.pending, 4);
    assert Retain(TIGHT, Cell(c, 0), fourth, 1_006, v) == Cell(c.(pending := pending), 0);
  }
}
