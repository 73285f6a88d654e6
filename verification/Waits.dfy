/** When the two waits of a channel began, told from its inputs: the wait for a gap begins
    with the first record retained and anew whenever the frontier has moved and something is
    left, the initial hold with the channel's first record. */
module Waits {
  import opened Canonical
  import opened ChannelSpec
  import opened Ledger
  import opened LaneSpec
  import opened TraceTheorems
  import opened OneChannel
  import opened Timers

  /** When the wait of `r` began, if the input at this time led from `c` to `r`. */
  predicate WaitSays(c: Channel, now: nat, r: Channel) {
    r.gapOpen ==
      if r.discovering || r.pending == map[] then 0
      else if c.discovering || c.pending == map[] || r.books.expected != c.books.expected then now
      else c.gapOpen
  }

  /** A wait that has just begun, if anything is left to wait for. */
  predicate Begun(now: nat, r: Channel) {
    !r.discovering && r.gapOpen == if r.pending == map[] then 0 else now
  }

  /** Nothing waits without something retained. */
  predicate Idle(c: Channel) {
    c.discovering || c.pending == map[] ==> c.gapOpen == 0
  }

  lemma {:induction false} NoneRefusedBefore(p: Trace, t: Trace)
    requires Prefix(p, t) && NoneRefused(t)
    ensures NoneRefused(p)
  {
    if p != t { NoneRefusedBefore(p, t.earlier); }
  }

  lemma GrownUnrefused(now: nat, c: Channel, r: Channel)
    requires Grows(now, c, r) && NoneRefused(r.books.trace)
    ensures NoneRefused(c.books.trace)
  {
    ContinuedPrefix(c.id, now, c.books.trace, r.books.trace);
    NoneRefusedBefore(c.books.trace, r.books.trace);
  }

  lemma DrainBegins(cfg: Config, cell: Cell, now: nat, v: Verdicts)
    requires !cell.chan.discovering && NoneRefused(DrainContiguous(cfg, cell, now, v).chan.books.trace)
    ensures Begun(now, DrainContiguous(cfg, cell, now, v).chan)
    ensures cell.chan.books.expected <= DrainContiguous(cfg, cell, now, v).chan.books.expected
  {
    var c := cell.chan;
    DrainTaken(c.id, c.books, c.pending, v);
    DrainAdvances(c.id, c.books, c.pending, v);
  }

  lemma FinishBegins(cfg: Config, cell: Cell, now: nat, v: Verdicts)
    requires cell.chan.pending != map[] && cell.chan.discovering
    requires NoneRefused(FinishDiscovery(cfg, cell, now, v).chan.books.trace)
    ensures Begun(now, FinishDiscovery(cfg, cell, now, v).chan)
  {
    var c := cell.chan;
    var m := MinimumPending(c.pending);
    var started := Log(c.books, OriginFixed(m)).(expected := m);
    DrainBegins(cfg, cell.(chan := c.(discovering := false, books := started)), now, v);
  }

  lemma ForceBegins(cfg: Config, cell: Cell, now: nat, v: Verdicts)
    requires cfg.entries > 0 && Settled(cfg, cell.chan) && cell.chan.pending != map[]
    requires NoneRefused(ForceGapToMinimum(cfg, cell, now, v).chan.books.trace)
    ensures var r := ForceGapToMinimum(cfg, cell, now, v).chan;
      Begun(now, r) && cell.chan.books.expected < r.books.expected
  {
    var c := cell.chan;
    var moved := MovedTo(c.id, c.books, MinimumPending(c.pending), now);
    DrainBegins(cfg, cell.(chan := c.(books := moved)), now, v);
  }

  lemma PassBegins(cfg: Config, cell: Cell, d: Decoded, now: nat, v: Verdicts)
    requires !cell.chan.discovering && d.tick.sequence == cell.chan.books.expected
    requires NoneRefused(PassThrough(cfg, cell, d, now, v).chan.books.trace)
    ensures var r := PassThrough(cfg, cell, d, now, v).chan;
      Begun(now, r) && cell.chan.books.expected < r.books.expected
  {
    var c := cell.chan;
    var (e, ok) := EmitOne(c.id, c.books, d, v);
    if ok {
      DrainBegins(cfg, cell.(chan := c.(books := e.(expected := d.tick.sequence + 1))), now, v);
    }
  }

  /** A record ahead of the frontier, with its slot free. */
  lemma RetainWaits(cfg: Config, cell: Cell, d: Decoded, now: nat, v: Verdicts)
    requires cfg.entries > 0 && Settled(cfg, cell.chan) && Belongs(cell.chan.id, d)
    requires d.tick.sequence > cell.chan.books.expected && Insertion(cfg, cell.chan.pending, d).Inserted?
    requires Idle(cell.chan) && Running(cell.chan) && !cell.chan.frozen
    requires NoneRefused(Retain(cfg, cell, d, now, v).chan.books.trace)
    ensures var r := Retain(cfg, cell, d, now, v).chan;
      WaitSays(cell.chan, now, r) && !r.discovering && cell.chan.books.expected <= r.books.expected
  {
    var c := cell.chan.(pending := cell.chan.pending[d.tick.sequence := d]);
    InsertTabled(cfg, c.id, cell.chan.pending, d);
    assert d.tick.sequence in c.pending;
    if d.tick.sequence - c.books.expected > cfg.maximumSpan {
      ForceBegins(cfg, cell.(chan := c), now, v);
    } else if cfg.gapWait == 0 {
      ForceBegins(cfg, if c.gapOpen == 0 then Cell(c.(gapOpen := now), Schedule(cell.deadline, now, cfg.gapWait))
                       else cell.(chan := c), now, v);
    }
  }

  /** Two steps of one input, the first of which has moved the frontier. */
  lemma BegunThenSays(c: Channel, now: nat, middle: Channel, r: Channel)
    requires Begun(now, middle) && c.books.expected < middle.books.expected <= r.books.expected
    requires WaitSays(middle, now, r) && !r.discovering
    ensures WaitSays(c, now, r)
  {
  }

  /** A live channel between records, with a positive clock. */
  ghost predicate Ready(cfg: Config, c: Channel)
    requires cfg.entries > 0
  {
    Settled(cfg, c) && Idle(c) && Running(c) && !c.frozen
  }

  lemma {:induction false} ActiveWaits(cfg: Config, cell: Cell, d: Decoded, now: nat, v: Verdicts)
    requires cfg.entries > 0 && now > 0 && Ready(cfg, cell.chan) && Belongs(cell.chan.id, d)
    requires NoneRefused(ProcessActive(cfg, cell, d, now, v).chan.books.trace)
    ensures var r := ProcessActive(cfg, cell, d, now, v).chan;
      WaitSays(cell.chan, now, r) && !r.discovering && cell.chan.books.expected <= r.books.expected
    decreases cell.chan.pending.Keys, d.tick.sequence > cell.chan.books.expected
  {
    var c := cell.chan;
    if d.tick.sequence == c.books.expected {
      PassBegins(cfg, cell, d, now, v);
    } else if d.tick.sequence > c.books.expected {
      match Insertion(cfg, c.pending, d)
      case Collision => CollisionWaits(cfg, cell, d, now, v);
      case Inserted => RetainWaits(cfg, cell, d, now, v);
      case _ =>
    }
  }

  lemma {:induction false} CollisionWaits(cfg: Config, cell: Cell, d: Decoded, now: nat, v: Verdicts)
    requires cfg.entries > 0 && now > 0 && Ready(cfg, cell.chan) && Belongs(cell.chan.id, d)
    requires d.tick.sequence > cell.chan.books.expected && Insertion(cfg, cell.chan.pending, d).Collision?
    requires NoneRefused(ProcessActive(cfg, cell, d, now, v).chan.books.trace)
    ensures var r := ProcessActive(cfg, cell, d, now, v).chan;
      WaitSays(cell.chan, now, r) && !r.discovering && cell.chan.books.expected <= r.books.expected
    decreases cell.chan.pending.Keys, d.tick.sequence > cell.chan.books.expected, 0
  {
    var c := cell.chan;
    var room := MakeRoom(cfg, cell, d.tick.sequence, now, v);
    MakeRoomKeeps(cfg, cell, d, now, v);
    if c.pending == map[] || d.tick.sequence < MinimumPending(c.pending) {
      PassBegins(cfg, room, d, now, v);
    } else {
      ProcessActiveGrows(cfg, room, d, now, v);
      GrownUnrefused(now, room.chan, ProcessActive(cfg, room, d, now, v).chan);
      ForceBegins(cfg, cell, now, v);
      ActiveWaits(cfg, room, d, now, v);
      BegunThenSays(c, now, room.chan, ProcessActive(cfg, room, d, now, v).chan);
    }
  }

  lemma DiscoverWaits(cfg: Config, cell: Cell, d: Decoded, now: nat, v: Verdicts)
    requires cfg.entries > 0 && cfg.mode == Partial && now > 0 && Receptive(cfg, cell.chan) && cell.chan.discovering
    requires Idle(cell.chan) && Belongs(cell.chan.id, d)
    requires NoneRefused(Discover(cfg, cell, d, now, v).chan.books.trace)
    ensures WaitSays(cell.chan, now, Discover(cfg, cell, d, now, v).chan)
  {
    var c := cell.chan;
    match Insertion(cfg, c.pending, d)
    case Collision =>
      var settled := FinishDiscovery(cfg, cell, now, v);
      FinishDiscoveryKeeps(cfg, cell, now, v);
      ProcessActiveGrows(cfg, settled, d, now, v);
      GrownUnrefused(now, settled.chan, ProcessActive(cfg, settled, d, now, v).chan);
      FinishBegins(cfg, cell, now, v);
      ActiveWaits(cfg, settled, d, now, v);
    case Inserted =>
      var held := StartHold(cfg, cell.(chan := c.(pending := c.pending[d.tick.sequence := d])), now);
      assert d.tick.sequence in held.chan.pending;
      if cfg.initialHold == 0 || Reached(now, held.chan.firstSeen, cfg.initialHold) {
        FinishBegins(cfg, held, now, v);
      }
    case _ =>
  }

  lemma {:induction false} ForceAllWaits(cfg: Config, cell: Cell, now: nat, v: Verdicts)
    requires cfg.entries > 0 && Settled(cfg, cell.chan) && Idle(cell.chan)
    requires NoneRefused(ForceAll(cfg, cell, now, v).chan.books.trace)
    ensures var r := ForceAll(cfg, cell, now, v).chan; !r.discovering && r.gapOpen == 0
    decreases cell.chan.pending.Keys
  {
    if cell.chan.pending != map[] {
      var forced := ForceGapToMinimum(cfg, cell, now, v);
      ForceKeeps(cfg, cell, now, v);
      ForceAllGrows(cfg, forced, now, v);
      GrownUnrefused(now, forced.chan, ForceAll(cfg, forced, now, v).chan);
      ForceBegins(cfg, cell, now, v);
      ForceAllWaits(cfg, forced, now, v);
    }
  }

  lemma PollWaits(cfg: Config, cell: Cell, now: nat, v: Verdicts)
    requires cfg.entries > 0 && Good(cfg, cell.chan) && Idle(cell.chan)
    requires NoneRefused(PollChannel(cfg, cell, now, v).chan.books.trace)
    ensures WaitSays(cell.chan, now, PollChannel(cfg, cell, now, v).chan)
  {
    var c := cell.chan;
    if !c.frozen && c.pending != map[] {
      if c.discovering {
        if Reached(now, c.firstSeen, cfg.initialHold) { FinishBegins(cfg, cell, now, v); }
      } else if c.gapOpen != 0 && Reached(now, c.gapOpen, cfg.gapWait) {
        ForceBegins(cfg, cell, now, v);
      }
    }
  }

  lemma FlushWaits(cfg: Config, cell: Cell, now: nat, v: Verdicts)
    requires cfg.entries > 0 && Good(cfg, cell.chan) && Idle(cell.chan)
    requires NoneRefused(FlushChannel(cfg, cell, now, v).chan.books.trace)
    ensures WaitSays(cell.chan, now, FlushChannel(cfg, cell, now, v).chan)
  {
    if cell.chan.frozen {
    } else if cell.chan.discovering {
      var settled := FinishDiscovery(cfg, cell, now, v);
      FinishDiscoveryKeeps(cfg, cell, now, v);
      ForceAllGrows(cfg, settled, now, v);
      GrownUnrefused(now, settled.chan, ForceAll(cfg, settled, now, v).chan);
      FinishBegins(cfg, cell, now, v);
      ForceAllWaits(cfg, settled, now, v);
    } else {
      ForceAllWaits(cfg, cell, now, v);
    }
  }

  /** One input of a channel. */
  lemma StepWaits(cfg: Config, c: Channel, input: Input, deadline: nat, v: Verdicts, r: Channel)
    requires cfg.entries > 0 && Receptive(cfg, c) && (input.Shutdown? || input.Timer? ==> Good(cfg, c))
    requires ValidInput(input) && input.now > 0
    requires Takes(cfg, c, input, deadline, v, r) && Idle(c) && Running(c) && NoneRefused(r.books.trace)
    ensures WaitSays(c, input.now, r)
  {
    var cell := Cell(c, deadline);
    match input
    case Arrival(d, now) =>
      if NamedBy(c.id, d) && !c.frozen {
        if cfg.mode == Partial && c.discovering {
          DiscoverWaits(cfg, cell, d, now, v);
        } else {
          ActiveWaits(cfg, cell, d, now, v);
        }
      }
    case BadBody(_, _, _, _) =>
    case Timer(now) => if r != c { PollWaits(cfg, cell, now, v); }
    case Shutdown(now) => FlushWaits(cfg, cell, now, v);
  }

  // ---- every run -----------------------------------------------------------------------

  /** The clock of the last input that moved the frontier, ended the hold or found nothing
      retained; zero while nothing waits. */
  ghost function WaitBegan(cfg: Config, inputs: seq<Input>, v: Verdicts, market: Market, channel: nat): nat
    requires cfg.entries > 0
  {
    if inputs == [] then 0
    else
      var earlier := inputs[..|inputs| - 1];
      var c := Found(cfg, Run(cfg, earlier, v), market, channel);
      var r := Found(cfg, Run(cfg, inputs, v), market, channel);
      if r.discovering || r.pending == map[] then 0
      else if c.discovering || c.pending == map[] || r.books.expected != c.books.expected then inputs[|inputs| - 1].now
      else WaitBegan(cfg, earlier, v, market, channel)
  }

  lemma {:induction false} WaitExact(cfg: Config, inputs: seq<Input>, v: Verdicts, market: Market, channel: nat)
    requires cfg.entries > 0 && ValidInputs(inputs) && Present(Run(cfg, inputs, v), market, channel)
    requires forall k :: 0 <= k < |inputs| ==> Clock(inputs[k]) > 0
    requires NoneRefused(Found(cfg, Run(cfg, inputs, v), market, channel).books.trace)
    ensures Found(cfg, Run(cfg, inputs, v), market, channel).gapOpen == WaitBegan(cfg, inputs, v, market, channel)
    ensures Idle(Found(cfg, Run(cfg, inputs, v), market, channel))
  {
    var earlier, last := inputs[..|inputs| - 1], inputs[|inputs| - 1];
    var before := Run(cfg, earlier, v);
    var deadline := LastTakes(cfg, inputs, v, market, channel);
    var c, r := Found(cfg, before, market, channel), Found(cfg, Run(cfg, inputs, v), market, channel);
    TakesGrows(cfg, c, last, deadline, v, r);
    GrownUnrefused(last.now, c, r);
    if Present(before, market, channel) {
      RunArmed(cfg, earlier, v);
      assert ArmedUnlessRefused(cfg, before.chans[IndexIn(before, market, channel)], before.deadline);
      WaitExact(cfg, earlier, v, market, channel);
    }
    StepWaits(cfg, c, last, deadline, v, r);
  }

  // ---- the initial hold ------------------------------------------------------------------

  lemma {:induction false} ActiveKeepsHold(cfg: Config, cell: Cell, d: Decoded, now: nat, v: Verdicts)
    requires cfg.entries > 0
    ensures ProcessActive(cfg, cell, d, now, v).chan.firstSeen == cell.chan.firstSeen
    decreases cell.chan.pending.Keys, d.tick.sequence > cell.chan.books.expected
  {
    if d.tick.sequence > cell.chan.books.expected && Insertion(cfg, cell.chan.pending, d).Collision? {
      ActiveKeepsHold(cfg, MakeRoom(cfg, cell, d.tick.sequence, now, v), d, now, v);
    }
  }

  lemma {:induction false} ForceAllKeepsHold(cfg: Config, cell: Cell, now: nat, v: Verdicts)
    ensures ForceAll(cfg, cell, now, v).chan.firstSeen == cell.chan.firstSeen
    decreases cell.chan.pending.Keys
  {
    if cell.chan.pending != map[] {
      ForceAllKeepsHold(cfg, ForceGapToMinimum(cfg, cell, now, v), now, v);
    }
  }

  /** The hold begins with the first record of a PARTIAL channel; nothing else starts it. */
  lemma StepHolds(cfg: Config, c: Channel, input: Input, deadline: nat, v: Verdicts, r: Channel)
    requires cfg.entries > 0 && cfg.mode == Partial && Takes(cfg, c, input, deadline, v, r)
    requires c.firstSeen == 0 ==> c == NewChannel(cfg, c.id)
    ensures r.firstSeen ==
      if c.firstSeen == 0 && input.Arrival? && NamedBy(c.id, input.body) then input.now else c.firstSeen
  {
    var cell := Cell(c, deadline);
    match input
    case Arrival(d, now) =>
      if c.discovering {
        ActiveKeepsHold(cfg, FinishDiscovery(cfg, cell, now, v), d, now, v);
      } else {
        ActiveKeepsHold(cfg, cell, d, now, v);
      }
    case BadBody(_, _, _, _) =>
    case Timer(now) =>
    case Shutdown(now) =>
      ForceAllKeepsHold(cfg, if c.discovering then FinishDiscovery(cfg, cell, now, v) else cell, now, v);
  }

  /** The clock of the first record that the lane was given for the channel. */
  function FirstHeard(inputs: seq<Input>, market: Market, channel: nat): nat {
    if inputs == [] then 0
    else
      var earlier := inputs[..|inputs| - 1];
      if OnChannel(earlier, market, channel) != [] then FirstHeard(earlier, market, channel)
      else if Given(inputs[|inputs| - 1], market, channel) != [] then inputs[|inputs| - 1].now
      else 0
  }

  /** On every run the hold of a PARTIAL channel began with the first record it was given. */
  lemma {:induction false} HoldExact(cfg: Config, inputs: seq<Input>, v: Verdicts, market: Market, channel: nat)
    requires cfg.entries > 0 && cfg.mode == Partial && ValidInputs(inputs)
    requires Present(Run(cfg, inputs, v), market, channel)
    requires forall k :: 0 <= k < |inputs| ==> Clock(inputs[k]) > 0
    ensures Found(cfg, Run(cfg, inputs, v), market, channel).firstSeen == FirstHeard(inputs, market, channel) > 0
    ensures OnChannel(inputs, market, channel) != []
  {
    var earlier, last := inputs[..|inputs| - 1], inputs[|inputs| - 1];
    var before := Run(cfg, earlier, v);
    var deadline := LastTakes(cfg, inputs, v, market, channel);
    var c, r := Found(cfg, before, market, channel), Found(cfg, Run(cfg, inputs, v), market, channel);
    if Present(before, market, channel) { HoldExact(cfg, earlier, v, market, channel); }
    StepHolds(cfg, c, last, deadline, v, r);
  }
}
