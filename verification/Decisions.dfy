/** What each input decides, told by what it leaves behind: which records are duplicates and
    which conflict, which are late, when a gap is given up and which gap, when a channel is
    frozen and what it does then. */
module Decisions {
  import opened Canonical
  import opened ChannelSpec
  import opened Ledger
  import opened LaneSpec
  import opened TraceTheorems
  import opened OneChannel
  import opened ChannelIndex
  import opened Timers

  // ---- what was added to a trace -------------------------------------------------------

  /** The gaps recorded since the trace was `before`. */
  function GapsSince(before: Trace, trace: Trace): seq<Gap> {
    if trace == before || trace.Begin? then []
    else GapsSince(before, trace.earlier) + if trace.last.GapRecorded? then [trace.last.gap] else []
  }

  /** The first event after `before`. */
  function NextEvent(before: Trace, trace: Trace): Event
    requires Prefix(before, trace) && trace != before
  {
    if trace.earlier == before then trace.last else NextEvent(before, trace.earlier)
  }

  lemma {:induction false} PrefixIsShorter(p: Trace, t: Trace)
    requires Prefix(p, t)
    ensures Length(p) <= Length(t)
  {
    if p != t { PrefixIsShorter(p, t.earlier); }
  }

  lemma OneMoreEvent(before: Trace, trace: Trace, e: Event)
    requires Prefix(before, trace)
    ensures Prefix(before, Then(trace, e)) && Then(trace, e) != before
    ensures GapsSince(before, Then(trace, e)) == GapsSince(before, trace) + if e.GapRecorded? then [e.gap] else []
    ensures NextEvent(before, Then(trace, e)) == if trace == before then e else NextEvent(before, trace)
  {
    PrefixIsShorter(before, trace);
  }

  lemma {:induction false} DrainAddsNoGap(before: Trace, id: Identity, b: Books, pending: Table, v: Verdicts)
    requires Prefix(before, b.trace)
    ensures var trace := Drain(id, b, pending, v).books.trace;
      && Prefix(before, trace) && GapsSince(before, trace) == GapsSince(before, b.trace)
      && (b.trace != before ==> trace != before && NextEvent(before, trace) == NextEvent(before, b.trace))
    decreases pending.Keys
  {
    if b.expected in pending {
      RemovalShrinks(pending, b.expected);
      var (e, ok) := EmitOne(id, b, pending[b.expected], v);
      OneMoreEvent(before, b.trace, e.trace.last);
      assert GapsSince(before, b.trace) + [] == GapsSince(before, b.trace);
      if ok {
        DrainAddsNoGap(before, id, e.(expected := b.expected + 1), pending - {b.expected}, v);
      }
    }
  }

  /** The least retained sequence. */
  ghost predicate LeastOf(pending: Table, m: nat) {
    m in pending && forall s :: s in pending ==> m <= s
  }

  lemma LeastIsMinimum(pending: Table, m: nat)
    requires LeastOf(pending, m)
    ensures MinimumPending(pending) == m
  {
    assert MinimumPending(pending) in pending;
  }

  /** The gap from the frontier up to `present`, as it is published at this time. */
  function GapBefore(id: Identity, b: Books, present: nat, now: nat): Gap
    requires b.expected < present
  {
    Gap(id.market, id.channel, b.expected, present - 1, present, now,
        b.gapEpoch + 1, b.missing + present - b.expected)
  }

  /** The channel recorded exactly this gap and moved past it. */
  predicate GaveUp(id: Identity, b: Books, r: Books, present: nat, now: nat) {
    && b.expected < present <= r.expected
    && Prefix(b.trace, r.trace) && GapsSince(b.trace, r.trace) == [GapBefore(id, b, present, now)]
  }

  /** A forced advance gives up the gap before the least retained record, and no other. */
  lemma ForceGivesUp(cfg: Config, cell: Cell, now: nat, v: Verdicts, m: nat)
    requires cfg.entries > 0 && Active(cfg, cell.chan) && LeastOf(cell.chan.pending, m) && cell.chan.books.expected < m
    ensures GaveUp(cell.chan.id, cell.chan.books, ForceGapToMinimum(cfg, cell, now, v).chan.books, m, now)
  {
    var c := cell.chan;
    LeastIsMinimum(c.pending, m);
    AccountBounds(cfg.mode, c.books.trace);
    var moved := SkipTo(c.id, c.books, m, now);
    OneMoreEvent(c.books.trace, c.books.trace, moved.trace.last);
    DrainAddsNoGap(c.books.trace, c.id, moved, c.pending, v);
    DrainAdvances(c.id, moved, c.pending, v);
  }

  // ---- a timer scan --------------------------------------------------------------------

  /** What a scan does to a channel whose timer runs: the wait for a gap, or the initial hold,
      is over exactly when its time has passed since it began. */
  ghost predicate ScannedAt(cfg: Config, c: Channel, now: nat, r: Channel) {
    if c.frozen || c.pending == map[] then r == c
    else if c.discovering then
      && (r.discovering <==> now < c.firstSeen + cfg.initialHold)
      && (r.discovering ==> r == c)
      && (!r.discovering ==> LeastOf(c.pending, Origin(cfg.mode, r.books.trace)))
    else if c.gapOpen > 0 && now >= c.gapOpen + cfg.gapWait then
      exists m :: LeastOf(c.pending, m) && GaveUp(c.id, c.books, r.books, m, now)
    else r == c
  }

  lemma HoldIsOver(cfg: Config, cell: Cell, now: nat, v: Verdicts)
    requires cfg.entries > 0 && Collecting(cfg, cell.chan)
    ensures var r := FinishDiscovery(cfg, cell, now, v).chan;
      !r.discovering && LeastOf(cell.chan.pending, Origin(cfg.mode, r.books.trace))
  {
    var c := cell.chan;
    var m := MinimumPending(c.pending);
    DrainKeepsOrigin(cfg.mode, c.id, Log(c.books, OriginFixed(m)).(expected := m), c.pending, v);
  }

  lemma {:induction false} DrainKeepsOrigin(mode: StartMode, id: Identity, b: Books, pending: Table, v: Verdicts)
    ensures Origin(mode, Drain(id, b, pending, v).books.trace) == Origin(mode, b.trace)
    decreases pending.Keys
  {
    if b.expected in pending {
      RemovalShrinks(pending, b.expected);
      var (e, ok) := EmitOne(id, b, pending[b.expected], v);
      if ok {
        DrainKeepsOrigin(mode, id, e.(expected := b.expected + 1), pending - {b.expected}, v);
      }
    }
  }

  lemma PollScans(cfg: Config, cell: Cell, now: nat, v: Verdicts)
    requires cfg.entries > 0 && Good(cfg, cell.chan)
    ensures ScannedAt(cfg, cell.chan, now, PollChannel(cfg, cell, now, v).chan)
  {
    var c := cell.chan;
    if !c.frozen && c.pending != map[] {
      if c.discovering {
        HoldIsOver(cfg, cell, now, v);
      } else if c.gapOpen > 0 {
        var m := MinimumPending(c.pending);
        assert LeastOf(c.pending, m) && c.books.expected <= m;
        ForceGivesUp(cfg, cell, now, v, m);
      }
    }
  }

  /** A poll at or past the cached deadline scans every channel. */
  lemma ScanGivesUp(cfg: Config, lane: Lane, i: nat, now: nat, v: Verdicts)
    requires cfg.entries > 0 && Sound(cfg, lane) && i < |lane.chans| && 0 < lane.deadline <= now
    ensures ScannedAt(cfg, lane.chans[i], now, Step(cfg, lane, Timer(now), v).chans[i])
  {
    var deadline := ScanTakes(cfg, lane.(deadline := 0), |lane.chans|, now, v, i);
    PollScans(cfg, Cell(lane.chans[i], deadline), now, v);
  }

  /** On every run a poll at any time gives up exactly what is due, whether or not it returns
      early, on each channel none of whose ticks was refused; the clock is positive. */
  lemma PollExact(cfg: Config, inputs: seq<Input>, now: nat, v: Verdicts, i: nat)
    requires cfg.entries > 0 && ValidInputs(inputs)
    requires forall k :: 0 <= k < |inputs| ==> Clock(inputs[k]) > 0
    requires i < |Run(cfg, inputs, v).chans| && NoneRefused(Run(cfg, inputs, v).chans[i].books.trace)
    ensures var lane := Run(cfg, inputs, v); var c := lane.chans[i];
      && (c.frozen || c.pending == map[] || Running(c))
      && ScannedAt(cfg, c, now, Step(cfg, lane, Timer(now), v).chans[i])
  {
    RunKeeps(cfg, inputs, v);
    RunArmed(cfg, inputs, v);
    FastPathExact(cfg, inputs, now, v, i);
    var lane := Run(cfg, inputs, v);
    assert Armed(cfg, lane.chans[i], lane.deadline);
    var deadline := ScanTakes(cfg, lane.(deadline := 0), |lane.chans|, now, v, i);
    PollScans(cfg, Cell(lane.chans[i], deadline), now, v);
  }

  // ---- an arrival ----------------------------------------------------------------------

  /** The records say the same: contents and catalog answer. */
  predicate SameRecord(d: Decoded, e: Decoded) {
    && d.tick.market == e.tick.market && d.tick.channel == e.tick.channel && d.tick.sequence == e.tick.sequence
    && d.tick.payload == e.tick.payload && d.catalogMatch == e.catalogMatch
  }

  /** Only this event was added, and nothing else changed. */
  predicate OnlyAdded(c: Channel, r: Channel, e: Event) {
    r == c.(books := c.books.(trace := Then(c.books.trace, e)))
  }

  /** The body was diverted with this reason, and nothing else happened. */
  predicate OnlyDiverted(mode: StartMode, c: Channel, r: Channel, d: Decoded, reason: LateReason) {
    && r.books.trace.Then? && r.books.trace.last.Diverted?
    && r.books.trace.last.record == LateStamp(Replay(mode, c.books.trace), d, reason)
    && OnlyAdded(c, r, Diverted(d, LateStamp(Replay(mode, c.books.trace), d, reason), r.books.trace.last.ok))
  }

  /** The channel was frozen and reported this fault; `earlier` is its trace before that. */
  predicate Froze(c: Channel, r: Channel, earlier: Trace, reason: FaultReason, observed: nat, now: nat) {
    && r == c.(frozen := true, books := c.books.(trace := r.books.trace))
    && r.books.trace.Then? && r.books.trace.earlier == earlier && r.books.trace.last.Faulted?
    && r.books.trace.last.fault == Fault(c.id.market, c.id.channel, reason, c.books.expected, observed, now)
  }

  /** A second record of a retained sequence: a duplicate exactly if it says the same; else
      it freezes the channel, or is diverted in PARTIAL. */
  predicate Repeated(cfg: Config, c: Channel, d: Decoded, now: nat, r: Channel)
    requires d.tick.sequence in c.pending
  {
    if SameRecord(d, c.pending[d.tick.sequence]) then OnlyAdded(c, r, DuplicateDropped(d))
    else if cfg.mode == FromOpen then
      Froze(c, r, Then(c.books.trace, ConflictDropped(d)), CanonicalConflict, d.tick.sequence, now)
    else OnlyDiverted(cfg.mode, c, r, d, PendingCanonicalConflict)
  }

  lemma RepeatExact(cfg: Config, cell: Cell, d: Decoded, now: nat, v: Verdicts)
    requires cfg.entries > 0 && Good(cfg, cell.chan) && !cell.chan.frozen && Belongs(cell.chan.id, d)
    requires d.tick.sequence in cell.chan.pending
    ensures Repeated(cfg, cell.chan, d, now, ProcessChannel(cfg, cell, d, now, v).chan)
  {
  }

  /** On every run, what a record does whose sequence its channel retains. */
  lemma RepeatOfRun(cfg: Config, inputs: seq<Input>, v: Verdicts)
    requires cfg.entries > 0 && ValidInputs(inputs) && inputs != [] && inputs[|inputs| - 1].Arrival?
    requires var d := inputs[|inputs| - 1].body; var before := Run(cfg, inputs[..|inputs| - 1], v);
      && Present(before, d.tick.market, d.tick.channel)
      && var c := Found(cfg, before, d.tick.market, d.tick.channel); !c.frozen && d.tick.sequence in c.pending
    ensures var Arrival(d, now) := inputs[|inputs| - 1];
      Repeated(cfg, Found(cfg, Run(cfg, inputs[..|inputs| - 1], v), d.tick.market, d.tick.channel), d, now,
               Found(cfg, Run(cfg, inputs, v), d.tick.market, d.tick.channel))
  {
    var Arrival(d, now) := inputs[|inputs| - 1];
    var before := Run(cfg, inputs[..|inputs| - 1], v);
    RunKeeps(cfg, inputs[..|inputs| - 1], v);
    ProcessPresent(cfg, before, d, now, v);
    var deadline := LastTakes(cfg, inputs, v, d.tick.market, d.tick.channel);
    RepeatExact(cfg, Cell(Found(cfg, before, d.tick.market, d.tick.channel), deadline), d, now, v);
  }

  /** A record behind the frontier goes to late recovery and changes nothing else. */
  lemma LateExact(cfg: Config, cell: Cell, d: Decoded, now: nat, v: Verdicts)
    requires cfg.entries > 0 && Settled(cfg, cell.chan) && !cell.chan.frozen && Belongs(cell.chan.id, d)
    requires d.tick.sequence < cell.chan.books.expected
    ensures OnlyDiverted(cfg.mode, cell.chan, ProcessChannel(cfg, cell, d, now, v).chan, d, BehindCommittedFrontier)
  {
  }

  /** A record at the frontier is published first; if its tick is taken the frontier passes
      it, and otherwise nothing else happens. No gap is recorded. */
  lemma NextExact(cfg: Config, cell: Cell, d: Decoded, now: nat, v: Verdicts)
    requires cfg.entries > 0 && Settled(cfg, cell.chan) && !cell.chan.frozen && Belongs(cell.chan.id, d)
    requires d.tick.sequence == cell.chan.books.expected
    ensures var c := cell.chan; var r := ProcessChannel(cfg, cell, d, now, v).chan;
      && Prefix(c.books.trace, r.books.trace) && r.books.trace != c.books.trace
      && GapsSince(c.books.trace, r.books.trace) == []
      && var e := NextEvent(c.books.trace, r.books.trace);
         && e.Emitted? && e.body == d && e.out == Stamp(cfg.mode, Replay(cfg.mode, c.books.trace), d)
         && (!d.catalogMatch ==> e.ok)
         && (e.ok ==> d.tick.sequence < r.books.expected)
         && (!e.ok ==> r.pending == c.pending && r.books.expected == c.books.expected && r.gapOpen == c.gapOpen)
  {
    var c := cell.chan;
    var (e, ok) := EmitOne(c.id, c.books, d, v);
    EmitKeeps(cfg.mode, c.id, c.books, d, v);
    OneMoreEvent(c.books.trace, c.books.trace, e.trace.last);
    DrainAddsNoGap(c.books.trace, c.id, e.(expected := d.tick.sequence + 1), c.pending, v);
    DrainAdvances(c.id, e.(expected := d.tick.sequence + 1), c.pending, v);
  }

  /** A future record that finds its slot free is retained; the gap before the least retained
      record is given up at once exactly if the record is beyond the span or no wait is
      configured, and else waited for. */
  lemma FutureExact(cfg: Config, cell: Cell, d: Decoded, now: nat, v: Verdicts, m: nat)
    requires cfg.entries > 0 && Settled(cfg, cell.chan) && !cell.chan.frozen && Belongs(cell.chan.id, d)
    requires d.tick.sequence > cell.chan.books.expected && d.tick.sequence !in cell.chan.pending
    requires !Collides(cfg, cell.chan.pending, d.tick.sequence)
    requires LeastOf(cell.chan.pending[d.tick.sequence := d], m)
    ensures var c := cell.chan; var r := ProcessChannel(cfg, cell, d, now, v).chan;
      if d.tick.sequence > c.books.expected + cfg.maximumSpan || cfg.gapWait == 0
      then GaveUp(c.id, c.books, r.books, m, now)
      else r == c.(pending := c.pending[d.tick.sequence := d], gapOpen := if c.gapOpen == 0 then now else c.gapOpen)
  {
    RetainExact(cfg, cell, d, now, v, m);
  }

  lemma RetainExact(cfg: Config, cell: Cell, d: Decoded, now: nat, v: Verdicts, m: nat)
    requires cfg.entries > 0 && Settled(cfg, cell.chan) && Belongs(cell.chan.id, d)
    requires d.tick.sequence > cell.chan.books.expected && Insertion(cfg, cell.chan.pending, d).Inserted?
    requires LeastOf(cell.chan.pending[d.tick.sequence := d], m)
    ensures var c := cell.chan; var r := Retain(cfg, cell, d, now, v).chan;
      if d.tick.sequence > c.books.expected + cfg.maximumSpan || cfg.gapWait == 0
      then GaveUp(c.id, c.books, r.books, m, now)
      else r == c.(pending := c.pending[d.tick.sequence := d], gapOpen := if c.gapOpen == 0 then now else c.gapOpen)
  {
    var c := cell.chan;
    var held := c.(pending := c.pending[d.tick.sequence := d]);
    InsertTabled(cfg, c.id, c.pending, d);
    assert Active(cfg, held);
    ForceGivesUp(cfg, cell.(chan := held), now, v, m);
    if c.gapOpen == 0 {
      ForceGivesUp(cfg, Cell(held.(gapOpen := now), Schedule(cell.deadline, now, cfg.gapWait)), now, v, m);
    }
  }

  /** A future record that collides first gives up the gap before the least of it and the
      retained ones. */
  lemma CollisionGivesUp(cfg: Config, cell: Cell, d: Decoded, now: nat, v: Verdicts, m: nat)
    requires cfg.entries > 0 && Settled(cfg, cell.chan) && !cell.chan.frozen && Belongs(cell.chan.id, d)
    requires d.tick.sequence > cell.chan.books.expected && d.tick.sequence !in cell.chan.pending
    requires Collides(cfg, cell.chan.pending, d.tick.sequence)
    requires LeastOf(cell.chan.pending[d.tick.sequence := d], m)
    ensures var c := cell.chan; var r := ProcessChannel(cfg, cell, d, now, v).chan;
      && c.books.expected < m && Prefix(c.books.trace, r.books.trace) && r.books.trace != c.books.trace
      && NextEvent(c.books.trace, r.books.trace) == GapRecorded(GapBefore(c.id, c.books, m, now))
  {
    var c := cell.chan;
    var room := MakeRoom(cfg, cell, d.tick.sequence, now, v);
    var r := ProcessActive(cfg, room, d, now, v).chan;
    AccountBounds(cfg.mode, c.books.trace);
    RoomStarts(cfg, cell, d, now, v, m);
    MakeRoomKeeps(cfg, cell, d, now, v);
    ProcessActiveGrows(cfg, room, d, now, v);
    ContinuedPrefix(c.id, now, room.chan.books.trace, r.books.trace);
    NextStays(c.books.trace, room.chan.books.trace, r.books.trace);
  }

  lemma {:induction false} NextStays(before: Trace, middle: Trace, trace: Trace)
    requires Prefix(before, middle) && middle != before && Prefix(middle, trace)
    ensures Prefix(before, trace) && trace != before && NextEvent(before, trace) == NextEvent(before, middle)
  {
    if middle != trace {
      NextStays(before, middle, trace.earlier);
      OneMoreEvent(before, trace.earlier, trace.last);
    }
  }

  lemma RoomStarts(cfg: Config, cell: Cell, d: Decoded, now: nat, v: Verdicts, m: nat)
    requires cfg.entries > 0 && Settled(cfg, cell.chan) && Belongs(cell.chan.id, d)
    requires d.tick.sequence > cell.chan.books.expected && d.tick.sequence !in cell.chan.pending
    requires LeastOf(cell.chan.pending[d.tick.sequence := d], m)
    ensures var c := cell.chan; var r := MakeRoom(cfg, cell, d.tick.sequence, now, v).chan;
      && c.books.expected < m && Prefix(c.books.trace, r.books.trace) && r.books.trace != c.books.trace
      && NextEvent(c.books.trace, r.books.trace) == GapRecorded(GapBefore(c.id, c.books, m, now))
  {
    var c := cell.chan;
    AccountBounds(cfg.mode, c.books.trace);
    if c.pending == map[] || d.tick.sequence < MinimumPending(c.pending) {
      assert d.tick.sequence in c.pending[d.tick.sequence := d];
      OneMoreEvent(c.books.trace, c.books.trace, SkipTo(c.id, c.books, d.tick.sequence, now).trace.last);
    } else {
      var least := MinimumPending(c.pending);
      assert least in c.pending[d.tick.sequence := d] && m == least;
      var moved := SkipTo(c.id, c.books, least, now);
      OneMoreEvent(c.books.trace, c.books.trace, moved.trace.last);
      DrainAddsNoGap(c.books.trace, c.id, moved, c.pending, v);
    }
  }

  // ---- freezing --------------------------------------------------------------------------

  /** The record says something else than the retained one of its sequence. */
  predicate Contradicts(c: Channel, d: Decoded) {
    NamedBy(c.id, d) && d.tick.sequence in c.pending && !SameRecord(d, c.pending[d.tick.sequence])
  }

  /** What freezes a FROM_OPEN channel: such a record, or a body that does not decode. */
  predicate Freezes(c: Channel, input: Input) {
    match input
    case Arrival(d, _) => Contradicts(c, d)
    case BadBody(market, channel, _, _) => Names(c.id, market, channel)
    case _ => false
  }

  /** Once frozen a channel only counts what it is given. */
  predicate OnlyCounts(c: Channel, input: Input, r: Channel) {
    if input.Arrival? && NamedBy(c.id, input.body) then OnlyAdded(c, r, FrozenDropped(input.body)) else r == c
  }

  /** The fault names the channel, the frontier, what was observed and when. */
  predicate FrozeBy(c: Channel, input: Input, r: Channel) {
    match input
    case Arrival(d, now) =>
      Froze(c, r, Then(c.books.trace, ConflictDropped(d)), CanonicalConflict, d.tick.sequence, now)
    case BadBody(_, _, observed, now) => Froze(c, r, c.books.trace, DecodeFailure, observed, now)
    case _ => false
  }

  lemma {:induction false} StaysLive(cfg: Config, cell: Cell, d: Decoded, now: nat, v: Verdicts)
    requires cfg.entries > 0 && Settled(cfg, cell.chan) && Belongs(cell.chan.id, d)
    requires !Contradicts(cell.chan, d)
    ensures ProcessActive(cfg, cell, d, now, v).chan.frozen == cell.chan.frozen
    decreases cell.chan.pending.Keys, d.tick.sequence > cell.chan.books.expected
  {
    var c := cell.chan;
    if d.tick.sequence > c.books.expected && Insertion(cfg, c.pending, d).Collision? {
      MakeRoomKeeps(cfg, cell, d, now, v);
      StaysLive(cfg, MakeRoom(cfg, cell, d.tick.sequence, now, v), d, now, v);
    }
  }

  lemma ForceAllStaysLive(cfg: Config, cell: Cell, now: nat, v: Verdicts)
    ensures ForceAll(cfg, cell, now, v).chan.frozen == cell.chan.frozen
    decreases cell.chan.pending.Keys
  {
    if cell.chan.pending != map[] {
      ForceAllStaysLive(cfg, ForceGapToMinimum(cfg, cell, now, v), now, v);
    }
  }

  /** One input of a FROM_OPEN channel. */
  lemma FreezeStep(cfg: Config, c: Channel, input: Input, deadline: nat, v: Verdicts, r: Channel)
    requires cfg.entries > 0 && cfg.mode == FromOpen && Receptive(cfg, c) && ValidInput(input)
    requires Takes(cfg, c, input, deadline, v, r)
    ensures r.frozen <==> c.frozen || Freezes(c, input)
    ensures c.frozen ==> OnlyCounts(c, input, r)
    ensures !c.frozen && Freezes(c, input) ==> FrozeBy(c, input, r)
  {
    var cell := Cell(c, deadline);
    match input
    case Arrival(d, now) =>
      if NamedBy(c.id, d) && !c.frozen {
        if d.tick.sequence in c.pending {
          RepeatExact(cfg, cell, d, now, v);
        } else {
          StaysLive(cfg, cell, d, now, v);
        }
      }
    case BadBody(_, _, _, _) =>
    case Timer(now) =>
    case Shutdown(now) => ForceAllStaysLive(cfg, cell, now, v);
  }

  /** Input number k froze the channel, or would have. */
  ghost predicate FreezesAt(cfg: Config, inputs: seq<Input>, v: Verdicts, market: Market, channel: nat, k: nat)
    requires cfg.entries > 0 && k < |inputs|
  {
    Freezes(Found(cfg, Run(cfg, inputs[..k], v), market, channel), inputs[k])
  }

  /** A body that does not decode creates its channel if there is room. */
  lemma FailurePresent(cfg: Config, lane: Lane, input: Input, v: Verdicts)
    requires cfg.entries > 0 && cfg.mode == FromOpen && Sound(cfg, lane) && input.BadBody?
    ensures Refused(cfg, lane, input.market, input.channel) ||
            Present(Step(cfg, lane, input, v), input.market, input.channel)
  {
    if !Refused(cfg, lane, input.market, input.channel) {
      var i := IndexOf(lane.chans, input.market, input.channel);
      var r := Step(cfg, lane, input, v).chans;
      assert Names(WithChannel(cfg, lane, input.market, input.channel)[i].id, input.market, input.channel);
      assert Names(r[i].id, input.market, input.channel);
    }
  }

  lemma FreezesEarlier(
    cfg: Config, earlier: seq<Input>, inputs: seq<Input>, v: Verdicts, market: Market, channel: nat, k: nat)
    requires cfg.entries > 0 && earlier <= inputs && k < |earlier|
    ensures FreezesAt(cfg, earlier, v, market, channel, k) <==> FreezesAt(cfg, inputs, v, market, channel, k)
  {
    assert earlier[..k] == inputs[..k];
  }

  /** An absent channel was frozen by nothing, unless the lane is full: then it stays absent. */
  lemma {:induction false} AbsentNeverFroze(
    cfg: Config, inputs: seq<Input>, v: Verdicts, market: Market, channel: nat, k: nat)
    requires cfg.entries > 0 && cfg.mode == FromOpen && ValidInputs(inputs) && k < |inputs|
    requires !Present(Run(cfg, inputs, v), market, channel) && !Full(cfg, Run(cfg, inputs, v))
    ensures !FreezesAt(cfg, inputs, v, market, channel, k)
  {
    var earlier, last := inputs[..|inputs| - 1], inputs[|inputs| - 1];
    var before := Run(cfg, earlier, v);
    RunKeeps(cfg, earlier, v);
    StepCreates(cfg, before, last, v);
    if Present(before, market, channel) {
      StepKeepsIndex(cfg, before, last, v, market, channel);
    } else if k < |earlier| {
      AbsentNeverFroze(cfg, earlier, v, market, channel, k);
      FreezesEarlier(cfg, earlier, inputs, v, market, channel, k);
    } else if last.BadBody? {
      FailurePresent(cfg, before, last, v);
    }
  }

  /** What the last input did to whether the channel is frozen. */
  lemma LastFreezes(cfg: Config, inputs: seq<Input>, v: Verdicts, market: Market, channel: nat)
    requires cfg.entries > 0 && cfg.mode == FromOpen && ValidInputs(inputs) && inputs != []
    requires Present(Run(cfg, inputs, v), market, channel)
    ensures var before := Run(cfg, inputs[..|inputs| - 1], v);
      && (Found(cfg, Run(cfg, inputs, v), market, channel).frozen <==>
          Found(cfg, before, market, channel).frozen || FreezesAt(cfg, inputs, v, market, channel, |inputs| - 1))
  {
    var earlier, last := inputs[..|inputs| - 1], inputs[|inputs| - 1];
    var before := Run(cfg, earlier, v);
    var deadline := LastTakes(cfg, inputs, v, market, channel);
    FreezeStep(cfg, Found(cfg, before, market, channel), last, deadline, v,
               Found(cfg, Run(cfg, inputs, v), market, channel));
  }

  /** A channel that was frozen earlier was there earlier. */
  lemma FrozenWasPresent(cfg: Config, inputs: seq<Input>, v: Verdicts, market: Market, channel: nat, k: nat)
    requires cfg.entries > 0 && cfg.mode == FromOpen && ValidInputs(inputs) && k < |inputs| - 1
    requires Present(Run(cfg, inputs, v), market, channel)
    requires FreezesAt(cfg, inputs[..|inputs| - 1], v, market, channel, k)
    ensures Present(Run(cfg, inputs[..|inputs| - 1], v), market, channel)
  {
    var earlier, last := inputs[..|inputs| - 1], inputs[|inputs| - 1];
    var before := Run(cfg, earlier, v);
    if !Present(before, market, channel) {
      RunKeeps(cfg, earlier, v);
      StepCreates(cfg, before, last, v);
      Appears(cfg, before, last, v, market, channel);
      AbsentNeverFroze(cfg, earlier, v, market, channel, k);
    }
  }

  lemma {:induction false} FrozenBySome(
    cfg: Config, inputs: seq<Input>, v: Verdicts, market: Market, channel: nat) returns (k: nat)
    requires cfg.entries > 0 && cfg.mode == FromOpen && ValidInputs(inputs)
    requires Present(Run(cfg, inputs, v), market, channel) && Found(cfg, Run(cfg, inputs, v), market, channel).frozen
    ensures k < |inputs| && FreezesAt(cfg, inputs, v, market, channel, k)
  {
    var earlier := inputs[..|inputs| - 1];
    LastFreezes(cfg, inputs, v, market, channel);
    if Found(cfg, Run(cfg, earlier, v), market, channel).frozen {
      k := FrozenBySome(cfg, earlier, v, market, channel);
      FreezesEarlier(cfg, earlier, inputs, v, market, channel, k);
    } else {
      k := |earlier|;
    }
  }

  lemma {:induction false} StaysFrozen(
    cfg: Config, inputs: seq<Input>, v: Verdicts, market: Market, channel: nat, k: nat)
    requires cfg.entries > 0 && cfg.mode == FromOpen && ValidInputs(inputs) && k < |inputs|
    requires Present(Run(cfg, inputs, v), market, channel) && FreezesAt(cfg, inputs, v, market, channel, k)
    ensures Found(cfg, Run(cfg, inputs, v), market, channel).frozen
  {
    var earlier := inputs[..|inputs| - 1];
    LastFreezes(cfg, inputs, v, market, channel);
    if k < |earlier| {
      FreezesEarlier(cfg, earlier, inputs, v, market, channel, k);
      FrozenWasPresent(cfg, inputs, v, market, channel, k);
      StaysFrozen(cfg, earlier, v, market, channel, k);
    }
  }

  /** A FROM_OPEN channel is frozen if and only if some input contradicted what it retained
      then, or was a body of the channel that does not decode. */
  lemma FrozenExactly(cfg: Config, inputs: seq<Input>, v: Verdicts, market: Market, channel: nat)
    requires cfg.entries > 0 && cfg.mode == FromOpen && ValidInputs(inputs)
    requires Present(Run(cfg, inputs, v), market, channel)
    ensures Found(cfg, Run(cfg, inputs, v), market, channel).frozen <==>
            exists k :: 0 <= k < |inputs| && FreezesAt(cfg, inputs, v, market, channel, k)
  {
    if Found(cfg, Run(cfg, inputs, v), market, channel).frozen {
      var k := FrozenBySome(cfg, inputs, v, market, channel);
    }
    if k :| 0 <= k < |inputs| && FreezesAt(cfg, inputs, v, market, channel, k) {
      StaysFrozen(cfg, inputs, v, market, channel, k);
    }
  }
}
