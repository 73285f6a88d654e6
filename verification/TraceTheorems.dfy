/** What the agreement between a channel and its trace means for a reader: the committed
    range is partitioned into consumed and missing sequences, and every quality mark on
    a published tick is exact. */
module TraceTheorems {
  import opened Canonical
  import opened ChannelSpec
  import opened Ledger
  import opened Accounting
  import opened LaneSpec

  // ---- vocabulary, by counting events ------------------------------------------

  /** How often sequence n was consumed: emitted to its owner, or passed as the
      continuity token of a catalog miss. */
  function ConsumedTimes(trace: Trace, n: nat): nat {
    if trace.Begin? then 0
    else ConsumedTimes(trace.earlier, n) +
         if trace.last.Emitted? && trace.last.ok && trace.last.body.tick.sequence == n then 1 else 0
  }

  /** How many recorded gap ranges contain n. */
  function SkippedTimes(trace: Trace, n: nat): nat {
    if trace.Begin? then 0
    else SkippedTimes(trace.earlier, n) +
         if trace.last.GapRecorded? && trace.last.gap.firstMissing <= n <= trace.last.gap.lastMissing then 1 else 0
  }

  function ConsumedCount(trace: Trace): nat {
    if trace.Begin? then 0
    else ConsumedCount(trace.earlier) + if trace.last.Emitted? && trace.last.ok then 1 else 0
  }

  function GapCount(trace: Trace): nat {
    if trace.Begin? then 0 else GapCount(trace.earlier) + if trace.last.GapRecorded? then 1 else 0
  }

  /** Where the channel's committed range begins; 0 while PARTIAL has not chosen. */
  function Origin(mode: StartMode, trace: Trace): nat {
    if trace.Begin? then (if mode == FromOpen then 1 else 0)
    else if trace.last.OriginFixed? then trace.last.origin
    else Origin(mode, trace.earlier)
  }

  /** The sequences the instrument owners received, in the order they received them. */
  function Delivered(trace: Trace): seq<nat> {
    if trace.Begin? then []
    else Delivered(trace.earlier) +
         if trace.last.Emitted? && trace.last.ok && trace.last.body.catalogMatch
         then [trace.last.body.tick.sequence] else []
  }

  predicate IsDispatch(e: Event) {
    e.Emitted? && e.body.catalogMatch
  }

  /** A gap was recorded after the last tick that was handed to the dispatcher. */
  predicate GapSinceDispatch(trace: Trace) {
    trace.Then? && (trace.last.GapRecorded? || (!IsDispatch(trace.last) && GapSinceDispatch(trace.earlier)))
  }

  function LatestGap(trace: Trace): Gap
    requires GapSinceDispatch(trace)
  {
    if trace.last.GapRecorded? then trace.last.gap else LatestGap(trace.earlier)
  }

  predicate Prefix(p: Trace, trace: Trace) {
    p == trace || (trace.Then? && Prefix(p, trace.earlier))
  }

  lemma {:induction false} ToldPrefix(mode: StartMode, p: Trace, trace: Trace)
    requires Told(mode, trace) && Prefix(p, trace)
    ensures Told(mode, p)
  {
    if p != trace { ToldPrefix(mode, p, trace.earlier); }
  }

  // ---- the committed range -----------------------------------------------------

  /** Every sequence from the origin up to the frontier was consumed exactly once or lies
      in exactly one recorded gap, never both; outside that range neither happened. */
  lemma {:induction false} Partition(mode: StartMode, trace: Trace, n: nat)
    requires Told(mode, trace)
    ensures Origin(mode, trace) <= Replay(mode, trace).frontier
    ensures ConsumedTimes(trace, n) + SkippedTimes(trace, n) ==
            if Origin(mode, trace) <= n < Replay(mode, trace).frontier then 1 else 0
    ensures mode == Partial && Replay(mode, trace).frontier == 0 ==> Origin(mode, trace) == 0
  {
    if trace.Then? { Partition(mode, trace.earlier, n); }
  }

  /** Gap accounting: the counters are exactly the number of gap ranges and the number
      of sequences they cover. */
  lemma {:induction false} GapTotals(mode: StartMode, trace: Trace)
    requires Told(mode, trace)
    ensures var a := Replay(mode, trace);
      a.epoch == GapCount(trace) && Origin(mode, trace) + ConsumedCount(trace) + a.missing == a.frontier
    ensures Replay(mode, trace).frontier == 0 ==>
      mode == Partial && Origin(mode, trace) == 0 && ConsumedCount(trace) == 0
  {
    if trace.Then? { GapTotals(mode, trace.earlier); }
  }

  predicate Increasing(s: seq<nat>, bound: nat) {
    && (forall i, j :: 0 <= i < j < |s| ==> s[i] < s[j])
    && (forall i :: 0 <= i < |s| ==> s[i] < bound)
  }

  /** Owners see strictly increasing native sequences. */
  lemma {:induction false} DeliveredInOrder(mode: StartMode, trace: Trace)
    requires Told(mode, trace)
    ensures Increasing(Delivered(trace), Replay(mode, trace).frontier)
  {
    if trace.Then? {
      DeliveredInOrder(mode, trace.earlier);
      var before, f := Delivered(trace.earlier), Replay(mode, trace.earlier).frontier;
      assert Increasing(before + [f], f + 1);
      assert before + [] == before;
    }
  }

  // ---- marks on published ticks --------------------------------------------------

  /** The history bit survives exactly on FROM_OPEN ticks before the first gap; and then
      every earlier sequence of the day was consumed exactly once and none is missing. */
  lemma HistoryBit(mode: StartMode, p: Trace, trace: Trace, n: nat)
    requires Told(mode, trace) && Prefix(p, trace) && p.Then? && p.last.Emitted?
    ensures p.last.out.historyValid <==>
            p.last.body.tick.historyValid && mode == FromOpen && GapCount(p.earlier) == 0
    ensures p.last.out.historyValid && 0 < n < p.last.body.tick.sequence ==> ConsumedTimes(p.earlier, n) == 1
    ensures p.last.out.historyValid ==> SkippedTimes(p.earlier, n) == 0
  {
    ToldPrefix(mode, p, trace);
    Partition(mode, p.earlier, n);
    GapTotals(mode, p.earlier);
    if GapCount(p.earlier) == 0 { NoGapNoSkip(p.earlier, n); }
    if mode == FromOpen { FromOpenOrigin(p.earlier); }
  }

  lemma {:induction false} FromOpenOrigin(trace: Trace)
    requires Told(FromOpen, trace)
    ensures Origin(FromOpen, trace) == 1
  {
    if trace.Then? { FromOpenOrigin(trace.earlier); }
  }

  lemma {:induction false} NoGapNoSkip(trace: Trace, n: nat)
    requires GapCount(trace) == 0
    ensures SkippedTimes(trace, n) == 0
  {
    if trace.Then? { NoGapNoSkip(trace.earlier, n); }
  }

  lemma {:induction false} OpenGapIsLatest(mode: StartMode, trace: Trace)
    ensures var a := Replay(mode, trace);
      && a.open.OpenGap? == GapSinceDispatch(trace)
      && (a.open.OpenGap? ==> a.open == OpenGap(LatestGap(trace).firstMissing, LatestGap(trace).lastMissing))
  {
    if trace.Then? { OpenGapIsLatest(mode, trace.earlier); }
  }

  /** A tick handed to the dispatcher carries the gap-before mark exactly when a gap was
      recorded since the previous one, with that latest range and the number of gaps. */
  lemma GapMark(mode: StartMode, p: Trace, trace: Trace)
    requires Told(mode, trace) && Prefix(p, trace) && p.Then? && IsDispatch(p.last)
    requires !p.last.body.tick.gapBefore
    ensures p.last.out.gapBefore <==> GapSinceDispatch(p.earlier)
    ensures p.last.out.gapBefore ==>
      && p.last.out.gapEpoch == GapCount(p.earlier)
      && p.last.out.gapBeforeFirst == LatestGap(p.earlier).firstMissing
      && p.last.out.gapBeforeLast == LatestGap(p.earlier).lastMissing
  {
    ToldPrefix(mode, p, trace);
    OpenGapIsLatest(mode, p.earlier);
    GapTotals(mode, p.earlier);
  }

  /** A diverted body never claims complete history, names the frontier it missed, and
      a body diverted as late is one the channel had already consumed or given up. */
  lemma LateMark(mode: StartMode, p: Trace, trace: Trace)
    requires Told(mode, trace) && Prefix(p, trace) && p.Then? && p.last.Diverted?
    ensures !p.last.record.tick.historyValid && p.last.record.tick.lateRecovery
    ensures p.last.record.observedEpoch == GapCount(p.earlier)
    ensures p.last.record.committedNext == Replay(mode, p.earlier).frontier
    ensures var n := p.last.body.tick.sequence;
      p.last.record.reason == BehindCommittedFrontier && Origin(mode, p.earlier) <= n ==>
      n < p.last.record.committedNext && ConsumedTimes(p.earlier, n) + SkippedTimes(p.earlier, n) == 1
  {
    ToldPrefix(mode, p, trace);
    GapTotals(mode, p.earlier);
    Partition(mode, p.earlier, p.last.body.tick.sequence);
  }

  // ---- for every run -------------------------------------------------------------

  /** On every channel of every run, [origin, expected) is partitioned into consumed and
      missing sequences, the missing total is exact, and no counter can saturate. */
  lemma EveryRunPartitions(cfg: Config, inputs: seq<Input>, v: Verdicts, i: nat, n: nat)
    requires cfg.entries > 0 && ValidInputs(inputs) && i < |Run(cfg, inputs, v).chans|
    ensures var b := Run(cfg, inputs, v).chans[i].books; var origin := Origin(cfg.mode, b.trace);
      && Told(cfg.mode, b.trace)
      && ConsumedTimes(b.trace, n) + SkippedTimes(b.trace, n) == (if origin <= n < b.expected then 1 else 0)
      && origin + ConsumedCount(b.trace) + b.missing == b.expected
      && b.gapEpoch == GapCount(b.trace) <= b.missing <= b.expected <= SEQUENCE_LIMIT
  {
    RunKeeps(cfg, inputs, v);
    var b := Run(cfg, inputs, v).chans[i].books;
    Partition(cfg.mode, b.trace, n);
    GapTotals(cfg.mode, b.trace);
    AccountBounds(cfg.mode, b.trace);
  }

  // ---- a retried record survives ---------------------------------------------------

  function EmittedTimes(trace: Trace, x: Decoded): nat {
    if trace.Begin? then 0
    else EmittedTimes(trace.earlier, x) + if trace.last.Emitted? && trace.last.body == x then 1 else 0
  }

  /** Emitted (or offered to the dispatcher) or still retained. */
  function Kept(c: Channel, x: Decoded): nat {
    EmittedTimes(c.books.trace, x) + Held(c.pending, x)
  }

  lemma {:induction false} DrainKeepsRecord(id: Identity, b: Books, pending: Table, v: Verdicts, x: Decoded)
    requires Keyed(pending)
    ensures var r := Drain(id, b, pending, v);
      EmittedTimes(r.books.trace, x) + Held(r.pending, x) == EmittedTimes(b.trace, x) + Held(pending, x)
    decreases pending.Keys
  {
    if b.expected in pending {
      RemovalShrinks(pending, b.expected);
      var (e, ok) := EmitOne(id, b, pending[b.expected], v);
      if ok {
        DrainKeepsRecord(id, e.(expected := b.expected + 1), pending - {b.expected}, v, x);
      }
    }
  }

  /** A drain passes over no sequence that is not retained. */
  lemma {:induction false} DrainStopsAt(id: Identity, b: Books, pending: Table, v: Verdicts, s: nat)
    requires s !in pending && b.expected <= s
    ensures var r := Drain(id, b, pending, v); s !in r.pending && r.books.expected <= s
    decreases pending.Keys
  {
    if b.expected in pending {
      RemovalShrinks(pending, b.expected);
      var (e, ok) := EmitOne(id, b, pending[b.expected], v);
      if ok {
        DrainStopsAt(id, e.(expected := b.expected + 1), pending - {b.expected}, v, s);
      }
    }
  }

  lemma ForceKeepsRecord(cfg: Config, cell: Cell, now: nat, v: Verdicts, x: Decoded)
    requires Keyed(cell.chan.pending)
    ensures var r := ForceGapToMinimum(cfg, cell, now, v).chan; Kept(r, x) == Kept(cell.chan, x)
    ensures var r := ForceGapToMinimum(cfg, cell, now, v).chan; var c := cell.chan;
      c.pending != map[] && x.tick.sequence !in c.pending && MinimumPending(c.pending) < x.tick.sequence ==>
      x.tick.sequence !in r.pending && r.books.expected <= x.tick.sequence
  {
    var c := cell.chan;
    if c.pending != map[] {
      var m := MinimumPending(c.pending);
      var moved := if m > c.books.expected then SkipTo(c.id, c.books, m, now) else c.books.(expected := m);
      DrainKeepsRecord(c.id, moved, c.pending, v, x);
      if x.tick.sequence !in c.pending && moved.expected <= x.tick.sequence {
        DrainStopsAt(c.id, moved, c.pending, v, x.tick.sequence);
      }
    }
  }

  /** Freeing a slot never moves the frontier past the record being retried. */
  lemma MakeRoomKeepsRecord(cfg: Config, cell: Cell, d: Decoded, now: nat, v: Verdicts)
    requires cfg.entries > 0 && Settled(cfg, cell.chan) && Belongs(cell.chan.id, d)
    requires d.tick.sequence > cell.chan.books.expected && Insertion(cfg, cell.chan.pending, d).Collision?
    ensures var r := MakeRoom(cfg, cell, d.tick.sequence, now, v).chan;
      Kept(r, d) == Kept(cell.chan, d) && d.tick.sequence !in r.pending && r.books.expected <= d.tick.sequence
  {
    ForceKeepsRecord(cfg, cell, now, v, d);
  }

  lemma RetainKeepsRecord(cfg: Config, cell: Cell, d: Decoded, now: nat, v: Verdicts)
    requires Keyed(cell.chan.pending) && d.tick.sequence !in cell.chan.pending
    requires cell.chan.books.expected <= d.tick.sequence
    ensures Kept(Retain(cfg, cell, d, now, v).chan, d) == Kept(cell.chan, d) + 1
  {
    var c := cell.chan.(pending := cell.chan.pending[d.tick.sequence := d]);
    if d.tick.sequence - c.books.expected > cfg.maximumSpan || c.gapOpen != 0 {
      ForceKeepsRecord(cfg, cell.(chan := c), now, v, d);
    } else {
      ForceKeepsRecord(cfg, Cell(c.(gapOpen := now), Schedule(cell.deadline, now, cfg.gapWait)), now, v, d);
    }
  }

  lemma PassThroughKeepsRecord(cfg: Config, cell: Cell, d: Decoded, now: nat, v: Verdicts)
    requires Keyed(cell.chan.pending) && d.tick.sequence == cell.chan.books.expected
    ensures Kept(PassThrough(cfg, cell, d, now, v).chan, d) == Kept(cell.chan, d) + 1
  {
    var c := cell.chan;
    var (e, ok) := EmitOne(c.id, c.books, d, v);
    DrainKeepsRecord(c.id, e.(expected := d.tick.sequence + 1), c.pending, v, d);
  }

  /** A record at or ahead of the frontier whose sequence is not yet retained is emitted
      or retained by the call that brings it, however often it had to be retried: forced
      advances never turn it into a late one. */
  lemma {:induction false} RetriedRecordSurvives(cfg: Config, cell: Cell, d: Decoded, now: nat, v: Verdicts)
    requires cfg.entries > 0 && Settled(cfg, cell.chan) && Belongs(cell.chan.id, d)
    requires cell.chan.books.expected <= d.tick.sequence && d.tick.sequence !in cell.chan.pending
    ensures Kept(ProcessActive(cfg, cell, d, now, v).chan, d) == Kept(cell.chan, d) + 1
    decreases cell.chan.pending.Keys, d.tick.sequence > cell.chan.books.expected
  {
    var c := cell.chan;
    var s := d.tick.sequence;
    assert Keyed(c.pending);
    if s == c.books.expected {
      PassThroughKeepsRecord(cfg, cell, d, now, v);
    } else if Insertion(cfg, c.pending, d).Collision? {
      MakeRoomKeeps(cfg, cell, d, now, v);
      MakeRoomKeepsRecord(cfg, cell, d, now, v);
      RetriedRecordSurvives(cfg, MakeRoom(cfg, cell, s, now, v), d, now, v);
    } else {
      RetainKeepsRecord(cfg, cell, d, now, v);
    }
  }
}
