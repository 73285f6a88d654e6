/** A reference account of one channel, computed from its trace alone, and the proof
    that the recovery's fields and everything it publishes agree with it. */
module Ledger {
  import opened Canonical
  import opened ChannelSpec

  datatype OpenGap = NoGap | OpenGap(first: nat, last: nat)

  /** What a reader of the trace knows: the next uncommitted sequence, how many gap
      ranges were committed, how many sequences they cover, and the latest range that
      no dispatched tick has carried yet. */
  datatype Account = Account(frontier: nat, epoch: nat, missing: nat, open: OpenGap)

  function Opening(mode: StartMode): Account {
    Account(if mode == FromOpen then 1 else 0, 0, 0, NoGap)
  }

  function Advance(a: Account, e: Event): Account {
    match e
    case OriginFixed(origin) => a.(frontier := origin)
    case Emitted(body, _, ok) =>
      a.(frontier := if ok then body.tick.sequence + 1 else a.frontier,
         open := if body.catalogMatch then NoGap else a.open)
    case GapRecorded(g) =>
      Account(g.lastMissing + 1, a.epoch + 1,
              a.missing + if g.firstMissing <= g.lastMissing then g.lastMissing + 1 - g.firstMissing else 0,
              OpenGap(g.firstMissing, g.lastMissing))
    case _ => a
  }

  function Replay(mode: StartMode, trace: Trace): Account {
    if trace.Begin? then Opening(mode) else Advance(Replay(mode, trace.earlier), trace.last)
  }

  /** The tick that must go out for `d` after history `a`. */
  function Stamp(mode: StartMode, a: Account, d: Decoded): Tick {
    var t := if mode == FromOpen && a.epoch == 0 then d.tick
             else d.tick.(historyValid := false, historyIncomplete := true);
    if d.catalogMatch && a.open.OpenGap?
    then t.(gapBefore := true, gapEpoch := a.epoch, gapBeforeFirst := a.open.first, gapBeforeLast := a.open.last)
    else t
  }

  function LateStamp(a: Account, d: Decoded, reason: LateReason): LateRecord {
    LateRecord(
      d.tick.(historyValid := false, historyIncomplete := true, lateRecovery := true, gapEpoch := a.epoch),
      a.frontier, a.epoch, reason, d.catalogMatch)
  }

  /** The event may happen after history `a` and reports it exactly. */
  predicate Lawful(mode: StartMode, a: Account, e: Event) {
    match e
    case OriginFixed(origin) => mode == Partial && a == Opening(Partial) && origin > 0
    case Emitted(body, out, _) => body.tick.sequence == a.frontier > 0 && out == Stamp(mode, a, body)
    case GapRecorded(g) =>
      && 0 < a.frontier == g.firstMissing <= g.lastMissing
      && g.firstPresent == g.lastMissing + 1
      && g.epoch == a.epoch + 1
      && g.cumulativeMissing == a.missing + g.lastMissing + 1 - g.firstMissing
    case Diverted(body, record, _) =>
      && record == LateStamp(a, body, record.reason)
      && (record.reason == BehindCommittedFrontier ==> body.tick.sequence < a.frontier)
      && (record.reason == PendingCanonicalConflict ==> mode == Partial)
    case Faulted(fault, _) => fault.expectedSequence == a.frontier
    case _ => true
  }

  predicate Told(mode: StartMode, trace: Trace) {
    trace.Then? ==> Told(mode, trace.earlier) && Lawful(mode, Replay(mode, trace.earlier), trace.last)
  }

  /** Gap counts are bounded by the frontier, so their saturation guards never act. */
  lemma {:induction false} AccountBounds(mode: StartMode, trace: Trace)
    requires Told(mode, trace)
    ensures var a := Replay(mode, trace); a.epoch <= a.missing <= a.frontier
    ensures var a := Replay(mode, trace); a.frontier == 0 ==> a == Opening(mode)
  {
    if trace.Then? {
      AccountBounds(mode, trace.earlier);
    }
  }

  // ---- invariants ------------------------------------------------------------

  /** The books say what their trace says. */
  ghost predicate Synced(mode: StartMode, b: Books) {
    var a := Replay(mode, b.trace);
    && Told(mode, b.trace)
    && b.expected == a.frontier
    && b.gapEpoch == a.epoch
    && b.missing == a.missing
    && b.historyComplete == (mode == FromOpen && a.epoch == 0)
    && b.gapMetadataPending == a.open.OpenGap?
    && (a.open.OpenGap? ==> b.gapFirst == a.open.first && b.gapLast == a.open.last)
  }

  ghost predicate Belongs(id: Identity, d: Decoded) {
    && 0 < d.tick.sequence < SEQUENCE_LIMIT
    && d.tick.market == id.market
    && d.tick.channel == id.channel
  }

  /** The reorder table holds records of this channel, at most one per slot. */
  ghost predicate Tabled(cfg: Config, id: Identity, pending: Table)
    requires cfg.entries > 0
  {
    && (forall s :: s in pending ==> pending[s].tick.sequence == s && Belongs(id, pending[s]))
    && (forall s, t {:trigger Slot(cfg, s), Slot(cfg, t)} ::
          s in pending && t in pending && Slot(cfg, s) == Slot(cfg, t) ==> s == t)
  }

  ghost predicate NotBehind(frontier: nat, pending: Table) {
    forall s :: s in pending ==> frontier <= s
  }

  ghost predicate SubTable(small: Table, big: Table) {
    forall s :: s in small ==> s in big && small[s] == big[s]
  }

  /** A frontier is committed and nothing retained lies behind it. */
  ghost predicate Active(cfg: Config, c: Channel)
    requires cfg.entries > 0
  {
    && !c.discovering
    && Synced(cfg.mode, c.books)
    && Tabled(cfg, c.id, c.pending)
    && NotBehind(c.books.expected, c.pending)
    && 0 < c.books.expected <= SEQUENCE_LIMIT
    && (c.frozen ==> cfg.mode == FromOpen)
  }

  /** PARTIAL is still collecting the records among which the origin will be chosen. */
  ghost predicate Collecting(cfg: Config, c: Channel)
    requires cfg.entries > 0
  {
    && c.discovering
    && cfg.mode == Partial
    && !c.frozen
    && c.pending != map[]
    && Synced(cfg.mode, c.books)
    && Tabled(cfg, c.id, c.pending)
    && c.books.expected == 0
  }

  ghost predicate Settled(cfg: Config, c: Channel)
    requires cfg.entries > 0
  {
    Active(cfg, c) && c.books.expected !in c.pending
  }

  /** What holds between calls. */
  ghost predicate Good(cfg: Config, c: Channel)
    requires cfg.entries > 0
  {
    Collecting(cfg, c) || Settled(cfg, c)
  }

  // ---- every step keeps them ---------------------------------------------------

  lemma LogKeeps(mode: StartMode, b: Books, e: Event)
    requires Synced(mode, b) && Lawful(mode, Replay(mode, b.trace), e)
    requires e.Diverted? || e.DuplicateDropped? || e.ConflictDropped? || e.FrozenDropped? || e.Faulted?
    ensures Synced(mode, Log(b, e))
  {
  }

  lemma OriginKeeps(mode: StartMode, b: Books, origin: nat)
    requires mode == Partial && Synced(mode, b) && b.expected == 0 < origin
    ensures Synced(mode, Log(b, OriginFixed(origin)).(expected := origin))
  {
    AccountBounds(mode, b.trace);
  }

  lemma EmitKeeps(mode: StartMode, id: Identity, b: Books, d: Decoded, v: Verdicts)
    requires Synced(mode, b) && d.tick.sequence == b.expected > 0
    ensures var (e, ok) := EmitOne(id, b, d, v); Synced(mode, if ok then e.(expected := b.expected + 1) else e)
  {
  }

  lemma SkipKeeps(mode: StartMode, id: Identity, b: Books, next: nat, now: nat)
    requires Synced(mode, b) && 0 < b.expected < next < SEQUENCE_LIMIT
    ensures var r := SkipTo(id, b, next, now);
      Synced(mode, r) && r.gapEpoch == b.gapEpoch + 1 && r.missing == b.missing + next - b.expected
  {
    AccountBounds(mode, b.trace);
  }

  lemma {:induction false} DrainStops(id: Identity, b: Books, pending: Table, v: Verdicts)
    requires NotBehind(b.expected, pending)
    ensures var r := Drain(id, b, pending, v); NotBehind(r.books.expected, r.pending) && r.books.expected !in r.pending
    decreases pending.Keys
  {
    if b.expected in pending {
      RemovalShrinks(pending, b.expected);
      var (e, ok) := EmitOne(id, b, pending[b.expected], v);
      if ok {
        DrainStops(id, e.(expected := b.expected + 1), pending - {b.expected}, v);
      }
    }
  }

  lemma {:induction false} DrainRemoves(id: Identity, b: Books, pending: Table, v: Verdicts)
    ensures var r := Drain(id, b, pending, v); SubTable(r.pending, pending)
    decreases pending.Keys
  {
    if b.expected in pending {
      RemovalShrinks(pending, b.expected);
      var (e, ok) := EmitOne(id, b, pending[b.expected], v);
      if ok {
        DrainRemoves(id, e.(expected := b.expected + 1), pending - {b.expected}, v);
      }
    }
  }

  lemma {:induction false} DrainAdvances(id: Identity, b: Books, pending: Table, v: Verdicts)
    ensures var r := Drain(id, b, pending, v); b.expected <= r.books.expected
    decreases pending.Keys
  {
    if b.expected in pending {
      RemovalShrinks(pending, b.expected);
      var (e, ok) := EmitOne(id, b, pending[b.expected], v);
      if ok {
        DrainAdvances(id, e.(expected := b.expected + 1), pending - {b.expected}, v);
      }
    }
  }

  lemma {:induction false} DrainBounded(id: Identity, b: Books, pending: Table, v: Verdicts)
    requires b.expected <= SEQUENCE_LIMIT && forall s :: s in pending ==> s < SEQUENCE_LIMIT
    ensures var r := Drain(id, b, pending, v); r.books.expected <= SEQUENCE_LIMIT
    decreases pending.Keys
  {
    if b.expected in pending {
      RemovalShrinks(pending, b.expected);
      var (e, ok) := EmitOne(id, b, pending[b.expected], v);
      if ok {
        DrainBounded(id, e.(expected := b.expected + 1), pending - {b.expected}, v);
      }
    }
  }

  lemma {:induction false} DrainSynced(mode: StartMode, id: Identity, b: Books, pending: Table, v: Verdicts)
    requires Synced(mode, b) && 0 < b.expected
    requires forall s :: s in pending ==> pending[s].tick.sequence == s
    ensures Synced(mode, Drain(id, b, pending, v).books)
    decreases pending.Keys
  {
    if b.expected in pending {
      RemovalShrinks(pending, b.expected);
      EmitKeeps(mode, id, b, pending[b.expected], v);
      var (e, ok) := EmitOne(id, b, pending[b.expected], v);
      if ok {
        DrainSynced(mode, id, e.(expected := b.expected + 1), pending - {b.expected}, v);
      }
    }
  }

  lemma SubTableTabled(cfg: Config, id: Identity, small: Table, big: Table)
    requires cfg.entries > 0 && Tabled(cfg, id, big) && SubTable(small, big)
    ensures Tabled(cfg, id, small)
  {
  }

  lemma InsertTabled(cfg: Config, id: Identity, pending: Table, d: Decoded)
    requires cfg.entries > 0 && Tabled(cfg, id, pending) && Belongs(id, d)
    requires Insertion(cfg, pending, d).Inserted?
    ensures Tabled(cfg, id, pending[d.tick.sequence := d])
  {
  }

  lemma DrainContiguousKeeps(cfg: Config, cell: Cell, now: nat, v: Verdicts)
    requires cfg.entries > 0 && Active(cfg, cell.chan)
    ensures var r := DrainContiguous(cfg, cell, now, v).chan;
      Settled(cfg, r) && cell.chan.books.expected <= r.books.expected && r.id == cell.chan.id
  {
    var c := cell.chan;
    DrainStops(c.id, c.books, c.pending, v);
    DrainRemoves(c.id, c.books, c.pending, v);
    DrainAdvances(c.id, c.books, c.pending, v);
    DrainBounded(c.id, c.books, c.pending, v);
    DrainSynced(cfg.mode, c.id, c.books, c.pending, v);
    SubTableTabled(cfg, c.id, Drain(c.id, c.books, c.pending, v).pending, c.pending);
  }

  /** Fixing the origin at the smallest retained record makes the channel active. */
  lemma OriginReady(cfg: Config, c: Channel)
    requires cfg.entries > 0 && Collecting(cfg, c)
    ensures var m := MinimumPending(c.pending);
      Active(cfg, c.(discovering := false, books := Log(c.books, OriginFixed(m)).(expected := m)))
  {
    OriginKeeps(cfg.mode, c.books, MinimumPending(c.pending));
  }

  lemma FinishDiscoveryKeeps(cfg: Config, cell: Cell, now: nat, v: Verdicts)
    requires cfg.entries > 0 && Collecting(cfg, cell.chan)
    ensures var r := FinishDiscovery(cfg, cell, now, v).chan; Settled(cfg, r) && r.id == cell.chan.id
  {
    var c := cell.chan;
    var m := MinimumPending(c.pending);
    OriginReady(cfg, c);
    var started := Log(c.books, OriginFixed(m)).(expected := m);
    DrainContiguousKeeps(cfg, cell.(chan := c.(discovering := false, books := started)), now, v);
  }

  /** Skipping to the smallest retained record keeps the channel active. */
  lemma SkipReady(cfg: Config, c: Channel, now: nat)
    requires cfg.entries > 0 && Active(cfg, c) && c.pending != map[]
    ensures var m := MinimumPending(c.pending);
      c.books.expected <= m && (c.books.expected < m ==> Active(cfg, c.(books := SkipTo(c.id, c.books, m, now))))
  {
    var m := MinimumPending(c.pending);
    if m > c.books.expected {
      SkipKeeps(cfg.mode, c.id, c.books, m, now);
    }
  }

  lemma ForceKeeps(cfg: Config, cell: Cell, now: nat, v: Verdicts)
    requires cfg.entries > 0 && Active(cfg, cell.chan)
    ensures var r := ForceGapToMinimum(cfg, cell, now, v).chan; Settled(cfg, r) && r.id == cell.chan.id
  {
    var c := cell.chan;
    if c.pending != map[] {
      var m := MinimumPending(c.pending);
      SkipReady(cfg, c, now);
      if m > c.books.expected {
        DrainContiguousKeeps(cfg, cell.(chan := c.(books := SkipTo(c.id, c.books, m, now))), now, v);
      } else {
        DrainContiguousKeeps(cfg, cell, now, v);
      }
    }
  }

  lemma PassReady(cfg: Config, c: Channel, d: Decoded, v: Verdicts)
    requires cfg.entries > 0 && Settled(cfg, c) && Belongs(c.id, d) && d.tick.sequence == c.books.expected
    ensures var (e, ok) := EmitOne(c.id, c.books, d, v);
      if ok then Active(cfg, c.(books := e.(expected := d.tick.sequence + 1))) else Settled(cfg, c.(books := e))
  {
    EmitKeeps(cfg.mode, c.id, c.books, d, v);
  }

  lemma PassThroughKeeps(cfg: Config, cell: Cell, d: Decoded, now: nat, v: Verdicts)
    requires cfg.entries > 0 && Settled(cfg, cell.chan) && Belongs(cell.chan.id, d)
    requires d.tick.sequence == cell.chan.books.expected
    ensures var r := PassThrough(cfg, cell, d, now, v).chan; Settled(cfg, r) && r.id == cell.chan.id
  {
    var c := cell.chan;
    PassReady(cfg, c, d, v);
    var (e, ok) := EmitOne(c.id, c.books, d, v);
    if ok {
      DrainContiguousKeeps(cfg, cell.(chan := c.(books := e.(expected := d.tick.sequence + 1))), now, v);
    }
  }

  lemma RetainKeeps(cfg: Config, cell: Cell, d: Decoded, now: nat, v: Verdicts)
    requires cfg.entries > 0 && Settled(cfg, cell.chan) && Belongs(cell.chan.id, d)
    requires d.tick.sequence > cell.chan.books.expected && Insertion(cfg, cell.chan.pending, d).Inserted?
    ensures var r := Retain(cfg, cell, d, now, v).chan; Settled(cfg, r) && r.id == cell.chan.id
  {
    InsertTabled(cfg, cell.chan.id, cell.chan.pending, d);
    var c := cell.chan.(pending := cell.chan.pending[d.tick.sequence := d]);
    if d.tick.sequence - c.books.expected > cfg.maximumSpan || c.gapOpen != 0 {
      ForceKeeps(cfg, cell.(chan := c), now, v);
    } else {
      ForceKeeps(cfg, Cell(c.(gapOpen := now), Schedule(cell.deadline, now, cfg.gapWait)), now, v);
    }
  }

  /** What a conflicting body leaves: in FROM_OPEN a frozen channel that has just dropped the
      body and reported the fault at its frontier, in PARTIAL a live one that has diverted it. */
  predicate Clashed(mode: StartMode, c: Channel, d: Decoded, now: nat, r: Channel) {
    && r.pending == c.pending && r.books.expected == c.books.expected && r.books.trace.Then?
    && match mode
       case FromOpen =>
         && r.frozen
         && (c.frozen ==> r.books.trace == Then(c.books.trace, ConflictDropped(d)))
         && (!c.frozen ==>
               && r.books.trace.earlier == Then(c.books.trace, ConflictDropped(d)) && r.books.trace.last.Faulted?
               && r.books.trace.last.fault == Fault(c.id.market, c.id.channel, CanonicalConflict,
                                                    Replay(mode, c.books.trace).frontier, d.tick.sequence, now))
       case Partial =>
         && r.frozen == c.frozen && r.books.trace.earlier == c.books.trace && r.books.trace.last.Diverted?
         && r.books.trace.last.body == d
         && r.books.trace.last.record == LateStamp(Replay(mode, c.books.trace), d, PendingCanonicalConflict)
  }

  lemma ClashKeeps(cfg: Config, c: Channel, d: Decoded, now: nat, v: Verdicts)
    requires cfg.entries > 0 && Settled(cfg, c)
    ensures var r := Clash(cfg, c, d, now, v);
      Settled(cfg, r) && r.id == c.id && Clashed(cfg.mode, c, d, now, r)
  {
    if cfg.mode == FromOpen {
      LogKeeps(cfg.mode, c.books, ConflictDropped(d));
      FreezeKeeps(cfg, c.(books := Log(c.books, ConflictDropped(d))), CanonicalConflict, d.tick.sequence, now, v);
    } else {
      LogKeeps(cfg.mode, c.books, Divert(c.id, c.books, d, PendingCanonicalConflict, v).trace.last);
    }
  }

  lemma FreezeKeeps(cfg: Config, c: Channel, reason: FaultReason, observed: nat, now: nat, v: Verdicts)
    requires cfg.entries > 0 && cfg.mode == FromOpen && Settled(cfg, c)
    ensures var r := Freeze(c, reason, observed, now, v); Settled(cfg, r) && r.id == c.id
  {
    if !c.frozen {
      LogKeeps(cfg.mode, c.books, Freeze(c, reason, observed, now, v).books.trace.last);
    }
  }

  lemma MakeRoomKeeps(cfg: Config, cell: Cell, d: Decoded, now: nat, v: Verdicts)
    requires cfg.entries > 0 && Settled(cfg, cell.chan) && Belongs(cell.chan.id, d)
    requires d.tick.sequence > cell.chan.books.expected && Insertion(cfg, cell.chan.pending, d).Collision?
    ensures var r := MakeRoom(cfg, cell, d.tick.sequence, now, v).chan; Settled(cfg, r) && r.id == cell.chan.id
  {
    SkipKeeps(cfg.mode, cell.chan.id, cell.chan.books, d.tick.sequence, now);
    ForceKeeps(cfg, cell, now, v);
  }

  lemma {:induction false} ProcessActiveKeeps(cfg: Config, cell: Cell, d: Decoded, now: nat, v: Verdicts)
    requires cfg.entries > 0 && Settled(cfg, cell.chan) && Belongs(cell.chan.id, d)
    ensures var r := ProcessActive(cfg, cell, d, now, v).chan; Settled(cfg, r) && r.id == cell.chan.id
    decreases cell.chan.pending.Keys, d.tick.sequence > cell.chan.books.expected
  {
    var c := cell.chan;
    var s := d.tick.sequence;
    if s < c.books.expected {
      LogKeeps(cfg.mode, c.books, Divert(c.id, c.books, d, BehindCommittedFrontier, v).trace.last);
    } else if s == c.books.expected {
      PassThroughKeeps(cfg, cell, d, now, v);
    } else {
      match Insertion(cfg, c.pending, d)
      case Duplicate => LogKeeps(cfg.mode, c.books, DuplicateDropped(d));
      case Conflict => ClashKeeps(cfg, c, d, now, v);
      case Collision =>
        MakeRoomKeeps(cfg, cell, d, now, v);
        ProcessActiveKeeps(cfg, MakeRoom(cfg, cell, s, now, v), d, now, v);
      case Inserted => RetainKeeps(cfg, cell, d, now, v);
    }
  }

  /** A channel is ready for a record either as found or as just created. */
  ghost predicate Receptive(cfg: Config, c: Channel)
    requires cfg.entries > 0
  {
    Good(cfg, c) || c == NewChannel(cfg, c.id)
  }

  lemma DiscoverKeeps(cfg: Config, cell: Cell, d: Decoded, now: nat, v: Verdicts)
    requires cfg.entries > 0 && Receptive(cfg, cell.chan) && Belongs(cell.chan.id, d)
    requires cfg.mode == Partial && cell.chan.discovering
    ensures var r := Discover(cfg, cell, d, now, v).chan; Good(cfg, r) && r.id == cell.chan.id
  {
    var c := cell.chan;
    match Insertion(cfg, c.pending, d)
    case Duplicate => LogKeeps(cfg.mode, c.books, DuplicateDropped(d));
    case Conflict =>
      LogKeeps(cfg.mode, c.books, Divert(c.id, c.books, d, PendingCanonicalConflict, v).trace.last);
    case Collision =>
      FinishDiscoveryKeeps(cfg, cell, now, v);
      ProcessActiveKeeps(cfg, FinishDiscovery(cfg, cell, now, v), d, now, v);
    case Inserted =>
      InsertTabled(cfg, c.id, c.pending, d);
      var held := StartHold(cfg, cell.(chan := c.(pending := c.pending[d.tick.sequence := d])), now);
      FinishDiscoveryKeeps(cfg, held, now, v);
  }

  lemma ProcessKeeps(cfg: Config, cell: Cell, d: Decoded, now: nat, v: Verdicts)
    requires cfg.entries > 0 && Receptive(cfg, cell.chan) && Belongs(cell.chan.id, d)
    ensures var r := ProcessChannel(cfg, cell, d, now, v).chan; Good(cfg, r) && r.id == cell.chan.id
  {
    var c := cell.chan;
    if c.frozen {
      LogKeeps(cfg.mode, c.books, FrozenDropped(d));
    } else if cfg.mode == Partial && c.discovering {
      DiscoverKeeps(cfg, cell, d, now, v);
    } else {
      ProcessActiveKeeps(cfg, cell, d, now, v);
    }
  }

  lemma PollKeeps(cfg: Config, cell: Cell, now: nat, v: Verdicts)
    requires cfg.entries > 0 && Good(cfg, cell.chan)
    ensures var r := PollChannel(cfg, cell, now, v).chan; Good(cfg, r) && r.id == cell.chan.id
  {
    if cell.chan.discovering {
      FinishDiscoveryKeeps(cfg, cell, now, v);
    } else {
      ForceKeeps(cfg, cell, now, v);
    }
  }

  lemma {:induction false} ForceAllKeeps(cfg: Config, cell: Cell, now: nat, v: Verdicts)
    requires cfg.entries > 0 && Settled(cfg, cell.chan)
    ensures var r := ForceAll(cfg, cell, now, v).chan; Settled(cfg, r) && r.id == cell.chan.id
    decreases cell.chan.pending.Keys
  {
    if cell.chan.pending != map[] {
      ForceKeeps(cfg, cell, now, v);
      ForceAllKeeps(cfg, ForceGapToMinimum(cfg, cell, now, v), now, v);
    }
  }

  lemma FlushKeeps(cfg: Config, cell: Cell, now: nat, v: Verdicts)
    requires cfg.entries > 0 && Good(cfg, cell.chan)
    ensures var r := FlushChannel(cfg, cell, now, v).chan; Good(cfg, r) && r.id == cell.chan.id
  {
    if cell.chan.discovering {
      FinishDiscoveryKeeps(cfg, cell, now, v);
      ForceAllKeeps(cfg, FinishDiscovery(cfg, cell, now, v), now, v);
    } else if !cell.chan.frozen {
      ForceAllKeeps(cfg, cell, now, v);
    }
  }
}
