/** One channel's recovery as functions on values. The reorder table is a map from
    native sequence to record; that the modulo-indexed slot array implements this
    map is proved in module Recovery. */
module ChannelSpec {
  import opened Canonical
  import opened Remainders

  /** Which channel this is, and its gap mailbox. */
  datatype Identity = Identity(market: Market, channel: nat, mailbox: nat)

  /** The committed position and gap bookkeeping, with the trace of what was done. */
  datatype Books = Books(
    expected: nat,
    historyComplete: bool,
    gapMetadataPending: bool,
    gapEpoch: nat,
    missing: nat,
    gapFirst: nat,
    gapLast: nat,
    trace: Trace)

  type Table = map<nat, Decoded>

  datatype Channel = Channel(
    id: Identity,
    frozen: bool,
    discovering: bool,
    firstSeen: nat,
    gapOpen: nat,
    books: Books,
    pending: Table)

  /** A channel together with the timer it shares with its lane's other channels. */
  datatype Cell = Cell(chan: Channel, deadline: nat)

  function NewChannel(cfg: Config, id: Identity): Channel {
    Channel(id, false, cfg.mode == Partial, 0, 0,
            Books(if cfg.mode == FromOpen then 1 else 0, cfg.mode == FromOpen, false, 0, 0, 0, 0, Begin),
            map[])
  }

  // ---- timers ----------------------------------------------------------------

  predicate Reached(now: nat, start: nat, delay: nat) {
    now >= start && now - start >= delay
  }

  /** The saturating deadline start + delay. */
  function Due(start: nat, delay: nat): nat {
    if U64_MAX - start < delay then U64_MAX else start + delay
  }

  function Schedule(deadline: nat, start: nat, delay: nat): nat {
    if deadline == 0 || Due(start, delay) < deadline then Due(start, delay) else deadline
  }

  // ---- the reorder table -----------------------------------------------------

  datatype InsertResult = Inserted | Duplicate | Conflict | Collision

  /** The table position of a sequence: `sequence & (entries - 1)`, which for a power
      of two is the remainder. It is written as repeated subtraction to keep division
      out of the proofs that only care whether two positions differ. */
  function Slot(cfg: Config, sequence: nat): (i: nat)
    requires cfg.entries > 0
    ensures i < cfg.entries
  {
    if sequence < cfg.entries then sequence else Slot(cfg, sequence - cfg.entries)
  }

  lemma {:induction false} SlotIsRemainder(cfg: Config, sequence: nat)
    requires cfg.entries > 0
    ensures Slot(cfg, sequence) == sequence % cfg.entries
  {
    if sequence >= cfg.entries {
      SlotIsRemainder(cfg, sequence - cfg.entries);
      ShiftByModulus(sequence - cfg.entries, cfg.entries);
    }
  }

  ghost predicate Collides(cfg: Config, pending: Table, sequence: nat)
    requires cfg.entries > 0
  {
    exists s {:trigger Slot(cfg, s)} :: s in pending && s != sequence && Slot(cfg, s) == Slot(cfg, sequence)
  }

  ghost function Insertion(cfg: Config, pending: Table, d: Decoded): InsertResult
    requires cfg.entries > 0
  {
    var s := d.tick.sequence;
    if s in pending then
      if PayloadEqual(pending[s].tick, d.tick) && pending[s].catalogMatch == d.catalogMatch
      then Duplicate else Conflict
    else if Collides(cfg, pending, s) then Collision
    else Inserted
  }

  ghost function Least(keys: set<nat>): (m: nat)
    requires keys != {}
    ensures m in keys && forall s :: s in keys ==> m <= s
  {
    var k :| k in keys;
    var rest := keys - {k};
    assert forall s :: s in keys ==> s == k || s in rest;
    if rest == {} then k
    else
      var m := Least(rest);
      if m < k then m else k
  }

  /** The smallest retained sequence; the scan's initial maximum when there is none. */
  ghost function MinimumPending(pending: Table): (m: nat)
    ensures pending == map[] ==> m == U64_MAX
    ensures pending != map[] ==> m in pending && forall s :: s in pending ==> m <= s
  {
    if pending == map[] then U64_MAX else Least(pending.Keys)
  }

  // ---- publication -----------------------------------------------------------

  function OutgoingTick(b: Books, d: Decoded): Tick {
    var t := if b.historyComplete then d.tick
             else d.tick.(historyValid := false, historyIncomplete := true);
    if d.catalogMatch && b.gapMetadataPending
    then t.(gapBefore := true, gapEpoch := b.gapEpoch,
            gapBeforeFirst := b.gapFirst, gapBeforeLast := b.gapLast)
    else t
  }

  /** Publishes one record (a catalog miss is a silent continuity token); the flag
      says whether the frontier may move past it. */
  function EmitOne(id: Identity, b: Books, d: Decoded, v: Verdicts): (r: (Books, bool)) {
    var ok := !d.catalogMatch || v(id.mailbox, Length(b.trace));
    (b.(gapMetadataPending := b.gapMetadataPending && !d.catalogMatch,
        trace := Then(b.trace, Emitted(d, OutgoingTick(b, d), ok))),
     ok)
  }

  function LateRecordOf(b: Books, d: Decoded, reason: LateReason): LateRecord {
    LateRecord(
      d.tick.(historyValid := false, historyIncomplete := true, lateRecovery := true,
              gapEpoch := b.gapEpoch),
      b.expected, b.gapEpoch, reason, d.catalogMatch)
  }

  function Divert(id: Identity, b: Books, d: Decoded, reason: LateReason, v: Verdicts): Books {
    Log(b, Diverted(d, LateRecordOf(b, d, reason), v(id.mailbox, Length(b.trace))))
  }

  function Log(b: Books, e: Event): Books {
    b.(trace := Then(b.trace, e))
  }

  /** Commits the missing range [b.expected, next - 1] and moves the frontier to next. */
  function SkipTo(id: Identity, b: Books, next: nat, now: nat): Books
    requires b.expected < next
  {
    var size := next - b.expected;
    var epoch := if b.gapEpoch != U64_MAX then b.gapEpoch + 1 else b.gapEpoch;
    var missing := if U64_MAX - b.missing < size then U64_MAX else b.missing + size;
    var gap := Gap(id.market, id.channel, b.expected, next - 1, next, now, epoch, missing);
    Books(next, false, true, epoch, missing, b.expected, next - 1, Then(b.trace, GapRecorded(gap)))
  }

  /** The frontier at `next`, with whatever lies before it recorded as missing. */
  function MovedTo(id: Identity, b: Books, next: nat, now: nat): Books {
    if next > b.expected then SkipTo(id, b, next, now) else b.(expected := next)
  }

  datatype Drained = Drained(books: Books, pending: Table, ok: bool)

  lemma RemovalShrinks(pending: Table, s: nat)
    requires s in pending
    ensures (pending - {s}).Keys < pending.Keys
  {
    assert (pending - {s}).Keys == pending.Keys - {s};
  }

  /** Removes and emits the contiguous run of records at the frontier, stopping when
      the run ends or the dispatch queue refuses a tick. */
  ghost function Drain(id: Identity, b: Books, pending: Table, v: Verdicts): (r: Drained)
    ensures r.pending.Keys <= pending.Keys
    ensures b.expected in pending ==> r.pending.Keys < pending.Keys
    decreases pending.Keys
  {
    if b.expected !in pending then Drained(b, pending, true)
    else
      RemovalShrinks(pending, b.expected);
      var rest := pending - {b.expected};
      var (e, ok) := EmitOne(id, b, pending[b.expected], v);
      if ok then Drain(id, e.(expected := b.expected + 1), rest, v) else Drained(e, rest, false)
  }

  /** Drains and re-arms the gap timer, unless the dispatch queue refused a tick. */
  ghost function DrainContiguous(cfg: Config, cell: Cell, now: nat, v: Verdicts): (r: Cell)
    ensures r.chan.pending.Keys <= cell.chan.pending.Keys
    ensures cell.chan.books.expected in cell.chan.pending ==> r.chan.pending.Keys < cell.chan.pending.Keys
  {
    var c := cell.chan;
    var r := Drain(c.id, c.books, c.pending, v);
    var open := if !r.ok then c.gapOpen else if r.pending == map[] then 0 else now;
    Cell(c.(books := r.books, pending := r.pending, gapOpen := open),
         if r.ok && open != 0 then Schedule(cell.deadline, open, cfg.gapWait) else cell.deadline)
  }

  function Freeze(c: Channel, reason: FaultReason, observed: nat, now: nat, v: Verdicts): Channel {
    if c.frozen then c
    else
      var fault := Fault(c.id.market, c.id.channel, reason, c.books.expected, observed, now);
      c.(frozen := true, books := Log(c.books, Faulted(fault, v(c.id.mailbox, Length(c.books.trace)))))
  }

  ghost function FinishDiscovery(cfg: Config, cell: Cell, now: nat, v: Verdicts): Cell {
    var c := cell.chan;
    if !c.discovering || c.pending == map[] then cell.(chan := c.(discovering := false))
    else
      var m := MinimumPending(c.pending);
      var started := Log(c.books, OriginFixed(m)).(expected := m);
      DrainContiguous(cfg, cell.(chan := c.(discovering := false, books := started)), now, v)
  }

  /** Moves the frontier to the smallest retained record, recording what it skips. */
  ghost function ForceGapToMinimum(cfg: Config, cell: Cell, now: nat, v: Verdicts): (r: Cell)
    ensures cell.chan.pending != map[] ==> r.chan.pending.Keys < cell.chan.pending.Keys
  {
    var c := cell.chan;
    if c.pending == map[] then cell.(chan := c.(gapOpen := 0))
    else
      var moved := MovedTo(c.id, c.books, MinimumPending(c.pending), now);
      DrainContiguous(cfg, cell.(chan := c.(books := moved)), now, v)
  }

  // ---- arrivals --------------------------------------------------------------

  /** A future record that found its slot free: keep it, and force the frontier when
      it is beyond the span or when no waiting is configured. */
  ghost function Retain(cfg: Config, cell: Cell, d: Decoded, now: nat, v: Verdicts): Cell {
    var c := cell.chan.(pending := cell.chan.pending[d.tick.sequence := d]);
    if d.tick.sequence - c.books.expected > cfg.maximumSpan then
      ForceGapToMinimum(cfg, cell.(chan := c), now, v)
    else
      var armed := if c.gapOpen == 0
                   then Cell(c.(gapOpen := now), Schedule(cell.deadline, now, cfg.gapWait))
                   else cell.(chan := c);
      if cfg.gapWait == 0 then ForceGapToMinimum(cfg, armed, now, v) else armed
  }

  /** A record at the frontier passes straight through and releases what waited for it. */
  ghost function PassThrough(cfg: Config, cell: Cell, d: Decoded, now: nat, v: Verdicts): (r: Cell) {
    var c := cell.chan;
    var (e, ok) := EmitOne(c.id, c.books, d, v);
    if ok then DrainContiguous(cfg, cell.(chan := c.(books := e.(expected := d.tick.sequence + 1))), now, v)
    else cell.(chan := c.(books := e))
  }

  /** A different projection of a sequence that is already retained. */
  function Clash(cfg: Config, c: Channel, d: Decoded, now: nat, v: Verdicts): Channel {
    if cfg.mode == FromOpen
    then Freeze(c.(books := Log(c.books, ConflictDropped(d))), CanonicalConflict, d.tick.sequence, now, v)
    else c.(books := Divert(c.id, c.books, d, PendingCanonicalConflict, v))
  }

  /** Frees the slot a record collides with, before the record is tried again. */
  ghost function MakeRoom(cfg: Config, cell: Cell, sequence: nat, now: nat, v: Verdicts): (r: Cell)
    requires cell.chan.books.expected < sequence
    ensures r.chan.pending.Keys < cell.chan.pending.Keys ||
            (r.chan.pending == cell.chan.pending && r.chan.books.expected == sequence)
  {
    var c := cell.chan;
    if c.pending == map[] || sequence < MinimumPending(c.pending)
    then cell.(chan := c.(books := SkipTo(c.id, c.books, sequence, now)))
    else ForceGapToMinimum(cfg, cell, now, v)
  }

  ghost function ProcessActive(cfg: Config, cell: Cell, d: Decoded, now: nat, v: Verdicts): Cell
    requires cfg.entries > 0
    decreases cell.chan.pending.Keys, d.tick.sequence > cell.chan.books.expected
  {
    var c := cell.chan;
    var s := d.tick.sequence;
    if s < c.books.expected then
      cell.(chan := c.(books := Divert(c.id, c.books, d, BehindCommittedFrontier, v)))
    else if s == c.books.expected then PassThrough(cfg, cell, d, now, v)
    else
      match Insertion(cfg, c.pending, d)
      case Duplicate => cell.(chan := c.(books := Log(c.books, DuplicateDropped(d))))
      case Conflict => cell.(chan := Clash(cfg, c, d, now, v))
      case Collision => ProcessActive(cfg, MakeRoom(cfg, cell, s, now, v), d, now, v)
      case Inserted => Retain(cfg, cell, d, now, v)
  }

  /** The first record of a PARTIAL channel starts the initial hold. */
  function StartHold(cfg: Config, cell: Cell, now: nat): Cell {
    if cell.chan.firstSeen != 0 then cell
    else
      Cell(cell.chan.(firstSeen := now),
           if cfg.initialHold != 0 then Schedule(cell.deadline, now, cfg.initialHold) else cell.deadline)
  }

  /** One arrival while PARTIAL is still choosing the channel's origin. */
  ghost function Discover(cfg: Config, cell: Cell, d: Decoded, now: nat, v: Verdicts): Cell
    requires cfg.entries > 0
  {
    var c := cell.chan;
    match Insertion(cfg, c.pending, d)
    case Duplicate => cell.(chan := c.(books := Log(c.books, DuplicateDropped(d))))
    case Conflict => cell.(chan := c.(books := Divert(c.id, c.books, d, PendingCanonicalConflict, v)))
    case Collision => ProcessActive(cfg, FinishDiscovery(cfg, cell, now, v), d, now, v)
    case Inserted =>
      var held := StartHold(cfg, cell.(chan := c.(pending := c.pending[d.tick.sequence := d])), now);
      if cfg.initialHold == 0 || Reached(now, held.chan.firstSeen, cfg.initialHold)
      then FinishDiscovery(cfg, held, now, v)
      else held
  }

  ghost function ProcessChannel(cfg: Config, cell: Cell, d: Decoded, now: nat, v: Verdicts): Cell
    requires cfg.entries > 0
  {
    var c := cell.chan;
    if c.frozen then cell.(chan := c.(books := Log(c.books, FrozenDropped(d))))
    else if cfg.mode == Partial && c.discovering then Discover(cfg, cell, d, now, v)
    else ProcessActive(cfg, cell, d, now, v)
  }

  // ---- timers and shutdown ---------------------------------------------------

  /** One step of the timer scan. */
  ghost function PollChannel(cfg: Config, cell: Cell, now: nat, v: Verdicts): Cell {
    var c := cell.chan;
    if c.frozen || c.pending == map[] then cell
    else if c.discovering then
      if Reached(now, c.firstSeen, cfg.initialHold) then FinishDiscovery(cfg, cell, now, v)
      else cell.(deadline := Schedule(cell.deadline, c.firstSeen, cfg.initialHold))
    else if c.gapOpen == 0 then cell
    else if Reached(now, c.gapOpen, cfg.gapWait) then ForceGapToMinimum(cfg, cell, now, v)
    else cell.(deadline := Schedule(cell.deadline, c.gapOpen, cfg.gapWait))
  }

  ghost function ForceAll(cfg: Config, cell: Cell, now: nat, v: Verdicts): (r: Cell)
    ensures r.chan.pending == map[]
    decreases cell.chan.pending.Keys
  {
    if cell.chan.pending == map[] then cell
    else ForceAll(cfg, ForceGapToMinimum(cfg, cell, now, v), now, v)
  }

  ghost function FlushChannel(cfg: Config, cell: Cell, now: nat, v: Verdicts): (r: Cell)
    ensures !cell.chan.frozen ==> r.chan.pending == map[]
  {
    if cell.chan.frozen then cell
    else ForceAll(cfg, if cell.chan.discovering then FinishDiscovery(cfg, cell, now, v) else cell, now, v)
  }
}
