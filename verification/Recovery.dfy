/** The recovery as the source runs it: per-channel state updated in place over a
    modulo-indexed slot array, channels found through an open-addressing table. Each
    method is proved to do exactly what the functions of ChannelSpec and LaneSpec say. */
module Recovery {
  import opened Canonical
  import opened ChannelSpec
  import opened LaneSpec
  import opened ChannelIndex
  import opened ProbeTable

  datatype PendingSlot = Free | Occupied(record: Decoded)

  /** Sequence s is in the reorder table exactly when its slot holds it. Sequences stay
      below the int64 limit, so the frontier cannot wrap. */
  ghost predicate Retained(cfg: Config, slots: seq<PendingSlot>, table: Table, keys: set<nat>, s: nat)
    requires cfg.entries > 0 && |slots| == cfg.entries
  {
    && (s in keys <==> s in table)
    && (s in table ==>
          s < SEQUENCE_LIMIT && table[s].tick.sequence == s && slots[Slot(cfg, s)] == Occupied(table[s]))
  }

  ghost predicate SlotKept(cfg: Config, slots: seq<PendingSlot>, table: Table, i: nat)
    requires cfg.entries > 0 && i < |slots| == cfg.entries
  {
    slots[i].Occupied? ==>
      var s := slots[i].record.tick.sequence;
      s in table && table[s] == slots[i].record && Slot(cfg, s) == i
  }

  /** The slots hold exactly the reorder table. */
  ghost predicate Mirrors(cfg: Config, slots: seq<PendingSlot>, table: Table, keys: set<nat>)
    requires cfg.entries > 0
  {
    && |slots| == cfg.entries
    && (forall s :: Retained(cfg, slots, table, keys, s))
    && (forall i :: 0 <= i < |slots| ==> SlotKept(cfg, slots, table, i))
  }

  lemma MirrorsInsert(cfg: Config, slots: seq<PendingSlot>, table: Table, keys: set<nat>, d: Decoded)
    requires cfg.entries > 0 && Mirrors(cfg, slots, table, keys)
    requires d.tick.sequence < SEQUENCE_LIMIT && slots[Slot(cfg, d.tick.sequence)].Free?
    ensures d.tick.sequence !in keys && d.tick.sequence !in table && !Collides(cfg, table, d.tick.sequence)
    ensures var s: nat := d.tick.sequence;
      Mirrors(cfg, slots[Slot(cfg, s) := Occupied(d)], table[s := d], keys + {s})
  {
    var n: nat := d.tick.sequence;
    var i := Slot(cfg, n);
    var slots', table', keys' := slots[i := Occupied(d)], table[n := d], keys + {n};
    assert Retained(cfg, slots, table, keys, n);
    forall s {:trigger Slot(cfg, s)} | s in table ensures Slot(cfg, s) != i {
      assert Retained(cfg, slots, table, keys, s);
    }
    forall s ensures Retained(cfg, slots', table', keys', s) {
      assert Retained(cfg, slots, table, keys, s);
    }
    forall j | 0 <= j < |slots'| ensures SlotKept(cfg, slots', table', j) {
      assert SlotKept(cfg, slots, table, j);
    }
  }

  lemma MirrorsVacate(cfg: Config, slots: seq<PendingSlot>, table: Table, keys: set<nat>, i: nat)
    requires cfg.entries > 0 && Mirrors(cfg, slots, table, keys)
    requires i < |slots| && slots[i].Occupied?
    ensures var s: nat := slots[i].record.tick.sequence;
      && s < SEQUENCE_LIMIT && s in table && s in keys
      && Mirrors(cfg, slots[i := Free], table - {s}, keys - {s})
  {
    var n: nat := slots[i].record.tick.sequence;
    var slots', table', keys' := slots[i := Free], table - {n}, keys - {n};
    assert SlotKept(cfg, slots, table, i) && Retained(cfg, slots, table, keys, n);
    forall s ensures Retained(cfg, slots', table', keys', s) {
      assert Retained(cfg, slots, table, keys, s);
    }
    forall j | 0 <= j < |slots'| ensures SlotKept(cfg, slots', table', j) {
      assert SlotKept(cfg, slots, table, j);
    }
  }

  class ChannelState {
    const id: Identity
    var frozen: bool
    var discovering: bool
    var historyComplete: bool
    var gapMetadataPending: bool
    var expected: u64
    var firstSeen: u64
    var gapOpen: u64
    var gapEpoch: u64
    var missing: u64
    var gapFirst: u64
    var gapLast: u64
    var trace: Trace
    var pendingCount: nat
    const pending: array<PendingSlot>
    ghost var table: Table
    /** The keys of `table`, kept apart so that only counting reasons about its size. */
    ghost var keys: set<nat>

    constructor (cfg: Config, identity: Identity)
      requires cfg.entries > 0
      ensures Represents(cfg) && Model() == NewChannel(cfg, identity)
      ensures fresh(pending)
    {
      id := identity;
      frozen, gapMetadataPending := false, false;
      discovering := cfg.mode == Partial;
      historyComplete := cfg.mode == FromOpen;
      expected := if cfg.mode == FromOpen then 1 else 0;
      firstSeen, gapOpen, gapEpoch, missing, gapFirst, gapLast := 0, 0, 0, 0, 0, 0;
      trace := Begin;
      pendingCount := 0;
      pending := new PendingSlot[cfg.entries](_ => Free);
      table, keys := map[], {};
    }

    ghost function BooksModel(): Books
      reads this
    {
      Books(expected, historyComplete, gapMetadataPending, gapEpoch, missing, gapFirst, gapLast, trace)
    }

    ghost function Model(): Channel
      reads this
    {
      Channel(id, frozen, discovering, firstSeen, gapOpen, BooksModel(), table)
    }

    ghost predicate Represents(cfg: Config)
      requires cfg.entries > 0
      reads this`pendingCount, this`table, this`keys, this`expected, pending
    {
      && pendingCount == |keys|
      && expected <= SEQUENCE_LIMIT
      && Mirrors(cfg, pending[..], table, keys)
    }
  }

  /** The state object holds exactly this channel. */
  ghost predicate Stands(cfg: Config, state: ChannelState, c: Channel)
    requires cfg.entries > 0
    reads state, state.pending
  {
    state.Represents(cfg) && state.Model() == c
  }

  ghost predicate StandsAt(cfg: Config, states: seq<ChannelState>, chans: seq<Channel>, i: nat)
    requires cfg.entries > 0 && i < |states| == |chans|
    reads states, set c | c in states :: c.pending
  {
    Stands(cfg, states[i], chans[i])
  }

  predicate Separate(states: seq<ChannelState>, i: nat, j: nat)
    requires i < |states| && j < |states|
  {
    states[i] != states[j] && states[i].pending != states[j].pending
  }

  ghost predicate AllStand(cfg: Config, states: seq<ChannelState>, chans: seq<Channel>)
    requires cfg.entries > 0
    reads states, set c | c in states :: c.pending
  {
    && |states| == |chans|
    && (forall i :: 0 <= i < |states| ==> StandsAt(cfg, states, chans, i))
    && (forall i, j :: 0 <= i < |states| && 0 <= j < |states| && i != j ==> Separate(states, i, j))
  }

  lemma OneMoreStands(cfg: Config, states: seq<ChannelState>, chans: seq<Channel>, state: ChannelState, c: Channel)
    requires cfg.entries > 0 && AllStand(cfg, states, chans) && Stands(cfg, state, c)
    requires forall s :: s in states ==> s != state && s.pending != state.pending
    ensures AllStand(cfg, states + [state], chans + [c])
  {
    var more := states + [state];
    forall i | 0 <= i < |more| ensures StandsAt(cfg, more, chans + [c], i) {
      if i < |states| { assert StandsAt(cfg, states, chans, i); }
    }
    forall i, j | 0 <= i < |more| && 0 <= j < |more| && i != j ensures Separate(more, i, j) {
      if i < |states| && j < |states| { assert Separate(states, i, j); }
    }
  }

  class SequenceRecovery {
    const cfg: Config
    const verdicts: Verdicts
    /** The hash of a channel's name; nothing depends on which function it is. */
    const hash: Hash
    var channels: seq<ChannelState>
    const channelTable: array<nat>
    var nextDeadline: u64
    var exhausted: bool
    ghost var lane: Lane
    ghost var homes: seq<nat>
    ghost var dist: seq<nat>

    constructor (config: Config, answers: Verdicts, hashing: Hash)
      requires ValidConfig(config)
      ensures Valid() && lane == EMPTY && cfg == config && verdicts == answers
      ensures fresh(channelTable)
    {
      var capacity := 1;
      while capacity < config.maximumChannels * 2
      {
        capacity := 2 * capacity;
      }
      cfg, verdicts, hash := config, answers, hashing;
      channels, nextDeadline, exhausted := [], 0, false;
      channelTable := new nat[capacity](_ => 0);
      lane, homes, dist := EMPTY, [], [];
    }

    ghost function IndexModel(): Index
      reads this`homes, this`dist, channelTable
    {
      Index(channelTable[..], homes, dist)
    }

    ghost predicate Valid()
      reads this, channelTable, channels, set c | c in channels :: c.pending
    {
      && ValidConfig(cfg)
      && lane.deadline == nextDeadline && lane.exhausted == exhausted
      && AllStand(cfg, channels, lane.chans)
      && Kept(cfg, hash, IndexModel(), lane.chans)
    }

    ghost function CellOf(state: ChannelState): Cell
      reads this, state
    {
      Cell(state.Model(), nextDeadline)
    }

    lemma CountZero(state: ChannelState)
      requires cfg.entries > 0 && state.Represents(cfg)
      ensures state.pendingCount == 0 <==> state.table == map[]
    {
      var slots := state.pending[..];
      forall s ensures s in state.keys <==> s in state.table {
        assert Retained(cfg, slots, state.table, state.keys, s);
      }
      assert state.keys == {} <==> state.table == map[];
    }

    // ---- the slot array ----------------------------------------------------------

    method Insert(state: ChannelState, d: Decoded) returns (result: InsertResult)
      requires cfg.entries > 0 && state.Represents(cfg) && d.tick.sequence < SEQUENCE_LIMIT
      modifies state`pendingCount, state`table, state`keys, state.pending
      ensures state.Represents(cfg)
      ensures result == Insertion(cfg, old(state.table), d)
      ensures state.table == if result.Inserted? then old(state.table)[d.tick.sequence := d] else old(state.table)
    {
      var s := d.tick.sequence;
      var i := s % cfg.entries;
      SlotIsRemainder(cfg, s);
      ghost var slots := state.pending[..];
      assert Retained(cfg, slots, state.table, state.keys, s);
      if state.pending[i].Occupied? {
        var present := state.pending[i].record;
        assert SlotKept(cfg, slots, state.table, i);
        if present.tick.sequence != s {
          assert Slot(cfg, present.tick.sequence) == Slot(cfg, s);
          return Collision;
        }
        return if PayloadEqual(present.tick, d.tick) && present.catalogMatch == d.catalogMatch
          then Duplicate else Conflict;
      }
      MirrorsInsert(cfg, slots, state.table, state.keys, d);
      state.pending[i] := Occupied(d);
      state.pendingCount := state.pendingCount + 1;
      state.table, state.keys := state.table[s := d], state.keys + {s};
      return Inserted;
    }

    method Find(state: ChannelState, sequence: u64) returns (found: bool, i: nat)
      requires cfg.entries > 0 && state.Represents(cfg)
      ensures found <==> sequence in state.table
      ensures i == Slot(cfg, sequence) < state.pending.Length
      ensures found ==> state.pending[i] == Occupied(state.table[sequence])
    {
      i := sequence % cfg.entries;
      SlotIsRemainder(cfg, sequence);
      ghost var slots := state.pending[..];
      assert Retained(cfg, slots, state.table, state.keys, sequence) && SlotKept(cfg, slots, state.table, i);
      found := state.pending[i].Occupied? && state.pending[i].record.tick.sequence == sequence;
    }

    method MinimumOf(state: ChannelState) returns (minimum: u64)
      requires cfg.entries > 0 && state.Represents(cfg)
      ensures minimum == MinimumPending(state.table)
      ensures state.table != map[] ==> minimum < SEQUENCE_LIMIT
    {
      minimum := U64_MAX;
      ghost var slots := state.pending[..];
      var i := 0;
      while i < state.pending.Length
        invariant 0 <= i <= |slots|
        invariant minimum in state.table || (minimum == U64_MAX && forall k :: 0 <= k < i ==> slots[k].Free?)
        invariant forall k :: 0 <= k < i && slots[k].Occupied? ==> minimum <= slots[k].record.tick.sequence
      {
        assert SlotKept(cfg, slots, state.table, i) && slots[i] == state.pending[i];
        if state.pending[i].Occupied? && state.pending[i].record.tick.sequence < minimum {
          minimum := state.pending[i].record.tick.sequence;
        }
        i := i + 1;
      }
      forall s | s in state.table ensures minimum <= s < SEQUENCE_LIMIT {
        assert Retained(cfg, slots, state.table, state.keys, s) && SlotKept(cfg, slots, state.table, Slot(cfg, s));
      }
    }

    /** Takes the record out of slot i. */
    method Vacate(state: ChannelState, i: nat) returns (d: Decoded)
      requires cfg.entries > 0 && state.Represents(cfg)
      requires i < state.pending.Length && state.pending[i].Occupied?
      modifies state`pendingCount, state`table, state`keys, state.pending
      ensures state.Represents(cfg)
      ensures d == old(state.pending[i].record) && d.tick.sequence < SEQUENCE_LIMIT
      ensures state.table == old(state.table) - {d.tick.sequence} && state.pendingCount < old(state.pendingCount)
    {
      d := state.pending[i].record;
      MirrorsVacate(cfg, state.pending[..], state.table, state.keys, i);
      state.pending[i] := Free;
      state.pendingCount := state.pendingCount - 1;
      ghost var s: nat := d.tick.sequence;
      state.table, state.keys := state.table - {s}, state.keys - {s};
    }

    // ---- publication -------------------------------------------------------------

    method Emit(state: ChannelState, d: Decoded) returns (ok: bool)
      modifies state`trace, state`gapMetadataPending
      ensures (state.BooksModel(), ok) == EmitOne(state.id, old(state.BooksModel()), d, verdicts)
    {
      var tick := d.tick;
      if !state.historyComplete {
        tick := tick.(historyValid := false, historyIncomplete := true);
      }
      if d.catalogMatch && state.gapMetadataPending {
        tick := tick.(gapBefore := true, gapEpoch := state.gapEpoch,
                      gapBeforeFirst := state.gapFirst, gapBeforeLast := state.gapLast);
        state.gapMetadataPending := false;
      }
      ok := true;
      if d.catalogMatch {
        ok := verdicts(state.id.mailbox, Length(state.trace));
      }
      state.trace := Then(state.trace, Emitted(d, tick, ok));
    }

    method DivertLate(state: ChannelState, d: Decoded, reason: LateReason)
      modifies state`trace
      ensures state.BooksModel() == Divert(state.id, old(state.BooksModel()), d, reason, verdicts)
    {
      var tick := d.tick.(historyValid := false, historyIncomplete := true, lateRecovery := true,
                          gapEpoch := state.gapEpoch);
      var record := LateRecord(tick, state.expected, state.gapEpoch, reason, d.catalogMatch);
      var ok := verdicts(state.id.mailbox, Length(state.trace));
      state.trace := Then(state.trace, Diverted(d, record, ok));
    }

    method FreezeFromOpen(state: ChannelState, reason: FaultReason, observed: u64, now: u64)
      modifies state`trace, state`frozen
      ensures state.Model() == Freeze(old(state.Model()), reason, observed, now, verdicts)
    {
      if !state.frozen {
        state.frozen := true;
        var fault := Fault(state.id.market, state.id.channel, reason, state.expected, observed, now);
        var ok := verdicts(state.id.mailbox, Length(state.trace));
        state.trace := Then(state.trace, Faulted(fault, ok));
      }
    }

    method ScheduleDeadline(start: u64, delay: u64)
      modifies this`nextDeadline
      ensures nextDeadline == Schedule(old(nextDeadline), start, delay)
    {
      var deadline := if U64_MAX - start < delay then U64_MAX else start + delay;
      if nextDeadline == 0 || deadline < nextDeadline {
        nextDeadline := deadline;
      }
    }

    /** Commits the range [expected, next - 1] and moves the frontier. The mailbox slot is
        always within the dispatcher's bounds, so publishing the gap cannot fail. */
    method RecordGap(state: ChannelState, next: u64, now: u64)
      requires state.expected < next
      modifies state`historyComplete, state`gapEpoch, state`missing, state`gapFirst, state`gapLast,
               state`gapMetadataPending, state`trace, state`expected
      ensures state.BooksModel() == SkipTo(state.id, old(state.BooksModel()), next, now)
    {
      var first, last := state.expected, next - 1;
      state.historyComplete := false;
      if state.gapEpoch != U64_MAX {
        state.gapEpoch := state.gapEpoch + 1;
      }
      var size := next - first;
      state.missing := if U64_MAX - state.missing < size then U64_MAX else state.missing + size;
      state.gapFirst, state.gapLast, state.gapMetadataPending := first, last, true;
      var gap := Gap(state.id.market, state.id.channel, first, last, next, now, state.gapEpoch, state.missing);
      state.trace := Then(state.trace, GapRecorded(gap));
      state.expected := next;
    }

    // ---- moving the frontier -------------------------------------------------------

    /** Emits a record at the frontier and, if the tick was taken, moves past it. */
    method EmitAndAdvance(state: ChannelState, d: Decoded) returns (ok: bool)
      requires cfg.entries > 0 && state.Represents(cfg) && d.tick.sequence < SEQUENCE_LIMIT
      requires d.tick.sequence == state.expected
      modifies state`trace, state`gapMetadataPending, state`expected
      ensures state.Represents(cfg)
      ensures var (e, accepted) := EmitOne(state.id, old(state.BooksModel()), d, verdicts);
        ok == accepted && state.BooksModel() == if ok then e.(expected := d.tick.sequence + 1) else e
    {
      ok := Emit(state, d);
      if ok {
        state.expected := state.expected + 1;
      }
    }

    /** Emits the record in slot i, which is the one at the frontier. */
    method EmitNext(state: ChannelState, i: nat) returns (ok: bool)
      requires cfg.entries > 0 && state.Represents(cfg)
      requires i < state.pending.Length && state.expected in state.table
      requires state.pending[i] == Occupied(state.table[state.expected])
      modifies state`trace, state`gapMetadataPending, state`expected,
               state`pendingCount, state`table, state`keys, state.pending
      ensures state.Represents(cfg) && state.pendingCount < old(state.pendingCount)
      ensures state.table == old(state.table) - {old(state.expected)}
      ensures var (e, went) := EmitOne(state.id, old(state.BooksModel()), old(state.table[state.expected]), verdicts);
        ok == went && state.BooksModel() == if ok then e.(expected := old(state.expected) + 1) else e
    {
      assert Retained(cfg, state.pending[..], state.table, state.keys, state.expected);
      var d := Vacate(state, i);
      ok := EmitAndAdvance(state, d);
    }

    method DrainRun(state: ChannelState) returns (ok: bool)
      requires cfg.entries > 0 && state.Represents(cfg)
      modifies state`trace, state`gapMetadataPending, state`expected,
               state`pendingCount, state`table, state`keys, state.pending
      ensures state.Represents(cfg)
      ensures Drained(state.BooksModel(), state.table, ok) ==
              Drain(state.id, old(state.BooksModel()), old(state.table), verdicts)
    {
      ghost var whole := Drain(state.id, state.BooksModel(), state.table, verdicts);
      while true
        invariant state.Represents(cfg)
        invariant Drain(state.id, state.BooksModel(), state.table, verdicts) == whole
        decreases state.pendingCount
      {
        var found, i := Find(state, state.expected);
        if !found {
          return true;
        }
        ok := EmitNext(state, i);
        if !ok {
          return false;
        }
      }
    }

    method Drains(state: ChannelState, now: u64)
      requires cfg.entries > 0 && state.Represents(cfg)
      modifies this`nextDeadline, state, state.pending
      ensures state.Represents(cfg)
      ensures CellOf(state) == DrainContiguous(cfg, old(CellOf(state)), now, verdicts)
    {
      var ok := DrainRun(state);
      if !ok {
        return;
      }
      assert state.pendingCount == 0 <==> state.table == map[] by { CountZero(state); }
      state.gapOpen := if state.pendingCount == 0 then 0 else now;
      if state.gapOpen != 0 {
        ScheduleDeadline(state.gapOpen, cfg.gapWait);
      }
    }

    method FinishDiscoveryOf(state: ChannelState, now: u64)
      requires cfg.entries > 0 && state.Represents(cfg)
      modifies this`nextDeadline, state, state.pending
      ensures state.Represents(cfg)
      ensures CellOf(state) == FinishDiscovery(cfg, old(CellOf(state)), now, verdicts)
    {
      CountZero(state);
      if !state.discovering || state.pendingCount == 0 {
        state.discovering := false;
        return;
      }
      var minimum := MinimumOf(state);
      FixOrigin(state, minimum);
      Drains(state, now);
    }

    method FixOrigin(state: ChannelState, origin: u64)
      requires cfg.entries > 0 && state.Represents(cfg) && origin < SEQUENCE_LIMIT
      modifies state`discovering, state`trace, state`expected
      ensures state.Represents(cfg)
      ensures var c := old(state.Model());
        state.Model() == c.(discovering := false, books := Log(c.books, OriginFixed(origin)).(expected := origin))
    {
      state.discovering := false;
      state.trace := Then(state.trace, OriginFixed(origin));
      state.expected := origin;
    }

    method MoveTo(state: ChannelState, next: u64, now: u64)
      requires cfg.entries > 0 && state.Represents(cfg) && next < SEQUENCE_LIMIT
      modifies state`historyComplete, state`gapEpoch, state`missing, state`gapFirst, state`gapLast,
               state`gapMetadataPending, state`trace, state`expected
      ensures state.Represents(cfg)
      ensures state.BooksModel() == MovedTo(state.id, old(state.BooksModel()), next, now)
    {
      if next > state.expected {
        RecordGap(state, next, now);
      }
      state.expected := next;
    }

    method ForceToMinimum(state: ChannelState, now: u64)
      requires cfg.entries > 0 && state.Represents(cfg)
      modifies this`nextDeadline, state, state.pending
      ensures state.Represents(cfg)
      ensures CellOf(state) == ForceGapToMinimum(cfg, old(CellOf(state)), now, verdicts)
    {
      CountZero(state);
      if state.pendingCount == 0 {
        state.gapOpen := 0;
        return;
      }
      var minimum := MinimumOf(state);
      ghost var cell := CellOf(state);
      MoveTo(state, minimum, now);
      ghost var moved := CellOf(state);
      assert moved == cell.(chan := cell.chan.(books := MovedTo(state.id, cell.chan.books, minimum, now)));
      Drains(state, now);
      assert CellOf(state) == DrainContiguous(cfg, moved, now, verdicts);
    }

    // ---- arrivals ------------------------------------------------------------------

    /** A future record just inserted: force the frontier past the span, or arm the timer. */
    method Settle(state: ChannelState, span: u64, now: u64)
      requires cfg.entries > 0 && state.Represents(cfg)
      modifies this`nextDeadline, state, state.pending
      ensures state.Represents(cfg)
      ensures CellOf(state) ==
        var cell := old(CellOf(state));
        if span > cfg.maximumSpan then ForceGapToMinimum(cfg, cell, now, verdicts)
        else
          var armed := if cell.chan.gapOpen == 0
                       then Cell(cell.chan.(gapOpen := now), Schedule(cell.deadline, now, cfg.gapWait))
                       else cell;
          if cfg.gapWait == 0 then ForceGapToMinimum(cfg, armed, now, verdicts) else armed
    {
      if span > cfg.maximumSpan {
        ForceToMinimum(state, now);
        return;
      }
      if state.gapOpen == 0 {
        state.gapOpen := now;
        ScheduleDeadline(state.gapOpen, cfg.gapWait);
      }
      if cfg.gapWait == 0 {
        ForceToMinimum(state, now);
      }
    }

    method PassesThrough(state: ChannelState, d: Decoded, now: u64)
      requires cfg.entries > 0 && state.Represents(cfg) && d.tick.sequence < SEQUENCE_LIMIT
      requires d.tick.sequence == state.expected
      modifies this`nextDeadline, state, state.pending
      ensures state.Represents(cfg)
      ensures CellOf(state) == PassThrough(cfg, old(CellOf(state)), d, now, verdicts)
    {
      var ok := EmitAndAdvance(state, d);
      if ok {
        ghost var passed := CellOf(state);
        Drains(state, now);
        assert CellOf(state) == DrainContiguous(cfg, passed, now, verdicts);
      }
    }

    method ClashWith(state: ChannelState, d: Decoded, now: u64)
      modifies state`trace, state`frozen
      ensures state.Model() == Clash(cfg, old(state.Model()), d, now, verdicts)
    {
      if cfg.mode == FromOpen {
        state.trace := Then(state.trace, ConflictDropped(d));
        FreezeFromOpen(state, CanonicalConflict, d.tick.sequence, now);
      } else {
        DivertLate(state, d, PendingCanonicalConflict);
      }
    }

    method FreesRoom(state: ChannelState, d: Decoded, now: u64)
      requires cfg.entries > 0 && state.Represents(cfg) && d.tick.sequence < SEQUENCE_LIMIT
      requires state.expected < d.tick.sequence
      modifies this`nextDeadline, state, state.pending
      ensures state.Represents(cfg)
      ensures CellOf(state) == MakeRoom(cfg, old(CellOf(state)), d.tick.sequence, now, verdicts)
    {
      var minimum := MinimumOf(state);
      CountZero(state);
      if state.pendingCount == 0 || d.tick.sequence < minimum {
        RecordGap(state, d.tick.sequence, now);
      } else {
        ForceToMinimum(state, now);
      }
    }

    /** One round of the retry loop; `again` when it only made room for the record. */
    method Attempt(state: ChannelState, d: Decoded, now: u64) returns (again: bool)
      requires cfg.entries > 0 && state.Represents(cfg) && d.tick.sequence < SEQUENCE_LIMIT
      modifies this`nextDeadline, state, state.pending
      ensures state.Represents(cfg)
      ensures !again ==> CellOf(state) == ProcessActive(cfg, old(CellOf(state)), d, now, verdicts)
      ensures again ==>
        && old(state.expected) < d.tick.sequence && Insertion(cfg, old(state.table), d).Collision?
        && CellOf(state) == MakeRoom(cfg, old(CellOf(state)), d.tick.sequence, now, verdicts)
    {
      again := false;
      var s := d.tick.sequence;
      if s < state.expected {
        DivertLate(state, d, BehindCommittedFrontier);
        return;
      }
      if s == state.expected {
        PassesThrough(state, d, now);
        return;
      }
      again := FutureArrival(state, d, now);
    }

    /** A record ahead of the frontier. */
    method FutureArrival(state: ChannelState, d: Decoded, now: u64) returns (again: bool)
      requires cfg.entries > 0 && state.Represents(cfg) && state.expected < d.tick.sequence < SEQUENCE_LIMIT
      modifies this`nextDeadline, state, state.pending
      ensures state.Represents(cfg)
      ensures !again ==> CellOf(state) == ProcessActive(cfg, old(CellOf(state)), d, now, verdicts)
      ensures again ==>
        && Insertion(cfg, old(state.table), d).Collision?
        && CellOf(state) == MakeRoom(cfg, old(CellOf(state)), d.tick.sequence, now, verdicts)
    {
      again := false;
      var inserted := Insert(state, d);
      match inserted {
        case Duplicate => state.trace := Then(state.trace, DuplicateDropped(d));
        case Conflict => ClashWith(state, d, now);
        case Inserted => Settle(state, d.tick.sequence - state.expected, now);
        case Collision =>
          FreesRoom(state, d, now);
          again := true;
      }
    }

    /** The retry loop. Every retry has freed a slot or moved the frontier to the record. */
    method ActiveArrival(state: ChannelState, d: Decoded, now: u64)
      requires cfg.entries > 0 && state.Represents(cfg) && d.tick.sequence < SEQUENCE_LIMIT
      modifies this`nextDeadline, state, state.pending
      ensures state.Represents(cfg)
      ensures CellOf(state) == ProcessActive(cfg, old(CellOf(state)), d, now, verdicts)
    {
      ghost var result := ProcessActive(cfg, CellOf(state), d, now, verdicts);
      var again := true;
      while again
        invariant state.Represents(cfg)
        invariant again ==> ProcessActive(cfg, CellOf(state), d, now, verdicts) == result
        invariant !again ==> CellOf(state) == result
        decreases again, state.table.Keys, d.tick.sequence > state.expected
      {
        again := Attempt(state, d, now);
      }
    }

    method DiscoveryArrival(state: ChannelState, d: Decoded, now: u64)
      requires cfg.entries > 0 && state.Represents(cfg) && d.tick.sequence < SEQUENCE_LIMIT
      requires cfg.mode == Partial && state.discovering
      modifies this`nextDeadline, state, state.pending
      ensures state.Represents(cfg)
      ensures CellOf(state) == Discover(cfg, old(CellOf(state)), d, now, verdicts)
    {
      var inserted := Insert(state, d);
      match inserted {
        case Duplicate =>
          state.trace := Then(state.trace, DuplicateDropped(d));
        case Conflict =>
          DivertLate(state, d, PendingCanonicalConflict);
        case Collision =>
          FinishDiscoveryOf(state, now);
          ActiveArrival(state, d, now);
        case Inserted =>
          HoldOn(state, now);
      }
    }

    /** Starts the initial hold with the first record, and ends it when it is over. */
    method HoldOn(state: ChannelState, now: u64)
      requires cfg.entries > 0 && state.Represents(cfg)
      modifies this`nextDeadline, state, state.pending
      ensures state.Represents(cfg)
      ensures CellOf(state) ==
        var held := StartHold(cfg, old(CellOf(state)), now);
        if cfg.initialHold == 0 || Reached(now, held.chan.firstSeen, cfg.initialHold)
        then FinishDiscovery(cfg, held, now, verdicts) else held
    {
      if state.firstSeen == 0 {
        state.firstSeen := now;
        if cfg.initialHold != 0 {
          ScheduleDeadline(now, cfg.initialHold);
        }
      }
      if cfg.initialHold == 0 || Reached(now, state.firstSeen, cfg.initialHold) {
        FinishDiscoveryOf(state, now);
      }
    }

    method ArrivalAt(state: ChannelState, d: Decoded, now: u64)
      requires cfg.entries > 0 && state.Represents(cfg) && d.tick.sequence < SEQUENCE_LIMIT
      modifies this`nextDeadline, state, state.pending
      ensures state.Represents(cfg)
      ensures CellOf(state) == ProcessChannel(cfg, old(CellOf(state)), d, now, verdicts)
    {
      if state.frozen {
        state.trace := Then(state.trace, FrozenDropped(d));
      } else if cfg.mode == Partial && state.discovering {
        DiscoveryArrival(state, d, now);
      } else {
        ActiveArrival(state, d, now);
      }
    }

    // ---- timers and shutdown ---------------------------------------------------------

    method PollOne(state: ChannelState, now: u64)
      requires cfg.entries > 0 && state.Represents(cfg)
      modifies this`nextDeadline, state, state.pending
      ensures state.Represents(cfg)
      ensures CellOf(state) == PollChannel(cfg, old(CellOf(state)), now, verdicts)
    {
      CountZero(state);
      if state.frozen || state.pendingCount == 0 {
        return;
      }
      if state.discovering {
        if Reached(now, state.firstSeen, cfg.initialHold) {
          FinishDiscoveryOf(state, now);
        } else {
          ScheduleDeadline(state.firstSeen, cfg.initialHold);
        }
        return;
      }
      if state.gapOpen != 0 && Reached(now, state.gapOpen, cfg.gapWait) {
        ForceToMinimum(state, now);
      } else if state.gapOpen != 0 {
        ScheduleDeadline(state.gapOpen, cfg.gapWait);
      }
    }

    method FlushOne(state: ChannelState, now: u64)
      requires cfg.entries > 0 && state.Represents(cfg)
      modifies this`nextDeadline, state, state.pending
      ensures state.Represents(cfg)
      ensures CellOf(state) == FlushChannel(cfg, old(CellOf(state)), now, verdicts)
    {
      if state.frozen {
        return;
      }
      if state.discovering {
        FinishDiscoveryOf(state, now);
      }
      ghost var result := ForceAll(cfg, CellOf(state), now, verdicts);
      CountZero(state);
      while state.pendingCount > 0
        invariant state.Represents(cfg)
        invariant ForceAll(cfg, CellOf(state), now, verdicts) == result
        invariant state.pendingCount == 0 <==> state.table == map[]
        decreases state.table.Keys
      {
        ForceToMinimum(state, now);
        CountZero(state);
      }
    }

    // ---- the lane --------------------------------------------------------------------

    method FileEntry(slot: nat, ghost home: nat, ghost steps: nat)
      requires home < channelTable.Length && steps < channelTable.Length
      requires slot == Walk(home, steps, channelTable.Length) && |homes| == |channels|
      modifies this`homes, this`dist, channelTable
      ensures IndexModel() == Registered(old(IndexModel()), home, steps)
    {
      channelTable[slot] := |channels| + 1;
      homes, dist := homes + [home], dist + [steps];
    }

    /** The new channel's state, at the end of the vector. */
    method AddState(market: Market, channel: nat)
      requires cfg.entries > 0 && AllStand(cfg, channels, lane.chans)
      modifies this`channels, this`lane
      ensures AllStand(cfg, channels, lane.chans)
      ensures lane == old(lane).(
        chans := old(lane).chans + [NewChannel(cfg, Identity(market, channel, |old(lane).chans|))])
      ensures |channels| == |old(channels)| + 1 && channels[..|channels| - 1] == old(channels)
      ensures fresh(channels[|channels| - 1]) && fresh(channels[|channels| - 1].pending)
    {
      var state := new ChannelState(cfg, Identity(market, channel, |channels|));
      OneMoreStands(cfg, channels, lane.chans, state, state.Model());
      channels := channels + [state];
      lane := lane.(chans := lane.chans + [state.Model()]);
    }

    method Create(market: Market, channel: nat, slot: nat, ghost steps: nat)
      requires Valid() && |channels| < cfg.maximumChannels && steps < channelTable.Length
      requires var home := Home(hash, Name(market, channel), channelTable.Length);
        && slot == Walk(home, steps, channelTable.Length) && channelTable[slot] == 0
        && Passed(IndexModel(), NamesOf(lane.chans), home, Name(market, channel), steps)
      requires IndexOf(lane.chans, market, channel) == |lane.chans|
      modifies this`channels, this`lane, this`homes, this`dist, channelTable
      ensures Valid()
      ensures lane == old(lane).(chans := WithChannel(cfg, old(lane), market, channel))
      ensures |channels| == |old(channels)| + 1 && channels[..|channels| - 1] == old(channels)
      ensures fresh(channels[|channels| - 1]) && fresh(channels[|channels| - 1].pending)
    {
      ghost var home := Home(hash, Name(market, channel), channelTable.Length);
      RegisterChannel(cfg, hash, IndexModel(), lane, market, channel, steps);
      FileEntry(slot, home, steps);
      AddState(market, channel);
    }

    /** Walks from the name's home to its entry, or to the free slot that proves it new. */
    method Probe(market: Market, channel: nat) returns (taken: bool, slot: nat, ghost steps: nat)
      requires Valid()
      ensures slot < channelTable.Length
      ensures taken ==>
        0 < channelTable[slot] && IndexOf(lane.chans, market, channel) == channelTable[slot] - 1 < |channels|
      ensures !taken ==> IndexOf(lane.chans, market, channel) == |lane.chans| && steps < channelTable.Length
      ensures !taken ==> var home := Home(hash, Name(market, channel), channelTable.Length);
        && slot == Walk(home, steps, channelTable.Length) && channelTable[slot] == 0
        && Passed(IndexModel(), NamesOf(lane.chans), home, Name(market, channel), steps)
    {
      var name := Name(market, channel);
      ghost var x, names, home := IndexModel(), NamesOf(lane.chans), Home(hash, name, channelTable.Length);
      slot := hash(name) % channelTable.Length;
      var probe := 0;
      while probe < channelTable.Length
        invariant 0 <= probe <= channelTable.Length && slot < channelTable.Length
        invariant Passed(x, names, home, name, probe)
        invariant probe < channelTable.Length ==> slot == Walk(home, probe, channelTable.Length)
      {
        var indexPlusOne := channelTable[slot];
        assert x.slots[slot] == indexPlusOne;
        if indexPlusOne == 0 {
          FreeMeansAbsent(x, hash, names, name, probe);
          AbsentIndex(lane.chans, market, channel);
          return false, slot, probe;
        }
        TakenMeansEntry(x, hash, names, slot);
        var state := channels[indexPlusOne - 1];
        assert StandsAt(cfg, channels, lane.chans, indexPlusOne - 1);
        if state.id.market == market && state.id.channel == channel {
          PresentIndex(cfg, hash, x, lane.chans, indexPlusOne - 1);
          return true, slot, probe;
        }
        assert Elsewhere(x, names, home, name, probe);
        slot := Next(slot, channelTable.Length);
        probe := probe + 1;
      }
      ProbeEnds(x, hash, names, name);
      assert false;
    }

    /** The channel's index, or none when it is new and there is no room for another. */
    method FindOrCreate(market: Market, channel: nat) returns (found: bool, index: nat)
      requires Valid()
      modifies this`channels, this`lane, this`homes, this`dist, channelTable
      ensures Valid()
      ensures found == !Refused(cfg, old(lane), market, channel)
      ensures lane == if found then old(lane).(chans := WithChannel(cfg, old(lane), market, channel)) else old(lane)
      ensures found ==> index == IndexOf(old(lane).chans, market, channel) < |channels|
      ensures forall c :: c in channels ==> c in old(channels) || (fresh(c) && fresh(c.pending))
    {
      var taken, slot, steps := Probe(market, channel);
      if taken {
        return true, channelTable[slot] - 1;
      }
      if |channels| >= cfg.maximumChannels {
        return false, 0;
      }
      index := |channels|;
      Create(market, channel, slot, steps);
      return true, index;
    }

    method ArriveAt(i: nat, d: Decoded, now: u64)
      requires Valid() && i < |channels| && d.tick.sequence < SEQUENCE_LIMIT
      modifies this`nextDeadline, this`lane, channels[i], channels[i].pending
      ensures Valid()
      ensures lane == Arrived(cfg, old(lane), i, d, now, verdicts)
    {
      assert StandsAt(cfg, channels, lane.chans, i);
      ArrivalAt(channels[i], d, now);
      lane := lane.(chans := lane.chans[i := channels[i].Model()], deadline := nextDeadline);
      Continues(cfg, hash, IndexModel(), old(lane.chans), i, channels[i].Model());
      forall j | 0 <= j < |channels| ensures StandsAt(cfg, channels, lane.chans, j) {
        if j != i { assert old(StandsAt(cfg, channels, lane.chans, j)) && Separate(channels, i, j); }
      }
    }

    method PollAt(i: nat, now: u64)
      requires Valid() && i < |channels|
      modifies this`nextDeadline, this`lane, channels[i], channels[i].pending
      ensures Valid()
      ensures lane == Polled(cfg, old(lane), i, now, verdicts)
    {
      assert StandsAt(cfg, channels, lane.chans, i);
      PollOne(channels[i], now);
      lane := lane.(chans := lane.chans[i := channels[i].Model()], deadline := nextDeadline);
      Continues(cfg, hash, IndexModel(), old(lane.chans), i, channels[i].Model());
      forall j | 0 <= j < |channels| ensures StandsAt(cfg, channels, lane.chans, j) {
        if j != i { assert old(StandsAt(cfg, channels, lane.chans, j)) && Separate(channels, i, j); }
      }
    }

    method FlushAt(i: nat, now: u64)
      requires Valid() && i < |channels|
      modifies this`nextDeadline, this`lane, channels[i], channels[i].pending
      ensures Valid()
      ensures lane == Flushed(cfg, old(lane), i, now, verdicts)
    {
      assert StandsAt(cfg, channels, lane.chans, i);
      FlushOne(channels[i], now);
      lane := lane.(chans := lane.chans[i := channels[i].Model()], deadline := nextDeadline);
      Continues(cfg, hash, IndexModel(), old(lane.chans), i, channels[i].Model());
      forall j | 0 <= j < |channels| ensures StandsAt(cfg, channels, lane.chans, j) {
        if j != i { assert old(StandsAt(cfg, channels, lane.chans, j)) && Separate(channels, i, j); }
      }
    }

    method FreezeAt(i: nat, reason: FaultReason, observed: u64, now: u64)
      requires Valid() && i < |channels|
      modifies this`lane, channels[i]
      ensures Valid()
      ensures lane == old(lane).(chans := old(lane.chans)[i := Freeze(old(lane.chans[i]), reason, observed, now,
      verdicts)])
    {
      assert StandsAt(cfg, channels, lane.chans, i);
      FreezeFromOpen(channels[i], reason, observed, now);
      lane := lane.(chans := lane.chans[i := channels[i].Model()]);
      Continues(cfg, hash, IndexModel(), old(lane.chans), i, channels[i].Model());
      forall j | 0 <= j < |channels| ensures StandsAt(cfg, channels, lane.chans, j) {
        if j != i { assert old(StandsAt(cfg, channels, lane.chans, j)) && Separate(channels, i, j); }
      }
    }

    // ---- the four calls a worker makes --------------------------------------------------

    method Process(d: Decoded, now: u64)
      requires Valid() && d.tick.sequence < SEQUENCE_LIMIT
      modifies this, channelTable, channels, set c | c in channels :: c.pending
      ensures Valid()
      ensures lane == Step(cfg, old(lane), Arrival(d, now), verdicts)
    {
      var found, i := FindOrCreate(d.tick.market, d.tick.channel);
      if !found {
        exhausted, lane := true, lane.(exhausted := true);
        return;
      }
      assert channels[i] in channels;
      ArriveAt(i, d, now);
    }

    method FreezeDecodeFailure(market: Market, channel: nat, observed: u64, now: u64)
      requires Valid()
      modifies this, channelTable, channels
      ensures Valid()
      ensures lane == Step(cfg, old(lane), BadBody(market, channel, observed, now), verdicts)
    {
      if cfg.mode != FromOpen {
        return;
      }
      var found, i := FindOrCreate(market, channel);
      if !found {
        exhausted, lane := true, lane.(exhausted := true);
        return;
      }
      assert channels[i] in channels;
      FreezeAt(i, DecodeFailure, observed, now);
    }

    method ScanAll(now: u64)
      requires Valid()
      modifies this`nextDeadline, this`lane, channels, set c | c in channels :: c.pending
      ensures Valid()
      ensures lane == Scan(cfg, old(lane), |old(lane).chans|, now, verdicts)
    {
      ghost var start := lane;
      var index := 0;
      while index < |channels|
        invariant 0 <= index <= |channels| == |start.chans| && Valid()
        invariant lane == Scan(cfg, start, index, now, verdicts)
      {
        PollAt(index, now);
        ScanNext(cfg, start, index, now, verdicts);
        index := index + 1;
      }
    }

    method Poll(now: u64)
      requires Valid()
      modifies this`nextDeadline, this`lane, channels, set c | c in channels :: c.pending
      ensures Valid()
      ensures lane == Step(cfg, old(lane), Timer(now), verdicts)
    {
      if nextDeadline == 0 || now < nextDeadline {
        return;
      }
      nextDeadline, lane := 0, lane.(deadline := 0);
      ScanAll(now);
    }

    method FlushAll(now: u64)
      requires Valid()
      modifies this`nextDeadline, this`lane, channels, set c | c in channels :: c.pending
      ensures Valid()
      ensures lane == LaneSpec.Flush(cfg, old(lane), |old(lane).chans|, now, verdicts)
    {
      ghost var start := lane;
      var index := 0;
      while index < |channels|
        invariant 0 <= index <= |channels| == |start.chans| && Valid()
        invariant lane == LaneSpec.Flush(cfg, start, index, now, verdicts)
      {
        FlushAt(index, now);
        FlushNext(cfg, start, index, now, verdicts);
        index := index + 1;
      }
    }

    method Flush(now: u64)
      requires Valid()
      modifies this`nextDeadline, this`lane, channels, set c | c in channels :: c.pending
      ensures Valid()
      ensures lane == Step(cfg, old(lane), Shutdown(now), verdicts)
    {
      FlushAll(now);
    }
  }
}
