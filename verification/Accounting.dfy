/** Every record handed to a channel is in exactly one place. */
module Accounting {
  import opened Canonical
  import opened ChannelSpec
  import opened Ledger

  predicate DisposesOf(e: Event, x: Decoded) {
    match e
    case Emitted(body, _, _) => body == x
    case Diverted(body, _, _) => body == x
    case DuplicateDropped(body) => body == x
    case ConflictDropped(body) => body == x
    case FrozenDropped(body) => body == x
    case _ => false
  }

  /** How often the trace disposed of the record `x`. */
  function Disposals(trace: Trace, x: Decoded): nat {
    if trace.Begin? then 0
    else Disposals(trace.earlier, x) + if DisposesOf(trace.last, x) then 1 else 0
  }

  function Held(pending: Table, x: Decoded): nat {
    if x.tick.sequence in pending && pending[x.tick.sequence] == x then 1 else 0
  }

  /** How often the channel accounts for the record `x`: disposed of, or still retained. */
  function Accounted(c: Channel, x: Decoded): nat {
    Disposals(c.books.trace, x) + Held(c.pending, x)
  }

  function One(d: Decoded, x: Decoded): nat {
    if d == x then 1 else 0
  }

  ghost predicate Keyed(pending: Table) {
    forall s :: s in pending ==> pending[s].tick.sequence == s
  }

  lemma {:induction false} DrainAccounts(id: Identity, b: Books, pending: Table, v: Verdicts, x: Decoded)
    requires Keyed(pending)
    ensures var r := Drain(id, b, pending, v);
      Disposals(r.books.trace, x) + Held(r.pending, x) == Disposals(b.trace, x) + Held(pending, x)
    decreases pending.Keys
  {
    if b.expected in pending {
      RemovalShrinks(pending, b.expected);
      var d := pending[b.expected];
      var (e, ok) := EmitOne(id, b, d, v);
      if ok {
        DrainAccounts(id, e.(expected := b.expected + 1), pending - {b.expected}, v, x);
      }
    }
  }

  lemma DrainContiguousAccounts(cfg: Config, cell: Cell, now: nat, v: Verdicts, x: Decoded)
    requires Keyed(cell.chan.pending)
    ensures Accounted(DrainContiguous(cfg, cell, now, v).chan, x) == Accounted(cell.chan, x)
  {
    DrainAccounts(cell.chan.id, cell.chan.books, cell.chan.pending, v, x);
  }

  lemma FinishDiscoveryAccounts(cfg: Config, cell: Cell, now: nat, v: Verdicts, x: Decoded)
    requires Keyed(cell.chan.pending)
    ensures Accounted(FinishDiscovery(cfg, cell, now, v).chan, x) == Accounted(cell.chan, x)
  {
    var c := cell.chan;
    if c.discovering && c.pending != map[] {
      var m := MinimumPending(c.pending);
      var started := Log(c.books, OriginFixed(m)).(expected := m);
      DrainContiguousAccounts(cfg, cell.(chan := c.(discovering := false, books := started)), now, v, x);
    }
  }

  lemma ForceAccounts(cfg: Config, cell: Cell, now: nat, v: Verdicts, x: Decoded)
    requires Keyed(cell.chan.pending)
    ensures Accounted(ForceGapToMinimum(cfg, cell, now, v).chan, x) == Accounted(cell.chan, x)
  {
    var c := cell.chan;
    if c.pending != map[] {
      var m := MinimumPending(c.pending);
      if m > c.books.expected {
        var moved := SkipTo(c.id, c.books, m, now);
        DrainContiguousAccounts(cfg, cell.(chan := c.(books := moved)), now, v, x);
      } else {
        DrainContiguousAccounts(cfg, cell.(chan := c.(books := c.books.(expected := m))), now, v, x);
      }
    }
  }

  lemma RetainAccounts(cfg: Config, cell: Cell, d: Decoded, now: nat, v: Verdicts, x: Decoded)
    requires Keyed(cell.chan.pending) && d.tick.sequence !in cell.chan.pending
    requires cell.chan.books.expected <= d.tick.sequence
    ensures Accounted(Retain(cfg, cell, d, now, v).chan, x) == Accounted(cell.chan, x) + One(d, x)
  {
    var c := cell.chan.(pending := cell.chan.pending[d.tick.sequence := d]);
    if d.tick.sequence - c.books.expected > cfg.maximumSpan || c.gapOpen != 0 {
      ForceAccounts(cfg, cell.(chan := c), now, v, x);
    } else {
      ForceAccounts(cfg, Cell(c.(gapOpen := now), Schedule(cell.deadline, now, cfg.gapWait)), now, v, x);
    }
  }

  lemma PassThroughAccounts(cfg: Config, cell: Cell, d: Decoded, now: nat, v: Verdicts, x: Decoded)
    requires Keyed(cell.chan.pending)
    ensures Accounted(PassThrough(cfg, cell, d, now, v).chan, x) == Accounted(cell.chan, x) + One(d, x)
  {
    var c := cell.chan;
    var (e, ok) := EmitOne(c.id, c.books, d, v);
    if ok {
      DrainContiguousAccounts(cfg, cell.(chan := c.(books := e.(expected := d.tick.sequence + 1))), now, v, x);
    }
  }

  lemma ClashAccounts(cfg: Config, c: Channel, d: Decoded, now: nat, v: Verdicts, x: Decoded)
    ensures Accounted(Clash(cfg, c, d, now, v), x) == Accounted(c, x) + One(d, x)
  {
    if cfg.mode == FromOpen {
      var b := Log(c.books, ConflictDropped(d));
      FreezeAccounts(c.(books := b), CanonicalConflict, d.tick.sequence, now, v, x);
    } else {
      DivertAccounts(c, d, PendingCanonicalConflict, v, x);
    }
  }

  lemma FreezeAccounts(c: Channel, reason: FaultReason, observed: nat, now: nat, v: Verdicts, x: Decoded)
    ensures Accounted(Freeze(c, reason, observed, now, v), x) == Accounted(c, x)
  {
    if !c.frozen {
    }
  }

  lemma DivertAccounts(c: Channel, d: Decoded, reason: LateReason, v: Verdicts, x: Decoded)
    ensures Accounted(c.(books := Divert(c.id, c.books, d, reason, v)), x) == Accounted(c, x) + One(d, x)
  {
  }

  lemma MakeRoomAccounts(cfg: Config, cell: Cell, sequence: nat, now: nat, v: Verdicts, x: Decoded)
    requires Keyed(cell.chan.pending) && cell.chan.books.expected < sequence
    ensures Accounted(MakeRoom(cfg, cell, sequence, now, v).chan, x) == Accounted(cell.chan, x)
  {
    var c := cell.chan;
    if c.pending == map[] || sequence < MinimumPending(c.pending) {
    } else {
      ForceAccounts(cfg, cell, now, v, x);
    }
  }

  lemma {:induction false} ProcessActiveAccounts(cfg: Config, cell: Cell, d: Decoded, now: nat, v: Verdicts, x: Decoded)
    requires cfg.entries > 0 && Settled(cfg, cell.chan) && Belongs(cell.chan.id, d)
    ensures Accounted(ProcessActive(cfg, cell, d, now, v).chan, x) == Accounted(cell.chan, x) + One(d, x)
    decreases cell.chan.pending.Keys, d.tick.sequence > cell.chan.books.expected
  {
    var c := cell.chan;
    var s := d.tick.sequence;
    assert Keyed(c.pending);
    if s < c.books.expected {
      DivertAccounts(c, d, BehindCommittedFrontier, v, x);
    } else if s == c.books.expected {
      PassThroughAccounts(cfg, cell, d, now, v, x);
    } else {
      match Insertion(cfg, c.pending, d)
      case Duplicate =>
      case Conflict => ClashAccounts(cfg, c, d, now, v, x);
      case Collision =>
        MakeRoomKeeps(cfg, cell, d, now, v);
        MakeRoomAccounts(cfg, cell, s, now, v, x);
        ProcessActiveAccounts(cfg, MakeRoom(cfg, cell, s, now, v), d, now, v, x);
      case Inserted => RetainAccounts(cfg, cell, d, now, v, x);
    }
  }

  lemma DiscoverAccounts(cfg: Config, cell: Cell, d: Decoded, now: nat, v: Verdicts, x: Decoded)
    requires cfg.entries > 0 && Receptive(cfg, cell.chan) && Belongs(cell.chan.id, d)
    requires cfg.mode == Partial && cell.chan.discovering
    ensures Accounted(Discover(cfg, cell, d, now, v).chan, x) == Accounted(cell.chan, x) + One(d, x)
  {
    var c := cell.chan;
    assert Keyed(c.pending);
    match Insertion(cfg, c.pending, d)
    case Duplicate =>
    case Conflict => DivertAccounts(c, d, PendingCanonicalConflict, v, x);
    case Collision =>
      FinishDiscoveryKeeps(cfg, cell, now, v);
      FinishDiscoveryAccounts(cfg, cell, now, v, x);
      ProcessActiveAccounts(cfg, FinishDiscovery(cfg, cell, now, v), d, now, v, x);
    case Inserted =>
      var held := StartHold(cfg, cell.(chan := c.(pending := c.pending[d.tick.sequence := d])), now);
      FinishDiscoveryAccounts(cfg, held, now, v, x);
  }

  /** An arrival adds exactly itself, whatever the sinks answer. */
  lemma ProcessAccounts(cfg: Config, cell: Cell, d: Decoded, now: nat, v: Verdicts, x: Decoded)
    requires cfg.entries > 0 && Receptive(cfg, cell.chan) && Belongs(cell.chan.id, d)
    ensures Accounted(ProcessChannel(cfg, cell, d, now, v).chan, x) == Accounted(cell.chan, x) + One(d, x)
  {
    var c := cell.chan;
    if c.frozen {
    } else if cfg.mode == Partial && c.discovering {
      DiscoverAccounts(cfg, cell, d, now, v, x);
    } else {
      ProcessActiveAccounts(cfg, cell, d, now, v, x);
    }
  }

  lemma PollAccounts(cfg: Config, cell: Cell, now: nat, v: Verdicts, x: Decoded)
    requires Keyed(cell.chan.pending)
    ensures Accounted(PollChannel(cfg, cell, now, v).chan, x) == Accounted(cell.chan, x)
  {
    FinishDiscoveryAccounts(cfg, cell, now, v, x);
    ForceAccounts(cfg, cell, now, v, x);
  }

  lemma {:induction false} ForceAllAccounts(cfg: Config, cell: Cell, now: nat, v: Verdicts, x: Decoded)
    requires cfg.entries > 0 && Settled(cfg, cell.chan)
    ensures Accounted(ForceAll(cfg, cell, now, v).chan, x) == Accounted(cell.chan, x)
    decreases cell.chan.pending.Keys
  {
    if cell.chan.pending != map[] {
      ForceAccounts(cfg, cell, now, v, x);
      ForceKeeps(cfg, cell, now, v);
      ForceAllAccounts(cfg, ForceGapToMinimum(cfg, cell, now, v), now, v, x);
    }
  }

  lemma FlushAccounts(cfg: Config, cell: Cell, now: nat, v: Verdicts, x: Decoded)
    requires cfg.entries > 0 && Good(cfg, cell.chan)
    ensures Accounted(FlushChannel(cfg, cell, now, v).chan, x) == Accounted(cell.chan, x)
  {
    if cell.chan.discovering {
      FinishDiscoveryAccounts(cfg, cell, now, v, x);
      FinishDiscoveryKeeps(cfg, cell, now, v);
      ForceAllAccounts(cfg, FinishDiscovery(cfg, cell, now, v), now, v, x);
    } else if !cell.chan.frozen {
      ForceAllAccounts(cfg, cell, now, v, x);
    }
  }
}
