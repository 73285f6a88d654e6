/** Bounded reordering heals completely: a FROM_OPEN channel whose arrivals stay within
    the reorder span of the least sequence not yet received records no gap and consumes
    every sequence, in order, as soon as all before it have arrived. */
module Healing {
  import opened Canonical
  import opened Remainders
  import opened ChannelSpec
  import opened Ledger
  import opened LaneSpec
  import opened TraceTheorems
  import opened Timers
  import opened OneChannel
  import opened Conservation

  function Received(ds: seq<Decoded>): set<nat> {
    if ds == [] then {} else Received(ds[..|ds| - 1]) + {ds[|ds| - 1].tick.sequence as nat}
  }

  /** The least number from n on that is not in s. */
  function LeastMissing(s: set<nat>, n: nat): (m: nat)
    ensures n <= m && m !in s && forall k :: n <= k < m ==> k in s
    decreases s
  {
    if n !in s then n else LeastMissing(s - {n}, n + 1)
  }

  lemma LeastMissingIs(s: set<nat>, m: nat)
    requires m > 0 && m !in s && forall k :: 0 < k < m ==> k in s
    ensures LeastMissing(s, 1) == m
  {
    var l := LeastMissing(s, 1);
    assert !(l < m) && !(m < l);
  }

  /** Each arrival is within the span of the least sequence missing when it comes. */
  predicate WithinSpan(cfg: Config, ds: seq<Decoded>) {
    forall i :: 0 <= i < |ds| ==> InSpan(cfg, ds, i)
  }

  predicate InSpan(cfg: Config, ds: seq<Decoded>, i: nat)
    requires i < |ds|
  {
    ds[i].tick.sequence <= LeastMissing(Received(ds[..i]), 1) + cfg.maximumSpan
  }

  predicate Agree(d: Decoded, e: Decoded) {
    d.tick.sequence == e.tick.sequence ==> PayloadEqual(d.tick, e.tick) && d.catalogMatch == e.catalogMatch
  }

  /** No two arrivals claim the same sequence with different contents. */
  predicate Consistent(ds: seq<Decoded>) {
    forall d, e :: d in ds && e in ds ==> Agree(d, e)
  }

  /** Whatever else the lane is given leaves this channel alone: a timer scan comes before its
      wait is over, a body that does not decode is another channel's, and a flush finds
      nothing retained. Other channels may do as they like. */
  predicate Undisturbed(cfg: Config, c: Channel, input: Input) {
    match input
    case Arrival(_, _) => true
    case BadBody(market, channel, _, _) => !Names(c.id, market, channel)
    case Timer(now) => !Ripe(cfg, c, now)
    case Shutdown(_) => c.pending == map[]
  }

  ghost predicate UndisturbedAt(cfg: Config, inputs: seq<Input>, v: Verdicts, market: Market, channel: nat, k: nat)
    requires cfg.entries > 0 && k < |inputs|
  {
    Undisturbed(cfg, Found(cfg, Run(cfg, inputs[..k], v), market, channel), inputs[k])
  }

  ghost predicate Quiet(cfg: Config, inputs: seq<Input>, v: Verdicts, market: Market, channel: nat)
    requires cfg.entries > 0
  {
    forall k :: 0 <= k < |inputs| ==> UndisturbedAt(cfg, inputs, v, market, channel, k)
  }

  /** Everything received before the frontier has left; the rest waits within the span. */
  ghost predicate Waiting(cfg: Config, frontier: nat, pending: Table, got: set<nat>, ds: seq<Decoded>) {
    && frontier == LeastMissing(got, 1)
    && (forall s :: s in pending <==> s in got && s > frontier)
    && (forall s :: s in pending ==> s <= frontier + cfg.maximumSpan && pending[s] in ds)
  }

  /** The healthy state after receiving `got`. */
  ghost predicate Whole(cfg: Config, c: Channel, got: set<nat>, ds: seq<Decoded>)
    requires cfg.entries > 0
  {
    && Settled(cfg, c) && !c.frozen
    && GapCount(c.books.trace) == 0
    && Waiting(cfg, c.books.expected, c.pending, got, ds)
  }

  lemma {:induction false} DrainExact(id: Identity, b: Books, pending: Table, v: Verdicts)
    requires NotBehind(b.expected, pending) && NoneRefused(Drain(id, b, pending, v).books.trace)
    ensures var r := Drain(id, b, pending, v);
      && b.expected <= r.books.expected && r.books.expected !in pending
      && (forall k :: b.expected <= k < r.books.expected ==> k in pending)
      && (forall s :: s in r.pending <==> s in pending && s > r.books.expected)
      && (forall s :: s in r.pending ==> r.pending[s] == pending[s])
    decreases pending.Keys
  {
    if b.expected in pending {
      RemovalShrinks(pending, b.expected);
      var rest := pending - {b.expected};
      var e := EmitOne(id, b, pending[b.expected], v).0;
      DrainExact(id, e.(expected := b.expected + 1), rest, v);
    }
  }

  lemma {:induction false} DrainSkipsNothing(id: Identity, b: Books, pending: Table, v: Verdicts)
    ensures GapCount(Drain(id, b, pending, v).books.trace) == GapCount(b.trace)
    decreases pending.Keys
  {
    if b.expected in pending {
      RemovalShrinks(pending, b.expected);
      var (e, ok) := EmitOne(id, b, pending[b.expected], v);
      if ok {
        DrainSkipsNothing(id, e.(expected := b.expected + 1), pending - {b.expected}, v);
      }
    }
  }

  lemma NoCollision(cfg: Config, c: Channel, got: set<nat>, ds: seq<Decoded>, s: nat)
    requires ValidConfig(cfg) && Whole(cfg, c, got, ds)
    requires c.books.expected < s <= c.books.expected + cfg.maximumSpan && s !in c.pending
    ensures !Collides(cfg, c.pending, s)
  {
    forall t | t in c.pending && t != s ensures Slot(cfg, t) != Slot(cfg, s) {
      SlotIsRemainder(cfg, s);
      SlotIsRemainder(cfg, t);
      if s < t { CloseDiffer(s, t, cfg.entries); } else { CloseDiffer(t, s, cfg.entries); }
    }
  }

  /** Draining past a record at the frontier leaves what lies beyond the new frontier. */
  lemma DrainWaiting(
    cfg: Config, id: Identity, b: Books, pending: Table, got: set<nat>, ds: seq<Decoded>, s: nat, v: Verdicts)
    requires Waiting(cfg, s, pending, got, ds) && b.expected == s + 1
    requires NoneRefused(Drain(id, b, pending, v).books.trace)
    ensures var r := Drain(id, b, pending, v); Waiting(cfg, r.books.expected, r.pending, got + {s}, ds)
  {
    DrainExact(id, b, pending, v);
    LeastMissingIs(got + {s}, Drain(id, b, pending, v).books.expected);
  }

  lemma PassThroughWaits(cfg: Config, cell: Cell, got: set<nat>, ds: seq<Decoded>, d: Decoded, now: nat, v: Verdicts)
    requires Waiting(cfg, cell.chan.books.expected, cell.chan.pending, got, ds)
    requires d.tick.sequence == cell.chan.books.expected
    requires NoneRefused(PassThrough(cfg, cell, d, now, v).chan.books.trace)
    ensures var r := PassThrough(cfg, cell, d, now, v).chan;
      && Waiting(cfg, r.books.expected, r.pending, got + {d.tick.sequence as nat}, ds)
      && GapCount(r.books.trace) == GapCount(cell.chan.books.trace) && r.frozen == cell.chan.frozen
  {
    var c := cell.chan;
    var e := EmitOne(c.id, c.books, d, v).0.(expected := d.tick.sequence + 1);
    DrainWaiting(cfg, c.id, e, c.pending, got, ds, d.tick.sequence, v);
    DrainSkipsNothing(c.id, e, c.pending, v);
  }

  lemma PassThroughWhole(cfg: Config, cell: Cell, got: set<nat>, ds: seq<Decoded>, d: Decoded, now: nat, v: Verdicts)
    requires ValidConfig(cfg) && Whole(cfg, cell.chan, got, ds) && Belongs(cell.chan.id, d)
    requires d.tick.sequence == cell.chan.books.expected
    requires NoneRefused(PassThrough(cfg, cell, d, now, v).chan.books.trace)
    ensures Whole(cfg, PassThrough(cfg, cell, d, now, v).chan, got + {d.tick.sequence as nat}, ds)
  {
    PassThroughKeeps(cfg, cell, d, now, v);
    PassThroughWaits(cfg, cell, got, ds, d, now, v);
  }

  lemma RetainWhole(cfg: Config, cell: Cell, got: set<nat>, ds: seq<Decoded>, d: Decoded, now: nat, v: Verdicts)
    requires ValidConfig(cfg) && cfg.gapWait > 0 && Whole(cfg, cell.chan, got, ds) && Belongs(cell.chan.id, d)
    requires d in ds
    requires cell.chan.books.expected < d.tick.sequence <= cell.chan.books.expected + cfg.maximumSpan
    requires d.tick.sequence !in cell.chan.pending
    ensures Insertion(cfg, cell.chan.pending, d).Inserted?
    ensures Whole(cfg, Retain(cfg, cell, d, now, v).chan, got + {d.tick.sequence as nat}, ds)
  {
    var c := cell.chan;
    NoCollision(cfg, c, got, ds, d.tick.sequence);
    InsertTabled(cfg, c.id, c.pending, d);
    LeastMissingIs(got + {d.tick.sequence as nat}, c.books.expected);
  }

  lemma SameSet(got: set<nat>, s: nat)
    requires s in got
    ensures got + {s} == got
  {
  }

  lemma StepWhole(cfg: Config, cell: Cell, got: set<nat>, ds: seq<Decoded>, d: Decoded, now: nat, v: Verdicts)
    requires ValidConfig(cfg) && cfg.mode == FromOpen && cfg.gapWait > 0
    requires NoneRefused(ProcessChannel(cfg, cell, d, now, v).chan.books.trace)
    requires Whole(cfg, cell.chan, got, ds) && Consistent(ds) && d in ds && Belongs(cell.chan.id, d)
    requires d.tick.sequence <= cell.chan.books.expected + cfg.maximumSpan
    ensures Whole(cfg, ProcessChannel(cfg, cell, d, now, v).chan, got + {d.tick.sequence as nat}, ds)
  {
    var c := cell.chan;
    var s := d.tick.sequence;
    if s == c.books.expected {
      PassThroughWhole(cfg, cell, got, ds, d, now, v);
    } else if s > c.books.expected && s !in c.pending {
      RetainWhole(cfg, cell, got, ds, d, now, v);
    } else {
      SameSet(got, s);
      if s < c.books.expected {
        ProcessActiveKeeps(cfg, cell, d, now, v);
      } else {
        assert Insertion(cfg, c.pending, d).Duplicate?;
        LogKeeps(cfg.mode, c.books, DuplicateDropped(d));
      }
    }
  }

  lemma QuietBefore(cfg: Config, inputs: seq<Input>, v: Verdicts, market: Market, channel: nat)
    requires cfg.entries > 0 && inputs != [] && Quiet(cfg, inputs, v, market, channel)
    ensures Quiet(cfg, inputs[..|inputs| - 1], v, market, channel)
    ensures Undisturbed(cfg, Found(cfg, Run(cfg, inputs[..|inputs| - 1], v), market, channel), inputs[|inputs| - 1])
  {
    var earlier := inputs[..|inputs| - 1];
    assert UndisturbedAt(cfg, inputs, v, market, channel, |inputs| - 1);
    forall k | 0 <= k < |earlier| ensures UndisturbedAt(cfg, earlier, v, market, channel, k) {
      assert UndisturbedAt(cfg, inputs, v, market, channel, k) && earlier[..k] == inputs[..k];
    }
  }

  /** The span condition without and for the last record, if one more was given. */
  lemma SpanBefore(cfg: Config, ds: seq<Decoded>, given: seq<Decoded>)
    requires WithinSpan(cfg, ds + given) && |given| <= 1
    ensures WithinSpan(cfg, ds)
    ensures given != [] ==> given[0].tick.sequence <= LeastMissing(Received(ds), 1) + cfg.maximumSpan
    ensures Received(ds + given) == Received(ds) + Sequences(given)
  {
    var all := ds + given;
    forall i | 0 <= i < |ds| ensures InSpan(cfg, ds, i) {
      assert InSpan(cfg, all, i) && all[..i] == ds[..i] && all[i] == ds[i];
    }
    assert given != [] ==> InSpan(cfg, all, |ds|);
    assert all[..|ds|] == ds;
    if given == [] { assert all == ds; }
  }

  function Sequences(given: seq<Decoded>): set<nat> {
    if given == [] then {} else {given[0].tick.sequence as nat}
  }

  /** One input of a quiet run; `all` has every record the channel is ever given. */
  lemma InputWhole(
    cfg: Config, c: Channel, got: set<nat>, all: seq<Decoded>, input: Input, given: seq<Decoded>, deadline: nat,
    v: Verdicts, r: Channel)
    requires ValidConfig(cfg) && cfg.mode == FromOpen && cfg.gapWait > 0 && ValidInput(input)
    requires NoneRefused(r.books.trace)
    requires Whole(cfg, c, got, all) && Consistent(all)
    requires Takes(cfg, c, input, deadline, v, r) && Undisturbed(cfg, c, input)
    requires given == Given(input, c.id.market, c.id.channel)
    requires given != [] ==> given[0] in all && given[0].tick.sequence <= c.books.expected + cfg.maximumSpan
    ensures Whole(cfg, r, got + Sequences(given), all)
  {
    if given == [] {
      assert got + {} == got;
    } else {
      StepWhole(cfg, Cell(c, deadline), got, all, input.body, input.now, v);
    }
  }

  lemma NewIsWhole(cfg: Config, id: Identity, all: seq<Decoded>)
    requires cfg.entries > 0 && cfg.mode == FromOpen
    ensures Whole(cfg, NewChannel(cfg, id), {}, all)
  {
    LeastMissingIs({}, 1);
  }

  /** What one more input of the run gives the channel; `all` is everything it is ever given. */
  lemma GivenLast(cfg: Config, inputs: seq<Input>, all: seq<Decoded>, market: Market, channel: nat)
    requires inputs != [] && WithinSpan(cfg, OnChannel(inputs, market, channel))
    requires OnChannel(inputs, market, channel) <= all
    ensures var ds := OnChannel(inputs[..|inputs| - 1], market, channel);
      var given := Given(inputs[|inputs| - 1], market, channel);
      && WithinSpan(cfg, ds) && ds <= all
      && Received(OnChannel(inputs, market, channel)) == Received(ds) + Sequences(given)
      && (given != [] ==> given[0] in all && given[0].tick.sequence <= LeastMissing(Received(ds), 1) + cfg.maximumSpan)
  {
    var ds, given := OnChannel(inputs[..|inputs| - 1], market, channel), Given(inputs[|inputs| - 1], market, channel);
    SpanBefore(cfg, ds, given);
    assert given != [] ==> all[|ds|] == given[0];
  }

  lemma {:induction false} NoneRefusedBefore(p: Trace, trace: Trace)
    requires Prefix(p, trace) && NoneRefused(trace)
    ensures NoneRefused(p)
  {
    if p != trace { NoneRefusedBefore(p, trace.earlier); }
  }

  lemma NoneRefusedGrowing(now: nat, c: Channel, r: Channel)
    requires Grows(now, c, r) && NoneRefused(r.books.trace)
    ensures NoneRefused(c.books.trace)
  {
    ContinuedPrefix(c.id, now, c.books.trace, r.books.trace);
    NoneRefusedBefore(c.books.trace, r.books.trace);
  }

  /** The lane has the channel, and none of its ticks was refused. */
  ghost predicate Served(cfg: Config, lane: Lane, market: Market, channel: nat) {
    Present(lane, market, channel) && NoneRefused(Found(cfg, lane, market, channel).books.trace)
  }

  lemma {:induction false} RunWhole(
    cfg: Config, inputs: seq<Input>, all: seq<Decoded>, v: Verdicts, market: Market, channel: nat)
    requires ValidConfig(cfg) && cfg.mode == FromOpen && cfg.gapWait > 0 && ValidInputs(inputs)
    requires Quiet(cfg, inputs, v, market, channel) && WithinSpan(cfg, OnChannel(inputs, market, channel))
    requires Consistent(all)
    requires OnChannel(inputs, market, channel) <= all
    requires Served(cfg, Run(cfg, inputs, v), market, channel)
    ensures Whole(cfg, Found(cfg, Run(cfg, inputs, v), market, channel),
                  Received(OnChannel(inputs, market, channel)), all)
  {
    var earlier, last := inputs[..|inputs| - 1], inputs[|inputs| - 1];
    var before := Run(cfg, earlier, v);
    var deadline := LastTakes(cfg, inputs, v, market, channel);
    QuietBefore(cfg, inputs, v, market, channel);
    GivenLast(cfg, inputs, all, market, channel);
    var c, got := Found(cfg, before, market, channel), Received(OnChannel(earlier, market, channel));
    TakesGrows(cfg, c, last, deadline, v, Found(cfg, Run(cfg, inputs, v), market, channel));
    NoneRefusedGrowing(last.now, c, Found(cfg, Run(cfg, inputs, v), market, channel));
    if Present(before, market, channel) {
      RunWhole(cfg, earlier, all, v, market, channel);
    } else {
      NewIsWhole(cfg, c.id, all);
    }
    InputWhole(cfg, c, got, all, last, Given(last, market, channel), deadline, v,
               Found(cfg, Run(cfg, inputs, v), market, channel));
  }

  /** The channel consumed exactly what lies below the least sequence missing, once and in
      order, without a gap, and retains the rest. */
  ghost predicate Healed(c: Channel, got: set<nat>, n: nat) {
    var least := LeastMissing(got, 1);
    && c.books.expected == least && c.books.historyComplete && !c.frozen
    && GapCount(c.books.trace) == 0
    && ConsumedTimes(c.books.trace, n) == (if 0 < n < least then 1 else 0)
    && Increasing(Delivered(c.books.trace), least)
    && (n in c.pending <==> n in got && n > least)
  }

  /** Within the span, with consistent contents and no timer expiry: no gap, no loss of
      history; the frontier is the least sequence not received; exactly the sequences
      below it were consumed, once each and in order; the rest is retained. Timers may be
      polled and other channels served in between. */
  lemma BoundedReorderingHeals(cfg: Config, inputs: seq<Input>, v: Verdicts, market: Market, channel: nat, n: nat)
    requires ValidConfig(cfg) && cfg.mode == FromOpen && cfg.gapWait > 0 && ValidInputs(inputs)
    requires Quiet(cfg, inputs, v, market, channel)
    requires var ds := OnChannel(inputs, market, channel); WithinSpan(cfg, ds) && Consistent(ds)
    ensures var lane := Run(cfg, inputs, v); var ds := OnChannel(inputs, market, channel);
      && (Served(cfg, lane, market, channel) ==> Healed(Found(cfg, lane, market, channel), Received(ds), n))
      && (ds != [] && !lane.exhausted ==> Present(lane, market, channel))
  {
    var lane, ds := Run(cfg, inputs, v), OnChannel(inputs, market, channel);
    if Served(cfg, lane, market, channel) {
      RunWhole(cfg, inputs, ds, v, market, channel);
      var b := Found(cfg, lane, market, channel).books;
      Partition(cfg.mode, b.trace, n);
      NoGapNoSkip(b.trace, n);
      FromOpenOrigin(b.trace);
      GapTotals(cfg.mode, b.trace);
      DeliveredInOrder(cfg.mode, b.trace);
    } else if !Present(lane, market, channel) {
      AbsentHeardNothing(cfg, inputs, v, market, channel);
    }
  }

  function Count(n: nat): (s: seq<nat>)
    ensures |s| == n && forall i :: 0 <= i < n ==> s[i] == i + 1
  {
    if n == 0 then [] else Count(n - 1) + [n]
  }

  ghost predicate EmitsOnly(trace: Trace, ds: seq<Decoded>) {
    forall x :: EmittedTimes(trace, x) > 0 ==> x in ds
  }

  predicate Matched(ds: seq<Decoded>) {
    forall d :: d in ds ==> d.catalogMatch
  }

  lemma EmitsOnlyBefore(trace: Trace, ds: seq<Decoded>)
    requires trace.Then? && EmitsOnly(trace, ds)
    ensures EmitsOnly(trace.earlier, ds) && (trace.last.Emitted? ==> trace.last.body in ds)
  {
    forall x | EmittedTimes(trace.earlier, x) > 0 ensures x in ds {
      assert EmittedTimes(trace, x) > 0;
    }
    if trace.last.Emitted? { assert EmittedTimes(trace, trace.last.body) > 0; }
  }

  /** Without gaps and catalog misses the owners get 1, 2, 3, ... */
  lemma {:induction false} DeliversCount(trace: Trace, ds: seq<Decoded>)
    requires Told(FromOpen, trace) && GapCount(trace) == 0 && EmitsOnly(trace, ds) && Matched(ds)
    ensures Replay(FromOpen, trace).frontier > 0 && Delivered(trace) == Count(Replay(FromOpen, trace).frontier - 1)
  {
    if trace.Then? {
      EmitsOnlyBefore(trace, ds);
      DeliversCount(trace.earlier, ds);
      assert Delivered(trace.earlier) + [] == Delivered(trace.earlier);
    }
  }

  lemma RunEmitsOnly(cfg: Config, inputs: seq<Input>, v: Verdicts, market: Market, channel: nat)
    requires cfg.entries > 0 && ValidInputs(inputs)
    requires Present(Run(cfg, inputs, v), market, channel)
    ensures var trace := Found(cfg, Run(cfg, inputs, v), market, channel).books.trace;
      EmitsOnly(trace, OnChannel(inputs, market, channel)) && Told(cfg.mode, trace)
  {
    RunKeeps(cfg, inputs, v);
    forall x | EmittedTimes(Found(cfg, Run(cfg, inputs, v), market, channel).books.trace, x) > 0
      ensures x in OnChannel(inputs, market, channel)
    {
      EmittedWasGiven(cfg, inputs, v, market, channel, x);
    }
  }

  /** The owners together have received exactly 1, 2, ..., last, in this order. */
  predicate OwnersGot(trace: Trace, last: nat) {
    Delivered(trace) == Count(last)
  }

  lemma WholeIsDelivered(cfg: Config, c: Channel, got: set<nat>, ds: seq<Decoded>)
    requires cfg.entries > 0 && cfg.mode == FromOpen && Whole(cfg, c, got, ds) && EmitsOnly(c.books.trace, ds)
    requires Matched(ds)
    ensures OwnersGot(c.books.trace, LeastMissing(got, 1) - 1)
  {
    DeliversCount(c.books.trace, ds);
  }

  /** ... so when every instrument is in the catalog, the owners together have received
      exactly the sequences before the least one missing, in order. */
  lemma OwnersGetAll(cfg: Config, inputs: seq<Input>, v: Verdicts, market: Market, channel: nat)
    requires ValidConfig(cfg) && cfg.mode == FromOpen && cfg.gapWait > 0 && ValidInputs(inputs)
    requires Quiet(cfg, inputs, v, market, channel)
    requires var ds := OnChannel(inputs, market, channel); WithinSpan(cfg, ds) && Consistent(ds) && Matched(ds)
    requires Served(cfg, Run(cfg, inputs, v), market, channel)
    ensures OwnersGot(Found(cfg, Run(cfg, inputs, v), market, channel).books.trace,
                      LeastMissing(Received(OnChannel(inputs, market, channel)), 1) - 1)
  {
    var ds := OnChannel(inputs, market, channel);
    RunWhole(cfg, inputs, ds, v, market, channel);
    RunEmitsOnly(cfg, inputs, v, market, channel);
    WholeIsDelivered(cfg, Found(cfg, Run(cfg, inputs, v), market, channel), Received(ds), ds);
  }
}
