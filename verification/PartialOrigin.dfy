/** Which sequence a PARTIAL channel starts from. The design says the smallest one observed
    during the initial hold; the code takes the smallest one retained. The two agree except
    in one case, which is exactly described here for every run. */
module PartialOrigin {
  import opened Canonical
  import opened ChannelSpec
  import opened Ledger
  import opened LaneSpec
  import opened TraceTheorems
  import opened ChannelIndex
  import opened OneChannel
  import opened Healing

  // ---- the origin, once fixed, stays -------------------------------------------------

  lemma {:induction false} FrontierHasOrigin(trace: Trace)
    requires Told(Partial, trace) && Replay(Partial, trace).frontier > 0
    ensures Origin(Partial, trace) > 0
  {
    if trace.Then? && !trace.last.OriginFixed? {
      FrontierHasOrigin(trace.earlier);
    }
  }

  lemma {:induction false} OriginStays(p: Trace, trace: Trace)
    requires Told(Partial, trace) && Prefix(p, trace) && Origin(Partial, p) > 0
    ensures Origin(Partial, trace) == Origin(Partial, p)
  {
    if p != trace {
      OriginStays(p, trace.earlier);
      Partition(Partial, trace.earlier, 0);
    }
  }

  lemma StaysAfter(now: nat, c: Channel, r: Channel)
    requires Grows(now, c, r) && Told(Partial, r.books.trace) && Origin(Partial, c.books.trace) > 0
    ensures Origin(Partial, r.books.trace) == Origin(Partial, c.books.trace)
  {
    ContinuedPrefix(c.id, now, c.books.trace, r.books.trace);
    OriginStays(c.books.trace, r.books.trace);
  }

  // ---- the input that ends the hold ----------------------------------------------------

  /** Nothing smaller than the origin was observed. */
  ghost predicate SmallestObserved(origin: nat, observed: set<nat>) {
    origin in observed && forall s :: s in observed ==> origin <= s
  }

  /** The table holds exactly the sequences observed. */
  ghost predicate RetainsAll(pending: Table, observed: set<nat>) {
    forall s :: s in pending <==> s in observed
  }

  /** The record shares its slot with a retained one and is below every retained one. */
  ghost predicate LowCollision(cfg: Config, c: Channel, input: Input)
    requires cfg.entries > 0
  {
    && input.Arrival? && NamedBy(c.id, input.body) && c.pending != map[]
    && Collides(cfg, c.pending, input.body.tick.sequence) && input.body.tick.sequence < MinimumPending(c.pending)
  }

  /** Ending the discovery fixes the smallest retained sequence as the origin. */
  lemma OriginIsLeastRetained(cfg: Config, cell: Cell, now: nat, v: Verdicts)
    requires cfg.entries > 0 && cfg.mode == Partial && Collecting(cfg, cell.chan)
    ensures var r := FinishDiscovery(cfg, cell, now, v).chan;
      && Settled(cfg, r) && r.id == cell.chan.id && Grows(now, cell.chan, r)
      && Origin(Partial, r.books.trace) == MinimumPending(cell.chan.pending) > 0
      && MinimumPending(cell.chan.pending) <= r.books.expected
  {
    var c := cell.chan;
    var m := MinimumPending(c.pending);
    FinishDiscoveryKeeps(cfg, cell, now, v);
    FinishGrows(cfg, cell, now, v);
    var started := Log(c.books, OriginFixed(m)).(expected := m);
    var drained := Drain(c.id, started, c.pending, v).books;
    DrainGrows(c.id, started, c.pending, v, now);
    DrainAdvances(c.id, started, c.pending, v);
    ContinuedPrefix(c.id, now, started.trace, drained.trace);
    OriginStays(started.trace, drained.trace);
  }

  lemma LeastIsSmallest(pending: Table, observed: set<nat>)
    requires RetainsAll(pending, observed) && pending != map[]
    ensures SmallestObserved(MinimumPending(pending), observed)
  {
    assert MinimumPending(pending) in pending;
    forall s | s in observed ensures MinimumPending(pending) <= s {
      assert s in pending;
    }
  }

  /** One input on a channel that is still collecting: the hold goes on with every sequence
      retained, or ends with the smallest of them as the origin. */
  ghost predicate HoldStep(r: Channel, observed: set<nat>) {
    if r.discovering then RetainsAll(r.pending, observed)
    else SmallestObserved(Origin(Partial, r.books.trace), observed)
  }

  /** The ordinary end: the timer scan finds the hold reached. */
  lemma TimerEndsHold(cfg: Config, cell: Cell, now: nat, v: Verdicts, observed: set<nat>)
    requires cfg.entries > 0 && cfg.mode == Partial && Collecting(cfg, cell.chan)
    requires RetainsAll(cell.chan.pending, observed)
    ensures HoldStep(PollChannel(cfg, cell, now, v).chan, observed)
    ensures PollChannel(cfg, cell, now, v).chan.discovering <==> !Reached(now, cell.chan.firstSeen, cfg.initialHold)
  {
    OriginIsLeastRetained(cfg, cell, now, v);
    LeastIsSmallest(cell.chan.pending, observed);
  }

  /** The final flush ends every hold. */
  lemma FlushEndsHold(cfg: Config, cell: Cell, now: nat, v: Verdicts, observed: set<nat>)
    requires cfg.entries > 0 && cfg.mode == Partial && Collecting(cfg, cell.chan)
    requires RetainsAll(cell.chan.pending, observed)
    ensures var r := FlushChannel(cfg, cell, now, v).chan; !r.discovering && HoldStep(r, observed)
  {
    var settled := FinishDiscovery(cfg, cell, now, v);
    OriginIsLeastRetained(cfg, cell, now, v);
    LeastIsSmallest(cell.chan.pending, observed);
    ForceAllKeeps(cfg, settled, now, v);
    ForceAllGrows(cfg, settled, now, v);
    StaysAfter(now, settled.chan, ForceAll(cfg, settled, now, v).chan);
  }

  /** A record that does not collide is among those the origin is chosen from. */
  lemma HoldEndsExact(cfg: Config, cell: Cell, d: Decoded, now: nat, v: Verdicts, observed: set<nat>)
    requires cfg.entries > 0 && cfg.mode == Partial && Receptive(cfg, cell.chan) && cell.chan.discovering
    requires Belongs(cell.chan.id, d) && RetainsAll(cell.chan.pending, observed)
    requires !Insertion(cfg, cell.chan.pending, d).Collision?
    ensures HoldStep(ProcessChannel(cfg, cell, d, now, v).chan, observed + {d.tick.sequence as nat})
  {
    var c := cell.chan;
    if Insertion(cfg, c.pending, d).Inserted? {
      var more := c.pending[d.tick.sequence := d];
      assert d.tick.sequence in more;
      assert RetainsAll(more, observed + {d.tick.sequence as nat});
      InsertTabled(cfg, c.id, c.pending, d);
      OriginIsLeastRetained(cfg, StartHold(cfg, cell.(chan := c.(pending := more)), now), now, v);
      LeastIsSmallest(more, observed + {d.tick.sequence as nat});
    } else {
      assert observed + {d.tick.sequence as nat} == observed;
    }
  }

  /** A record that collides ends the discovery before it is looked at. The origin is the
      smallest sequence observed if and only if the record is not below every retained one;
      if it is, it goes to LateRecovery. */
  lemma CollisionExact(cfg: Config, cell: Cell, d: Decoded, now: nat, v: Verdicts, observed: set<nat>)
    requires cfg.entries > 0 && cfg.mode == Partial && Receptive(cfg, cell.chan) && cell.chan.discovering
    requires Belongs(cell.chan.id, d) && RetainsAll(cell.chan.pending, observed)
    requires Insertion(cfg, cell.chan.pending, d).Collision?
    ensures var r := ProcessChannel(cfg, cell, d, now, v).chan; var m := MinimumPending(cell.chan.pending);
      && !r.discovering && Origin(Partial, r.books.trace) == m
      && (SmallestObserved(m, observed + {d.tick.sequence as nat}) <==> m < d.tick.sequence)
      && (d.tick.sequence < m ==> DivertedLate(r, d))
  {
    var settled := FinishDiscovery(cfg, cell, now, v);
    OriginIsLeastRetained(cfg, cell, now, v);
    LeastIsSmallest(cell.chan.pending, observed);
    ProcessActiveKeeps(cfg, settled, d, now, v);
    ProcessActiveGrows(cfg, settled, d, now, v);
    StaysAfter(now, settled.chan, ProcessActive(cfg, settled, d, now, v).chan);
  }

  /** The last thing the channel did was to divert this record as late. */
  predicate DivertedLate(c: Channel, d: Decoded) {
    var trace := c.books.trace;
    trace.Then? && trace.last.Diverted? && trace.last.body == d && trace.last.record.reason == BehindCommittedFrontier
  }

  function ObservedBy(c: Channel, input: Input): set<nat> {
    if input.Arrival? && NamedBy(c.id, input.body) then {input.body.tick.sequence as nat} else {}
  }

  /** Every input on a channel that has not fixed its origin. */
  lemma InputExact(cfg: Config, c: Channel, input: Input, deadline: nat, v: Verdicts, r: Channel, observed: set<nat>)
    requires cfg.entries > 0 && cfg.mode == Partial && Receptive(cfg, c) && c.discovering && ValidInput(input)
    requires RetainsAll(c.pending, observed) && Takes(cfg, c, input, deadline, v, r)
    requires input.Shutdown? ==> Good(cfg, c)
    ensures r.discovering ==> RetainsAll(r.pending, observed + ObservedBy(c, input))
    ensures LowCollision(cfg, c, input) ==>
      !r.discovering && Origin(Partial, r.books.trace) == MinimumPending(c.pending) && DivertedLate(r, input.body)
    ensures !r.discovering ==>
      (SmallestObserved(Origin(Partial, r.books.trace), observed + ObservedBy(c, input)) <==>
       !LowCollision(cfg, c, input))
  {
    var cell := Cell(c, deadline);
    assert observed + {} == observed;
    match input
    case Arrival(d, now) =>
      if NamedBy(c.id, d) {
        assert d.tick.sequence in c.pending ==> MinimumPending(c.pending) <= d.tick.sequence;
        if Insertion(cfg, c.pending, d).Collision? {
          CollisionExact(cfg, cell, d, now, v, observed);
        } else {
          HoldEndsExact(cfg, cell, d, now, v, observed);
        }
      }
    case BadBody(_, _, _, _) =>
    case Timer(now) => if Collecting(cfg, c) { TimerEndsHold(cfg, cell, now, v, observed); }
    case Shutdown(now) => FlushEndsHold(cfg, cell, now, v, observed);
  }

  // ---- every run ---------------------------------------------------------------------

  /** The native sequences of a channel that the lane was given. */
  function Observed(inputs: seq<Input>, market: Market, channel: nat): set<nat> {
    Received(OnChannel(inputs, market, channel))
  }

  lemma ObservedLast(inputs: seq<Input>, market: Market, channel: nat, c: Channel)
    requires inputs != [] && Names(c.id, market, channel)
    ensures Observed(inputs, market, channel) ==
            Observed(inputs[..|inputs| - 1], market, channel) + ObservedBy(c, inputs[|inputs| - 1])
  {
    var earlier := OnChannel(inputs[..|inputs| - 1], market, channel);
    var given := Given(inputs[|inputs| - 1], market, channel);
    if given == [] {
      assert earlier + given == earlier;
    } else {
      assert (earlier + given)[..|earlier|] == earlier;
    }
  }

  /** The channel exists and has fixed its origin. */
  ghost predicate Fixed(cfg: Config, inputs: seq<Input>, v: Verdicts, market: Market, channel: nat)
    requires cfg.entries > 0
  {
    var lane := Run(cfg, inputs, v);
    Present(lane, market, channel) && !Found(cfg, lane, market, channel).discovering
  }

  /** While a channel is collecting it has retained every sequence it was given. */
  lemma {:induction false} HoldRetainsAll(cfg: Config, inputs: seq<Input>, v: Verdicts, market: Market, channel: nat)
    requires cfg.entries > 0 && cfg.mode == Partial && ValidInputs(inputs)
    requires Present(Run(cfg, inputs, v), market, channel) && !Fixed(cfg, inputs, v, market, channel)
    ensures RetainsAll(Found(cfg, Run(cfg, inputs, v), market, channel).pending, Observed(inputs, market, channel))
  {
    var earlier, last := inputs[..|inputs| - 1], inputs[|inputs| - 1];
    var deadline := LastTakes(cfg, inputs, v, market, channel);
    var before := Run(cfg, earlier, v);
    var c := Found(cfg, before, market, channel);
    if c.discovering {
      if Present(before, market, channel) { HoldRetainsAll(cfg, earlier, v, market, channel); }
      InputExact(cfg, c, last, deadline, v, Found(cfg, Run(cfg, inputs, v), market, channel),
                 Observed(earlier, market, channel));
      ObservedLast(inputs, market, channel, c);
    } else {
      FixedStays(cfg, c, last, deadline, v, Found(cfg, Run(cfg, inputs, v), market, channel));
    }
  }

  lemma FixedStays(cfg: Config, c: Channel, input: Input, deadline: nat, v: Verdicts, r: Channel)
    requires cfg.entries > 0 && cfg.mode == Partial && Good(cfg, c) && !c.discovering && ValidInput(input)
    requires Takes(cfg, c, input, deadline, v, r)
    ensures Settled(cfg, r) && Grows(input.now, c, r)
    ensures Origin(Partial, r.books.trace) == Origin(Partial, c.books.trace)
  {
    match input {
      case Arrival(d, now) => if NamedBy(c.id, d) { ProcessActiveKeeps(cfg, Cell(c, deadline), d, now, v); }
      case BadBody(_, _, _, _) =>
      case Timer(now) => ForceKeeps(cfg, Cell(c, deadline), now, v);
      case Shutdown(now) => ForceAllKeeps(cfg, Cell(c, deadline), now, v);
    }
    TakesGrows(cfg, c, input, deadline, v, r);
    FrontierHasOrigin(c.books.trace);
    StaysAfter(input.now, c, r);
  }

  /** How many inputs it took until the channel had fixed its origin. */
  ghost function HoldEnd(cfg: Config, inputs: seq<Input>, v: Verdicts, market: Market, channel: nat): (k: nat)
    requires cfg.entries > 0
    ensures k <= |inputs|
  {
    if inputs == [] then 0
    else
      var earlier := inputs[..|inputs| - 1];
      if Fixed(cfg, earlier, v, market, channel) then HoldEnd(cfg, earlier, v, market, channel) else |inputs|
  }

  /** What the input that ended the hold decided: `c` is the channel it found, `r` the channel
      after it, `observed` what had been observed by then. */
  ghost predicate Decided(cfg: Config, origin: nat, c: Channel, ended: Input, r: Channel, observed: set<nat>)
    requires cfg.entries > 0
  {
    && (SmallestObserved(origin, observed) <==> !LowCollision(cfg, c, ended))
    && (LowCollision(cfg, c, ended) ==> origin == MinimumPending(c.pending) && DivertedLate(r, ended.body))
  }

  ghost function OriginOf(cfg: Config, inputs: seq<Input>, v: Verdicts, market: Market, channel: nat): nat
    requires cfg.entries > 0
  {
    Origin(Partial, Found(cfg, Run(cfg, inputs, v), market, channel).books.trace)
  }

  ghost predicate DecidedAt(cfg: Config, inputs: seq<Input>, v: Verdicts, market: Market, channel: nat, origin: nat)
    requires cfg.entries > 0 && inputs != []
  {
    var earlier, ended := inputs[..|inputs| - 1], inputs[|inputs| - 1];
    Decided(cfg, origin, Found(cfg, Run(cfg, earlier, v), market, channel), ended,
            Found(cfg, Run(cfg, inputs, v), market, channel), Observed(inputs, market, channel))
  }

  lemma LastDecides(cfg: Config, inputs: seq<Input>, v: Verdicts, market: Market, channel: nat)
    requires cfg.entries > 0 && cfg.mode == Partial && ValidInputs(inputs) && inputs != []
    requires Fixed(cfg, inputs, v, market, channel) && !Fixed(cfg, inputs[..|inputs| - 1], v, market, channel)
    ensures DecidedAt(cfg, inputs, v, market, channel, OriginOf(cfg, inputs, v, market, channel))
  {
    var earlier, last := inputs[..|inputs| - 1], inputs[|inputs| - 1];
    var before := Run(cfg, earlier, v);
    var deadline := LastTakes(cfg, inputs, v, market, channel);
    var c, r := Found(cfg, before, market, channel), Found(cfg, Run(cfg, inputs, v), market, channel);
    if Present(before, market, channel) { HoldRetainsAll(cfg, earlier, v, market, channel); }
    InputExact(cfg, c, last, deadline, v, r, Observed(earlier, market, channel));
    ObservedLast(inputs, market, channel, c);
  }

  /** Input number k - 1 ended the hold and decided the origin. */
  ghost predicate DecidedBy(
    cfg: Config, inputs: seq<Input>, k: nat, v: Verdicts, market: Market, channel: nat, origin: nat)
    requires cfg.entries > 0 && k <= |inputs|
  {
    && k > 0 && !Fixed(cfg, inputs[..k - 1], v, market, channel)
    && DecidedAt(cfg, inputs[..k], v, market, channel, origin)
  }

  lemma StillDecided(
    cfg: Config, earlier: seq<Input>, inputs: seq<Input>, k: nat, v: Verdicts, market: Market, channel: nat,
    origin: nat)
    requires cfg.entries > 0 && k <= |earlier| && earlier <= inputs
    requires DecidedBy(cfg, earlier, k, v, market, channel, origin)
    ensures DecidedBy(cfg, inputs, k, v, market, channel, origin)
  {
    assert earlier[..k] == inputs[..k] && earlier[..k - 1] == inputs[..k - 1];
  }

  /** On every run: the origin of a PARTIAL channel is the smallest sequence observed up to
      the end of its hold, if and only if the hold was not ended by a colliding record below
      every retained one; that record is then diverted as late. */
  lemma {:induction false} OriginExact(cfg: Config, inputs: seq<Input>, v: Verdicts, market: Market, channel: nat)
    requires cfg.entries > 0 && cfg.mode == Partial && ValidInputs(inputs) && Fixed(cfg, inputs, v, market, channel)
    ensures DecidedBy(cfg, inputs, HoldEnd(cfg, inputs, v, market, channel), v, market, channel,
                      OriginOf(cfg, inputs, v, market, channel))
  {
    var earlier := inputs[..|inputs| - 1];
    if Fixed(cfg, earlier, v, market, channel) {
      OriginExact(cfg, earlier, v, market, channel);
      OriginRemains(cfg, inputs, v, market, channel);
      StillDecided(cfg, earlier, inputs, HoldEnd(cfg, earlier, v, market, channel), v, market, channel,
                   OriginOf(cfg, inputs, v, market, channel));
    } else {
      assert inputs[..|inputs|] == inputs;
      LastDecides(cfg, inputs, v, market, channel);
    }
  }

  lemma OriginRemains(cfg: Config, inputs: seq<Input>, v: Verdicts, market: Market, channel: nat)
    requires cfg.entries > 0 && cfg.mode == Partial && ValidInputs(inputs) && inputs != []
    requires Fixed(cfg, inputs, v, market, channel) && Fixed(cfg, inputs[..|inputs| - 1], v, market, channel)
    ensures OriginOf(cfg, inputs, v, market, channel) == OriginOf(cfg, inputs[..|inputs| - 1], v, market, channel)
  {
    var earlier, last := inputs[..|inputs| - 1], inputs[|inputs| - 1];
    var deadline := LastTakes(cfg, inputs, v, market, channel);
    FixedStays(cfg, Found(cfg, Run(cfg, earlier, v), market, channel), last, deadline, v,
               Found(cfg, Run(cfg, inputs, v), market, channel));
  }

  /** The case exists: two slots, 3 retained, then 1 arrives and collides with it. The origin
      is 3, and 1 is diverted as late although the hold had not been reached. */
  lemma SmallestCanBeLate(first: Decoded, second: Decoded, now: nat, v: Verdicts)
    requires first.tick.sequence == 3 && second.tick.sequence == 1
    requires first.tick.market == second.tick.market && first.tick.channel == second.tick.channel
    ensures var cfg := Config(Partial, 1, 2, 2, 1_000, 1_000);
      var inputs := [Arrival(first, now), Arrival(second, now)];
      var market := first.tick.market; var channel := first.tick.channel;
      && Fixed(cfg, inputs, v, market, channel) && OriginOf(cfg, inputs, v, market, channel) == 3
      && Observed(inputs, market, channel) == {1, 3} && !SmallestObserved(3, {1, 3})
      && DivertedLate(Found(cfg, Run(cfg, inputs, v), market, channel), second)
  {
    BothObserved(first, second, now);
    SecondIsLate(Config(Partial, 1, 2, 2, 1_000, 1_000), first, second, now, v);
  }

  /** One more record of the channel is one more sequence observed. */
  lemma ObservesOne(inputs: seq<Input>, earlier: seq<Input>, d: Decoded, now: nat)
    requires inputs == earlier + [Arrival(d, now)]
    ensures var market := d.tick.market; var channel := d.tick.channel;
      Observed(inputs, market, channel) == Observed(earlier, market, channel) + {d.tick.sequence as nat}
  {
    var c := NewChannel(Config(Partial, 1, 2, 2, 1_000, 1_000), Identity(d.tick.market, d.tick.channel, 0));
    assert inputs[..|inputs| - 1] == earlier;
    ObservedLast(inputs, d.tick.market, d.tick.channel, c);
  }

  lemma BothObserved(first: Decoded, second: Decoded, now: nat)
    requires first.tick.sequence == 3 && second.tick.sequence == 1
    requires first.tick.market == second.tick.market && first.tick.channel == second.tick.channel
    ensures Observed([Arrival(first, now), Arrival(second, now)], first.tick.market, first.tick.channel) == {1, 3}
    ensures !SmallestObserved(3, {1, 3})
  {
    var start, both := [Arrival(first, now)], [Arrival(first, now), Arrival(second, now)];
    ObservesOne(start, [], first, now);
    ObservesOne(both, start, second, now);
    assert 1 in {1 as nat, 3};
  }

  lemma SecondIsLate(cfg: Config, first: Decoded, second: Decoded, now: nat, v: Verdicts)
    requires cfg == Config(Partial, 1, 2, 2, 1_000, 1_000) && first.tick.sequence == 3 && second.tick.sequence == 1
    requires first.tick.market == second.tick.market && first.tick.channel == second.tick.channel
    ensures var inputs := [Arrival(first, now), Arrival(second, now)];
      var market := first.tick.market; var channel := first.tick.channel;
      && Fixed(cfg, inputs, v, market, channel) && OriginOf(cfg, inputs, v, market, channel) == 3
      && DivertedLate(Found(cfg, Run(cfg, inputs, v), market, channel), second)
  {
    var inputs := [Arrival(first, now), Arrival(second, now)];
    var c := FirstRetained(cfg, first, now, v);
    assert inputs[..1] == [Arrival(first, now)];
    var before := Run(cfg, inputs[..1], v);
    SecondCollides(cfg, c, before, second, now, v);
    assert Run(cfg, inputs, v) == Step(cfg, before, inputs[1], v);
  }

  lemma FirstRetained(cfg: Config, first: Decoded, now: nat, v: Verdicts) returns (c: Channel)
    requires cfg == Config(Partial, 1, 2, 2, 1_000, 1_000) && first.tick.sequence == 3
    ensures var lane := Run(cfg, [Arrival(first, now)], v);
      && Sound(cfg, lane) && lane.chans == [c] && c.id == Identity(first.tick.market, first.tick.channel, 0)
      && c.discovering && !c.frozen && c.pending == map[3 := first]
  {
    var inputs := [Arrival(first, now)];
    var start := NewChannel(cfg, Identity(first.tick.market, first.tick.channel, 0));
    assert inputs[..0] == [];
    assert Run(cfg, inputs, v) == Step(cfg, EMPTY, inputs[0], v) == Process(cfg, EMPTY, first, now, v);
    assert !Collides(cfg, map[], 3);
    c := StartHold(cfg, Cell(start.(pending := map[3 := first]), 0), now).chan;
    assert ProcessChannel(cfg, Cell(start, 0), first, now, v).chan == c;
    RunKeeps(cfg, inputs, v);
  }

  lemma SecondCollides(cfg: Config, c: Channel, lane: Lane, second: Decoded, now: nat, v: Verdicts)
    requires cfg == Config(Partial, 1, 2, 2, 1_000, 1_000) && Sound(cfg, lane) && lane.chans == [c]
    requires c.discovering && !c.frozen && c.pending.Keys == {3} && second.tick.sequence == 1 && NamedBy(c.id, second)
    ensures var r := Step(cfg, lane, Arrival(second, now), v).chans;
      && |r| == 1 && r[0].id == c.id && !r[0].discovering
      && Origin(Partial, r[0].books.trace) == 3 && DivertedLate(r[0], second)
  {
    var deadline := StepTakes(cfg, lane, Arrival(second, now), v, 0);
    assert 3 in c.pending && MinimumPending(c.pending) == 3 && Slot(cfg, 3) == Slot(cfg, 1) == 1;
    assert RetainsAll(c.pending, {3});
    var r := Step(cfg, lane, Arrival(second, now), v).chans[0];
    InputExact(cfg, c, Arrival(second, now), deadline, v, r, {3});
    StepKeepsName(cfg, lane, Arrival(second, now), v, 0);
    StepCreates(cfg, lane, Arrival(second, now), v);
  }
}
