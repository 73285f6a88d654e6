/** The benchmark from its encoder to its owners: whole quanta of the reversed schedule,
    encoded, admitted, routed, decoded and recovered, reach each owner as 1, 2, 3, ... */
module EndToEnd {
  import opened Canonical
  import opened Common
  import opened ChannelSpec
  import opened LaneSpec
  import opened OneChannel
  import opened Healing
  import opened Arrivals
  import opened Pipeline
  import OwnerStream
  import SpscRing
  import Synthetic

  /** The benchmark's channels and window, the security id of each channel, the pair of channel
      and sequence that each ordinal deals, and the body that is sent for a pair. */
  datatype Plan = Plan(
    channels: nat,
    window: nat,
    ids: nat -> seq<byte>,
    arrivals: nat -> SyntheticArrival,
    bodies: SyntheticArrival -> seq<byte>)

  predicate ValidPlan(plan: Plan) {
    plan.channels > 0 && plan.window > 0
  }

  /** The arrivals are those of the locally reversed schedule. */
  ghost predicate Reverses(plan: Plan)
    requires ValidPlan(plan)
  {
    forall ordinal: nat :: DealsAt(plan, ordinal)
  }

  predicate DealsAt(plan: Plan, ordinal: nat)
    requires ValidPlan(plan)
  {
    plan.arrivals(ordinal) == MakeArrival(ordinal, LocalReverse, plan.channels, plan.window)
  }

  /** The bodies are those of the encoder. */
  ghost predicate Encodes(plan: Plan) {
    forall a: SyntheticArrival :: EncodesPair(plan, a)
  }

  predicate EncodesPair(plan: Plan, a: SyntheticArrival) {
    plan.bodies(a) == Synthetic.Sent(a.channelIndex + 1, plan.ids(a.channelIndex), a.sequence)
  }

  /** Message number `ordinal` is what the benchmark sends for a pair, and it can be sent. */
  predicate SendsPair(u: Setup, plan: Plan, ordinal: nat, a: SyntheticArrival) {
    && u.text(ordinal).ShanghaiMessage?
    && u.text(ordinal).body == plan.bodies(a)
    && Synthetic.Encodable(a.channelIndex + 1, plan.ids(a.channelIndex), a.sequence)
    && |plan.ids(a.channelIndex)| <= u.maximumText
    && Known(u.catalog, plan.ids(a.channelIndex))
  }

  predicate SendsAt(u: Setup, plan: Plan, ordinal: nat) {
    SendsPair(u, plan, ordinal, plan.arrivals(ordinal))
  }

  /** The benchmark sends the first n ordinals. */
  ghost predicate Sends(u: Setup, plan: Plan, n: nat) {
    forall ordinal :: 0 <= ordinal < n ==> SendsAt(u, plan, ordinal)
  }

  function Ordinals(n: nat): seq<nat> {
    if n == 0 then [] else Ordinals(n - 1) + [n - 1]
  }

  /** A record at this place, of an instrument that the catalog has or has not. */
  predicate At(d: Decoded, channel: nat, sequence: nat, known: bool) {
    d.tick.market == Shanghai && d.tick.channel == channel && d.tick.sequence == sequence && d.catalogMatch == known
  }

  /** What is encoded is routed by its channel and decodes to its place. */
  lemma EncodedArrives(u: Setup, m: Message, channel: nat, id: seq<byte>, sequence: nat) returns (d: Decoded)
    requires m.ShanghaiMessage? && m.body == Synthetic.Sent(channel, id, sequence)
    requires Synthetic.Encodable(channel, id, sequence) && |id| <= u.maximumText
    ensures RouteOf(m) == Some(ShanghaiTick.SHANGHAI_ROUTES + channel)
    ensures EffectOf(u, m) == Decodes(d) && At(d, channel, sequence, Known(u.catalog, id))
  {
    Synthetic.RoundTrip(channel, id, sequence, u.maximumText);
    d := EffectOf(u, m).d;
  }

  lemma EncodedShown(w: View, u: Setup, ordinal: nat, m: Message, channel: nat, id: seq<byte>, sequence: nat)
    returns (d: Decoded)
    requires Shows(w, u) && m == u.text(ordinal)
    requires m.ShanghaiMessage? && m.body == Synthetic.Sent(channel, id, sequence)
    requires Synthetic.Encodable(channel, id, sequence) && |id| <= u.maximumText
    ensures w.lane(ordinal) == Some(u.laneOf(ShanghaiTick.SHANGHAI_ROUTES + channel))
    ensures w.effect(ordinal) == Decodes(d) && At(d, channel, sequence, Known(u.catalog, id))
  {
    assert ShowsAt(w, u, ordinal);
    d := EncodedArrives(u, m, channel, id, sequence);
  }

  /** Message number `ordinal` decodes to the pair and goes to its channel's lane. */
  predicate ArrivesAs(w: View, laneOf: nat -> nat, ordinal: nat, a: SyntheticArrival) {
    && w.effect(ordinal).Decodes? && Carries(w.effect(ordinal).d, a) && w.effect(ordinal).d.catalogMatch
    && w.lane(ordinal) == Some(laneOf(a.channelIndex))
  }

  /** The lane of each channel of the benchmark, by its index. */
  function Lanes(u: Setup): nat -> nat {
    (c: nat) => LaneFor(u, c + 1)
  }

  lemma PairArrives(w: View, u: Setup, plan: Plan, ordinal: nat, a: SyntheticArrival)
    requires Shows(w, u) && Encodes(plan) && SendsPair(u, plan, ordinal, a)
    ensures ArrivesAs(w, Lanes(u), ordinal, a)
  {
    assert EncodesPair(plan, a);
    var d := EncodedShown(w, u, ordinal, u.text(ordinal), a.channelIndex + 1, plan.ids(a.channelIndex), a.sequence);
  }

  /** The first n messages decode to these pairs. */
  ghost predicate Arrive(w: View, laneOf: nat -> nat, arrivals: nat -> SyntheticArrival, n: nat) {
    forall ordinal :: 0 <= ordinal < n ==> ArrivesAs(w, laneOf, ordinal, arrivals(ordinal))
  }

  lemma SentArrive(w: View, u: Setup, plan: Plan, n: nat)
    requires Shows(w, u) && Encodes(plan) && Sends(u, plan, n)
    ensures Arrive(w, Lanes(u), plan.arrivals, n)
  {
    forall ordinal | 0 <= ordinal < n ensures ArrivesAs(w, Lanes(u), ordinal, plan.arrivals(ordinal)) {
      assert SendsAt(u, plan, ordinal);
      PairArrives(w, u, plan, ordinal, plan.arrivals(ordinal));
    }
  }

  /** What the first n ordinals deal to the channels of one lane. */
  function DealtBy(laneOf: nat -> nat, arrivals: nat -> SyntheticArrival, n: nat, lane: nat): seq<SyntheticArrival> {
    if n == 0 then []
    else
      var a := arrivals(n - 1);
      DealtBy(laneOf, arrivals, n - 1, lane) + if laneOf(a.channelIndex) == lane then [a] else []
  }

  /** The channels that one lane serves. */
  function Mine(laneOf: nat -> nat, channels: nat, lane: nat): set<nat> {
    set c | 0 <= c < channels && laneOf(c) == lane
  }

  lemma {:induction false} DealtAsScheduled(plan: Plan, laneOf: nat -> nat, n: nat, lane: nat)
    requires ValidPlan(plan) && Reverses(plan)
    ensures DealtBy(laneOf, plan.arrivals, n, lane) ==
            Dealt(n, plan.channels, plan.window, Mine(laneOf, plan.channels, lane))
  {
    if n > 0 {
      DealtAsScheduled(plan, laneOf, n - 1, lane);
      ArrivalValid(n - 1, LocalReverse, plan.channels, plan.window);
      assert ArrivalAt(n - 1, LocalReverse, plan.channels, plan.window) && DealsAt(plan, n - 1);
    }
  }

  /** All the records that these messages decode to. */
  function AllDecodes(w: View, messages: seq<nat>): seq<Decoded> {
    if messages == [] then []
    else
      var effect := w.effect(messages[|messages| - 1]);
      AllDecodes(w, messages[..|messages| - 1]) + if effect.Decodes? then [effect.d] else []
  }

  lemma AllDecodesMore(w: View, messages: seq<nat>, message: nat)
    ensures AllDecodes(w, messages + [message]) ==
            AllDecodes(w, messages) + if w.effect(message).Decodes? then [w.effect(message).d] else []
  {
    assert (messages + [message])[..|messages|] == messages;
  }

  lemma BodiesMore(inputs: seq<Input>, more: seq<Input>)
    requires |more| <= 1
    ensures Bodies(inputs + more) ==
            Bodies(inputs) + if more != [] && more[0].Arrival? then [more[0].body] else []
  {
    if more == [] {
      assert inputs + more == inputs;
    } else {
      assert (inputs + more)[..|inputs|] == inputs;
    }
  }

  lemma {:induction false} BodiesAreDecodes(w: View, items: seq<Item>)
    ensures Bodies(Inputs(w, items)) == AllDecodes(w, Taken(items))
  {
    if items != [] {
      var earlier, last := items[..|items| - 1], items[|items| - 1];
      BodiesAreDecodes(w, earlier);
      BodiesMore(Inputs(w, earlier), InputsFor(w, last));
      if last.Receives? {
        AllDecodesMore(w, Taken(earlier), last.message);
      } else {
        assert Taken(earlier) + [] == Taken(earlier);
      }
    }
  }

  lemma OrdinalsLast(n: nat)
    requires n > 0
    ensures Ordinals(n)[..|Ordinals(n)| - 1] == Ordinals(n - 1) && Ordinals(n)[|Ordinals(n)| - 1] == n - 1
  {
  }

  lemma CarryMore(ds: seq<Decoded>, pairs: seq<SyntheticArrival>, d: Decoded, a: SyntheticArrival)
    requires Carry(ds, pairs) && Carries(d, a)
    ensures Carry(ds + [d], pairs + [a])
  {
  }

  lemma RoutedMore(w: View, n: nat, lane: nat)
    requires n > 0
    ensures Routed(w, Ordinals(n), lane) ==
            Routed(w, Ordinals(n - 1), lane) + if w.lane(n - 1) == Some(lane) then [n - 1] else []
  {
    OrdinalsLast(n);
  }

  /** What a lane's messages decode to is what the schedule deals to its channels. */
  lemma {:induction false} LaneIsDealt(
    w: View, laneOf: nat -> nat, arrivals: nat -> SyntheticArrival, n: nat, lane: nat)
    requires Arrive(w, laneOf, arrivals, n)
    ensures Carry(AllDecodes(w, Routed(w, Ordinals(n), lane)), DealtBy(laneOf, arrivals, n, lane))
  {
    if n > 0 {
      var part, dealt := Routed(w, Ordinals(n - 1), lane), DealtBy(laneOf, arrivals, n - 1, lane);
      LaneIsDealt(w, laneOf, arrivals, n - 1, lane);
      assert ArrivesAs(w, laneOf, n - 1, arrivals(n - 1));
      RoutedMore(w, n, lane);
      if w.lane(n - 1) == Some(lane) {
        AllDecodesMore(w, part, n - 1);
        CarryMore(AllDecodes(w, part), dealt, w.effect(n - 1).d, arrivals(n - 1));
      } else {
        assert part + [] == part && dealt + [] == dealt;
      }
    }
  }

  lemma {:induction false} AllKnown(
    w: View, laneOf: nat -> nat, arrivals: nat -> SyntheticArrival, n: nat, c: nat)
    requires Arrive(w, laneOf, arrivals, n)
    ensures Matched(DecodesFor(w, Ordinals(n), c))
  {
    if n > 0 {
      AllKnown(w, laneOf, arrivals, n - 1, c);
      assert ArrivesAs(w, laneOf, n - 1, arrivals(n - 1));
      DecodesForMore(w, Ordinals(n - 1), n - 1, c);
    }
  }

  /** The lane has done its part of the benchmark: whole quanta were sent and admitted, its
      worker has taken its share of them and exited, and no wait of the channel expired. */
  ghost predicate Done(
    cfg: Config, w: View, u: Setup, plan: Plan, quanta: nat, n: nat, share: nat, t: Threads, items: seq<Item>,
    v: Verdicts, c: nat)
    requires cfg.entries > 0 && ValidPlan(plan)
  {
    && IsQuanta(n, share, quanta, plan.channels, plan.window)
    && c < plan.channels && Reverses(plan) && Encodes(plan) && plan.window <= cfg.maximumSpan + 1
    && Sends(u, plan, n) && Finished(w, After(t), Ordinals(n), LaneFor(u, c + 1), items)
    && Quiet(cfg, Inputs(w, items), v, Shanghai, c + 1)
  }

  /** The lane is given the schedule. */
  lemma LaneHearsSchedule(w: View, u: Setup, plan: Plan, n: nat, t: Threads, items: seq<Item>, lane: nat)
    requires Shows(w, u) && ValidPlan(plan) && Reverses(plan) && Encodes(plan) && Sends(u, plan, n)
    requires Finished(w, After(t), Ordinals(n), lane, items)
    ensures Carry(Bodies(Inputs(w, items)),
                  Dealt(n, plan.channels, plan.window, Mine(Lanes(u), plan.channels, lane)))
  {
    SentArrive(w, u, plan, n);
    FinishedTookAll(w, t, Ordinals(n), lane, items);
    BodiesAreDecodes(w, items);
    LaneIsDealt(w, Lanes(u), plan.arrivals, n, lane);
    DealtAsScheduled(plan, Lanes(u), n, lane);
  }

  /** The channel has consumed its share, and its owners got all of it in order. */
  ghost predicate Delivers(r: Channel, share: nat, s: nat) {
    HealedUpTo(r, share, s) && s !in r.pending && OwnersGot(r.books.trace, share)
  }

  lemma ShareDelivers(r: Channel, ds: seq<Decoded>, share: nat, s: nat)
    requires ShareHealed(r, ds, share, s) && Matched(ds)
    ensures Delivers(r, share, s)
  {
  }

  /** Every channel of the benchmark is delivered completely and in order. */
  lemma BenchmarkDelivers(
    cfg: Config, w: View, u: Setup, plan: Plan, quanta: nat, n: nat, share: nat, t: Threads, items: seq<Item>,
    v: Verdicts, c: nat, s: nat)
    requires ValidConfig(cfg) && cfg.mode == FromOpen && cfg.gapWait > 0 && ValidPlan(plan) && Shows(w, u)
    requires AllProper(u)
    requires Done(cfg, w, u, plan, quanta, n, share, t, items, v, c)
    ensures var lane := Run(cfg, Inputs(w, items), v);
      && (!lane.exhausted ==> Present(lane, Shanghai, c + 1))
      && (Served(cfg, lane, Shanghai, c + 1) ==>
            Delivers(Found(cfg, lane, Shanghai, c + 1), share, s))
  {
    var lane := LaneFor(u, c + 1);
    FinishedHeardAll(w, u, t, Ordinals(n), items, c + 1);
    LaneHearsSchedule(w, u, plan, n, t, items, lane);
    SentArrive(w, u, plan, n);
    AllKnown(w, Lanes(u), plan.arrivals, n, c + 1);
    QuantaHeal(cfg, Inputs(w, items), v, quanta, plan.channels, plan.window, n, share,
               Mine(Lanes(u), plan.channels, lane), c, s);
    if Served(cfg, Run(cfg, Inputs(w, items), v), Shanghai, c + 1) {
      ShareDelivers(Found(cfg, Run(cfg, Inputs(w, items), v), Shanghai, c + 1),
                    OnChannel(Inputs(w, items), Shanghai, c + 1), share, s);
    }
  }

  /** What the benchmark checks: the owner of the channel pops its ticks with the native
      sequences 1, 2, 3, ..., whatever the interleaving at its ring. */
  lemma OwnerPopsInOrder(
    cfg: Config, w: View, u: Setup, plan: Plan, quanta: nat, n: nat, share: nat, t: Threads, items: seq<Item>,
    v: Verdicts, c: nat,
    mine: OwnerStream.Owner, spins: seq<nat>, slots: seq<Tick>, turns: seq<SpscRing.Move<Tick>>, i: nat)
    requires ValidConfig(cfg) && cfg.mode == FromOpen && cfg.gapWait > 0 && ValidPlan(plan) && Shows(w, u)
    requires AllProper(u)
    requires Done(cfg, w, u, plan, quanta, n, share, t, items, v, c)
    requires Served(cfg, Run(cfg, Inputs(w, items), v), Shanghai, c + 1)
    requires |slots| > 0
    requires OwnerStream.Drives(cfg, Inputs(w, items), v, mine, spins, SpscRing.Run(slots, turns))
    requires forall t: Tick :: t.market == Shanghai && t.channel == c + 1 ==> mine(t)
    requires i < |OwnerStream.OfChannel(SpscRing.Run(slots, turns).popped, Shanghai, c + 1)|
    ensures i < share
    ensures OwnerStream.OfChannel(SpscRing.Run(slots, turns).popped, Shanghai, c + 1)[i].sequence == i + 1
  {
    var inputs := Inputs(w, items);
    BenchmarkDelivers(cfg, w, u, plan, quanta, n, share, t, items, v, c, 0);
    FinishedHeardAll(w, u, t, Ordinals(n), items, c + 1);
    OwnerStream.OwnerSeesIncreasing(cfg, inputs, v, mine, spins, slots, turns, Shanghai, c + 1);
    PublishesOwn(cfg, inputs, v, Shanghai, c + 1);
    var r := Found(cfg, Run(cfg, inputs, v), Shanghai, c + 1);
    OwnerStream.AllPushed(r.id, Clocks(inputs), r.books.trace, mine);
    assert i < |OwnerStream.Pushed(r.books.trace, mine)|;
  }
}
