/** What an instrument owner sees at the far end of its ring: of every channel exactly the
    owner's ticks that the channel published, in that order and so in strictly increasing
    native sequence, whatever the interleaving of the two sides of the ring. */
module OwnerStream {
  import opened Canonical
  import opened ChannelSpec
  import opened Ledger
  import opened LaneSpec
  import opened ChannelIndex
  import opened TraceTheorems
  import opened OneChannel
  import SpscRing

  /** Which ticks go to the owner; the code takes the low bits of the instrument's ordinal. */
  type Owner = Tick -> bool

  /** What an event pushes into the owner's ring: a published tick of an instrument in the
      catalog, if the ring took it. */
  function PushedBy(e: Event, mine: Owner): seq<Tick> {
    if e.Emitted? && e.ok && e.body.catalogMatch && mine(e.out) then [e.out] else []
  }

  /** What a channel has pushed into the owner's ring. */
  function Pushed(trace: Trace, mine: Owner): seq<Tick> {
    if trace.Begin? then [] else Pushed(trace.earlier, mine) + PushedBy(trace.last, mine)
  }

  /** What it has pushed since its trace was `before`. */
  function PushedSince(before: Trace, trace: Trace, mine: Owner): seq<Tick> {
    if trace == before || trace.Begin? then []
    else PushedSince(before, trace.earlier, mine) + PushedBy(trace.last, mine)
  }

  function TraceIn(lane: Lane, i: nat): Trace {
    if i < |lane.chans| then lane.chans[i].books.trace else Begin
  }

  /** What channel i pushed between two states of the lane. */
  function PushedAt(before: Lane, after: Lane, i: nat, mine: Owner): seq<Tick> {
    PushedSince(TraceIn(before, i), TraceIn(after, i), mine)
  }

  /** What the first n channels pushed between two states of the lane. A pass over the
      channels takes them in this order; other inputs concern one channel. */
  function LanePushed(before: Lane, after: Lane, n: nat, mine: Owner): seq<Tick> {
    if n == 0 then []
    else LanePushed(before, after, n - 1, mine) + PushedAt(before, after, n - 1, mine)
  }

  /** Everything the lane's worker has pushed into the owner's ring, oldest first. */
  ghost function Stream(cfg: Config, inputs: seq<Input>, v: Verdicts, mine: Owner): seq<Tick>
    requires cfg.entries > 0
  {
    if inputs == [] then []
    else
      var earlier := inputs[..|inputs| - 1];
      var after := Run(cfg, inputs, v);
      Stream(cfg, earlier, v, mine) + LanePushed(Run(cfg, earlier, v), after, |after.chans|, mine)
  }

  function OfChannel(s: seq<Tick>, market: Market, channel: nat): seq<Tick> {
    if s == [] then []
    else
      var last := s[|s| - 1];
      OfChannel(s[..|s| - 1], market, channel) + if last.market == market && last.channel == channel then [last] else []
  }

  ghost function PushedOn(lane: Lane, market: Market, channel: nat, mine: Owner): seq<Tick> {
    Pushed(TraceIn(lane, IndexIn(lane, market, channel)), mine)
  }

  lemma {:induction false} OfChannelConcat(s: seq<Tick>, t: seq<Tick>, market: Market, channel: nat)
    ensures OfChannel(s + t, market, channel) == OfChannel(s, market, channel) + OfChannel(t, market, channel)
  {
    if t == [] {
      assert s + t == s;
    } else {
      var u := s + t;
      assert u[..|u| - 1] == s + t[..|t| - 1];
      OfChannelConcat(s, t[..|t| - 1], market, channel);
    }
  }

  lemma {:induction false} PushedSplit(id: Identity, now: nat, before: Trace, trace: Trace, mine: Owner)
    requires Continued(id, now, before, trace)
    ensures Pushed(trace, mine) == Pushed(before, mine) + PushedSince(before, trace, mine)
  {
    if trace != before { PushedSplit(id, now, before, trace.earlier, mine); }
  }

  lemma EventsOwn(id: Identity, now: nat, e: Event, mine: Owner, market: Market, channel: nat)
    requires EventOf(id, now, e)
    ensures AllOrNone(PushedBy(e, mine), market, channel, Names(id, market, channel))
  {
    if PushedBy(e, mine) != [] {
      assert PushedBy(e, mine)[..0] == [];
    }
  }

  /** These ticks are all the channel's, or none is. */
  predicate AllOrNone(s: seq<Tick>, market: Market, channel: nat, own: bool) {
    OfChannel(s, market, channel) == if own then s else []
  }

  lemma SharesAdd(s: seq<Tick>, t: seq<Tick>, market: Market, channel: nat, own: bool)
    requires AllOrNone(s, market, channel, own) && AllOrNone(t, market, channel, own)
    ensures AllOrNone(s + t, market, channel, own)
  {
    OfChannelConcat(s, t, market, channel);
  }

  /** A channel pushes ticks of its own only. */
  lemma {:induction false} PushesItsOwn(
    id: Identity, now: nat, before: Trace, trace: Trace, mine: Owner, market: Market, channel: nat)
    requires Continued(id, now, before, trace)
    ensures AllOrNone(PushedSince(before, trace, mine), market, channel, Names(id, market, channel))
  {
    if trace != before {
      PushesItsOwn(id, now, before, trace.earlier, mine, market, channel);
      EventsOwn(id, now, trace.last, mine, market, channel);
      SharesAdd(PushedSince(before, trace.earlier, mine), PushedBy(trace.last, mine), market, channel,
                Names(id, market, channel));
    }
  }

  ghost predicate ContinuedAt(before: Lane, after: Lane, now: nat, i: nat)
    requires i < |after.chans|
  {
    Continued(after.chans[i].id, now, TraceIn(before, i), TraceIn(after, i))
  }

  lemma StepContinues(cfg: Config, lane: Lane, input: Input, v: Verdicts, i: nat)
    requires cfg.entries > 0 && Sound(cfg, lane) && ValidInput(input) && i < |Step(cfg, lane, input, v).chans|
    ensures ContinuedAt(lane, Step(cfg, lane, input, v), input.now, i)
  {
    var r := Step(cfg, lane, input, v);
    StepCreates(cfg, lane, input, v);
    if i < |lane.chans| {
      var deadline := StepTakes(cfg, lane, input, v, i);
      TakesGrows(cfg, lane.chans[i], input, deadline, v, r.chans[i]);
    } else {
      var c := NewChannel(cfg, r.chans[i].id);
      TakesGrows(cfg, c, input, lane.deadline, v, r.chans[i]);
    }
  }

  /** One more channel's pushes, which are this channel's or not. */
  lemma ShareNext(
    s: seq<Tick>, id: Identity, now: nat, early: Trace, late: Trace, mine: Owner, market: Market, channel: nat)
    requires Continued(id, now, early, late)
    ensures var more := PushedSince(early, late, mine);
      OfChannel(s + more, market, channel) ==
      if Names(id, market, channel) then OfChannel(s, market, channel) + more else OfChannel(s, market, channel)
  {
    PushesItsOwn(id, now, early, late, mine, market, channel);
    OfChannelConcat(s, PushedSince(early, late, mine), market, channel);
  }

  /** Channel j grew by events of its own, and it is channel i if it has this name. */
  ghost predicate GrownAs(before: Lane, after: Lane, now: nat, market: Market, channel: nat, i: nat, j: nat)
    requires j < |after.chans|
  {
    ContinuedAt(before, after, now, j) && (Names(after.chans[j].id, market, channel) <==> i == j)
  }

  ghost predicate AllGrown(before: Lane, after: Lane, now: nat, market: Market, channel: nat, i: nat) {
    forall j :: 0 <= j < |after.chans| ==> GrownAs(before, after, now, market, channel, i, j)
  }

  /** One more channel's pushes add to the share if and only if it is channel i. */
  lemma ShareOfNext(before: Lane, after: Lane, now: nat, j: nat, mine: Owner, market: Market, channel: nat, i: nat)
    requires j < |after.chans| && AllGrown(before, after, now, market, channel, i)
    ensures var share := OfChannel(LanePushed(before, after, j, mine), market, channel);
      var more := OfChannel(LanePushed(before, after, j + 1, mine), market, channel);
      (i != j ==> more == share) && (i == j && share == [] ==> more == PushedAt(before, after, j, mine))
  {
    assert GrownAs(before, after, now, market, channel, i, j);
    var s := LanePushed(before, after, j, mine);
    ShareNext(s, after.chans[j].id, now, TraceIn(before, j), TraceIn(after, j), mine, market, channel);
    assert LanePushed(before, after, j + 1, mine) == s + PushedAt(before, after, j, mine);
  }

  /** How a share grows with one more channel. */
  predicate GrowsAt(share: nat -> seq<Tick>, more: nat -> seq<Tick>, i: nat, j: nat) {
    (i != j ==> share(j + 1) == share(j)) && (i == j && share(j) == [] ==> share(j + 1) == more(j))
  }

  lemma {:induction false} ShareIs(share: nat -> seq<Tick>, more: nat -> seq<Tick>, i: nat, n: nat)
    requires share(0) == [] && forall j :: 0 <= j < n ==> GrowsAt(share, more, i, j)
    ensures share(n) == if i < n then more(i) else []
  {
    if n > 0 {
      ShareIs(share, more, i, n - 1);
      assert GrowsAt(share, more, i, n - 1);
    }
  }

  /** One channel's share of what the first n channels push. */
  function ShareIn(before: Lane, after: Lane, mine: Owner, market: Market, channel: nat): nat -> seq<Tick> {
    (n: nat) => OfChannel(LanePushed(before, after, n, mine), market, channel)
  }

  function PushedIn(before: Lane, after: Lane, mine: Owner): nat -> seq<Tick> {
    (j: nat) => PushedAt(before, after, j, mine)
  }

  lemma ShareGrowsAt(before: Lane, after: Lane, now: nat, mine: Owner, market: Market, channel: nat, i: nat, j: nat)
    requires j < |after.chans| && AllGrown(before, after, now, market, channel, i)
    ensures GrowsAt(ShareIn(before, after, mine, market, channel), PushedIn(before, after, mine), i, j)
  {
    ShareOfNext(before, after, now, j, mine, market, channel, i);
  }

  /** In what a step pushes, one channel's share is what that channel pushed. */
  lemma ShareOfStep(before: Lane, after: Lane, now: nat, n: nat, mine: Owner, market: Market, channel: nat, i: nat)
    requires n <= |after.chans| && AllGrown(before, after, now, market, channel, i)
    ensures ShareIn(before, after, mine, market, channel)(n) ==
            if i < n then PushedIn(before, after, mine)(i) else []
  {
    var share, more := ShareIn(before, after, mine, market, channel), PushedIn(before, after, mine);
    forall j | 0 <= j < n ensures GrowsAt(share, more, i, j) {
      ShareGrowsAt(before, after, now, mine, market, channel, i, j);
    }
    ShareIs(share, more, i, n);
  }

  /** One channel's share of the stream is exactly what the channel pushed, in its order. */
  lemma {:induction false} ShareOfStream(
    cfg: Config, inputs: seq<Input>, v: Verdicts, mine: Owner, market: Market, channel: nat)
    requires cfg.entries > 0 && ValidInputs(inputs)
    ensures OfChannel(Stream(cfg, inputs, v, mine), market, channel) ==
            PushedOn(Run(cfg, inputs, v), market, channel, mine)
  {
    if inputs != [] {
      var earlier, last := inputs[..|inputs| - 1], inputs[|inputs| - 1];
      var before, after := Run(cfg, earlier, v), Run(cfg, inputs, v);
      ShareOfStream(cfg, earlier, v, mine, market, channel);
      RunKeeps(cfg, earlier, v);
      RunKeeps(cfg, inputs, v);
      StepCreates(cfg, before, last, v);
      var i := IndexIn(after, market, channel);
      forall j | 0 <= j < |after.chans| ensures GrownAs(before, after, last.now, market, channel, i, j) {
        StepContinues(cfg, before, last, v, j);
        IndexIs(cfg, after, j, market, channel);
      }
      ShareOfStep(before, after, last.now, |after.chans|, mine, market, channel, i);
      OfChannelConcat(Stream(cfg, earlier, v, mine), LanePushed(before, after, |after.chans|, mine), market, channel);
      ShareGrows(cfg, before, last, v, mine, market, channel);
    }
  }

  lemma ShareGrows(cfg: Config, lane: Lane, input: Input, v: Verdicts, mine: Owner, market: Market, channel: nat)
    requires cfg.entries > 0 && Sound(cfg, lane) && ValidInput(input)
    ensures var r := Step(cfg, lane, input, v); var i := IndexIn(r, market, channel);
      PushedOn(r, market, channel, mine) == PushedOn(lane, market, channel, mine) +
        if i < |r.chans| then PushedSince(TraceIn(lane, i), TraceIn(r, i), mine) else []
  {
    var r := Step(cfg, lane, input, v);
    var i := IndexIn(r, market, channel);
    if Present(lane, market, channel) {
      StepKeepsIndex(cfg, lane, input, v, market, channel);
    } else if Present(r, market, channel) {
      Appears(cfg, lane, input, v, market, channel);
    }
    if i < |r.chans| {
      StepContinues(cfg, lane, input, v, i);
      PushedSplit(r.chans[i].id, input.now, TraceIn(lane, i), TraceIn(r, i), mine);
    }
  }

  /** The native sequences strictly increase and stay below the bound. */
  predicate Ascending(s: seq<Tick>, bound: nat) {
    && (forall i, j :: 0 <= i < j < |s| ==> s[i].sequence < s[j].sequence)
    && (forall i :: 0 <= i < |s| ==> s[i].sequence < bound)
  }

  lemma {:induction false} PushedAscends(mode: StartMode, trace: Trace, mine: Owner)
    requires Told(mode, trace)
    ensures Ascending(Pushed(trace, mine), Replay(mode, trace).frontier)
  {
    if trace.Then? {
      PushedAscends(mode, trace.earlier, mine);
      var before, f := Pushed(trace.earlier, mine), Replay(mode, trace.earlier).frontier;
      assert before + [] == before;
      assert PushedBy(trace.last, mine) != [] ==> trace.last.out.sequence == f;
    }
  }

  lemma {:induction false} OfChannelPrefix(s: seq<Tick>, t: seq<Tick>, market: Market, channel: nat)
    requires s <= t
    ensures OfChannel(s, market, channel) <= OfChannel(t, market, channel)
  {
    OfChannelConcat(s, t[|s|..], market, channel);
    assert s + t[|s|..] == t;
  }

  lemma {:induction false} ShareAscends(s: seq<Tick>, bound: nat, i: nat, j: nat)
    requires i < j < |s| && SameChannel(s[i], s[j])
    requires Ascending(OfChannel(s, s[j].market, s[j].channel), bound)
    ensures s[i].sequence < s[j].sequence
  {
    var m, c := s[j].market, s[j].channel;
    var upto := s[..j];
    OfChannelConcat(upto, s[j..], m, c);
    assert upto + s[j..] == s;
    OfChannelPrefix(s[..j + 1], s, m, c);
    assert s[..j + 1][..j] == upto;
    var share := OfChannel(s[..j + 1], m, c);
    assert share == OfChannel(upto, m, c) + [s[j]];
    Shared(upto, i, m, c);
    var k :| 0 <= k < |OfChannel(upto, m, c)| && OfChannel(upto, m, c)[k] == s[i];
    assert share[k] == s[i] && share[|share| - 1] == s[j];
  }

  lemma {:induction false} Shared(s: seq<Tick>, i: nat, market: Market, channel: nat)
    requires i < |s| && s[i].market == market && s[i].channel == channel
    ensures s[i] in OfChannel(s, market, channel)
  {
    if i < |s| - 1 { Shared(s[..|s| - 1], i, market, channel); }
  }

  // ---- the ring ----------------------------------------------------------------------

  type Attempts = seq<SpscRing.Attempt<Tick>>

  /** The ticks that an event offers to the owner's ring, and the answer the recovery got. */
  function OfferedBy(e: Event, mine: Owner): Attempts {
    if e.Emitted? && e.body.catalogMatch && mine(e.out) then [SpscRing.Attempt(e.out, e.ok)] else []
  }

  function OfferedSince(before: Trace, trace: Trace, mine: Owner): Attempts {
    if trace == before || trace.Begin? then []
    else OfferedSince(before, trace.earlier, mine) + OfferedBy(trace.last, mine)
  }

  function LaneOffered(before: Lane, after: Lane, n: nat, mine: Owner): Attempts {
    if n == 0 then []
    else LaneOffered(before, after, n - 1, mine) + OfferedSince(TraceIn(before, n - 1), TraceIn(after, n - 1), mine)
  }

  /** Everything the lane's worker has offered to the owner's ring, oldest first. */
  ghost function Offers(cfg: Config, inputs: seq<Input>, v: Verdicts, mine: Owner): Attempts
    requires cfg.entries > 0
  {
    if inputs == [] then []
    else
      var earlier := inputs[..|inputs| - 1];
      var after := Run(cfg, inputs, v);
      Offers(cfg, earlier, v, mine) + LaneOffered(Run(cfg, earlier, v), after, |after.chans|, mine)
  }

  lemma {:induction false} SinceTaken(before: Trace, trace: Trace, mine: Owner)
    ensures SpscRing.Successes(OfferedSince(before, trace, mine)) == PushedSince(before, trace, mine)
  {
    if trace != before && trace.Then? {
      SinceTaken(before, trace.earlier, mine);
      EventTaken(trace.last, mine);
      SpscRing.SuccessesConcat(OfferedSince(before, trace.earlier, mine), OfferedBy(trace.last, mine));
    }
  }

  lemma EventTaken(e: Event, mine: Owner)
    ensures SpscRing.Successes(OfferedBy(e, mine)) == PushedBy(e, mine)
  {
    if OfferedBy(e, mine) != [] { SpscRing.SuccessesMore([], OfferedBy(e, mine)[0]); }
  }

  lemma {:induction false} LaneTaken(before: Lane, after: Lane, n: nat, mine: Owner)
    ensures SpscRing.Successes(LaneOffered(before, after, n, mine)) == LanePushed(before, after, n, mine)
  {
    if n > 0 {
      LaneTaken(before, after, n - 1, mine);
      SinceTaken(TraceIn(before, n - 1), TraceIn(after, n - 1), mine);
      SpscRing.SuccessesConcat(
        LaneOffered(before, after, n - 1, mine), OfferedSince(TraceIn(before, n - 1), TraceIn(after, n - 1), mine));
    }
  }

  /** Of what was offered, the accepted part is the stream. */
  lemma {:induction false} OffersTaken(cfg: Config, inputs: seq<Input>, v: Verdicts, mine: Owner)
    requires cfg.entries > 0
    ensures SpscRing.Successes(Offers(cfg, inputs, v, mine)) == Stream(cfg, inputs, v, mine)
  {
    if inputs != [] {
      var earlier := inputs[..|inputs| - 1];
      var before, after := Run(cfg, earlier, v), Run(cfg, inputs, v);
      OffersTaken(cfg, earlier, v, mine);
      LaneTaken(before, after, |after.chans|, mine);
      SpscRing.SuccessesConcat(Offers(cfg, earlier, v, mine), LaneOffered(before, after, |after.chans|, mine));
    }
  }

  const MAXIMUM_SPINS := 2_048

  /** How often each offer was tried in vain: fewer times than the limit if it was accepted,
      and as often as the limit if it was given up. */
  predicate Spun(offers: Attempts, spins: seq<nat>) {
    && |spins| == |offers|
    && forall i :: 0 <= i < |offers| ==> SpunOne(offers[i].ok, spins[i])
  }

  predicate SpunOne(ok: bool, spins: nat) {
    if ok then spins < MAXIMUM_SPINS else spins == MAXIMUM_SPINS
  }

  /** A tick tried `n` times in vain. */
  function InVain(tick: Tick, n: nat): Attempts {
    if n == 0 then [] else InVain(tick, n - 1) + [SpscRing.Attempt(tick, false)]
  }

  /** The calls of TryPush by which PublishBounded makes these offers. */
  function Tries(offers: Attempts, spins: seq<nat>): Attempts
    requires |spins| == |offers|
  {
    if offers == [] then []
    else
      var n := |offers| - 1;
      Tries(offers[..n], spins[..n]) + InVain(offers[n].value, spins[n]) + if offers[n].ok then [offers[n]] else []
  }

  lemma {:induction false} InVainPushesNothing(tick: Tick, n: nat)
    ensures SpscRing.Successes(InVain(tick, n)) == []
  {
    if n > 0 {
      InVainPushesNothing(tick, n - 1);
      SpscRing.SuccessesMore(InVain(tick, n - 1), SpscRing.Attempt(tick, false));
    }
  }

  lemma {:induction false} TriesPushOffers(offers: Attempts, spins: seq<nat>)
    requires |spins| == |offers|
    ensures SpscRing.Successes(Tries(offers, spins)) == SpscRing.Successes(offers)
  {
    if offers != [] {
      var n := |offers| - 1;
      var earlier, vain := Tries(offers[..n], spins[..n]), InVain(offers[n].value, spins[n]);
      TriesPushOffers(offers[..n], spins[..n]);
      InVainPushesNothing(offers[n].value, spins[n]);
      SpscRing.SuccessesConcat(earlier, vain);
      LastTry(earlier + vain, offers[n]);
    }
  }

  lemma LastTry(s: Attempts, offer: SpscRing.Attempt<Tick>)
    ensures SpscRing.Successes(s + if offer.ok then [offer] else []) ==
            SpscRing.Successes(s) + if offer.ok then [offer.value] else []
  {
    SpscRing.SuccessesMore(s, offer);
    assert s + [] == s;
  }

  lemma SuccessesPrefix(s: Attempts, t: Attempts)
    requires s <= t
    ensures SpscRing.Successes(s) <= SpscRing.Successes(t)
  {
    assert s + t[|s|..] == t;
    SpscRing.SuccessesConcat(s, t[|s|..]);
  }

  /** The worker drives the producer's side of the ring with the offers of this run, each tried
      as often as PublishBounded does; the ring's answers are those the recovery got. */
  ghost predicate Drives(
    cfg: Config, inputs: seq<Input>, v: Verdicts, mine: Owner, spins: seq<nat>, ring: SpscRing.State<Tick>)
    requires cfg.entries > 0
  {
    var offers := Offers(cfg, inputs, v, mine);
    Spun(offers, spins) && ring.tried <= Tries(offers, spins)
  }

  lemma PushedIsStream(
    cfg: Config, inputs: seq<Input>, v: Verdicts, mine: Owner, spins: seq<nat>, ring: SpscRing.State<Tick>)
    requires cfg.entries > 0 && SpscRing.Inv(ring) && Drives(cfg, inputs, v, mine, spins, ring)
    ensures ring.pushed <= Stream(cfg, inputs, v, mine)
  {
    var offers := Offers(cfg, inputs, v, mine);
    OffersTaken(cfg, inputs, v, mine);
    TriesPushOffers(offers, spins);
    SuccessesPrefix(ring.tried, Tries(offers, spins));
  }

  /** Whatever the interleaving, what the owner has popped of a channel is a prefix of the
      owner's ticks that the channel published; so they come in increasing sequence. */
  lemma OwnerSeesIncreasing(
    cfg: Config, inputs: seq<Input>, v: Verdicts, mine: Owner, spins: seq<nat>,
    slots: seq<Tick>, moves: seq<SpscRing.Move<Tick>>, market: Market, channel: nat)
    requires cfg.entries > 0 && ValidInputs(inputs) && |slots| > 0
    requires Drives(cfg, inputs, v, mine, spins, SpscRing.Run(slots, moves))
    ensures var popped := SpscRing.Run(slots, moves).popped;
      && OfChannel(popped, market, channel) <= PushedOn(Run(cfg, inputs, v), market, channel, mine)
      && forall i, j :: 0 <= i < j < |popped| && SameChannel(popped[i], popped[j]) ==>
           popped[i].sequence < popped[j].sequence
  {
    SpscRing.NeverReordered(slots, moves);
    var popped, stream := SpscRing.Run(slots, moves).popped, Stream(cfg, inputs, v, mine);
    PushedIsStream(cfg, inputs, v, mine, spins, SpscRing.Run(slots, moves));
    assert popped <= stream;
    ShareOfStream(cfg, inputs, v, mine, market, channel);
    OfChannelPrefix(popped, stream, market, channel);
    forall i, j | 0 <= i < j < |popped| && SameChannel(popped[i], popped[j])
      ensures popped[i].sequence < popped[j].sequence
    {
      StreamAscends(cfg, inputs, v, mine, i, j);
      assert popped[i] == stream[i] && popped[j] == stream[j];
    }
  }

  predicate SameChannel(s: Tick, t: Tick) {
    s.market == t.market && s.channel == t.channel
  }

  lemma StreamAscends(cfg: Config, inputs: seq<Input>, v: Verdicts, mine: Owner, i: nat, j: nat)
    requires cfg.entries > 0 && ValidInputs(inputs)
    requires var s := Stream(cfg, inputs, v, mine); i < j < |s| && SameChannel(s[i], s[j])
    ensures var s := Stream(cfg, inputs, v, mine); s[i].sequence < s[j].sequence
  {
    var s, lane := Stream(cfg, inputs, v, mine), Run(cfg, inputs, v);
    ShareOfStream(cfg, inputs, v, mine, s[j].market, s[j].channel);
    RunKeeps(cfg, inputs, v);
    var trace := TraceIn(lane, IndexIn(lane, s[j].market, s[j].channel));
    PushedAscends(cfg.mode, trace, mine);
    ShareAscends(s, Replay(cfg.mode, trace).frontier, i, j);
  }

  /** If all ticks of a channel are the owner's, it is pushed all that the channel delivers. */
  lemma {:induction false} AllPushed(id: Identity, clocks: set<nat>, trace: Trace, mine: Owner)
    requires AllOf(id, clocks, trace) && forall t: Tick :: Names(id, t.market, t.channel) ==> mine(t)
    ensures var ticks := Pushed(trace, mine);
      |ticks| == |Delivered(trace)| && forall i :: 0 <= i < |ticks| ==> ticks[i].sequence == Delivered(trace)[i]
  {
    if trace.Then? { AllPushed(id, clocks, trace.earlier, mine); }
  }
}
