/** From the bytes of admitted messages to what the owners receive: what a message decodes
    to is what its lane is given, a channel's messages all go to one lane and keep their
    order, and the theorems about lanes then speak of the messages. */
module Pipeline {
  import opened Canonical
  import opened Common
  import opened Accounting
  import opened LaneSpec
  import opened OneChannel
  import opened Conservation
  import opened Healing
  import Catalog
  import DynamicRanges
  import FixedPoint
  import ShanghaiTick
  import Shutdown

  // ---- one message -------------------------------------------------------------------

  /** What a decode does to the lane. */
  datatype Effect = Decodes(d: Decoded) | Fails(market: Market, channel: nat, observed: nat) | Unplaced

  /** A message in a lane. The other market's decoders are not part of this model: a message
      of it comes with its route and its effect. */
  datatype Message =
    | ShanghaiMessage(localTime: nat, vendorSequence: nat, body: seq<byte>)
    | ShenzhenMessage(route: nat, effect: Effect)

  /** The messages by number, and what the engine was configured with. `laneOf` is the lane of
      a route; the code takes the remainder by the number of lanes (ShanghaiTick.LaneOf), but
      nothing depends on how routes are spread. */
  datatype Setup = Setup(
    text: nat -> Message, maximumText: nat, catalog: seq<Catalog.Definition>, laneOf: nat -> nat)

  function ActionCode(a: ShanghaiTick.Action): int {
    match a case UnknownAction => 0 case Add => 1 case Cancel => 2 case Trade => 3 case Status => 4
  }

  function SideCode(s: ShanghaiTick.Side): int {
    match s case UnknownSide => 0 case Buy => 1 case Sell => 2
  }

  function AggressorCode(a: ShanghaiTick.Aggressor): int {
    match a case UnknownAggressor => 0 case BuyAggressor => 1 case SellAggressor => 2 case Neutral => 3
  }

  function PhaseCode(p: ShanghaiTick.Phase): int {
    match p
    case UnknownPhase => 0 case StartPhase => 1 case OpeningCall => 2 case Continuous => 3
    case Suspended => 4 case ClosingCall => 5 case Closed => 6 case Ended => 7
  }

  function Bit(b: bool): int { if b then 1 else 0 }

  /** The fields by which two records of one sequence are compared, besides their place. */
  function Payload(r: ShanghaiTick.Record): seq<int> {
    [r.exchangeTimeRaw, r.price.raw, r.price.scale, Bit(r.price.rawValid),
     r.amount.raw, r.amount.scale, Bit(r.amount.rawValid),
     r.quantity.raw, r.quantity.scale, Bit(r.quantity.valid),
     r.primaryOrder, r.buyOrder, r.sellOrder, r.matchedQuantity, r.rawType, r.rawSide,
     ActionCode(r.action), SideCode(r.side), AggressorCode(r.aggressor), PhaseCode(r.phase)] + r.security
  }

  predicate SameFields(r: ShanghaiTick.Record, s: ShanghaiTick.Record) {
    && r.exchangeTimeRaw == s.exchangeTimeRaw && r.security == s.security
    && r.price.raw == s.price.raw && r.price.scale == s.price.scale && r.price.rawValid == s.price.rawValid
    && r.amount.raw == s.amount.raw && r.amount.scale == s.amount.scale && r.amount.rawValid == s.amount.rawValid
    && r.quantity == s.quantity && r.primaryOrder == s.primaryOrder
    && r.buyOrder == s.buyOrder && r.sellOrder == s.sellOrder && r.matchedQuantity == s.matchedQuantity
    && r.rawType == s.rawType && r.rawSide == s.rawSide && r.action == s.action
    && r.side == s.side && r.aggressor == s.aggressor && r.phase == s.phase
  }

  /** A conflict is a difference in exactly these fields. */
  lemma PayloadExact(r: ShanghaiTick.Record, s: ShanghaiTick.Record)
    ensures Payload(r) == Payload(s) <==> SameFields(r, s)
  {
    var p, q := Payload(r), Payload(s);
    assert p[20..] == r.security && q[20..] == s.security;
    if p == q {
      assert forall i :: 0 <= i < 20 ==> p[i] == q[i];
      assert p[0] == q[0] && p[1] == q[1] && p[2] == q[2] && p[3] == q[3] && p[4] == q[4] && p[5] == q[5];
      assert p[6] == q[6] && p[7] == q[7] && p[8] == q[8] && p[9] == q[9] && p[10] == q[10] && p[11] == q[11];
      assert p[12] == q[12] && p[13] == q[13] && p[14] == q[14] && p[15] == q[15] && p[16] == q[16];
      assert p[17] == q[17] && p[18] == q[18] && p[19] == q[19];
    }
  }

  function OrZero(n: Option<nat>): nat { if n.Some? then n.value else 0 }

  /** The canonical tick of a record; what only accompanies it is its provenance. */
  function TickOf(r: ShanghaiTick.Record, localTime: nat, vendorSequence: nat): Tick
    requires r.sequence <= U64_MAX
  {
    Tick(Shanghai, r.channel, r.sequence, Payload(r),
         [localTime, OrZero(FixedPoint.DecodeTime(localTime)), vendorSequence,
          r.exchangeTimeNs, r.price.p6, r.amount.p6],
         true, false, false, false, 0, 0, 0)
  }

  predicate Identified(ds: seq<Catalog.Definition>, security: seq<byte>, i: nat)
    requires i < |ds|
  {
    Catalog.KeyOf(ds[i]) == Catalog.Key(Shanghai, [], security)
  }

  /** The catalog has the instrument. */
  predicate Known(ds: seq<Catalog.Definition>, security: seq<byte>) {
    exists i :: 0 <= i < |ds| && Identified(ds, security, i)
  }

  /** A decode starts with no range accepted. */
  const FRESH := DynamicRanges.Guard(true, [])

  function DecodeBody(u: Setup, body: seq<byte>): ShanghaiTick.Outcome {
    ShanghaiTick.Decode(FRESH, body, u.maximumText)
  }

  function EffectOf(u: Setup, m: Message): Effect {
    match m
    case ShenzhenMessage(_, effect) => effect
    case ShanghaiMessage(localTime, vendorSequence, body) =>
      match DecodeBody(u, body)
      case Tick(r) =>
        ShanghaiTick.ShortcutsAgree(FRESH, body, u.maximumText);
        Decodes(Decoded(TickOf(r, localTime, vendorSequence), Known(u.catalog, r.security)))
      case Undecodable(_) =>
        match ShanghaiTick.Descriptor(body)
        case None => Unplaced
        case Some((channel, sequence)) => Fails(Shanghai, channel, sequence)
  }

  /** The decode with the catalog's answer, as a worker calls it. */
  method DecodeMessage(
    catalog: Catalog.InstrumentCatalog, ghost u: Setup, maximumText: nat,
    localTime: nat, vendorSequence: nat, body: seq<byte>)
    returns (effect: Effect)
    requires catalog.Valid() && u.catalog == catalog.definitions && u.maximumText == maximumText
    ensures effect == EffectOf(u, ShanghaiMessage(localTime, vendorSequence, body))
  {
    var reader := new DynamicRanges.Reader(true);
    var outcome := ShanghaiTick.DecodeTick(reader, body, maximumText);
    match outcome
    case Tick(r) =>
      ShanghaiTick.ShortcutsAgree(FRESH, body, maximumText);
      var found := catalog.Find(Shanghai, [], r.security);
      assert found.Some? ==> Identified(u.catalog, r.security, found.value.ordinal);
      effect := Decodes(Decoded(TickOf(r, localTime, vendorSequence), found.Some?));
    case Undecodable(_) =>
      var descriptor := ShanghaiTick.Descriptor(body);
      match descriptor
      case None => effect := Unplaced;
      case Some((channel, sequence)) => effect := Fails(Shanghai, channel, sequence);
  }

  // ---- one lane ------------------------------------------------------------------------

  /** What each message does to its lane, and which lane that is. */
  datatype View = View(effect: nat -> Effect, lane: nat -> Option<nat>)

  /** What a lane's worker does, in order: it takes a message, or scans the timers. */
  datatype Item = Receives(message: nat, now: nat) | Scans(now: nat)

  function InputsOf(effect: Effect, now: nat): seq<Input> {
    match effect
    case Decodes(d) => [Input.Arrival(d, now)]
    case Fails(market, channel, observed) => [BadBody(market, channel, observed, now)]
    case Unplaced => []
  }

  function InputsFor(w: View, item: Item): seq<Input> {
    match item
    case Receives(message, now) => InputsOf(w.effect(message), now)
    case Scans(now) => [Timer(now)]
  }

  /** What the worker's recovery is given. */
  function Inputs(w: View, items: seq<Item>): seq<Input> {
    if items == [] then [] else Inputs(w, items[..|items| - 1]) + InputsFor(w, items[|items| - 1])
  }

  /** The messages the worker takes. */
  function Taken(items: seq<Item>): seq<nat> {
    if items == [] then []
    else
      var last := items[|items| - 1];
      Taken(items[..|items| - 1]) + if last.Receives? then [last.message] else []
  }

  predicate IsOf(effect: Effect, c: nat) {
    effect.Decodes? && effect.d.tick.market == Shanghai && effect.d.tick.channel == c
  }

  /** The records of one Shanghai channel that these messages decode to, in their order. */
  function DecodesFor(w: View, messages: seq<nat>, c: nat): seq<Decoded> {
    if messages == [] then []
    else
      var effect := w.effect(messages[|messages| - 1]);
      DecodesFor(w, messages[..|messages| - 1], c) + if IsOf(effect, c) then [effect.d] else []
  }

  lemma DecodesForMore(w: View, messages: seq<nat>, message: nat, c: nat)
    ensures DecodesFor(w, messages + [message], c) ==
            DecodesFor(w, messages, c) + if IsOf(w.effect(message), c) then [w.effect(message).d] else []
  {
    assert (messages + [message])[..|messages|] == messages;
  }

  lemma OnChannelMore(inputs: seq<Input>, more: seq<Input>, market: Market, channel: nat)
    requires |more| <= 1
    ensures OnChannel(inputs + more, market, channel) ==
            OnChannel(inputs, market, channel) + if more == [] then [] else Given(more[0], market, channel)
  {
    if more == [] {
      assert inputs + more == inputs;
    } else {
      assert (inputs + more)[..|inputs|] == inputs;
    }
  }

  lemma GivenIsDecoded(w: View, item: Item, c: nat)
    ensures var more := InputsFor(w, item);
      |more| <= 1 &&
      (if more == [] then [] else Given(more[0], Shanghai, c)) ==
      if item.Receives? && IsOf(w.effect(item.message), c) then [w.effect(item.message).d] else []
  {
  }

  /** A channel hears exactly the decodes of the messages its lane takes. */
  lemma {:induction false} ChannelHears(w: View, items: seq<Item>, c: nat)
    ensures OnChannel(Inputs(w, items), Shanghai, c) == DecodesFor(w, Taken(items), c)
  {
    if items != [] {
      var earlier, last := items[..|items| - 1], items[|items| - 1];
      ChannelHears(w, earlier, c);
      OnChannelMore(Inputs(w, earlier), InputsFor(w, last), Shanghai, c);
      GivenIsDecoded(w, last, c);
      if last.Receives? {
        DecodesForMore(w, Taken(earlier), last.message, c);
      } else {
        assert Taken(earlier) + [] == Taken(earlier);
      }
    }
  }

  /** The part of the admitted messages that one lane gets. */
  function Routed(w: View, admitted: seq<nat>, lane: nat): seq<nat> {
    if admitted == [] then []
    else
      var last := admitted[|admitted| - 1];
      Routed(w, admitted[..|admitted| - 1], lane) + if w.lane(last) == Some(lane) then [last] else []
  }

  /** A message that decodes for the channel goes to the lane. */
  predicate Follows(w: View, c: nat, lane: nat, message: nat) {
    IsOf(w.effect(message), c) ==> w.lane(message) == Some(lane)
  }

  ghost predicate AllFollow(w: View, c: nat, lane: nat) {
    forall message: nat :: Follows(w, c, lane, message)
  }

  /** A channel's messages all go to its lane, in the order in which they were admitted. */
  lemma {:induction false} ChannelStaysTogether(w: View, admitted: seq<nat>, lane: nat, home: nat, c: nat)
    requires AllFollow(w, c, home)
    ensures DecodesFor(w, Routed(w, admitted, lane), c) == if lane == home then DecodesFor(w, admitted, c) else []
  {
    if admitted != [] {
      var earlier, last := admitted[..|admitted| - 1], admitted[|admitted| - 1];
      ChannelStaysTogether(w, earlier, lane, home, c);
      assert Follows(w, c, home, last);
      var part := Routed(w, earlier, lane);
      if w.lane(last) == Some(lane) {
        DecodesForMore(w, part, last, c);
      } else {
        assert part + [] == part;
      }
    }
  }

  predicate InRange(effect: Effect) {
    effect.Decodes? ==> 0 < effect.d.tick.sequence < SEQUENCE_LIMIT
  }

  ghost predicate AllInRange(w: View) {
    forall message: nat :: InRange(w.effect(message))
  }

  lemma {:induction false} InputsValid(w: View, items: seq<Item>)
    requires AllInRange(w)
    ensures ValidInputs(Inputs(w, items))
  {
    if items != [] {
      var last := items[|items| - 1];
      InputsValid(w, items[..|items| - 1]);
      if last.Receives? { assert InRange(w.effect(last.message)); }
    }
  }

  // ---- the messages of a setup -----------------------------------------------------------

  function RouteOf(m: Message): Option<nat> {
    match m
    case ShanghaiMessage(_, _, body) => ShanghaiTick.Route(body)
    case ShenzhenMessage(route, _) => Some(route)
  }

  function LaneOfMessage(u: Setup, m: Message): Option<nat> {
    if RouteOf(m).None? then None else Some(u.laneOf(RouteOf(m).value))
  }

  /** The view shows what the setup's messages do. */
  ghost predicate Shows(w: View, u: Setup) {
    forall message: nat :: ShowsAt(w, u, message)
  }

  predicate ShowsAt(w: View, u: Setup, message: nat) {
    w.effect(message) == EffectOf(u, u.text(message)) && w.lane(message) == LaneOfMessage(u, u.text(message))
  }

  /** Every setup has its view. */
  lemma ViewOf(u: Setup) returns (w: View)
    ensures Shows(w, u)
  {
    w := View((message: nat) => EffectOf(u, u.text(message)), (message: nat) => LaneOfMessage(u, u.text(message)));
    forall message: nat ensures ShowsAt(w, u, message) {
    }
  }

  /** The lane of a Shanghai channel. */
  function LaneFor(u: Setup, c: nat): nat {
    u.laneOf(ShanghaiTick.SHANGHAI_ROUTES + c)
  }

  /** The other market's messages are not taken for this one's, and sequences are in range. */
  predicate Foreign(effect: Effect) {
    match effect
    case Decodes(d) => d.tick.market == Shenzhen && 0 < d.tick.sequence < SEQUENCE_LIMIT
    case Fails(market, _, _) => market == Shenzhen
    case Unplaced => true
  }

  predicate Proper(m: Message) {
    m.ShenzhenMessage? ==> Foreign(m.effect)
  }

  ghost predicate AllProper(u: Setup) {
    forall message: nat :: Proper(u.text(message))
  }

  /** Whatever decodes for a channel was routed by that channel, and has a valid sequence. */
  lemma RoutedByChannel(u: Setup, m: Message, c: nat)
    requires Proper(m)
    ensures IsOf(EffectOf(u, m), c) ==> RouteOf(m) == Some(ShanghaiTick.SHANGHAI_ROUTES + c)
    ensures InRange(EffectOf(u, m))
  {
    if m.ShanghaiMessage? && DecodeBody(u, m.body).Tick? {
      ShanghaiTick.ShortcutsAgree(FRESH, m.body, u.maximumText);
    }
  }

  lemma ViewIsSound(w: View, u: Setup, c: nat)
    requires Shows(w, u) && AllProper(u)
    ensures AllInRange(w) && AllFollow(w, c, LaneFor(u, c))
  {
    forall message: nat ensures InRange(w.effect(message)) && Follows(w, c, LaneFor(u, c), message) {
      assert Proper(u.text(message)) && ShowsAt(w, u, message);
      RoutedByChannel(u, u.text(message), c);
    }
  }

  // ---- every admitted message ------------------------------------------------------------

  lemma {:induction false} HandedIsCounted(inputs: seq<Input>, x: Decoded)
    ensures Handed(inputs, x) == multiset(OnChannel(inputs, x.tick.market, x.tick.channel))[x]
  {
    if inputs != [] {
      HandedIsCounted(inputs[..|inputs| - 1], x);
    }
  }

  /** The callers have returned and the worker of a lane has exited, after taking `items`; what
      Admit reported as accepted on the lane is its part of what was admitted. */
  ghost predicate Finished(w: View, s: Shutdown.State, admitted: seq<nat>, lane: nat, items: seq<Item>) {
    && lane < |s.workers| && lane < |s.accepted| && lane < |s.consumed|
    && Shutdown.AllOutside(s.callers) && s.workers[lane].Exited?
    && s.accepted[lane] == Routed(w, admitted, lane) && Taken(items) == s.consumed[lane]
  }

  /** The threads of an engine and what they did. */
  datatype Threads = Threads(lanes: nat, callers: nat, stoppers: nat, moves: seq<Shutdown.Move>)

  function After(t: Threads): Shutdown.State {
    Shutdown.Run(t.lanes, t.callers, t.stoppers, t.moves)
  }

  /** A finished lane took its part of what was admitted. */
  lemma FinishedTookAll(w: View, t: Threads, admitted: seq<nat>, lane: nat, items: seq<Item>)
    requires Finished(w, After(t), admitted, lane, items)
    ensures Taken(items) == Routed(w, admitted, lane)
  {
    Shutdown.NothingStranded(t.lanes, t.callers, t.stoppers, t.moves, lane);
  }

  /** A finished lane's channel has heard exactly what was admitted for it. */
  lemma FinishedHeardAll(w: View, u: Setup, t: Threads, admitted: seq<nat>, items: seq<Item>, c: nat)
    requires Shows(w, u) && AllProper(u) && Finished(w, After(t), admitted, LaneFor(u, c), items)
    ensures ValidInputs(Inputs(w, items))
    ensures OnChannel(Inputs(w, items), Shanghai, c) == DecodesFor(w, admitted, c)
  {
    ViewIsSound(w, u, c);
    FinishedTookAll(w, t, admitted, LaneFor(u, c), items);
    ChannelHears(w, items, c);
    ChannelStaysTogether(w, admitted, LaneFor(u, c), LaneFor(u, c), c);
    InputsValid(w, items);
  }

  /** After shutdown every record of every admitted message was disposed of exactly as often
      as it was admitted: emitted, diverted or counted, if its channel is not frozen. */
  lemma AdmittedIsDisposedOf(
    cfg: Config, w: View, u: Setup, t: Threads, admitted: seq<nat>, items: seq<Item>, now: nat, v: Verdicts, x: Decoded)
    requires cfg.entries > 0 && Shows(w, u) && AllProper(u) && x.tick.market == Shanghai
    requires Finished(w, After(t), admitted, LaneFor(u, x.tick.channel), items)
    ensures var lane := Run(cfg, Inputs(w, items) + [Input.Shutdown(now)], v);
      var c := Found(cfg, lane, Shanghai, x.tick.channel);
      PresentFor(lane, x) && !c.frozen ==>
      && c.pending == map[]
      && Disposals(c.books.trace, x) == multiset(DecodesFor(w, admitted, x.tick.channel))[x]
  {
    var inputs := Inputs(w, items);
    FinishedHeardAll(w, u, t, admitted, items, x.tick.channel);
    ShutdownDrains(cfg, inputs, now, v, x);
    HandedIsCounted(inputs, x);
  }

  /** What the owners receive of an admitted sequence whose records stay within the span: in
      order exactly the sequences before the least one not admitted. */
  lemma OwnersReceive(
    cfg: Config, w: View, u: Setup, t: Threads, admitted: seq<nat>, items: seq<Item>, v: Verdicts, c: nat)
    requires ValidConfig(cfg) && cfg.mode == FromOpen && cfg.gapWait > 0 && Shows(w, u) && AllProper(u)
    requires Finished(w, After(t), admitted, LaneFor(u, c), items)
    requires var ds := DecodesFor(w, admitted, c); WithinSpan(cfg, ds) && Consistent(ds) && Matched(ds)
    requires var inputs := Inputs(w, items);
      Quiet(cfg, inputs, v, Shanghai, c) && Served(cfg, Run(cfg, inputs, v), Shanghai, c)
    ensures OwnersGot(Found(cfg, Run(cfg, Inputs(w, items), v), Shanghai, c).books.trace,
                      LeastMissing(Received(DecodesFor(w, admitted, c)), 1) - 1)
  {
    FinishedHeardAll(w, u, t, admitted, items, c);
    OwnersGetAll(cfg, Inputs(w, items), v, Shanghai, c);
  }
}
