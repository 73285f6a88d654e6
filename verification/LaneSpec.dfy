/** The recovery of one decoder lane as functions on values: its channels in order of
    first appearance and the timer they share. */
module LaneSpec {
  import opened Canonical
  import opened ChannelSpec
  import opened Ledger
  import opened Accounting

  /** `exhausted` records that a channel was refused for lack of capacity, which the
      source treats as fatal. */
  datatype Lane = Lane(chans: seq<Channel>, deadline: nat, exhausted: bool)

  const EMPTY := Lane([], 0, false)

  predicate Names(id: Identity, market: Market, channel: nat) {
    id.market == market && id.channel == channel
  }

  /** Index of the channel with this name; the number of channels when there is none. */
  function IndexOf(chans: seq<Channel>, market: Market, channel: nat): (i: nat)
    ensures i <= |chans|
    ensures i < |chans| ==> Names(chans[i].id, market, channel)
    ensures forall j :: 0 <= j < i ==> !Names(chans[j].id, market, channel)
  {
    if chans == [] then 0
    else
      var i := IndexOf(chans[..|chans| - 1], market, channel);
      if i < |chans| - 1 then i
      else if Names(chans[i].id, market, channel) then i
      else |chans|
  }

  predicate Refused(cfg: Config, lane: Lane, market: Market, channel: nat) {
    IndexOf(lane.chans, market, channel) == |lane.chans| >= cfg.maximumChannels
  }

  /** The channels after looking one up, created when it is new. */
  function WithChannel(cfg: Config, lane: Lane, market: Market, channel: nat): (chans: seq<Channel>)
    requires !Refused(cfg, lane, market, channel)
    ensures IndexOf(lane.chans, market, channel) < |chans|
  {
    var i := IndexOf(lane.chans, market, channel);
    if i < |lane.chans| then lane.chans
    else lane.chans + [NewChannel(cfg, Identity(market, channel, i))]
  }

  ghost function Arrived(cfg: Config, lane: Lane, i: nat, d: Decoded, now: nat, v: Verdicts): Lane
    requires cfg.entries > 0 && i < |lane.chans|
  {
    var r := ProcessChannel(cfg, Cell(lane.chans[i], lane.deadline), d, now, v);
    lane.(chans := lane.chans[i := r.chan], deadline := r.deadline)
  }

  ghost function Process(cfg: Config, lane: Lane, d: Decoded, now: nat, v: Verdicts): Lane
    requires cfg.entries > 0
  {
    if Refused(cfg, lane, d.tick.market, d.tick.channel) then lane.(exhausted := true)
    else
      var found := lane.(chans := WithChannel(cfg, lane, d.tick.market, d.tick.channel));
      Arrived(cfg, found, IndexOf(lane.chans, d.tick.market, d.tick.channel), d, now, v)
  }

  ghost function FreezeDecodeFailure(
    cfg: Config, lane: Lane, market: Market, channel: nat, observed: nat, now: nat, v: Verdicts): Lane
  {
    if cfg.mode != FromOpen then lane
    else if Refused(cfg, lane, market, channel) then lane.(exhausted := true)
    else
      var i := IndexOf(lane.chans, market, channel);
      var chans := WithChannel(cfg, lane, market, channel);
      lane.(chans := chans[i := Freeze(chans[i], DecodeFailure, observed, now, v)])
  }

  ghost function Polled(cfg: Config, lane: Lane, i: nat, now: nat, v: Verdicts): Lane
    requires i < |lane.chans|
  {
    var r := PollChannel(cfg, Cell(lane.chans[i], lane.deadline), now, v);
    lane.(chans := lane.chans[i := r.chan], deadline := r.deadline)
  }

  ghost function Flushed(cfg: Config, lane: Lane, i: nat, now: nat, v: Verdicts): Lane
    requires i < |lane.chans|
  {
    var r := FlushChannel(cfg, Cell(lane.chans[i], lane.deadline), now, v);
    lane.(chans := lane.chans[i := r.chan], deadline := r.deadline)
  }

  /** The timer scan over the first n channels. */
  ghost function Scan(cfg: Config, lane: Lane, n: nat, now: nat, v: Verdicts): (r: Lane)
    requires n <= |lane.chans|
    ensures |r.chans| == |lane.chans|
    ensures forall j :: n <= j < |lane.chans| ==> r.chans[j] == lane.chans[j]
  {
    if n == 0 then lane
    else
      Polled(cfg, Scan(cfg, lane, n - 1, now, v), n - 1, now, v)
  }

  /** The scan of every channel, without the cached deadline's shortcut. */
  ghost function FullScan(cfg: Config, lane: Lane, now: nat, v: Verdicts): Lane {
    Scan(cfg, lane.(deadline := 0), |lane.chans|, now, v)
  }

  ghost function Poll(cfg: Config, lane: Lane, now: nat, v: Verdicts): Lane {
    if lane.deadline == 0 || now < lane.deadline then lane
    else FullScan(cfg, lane, now, v)
  }

  ghost function Flush(cfg: Config, lane: Lane, n: nat, now: nat, v: Verdicts): (r: Lane)
    requires n <= |lane.chans|
    ensures |r.chans| == |lane.chans|
    ensures forall j :: n <= j < |lane.chans| ==> r.chans[j] == lane.chans[j]
  {
    if n == 0 then lane
    else
      Flushed(cfg, Flush(cfg, lane, n - 1, now, v), n - 1, now, v)
  }

  /** One more channel of a pass. */
  lemma ScanNext(cfg: Config, lane: Lane, n: nat, now: nat, v: Verdicts)
    requires n < |lane.chans|
    ensures Scan(cfg, lane, n + 1, now, v) == Polled(cfg, Scan(cfg, lane, n, now, v), n, now, v)
  {
  }

  lemma FlushNext(cfg: Config, lane: Lane, n: nat, now: nat, v: Verdicts)
    requires n < |lane.chans|
    ensures Flush(cfg, lane, n + 1, now, v) == Flushed(cfg, Flush(cfg, lane, n, now, v), n, now, v)
  {
  }

  // ---- runs ------------------------------------------------------------------

  datatype Input =
    | Arrival(body: Decoded, now: nat)
    | BadBody(market: Market, channel: nat, observed: nat, now: nat)
    | Timer(now: nat)
    | Shutdown(now: nat)

  ghost function Step(cfg: Config, lane: Lane, input: Input, v: Verdicts): Lane
    requires cfg.entries > 0
  {
    match input
    case Arrival(body, now) => Process(cfg, lane, body, now, v)
    case BadBody(market, channel, observed, now) => FreezeDecodeFailure(cfg, lane, market, channel, observed, now, v)
    case Timer(now) => Poll(cfg, lane, now, v)
    case Shutdown(now) => Flush(cfg, lane, |lane.chans|, now, v)
  }

  ghost function Run(cfg: Config, inputs: seq<Input>, v: Verdicts): Lane
    requires cfg.entries > 0
  {
    if inputs == [] then EMPTY
    else Step(cfg, Run(cfg, inputs[..|inputs| - 1], v), inputs[|inputs| - 1], v)
  }

  /** The decoder only delivers positive int64 sequences. */
  predicate ValidInput(input: Input) {
    input.Arrival? ==> 0 < input.body.tick.sequence < SEQUENCE_LIMIT
  }

  predicate ValidInputs(inputs: seq<Input>) {
    forall i :: 0 <= i < |inputs| ==> ValidInput(inputs[i])
  }

  function HandedBy(input: Input, x: Decoded): nat {
    if input.Arrival? then One(input.body, x) else 0
  }

  /** How often the run was handed the record `x`. */
  function Handed(inputs: seq<Input>, x: Decoded): nat {
    if inputs == [] then 0
    else Handed(inputs[..|inputs| - 1], x) + HandedBy(inputs[|inputs| - 1], x)
  }

  // ---- invariants of every run -------------------------------------------------

  ghost predicate Placed(cfg: Config, chans: seq<Channel>) {
    && |chans| <= cfg.maximumChannels
    && (forall i :: 0 <= i < |chans| ==> chans[i].id.mailbox == i)
    && (forall i, j :: 0 <= i < j < |chans| ==> !Names(chans[i].id, chans[j].id.market, chans[j].id.channel))
  }

  ghost predicate AllGood(cfg: Config, chans: seq<Channel>)
    requires cfg.entries > 0
  {
    forall i :: 0 <= i < |chans| ==> Good(cfg, chans[i])
  }

  ghost predicate Sound(cfg: Config, lane: Lane)
    requires cfg.entries > 0
  {
    Placed(cfg, lane.chans) && AllGood(cfg, lane.chans)
  }

  /** What the lane accounts for on the channel that `x` belongs to. */
  function AccountedIn(lane: Lane, x: Decoded): nat {
    var i := IndexOf(lane.chans, x.tick.market, x.tick.channel);
    if i < |lane.chans| then Accounted(lane.chans[i], x) else 0
  }

  /** Looking a name up again gives the same index, whatever was added behind it. */
  lemma IndexStable(chans: seq<Channel>, more: seq<Channel>, market: Market, channel: nat)
    requires IndexOf(chans, market, channel) < |chans| <= |more|
    requires forall j :: 0 <= j < |chans| ==> more[j].id == chans[j].id
    ensures IndexOf(more, market, channel) == IndexOf(chans, market, channel)
  {
    var i := IndexOf(chans, market, channel);
    assert Names(more[i].id, market, channel);
  }

  lemma {:induction false} SameIndex(chans: seq<Channel>, more: seq<Channel>, market: Market, channel: nat)
    requires |chans| == |more| && forall j :: 0 <= j < |chans| ==> more[j].id == chans[j].id
    ensures IndexOf(more, market, channel) == IndexOf(chans, market, channel)
  {
    if chans != [] { SameIndex(chans[..|chans| - 1], more[..|more| - 1], market, channel); }
  }

  lemma WithChannelPlaced(cfg: Config, lane: Lane, market: Market, channel: nat)
    requires cfg.entries > 0 && Sound(cfg, lane) && !Refused(cfg, lane, market, channel)
    ensures var chans := WithChannel(cfg, lane, market, channel); var i := IndexOf(lane.chans, market, channel);
      && Placed(cfg, chans)
      && Receptive(cfg, chans[i]) && Names(chans[i].id, market, channel)
      && forall j :: 0 <= j < |chans| && j != i ==> Good(cfg, chans[j])
  {
  }

  /** Replacing one channel by a continuation only moves that channel's account. */
  lemma AccountReplaced(lane: Lane, chans: seq<Channel>, i: nat, c: Channel, r: Lane, x: Decoded)
    requires i < |chans| && lane.chans <= chans && |chans| <= |lane.chans| + 1
    requires forall j :: |lane.chans| <= j < |chans| ==>
      j == i && chans[j].books.trace == Begin && chans[j].pending == map[]
    requires forall j, k :: 0 <= j < k < |chans| ==> !Names(chans[j].id, chans[k].id.market, chans[k].id.channel)
    requires c.id == chans[i].id && r.chans == chans[i := c]
    ensures AccountedIn(r, x) ==
      AccountedIn(lane, x)
        + if Names(c.id, x.tick.market, x.tick.channel) then Accounted(c, x) - Accounted(chans[i], x) else 0
  {
    var m, ch := x.tick.market, x.tick.channel;
    var before, after := IndexOf(lane.chans, m, ch), IndexOf(r.chans, m, ch);
    assert forall j :: 0 <= j < |chans| ==> r.chans[j].id == chans[j].id;
    assert forall j :: 0 <= j < |lane.chans| ==> lane.chans[j] == chans[j];
    if before < |lane.chans| {
      IndexStable(lane.chans, r.chans, m, ch);
    } else if Names(c.id, m, ch) {
      assert i == |lane.chans|;
      assert after == i;
    }
  }

  lemma ReplacedSound(cfg: Config, chans: seq<Channel>, i: nat, c: Channel, r: Lane)
    requires cfg.entries > 0 && i < |chans| && Placed(cfg, chans) && Good(cfg, c)
    requires forall j :: 0 <= j < |chans| && j != i ==> Good(cfg, chans[j])
    requires c.id == chans[i].id && r.chans == chans[i := c]
    ensures Sound(cfg, r)
  {
  }

  lemma ProcessSound(cfg: Config, lane: Lane, d: Decoded, now: nat, v: Verdicts, x: Decoded)
    requires cfg.entries > 0 && Sound(cfg, lane) && 0 < d.tick.sequence < SEQUENCE_LIMIT
    ensures var r := Process(cfg, lane, d, now, v);
      && Sound(cfg, r)
      && AccountedIn(r, x) == AccountedIn(lane, x)
           + if Refused(cfg, lane, d.tick.market, d.tick.channel) then 0 else One(d, x)
  {
    if !Refused(cfg, lane, d.tick.market, d.tick.channel) {
      WithChannelPlaced(cfg, lane, d.tick.market, d.tick.channel);
      var chans := WithChannel(cfg, lane, d.tick.market, d.tick.channel);
      var i := IndexOf(lane.chans, d.tick.market, d.tick.channel);
      var cell := Cell(chans[i], lane.deadline);
      ProcessKeeps(cfg, cell, d, now, v);
      ProcessAccounts(cfg, cell, d, now, v, x);
      AccountReplaced(lane, chans, i, ProcessChannel(cfg, cell, d, now, v).chan, Process(cfg, lane, d, now, v), x);
    }
  }

  lemma BadBodySound(
    cfg: Config, lane: Lane, market: Market, channel: nat, observed: nat, now: nat, v: Verdicts, x: Decoded)
    requires cfg.entries > 0 && Sound(cfg, lane)
    ensures var r := FreezeDecodeFailure(cfg, lane, market, channel, observed, now, v);
      Sound(cfg, r) && AccountedIn(r, x) == AccountedIn(lane, x)
  {
    if cfg.mode == FromOpen && !Refused(cfg, lane, market, channel) {
      WithChannelPlaced(cfg, lane, market, channel);
      var chans := WithChannel(cfg, lane, market, channel);
      var i := IndexOf(lane.chans, market, channel);
      FreezeKeeps(cfg, chans[i], DecodeFailure, observed, now, v);
      FreezeAccounts(chans[i], DecodeFailure, observed, now, v, x);
      var c, r := Freeze(chans[i], DecodeFailure, observed, now, v),
                  FreezeDecodeFailure(cfg, lane, market, channel, observed, now, v);
      ReplacedSound(cfg, chans, i, c, r);
      AccountReplaced(lane, chans, i, c, r, x);
    }
  }

  /** The pass over the channels takes each one from where it was, whatever the others do. */
  lemma {:induction false} ScanEach(cfg: Config, lane: Lane, n: nat, now: nat, v: Verdicts, j: nat, x: Decoded)
    requires cfg.entries > 0 && n <= |lane.chans| && j < |lane.chans| && Good(cfg, lane.chans[j])
    ensures var c := Scan(cfg, lane, n, now, v).chans[j];
      Good(cfg, c) && c.id == lane.chans[j].id && Accounted(c, x) == Accounted(lane.chans[j], x)
  {
    if j < n - 1 {
      ScanEach(cfg, lane, n - 1, now, v, j, x);
    } else if j == n - 1 {
      var before := Scan(cfg, lane, n - 1, now, v);
      PollKeeps(cfg, Cell(before.chans[j], before.deadline), now, v);
      PollAccounts(cfg, Cell(before.chans[j], before.deadline), now, v, x);
    }
  }

  lemma ScanSound(cfg: Config, lane: Lane, n: nat, now: nat, v: Verdicts, x: Decoded)
    requires cfg.entries > 0 && Sound(cfg, lane) && n <= |lane.chans|
    ensures var r := Scan(cfg, lane, n, now, v); Sound(cfg, r) && AccountedIn(r, x) == AccountedIn(lane, x)
  {
    var r := Scan(cfg, lane, n, now, v);
    forall j | 0 <= j < |lane.chans|
      ensures Good(cfg, r.chans[j]) && r.chans[j].id == lane.chans[j].id
      ensures Accounted(r.chans[j], x) == Accounted(lane.chans[j], x)
    {
      ScanEach(cfg, lane, n, now, v, j, x);
    }
    SameIndex(lane.chans, r.chans, x.tick.market, x.tick.channel);
  }

  /** The pass over the channels takes each one from where it was, whatever the others do. */
  lemma {:induction false} FlushEach(cfg: Config, lane: Lane, n: nat, now: nat, v: Verdicts, j: nat, x: Decoded)
    requires cfg.entries > 0 && n <= |lane.chans| && j < |lane.chans| && Good(cfg, lane.chans[j])
    ensures var c := Flush(cfg, lane, n, now, v).chans[j];
      Good(cfg, c) && c.id == lane.chans[j].id && Accounted(c, x) == Accounted(lane.chans[j], x)
  {
    if j < n - 1 {
      FlushEach(cfg, lane, n - 1, now, v, j, x);
    } else if j == n - 1 {
      var before := Flush(cfg, lane, n - 1, now, v);
      FlushKeeps(cfg, Cell(before.chans[j], before.deadline), now, v);
      FlushAccounts(cfg, Cell(before.chans[j], before.deadline), now, v, x);
    }
  }

  lemma FlushSound(cfg: Config, lane: Lane, n: nat, now: nat, v: Verdicts, x: Decoded)
    requires cfg.entries > 0 && Sound(cfg, lane) && n <= |lane.chans|
    ensures var r := Flush(cfg, lane, n, now, v); Sound(cfg, r) && AccountedIn(r, x) == AccountedIn(lane, x)
  {
    var r := Flush(cfg, lane, n, now, v);
    forall j | 0 <= j < |lane.chans|
      ensures Good(cfg, r.chans[j]) && r.chans[j].id == lane.chans[j].id
      ensures Accounted(r.chans[j], x) == Accounted(lane.chans[j], x)
    {
      FlushEach(cfg, lane, n, now, v, j, x);
    }
    SameIndex(lane.chans, r.chans, x.tick.market, x.tick.channel);
  }

  /** Shutdown leaves nothing pending except on frozen channels, which it does not touch. */
  lemma {:induction false} FlushEmpties(cfg: Config, lane: Lane, n: nat, now: nat, v: Verdicts)
    requires n <= |lane.chans|
    ensures var r := Flush(cfg, lane, n, now, v);
      forall j :: 0 <= j < n ==>
        if lane.chans[j].frozen then r.chans[j] == lane.chans[j] else r.chans[j].pending == map[]
  {
    if n > 0 {
      FlushEmpties(cfg, lane, n - 1, now, v);
    }
  }

  /** The input is about a new channel and the lane has no room for it. */
  predicate Refuses(cfg: Config, lane: Lane, input: Input) {
    match input
    case Arrival(d, _) => Refused(cfg, lane, d.tick.market, d.tick.channel)
    case BadBody(market, channel, _, _) => cfg.mode == FromOpen && Refused(cfg, lane, market, channel)
    case _ => false
  }

  /** A step accounts for exactly the record it was given, unless it refused it. */
  lemma StepSound(cfg: Config, lane: Lane, input: Input, v: Verdicts, x: Decoded)
    requires cfg.entries > 0 && Sound(cfg, lane) && ValidInput(input)
    ensures var r := Step(cfg, lane, input, v);
      && Sound(cfg, r) && r.exhausted == (lane.exhausted || Refuses(cfg, lane, input))
      && AccountedIn(r, x) == AccountedIn(lane, x) + if Refuses(cfg, lane, input) then 0 else HandedBy(input, x)
  {
    match input
    case Arrival(body, now) => ProcessSound(cfg, lane, body, now, v, x);
    case BadBody(market, channel, observed, now) => BadBodySound(cfg, lane, market, channel, observed, now, v, x);
    case Timer(now) =>
      ScanSound(cfg, lane.(deadline := 0), |lane.chans|, now, v, x);
      PassExhaustion(cfg, lane.(deadline := 0), |lane.chans|, now, v);
    case Shutdown(now) =>
      FlushSound(cfg, lane, |lane.chans|, now, v, x);
      PassExhaustion(cfg, lane, |lane.chans|, now, v);
  }

  lemma {:induction false} PassExhaustion(cfg: Config, lane: Lane, n: nat, now: nat, v: Verdicts)
    requires n <= |lane.chans|
    ensures Scan(cfg, lane, n, now, v).exhausted == lane.exhausted
    ensures Flush(cfg, lane, n, now, v).exhausted == lane.exhausted
  {
    if n > 0 { PassExhaustion(cfg, lane, n - 1, now, v); }
  }

  const ANY := Decoded(Tick(UnknownMarket, 0, 0, [], [], false, false, false, false, 0, 0, 0), false)

  /** Every reachable lane is sound: each channel's fields and publications agree with its
      own trace. */
  lemma {:induction false} RunKeeps(cfg: Config, inputs: seq<Input>, v: Verdicts)
    requires cfg.entries > 0 && ValidInputs(inputs)
    ensures Sound(cfg, Run(cfg, inputs, v))
  {
    if inputs != [] {
      RunKeeps(cfg, inputs[..|inputs| - 1], v);
      StepSound(cfg, Run(cfg, inputs[..|inputs| - 1], v), inputs[|inputs| - 1], v, ANY);
    }
  }
}
