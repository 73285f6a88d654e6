/** No record is lost, duplicated or made up: on every channel of every run, whatever the
    sinks answer and whichever other channels the lane had no room for. */
module Conservation {
  import opened Canonical
  import opened Accounting
  import opened LaneSpec
  import opened ChannelIndex
  import opened TraceTheorems
  import opened OneChannel

  predicate PresentFor(lane: Lane, x: Decoded) {
    Present(lane, x.tick.market, x.tick.channel)
  }

  lemma {:induction false} HandedIsGiven(inputs: seq<Input>, x: Decoded)
    requires Handed(inputs, x) > 0
    ensures x in OnChannel(inputs, x.tick.market, x.tick.channel)
  {
    if HandedBy(inputs[|inputs| - 1], x) == 0 {
      HandedIsGiven(inputs[..|inputs| - 1], x);
    }
  }

  /** Once present, a channel refuses nothing and stays. */
  lemma PresentStep(cfg: Config, lane: Lane, input: Input, v: Verdicts, x: Decoded)
    requires cfg.entries > 0 && Sound(cfg, lane) && ValidInput(input) && PresentFor(lane, x)
    ensures var r := Step(cfg, lane, input, v);
      PresentFor(r, x) && AccountedIn(r, x) == AccountedIn(lane, x) + HandedBy(input, x)
  {
    StepSound(cfg, lane, input, v, x);
    StepKeepsIndex(cfg, lane, input, v, x.tick.market, x.tick.channel);
  }

  /** A channel that is absent after the step, or created by it. */
  lemma AbsentStep(cfg: Config, lane: Lane, input: Input, v: Verdicts, x: Decoded)
    requires cfg.entries > 0 && Sound(cfg, lane) && ValidInput(input) && !PresentFor(lane, x)
    ensures var r := Step(cfg, lane, input, v);
      && AccountedIn(r, x) == (if PresentFor(r, x) then HandedBy(input, x) else 0)
      && (PresentFor(r, x) ==> !Full(cfg, lane))
  {
    var r := Step(cfg, lane, input, v);
    StepSound(cfg, lane, input, v, x);
    StepCreates(cfg, lane, input, v);
    if PresentFor(r, x) {
      Appears(cfg, lane, input, v, x.tick.market, x.tick.channel);
    }
  }

  /** Every reachable lane is sound, and it conserves records: each record of a channel the
      lane has is accounted for exactly as often as it was handed in, and none of a channel
      it has not; so without a refusal every record is. */
  lemma {:induction false} RunSound(cfg: Config, inputs: seq<Input>, v: Verdicts, x: Decoded)
    requires cfg.entries > 0 && ValidInputs(inputs)
    ensures var lane := Run(cfg, inputs, v);
      && Sound(cfg, lane)
      && AccountedIn(lane, x) == (if PresentFor(lane, x) then Handed(inputs, x) else 0)
      && (!lane.exhausted ==> AccountedIn(lane, x) == Handed(inputs, x))
  {
    RunKeeps(cfg, inputs, v);
    if !PresentFor(Run(cfg, inputs, v), x) && Handed(inputs, x) > 0 {
      AbsentHeardNothing(cfg, inputs, v, x.tick.market, x.tick.channel);
      HandedIsGiven(inputs, x);
    }
    if inputs != [] {
      var earlier, last := inputs[..|inputs| - 1], inputs[|inputs| - 1];
      var before := Run(cfg, earlier, v);
      RunSound(cfg, earlier, v, x);
      if PresentFor(before, x) {
        PresentStep(cfg, before, last, v, x);
      } else {
        AbsentStep(cfg, before, last, v, x);
        AbsentHeardNothing(cfg, earlier, v, x.tick.market, x.tick.channel);
        if Handed(earlier, x) > 0 { HandedIsGiven(earlier, x); }
      }
    }
  }

  /** A run ended by Shutdown retains records only on frozen channels: of every other channel
      each record was emitted, diverted or counted as often as it was handed in. */
  lemma ShutdownDrains(cfg: Config, inputs: seq<Input>, now: nat, v: Verdicts, x: Decoded)
    requires cfg.entries > 0 && ValidInputs(inputs)
    ensures var lane := Run(cfg, inputs + [Shutdown(now)], v); var c := Found(cfg, lane, x.tick.market, x.tick.channel);
      PresentFor(lane, x) && !c.frozen ==> c.pending == map[] && Disposals(c.books.trace, x) == Handed(inputs, x)
  {
    var all := inputs + [Shutdown(now)];
    assert all[..|inputs|] == inputs;
    RunSound(cfg, all, v, x);
    var before := Run(cfg, inputs, v);
    FlushEmpties(cfg, before, |before.chans|, now, v);
  }

  /** A channel publishes only records that the lane was given for it. */
  lemma EmittedWasGiven(cfg: Config, inputs: seq<Input>, v: Verdicts, market: Market, channel: nat, x: Decoded)
    requires cfg.entries > 0 && ValidInputs(inputs) && Present(Run(cfg, inputs, v), market, channel)
    requires EmittedTimes(Found(cfg, Run(cfg, inputs, v), market, channel).books.trace, x) > 0
    ensures x in OnChannel(inputs, market, channel)
  {
    var c := Found(cfg, Run(cfg, inputs, v), market, channel);
    RunSound(cfg, inputs, v, x);
    PublishesOwn(cfg, inputs, v, market, channel);
    EmittedIsNamed(cfg.mode, c.id, Clocks(inputs), c.books.trace, x);
    HandedIsGiven(inputs, x);
  }
}
