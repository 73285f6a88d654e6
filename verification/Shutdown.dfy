/** Shutting the engine down while callbacks are still coming in: closing the gate,
    waiting for the callback in progress, clearing `running`, and the workers' exit test.
    Any number of threads may call Admit and Stop; each access to shared state is one
    step. The theorem: when a worker has exited and the callers have returned, it has consumed
    exactly the messages that Admit reported as accepted on its lane, in that order. A lane is
    the queue that module SlotCycle shows it to be. */
module Shutdown {

  /** Where a thread is in Admit. `Inside` holds the callback flag; the two loads of the
      gate follow, then the checks that need no shared state, then the publication. */
  datatype Caller =
    | Outside
    | Inside
    | GateOpen
    | Admitted
    | Leaving(accepted: bool, lane: nat, message: nat)

  /** Where a thread is in Stop. */
  datatype Stopper = Idle | Awaits | Clears | Joins

  /** Where a lane's worker is in its loop. */
  datatype Worker = Tries | Works(message: nat) | FoundNothing | SawStopped | Exited

  /** `begun` once Start has opened the gate or given up. `pushed`, `consumed` and
      `accepted` are histories of each lane; `accepted` lists the messages for which Admit
      has returned kAccepted. */
  datatype State = State(
    begun: bool,
    accepting: bool,
    running: bool,
    callbackActive: bool,
    callers: seq<Caller>,
    stoppers: seq<Stopper>,
    workers: seq<Worker>,
    queues: seq<seq<nat>>,
    pushed: seq<seq<nat>>,
    consumed: seq<seq<nat>>,
    accepted: seq<seq<nat>>)

  datatype Move =
    | Opens
    | GivesUp
    | Fails
    | Calls(caller: nat, rejects: bool, lane: nat, message: nat)
    | Stops(stopper: nat)
    | WorksOn(lane: nat)

  /** One step of a thread in Admit: `rejects` is the outcome of the checks on the message
      itself, and of a full lane. */
  function CallerStep(s: State, i: nat, rejects: bool, lane: nat, message: nat): State
    requires i < |s.callers| && lane < |s.queues| == |s.pushed|
  {
    match s.callers[i]
    case Outside =>
      if s.callbackActive then s.(accepting := false)
      else s.(callbackActive := true, callers := s.callers[i := Inside])
    case Inside =>
      s.(callers := s.callers[i := if s.accepting then GateOpen else Leaving(false, lane, message)])
    case GateOpen =>
      s.(callers := s.callers[i := if s.running then Admitted else Leaving(false, lane, message)])
    case Admitted =>
      if rejects then s.(callers := s.callers[i := Leaving(false, lane, message)])
      else s.(queues := s.queues[lane := s.queues[lane] + [message]],
              pushed := s.pushed[lane := s.pushed[lane] + [message]],
              callers := s.callers[i := Leaving(true, lane, message)])
    case Leaving(accepted, at, m) =>
      s.(callbackActive := false, callers := s.callers[i := Outside],
         accepted := if accepted && at < |s.accepted| then s.accepted[at := s.accepted[at] + [m]] else s.accepted)
  }

  /** One step of a thread in Stop; waiting threads re-read the callback flag. */
  function StopperStep(s: State, i: nat): State
    requires i < |s.stoppers|
  {
    match s.stoppers[i]
    case Idle => if s.begun then s.(accepting := false, stoppers := s.stoppers[i := Awaits]) else s
    case Awaits => if s.callbackActive then s else s.(stoppers := s.stoppers[i := Clears])
    case Clears => s.(running := false, stoppers := s.stoppers[i := Joins])
    case Joins => s
  }

  function WorkerStep(s: State, i: nat): State
    requires i < |s.workers| == |s.queues| == |s.consumed|
  {
    match s.workers[i]
    case Tries =>
      if s.queues[i] == [] then s.(workers := s.workers[i := FoundNothing])
      else s.(queues := s.queues[i := s.queues[i][1..]], workers := s.workers[i := Works(s.queues[i][0])])
    case Works(m) =>
      s.(consumed := s.consumed[i := s.consumed[i] + [m]], workers := s.workers[i := Tries])
    case FoundNothing => s.(workers := s.workers[i := if s.running then Tries else SawStopped])
    case SawStopped => s.(workers := s.workers[i := if s.queues[i] == [] then Exited else Tries])
    case Exited => s
  }

  predicate Enabled(s: State, m: Move) {
    && |s.workers| == |s.queues| == |s.pushed| == |s.consumed| == |s.accepted|
    && match m
       case Calls(i, _, lane, _) => i < |s.callers| && lane < |s.queues|
       case Stops(i) => i < |s.stoppers|
       case WorksOn(i) => i < |s.workers|
       case _ => true
  }

  function Apply(s: State, m: Move): State
    requires Enabled(s, m)
  {
    match m
    case Opens => if s.begun then s else s.(begun := true, accepting := true)
    case GivesUp => s.(begun := true)
    case Fails => s.(accepting := false)
    case Calls(i, rejects, lane, message) => CallerStep(s, i, rejects, lane, message)
    case Stops(i) => StopperStep(s, i)
    case WorksOn(i) => WorkerStep(s, i)
  }

  // ---- invariant ------------------------------------------------------------------

  /** The thread has seen the gate open and may still publish. */
  predicate Committed(c: Caller) {
    c.GateOpen? || c.Admitted?
  }

  predicate CallerInv(c: Caller, active: bool, running: bool, lanes: nat) {
    && (!c.Outside? ==> active)
    && (Committed(c) ==> running)
    && (c.Leaving? && c.accepted ==> c.lane < lanes)
  }

  predicate CallerOk(callers: seq<Caller>, active: bool, running: bool, lanes: nat, i: nat)
    requires i < |callers|
  {
    CallerInv(callers[i], active, running, lanes)
  }

  predicate Alone(callers: seq<Caller>, i: nat, j: nat)
    requires i < |callers| && j < |callers|
  {
    callers[i].Outside? || callers[j].Outside?
  }

  /** The callback flag is held by the one thread inside. */
  predicate CallersInv(callers: seq<Caller>, active: bool, running: bool, lanes: nat) {
    && (forall i :: 0 <= i < |callers| ==> CallerOk(callers, active, running, lanes, i))
    && (forall i, j :: 0 <= i < |callers| && 0 <= j < |callers| && i != j ==> Alone(callers, i, j))
  }

  predicate Quiet(callers: seq<Caller>) {
    forall i :: 0 <= i < |callers| ==> !Committed(callers[i])
  }

  /** Past the wait, no thread that saw the gate open is left. */
  predicate StoppersInv(stoppers: seq<Stopper>, begun: bool, accepting: bool, quiet: bool) {
    forall i :: 0 <= i < |stoppers| && !stoppers[i].Idle? ==>
      begun && !accepting && (!stoppers[i].Awaits? ==> quiet)
  }

  function InWork(w: Worker): seq<nat> {
    if w.Works? then [w.message] else []
  }

  /** What was pushed is consumed, in work or queued, in this order. */
  predicate WorkerInv(w: Worker, queue: seq<nat>, pushed: seq<nat>, consumed: seq<nat>, running: bool) {
    && pushed == consumed + InWork(w) + queue
    && (w.SawStopped? ==> !running)
    && (w.Exited? ==> !running && queue == [])
  }

  predicate LaneInv(s: State, running: bool, i: nat)
    requires i < |s.workers| == |s.queues| == |s.pushed| == |s.consumed|
  {
    WorkerInv(s.workers[i], s.queues[i], s.pushed[i], s.consumed[i], running)
  }

  predicate WorkersInv(s: State) {
    && |s.workers| == |s.queues| == |s.pushed| == |s.consumed|
    && forall i :: 0 <= i < |s.workers| ==> LaneInv(s, s.running, i)
  }

  /** The lanes are judged by these parts of the state only. */
  lemma SameLanes(s: State, r: State)
    requires WorkersInv(s) && (!s.running ==> !r.running)
    requires r.workers == s.workers && r.queues == s.queues && r.pushed == s.pushed && r.consumed == s.consumed
    ensures WorkersInv(r)
  {
    forall i | 0 <= i < |r.workers| ensures LaneInv(r, r.running, i) { assert LaneInv(s, s.running, i); }
  }

  /** What this caller has published on the lane and is about to report as accepted. */
  function Flight(c: Caller, lane: nat): seq<nat> {
    if c.Leaving? && c.accepted && c.lane == lane then [c.message] else []
  }

  function InFlight(callers: seq<Caller>, lane: nat): seq<nat> {
    if callers == [] then [] else InFlight(callers[..|callers| - 1], lane) + Flight(callers[|callers| - 1], lane)
  }

  /** Exactly what was pushed on the lane is reported as accepted, or is about to be. */
  predicate Reported(callers: seq<Caller>, pushed: seq<seq<nat>>, accepted: seq<seq<nat>>, lane: nat)
    requires lane < |pushed| == |accepted|
  {
    pushed[lane] == accepted[lane] + InFlight(callers, lane)
  }

  predicate AllReported(callers: seq<Caller>, pushed: seq<seq<nat>>, accepted: seq<seq<nat>>) {
    |pushed| == |accepted| && forall lane :: 0 <= lane < |pushed| ==> Reported(callers, pushed, accepted, lane)
  }

  predicate Inv(s: State) {
    && CallersInv(s.callers, s.callbackActive, s.running, |s.pushed|)
    && StoppersInv(s.stoppers, s.begun, s.accepting, Quiet(s.callers))
    && WorkersInv(s)
    && AllReported(s.callers, s.pushed, s.accepted)
    && (!s.running ==> s.begun && !s.accepting && Quiet(s.callers))
  }

  // ---- every step keeps it -----------------------------------------------------------

  lemma CallerMoved(
    callers: seq<Caller>, i: nat, c: Caller, before: bool, active: bool, running: bool, lanes: nat)
    requires i < |callers| && CallersInv(callers, before, running, lanes)
    requires CallerInv(c, active, running, lanes)
    requires before && !active ==> !callers[i].Outside?
    requires callers[i].Outside? && !c.Outside? ==> !before
    ensures CallersInv(callers[i := c], active, running, lanes)
  {
    var callers' := callers[i := c];
    forall j | 0 <= j < |callers'| ensures CallerOk(callers', active, running, lanes, j) {
      if j != i { assert Alone(callers, i, j) && CallerOk(callers, before, running, lanes, j); }
    }
    forall j, k | 0 <= j < |callers'| && 0 <= k < |callers'| && j != k ensures Alone(callers', j, k) {
      assert Alone(callers, j, k);
      assert CallerOk(callers, before, running, lanes, j) && CallerOk(callers, before, running, lanes, k);
    }
  }

  /** All callers but this one are outside Admit. */
  predicate OthersOutside(callers: seq<Caller>, i: nat) {
    forall j :: 0 <= j < |callers| && j != i ==> callers[j].Outside?
  }

  lemma OthersAre(callers: seq<Caller>, active: bool, running: bool, lanes: nat, i: nat)
    requires i < |callers| && CallersInv(callers, active, running, lanes)
    requires callers[i].Outside? ==> !active
    ensures OthersOutside(callers, i)
  {
    forall j | 0 <= j < |callers| && j != i ensures callers[j].Outside? {
      assert Alone(callers, i, j) && CallerOk(callers, active, running, lanes, j);
    }
  }

  /** Only the caller inside Admit has anything in flight. */
  lemma {:induction false} OnlyFlight(callers: seq<Caller>, i: nat, lane: nat)
    requires OthersOutside(callers, i)
    ensures InFlight(callers, lane) == if i < |callers| then Flight(callers[i], lane) else []
  {
    if callers != [] {
      OnlyFlight(callers[..|callers| - 1], i, lane);
    }
  }

  lemma FlightMoved(callers: seq<Caller>, i: nat, c: Caller, lane: nat)
    requires i < |callers| && OthersOutside(callers, i)
    ensures InFlight(callers, lane) == Flight(callers[i], lane)
    ensures InFlight(callers[i := c], lane) == Flight(c, lane)
  {
    OnlyFlight(callers, i, lane);
    OnlyFlight(callers[i := c], i, lane);
  }

  /** From `pushed` to `accepted` by way of `flight`: nothing happens, a message is pushed and
      now in flight, or what was in flight is reported. */
  predicate HandedOver(
    pushed: seq<nat>, accepted: seq<nat>, flight: seq<nat>, pushed': seq<nat>, accepted': seq<nat>, flight': seq<nat>)
  {
    || (pushed' == pushed && accepted' == accepted && flight' == flight)
    || (flight == [] && pushed' == pushed + flight' && accepted' == accepted)
    || (flight' == [] && pushed' == pushed && accepted' == accepted + flight)
  }

  lemma HandsOver(s: State, i: nat, rejects: bool, lane: nat, message: nat, at: nat)
    requires i < |s.callers| && lane < |s.queues| == |s.pushed| == |s.accepted| && at < |s.pushed|
    requires CallerInv(s.callers[i], s.callbackActive, s.running, |s.pushed|)
    ensures var r := CallerStep(s, i, rejects, lane, message);
      && |r.pushed| == |s.pushed| && |r.accepted| == |s.accepted|
      && |r.callers| == |s.callers| && r.callers == s.callers[i := r.callers[i]]
      && HandedOver(s.pushed[at], s.accepted[at], Flight(s.callers[i], at),
                    r.pushed[at], r.accepted[at], Flight(r.callers[i], at))
  {
  }

  lemma StillReported(
    pushed: seq<nat>, accepted: seq<nat>, flight: seq<nat>, pushed': seq<nat>, accepted': seq<nat>, flight': seq<nat>)
    requires pushed == accepted + flight && HandedOver(pushed, accepted, flight, pushed', accepted', flight')
    ensures pushed' == accepted' + flight'
  {
  }

  lemma ReportAt(s: State, i: nat, rejects: bool, lane: nat, message: nat, at: nat)
    requires i < |s.callers| && lane < |s.queues| == |s.pushed| == |s.accepted| && at < |s.pushed|
    requires CallerInv(s.callers[i], s.callbackActive, s.running, |s.pushed|)
    requires OthersOutside(s.callers, i) && Reported(s.callers, s.pushed, s.accepted, at)
    ensures var r := CallerStep(s, i, rejects, lane, message);
      |r.pushed| == |r.accepted| == |s.pushed| && Reported(r.callers, r.pushed, r.accepted, at)
  {
    var r := CallerStep(s, i, rejects, lane, message);
    HandsOver(s, i, rejects, lane, message, at);
    FlightMoved(s.callers, i, r.callers[i], at);
    StillReported(s.pushed[at], s.accepted[at], Flight(s.callers[i], at),
                  r.pushed[at], r.accepted[at], Flight(r.callers[i], at));
  }

  lemma ReportMoved(s: State, i: nat, rejects: bool, lane: nat, message: nat)
    requires Inv(s) && i < |s.callers| && lane < |s.queues|
    requires CallerStep(s, i, rejects, lane, message).callers != s.callers
    ensures var r := CallerStep(s, i, rejects, lane, message); AllReported(r.callers, r.pushed, r.accepted)
  {
    var r := CallerStep(s, i, rejects, lane, message);
    OthersAre(s.callers, s.callbackActive, s.running, |s.pushed|, i);
    assert CallerOk(s.callers, s.callbackActive, s.running, |s.pushed|, i);
    forall at | 0 <= at < |r.pushed| ensures Reported(r.callers, r.pushed, r.accepted, at) {
      assert Reported(s.callers, s.pushed, s.accepted, at);
      ReportAt(s, i, rejects, lane, message, at);
    }
  }

  lemma QuietMoved(callers: seq<Caller>, i: nat, c: Caller)
    requires i < |callers| && (Committed(c) ==> Committed(callers[i]))
    ensures Quiet(callers) ==> Quiet(callers[i := c])
  {
    if Quiet(callers) {
      var callers' := callers[i := c];
      forall j | 0 <= j < |callers'| ensures !Committed(callers'[j]) {
        assert !Committed(callers[j]);
      }
    }
  }

  lemma PushKeeps(s: State, i: nat, lane: nat, message: nat)
    requires Inv(s) && i < |s.callers| && s.callers[i].Admitted? && lane < |s.queues|
    ensures Inv(CallerStep(s, i, false, lane, message))
  {
    var r := CallerStep(s, i, false, lane, message);
    assert CallerOk(s.callers, s.callbackActive, s.running, |s.pushed|, i);
    forall j | 0 <= j < |s.workers| ensures LaneInv(r, r.running, j) { assert LaneInv(s, s.running, j); }
    CallerMoved(s.callers, i, Leaving(true, lane, message), true, true, s.running, |s.pushed|);
    QuietMoved(s.callers, i, Leaving(true, lane, message));
    ReportMoved(s, i, false, lane, message);
  }

  lemma CallerKeeps(s: State, i: nat, rejects: bool, lane: nat, message: nat)
    requires Inv(s) && i < |s.callers| && lane < |s.queues|
    ensures Inv(CallerStep(s, i, rejects, lane, message))
  {
    var r := CallerStep(s, i, rejects, lane, message);
    assert CallerOk(s.callers, s.callbackActive, s.running, |s.pushed|, i);
    if s.callers[i].Admitted? && !rejects {
      PushKeeps(s, i, lane, message);
    } else if r.callers != s.callers {
      CallerMoved(s.callers, i, r.callers[i], s.callbackActive, r.callbackActive, s.running, |s.pushed|);
      if !r.accepting { QuietMoved(s.callers, i, r.callers[i]); }
      ReportMoved(s, i, rejects, lane, message);
      SameLanes(s, r);
    } else {
      SameLanes(s, r);
    }
  }

  lemma StopperKeeps(s: State, i: nat)
    requires Inv(s) && i < |s.stoppers|
    ensures Inv(StopperStep(s, i))
  {
    SameLanes(s, StopperStep(s, i));
    if s.stoppers[i].Awaits? && !s.callbackActive {
      forall j | 0 <= j < |s.callers| ensures !Committed(s.callers[j]) {
        assert CallerOk(s.callers, s.callbackActive, s.running, |s.pushed|, j);
      }
    } else if s.stoppers[i].Clears? {
      forall j | 0 <= j < |s.callers| ensures CallerOk(s.callers, s.callbackActive, false, |s.pushed|, j) {
        assert CallerOk(s.callers, s.callbackActive, s.running, |s.pushed|, j);
      }
    }
  }

  lemma TakesNext(queue: seq<nat>, pushed: seq<nat>, consumed: seq<nat>)
    requires queue != [] && pushed == consumed + [] + queue
    ensures pushed == consumed + [queue[0]] + queue[1..]
  {
  }

  lemma Completes(queue: seq<nat>, pushed: seq<nat>, consumed: seq<nat>, m: nat)
    requires pushed == consumed + [m] + queue
    ensures pushed == consumed + [m] + [] + queue
  {
  }

  lemma WorkerKeeps(s: State, i: nat)
    requires Inv(s) && i < |s.workers|
    ensures Inv(WorkerStep(s, i))
  {
    var r := WorkerStep(s, i);
    assert LaneInv(s, s.running, i);
    if s.workers[i].Tries? && s.queues[i] != [] {
      TakesNext(s.queues[i], s.pushed[i], s.consumed[i]);
    } else if s.workers[i].Works? {
      Completes(s.queues[i], s.pushed[i], s.consumed[i], s.workers[i].message);
    }
    forall j | 0 <= j < |r.workers| ensures LaneInv(r, r.running, j) { assert LaneInv(s, s.running, j); }
  }

  lemma MoveKeeps(s: State, m: Move)
    requires Inv(s) && Enabled(s, m)
    ensures Inv(Apply(s, m))
  {
    match m
    case Calls(i, rejects, lane, message) => CallerKeeps(s, i, rejects, lane, message);
    case Stops(i) => StopperKeeps(s, i);
    case WorksOn(i) => WorkerKeeps(s, i);
    case _ => SameLanes(s, Apply(s, m));
  }

  // ---- every interleaving ------------------------------------------------------------

  function Start(lanes: nat, callers: nat, stoppers: nat): State {
    State(false, false, true, false, seq(callers, _ => Outside), seq(stoppers, _ => Idle),
          seq(lanes, _ => Tries), seq(lanes, _ => []), seq(lanes, _ => []), seq(lanes, _ => []), seq(lanes, _ => []))
  }

  function Run(lanes: nat, callers: nat, stoppers: nat, moves: seq<Move>): State {
    if moves == [] then Start(lanes, callers, stoppers)
    else
      var s := Run(lanes, callers, stoppers, moves[..|moves| - 1]);
      var m := moves[|moves| - 1];
      if Enabled(s, m) then Apply(s, m) else s
  }

  /** No caller is inside Admit. */
  predicate AllOutside(callers: seq<Caller>) {
    forall i :: 0 <= i < |callers| ==> callers[i].Outside?
  }

  lemma StartInv(lanes: nat, callers: nat, stoppers: nat)
    ensures Inv(Start(lanes, callers, stoppers))
  {
    var s := Start(lanes, callers, stoppers);
    forall lane | 0 <= lane < lanes ensures Reported(s.callers, s.pushed, s.accepted, lane) {
      OnlyFlight(s.callers, callers, lane);
    }
  }

  lemma {:induction false} RunInv(lanes: nat, callers: nat, stoppers: nat, moves: seq<Move>)
    ensures Inv(Run(lanes, callers, stoppers, moves))
  {
    if moves == [] {
      StartInv(lanes, callers, stoppers);
    } else {
      RunInv(lanes, callers, stoppers, moves[..|moves| - 1]);
      var s := Run(lanes, callers, stoppers, moves[..|moves| - 1]);
      if Enabled(s, moves[|moves| - 1]) {
        MoveKeeps(s, moves[|moves| - 1]);
      }
    }
  }

  /** In every interleaving and at any time: the messages pushed on a lane are those that
      Admit has reported as accepted, in order, and then the one a caller is about to. */
  lemma PushedIsReported(lanes: nat, callers: nat, stoppers: nat, moves: seq<Move>, lane: nat)
    requires lane < |Run(lanes, callers, stoppers, moves).pushed|
    ensures var s := Run(lanes, callers, stoppers, moves);
      && lane < |s.accepted| && s.pushed[lane] == s.accepted[lane] + InFlight(s.callers, lane)
      && |InFlight(s.callers, lane)| <= 1
      && (AllOutside(s.callers) ==> s.pushed[lane] == s.accepted[lane])
  {
    RunInv(lanes, callers, stoppers, moves);
    var s := Run(lanes, callers, stoppers, moves);
    assert Reported(s.callers, s.pushed, s.accepted, lane);
    if i :| 0 <= i < |s.callers| && !s.callers[i].Outside? {
      OthersAre(s.callers, s.callbackActive, s.running, |s.pushed|, i);
      OnlyFlight(s.callers, i, lane);
    } else {
      OnlyFlight(s.callers, |s.callers|, lane);
    }
  }

  /** In every interleaving: when a worker has exited, everything ever pushed on its lane
      was consumed, in order; that is everything that Admit reported as accepted there, and
      nothing else once the callers have returned. */
  lemma NothingStranded(lanes: nat, callers: nat, stoppers: nat, moves: seq<Move>, lane: nat)
    requires var s := Run(lanes, callers, stoppers, moves); lane < |s.workers| && s.workers[lane].Exited?
    ensures var s := Run(lanes, callers, stoppers, moves);
      && lane < |s.consumed| == |s.pushed| == |s.accepted|
      && s.consumed[lane] == s.pushed[lane] == s.accepted[lane] + InFlight(s.callers, lane)
      && (AllOutside(s.callers) ==> s.consumed[lane] == s.accepted[lane])
  {
    RunInv(lanes, callers, stoppers, moves);
    var s := Run(lanes, callers, stoppers, moves);
    assert LaneInv(s, s.running, lane);
    PushedIsReported(lanes, callers, stoppers, moves, lane);
  }

  /** Once `running` is cleared the gate stays shut: nothing is pushed any more. */
  lemma GateStaysShut(s: State, m: Move)
    requires Inv(s) && Enabled(s, m) && !s.running
    ensures !Apply(s, m).running && Apply(s, m).pushed == s.pushed
  {
    if m.Calls? { assert CallerOk(s.callers, s.callbackActive, s.running, |s.pushed|, m.caller); }
  }
}
