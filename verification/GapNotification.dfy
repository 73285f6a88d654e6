/** The coalescing notification of gap mailboxes: producers store a token and then set a
    dirty bit; one consumer exchanges words of dirty bits into its own pending word and
    takes snapshots bit by bit. Each atomic access is a step; the theorem is that no
    interleaving loses a notification. What a snapshot copies is GapMailbox's subject. */
module GapNotification {

  const MAXIMUM_ATTEMPTS := 8

  /** Where a producer is in PublishGap: `Notifies` is between the token store and the
      fetch_or of its dirty bit. */
  datatype Producer = Rests | Notifies(slot: nat)

  /** Where the consumer is in TryPollGap, per bit. `Loaded` holds the token read before
      the recheck, `Confirmed` the token that passed it. */
  datatype Consumer =
    | Between
    | Handles(slot: nat, attempt: nat)
    | Loaded(slot: nat, attempt: nat, before: nat)
    | Confirmed(slot: nat, before: nat)

  /** Generations published and delivered per slot; 0 is none. */
  datatype State = State(
    published: seq<nat>,
    delivered: seq<nat>,
    dirty: set<nat>,
    pending: set<nat>,
    producers: seq<Producer>,
    consumer: Consumer)

  /** Which word a slot's bit is in. */
  type Layout = nat -> nat

  datatype Move =
    | Stores(producer: nat, slot: nat)
    | SetsBit(producer: nat)
    | Exchanges(word: nat)
    | Takes(slot: nat)
    | Loads
    | Checks
    | Finishes

  predicate Enabled(s: State, word: Layout, m: Move) {
    match m
    case Stores(p, slot) => p < |s.producers| && s.producers[p].Rests? && slot < |s.published|
    case SetsBit(p) => p < |s.producers| && s.producers[p].Notifies?
    case Exchanges(w) => s.consumer.Between? && forall slot :: slot in s.pending ==> word(slot) != w
    case Takes(slot) => s.consumer.Between? && slot in s.pending
    case Loads => s.consumer.Handles? && s.consumer.slot < |s.published|
    case Checks => s.consumer.Loaded? && s.consumer.slot < |s.published|
    case Finishes => s.consumer.Confirmed? && s.consumer.slot < |s.delivered|
  }

  function InWord(bits: set<nat>, word: Layout, w: nat): set<nat> {
    set slot | slot in bits && word(slot) == w
  }

  function Apply(s: State, word: Layout, m: Move): State
    requires Enabled(s, word, m)
  {
    match m
    case Stores(p, slot) =>
      s.(published := s.published[slot := s.published[slot] + 1], producers := s.producers[p := Notifies(slot)])
    case SetsBit(p) =>
      s.(dirty := s.dirty + {s.producers[p].slot}, producers := s.producers[p := Rests])
    case Exchanges(w) =>
      s.(pending := s.pending + InWord(s.dirty, word, w), dirty := s.dirty - InWord(s.dirty, word, w))
    case Takes(slot) => s.(pending := s.pending - {slot}, consumer := Handles(slot, 0))
    case Loads => s.(consumer := Loaded(s.consumer.slot, s.consumer.attempt, s.published[s.consumer.slot]))
    case Checks =>
      var Loaded(slot, attempt, before) := s.consumer;
      if s.published[slot] == before then s.(consumer := Confirmed(slot, before))
      else if attempt + 1 < MAXIMUM_ATTEMPTS then s.(consumer := Handles(slot, attempt + 1))
      else s.(consumer := Between, pending := s.pending + {slot})
    case Finishes =>
      s.(consumer := Between, delivered := s.delivered[s.consumer.slot := s.consumer.before])
  }

  // ---- nothing is lost -----------------------------------------------------------

  predicate Notifying(producers: seq<Producer>, slot: nat) {
    exists p :: 0 <= p < |producers| && producers[p] == Notifies(slot)
  }

  /** The consumer is at this slot and has not yet read past its newest token. */
  predicate Handling(s: State, slot: nat)
    requires slot < |s.published|
  {
    match s.consumer
    case Between => false
    case Handles(at, _) => at == slot
    case Loaded(at, _, before) => at == slot && before == s.published[slot]
    case Confirmed(at, before) => at == slot && before == s.published[slot]
  }

  /** An undelivered publication is on its way to the consumer. */
  predicate Safe(s: State, slot: nat)
    requires slot < |s.published| == |s.delivered|
  {
    && s.delivered[slot] <= s.published[slot]
    && (s.published[slot] == s.delivered[slot] || slot in s.dirty || slot in s.pending
        || Notifying(s.producers, slot) || Handling(s, slot))
  }

  /** The token in the consumer's hand is not older than what it delivered last. */
  predicate InHand(s: State) {
    s.consumer.Loaded? || s.consumer.Confirmed? ==>
      && s.consumer.slot < |s.published| == |s.delivered|
      && s.delivered[s.consumer.slot] <= s.consumer.before <= s.published[s.consumer.slot]
  }

  predicate Named(s: State, slot: nat) {
    slot in s.dirty || slot in s.pending ==> slot < |s.published|
  }

  ghost predicate NothingLost(s: State) {
    && |s.published| == |s.delivered|
    && (forall slot :: 0 <= slot < |s.published| ==> Safe(s, slot))
    && (forall slot :: Named(s, slot))
    && (forall p :: 0 <= p < |s.producers| && s.producers[p].Notifies? ==> s.producers[p].slot < |s.published|)
    && (!s.consumer.Between? ==> s.consumer.slot < |s.published|) && InHand(s)
  }

  lemma StillNotifying(producers: seq<Producer>, p: nat, pc: Producer, slot: nat)
    requires p < |producers| && producers[p] != Notifies(slot)
    ensures Notifying(producers, slot) ==> Notifying(producers[p := pc], slot)
  {
    if Notifying(producers, slot) {
      var q :| 0 <= q < |producers| && producers[q] == Notifies(slot);
      assert producers[p := pc][q] == Notifies(slot);
    }
  }

  lemma MoveKeepsSlot(s: State, word: Layout, m: Move, slot: nat)
    requires NothingLost(s) && Enabled(s, word, m) && slot < |s.published|
    ensures Safe(Apply(s, word, m), slot)
  {
    assert Safe(s, slot);
    var r := Apply(s, word, m);
    match m
    case Stores(p, at) =>
      assert r.producers[p] == Notifies(at);
      if at != slot { StillNotifying(s.producers, p, Notifies(at), slot); }
    case SetsBit(p) =>
      if s.producers[p].slot != slot { StillNotifying(s.producers, p, Rests, slot); }
    case _ =>
  }

  lemma MoveKeeps(s: State, word: Layout, m: Move)
    requires NothingLost(s) && Enabled(s, word, m)
    ensures NothingLost(Apply(s, word, m))
  {
    var r := Apply(s, word, m);
    forall slot | 0 <= slot < |r.published| ensures Safe(r, slot) {
      MoveKeepsSlot(s, word, m, slot);
    }
    if m.Takes? { assert Named(s, m.slot); }
    if m.Loads? { assert Safe(s, s.consumer.slot); }
    forall slot ensures Named(r, slot) {
      assert Named(s, slot);
    }
  }

  // ---- every interleaving -----------------------------------------------------------

  function Start(slots: nat, producers: nat): State {
    State(seq(slots, _ => 0), seq(slots, _ => 0), {}, {}, seq(producers, _ => Rests), Between)
  }

  /** The state after these moves; a move that is not enabled does nothing. */
  function Run(slots: nat, producers: nat, word: Layout, moves: seq<Move>): State {
    if moves == [] then Start(slots, producers)
    else
      var s := Run(slots, producers, word, moves[..|moves| - 1]);
      var m := moves[|moves| - 1];
      if Enabled(s, word, m) then Apply(s, word, m) else s
  }

  lemma {:induction false} NeverLost(slots: nat, producers: nat, word: Layout, moves: seq<Move>)
    ensures NothingLost(Run(slots, producers, word, moves))
  {
    if moves != [] {
      NeverLost(slots, producers, word, moves[..|moves| - 1]);
      var s := Run(slots, producers, word, moves[..|moves| - 1]);
      if Enabled(s, word, moves[|moves| - 1]) {
        MoveKeeps(s, word, moves[|moves| - 1]);
      }
    }
  }

  /** When every producer rests and no bit is left, everything published was delivered. */
  lemma QuietMeansDelivered(slots: nat, producers: nat, word: Layout, moves: seq<Move>, slot: nat)
    requires var s := Run(slots, producers, word, moves);
      && s.dirty == {} && s.pending == {} && s.consumer.Between?
      && (forall p :: 0 <= p < |s.producers| ==> s.producers[p].Rests?)
      && slot < |s.published|
    ensures var s := Run(slots, producers, word, moves);
      slot < |s.delivered| && s.delivered[slot] == s.published[slot]
  {
    NeverLost(slots, producers, word, moves);
    assert Safe(Run(slots, producers, word, moves), slot);
  }
}
