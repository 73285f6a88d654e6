/** The slots of a lane travel in a cycle: free list, producer's hand, ready ring,
    consumer's hand, recycle ring. The steps of producer and consumer interleave freely;
    a slot is always in exactly one place, so the rings never overflow and the consumer
    reads exactly the bytes published in its slot. The rings are the queues that module
    SpscRing shows them to be. */
module SlotCycle {
  import opened Counting

  /** A message as the words it is copied in. */
  type Message = seq<int>

  /** A slot: the size in its metadata and its part of the arena. */
  datatype Slot = Slot(size: nat, words: seq<int>)

  /** Where the producer is in TryPublish. */
  datatype Producer =
    | Rests
    | Drains(message: Message)
    | Sizes(index: nat, message: Message)
    | Fills(index: nat, message: Message, written: nat)

  /** Where the consumer is between TryConsume and Release. */
  datatype Consumer = Waits | Reads(index: nat, part: Message)

  datatype State = State(
    free: seq<nat>,
    ready: seq<nat>,
    recycled: seq<nat>,
    slots: seq<Slot>,
    producer: Producer,
    consumer: Consumer,
    sent: seq<Message>,
    received: seq<Message>,
    taken: nat,
    refused: bool)

  /** Slot count, bytes per slot, and the capacity of both rings. */
  datatype Shape = Shape(slots: nat, width: nat, capacity: nat)

  /** Ring capacities are the slot count rounded up to a power of two. */
  predicate ValidShape(sh: Shape) {
    sh.slots > 0 && sh.capacity >= sh.slots
  }

  /** The message is what an idle producer starts to publish. */
  datatype Move = Publisher(message: Message) | Reader

  // ---- invariant ------------------------------------------------------------------

  function InProducer(p: Producer, x: nat): nat {
    if (p.Sizes? || p.Fills?) && p.index == x then 1 else 0
  }

  function InConsumer(c: Consumer, x: nat): nat {
    if c.Reads? && c.index == x then 1 else 0
  }

  /** How many places slot x is in. */
  function Places(s: State, x: nat): nat {
    Count(s.free, x) + InProducer(s.producer, x) + Count(s.ready, x) + InConsumer(s.consumer, x) + Count(s.recycled, x)
  }

  predicate OnePlace(s: State, sh: Shape, x: nat) {
    Places(s, x) == if x < sh.slots then 1 else 0
  }

  function Hands(s: State): nat {
    (if s.producer.Sizes? || s.producer.Fills? then 1 else 0) + (if s.consumer.Reads? then 1 else 0)
  }

  predicate Carries(slot: Slot, message: Message) {
    slot.size == |message| <= |slot.words| && slot.words[..|message|] == message
  }

  predicate ReadyHolds(s: State, j: nat)
    requires j < |s.ready| && s.taken + j < |s.sent|
  {
    s.ready[j] < |s.slots| && Carries(s.slots[s.ready[j]], s.sent[s.taken + j])
  }

  predicate ProducerInv(s: State, sh: Shape) {
    match s.producer
    case Rests => true
    case Drains(message) => |message| <= sh.width
    case Sizes(index, message) => index < |s.slots| && |message| <= sh.width
    case Fills(index, message, k) =>
      && index < |s.slots| && k <= |message| <= sh.width
      && s.slots[index].size == |message| && |s.slots[index].words| == sh.width
      && s.slots[index].words[..k] == message[..k]
  }

  predicate ConsumerInv(s: State)
    requires s.taken <= |s.sent|
  {
    match s.consumer
    case Waits => s.received == s.sent[..s.taken]
    case Reads(index, part) =>
      && 0 < s.taken && s.received == s.sent[..s.taken - 1]
      && index < |s.slots| && Carries(s.slots[index], s.sent[s.taken - 1])
      && |part| <= |s.sent[s.taken - 1]| && part == s.sent[s.taken - 1][..|part|]
  }

  ghost predicate Inv(s: State, sh: Shape) {
    && ValidShape(sh) && !s.refused
    && |s.slots| == sh.slots && (forall i :: 0 <= i < |s.slots| ==> |s.slots[i].words| == sh.width)
    && (forall x: nat :: OnePlace(s, sh, x))
    && |s.free| + |s.ready| + |s.recycled| + Hands(s) == sh.slots
    && |s.sent| == s.taken + |s.ready|
    && (forall j :: 0 <= j < |s.ready| ==> ReadyHolds(s, j))
    && ProducerInv(s, sh)
    && s.taken <= |s.sent| && ConsumerInv(s)
  }

  // ---- steps ----------------------------------------------------------------------

  function PublisherStep(s: State, sh: Shape, message: Message): State
    requires s.producer.Sizes? || s.producer.Fills? ==> s.producer.index < |s.slots|
    requires s.producer.Fills? && s.producer.written < |s.producer.message| ==>
      s.producer.written < |s.slots[s.producer.index].words|
  {
    match s.producer
    case Rests => if |message| <= sh.width then s.(producer := Drains(message)) else s
    case Drains(m) =>
      if s.recycled != [] then s.(free := s.free + [s.recycled[0]], recycled := s.recycled[1..])
      else if s.free == [] then s.(producer := Rests)
      else s.(free := s.free[..|s.free| - 1], producer := Sizes(s.free[|s.free| - 1], m))
    case Sizes(i, m) => s.(slots := s.slots[i := s.slots[i].(size := |m|)], producer := Fills(i, m, 0))
    case Fills(i, m, k) =>
      if k < |m| then
        s.(slots := s.slots[i := s.slots[i].(words := s.slots[i].words[k := m[k]])], producer := Fills(i, m, k + 1))
      else if |s.ready| < sh.capacity then
        s.(ready := s.ready + [i], producer := Rests, sent := s.sent + [m])
      else s.(free := s.free + [i], producer := Rests, refused := true)
  }

  function ReaderStep(s: State, sh: Shape): State
    requires s.consumer.Reads? ==> s.consumer.index < |s.slots|
    requires s.consumer.Reads? && |s.consumer.part| < s.slots[s.consumer.index].size ==>
      |s.consumer.part| < |s.slots[s.consumer.index].words|
  {
    match s.consumer
    case Waits =>
      if s.ready == [] then s
      else s.(ready := s.ready[1..], consumer := Reads(s.ready[0], []), taken := s.taken + 1)
    case Reads(i, part) =>
      if |part| < s.slots[i].size then s.(consumer := Reads(i, part + [s.slots[i].words[|part|]]))
      else if |s.recycled| < sh.capacity then
        s.(recycled := s.recycled + [i], consumer := Waits, received := s.received + [part])
      else s.(refused := true)
  }

  // ---- every step keeps it -----------------------------------------------------------

  /** The slot in the producer's hand is nowhere else. */
  lemma HandIsApart(s: State, sh: Shape)
    requires Inv(s, sh) && (s.producer.Sizes? || s.producer.Fills?)
    ensures forall j :: 0 <= j < |s.ready| ==> s.ready[j] != s.producer.index
    ensures s.consumer.Reads? ==> s.consumer.index != s.producer.index
    ensures |s.ready| < sh.slots
  {
    assert OnePlace(s, sh, s.producer.index);
    forall j | 0 <= j < |s.ready| ensures s.ready[j] != s.producer.index {
      CountMember(s.ready, j);
    }
  }

  lemma DrainKeeps(s: State, sh: Shape)
    requires Inv(s, sh) && s.producer.Drains?
    ensures Inv(PublisherStep(s, sh, []), sh)
  {
    var r := PublisherStep(s, sh, []);
    forall x: nat ensures OnePlace(r, sh, x) {
      assert OnePlace(s, sh, x);
      if s.recycled != [] {
        CountPop(s.recycled, x);
        CountPush(s.free, s.recycled[0], x);
      }
    }
    if s.recycled == [] && s.free != [] {
      assert OnePlace(s, sh, r.producer.index);
    }
    forall j | 0 <= j < |r.ready| ensures ReadyHolds(r, j) {
      assert ReadyHolds(s, j);
    }
  }

  lemma FillKeeps(s: State, sh: Shape)
    requires Inv(s, sh) && (s.producer.Sizes? || (s.producer.Fills? && s.producer.written < |s.producer.message|))
    ensures Inv(PublisherStep(s, sh, []), sh)
  {
    var r := PublisherStep(s, sh, []);
    HandIsApart(s, sh);
    forall x: nat ensures OnePlace(r, sh, x) {
      assert OnePlace(s, sh, x);
    }
    forall j | 0 <= j < |r.ready| ensures ReadyHolds(r, j) {
      assert ReadyHolds(s, j);
    }
  }

  lemma OfferKeeps(s: State, sh: Shape)
    requires Inv(s, sh) && s.producer.Fills? && s.producer.written == |s.producer.message|
    ensures Inv(PublisherStep(s, sh, []), sh)
  {
    var r := PublisherStep(s, sh, []);
    HandIsApart(s, sh);
    forall x: nat ensures OnePlace(r, sh, x) {
      assert OnePlace(s, sh, x);
      CountPush(s.ready, s.producer.index, x);
    }
    forall j | 0 <= j < |r.ready| ensures ReadyHolds(r, j) {
      if j < |s.ready| { assert ReadyHolds(s, j); }
    }
  }

  lemma PublisherKeeps(s: State, sh: Shape, message: Message)
    requires Inv(s, sh)
    ensures Inv(PublisherStep(s, sh, message), sh)
  {
    match s.producer
    case Rests =>
      var r := PublisherStep(s, sh, message);
      forall x: nat ensures OnePlace(r, sh, x) { assert OnePlace(s, sh, x); }
      forall j | 0 <= j < |r.ready| ensures ReadyHolds(r, j) { assert ReadyHolds(s, j); }
    case Drains(_) => DrainKeeps(s, sh);
    case Sizes(_, _) => FillKeeps(s, sh);
    case Fills(_, m, k) => if k < |m| { FillKeeps(s, sh); } else { OfferKeeps(s, sh); }
  }

  lemma TakeKeeps(s: State, sh: Shape)
    requires Inv(s, sh) && s.consumer.Waits? && s.ready != []
    ensures Inv(ReaderStep(s, sh), sh)
  {
    var r := ReaderStep(s, sh);
    forall x: nat ensures OnePlace(r, sh, x) {
      assert OnePlace(s, sh, x);
      CountPop(s.ready, x);
    }
    assert ReadyHolds(s, 0);
    forall j | 0 <= j < |r.ready| ensures ReadyHolds(r, j) {
      assert ReadyHolds(s, j + 1);
    }
  }

  lemma ReaderKeeps(s: State, sh: Shape)
    requires Inv(s, sh)
    ensures Inv(ReaderStep(s, sh), sh)
  {
    var r := ReaderStep(s, sh);
    if s.consumer.Waits? {
      if s.ready != [] { TakeKeeps(s, sh); }
    } else {
      forall x: nat ensures OnePlace(r, sh, x) {
        assert OnePlace(s, sh, x);
        CountPush(s.recycled, s.consumer.index, x);
      }
      var message := s.sent[s.taken - 1];
      if |s.consumer.part| == |message| {
        assert s.consumer.part == message;
        assert s.sent[..s.taken] == s.sent[..s.taken - 1] + [message];
      }
      forall j | 0 <= j < |r.ready| ensures ReadyHolds(r, j) {
        assert ReadyHolds(s, j);
      }
    }
  }

  // ---- every interleaving ------------------------------------------------------------

  function Start(sh: Shape): State {
    State(Descending(sh.slots), [], [], seq(sh.slots, _ => Slot(0, seq(sh.width, _ => 0))),
          Rests, Waits, [], [], 0, false)
  }

  lemma StartInv(sh: Shape)
    requires ValidShape(sh)
    ensures Inv(Start(sh), sh)
  {
    forall x: nat ensures OnePlace(Start(sh), sh, x) {
      DescendingCounts(sh.slots, x);
    }
  }

  function Apply(s: State, sh: Shape, m: Move): State
    requires Inv(s, sh)
  {
    match m
    case Publisher(message) => PublisherStep(s, sh, message)
    case Reader => ReaderStep(s, sh)
  }

  ghost function Run(sh: Shape, moves: seq<Move>): (s: State)
    requires ValidShape(sh)
    ensures Inv(s, sh)
  {
    if moves == [] then
      StartInv(sh);
      Start(sh)
    else
      var s := Run(sh, moves[..|moves| - 1]);
      var m := moves[|moves| - 1];
      PublisherKeeps(s, sh, if m.Publisher? then m.message else []);
      ReaderKeeps(s, sh);
      Apply(s, sh, m)
  }

  /** In every interleaving: every slot is in exactly one place, no ring ever refuses a
      slot, and what the consumer has read is exactly what was published, in order. */
  lemma CycleSound(sh: Shape, moves: seq<Move>, x: nat)
    requires ValidShape(sh)
    ensures var s := Run(sh, moves);
      && Places(s, x) == (if x < sh.slots then 1 else 0)
      && !s.refused
      && s.received <= s.sent && |s.sent| <= |s.received| + sh.slots
      && (s.consumer.Reads? ==> |s.received| < |s.sent| && s.consumer.part <= s.sent[|s.received|])
  {
    assert OnePlace(Run(sh, moves), sh, x);
  }
}
