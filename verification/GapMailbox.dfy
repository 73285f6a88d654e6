/** The gap mailbox of one channel: three buffers, a versioned token and the reader's
    claim, shared without locks by one producer and one consumer. Every access to shared
    memory is a step of its own, and a buffer is written and copied word by word, so that
    a torn read can be expressed; the theorems say it never happens. */
module GapMailbox {

  /** A gap as the words it is copied in. */
  type Gap = seq<int>

  const BUFFERS := 3
  const NO_READER := 3
  /** The token before anything is published: generation 0, no buffer. */
  const NO_TOKEN := 3
  const MAXIMUM_ATTEMPTS := 8

  /** `(generation << 2) | target` */
  function Token(generation: nat, target: nat): nat
    requires target < 4
  {
    4 * generation + target
  }

  function IndexOf(token: nat): nat { token % 4 }

  function GenerationOf(token: nat): nat { token / 4 }

  /** Where the producer is in Publish. */
  datatype Producer =
    | Rests
    | LoadsToken(gap: Gap)
    | LoadsReader(gap: Gap, current: nat)
    | Writes(gap: Gap, target: nat, written: nat)

  /** Where the consumer is in TrySnapshot. */
  datatype Consumer =
    | Idle
    | LoadsBefore(attempt: nat)
    | Claims(attempt: nat, before: nat)
    | Rechecks(attempt: nat, before: nat)
    | Retracts(attempt: nat)
    | Copies(before: nat, part: Gap)

  datatype Publication = Publication(gap: Gap, index: nat)

  datatype Delivery = Delivery(generation: nat, gap: Gap)

  /** `published` and `delivered` are the histories of tokens stored and of kReady results. */
  datatype State = State(
    buffers: seq<Gap>,
    token: nat,
    reader: nat,
    producer: Producer,
    generation: nat,
    consumer: Consumer,
    deliveredToken: nat,
    published: seq<Publication>,
    delivered: seq<Delivery>)

  /** One step of either side. The gap is what an idle producer starts to publish. */
  datatype Move = Publisher(gap: Gap) | Reader

  function ChooseTarget(current: nat, reader: nat): nat {
    var target := (current + 1) % BUFFERS;
    if target == reader then (target + 1) % BUFFERS else target
  }

  function Stored(s: State, words: nat): State
    requires s.producer.Writes? && s.producer.target < 4
  {
    var generation := s.generation + 1;
    s.(token := Token(generation, s.producer.target), generation := generation, producer := Rests,
       published := s.published + [Publication(s.producer.gap, s.producer.target)])
  }

  function PublisherMoves(s: State, words: nat, gap: Gap): State
    requires s.producer.Writes? ==> s.producer.target < |s.buffers| == BUFFERS
    requires s.producer.Writes? && s.producer.written < words ==>
      words == |s.producer.gap| == |s.buffers[s.producer.target]|
  {
    match s.producer
    case Rests => if |gap| == words then s.(producer := LoadsToken(gap)) else s
    case LoadsToken(g) => s.(producer := LoadsReader(g, s.token))
    case LoadsReader(g, current) => s.(producer := Writes(g, ChooseTarget(IndexOf(current), s.reader), 0))
    case Writes(g, target, k) =>
      if k < words then
        s.(buffers := s.buffers[target := s.buffers[target][k := g[k]]], producer := Writes(g, target, k + 1))
      else Stored(s, words)
  }

  /** The copy is complete: withdraw the claim, and report the gap unless it was reported
      before. */
  function Finished(s: State): State
    requires s.consumer.Copies?
  {
    var before, part := s.consumer.before, s.consumer.part;
    if s.deliveredToken == before then s.(reader := NO_READER, consumer := Idle)
    else s.(reader := NO_READER, consumer := Idle, deliveredToken := before,
            delivered := s.delivered + [Delivery(GenerationOf(before), part)])
  }

  function ReaderMoves(s: State, words: nat): State
    requires s.consumer.Copies? && |s.consumer.part| < words ==>
      IndexOf(s.consumer.before) < |s.buffers| && |s.buffers[IndexOf(s.consumer.before)]| == words
  {
    match s.consumer
    case Idle => s.(consumer := LoadsBefore(0))
    case LoadsBefore(attempt) =>
      if IndexOf(s.token) >= BUFFERS then s.(consumer := Idle) else s.(consumer := Claims(attempt, s.token))
    case Claims(attempt, before) => s.(reader := IndexOf(before), consumer := Rechecks(attempt, before))
    case Rechecks(attempt, before) =>
      s.(consumer := if s.token != before then Retracts(attempt) else Copies(before, []))
    case Retracts(attempt) =>
      s.(reader := NO_READER,
         consumer := if attempt + 1 < MAXIMUM_ATTEMPTS then LoadsBefore(attempt + 1) else Idle)
    case Copies(before, part) =>
      if |part| < words
      then s.(consumer := Copies(before, part + [s.buffers[IndexOf(before)][|part|]]))
      else Finished(s)
  }

  // ---- invariant -----------------------------------------------------------------

  /** The token was stored by publication number GenerationOf(token). */
  predicate Issued(published: seq<Publication>, token: nat) {
    var g := GenerationOf(token);
    0 < g <= |published| && IndexOf(token) == published[g - 1].index < BUFFERS
  }

  predicate Shaped(s: State, words: nat) {
    && |s.buffers| == BUFFERS
    && (forall i :: 0 <= i < BUFFERS ==> |s.buffers[i]| == words)
    && (forall g :: 0 <= g < |s.published| ==> |s.published[g].gap| == words)
    && s.generation == |s.published|
    && GenerationOf(s.token) == |s.published|
    && (if s.published == [] then s.token == NO_TOKEN else Issued(s.published, s.token))
  }

  /** The producer works on a buffer that is neither current nor the one being copied. */
  predicate ProducerInv(s: State, words: nat) {
    match s.producer
    case Rests => true
    case LoadsToken(gap) => |gap| == words
    case LoadsReader(gap, current) => |gap| == words && current == s.token
    case Writes(gap, target, k) =>
      && |gap| == words && target < BUFFERS && k <= words && |s.buffers| == BUFFERS
      && target != IndexOf(s.token)
      && (s.consumer.Copies? ==> target != IndexOf(s.consumer.before))
      && |s.buffers[target]| == words && s.buffers[target][..k] == gap[..k]
  }

  /** The buffer of the current token holds the current gap. */
  predicate CurrentInv(s: State) {
    Issued(s.published, s.token) && |s.buffers| == BUFFERS ==>
      s.buffers[IndexOf(s.token)] == s.published[GenerationOf(s.token) - 1].gap
  }

  predicate Held(s: State, before: nat) {
    && Issued(s.published, before)
    && GenerationOf(s.deliveredToken) <= GenerationOf(before)
    && (s.deliveredToken != NO_TOKEN && GenerationOf(s.deliveredToken) == GenerationOf(before) ==>
          s.deliveredToken == before)
  }

  predicate ConsumerInv(s: State, words: nat) {
    match s.consumer
    case Idle => s.reader == NO_READER
    case LoadsBefore(_) => s.reader == NO_READER
    case Claims(_, before) => s.reader == NO_READER && Held(s, before)
    case Rechecks(_, before) => s.reader == IndexOf(before) && Held(s, before)
    case Retracts(_) => true
    case Copies(before, part) =>
      && s.reader == IndexOf(before) && Held(s, before)
      && |s.buffers| == BUFFERS
      && s.buffers[IndexOf(before)] == s.published[GenerationOf(before) - 1].gap
      && |part| <= words && |s.published[GenerationOf(before) - 1].gap| == words
      && part == s.published[GenerationOf(before) - 1].gap[..|part|]
  }

  /** Delivery k is exactly one published gap. */
  predicate Exact(delivered: seq<Delivery>, published: seq<Publication>, k: nat)
    requires k < |delivered|
  {
    var d := delivered[k];
    0 < d.generation <= |published| && d.gap == published[d.generation - 1].gap
  }

  predicate Newer(delivered: seq<Delivery>, j: nat, k: nat)
    requires j < |delivered| && k < |delivered|
  {
    delivered[j].generation < delivered[k].generation
  }

  /** Every kReady result is one published gap, and generations strictly increase. */
  predicate Faithful(delivered: seq<Delivery>, published: seq<Publication>) {
    && (forall k :: 0 <= k < |delivered| ==> Exact(delivered, published, k))
    && (forall j, k :: 0 <= j < k < |delivered| ==> Newer(delivered, j, k))
  }

  predicate DeliveryInv(s: State) {
    && Faithful(s.delivered, s.published)
    && (if s.delivered == [] then s.deliveredToken == NO_TOKEN
        else Issued(s.published, s.deliveredToken) &&
             GenerationOf(s.deliveredToken) == s.delivered[|s.delivered| - 1].generation)
  }

  predicate Inv(s: State, words: nat) {
    Shaped(s, words) && CurrentInv(s) && ProducerInv(s, words) && ConsumerInv(s, words) && DeliveryInv(s)
  }

  // ---- every step keeps it ---------------------------------------------------------

  function Apply(s: State, words: nat, m: Move): State
    requires Inv(s, words)
  {
    match m
    case Publisher(gap) => PublisherMoves(s, words, gap)
    case Reader => ReaderMoves(s, words)
  }

  lemma MoveKeeps(s: State, words: nat, m: Move)
    requires Inv(s, words)
    ensures Inv(Apply(s, words, m), words)
  {
    match m
    case Publisher(gap) => PublisherKeeps(s, words, gap);
    case Reader => ReaderKeeps(s, words);
  }

  /** The chosen buffer is neither the current one nor the one claimed at this moment. */
  lemma ChooseKeeps(s: State, words: nat, gap: Gap)
    requires Inv(s, words) && s.producer.LoadsReader?
    ensures Inv(PublisherMoves(s, words, gap), words)
  {
    assert s.token % 4 < 4;
  }

  lemma PublisherKeeps(s: State, words: nat, gap: Gap)
    requires Inv(s, words)
    ensures Inv(PublisherMoves(s, words, gap), words)
  {
    if s.producer.LoadsReader? {
      ChooseKeeps(s, words, gap);
    } else if s.producer.Writes? {
      if s.producer.written == words {
        StoreKeeps(s, words);
      } else {
        WriteKeeps(s, words);
      }
    }
  }

  lemma WriteKeeps(s: State, words: nat)
    requires Inv(s, words) && s.producer.Writes? && s.producer.written < words
    ensures Inv(PublisherMoves(s, words, []), words)
  {
  }

  /** More publications leave what was delivered as it was. */
  lemma FaithfulStill(delivered: seq<Delivery>, published: seq<Publication>, p: Publication)
    requires Faithful(delivered, published)
    ensures Faithful(delivered, published + [p])
  {
    forall k | 0 <= k < |delivered| ensures Exact(delivered, published + [p], k) {
      assert Exact(delivered, published, k);
    }
  }

  lemma StoreKeeps(s: State, words: nat)
    requires Inv(s, words) && s.producer.Writes? && s.producer.written == words
    ensures Inv(Stored(s, words), words)
  {
    FaithfulStill(s.delivered, s.published, Publication(s.producer.gap, s.producer.target));
  }

  lemma FaithfulMore(delivered: seq<Delivery>, published: seq<Publication>, d: Delivery)
    requires Faithful(delivered, published)
    requires 0 < d.generation <= |published| && d.gap == published[d.generation - 1].gap
    requires delivered != [] ==> delivered[|delivered| - 1].generation < d.generation
    ensures Faithful(delivered + [d], published)
  {
    var more := delivered + [d];
    forall k | 0 <= k < |more| ensures Exact(more, published, k) {
      if k < |delivered| { assert Exact(delivered, published, k); }
    }
    forall j, k | 0 <= j < k < |more| ensures Newer(more, j, k) {
      if k < |delivered| {
        assert Newer(delivered, j, k);
      } else if j < |delivered| - 1 {
        assert Newer(delivered, j, |delivered| - 1);
      }
    }
  }

  lemma FinishKeeps(s: State, words: nat)
    requires Inv(s, words) && s.consumer.Copies? && |s.consumer.part| == words
    ensures Inv(Finished(s), words)
  {
    var before, part := s.consumer.before, s.consumer.part;
    if s.deliveredToken != before {
      FaithfulMore(s.delivered, s.published, Delivery(GenerationOf(before), part));
    }
  }

  lemma CopyKeeps(s: State, words: nat)
    requires Inv(s, words) && s.consumer.Copies? && |s.consumer.part| < words
    ensures Inv(ReaderMoves(s, words), words)
  {
  }

  /** The claim is in place and the token has not moved: from here on no buffer the
      producer may choose is the claimed one. */
  lemma RecheckKeeps(s: State, words: nat)
    requires Inv(s, words) && s.consumer.Rechecks?
    ensures Inv(ReaderMoves(s, words), words)
  {
  }

  /** The current token is never older than what was delivered. */
  lemma CurrentHeld(s: State, words: nat)
    requires Inv(s, words) && IndexOf(s.token) < BUFFERS
    ensures Held(s, s.token)
  {
  }

  lemma LoadKeeps(s: State, words: nat)
    requires Inv(s, words) && s.consumer.LoadsBefore?
    ensures Inv(ReaderMoves(s, words), words)
  {
    if IndexOf(s.token) < BUFFERS { CurrentHeld(s, words); }
  }

  lemma ClaimKeeps(s: State, words: nat)
    requires Inv(s, words) && (s.consumer.Idle? || s.consumer.Claims? || s.consumer.Retracts?)
    ensures Inv(ReaderMoves(s, words), words)
  {
  }

  lemma ReaderKeeps(s: State, words: nat)
    requires Inv(s, words)
    ensures Inv(ReaderMoves(s, words), words)
  {
    if s.consumer.Rechecks? {
      RecheckKeeps(s, words);
    } else if s.consumer.LoadsBefore? {
      LoadKeeps(s, words);
    } else if !s.consumer.Copies? {
      ClaimKeeps(s, words);
    } else if |s.consumer.part| < words {
      CopyKeeps(s, words);
    } else {
      FinishKeeps(s, words);
    }
  }

  // ---- every interleaving ------------------------------------------------------------

  function Start(words: nat): State {
    State(seq(BUFFERS, _ => seq(words, _ => 0)), NO_TOKEN, NO_READER, Rests, 0, Idle, NO_TOKEN, [], [])
  }

  /** The state after these moves, and the proof that it is well defined. */
  function Run(words: nat, moves: seq<Move>): (s: State)
    ensures Inv(s, words)
  {
    if moves == [] then Start(words)
    else
      var s := Run(words, moves[..|moves| - 1]);
      MoveKeeps(s, words, moves[|moves| - 1]);
      Apply(s, words, moves[|moves| - 1])
  }

  /** In every interleaving: each kReady result is exactly the gap published with its
      generation, delivered generations strictly increase, and the producer never writes
      the buffer that the consumer is copying. */
  lemma NeverTorn(words: nat, moves: seq<Move>)
    ensures var s := Run(words, moves);
      && (forall k :: 0 <= k < |s.delivered| ==>
            0 < s.delivered[k].generation <= |s.published| &&
            s.delivered[k].gap == s.published[s.delivered[k].generation - 1].gap)
      && (forall j, k :: 0 <= j < k < |s.delivered| ==> s.delivered[j].generation < s.delivered[k].generation)
      && (s.producer.Writes? && s.consumer.Copies? ==> s.producer.target != IndexOf(s.consumer.before))
  {
    var s := Run(words, moves);
    forall k | 0 <= k < |s.delivered|
      ensures 0 < s.delivered[k].generation <= |s.published| &&
              s.delivered[k].gap == s.published[s.delivered[k].generation - 1].gap
    {
      assert Exact(s.delivered, s.published, k);
    }
    forall j, k | 0 <= j < k < |s.delivered| ensures s.delivered[j].generation < s.delivered[k].generation {
      assert Newer(s.delivered, j, k);
    }
  }

  /** n steps of the consumer alone. */
  function Alone(s: State, words: nat, n: nat): (r: State)
    requires Inv(s, words)
    ensures Inv(r, words)
    decreases n
  {
    if n == 0 then s
    else
      ReaderKeeps(s, words);
      Alone(ReaderMoves(s, words), words, n - 1)
  }

  lemma {:induction false} CopiesAll(s: State, words: nat)
    requires Inv(s, words) && s.consumer.Copies? && s.producer.Rests?
    ensures var r := Alone(s, words, words - |s.consumer.part| + 1);
      && r.consumer.Idle? && r.deliveredToken == s.consumer.before
      && r.token == s.token && r.published == s.published
    decreases words - |s.consumer.part|
  {
    ReaderKeeps(s, words);
    if |s.consumer.part| < words {
      CopiesAll(ReaderMoves(s, words), words);
    }
  }

  /** Left alone with something published, a snapshot ends with the newest gap delivered,
      now or earlier, and never reports busy. */
  lemma QuietSnapshot(s: State, words: nat)
    requires Inv(s, words) && s.consumer.Idle? && s.producer.Rests? && s.published != []
    ensures var r := Alone(s, words, words + 5);
      && r.consumer.Idle? && r.deliveredToken == s.token && r.delivered != []
      && r.delivered[|r.delivered| - 1] == Delivery(|s.published|, s.published[|s.published| - 1].gap)
  {
    var s4 := s.(reader := IndexOf(s.token), consumer := Copies(s.token, []));
    ClaimsAlone(s, words);
    CopiesAll(s4, words);
    var r := Alone(s4, words, words + 1);
    assert Exact(r.delivered, r.published, |r.delivered| - 1);
  }

  lemma ClaimsAlone(s: State, words: nat)
    requires Inv(s, words) && s.consumer.Idle? && s.published != []
    ensures var claimed := s.(reader := IndexOf(s.token), consumer := Copies(s.token, []));
      Inv(claimed, words) && Alone(s, words, words + 5) == Alone(claimed, words, words + 1)
  {
    var s1 := s.(consumer := LoadsBefore(0));
    var s2 := s.(consumer := Claims(0, s.token));
    var s3 := s.(reader := IndexOf(s.token), consumer := Rechecks(0, s.token));
    var s4 := s.(reader := IndexOf(s.token), consumer := Copies(s.token, []));
    assert s1 == ReaderMoves(s, words);
    ReaderKeeps(s, words);
    assert s2 == ReaderMoves(s1, words);
    ReaderKeeps(s1, words);
    assert s3 == ReaderMoves(s2, words);
    ReaderKeeps(s2, words);
    assert s4 == ReaderMoves(s3, words);
    ReaderKeeps(s3, words);
    assert Alone(s, words, words + 5) == Alone(s1, words, words + 4) == Alone(s2, words, words + 3)
        == Alone(s3, words, words + 2) == Alone(s4, words, words + 1);
  }
}
