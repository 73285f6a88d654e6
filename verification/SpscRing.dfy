/** The single-producer single-consumer ring: as a class it is a bounded queue; as a step
    machine, with each side working from a stale copy of the other's index, it still is. */
module SpscRing {
  import opened Common
  import opened Remainders

  // ---- call by call ----------------------------------------------------------------

  /** Element i of the queue that starts at index `tail` is in its slot. */
  predicate At<T(==)>(slots: seq<T>, tail: nat, queue: seq<T>, i: nat)
    requires |slots| > 0 && i < |queue|
  {
    slots[(tail + i) % |slots|] == queue[i]
  }

  predicate Stored<T(==)>(slots: seq<T>, tail: nat, queue: seq<T>) {
    && 0 < |slots| && |queue| <= |slots|
    && forall i :: 0 <= i < |queue| ==> At(slots, tail, queue, i)
  }

  lemma StoredMore<T>(slots: seq<T>, tail: nat, queue: seq<T>, value: T)
    requires Stored(slots, tail, queue) && |queue| < |slots|
    ensures Stored(slots[(tail + |queue|) % |slots| := value], tail, queue + [value])
  {
    var slots', queue' := slots[(tail + |queue|) % |slots| := value], queue + [value];
    forall i | 0 <= i < |queue'| ensures At(slots', tail, queue', i) {
      if i < |queue| {
        assert At(slots, tail, queue, i);
        CloseDiffer(tail + i, tail + |queue|, |slots|);
      }
    }
  }

  lemma StoredLess<T>(slots: seq<T>, tail: nat, queue: seq<T>)
    requires Stored(slots, tail, queue) && queue != []
    ensures Stored(slots, tail + 1, queue[1..]) && slots[tail % |slots|] == queue[0]
  {
    assert At(slots, tail, queue, 0);
    var next, rest := tail + 1, queue[1..];
    forall i | 0 <= i < |rest| ensures At(slots, next, rest, i) {
      assert At(slots, tail, queue, i + 1);
      assert next + i == tail + (i + 1);
    }
  }

  class Ring<T(0)> {
    const storage: array<T>
    var head: nat
    var cachedTail: nat
    var tail: nat
    var cachedHead: nat
    ghost var queue: seq<T>

    ghost predicate Valid()
      reads this, storage
    {
      && storage.Length > 0
      && cachedTail <= tail <= cachedHead <= head <= cachedTail + storage.Length
      && |queue| == head - tail
      && Stored(storage[..], tail, queue)
    }

    constructor (capacity: nat)
      requires capacity > 0
      ensures Valid() && queue == [] && storage.Length == capacity && fresh(storage)
    {
      storage := new T[capacity];
      head, cachedTail, tail, cachedHead, queue := 0, 0, 0, 0, [];
    }

    method TryPush(value: T) returns (ok: bool)
      requires Valid()
      modifies this`head, this`cachedTail, this`queue, storage
      ensures Valid()
      ensures ok == (|old(queue)| < storage.Length)
      ensures queue == if ok then old(queue) + [value] else old(queue)
    {
      if head - cachedTail >= storage.Length {
        cachedTail := tail;
        if head - cachedTail >= storage.Length {
          return false;
        }
      }
      StoredMore(storage[..], tail, queue, value);
      storage[head % storage.Length] := value;
      queue := queue + [value];
      head := head + 1;
      return true;
    }

    method TryPop() returns (found: Option<T>)
      requires Valid()
      modifies this`tail, this`cachedHead, this`queue
      ensures Valid()
      ensures old(queue) == [] ==> found.None? && queue == []
      ensures old(queue) != [] ==> found == Some(old(queue)[0]) && queue == old(queue)[1..]
    {
      if cachedHead == tail {
        cachedHead := head;
        if cachedHead == tail {
          return None;
        }
      }
      StoredLess(storage[..], tail, queue);
      found := Some(storage[tail % storage.Length]);
      queue := queue[1..];
      tail := tail + 1;
    }

    method Empty() returns (empty: bool)
      requires Valid()
      ensures empty == (queue == [])
    {
      empty := tail == head;
    }
  }

  // ---- step by step ------------------------------------------------------------------

  /** Where the producer is in TryPush, after it compared its own index with its copy of
      the consumer's. */
  datatype Producer<T> = Idle | Refreshes(value: T) | Writes(value: T) | Publishes(value: T)

  datatype Consumer<T> = Waits | Reloads | Reads | Retires(value: T)

  /** One completed call of TryPush and its answer. */
  datatype Attempt<T> = Attempt(value: T, ok: bool)

  /** What a list of calls has pushed. */
  function Successes<T>(tried: seq<Attempt<T>>): seq<T> {
    if tried == [] then []
    else
      var last := tried[|tried| - 1];
      Successes(tried[..|tried| - 1]) + if last.ok then [last.value] else []
  }

  lemma SuccessesMore<T>(tried: seq<Attempt<T>>, a: Attempt<T>)
    ensures Successes(tried + [a]) == Successes(tried) + if a.ok then [a.value] else []
  {
    assert (tried + [a])[..|tried|] == tried;
  }

  lemma {:induction false} SuccessesConcat<T>(s: seq<Attempt<T>>, t: seq<Attempt<T>>)
    ensures Successes(s + t) == Successes(s) + Successes(t)
  {
    if t == [] {
      assert s + t == s;
    } else {
      var init, last := t[..|t| - 1], t[|t| - 1];
      SuccessesConcat(s, init);
      SuccessesMore(s + init, last);
      assert s + init + [last] == s + t;
    }
  }

  /** `tried`, `pushed` and `popped` are the histories of completed operations. */
  datatype State<T> = State(
    slots: seq<T>,
    head: nat,
    cachedTail: nat,
    tail: nat,
    cachedHead: nat,
    producer: Producer<T>,
    consumer: Consumer<T>,
    tried: seq<Attempt<T>>,
    pushed: seq<T>,
    popped: seq<T>)

  /** The value is what an idle producer starts to push. */
  datatype Move<T> = Push(value: T) | Pop

  function ProducerStep<T>(s: State<T>, value: T): State<T>
    requires |s.slots| > 0
  {
    var n := |s.slots|;
    match s.producer
    case Idle => s.(producer := if s.head - s.cachedTail >= n then Refreshes(value) else Writes(value))
    case Refreshes(v) =>
      if s.head - s.tail >= n
      then s.(cachedTail := s.tail, producer := Idle, tried := s.tried + [Attempt(v, false)])
      else s.(cachedTail := s.tail, producer := Writes(v))
    case Writes(v) => s.(slots := s.slots[s.head % n := v], producer := Publishes(v))
    case Publishes(v) =>
      s.(head := s.head + 1, producer := Idle, tried := s.tried + [Attempt(v, true)], pushed := s.pushed + [v])
  }

  function ConsumerStep<T>(s: State<T>): State<T>
    requires |s.slots| > 0
  {
    match s.consumer
    case Waits => s.(consumer := if s.cachedHead == s.tail then Reloads else Reads)
    case Reloads => s.(cachedHead := s.head, consumer := if s.head == s.tail then Waits else Reads)
    case Reads => s.(consumer := Retires(s.slots[s.tail % |s.slots|]))
    case Retires(v) => s.(tail := s.tail + 1, consumer := Waits, popped := s.popped + [v])
  }

  /** What the ring holds, as an abstract queue. */
  function Queue<T>(s: State<T>): seq<T>
    requires s.tail <= s.head <= |s.pushed|
  {
    s.pushed[s.tail..s.head]
  }

  predicate Live<T(==)>(s: State<T>, k: nat)
    requires |s.slots| > 0 && k < |s.pushed|
  {
    s.slots[k % |s.slots|] == s.pushed[k]
  }

  predicate Indices<T>(s: State<T>) {
    && |s.slots| > 0
    && s.cachedTail <= s.tail <= s.cachedHead <= s.head <= s.cachedTail + |s.slots|
    && |s.pushed| == s.head && |s.popped| == s.tail
  }

  predicate ProducerInv<T(==)>(s: State<T>)
    requires Indices(s)
  {
    match s.producer
    case Writes(_) => s.head < s.cachedTail + |s.slots|
    case Publishes(v) => s.head < s.cachedTail + |s.slots| && s.slots[s.head % |s.slots|] == v
    case _ => true
  }

  predicate ConsumerInv<T(==)>(s: State<T>)
    requires Indices(s)
  {
    match s.consumer
    case Reads => s.tail < s.cachedHead
    case Retires(v) => s.tail < s.cachedHead && v == s.pushed[s.tail]
    case _ => true
  }

  /** What was pushed is what the calls that succeeded pushed. */
  predicate Recorded<T(==)>(pushed: seq<T>, tried: seq<Attempt<T>>) {
    pushed == Successes(tried)
  }

  predicate Inv<T(==)>(s: State<T>) {
    && Indices(s)
    && s.popped == s.pushed[..s.tail] && Recorded(s.pushed, s.tried)
    && (forall k :: s.tail <= k < s.head ==> Live(s, k))
    && ProducerInv(s) && ConsumerInv(s)
  }

  function Apply<T>(s: State<T>, m: Move<T>): State<T>
    requires |s.slots| > 0
  {
    match m
    case Push(value) => ProducerStep(s, value)
    case Pop => ConsumerStep(s)
  }

  /** The slot being written is not live, so no reader can be at it. */
  lemma WriteIsApart<T>(s: State<T>, k: nat)
    requires Inv(s) && s.producer.Writes? && s.tail <= k < s.head
    ensures k % |s.slots| != s.head % |s.slots|
  {
    CloseDiffer(k, s.head, |s.slots|);
  }

  lemma StillRecorded<T>(s: State<T>, value: T)
    requires |s.slots| > 0 && Recorded(s.pushed, s.tried)
    ensures var r := ProducerStep(s, value); Recorded(r.pushed, r.tried)
  {
    if s.producer.Refreshes? || s.producer.Publishes? {
      SuccessesMore(s.tried, Attempt(s.producer.value, s.producer.Publishes?));
    }
    assert s.pushed + [] == s.pushed;
  }

  lemma ProducerKeeps<T>(s: State<T>, value: T)
    requires Inv(s)
    ensures Inv(ProducerStep(s, value))
  {
    var r := ProducerStep(s, value);
    StillRecorded(s, value);
    forall k | r.tail <= k < r.head ensures Live(r, k) {
      if k < s.head {
        assert Live(s, k);
        if s.producer.Writes? { WriteIsApart(s, k); }
      }
    }
  }

  lemma ConsumerKeeps<T>(s: State<T>)
    requires Inv(s)
    ensures Inv(ConsumerStep(s))
  {
    var r := ConsumerStep(s);
    if s.consumer.Reads? { assert Live(s, s.tail); }
    forall k | r.tail <= k < r.head ensures Live(r, k) {
      assert Live(s, k);
    }
  }

  /** Step by step the ring is a bounded FIFO queue: a push takes effect when the head
      moves and a pop when the tail moves; every other step leaves the queue as it is; a
      push is refused only when the queue is full, a pop only when it is empty. */
  lemma StepRefines<T>(s: State<T>, m: Move<T>)
    requires Inv(s)
    ensures var r := Apply(s, m);
      && Inv(r)
      && |Queue(r)| <= |s.slots| == |r.slots|
      && (if m.Push? && s.producer.Publishes? then Queue(r) == Queue(s) + [s.producer.value]
          else if m.Pop? && s.consumer.Retires? then Queue(s) == [s.consumer.value] + Queue(r)
          else Queue(r) == Queue(s))
      && (m.Push? && s.producer.Refreshes? ==> (r.producer.Idle? <==> |Queue(s)| == |s.slots|))
      && (m.Pop? && s.consumer.Reloads? ==> (r.consumer.Waits? <==> Queue(s) == []))
  {
    match m
    case Push(value) => ProducerKeeps(s, value);
    case Pop => ConsumerKeeps(s);
  }

  function Start<T>(slots: seq<T>): State<T> {
    State(slots, 0, 0, 0, 0, Idle, Waits, [], [], [])
  }

  function Run<T>(slots: seq<T>, moves: seq<Move<T>>): (s: State<T>)
    requires |slots| > 0
    ensures Inv(s)
  {
    if moves == [] then Start(slots)
    else
      var s := Run(slots, moves[..|moves| - 1]);
      StepRefines(s, moves[|moves| - 1]);
      Apply(s, moves[|moves| - 1])
  }

  /** In every interleaving what was popped is a prefix of what was pushed, at most one
      capacity behind, and a slot being written is never the one being read. */
  lemma NeverReordered<T>(slots: seq<T>, moves: seq<Move<T>>)
    requires |slots| > 0
    ensures var s := Run(slots, moves);
      && s.popped <= s.pushed && |s.pushed| <= |s.popped| + |slots|
      && (s.producer.Writes? && s.consumer.Reads? ==> s.head % |s.slots| != s.tail % |s.slots|)
  {
    var s := Run(slots, moves);
    if s.producer.Writes? && s.consumer.Reads? {
      WriteIsApart(s, s.tail);
    }
    SlotsKept(slots, moves);
  }

  lemma {:induction false} SlotsKept<T>(slots: seq<T>, moves: seq<Move<T>>)
    requires |slots| > 0
    ensures |Run(slots, moves).slots| == |slots|
  {
    if moves != [] {
      SlotsKept(slots, moves[..|moves| - 1]);
    }
  }
}
