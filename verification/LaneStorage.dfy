/** The message store of one lane, call by call: metadata and arena by slot, a free list,
    and two rings of slot numbers. It is a bounded queue of messages whose bytes stay put
    until the consumer releases them. */
module LaneStorage {
  import opened Common
  import opened Remainders
  import opened Counting
  import SpscRing

  /** The parsed header and the two receive stamps. */
  datatype Header = Header(fields: seq<int>, ingressSequence: nat, receiveNs: nat)

  datatype Metadata = Metadata(header: Header, bodySize: nat)

  datatype Envelope = Envelope(header: Header, body: seq<byte>)

  /** The store as a value: who holds which slot, what the slots contain, the messages
      waiting in the ready ring, and those whose slots the consumer holds. */
  datatype Store = Store(
    width: nat,
    metadata: seq<Metadata>,
    arena: seq<byte>,
    free: seq<nat>,
    ready: seq<nat>,
    recycled: seq<nat>,
    held: seq<nat>,
    queue: seq<Envelope>,
    inHand: seq<Envelope>)

  /** Slot x is in exactly one place. */
  predicate OnePlace(s: Store, x: nat) {
    Count(s.free, x) + Count(s.ready, x) + Count(s.recycled, x) + Count(s.held, x)
      == if x < |s.metadata| then 1 else 0
  }

  lemma SlotInArena(width: nat, count: nat, slot: nat)
    requires slot < count
    ensures slot * width + width <= count * width
  {
    ProductGrows(slot + 1, count, width);
    assert (slot + 1) * width == slot * width + width;
  }

  /** The slot's metadata and its part of the arena hold this message. */
  predicate Contains(width: nat, metadata: seq<Metadata>, arena: seq<byte>, slot: nat, e: Envelope) {
    slot < |metadata| && metadata[slot] == Metadata(e.header, |e.body|) && HoldsAt(width, arena, slot * width, e.body)
  }

  predicate HoldsAt(width: nat, arena: seq<byte>, at: nat, body: seq<byte>) {
    |body| <= width && at + width <= |arena| && arena[at..at + |body|] == body
  }

  predicate Waiting(s: Store, j: nat)
    requires j < |s.queue| == |s.ready|
  {
    Contains(s.width, s.metadata, s.arena, s.ready[j], s.queue[j])
  }

  predicate InHand(s: Store, j: nat)
    requires j < |s.inHand| == |s.held|
  {
    Contains(s.width, s.metadata, s.arena, s.held[j], s.inHand[j])
  }

  ghost predicate Sound(s: Store) {
    && |s.arena| == |s.metadata| * s.width
    && (forall x: nat :: OnePlace(s, x))
    && |s.free| + |s.ready| + |s.recycled| + |s.held| == |s.metadata|
    && |s.queue| == |s.ready| && |s.inHand| == |s.held|
    && (forall j :: 0 <= j < |s.queue| ==> Waiting(s, j))
    && (forall j :: 0 <= j < |s.inHand| ==> InHand(s, j))
  }

  function Drained(s: Store): Store
    requires s.recycled != []
  {
    s.(free := s.free + [s.recycled[0]], recycled := s.recycled[1..])
  }

  lemma DrainedSound(s: Store)
    requires Sound(s) && s.recycled != []
    ensures Sound(Drained(s))
  {
    var r := Drained(s);
    forall x: nat ensures OnePlace(r, x) {
      assert OnePlace(s, x);
      CountPop(s.recycled, x);
      CountPush(s.free, s.recycled[0], x);
    }
    forall j | 0 <= j < |r.queue| ensures Waiting(r, j) { assert Waiting(s, j); }
    forall j | 0 <= j < |r.inHand| ensures InHand(r, j) { assert InHand(s, j); }
  }

  /** The store after a message was copied into the last free slot and offered. */
  function Published(s: Store, e: Envelope, arena: seq<byte>): Store
    requires s.free != [] && s.free[|s.free| - 1] < |s.metadata|
  {
    var slot := s.free[|s.free| - 1];
    s.(metadata := s.metadata[slot := Metadata(e.header, |e.body|)], arena := arena,
       free := s.free[..|s.free| - 1], ready := s.ready + [slot], queue := s.queue + [e])
  }

  /** Only the slot's part of the arena was written, and it holds the body. */
  ghost predicate Copied(at: nat, body: seq<byte>, before: seq<byte>, after: seq<byte>) {
    && |after| == |before| && at + |body| <= |after|
    && after[at..at + |body|] == body
    && (forall i :: 0 <= i < |after| && !(at <= i < at + |body|) ==> after[i] == before[i])
  }

  /** Two slots' parts of the arena do not overlap. */
  lemma SlotsApart(a: nat, b: nat, width: nat)
    requires a != b
    ensures a * width + width <= b * width || b * width + width <= a * width
  {
    Apart(a, b, width);
    Apart(b, a, width);
  }

  lemma CopyLeavesOthers(
    s: Store, slot: nat, header: Header, body: seq<byte>, arena: seq<byte>, other: nat, e: Envelope)
    requires Contains(s.width, s.metadata, s.arena, other, e) && other != slot < |s.metadata|
    requires |body| <= s.width && Copied(slot * s.width, body, s.arena, arena)
    ensures Contains(s.width, s.metadata[slot := Metadata(header, |body|)], arena, other, e)
  {
    SlotsApart(other, slot, s.width);
    HeldBeside(s.width, s.arena, arena, other * s.width, e.body, slot * s.width, body);
  }

  /** What is written elsewhere leaves a body where it is. */
  lemma HeldBeside(width: nat, before: seq<byte>, after: seq<byte>, at: nat, body: seq<byte>, to: nat, copy: seq<byte>)
    requires HoldsAt(width, before, at, body) && Copied(to, copy, before, after)
    requires |copy| <= width && (at + width <= to || to + width <= at)
    ensures HoldsAt(width, after, at, body)
  {
    assert after[at..at + |body|] == before[at..at + |body|];
  }

  lemma FreeSlot(s: Store)
    requires Sound(s) && s.free != []
    ensures var slot := s.free[|s.free| - 1]; slot < |s.metadata| && slot !in s.ready && slot !in s.held
    ensures |s.ready| < |s.metadata|
  {
    var slot := s.free[|s.free| - 1];
    assert OnePlace(s, slot);
    CountMember(s.free, |s.free| - 1);
    forall j | 0 <= j < |s.ready| ensures s.ready[j] != slot { CountMember(s.ready, j); }
    forall j | 0 <= j < |s.held| ensures s.held[j] != slot { CountMember(s.held, j); }
  }

  lemma PublishedSound(s: Store, e: Envelope, arena: seq<byte>)
    requires Sound(s) && s.free != [] && |e.body| <= s.width
    requires Copied(s.free[|s.free| - 1] * s.width, e.body, s.arena, arena)
    ensures s.free[|s.free| - 1] < |s.metadata| && Sound(Published(s, e, arena))
  {
    FreeSlot(s);
    var slot := s.free[|s.free| - 1];
    var r := Published(s, e, arena);
    SlotInArena(s.width, |s.metadata|, slot);
    forall x: nat ensures OnePlace(r, x) {
      assert OnePlace(s, x);
      CountPush(s.ready, slot, x);
    }
    forall j | 0 <= j < |r.queue| ensures Waiting(r, j) {
      if j < |s.queue| {
        assert Waiting(s, j);
        CopyLeavesOthers(s, slot, e.header, e.body, arena, s.ready[j], s.queue[j]);
      }
    }
    forall j | 0 <= j < |r.inHand| ensures InHand(r, j) {
      assert InHand(s, j);
      CopyLeavesOthers(s, slot, e.header, e.body, arena, s.held[j], s.inHand[j]);
    }
  }

  function Taken(s: Store): Store
    requires s.ready != [] && s.queue != []
  {
    s.(ready := s.ready[1..], held := s.held + [s.ready[0]], queue := s.queue[1..], inHand := s.inHand + [s.queue[0]])
  }

  lemma TakenSound(s: Store)
    requires Sound(s) && s.ready != []
    ensures Sound(Taken(s))
  {
    var r := Taken(s);
    forall x: nat ensures OnePlace(r, x) {
      assert OnePlace(s, x);
      CountPop(s.ready, x);
      CountPush(s.held, s.ready[0], x);
    }
    assert Waiting(s, 0);
    forall j | 0 <= j < |r.queue| ensures Waiting(r, j) { assert Waiting(s, j + 1); }
    forall j | 0 <= j < |r.inHand| ensures InHand(r, j) { if j < |s.inHand| { assert InHand(s, j); } }
  }

  /** The consumer gives back one of the slots it holds. */
  function Returned(s: Store, k: nat): Store
    requires k < |s.held| == |s.inHand|
  {
    s.(recycled := s.recycled + [s.held[k]], held := Without(s.held, k), inHand := Without(s.inHand, k))
  }

  lemma ReturnedSound(s: Store, k: nat)
    requires Sound(s) && k < |s.held|
    ensures Sound(Returned(s, k)) && |s.recycled| < |s.metadata| && s.held[k] < |s.metadata|
  {
    var r := Returned(s, k);
    assert InHand(s, k);
    forall x: nat ensures OnePlace(r, x) {
      assert OnePlace(s, x);
      CountWithout(s.held, k, x);
      CountPush(s.recycled, s.held[k], x);
    }
    forall j | 0 <= j < |r.queue| ensures Waiting(r, j) { assert Waiting(s, j); }
    forall j | 0 <= j < |r.inHand| ensures InHand(r, j) {
      var i := if j < k then j else j + 1;
      assert InHand(s, i);
    }
  }

  lemma HeldIsSlot(s: Store, x: nat)
    requires Sound(s) && x in s.held
    ensures x < |s.metadata|
  {
    var k :| 0 <= k < |s.held| && s.held[k] == x;
    assert OnePlace(s, x);
    CountMember(s.held, k);
  }

  /** A slot in one place that is given back once more is in two. */
  lemma TwiceIsUnsound(s: Store, r: Store, x: nat)
    requires Sound(s) && x < |s.metadata| && r == s.(recycled := s.recycled + [x])
    ensures !Sound(r)
  {
    assert OnePlace(s, x);
    CountPush(s.recycled, x, x);
    assert !OnePlace(r, x);
  }

  class Storage {
    const width: nat
    const metadata: array<Metadata>
    const arena: array<byte>
    const ready: SpscRing.Ring<nat>
    const recycled: SpscRing.Ring<nat>
    var free: seq<nat>
    ghost var queue: seq<Envelope>
    ghost var held: seq<nat>
    ghost var inHand: seq<Envelope>

    ghost function Now(): Store
      reads this, metadata, arena, ready, recycled
    {
      Store(width, metadata[..], arena[..], free, ready.queue, recycled.queue, held, queue, inHand)
    }

    ghost predicate Rings()
      reads ready, ready.storage, recycled, recycled.storage
    {
      && ready != recycled && ready.storage != recycled.storage
      && ready.Valid() && recycled.Valid()
      && ready.storage.Length >= metadata.Length && recycled.storage.Length >= metadata.Length
    }

    ghost predicate Valid()
      reads this, metadata, arena, ready, ready.storage, recycled, recycled.storage
    {
      Rings() && Sound(Now())
    }

    constructor (slotCount: nat, maximumBodyBytes: nat, ringCapacity: nat)
      requires 0 < slotCount <= ringCapacity
      ensures Valid() && queue == [] && held == []
      ensures metadata.Length == slotCount && width == maximumBodyBytes
      ensures fresh(metadata) && fresh(arena) && fresh(ready) && fresh(ready.storage)
      ensures fresh(recycled) && fresh(recycled.storage)
    {
      width := maximumBodyBytes;
      metadata := new Metadata[slotCount](_ => Metadata(Header([], 0, 0), 0));
      arena := new byte[slotCount * maximumBodyBytes](_ => 0);
      ready := new SpscRing.Ring(ringCapacity);
      recycled := new SpscRing.Ring(ringCapacity);
      free := Descending(slotCount);
      queue, held, inHand := [], [], [];
      new;
      forall x: nat ensures OnePlace(Now(), x) {
        DescendingCounts(slotCount, x);
      }
    }

    method DrainRecycled()
      requires Valid()
      modifies this`free, recycled
      ensures Valid()
      ensures Now() == old(Now()).(free := free, recycled := [])
      ensures free != [] <==> old(free) != [] || old(recycled.queue) != []
    {
      while true
        invariant Valid() && Now() == old(Now()).(free := free, recycled := recycled.queue)
        invariant free != [] || recycled.queue != [] <==> old(free) != [] || old(recycled.queue) != []
        decreases |recycled.queue|
      {
        ghost var before := Now();
        var index := recycled.TryPop();
        if index.None? {
          return;
        }
        free := free + [index.value];
        DrainedSound(before);
        assert Now() == Drained(before);
      }
    }

    /** The body is copied into the slot's part of the arena. */
    method CopyBody(slot: nat, body: seq<byte>)
      requires slot * width + |body| <= arena.Length
      modifies arena
      ensures Copied(slot * width, body, old(arena[..]), arena[..])
    {
      var i := 0;
      while i < |body|
        invariant 0 <= i <= |body|
        invariant arena[slot * width..slot * width + i] == body[..i]
        invariant forall k :: 0 <= k < arena.Length && !(slot * width <= k < slot * width + i) ==>
          arena[k] == old(arena[k])
      {
        arena[slot * width + i] := body[i];
        i := i + 1;
      }
    }

    /** Fails exactly when the body is too large or no slot is free or given back. */
    method TryPublish(header: Header, body: seq<byte>) returns (ok: bool)
      requires Valid()
      modifies this, metadata, arena, ready, ready.storage, recycled
      ensures Valid()
      ensures ok == (|body| <= width && (old(free) != [] || old(recycled.queue) != []))
      ensures queue == if ok then old(queue) + [Envelope(header, body)] else old(queue)
      ensures held == old(held) && inHand == old(inHand)
    {
      if |body| > width {
        return false;
      }
      DrainRecycled();
      if free == [] {
        return false;
      }
      ghost var before := Now();
      FreeSlot(before);
      var index := free[|free| - 1];
      free := free[..|free| - 1];
      metadata[index] := Metadata(header, |body|);
      SlotInArena(width, metadata.Length, index);
      CopyBody(index, body);
      PublishedSound(before, Envelope(header, body), arena[..]);
      ok := ready.TryPush(index);
      assert ok;
      queue := queue + [Envelope(header, body)];
      assert Now() == Published(before, Envelope(header, body), arena[..]);
    }

    /** The message in a slot. */
    method ViewOf(index: nat, ghost e: Envelope) returns (header: Header, body: seq<byte>)
      requires Contains(width, metadata[..], arena[..], index, e)
      ensures Envelope(header, body) == e
    {
      header := metadata[index].header;
      body := arena[index * width..index * width + metadata[index].bodySize];
    }

    /** Takes the oldest message; its bytes stay in the slot until it is released. */
    method TryConsume() returns (found: bool, index: nat, header: Header, body: seq<byte>)
      requires Valid()
      modifies this`queue, this`held, this`inHand, ready
      ensures Valid()
      ensures found == (old(queue) != [])
      ensures !found ==> queue == old(queue) && held == old(held) && inHand == old(inHand)
      ensures found ==>
        && Envelope(header, body) == old(queue)[0] && queue == old(queue)[1..]
        && held == old(held) + [index] && inHand == old(inHand) + [Envelope(header, body)]
    {
      ghost var before := Now();
      var taken := ready.TryPop();
      if taken.None? {
        return false, 0, Header([], 0, 0), [];
      }
      assert Waiting(before, 0);
      TakenSound(before);
      index := taken.value;
      header, body := ViewOf(index, before.queue[0]);
      queue, held, inHand := queue[1..], held + [index], inHand + [queue[0]];
      assert Now() == Taken(before);
      found := true;
    }

    /** Gives back a slot. For one that is held, in any order, this never fails and keeps the
        store valid; for a number that is no slot it fails. A slot that is not held is taken
        all the same, as the source does not check, unless the ring is full: then it is in
        two places, and the store is valid no more. */
    method Release(index: nat) returns (ok: bool, ghost k: nat)
      requires Valid()
      modifies this`held, this`inHand, recycled, recycled.storage
      ensures Rings()
      ensures Valid() <==> index in old(held) || !ok
      ensures index in old(held) || index >= metadata.Length ==> ok == (index < metadata.Length)
      ensures index in old(held) ==>
        && k < |old(held)| && k < |old(inHand)| && old(held)[k] == index
        && held == Without(old(held), k) && inHand == Without(old(inHand), k)
      ensures index !in old(held) ==>
        && held == old(held) && inHand == old(inHand)
        && recycled.queue == if ok then old(recycled.queue) + [index] else old(recycled.queue)
    {
      ghost var before := Now();
      if index in held { HeldIsSlot(before, index); }
      ok, k := index < metadata.Length, 0;
      if ok {
        if index in held {
          k :| k < |held| && held[k] == index;
          ReturnedSound(before, k);
        }
        ok := recycled.TryPush(index);
        if index in held {
          held, inHand := Without(held, k), Without(inHand, k);
          assert Now() == Returned(before, k);
        } else if ok {
          TwiceIsUnsound(before, Now(), index);
        } else {
          assert Now() == before;
        }
      }
    }

    /** Whether no message is waiting; what a worker asks before it exits. */
    method Empty() returns (empty: bool)
      requires Valid()
      ensures empty == (queue == [])
    {
      empty := ready.Empty();
    }
  }
}
