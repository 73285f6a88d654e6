/** Little-endian integers in byte buffers: loading, storing, and that one undoes the
    other and leaves the rest of the buffer alone. */
module Wire {
  import opened Common
  import opened Remainders

  /** 256 to the n. */
  function Power(n: nat): (p: nat)
    ensures p > 0
  {
    if n == 0 then 1 else 256 * Power(n - 1)
  }

  /** The number that n bytes of a buffer spell, lowest first. */
  function Value(buffer: seq<byte>, at: nat, n: nat): nat
    requires at + n <= |buffer|
    decreases n
  {
    if n == 0 then 0 else buffer[at] + 256 * Value(buffer, at + 1, n - 1)
  }

  /** The n lowest bytes of a number, lowest first. */
  function Bytes(value: nat, n: nat): (bytes: seq<byte>)
    ensures |bytes| == n
  {
    if n == 0 then [] else [(value % 256) as byte] + Bytes(value / 256, n - 1)
  }

  /** The buffer spells the value at this place. */
  predicate Spells(buffer: seq<byte>, at: nat, value: nat, n: nat) {
    at + n <= |buffer| && forall i :: 0 <= i < n ==> buffer[at + i] == Bytes(value, n)[i]
  }

  lemma {:induction false} ValueOfBytes(buffer: seq<byte>, at: nat, value: nat, n: nat)
    requires Spells(buffer, at, value, n) && value < Power(n)
    ensures Value(buffer, at, n) == value
    decreases n
  {
    if n > 0 {
      assert buffer[at + 0] == Bytes(value, n)[0];
      var next, rest := at + 1, Bytes(value / 256, n - 1);
      forall i | 0 <= i < |rest| ensures buffer[next + i] == rest[i] {
        assert buffer[at + (1 + i)] == Bytes(value, n)[1 + i];
      }
      ValueOfBytes(buffer, at + 1, value / 256, n - 1);
    }
  }

  lemma LowByte(low: nat, rest: nat, power: nat)
    requires low < 256 && rest < power
    ensures var value := low + 256 * rest; value / 256 == rest && value % 256 == low && value < 256 * power
  {
  }

  /** Every n bytes spell a number below 256 to the n, and are its bytes. */
  lemma {:induction false} BytesOfValue(buffer: seq<byte>, at: nat, n: nat)
    requires at + n <= |buffer|
    ensures Value(buffer, at, n) < Power(n) && Spells(buffer, at, Value(buffer, at, n), n)
    decreases n
  {
    if n > 0 {
      BytesOfValue(buffer, at + 1, n - 1);
      var rest := Value(buffer, at + 1, n - 1);
      LowByte(buffer[at], rest, Power(n - 1));
      forall i | 0 <= i < n ensures buffer[at + i] == Bytes(Value(buffer, at, n), n)[i] {
        if i > 0 { assert buffer[at + 1 + (i - 1)] == Bytes(rest, n - 1)[i - 1]; }
      }
    }
  }

  lemma {:induction false} SameValue(a: seq<byte>, b: seq<byte>, at: nat, n: nat)
    requires at + n <= |a| && at + n <= |b| && forall i :: at <= i < at + n ==> a[i] == b[i]
    ensures Value(a, at, n) == Value(b, at, n)
    decreases n
  {
    if n > 0 {
      SameValue(a, b, at + 1, n - 1);
    }
  }

  lemma Reassociate(a: nat, b: nat, c: nat)
    ensures a * (b * c) == (a * b) * c
  {
  }

  lemma {:induction false} ValueExtends(buffer: seq<byte>, at: nat, n: nat)
    requires at + n < |buffer|
    ensures Value(buffer, at, n + 1) == Value(buffer, at, n) + Power(n) * buffer[at + n]
    decreases n
  {
    if n > 0 {
      ValueExtends(buffer, at + 1, n - 1);
      Reassociate(256, Power(n - 1), buffer[at + n]);
    }
  }

  lemma {:induction false} BytesExtend(value: nat, n: nat)
    ensures Bytes(value, n + 1) == Bytes(value, n) + [(value / Power(n) % 256) as byte]
  {
    if n > 0 {
      BytesExtend(value / 256, n - 1);
      DivideTwice(value, 256, Power(n - 1));
    }
  }

  lemma DivideTwice(value: nat, a: nat, b: nat)
    requires a > 0 && b > 0
    ensures a * b > 0 && value / a / b == value / (a * b)
  {
    var q, r := value / a / b, value / a % b;
    assert value == (q * b + r) * a + value % a == q * (a * b) + (r * a + value % a);
    assert r * a + value % a < a * b by {
      assert r * a <= (b - 1) * a;
      assert (b - 1) * a == a * b - a;
    }
    Decompose(value, a * b, q, r * a + value % a);
  }

  // ---- loading -------------------------------------------------------------------

  /** The unsigned integer of `width` bytes at an offset, if the buffer reaches that far. */
  function Load(buffer: seq<byte>, offset: nat, width: nat): Option<nat> {
    if offset > |buffer| || width > |buffer| - offset then None
    else Some(Value(buffer, offset, width))
  }

  method LoadUnsigned(buffer: seq<byte>, offset: nat, width: nat) returns (loaded: Option<nat>)
    ensures loaded == Load(buffer, offset, width)
  {
    if offset > |buffer| || width > |buffer| - offset {
      return None;
    }
    var value: nat, shift: nat := 0, 1;
    var index := 0;
    while index < width
      invariant 0 <= index <= width
      invariant shift == Power(index) && value == Value(buffer, offset, index)
    {
      ValueExtends(buffer, offset, index);
      value := value + shift * buffer[offset + index];
      shift := 256 * shift;
      index := index + 1;
    }
    return Some(value);
  }

  /** `bit_cast` to the signed type of the same width. */
  function Signed(value: nat, width: nat): int
    requires width > 0
  {
    if 2 * value >= Power(width) then value - Power(width) else value
  }

  function LoadSigned(buffer: seq<byte>, offset: nat, width: nat): Option<int>
    requires width > 0
  {
    var loaded := Load(buffer, offset, width);
    if loaded.None? then None else Some(Signed(loaded.value, width))
  }

  // ---- storing -------------------------------------------------------------------

  /** Byte i of the buffer once the value is stored. */
  function PutAt(buffer: seq<byte>, offset: nat, width: nat, value: nat, i: nat): byte
    requires i < |buffer|
  {
    if offset <= i < offset + width then Bytes(value, width)[i - offset] else buffer[i]
  }

  function Put(buffer: seq<byte>, offset: nat, width: nat, value: nat): (r: seq<byte>)
    requires offset + width <= |buffer|
    ensures |r| == |buffer|
  {
    seq(|buffer|, i requires 0 <= i < |buffer| => PutAt(buffer, offset, width, value, i))
  }

  lemma ShiftOn(value: nat, n: nat)
    ensures value / Power(n) / 256 == value / Power(n + 1)
  {
    DivideTwice(value, Power(n), 256);
  }

  /** A byte buffer written in place: a header array or a growing body. */
  class Buffer {
    var bytes: seq<byte>

    constructor (size: nat)
      ensures bytes == seq(size, _ => 0)
    {
      bytes := seq(size, _ => 0);
    }

    method PutUnsigned(offset: nat, width: nat, value: nat)
      requires offset + width <= |bytes|
      modifies this
      ensures bytes == Put(old(bytes), offset, width, value)
    {
      ghost var before := bytes;
      var shifted := value;
      var index := 0;
      while index < width
        invariant 0 <= index <= width && shifted == value / Power(index)
        invariant bytes == before[..offset] + Bytes(value, index) + before[offset + index..]
      {
        BytesExtend(value, index);
        ShiftOn(value, index);
        bytes := bytes[offset + index := (shifted % 256) as byte];
        shifted := shifted / 256;
        index := index + 1;
      }
      assert bytes == Put(before, offset, width, value);
    }

    /** Appends a text and points the descriptor to it: a 16-bit length and a 32-bit
        offset relative to the descriptor. */
    method AppendText(descriptor: nat, text: seq<byte>)
      requires descriptor + 6 <= |bytes|
      modifies this
      ensures bytes == Appended(old(bytes), descriptor, text)
    {
      var start := |bytes|;
      bytes := bytes + text;
      PutUnsigned(descriptor, 2, |text| % 0x1_0000);
      PutUnsigned(descriptor + 2, 4, (start - descriptor) % 0x1_0000_0000);
    }
  }

  function Appended(buffer: seq<byte>, descriptor: nat, text: seq<byte>): (r: seq<byte>)
    requires descriptor + 6 <= |buffer|
    ensures |r| == |buffer| + |text|
  {
    Put(Put(buffer + text, descriptor, 2, |text| % 0x1_0000),
        descriptor + 2, 4, (|buffer| - descriptor) % 0x1_0000_0000)
  }

  /** What was stored is loaded again ... */
  lemma LoadOfPut(buffer: seq<byte>, offset: nat, width: nat, value: nat)
    requires offset + width <= |buffer| && value < Power(width)
    ensures Load(Put(buffer, offset, width, value), offset, width) == Some(value)
  {
    ValueOfBytes(Put(buffer, offset, width, value), offset, value, width);
  }

  /** ... and loads that do not touch it see what they saw before. */
  lemma LoadBesidePut(buffer: seq<byte>, offset: nat, width: nat, value: nat, at: nat, n: nat)
    requires offset + width <= |buffer| && (at + n <= offset || offset + width <= at)
    ensures Load(Put(buffer, offset, width, value), at, n) == Load(buffer, at, n)
  {
    if at + n <= |buffer| {
      SameValue(Put(buffer, offset, width, value), buffer, at, n);
    }
  }

  lemma LoadOfExtension(buffer: seq<byte>, more: seq<byte>, at: nat, n: nat)
    requires at + n <= |buffer|
    ensures Load(buffer + more, at, n) == Load(buffer, at, n)
  {
    SameValue(buffer + more, buffer, at, n);
  }

  // ---- layouts -------------------------------------------------------------------

  /** A number at a place. */
  datatype Slot = Slot(at: nat, width: nat, value: nat)

  predicate Has(buffer: seq<byte>, fs: seq<Slot>, i: nat)
    requires i < |fs|
  {
    Load(buffer, fs[i].at, fs[i].width) == Some(fs[i].value)
  }

  predicate HasAll(buffer: seq<byte>, fs: seq<Slot>) {
    forall i :: 0 <= i < |fs| ==> Has(buffer, fs, i)
  }

  predicate Beside(at: nat, width: nat, fs: seq<Slot>, i: nat)
    requires i < |fs|
  {
    at + width <= fs[i].at || fs[i].at + fs[i].width <= at
  }

  predicate AllBeside(at: nat, width: nat, fs: seq<Slot>) {
    forall i :: 0 <= i < |fs| ==> Beside(at, width, fs, i)
  }

  lemma BesideMore(at: nat, width: nat, fs: seq<Slot>, f: Slot)
    requires AllBeside(at, width, fs) && (at + width <= f.at || f.at + f.width <= at)
    ensures AllBeside(at, width, fs + [f])
  {
    var all := fs + [f];
    forall i | 0 <= i < |all| ensures Beside(at, width, all, i) {
      if i < |fs| { assert Beside(at, width, fs, i); }
    }
  }

  lemma BesidePart(at: nat, width: nat, fs: seq<Slot>, from: nat, part: nat)
    requires AllBeside(at, width, fs) && at <= from && from + part <= at + width
    ensures AllBeside(from, part, fs)
  {
    forall i | 0 <= i < |fs| ensures Beside(from, part, fs, i) {
      assert Beside(at, width, fs, i);
    }
  }

  /** Storing one more number beside those already there. */
  lemma PutOneMore(buffer: seq<byte>, fs: seq<Slot>, at: nat, width: nat, value: nat)
    requires HasAll(buffer, fs) && AllBeside(at, width, fs)
    requires at + width <= |buffer| && value < Power(width)
    ensures HasAll(Put(buffer, at, width, value), fs + [Slot(at, width, value)])
  {
    var after, all := Put(buffer, at, width, value), fs + [Slot(at, width, value)];
    forall i | 0 <= i < |all| ensures Has(after, all, i) {
      if i < |fs| {
        assert Has(buffer, fs, i) && Beside(at, width, fs, i);
        LoadBesidePut(buffer, at, width, value, fs[i].at, fs[i].width);
      } else {
        LoadOfPut(buffer, at, width, value);
      }
    }
  }

  lemma ExtendAll(buffer: seq<byte>, fs: seq<Slot>, more: seq<byte>)
    requires HasAll(buffer, fs)
    ensures HasAll(buffer + more, fs)
  {
    forall i | 0 <= i < |fs| ensures Has(buffer + more, fs, i) {
      assert Has(buffer, fs, i);
      LoadOfExtension(buffer, more, fs[i].at, fs[i].width);
    }
  }

  /** Storing a descriptor: a length and an offset. */
  lemma PutDescriptor(buffer: seq<byte>, fs: seq<Slot>, at: nat, length: nat, offset: nat)
    requires HasAll(buffer, fs) && AllBeside(at, 6, fs)
    requires at + 6 <= |buffer| && length < 0x1_0000 && offset < 0x1_0000_0000
    ensures HasAll(Put(Put(buffer, at, 2, length), at + 2, 4, offset),
                   fs + [Slot(at, 2, length)] + [Slot(at + 2, 4, offset)])
  {
    assert Power(2) == 0x1_0000 && Power(4) == 0x1_0000_0000;
    BesidePart(at, 6, fs, at, 2);
    PutOneMore(buffer, fs, at, 2, length);
    BesidePart(at, 6, fs, at + 2, 4);
    BesideMore(at + 2, 4, fs, Slot(at, 2, length));
    PutOneMore(Put(buffer, at, 2, length), fs + [Slot(at, 2, length)], at + 2, 4, offset);
  }

  /** Appending a text whose descriptor is beside everything already there. */
  lemma AppendOneMore(buffer: seq<byte>, fs: seq<Slot>, descriptor: nat, text: seq<byte>)
    requires HasAll(buffer, fs) && AllBeside(descriptor, 6, fs)
    requires descriptor + 6 <= |buffer| < 0x1_0000_0000 && |text| < 0x1_0000
    ensures HasAll(Appended(buffer, descriptor, text),
                   fs + [Slot(descriptor, 2, |text|)] + [Slot(descriptor + 2, 4, |buffer| - descriptor)])
  {
    ExtendAll(buffer, fs, text);
    PutDescriptor(buffer + text, fs, descriptor, |text|, |buffer| - descriptor);
  }
}
