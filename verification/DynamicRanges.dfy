/** Texts and lists that a message body points to. One decode accepts only ranges that
    lie behind the fixed part, inside the body, and apart from each other. */
module DynamicRanges {
  import opened Common
  import opened FixedPoint
  import opened Remainders
  import opened Wire

  const SIZE_MAX: nat := 0xFFFF_FFFF_FFFF_FFFF

  datatype Range = Range(begin: nat, end: nat)

  /** The ranges accepted so far; `on` only within a decode. */
  datatype Guard = Guard(on: bool, ranges: seq<Range>)

  datatype Guarded<+T> = Accepted(value: T, guard: Guard) | Rejected(error: DecodeError)

  datatype TextView = TextView(start: nat, bytes: seq<byte>)

  datatype ListView = ListView(start: nat, count: nat, itemSize: nat)

  predicate Overlaps(r: Range, begin: nat, end: nat) {
    begin < r.end && r.begin < end
  }

  function Protect(g: Guard, begin: nat, size: nat): Guarded<()> {
    if !g.on || size == 0 then Accepted((), g)
    else if begin + size > SIZE_MAX then Rejected(InvalidOffset)
    else if exists i :: 0 <= i < |g.ranges| && Overlaps(g.ranges[i], begin, begin + size) then Rejected(RangeOverlap)
    else Accepted((), g.(ranges := g.ranges + [Range(begin, begin + size)]))
  }

  /** An empty text or list may still carry an offset, which must stay in the body. */
  predicate StrayOffset(body: seq<byte>, descriptor: nat, relative: nat) {
    relative != 0 && (descriptor + relative > SIZE_MAX || descriptor + relative > |body|)
  }

  function ReadText(
    g: Guard, body: seq<byte>, descriptor: nat, fixed: nat, maximum: nat, nonempty: bool): Guarded<TextView> {
    var length, relative := Load(body, descriptor, 2), Load(body, descriptor + 2, 4);
    if |body| < fixed || length.None? || relative.None? then Rejected(Truncated)
    else if length.value > maximum then Rejected(CountExceeded)
    else if length.value == 0 then
      if StrayOffset(body, descriptor, relative.value) then Rejected(InvalidOffset)
      else if nonempty then Rejected(InvalidText)
      else Accepted(TextView(0, []), g)
    else
      var start, size := descriptor + relative.value, length.value;
      if relative.value < 6 || start > SIZE_MAX || start < fixed || start > |body| || size > |body| - start
      then Rejected(InvalidOffset)
      else if !Printable(body[start..start + size]) then Rejected(InvalidText)
      else
        var p := Protect(g, start, size);
        if p.Rejected? then Rejected(p.error) else Accepted(TextView(start, body[start..start + size]), p.guard)
  }

  function ReadList(
    g: Guard, body: seq<byte>, descriptor: nat, itemSize: nat, fixed: nat, maximum: nat): Guarded<ListView>
    requires itemSize > 0
  {
    var count, relative := Load(body, descriptor, 4), Load(body, descriptor + 4, 4);
    if |body| < fixed || count.None? || relative.None? then Rejected(Truncated)
    else if count.value > maximum then Rejected(CountExceeded)
    else if count.value == 0 then
      if StrayOffset(body, descriptor, relative.value) then Rejected(InvalidOffset)
      else Accepted(ListView(0, 0, itemSize), g)
    else
      var start, bytes := descriptor + relative.value, count.value * itemSize;
      if relative.value < 8 || bytes > SIZE_MAX || start > SIZE_MAX || start < fixed || start > |body|
        || bytes > |body| - start
      then Rejected(InvalidOffset)
      else
        var p := Protect(g, start, bytes);
        if p.Rejected? then Rejected(p.error) else Accepted(ListView(start, count.value, itemSize), p.guard)
  }

  // ---- the discipline --------------------------------------------------------------

  predicate InDynamicPart(r: Range, fixed: nat, size: nat) {
    fixed <= r.begin < r.end <= size
  }

  predicate Apart(ranges: seq<Range>, i: nat, j: nat)
    requires i < |ranges| && j < |ranges|
  {
    ranges[i].end <= ranges[j].begin || ranges[j].end <= ranges[i].begin
  }

  predicate Disciplined(ranges: seq<Range>, fixed: nat, size: nat) {
    && (forall i :: 0 <= i < |ranges| ==> InDynamicPart(ranges[i], fixed, size))
    && (forall i, j :: 0 <= i < j < |ranges| ==> Apart(ranges, i, j))
  }

  lemma ProtectKeeps(g: Guard, begin: nat, size: nat, fixed: nat, total: nat)
    requires Disciplined(g.ranges, fixed, total) && fixed <= begin && begin + size <= total
    requires Protect(g, begin, size).Accepted?
    ensures Disciplined(Protect(g, begin, size).guard.ranges, fixed, total)
  {
    var ranges := Protect(g, begin, size).guard.ranges;
    forall i, j | 0 <= i < j < |ranges| ensures Apart(ranges, i, j) {
      if j < |g.ranges| {
        assert Apart(g.ranges, i, j);
      } else {
        assert !Overlaps(g.ranges[i], begin, begin + size) && InDynamicPart(g.ranges[i], fixed, total);
      }
    }
  }

  /** An accepted text is the bytes of a new range, or empty. */
  lemma TextDisciplined(g: Guard, body: seq<byte>, descriptor: nat, fixed: nat, maximum: nat, nonempty: bool)
    requires g.on && Disciplined(g.ranges, fixed, |body|)
    ensures var r := ReadText(g, body, descriptor, fixed, maximum, nonempty);
      r.Accepted? ==>
        && Disciplined(r.guard.ranges, fixed, |body|) && r.guard.on
        && Printable(r.value.bytes) && |r.value.bytes| <= maximum
        && (nonempty ==> r.value.bytes != [])
        && (if r.value.bytes == [] then r.guard == g
            else r.guard.ranges == g.ranges + [Range(r.value.start, r.value.start + |r.value.bytes|)]
                 && r.value.start + |r.value.bytes| <= |body|
                 && r.value.bytes == body[r.value.start..r.value.start + |r.value.bytes|])
  {
    var r := ReadText(g, body, descriptor, fixed, maximum, nonempty);
    if r.Accepted? && r.value.bytes != [] {
      ProtectKeeps(g, r.value.start, |r.value.bytes|, fixed, |body|);
    }
  }

  /** An accepted list occupies a new range, or is empty. */
  lemma ListDisciplined(g: Guard, body: seq<byte>, descriptor: nat, itemSize: nat, fixed: nat, maximum: nat)
    requires itemSize > 0 && g.on && Disciplined(g.ranges, fixed, |body|)
    ensures var r := ReadList(g, body, descriptor, itemSize, fixed, maximum);
      r.Accepted? ==>
        && Disciplined(r.guard.ranges, fixed, |body|) && r.guard.on
        && r.value.itemSize == itemSize && r.value.count <= maximum
        && (if r.value.count == 0 then r.guard == g
            else r.guard.ranges == g.ranges + [Range(r.value.start, r.value.start + r.value.count * itemSize)]
                 && r.value.start + r.value.count * itemSize <= |body|)
  {
    var r := ReadList(g, body, descriptor, itemSize, fixed, maximum);
    if r.Accepted? && r.value.count > 0 {
      ProductGrows(1, r.value.count, itemSize);
      ProtectKeeps(g, r.value.start, r.value.count * itemSize, fixed, |body|);
    }
  }

  // ---- how many bytes --------------------------------------------------------------

  function Total(ranges: seq<Range>): int {
    if ranges == [] then 0
    else Total(ranges[..|ranges| - 1]) + (ranges[|ranges| - 1].end - ranges[|ranges| - 1].begin)
  }

  ghost function Span(begin: nat, end: nat): (s: set<nat>)
    requires begin <= end
    ensures forall x: nat :: x in s <==> begin <= x < end
    ensures |s| == end - begin
    decreases end
  {
    if begin == end then {} else Span(begin, end - 1) + {(end - 1) as nat}
  }

  ghost function Covered(ranges: seq<Range>): set<nat>
    requires forall i :: 0 <= i < |ranges| ==> ranges[i].begin <= ranges[i].end
  {
    if ranges == [] then {}
    else Covered(ranges[..|ranges| - 1]) + Span(ranges[|ranges| - 1].begin, ranges[|ranges| - 1].end)
  }

  predicate Includes(r: Range, x: nat) {
    r.begin <= x < r.end
  }

  /** A covered position is in one of the ranges. */
  lemma {:induction false} CoveredBy(ranges: seq<Range>, x: nat) returns (i: nat)
    requires forall i :: 0 <= i < |ranges| ==> ranges[i].begin <= ranges[i].end
    requires x in Covered(ranges)
    ensures i < |ranges| && Includes(ranges[i], x)
  {
    i := |ranges| - 1;
    if !Includes(ranges[i], x) {
      i := CoveredBy(ranges[..|ranges| - 1], x);
    }
  }

  lemma {:induction false} CoveredSize(ranges: seq<Range>, fixed: nat, size: nat)
    requires Disciplined(ranges, fixed, size)
    ensures |Covered(ranges)| == Total(ranges)
  {
    if ranges != [] {
      var earlier, last := ranges[..|ranges| - 1], ranges[|ranges| - 1];
      forall i, j | 0 <= i < j < |earlier| ensures Apart(earlier, i, j) { assert Apart(ranges, i, j); }
      CoveredSize(earlier, fixed, size);
      forall x | x in Covered(earlier) ensures x !in Span(last.begin, last.end) {
        var i := CoveredBy(earlier, x);
        assert Apart(ranges, i, |ranges| - 1);
      }
      assert Covered(earlier) !! Span(last.begin, last.end);
    }
  }

  lemma Subset(small: set<nat>, big: set<nat>)
    requires small <= big
    ensures |small| <= |big|
  {
    assert big == small + (big - small);
  }

  /** All accepted ranges together are no longer than the dynamic part of the body. */
  lemma TotalBounded(ranges: seq<Range>, fixed: nat, size: nat)
    requires fixed <= size && Disciplined(ranges, fixed, size)
    ensures 0 <= Total(ranges) <= size - fixed
  {
    CoveredSize(ranges, fixed, size);
    forall x | x in Covered(ranges) ensures x in Span(fixed, size) {
      var i := CoveredBy(ranges, x);
    }
    Subset(Covered(ranges), Span(fixed, size));
  }

  // ---- the reader ------------------------------------------------------------------

  /** The protected ranges of one decode call. */
  class Reader {
    var guard: Guard

    constructor (on: bool)
      ensures guard == Guard(on, [])
    {
      guard := Guard(on, []);
    }

    method ProtectRange(begin: nat, size: nat) returns (error: Option<DecodeError>)
      modifies this
      ensures var p := Protect(old(guard), begin, size);
        if p.Accepted? then error.None? && guard == p.guard else error == Some(p.error) && guard == old(guard)
    {
      if !guard.on || size == 0 {
        return None;
      }
      if begin > SIZE_MAX - size {
        return Some(InvalidOffset);
      }
      var end := begin + size;
      var i := 0;
      while i < |guard.ranges|
        invariant 0 <= i <= |guard.ranges|
        invariant forall k :: 0 <= k < i ==> !Overlaps(guard.ranges[k], begin, end)
        modifies {}
      {
        if Overlaps(guard.ranges[i], begin, end) {
          return Some(RangeOverlap);
        }
        i := i + 1;
      }
      guard := guard.(ranges := guard.ranges + [Range(begin, end)]);
      return None;
    }

    method Text(
      body: seq<byte>, descriptor: nat, fixed: nat, maximum: nat, nonempty: bool) returns (r: Guarded<TextView>)
      modifies this
      ensures r == ReadText(old(guard), body, descriptor, fixed, maximum, nonempty)
      ensures guard == if r.Accepted? then r.guard else old(guard)
    {
      if |body| < fixed {
        return Rejected(Truncated);
      }
      var length := LoadUnsigned(body, descriptor, 2);
      var relative := LoadUnsigned(body, descriptor + 2, 4);
      if length.None? || relative.None? {
        return Rejected(Truncated);
      }
      var size := length.value;
      if size > maximum {
        return Rejected(CountExceeded);
      }
      if size == 0 {
        if StrayOffset(body, descriptor, relative.value) {
          return Rejected(InvalidOffset);
        }
        return if nonempty then Rejected(InvalidText) else Accepted(TextView(0, []), guard);
      }
      var start := descriptor + relative.value;
      if relative.value < 6 || start > SIZE_MAX {
        return Rejected(InvalidOffset);
      }
      if start < fixed || start > |body| || size > |body| - start {
        return Rejected(InvalidOffset);
      }
      var value := body[start..start + size];
      if !Printable(value) {
        return Rejected(InvalidText);
      }
      var error := ProtectRange(start, size);
      return if error.Some? then Rejected(error.value) else Accepted(TextView(start, value), guard);
    }

    method List(
      body: seq<byte>, descriptor: nat, itemSize: nat, fixed: nat, maximum: nat) returns (r: Guarded<ListView>)
      requires itemSize > 0
      modifies this
      ensures r == ReadList(old(guard), body, descriptor, itemSize, fixed, maximum)
      ensures guard == if r.Accepted? then r.guard else old(guard)
    {
      if |body| < fixed {
        return Rejected(Truncated);
      }
      var count := LoadUnsigned(body, descriptor, 4);
      var relative := LoadUnsigned(body, descriptor + 4, 4);
      if count.None? || relative.None? {
        return Rejected(Truncated);
      }
      if count.value > maximum {
        return Rejected(CountExceeded);
      }
      if count.value == 0 {
        return if StrayOffset(body, descriptor, relative.value) then Rejected(InvalidOffset)
          else Accepted(ListView(0, 0, itemSize), guard);
      }
      var start, bytes := descriptor + relative.value, count.value * itemSize;
      if relative.value < 8 || bytes > SIZE_MAX || start > SIZE_MAX {
        return Rejected(InvalidOffset);
      }
      if start < fixed || start > |body| || bytes > |body| - start {
        return Rejected(InvalidOffset);
      }
      var error := ProtectRange(start, bytes);
      return if error.Some? then Rejected(error.value) else Accepted(ListView(start, count.value, itemSize), guard);
    }
  }
}
