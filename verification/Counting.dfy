/** How often a slot number occurs in a list: with it "in exactly one place" is a sum. */
module Counting {

  function Count(s: seq<nat>, x: nat): nat {
    if s == [] then 0 else Count(s[..|s| - 1], x) + if s[|s| - 1] == x then 1 else 0
  }

  lemma CountPush(s: seq<nat>, y: nat, x: nat)
    ensures Count(s + [y], x) == Count(s, x) + if y == x then 1 else 0
  {
    assert (s + [y])[..|s|] == s;
  }

  function Without<T>(s: seq<T>, k: nat): seq<T>
    requires k < |s|
  {
    s[..k] + s[k + 1..]
  }

  lemma {:induction false} CountWithout(s: seq<nat>, k: nat, x: nat)
    requires k < |s|
    ensures Count(s, x) == Count(Without(s, k), x) + if s[k] == x then 1 else 0
  {
    var init := s[..|s| - 1];
    if k == |s| - 1 {
      assert Without(s, k) == init;
    } else {
      CountWithout(init, k, x);
      assert Without(s, k) == Without(init, k) + [s[|s| - 1]];
      CountPush(Without(init, k), s[|s| - 1], x);
    }
  }

  lemma CountPop(s: seq<nat>, x: nat)
    requires s != []
    ensures Count(s, x) == Count(s[1..], x) + if s[0] == x then 1 else 0
  {
    CountWithout(s, 0, x);
    assert Without(s, 0) == s[1..];
  }

  lemma {:induction false} CountMember(s: seq<nat>, i: nat)
    requires i < |s|
    ensures Count(s, s[i]) > 0
  {
    if i < |s| - 1 {
      CountMember(s[..|s| - 1], i);
    }
  }

  /** The free list initially holds all slots, lowest number last. */
  function Descending(n: nat): (s: seq<nat>)
    ensures |s| == n
  {
    if n == 0 then [] else [n - 1] + Descending(n - 1)
  }

  lemma {:induction false} DescendingCounts(n: nat, x: nat)
    ensures Count(Descending(n), x) == if x < n then 1 else 0
  {
    if n > 0 {
      CountPop(Descending(n), x);
      DescendingCounts(n - 1, x);
    }
  }
}
