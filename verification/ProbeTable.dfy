/** Linear probing over a table of one-based entry numbers, as both the catalog and the
    channel table use it: it refines the exact map from key to entry, for any hash. */
module ProbeTable {
  import opened Remainders

  /** The slot d steps after `home`, wrapping at the end of a table of n slots. */
  function Walk(home: nat, d: nat, n: nat): (slot: nat)
    requires home < n && d < n
    ensures slot < n
  {
    if home + d < n then home + d else home + d - n
  }

  lemma WalkIsRemainder(home: nat, d: nat, n: nat)
    requires home < n && d < n
    ensures (home + d) % n == Walk(home, d, n)
  {
    if home + d < n { Decompose(home + d, n, 0, home + d); } else { Decompose(home + d, n, 1, home + d - n); }
  }

  /** `(slot + 1) & mask`. */
  function Next(slot: nat, n: nat): (next: nat)
    requires slot < n
    ensures next < n
  {
    if slot + 1 < n then slot + 1 else 0
  }

  /** The walk from any home reaches every slot. */
  function Distance(home: nat, slot: nat, n: nat): (d: nat)
    requires home < n && slot < n
    ensures d < n && Walk(home, d, n) == slot
  {
    if home <= slot then slot - home else slot + n - home
  }

  /** Entry k sits dist[k] steps from its home, with no free slot on the way. */
  ghost predicate Reachable(table: seq<nat>, homes: seq<nat>, dist: seq<nat>, k: nat)
    requires k < |homes| == |dist|
  {
    && homes[k] < |table| && dist[k] < |table|
    && table[Walk(homes[k], dist[k], |table|)] == k + 1
    && (forall d :: 0 <= d < dist[k] ==> table[Walk(homes[k], d, |table|)] != 0)
  }

  /** A slot is taken only by an entry that sits there. */
  ghost predicate Owned(table: seq<nat>, homes: seq<nat>, dist: seq<nat>, p: nat)
    requires p < |table| && |homes| == |dist|
  {
    table[p] != 0 ==>
      && table[p] <= |homes|
      && homes[table[p] - 1] < |table| && dist[table[p] - 1] < |table|
      && p == Walk(homes[table[p] - 1], dist[table[p] - 1], |table|)
  }

  ghost predicate Filed(table: seq<nat>, homes: seq<nat>, dist: seq<nat>) {
    && |dist| == |homes|
    && (forall k :: 0 <= k < |homes| ==> Reachable(table, homes, dist, k))
    && (forall p :: 0 <= p < |table| ==> Owned(table, homes, dist, p))
  }

  /** A probe that meets a free slot has passed every entry with its home. */
  lemma FreeSlotEnds(table: seq<nat>, homes: seq<nat>, dist: seq<nat>, d: nat, k: nat)
    requires Filed(table, homes, dist) && k < |homes| && d < |table|
    requires homes[k] < |table| && table[Walk(homes[k], d, |table|)] == 0
    ensures dist[k] < d && table[Walk(homes[k], dist[k], |table|)] == k + 1
  {
    assert Reachable(table, homes, dist, k);
  }

  /** Filing a new entry in the first free slot of its probe keeps the table in order. */
  lemma File(table: seq<nat>, homes: seq<nat>, dist: seq<nat>, home: nat, d: nat)
    requires Filed(table, homes, dist) && home < |table| && d < |table|
    requires table[Walk(home, d, |table|)] == 0
    requires forall e :: 0 <= e < d ==> table[Walk(home, e, |table|)] != 0
    ensures Filed(table[Walk(home, d, |table|) := |homes| + 1], homes + [home], dist + [d])
  {
    var slot := Walk(home, d, |table|);
    var more, hs, ds := table[slot := |homes| + 1], homes + [home], dist + [d];
    forall k | 0 <= k < |hs| ensures Reachable(more, hs, ds, k) {
      if k < |homes| { assert Reachable(table, homes, dist, k); }
    }
    forall p | 0 <= p < |more| ensures Owned(more, hs, ds, p) {
      assert Owned(table, homes, dist, p);
    }
  }

  ghost function Below(n: nat): (s: set<nat>)
    ensures forall x: nat :: x in s <==> x < n
    ensures |s| == n
  {
    if n == 0 then {} else Below(n - 1) + {(n - 1) as nat}
  }

  ghost function Elements(xs: seq<nat>): (s: set<nat>)
    ensures forall x :: x in s <==> x in xs
  {
    if xs == [] then {} else Elements(xs[..|xs| - 1]) + {xs[|xs| - 1]}
  }

  lemma {:induction false} DistinctCount(xs: seq<nat>)
    requires forall i, j :: 0 <= i < j < |xs| ==> xs[i] != xs[j]
    ensures |Elements(xs)| == |xs|
  {
    if xs != [] {
      DistinctCount(xs[..|xs| - 1]);
      assert xs[|xs| - 1] !in xs[..|xs| - 1];
    }
  }

  /** Distinct numbers below m are at most m. */
  lemma Pigeonhole(xs: seq<nat>, m: nat)
    requires forall i :: 0 <= i < |xs| ==> xs[i] < m
    requires forall i, j :: 0 <= i < j < |xs| ==> xs[i] != xs[j]
    ensures |xs| <= m
  {
    DistinctCount(xs);
    assert Elements(xs) <= Below(m);
    assert Below(m) == Elements(xs) + (Below(m) - Elements(xs));
  }

  /** A table with more slots than entries has a free one, so every probe ends. */
  lemma FreeSlotExists(table: seq<nat>, homes: seq<nat>, dist: seq<nat>)
    requires Filed(table, homes, dist) && |homes| < |table|
    ensures exists p :: 0 <= p < |table| && table[p] == 0
  {
    if forall p :: 0 <= p < |table| ==> table[p] != 0 {
      var entries := seq(|table|, p requires 0 <= p < |table| => (table[p] - 1) as nat);
      forall i | 0 <= i < |entries| ensures entries[i] < |homes| {
        assert Owned(table, homes, dist, i);
      }
      forall i, j | 0 <= i < j < |entries| ensures entries[i] != entries[j] {
        assert Owned(table, homes, dist, i) && Owned(table, homes, dist, j);
      }
      Pigeonhole(entries, |homes|);
    }
  }

  // ---- keys ------------------------------------------------------------------

  /** The slot array, and for every entry its home slot and its distance from there. */
  datatype Index = Index(slots: seq<nat>, homes: seq<nat>, dist: seq<nat>)

  /** `hash & mask`. */
  function Home<K>(hash: K -> nat, key: K, n: nat): (home: nat)
    requires n > 0
    ensures home < n
  {
    hash(key) % n
  }

  ghost predicate AtHome<K>(x: Index, hash: K -> nat, keys: seq<K>, i: nat)
    requires |x.slots| > 0 && i < |x.homes| == |keys|
  {
    x.homes[i] == Home(hash, keys[i], |x.slots|)
  }

  ghost predicate Unlike<K>(keys: seq<K>, i: nat, j: nat)
    requires i < |keys| && j < |keys|
  {
    keys[i] != keys[j]
  }

  /** Every key is filed from its own home, once, and there is a free slot. */
  ghost predicate Indexed<K>(x: Index, hash: K -> nat, keys: seq<K>) {
    && |keys| < |x.slots|
    && Filed(x.slots, x.homes, x.dist)
    && |x.homes| == |keys|
    && (forall i :: 0 <= i < |keys| ==> AtHome(x, hash, keys, i))
    && (forall i, j :: 0 <= i < j < |keys| ==> Unlike(keys, i, j))
  }

  /** Slot e of the probe is taken by some other key. */
  ghost predicate Elsewhere<K>(x: Index, keys: seq<K>, home: nat, key: K, e: nat)
    requires home < |x.slots| && e < |x.slots|
  {
    var entry := x.slots[Walk(home, e, |x.slots|)];
    0 < entry <= |keys| && keys[entry - 1] != key
  }

  /** The probe has passed `steps` taken slots, none of them this key's. */
  ghost predicate Passed<K>(x: Index, keys: seq<K>, home: nat, key: K, steps: nat)
    requires home < |x.slots| && steps <= |x.slots|
  {
    forall e :: 0 <= e < steps ==> Elsewhere(x, keys, home, key, e)
  }

  /** A probe that ends at a free slot proves the key absent. */
  lemma FreeMeansAbsent<K>(x: Index, hash: K -> nat, keys: seq<K>, key: K, d: nat)
    requires Indexed(x, hash, keys) && d < |x.slots|
    requires var home := Home(hash, key, |x.slots|);
      Passed(x, keys, home, key, d) && x.slots[Walk(home, d, |x.slots|)] == 0
    ensures key !in keys
  {
    if key in keys {
      var k :| 0 <= k < |keys| && keys[k] == key;
      assert AtHome(x, hash, keys, k) && Reachable(x.slots, x.homes, x.dist, k);
      assert x.dist[k] < d ==> Elsewhere(x, keys, x.homes[k], key, x.dist[k]);
      FreeSlotEnds(x.slots, x.homes, x.dist, d, k);
    }
  }

  lemma TakenMeansEntry<K>(x: Index, hash: K -> nat, keys: seq<K>, slot: nat)
    requires Indexed(x, hash, keys) && slot < |x.slots| && x.slots[slot] != 0
    ensures x.slots[slot] <= |keys|
  {
    assert Owned(x.slots, x.homes, x.dist, slot);
  }

  lemma KeyOnce<K>(x: Index, hash: K -> nat, keys: seq<K>, i: nat, j: nat)
    requires Indexed(x, hash, keys) && i < |keys| && j < |keys| && keys[i] == keys[j]
    ensures i == j
  {
    assert i < j ==> Unlike(keys, i, j);
    assert j < i ==> Unlike(keys, j, i);
  }

  /** A probe cannot run through the whole table. */
  lemma ProbeEnds<K>(x: Index, hash: K -> nat, keys: seq<K>, key: K)
    requires Indexed(x, hash, keys)
    ensures !Passed(x, keys, Home(hash, key, |x.slots|), key, |x.slots|)
  {
    FreeSlotExists(x.slots, x.homes, x.dist);
    var p :| 0 <= p < |x.slots| && x.slots[p] == 0;
    var home := Home(hash, key, |x.slots|);
    assert !Elsewhere(x, keys, home, key, Distance(home, p, |x.slots|));
  }

  function Registered(x: Index, home: nat, d: nat): Index
    requires home < |x.slots| && d < |x.slots|
  {
    Index(x.slots[Walk(home, d, |x.slots|) := |x.homes| + 1], x.homes + [home], x.dist + [d])
  }

  /** Filing a new key at the free slot that ended its probe. */
  lemma Register<K>(x: Index, hash: K -> nat, keys: seq<K>, key: K, d: nat)
    requires Indexed(x, hash, keys) && d < |x.slots| && |keys| + 1 < |x.slots|
    requires var home := Home(hash, key, |x.slots|);
      Passed(x, keys, home, key, d) && x.slots[Walk(home, d, |x.slots|)] == 0
    ensures Indexed(Registered(x, Home(hash, key, |x.slots|), d), hash, keys + [key])
  {
    var home := Home(hash, key, |x.slots|);
    var x', keys' := Registered(x, home, d), keys + [key];
    forall e | 0 <= e < d ensures x.slots[Walk(home, e, |x.slots|)] != 0 {
      assert Elsewhere(x, keys, home, key, e);
    }
    File(x.slots, x.homes, x.dist, home, d);
    FreeMeansAbsent(x, hash, keys, key, d);
    forall i, j | 0 <= i < j < |keys'| ensures Unlike(keys', i, j) {
      if j < |keys| { assert Unlike(keys, i, j); }
    }
    forall i | 0 <= i < |keys'| ensures AtHome(x', hash, keys', i) {
      if i < |keys| { assert AtHome(x, hash, keys, i); }
    }
  }
}
