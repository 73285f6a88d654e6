/** The instrument catalog: a linear-probing table that refines an exact map from
    instrument identity to definition, for any hash. */
module Catalog {
  import opened Canonical
  import opened Common
  import opened ProbeTable

  const IDENTITY_BYTES := 32
  const U32_MAX := 0xFFFF_FFFF

  datatype Definition = Definition(instrumentId: nat, market: Market, source: seq<byte>, security: seq<byte>)

  datatype Key = Key(market: Market, source: seq<byte>, security: seq<byte>)

  type Hash = Key -> nat

  datatype Match = Match(instrumentId: nat, ordinal: nat)

  /** Fixed-size byte arrays with the lengths in use, as an entry stores them. */
  datatype ExactIdentity = ExactIdentity(
    market: Market,
    sourceSize: nat,
    securitySize: nat,
    sourceBytes: seq<byte>,
    securityBytes: seq<byte>)

  datatype Entry = Entry(found: Match, identity: ExactIdentity, hash: nat)

  datatype BuildError =
    | EmptyCatalog | TooManyInstruments | BadInstrumentId | BadMarket | BadIdentityText
    | ShanghaiSource | ShenzhenSource | DuplicateIdentity

  function KeyOf(d: Definition): Key {
    Key(d.market, d.source, d.security)
  }

  ghost function KeysOf(ds: seq<Definition>): (keys: seq<Key>)
    ensures |keys| == |ds| && forall i :: 0 <= i < |ds| ==> keys[i] == KeyOf(ds[i])
  {
    seq(|ds|, i requires 0 <= i < |ds| => KeyOf(ds[i]))
  }

  // ---- which definitions are acceptable ----------------------------------------

  /** What a definition may look like by itself. */
  predicate WellFormed(d: Definition) {
    && d.instrumentId != 0
    && ((d.market == Shanghai && d.source == []) || (d.market == Shenzhen && d.source != []))
    && 0 < |d.security| <= IDENTITY_BYTES && |d.source| <= IDENTITY_BYTES
    && Printable(d.security) && Printable(d.source)
  }

  predicate Differ(ds: seq<Definition>, i: nat, j: nat)
    requires i < |ds| && j < |ds|
  {
    ds[i].instrumentId != ds[j].instrumentId && KeyOf(ds[i]) != KeyOf(ds[j])
  }

  /** A catalog can be built from these. */
  predicate Acceptable(ds: seq<Definition>) {
    && 0 < |ds| < U32_MAX
    && (forall i :: 0 <= i < |ds| ==> WellFormed(ds[i]))
    && (forall i, j :: 0 <= i < j < |ds| ==> Differ(ds, i, j))
  }

  function TextComplaint(d: Definition): Option<BuildError> {
    if d.market != Shanghai && d.market != Shenzhen then Some(BadMarket)
    else if d.security == [] || |d.security| > IDENTITY_BYTES || |d.source| > IDENTITY_BYTES
         || !Printable(d.security) || !Printable(d.source) then Some(BadIdentityText)
    else if d.market == Shanghai && d.source != [] then Some(ShanghaiSource)
    else if d.market == Shenzhen && d.source == [] then Some(ShenzhenSource)
    else None
  }

  predicate IdTaken(ds: seq<Definition>, i: nat)
    requires i < |ds|
  {
    exists j :: 0 <= j < i && ds[j].instrumentId == ds[i].instrumentId
  }

  predicate KeyTaken(ds: seq<Definition>, i: nat)
    requires i < |ds|
  {
    exists j :: 0 <= j < i && KeyOf(ds[j]) == KeyOf(ds[i])
  }

  /** What the build holds against definition i, having accepted those before it. */
  function Complaint(ds: seq<Definition>, i: nat): Option<BuildError>
    requires i < |ds|
  {
    if ds[i].instrumentId == 0 || IdTaken(ds, i) then Some(BadInstrumentId)
    else if TextComplaint(ds[i]).Some? then TextComplaint(ds[i])
    else if KeyTaken(ds, i) then Some(DuplicateIdentity)
    else None
  }

  /** The first complaint among the first n definitions. */
  function FirstComplaint(ds: seq<Definition>, n: nat): Option<BuildError>
    requires n <= |ds|
  {
    if n == 0 then None
    else if FirstComplaint(ds, n - 1).Some? then FirstComplaint(ds, n - 1)
    else Complaint(ds, n - 1)
  }

  function Verdict(ds: seq<Definition>): Option<BuildError> {
    if ds == [] then Some(EmptyCatalog)
    else if |ds| >= U32_MAX then Some(TooManyInstruments)
    else FirstComplaint(ds, |ds|)
  }

  predicate Seen(ds: seq<Definition>, n: nat, id: nat)
    requires n <= |ds|
  {
    exists j :: 0 <= j < n && ds[j].instrumentId == id
  }

  /** The ids of the first n definitions. */
  ghost predicate IdsOf(ids: set<nat>, ds: seq<Definition>, n: nat)
    requires n <= |ds|
  {
    forall id :: Seen(ds, n, id) <==> id in ids
  }

  lemma IdsExtend(ids: set<nat>, ds: seq<Definition>, n: nat)
    requires n < |ds| && IdsOf(ids, ds, n)
    ensures ds[n].instrumentId in ids <==> IdTaken(ds, n)
    ensures IdsOf(ids + {ds[n].instrumentId}, ds, n + 1)
  {
    assert Seen(ds, n, ds[n].instrumentId) <==> IdTaken(ds, n);
    forall id ensures Seen(ds, n + 1, id) <==> id in ids + {ds[n].instrumentId} {
      assert Seen(ds, n, id) <==> id in ids;
      assert Seen(ds, n + 1, ds[n].instrumentId);
    }
  }

  lemma {:induction false} ComplaintStands(ds: seq<Definition>, n: nat, m: nat)
    requires n <= m <= |ds| && FirstComplaint(ds, n).Some?
    ensures FirstComplaint(ds, m) == FirstComplaint(ds, n)
  {
    if n < m {
      ComplaintStands(ds, n, m - 1);
    }
  }

  lemma {:induction false} NoComplaint(ds: seq<Definition>, n: nat)
    requires n <= |ds|
    ensures FirstComplaint(ds, n).None? <==> forall i :: 0 <= i < n ==> Complaint(ds, i).None?
  {
    if n > 0 {
      NoComplaint(ds, n - 1);
    }
  }

  /** Definition by definition, the build's checks amount to the global condition. */
  lemma VerdictExact(ds: seq<Definition>)
    ensures Verdict(ds).None? <==> Acceptable(ds)
  {
    NoComplaint(ds, |ds|);
    if Verdict(ds).None? {
      forall i | 0 <= i < |ds| ensures WellFormed(ds[i]) {
        assert Complaint(ds, i).None?;
      }
      forall i, j | 0 <= i < j < |ds| ensures Differ(ds, i, j) {
        assert Complaint(ds, j).None?;
      }
    } else if Acceptable(ds) {
      forall i | 0 <= i < |ds| ensures Complaint(ds, i).None? {
        assert WellFormed(ds[i]);
        forall j | 0 <= j < i ensures ds[j].instrumentId != ds[i].instrumentId && KeyOf(ds[j]) != KeyOf(ds[i]) {
          assert Differ(ds, j, i);
        }
      }
      assert false;
    }
  }

  // ---- entries -----------------------------------------------------------------

  function Padded(text: seq<byte>): (r: seq<byte>)
    requires |text| <= IDENTITY_BYTES
    ensures |r| == IDENTITY_BYTES && r[..|text|] == text
  {
    text + seq(IDENTITY_BYTES - |text|, _ => 0)
  }

  function EntryOf(hash: Hash, d: Definition, ordinal: nat): Entry
    requires WellFormed(d)
  {
    Entry(Match(d.instrumentId, ordinal),
          ExactIdentity(d.market, |d.source|, |d.security|, Padded(d.source), Padded(d.security)),
          hash(KeyOf(d)))
  }

  /** The comparison a probe makes; the hashes only save time. */
  predicate Holds(e: Entry, hash: nat, key: Key) {
    && e.hash == hash
    && e.identity.market == key.market
    && e.identity.sourceSize == |key.source| <= |e.identity.sourceBytes|
    && e.identity.securitySize == |key.security| <= |e.identity.securityBytes|
    && key.source == e.identity.sourceBytes[..|key.source|]
    && key.security == e.identity.securityBytes[..|key.security|]
  }

  lemma HoldsOwnKey(hash: Hash, d: Definition, ordinal: nat, key: Key)
    requires WellFormed(d)
    ensures Holds(EntryOf(hash, d, ordinal), hash(key), key) <==> KeyOf(d) == key
  {
  }

  ghost predicate Filled(hash: Hash, entries: seq<Entry>, ds: seq<Definition>, i: nat)
    requires i < |entries| && |entries| <= |ds|
  {
    WellFormed(ds[i]) && entries[i] == EntryOf(hash, ds[i], i)
  }

  /** The entries and the table hold exactly the first |entries| definitions. */
  ghost predicate Stored(hash: Hash, entries: seq<Entry>, x: Index, ds: seq<Definition>) {
    && |entries| <= |ds| && |x.slots| >= 2 * |ds| > 0
    && (forall i :: 0 <= i < |entries| ==> Filled(hash, entries, ds, i))
    && Indexed(x, hash, KeysOf(ds[..|entries|]))
  }

  /** Walks from the key's home to its entry, or to the free slot that proves it absent. */
  method Probe(hash: Hash, entries: seq<Entry>, table: array<nat>, key: Key, ghost x: Index, ghost ds: seq<Definition>)
    returns (taken: bool, slot: nat, ghost steps: nat)
    requires x.slots == table[..] && Stored(hash, entries, x, ds)
    ensures slot < table.Length
    ensures taken ==> 0 < table[slot] <= |entries| && KeyOf(ds[table[slot] - 1]) == key
    ensures !taken ==> key !in KeysOf(ds[..|entries|]) && steps < table.Length
    ensures !taken ==> var home := Home(hash, key, table.Length);
      && slot == Walk(home, steps, table.Length) && table[slot] == 0
      && Passed(x, KeysOf(ds[..|entries|]), home, key, steps)
  {
    ghost var keys, home := KeysOf(ds[..|entries|]), Home(hash, key, table.Length);
    slot := hash(key) % table.Length;
    steps := 0;
    while true
      invariant steps < table.Length && slot == Walk(home, steps, table.Length)
      invariant Passed(x, keys, home, key, steps)
      decreases table.Length - steps
    {
      var entryPlusOne := table[slot];
      assert x.slots[slot] == entryPlusOne;
      if entryPlusOne == 0 {
        FreeMeansAbsent(x, hash, keys, key, steps);
        return false, slot, steps;
      }
      TakenMeansEntry(x, hash, keys, slot);
      var existing := entries[entryPlusOne - 1];
      assert Filled(hash, entries, ds, entryPlusOne - 1);
      HoldsOwnKey(hash, ds[entryPlusOne - 1], entryPlusOne - 1, key);
      if Holds(existing, hash(key), key) {
        return true, slot, steps;
      }
      assert Elsewhere(x, keys, home, key, steps);
      assert Passed(x, keys, home, key, steps + 1);
      ProbeEnds(x, hash, keys, key);
      slot := Next(slot, table.Length);
      steps := steps + 1;
    }
  }

  /** What is wrong with a definition by itself, or with its id. */
  method OwnComplaint(ds: seq<Definition>, index: nat, ids: set<nat>) returns (complaint: Option<BuildError>)
    requires index < |ds| && (ds[index].instrumentId in ids <==> IdTaken(ds, index))
    ensures complaint.Some? ==> complaint == Complaint(ds, index)
    ensures complaint.None? ==> WellFormed(ds[index]) && !IdTaken(ds, index)
    ensures complaint.None? ==> Complaint(ds, index) == if KeyTaken(ds, index) then Some(DuplicateIdentity) else None
  {
    var d := ds[index];
    if d.instrumentId == 0 || d.instrumentId in ids {
      return Some(BadInstrumentId);
    }
    return TextComplaint(d);
  }

  /** Files the next definition under its key, unless an earlier one has the same. */
  method Place(
    hash: Hash, built: seq<Entry>, slots: array<nat>, d: Definition, ghost x: Index, ghost ds: seq<Definition>)
    returns (taken: bool, entry: Entry, ghost more: Index)
    requires x.slots == slots[..] && Stored(hash, built, x, ds)
    requires |built| < |ds| && ds[|built|] == d && WellFormed(d)
    modifies slots
    ensures taken == KeyTaken(ds, |built|)
    ensures !taken ==> more.slots == slots[..] && Stored(hash, built + [entry], more, ds)
  {
    ghost var index, keys := |built|, KeysOf(ds[..|built|]);
    var slot; ghost var steps;
    entry, more := EntryOf(hash, d, |built|), x;
    taken, slot, steps := Probe(hash, built, slots, KeyOf(d), x, ds);
    if taken {
      return;
    }
    assert !KeyTaken(ds, index) by {
      forall j | 0 <= j < index ensures KeyOf(ds[j]) != KeyOf(d) { assert keys[j] == KeyOf(ds[j]); }
    }
    Register(x, hash, keys, KeyOf(d), steps);
    assert KeysOf(ds[..index + 1]) == keys + [KeyOf(d)];
    more := Registered(x, Home(hash, KeyOf(d), slots.Length), steps);
    slots[slot] := |built| + 1;
    forall i | 0 <= i <= index ensures Filled(hash, built + [entry], ds, i) {
      if i < index { assert Filled(hash, built, ds, i); }
    }
  }

  /** Checks the next definition and files it, or says what is wrong with it. */
  method AddDefinition(
    hash: Hash, ds: seq<Definition>, built: seq<Entry>, ids: set<nat>, slots: array<nat>, ghost x: Index)
    returns (complaint: Option<BuildError>, entry: Entry, ghost more: Index)
    requires |built| < |ds| && (ds[|built|].instrumentId in ids <==> IdTaken(ds, |built|))
    requires x.slots == slots[..] && Stored(hash, built, x, ds)
    modifies slots
    ensures complaint == Complaint(ds, |built|)
    ensures complaint.None? ==> more.slots == slots[..] && Stored(hash, built + [entry], more, ds)
  {
    more, entry := x, Entry(Match(0, 0), ExactIdentity(UnknownMarket, 0, 0, [], []), 0);
    complaint := OwnComplaint(ds, |built|, ids);
    if complaint.None? {
      var taken;
      taken, entry, more := Place(hash, built, slots, ds[|built|], x, ds);
      if taken { complaint := Some(DuplicateIdentity); }
    }
  }

  /** The table of all definitions, or the first complaint. */
  method BuildTable(hash: Hash, ds: seq<Definition>)
    returns (complaint: Option<BuildError>, built: seq<Entry>, slots: array<nat>, ghost x: Index)
    requires 0 < |ds| < U32_MAX
    ensures fresh(slots) && complaint == Verdict(ds)
    ensures complaint.None? ==>
      Acceptable(ds) && |built| == |ds| && x.slots == slots[..] && Stored(hash, built, x, ds)
  {
    var tableSize := 1;
    while tableSize < |ds| * 2
    {
      tableSize := tableSize * 2;
    }
    slots := new nat[tableSize](_ => 0);
    var ids: set<nat> := {};
    built, x := [], Index(slots[..], [], []);
    assert KeysOf(ds[..0]) == [];
    var index := 0;
    while index < |ds|
      invariant 0 <= index <= |ds| && |built| == index
      invariant FirstComplaint(ds, index).None?
      invariant IdsOf(ids, ds, index)
      invariant x.slots == slots[..] && Stored(hash, built, x, ds)
      modifies slots
    {
      if Complaint(ds, index).Some? { ComplaintStands(ds, index + 1, |ds|); }
      IdsExtend(ids, ds, index);
      var entry; ghost var more;
      complaint, entry, more := AddDefinition(hash, ds, built, ids, slots, x);
      if complaint.Some? {
        return;
      }
      x := more;
      ids := ids + {ds[index].instrumentId};
      built := built + [entry];
      index := index + 1;
    }
    VerdictExact(ds);
    complaint := None;
  }

  class InstrumentCatalog {
    const hash: Hash
    var entries: seq<Entry>
    var table: array<nat>
    ghost var homes: seq<nat>
    ghost var dist: seq<nat>
    ghost var definitions: seq<Definition>

    constructor (hashing: Hash)
      ensures Valid() && definitions == [] && hash == hashing
    {
      hash := hashing;
      entries, homes, dist, definitions := [], [], [], [];
      table := new nat[0];
    }

    ghost predicate Valid()
      reads this, table
    {
      && |entries| == |definitions|
      && (definitions == [] ==> table.Length == 0)
      && (definitions != [] ==>
            Acceptable(definitions) && Stored(hash, entries, Index(table[..], homes, dist), definitions))
    }

    /** Builds the catalog from the definitions, or names the first thing wrong with them
        and leaves the catalog as it was. */
    method Build(ds: seq<Definition>) returns (error: Option<BuildError>)
      requires Valid()
      modifies this
      ensures Valid()
      ensures error == Verdict(ds)
      ensures error.None? ==> definitions == ds
      ensures error.Some? ==> unchanged(this)
    {
      if ds == [] {
        return Some(EmptyCatalog);
      }
      if |ds| >= U32_MAX {
        return Some(TooManyInstruments);
      }
      var complaint, built, slots, x := BuildTable(hash, ds);
      if complaint.None? {
        entries, table, homes, dist, definitions := built, slots, x.homes, x.dist, ds;
      }
      return complaint;
    }

    /** The definition with exactly this identity, if there is one. */
    method Find(market: Market, source: seq<byte>, security: seq<byte>) returns (found: Option<Match>)
      requires Valid()
      ensures found.Some? ==>
        var i := found.value.ordinal;
        i < |definitions| && KeyOf(definitions[i]) == Key(market, source, security) &&
        found.value.instrumentId == definitions[i].instrumentId
      ensures found.None? ==>
        forall i :: 0 <= i < |definitions| ==> KeyOf(definitions[i]) != Key(market, source, security)
    {
      if table.Length == 0 || security == [] || |source| > IDENTITY_BYTES || |security| > IDENTITY_BYTES {
        return None;
      }
      var taken, slot, steps :=
        Probe(hash, entries, table, Key(market, source, security), Index(table[..], homes, dist), definitions);
      if !taken {
        forall i | 0 <= i < |definitions| ensures KeyOf(definitions[i]) != Key(market, source, security) {
          assert KeysOf(definitions[..|entries|])[i] == KeyOf(definitions[i]);
        }
        return None;
      }
      assert Filled(hash, entries, definitions, table[slot] - 1);
      return Some(entries[table[slot] - 1].found);
    }
  }

  /** An identity names at most one definition, so Find's answer is the only one. */
  lemma IdentityUnique(ds: seq<Definition>, i: nat, j: nat)
    requires Acceptable(ds) && i < |ds| && j < |ds| && KeyOf(ds[i]) == KeyOf(ds[j])
    ensures i == j
  {
    assert i < j ==> Differ(ds, i, j);
    assert j < i ==> Differ(ds, j, i);
  }
}
