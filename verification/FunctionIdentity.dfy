/**
The registry of callable identities (`tsc_core.c`): an open-addressing table that holds closure identities
weakly. A collection may clear entries between operations, and while a new table is being allocated.
*/
module FunctionIdentity {
  import opened Options
  import opened OrderIndex
  import Binary

  /** What an identity is for; one with an environment is held weakly. */
  datatype IdentityKey = IdentityKey(code: nat, environment: Option<nat>)

  type Identity = nat

  datatype Entry = Entry(occupied: bool, key: IdentityKey, identity: Option<Identity>)

  const BLANK := Entry(false, IdentityKey(0, None), None)

  // ------------------------------------------------------------------- the table

  ghost function Occupied(es: seq<Entry>): (n: nat) {
    if es == [] then 0 else Occupied(es[..|es| - 1]) + (if es[|es| - 1].occupied then 1 else 0)
  }

  lemma {:induction false} OccupiedSet(es: seq<Entry>, s: nat, e: Entry)
    requires s < |es| && e.occupied
    ensures Occupied(es[s := e]) == Occupied(es) + (if es[s].occupied then 0 else 1)
    decreases |es|
  {
    var last := |es| - 1;
    if s < last {
      assert es[s := e][..last] == es[..last][s := e];
      OccupiedSet(es[..last], s, e);
    } else {
      assert es[s := e][..last] == es[..last];
    }
  }

  /** A table with fewer occupied slots than slots has a free one. */
  lemma {:induction false} FreeSlot(es: seq<Entry>) returns (s: nat)
    requires Occupied(es) < |es|
    ensures s < |es| && !es[s].occupied
    decreases |es|
  {
    var last := |es| - 1;
    if es[last].occupied { s := FreeSlot(es[..last]); } else { s := last; }
  }

  ghost predicate ReachedAfter(es: seq<Entry>, start: nat, s: nat, j: nat)
    requires |es| > 0
  {
    j < |es| && Slot(start, j, |es|) == s && forall t: nat :: t < j ==> es[Slot(start, t, |es|)].occupied
  }

  /** The probe for the slot's key comes to the slot before any free one. */
  ghost predicate Reached(es: seq<Entry>, hash: IdentityKey -> nat, s: nat) {
    s < |es| && es[s].occupied ==> exists j: nat :: ReachedAfter(es, hash(es[s].key), s, j)
  }

  ghost predicate TableOk(es: seq<Entry>, hash: IdentityKey -> nat) {
    && (forall s: nat {:trigger Reached(es, hash, s)} :: Reached(es, hash, s))
    && (forall s, t :: 0 <= s < t < |es| && es[s].occupied && es[t].occupied ==> es[s].key != es[t].key)
    && (forall s :: 0 <= s < |es| && es[s].identity.Some? ==> es[s].occupied)
  }

  /** The entry holds this identity for this key. */
  ghost predicate HoldsAt(es: seq<Entry>, s: nat, key: IdentityKey, id: Identity) {
    s < |es| && es[s].occupied && es[s].key == key && es[s].identity == Some(id)
  }

  /** The table means a map: the live identities by their keys. */
  ghost predicate Means(es: seq<Entry>, live: map<IdentityKey, Identity>) {
    && (forall s: nat :: s < |es| && es[s].identity.Some? ==>
          es[s].key in live && live[es[s].key] == es[s].identity.value)
    && (forall k :: k in live ==> exists s: nat :: HoldsAt(es, s, k, live[k]))
  }

  /** Where the probe for a key ends: at its own entry, or at the free slot that shows it has none. */
  ghost predicate ProbeEnds(es: seq<Entry>, start: nat, key: IdentityKey, s: nat, j: nat) {
    && |es| > 0 && ReachedAfter(es, start, s, j) && s < |es| && (es[s].occupied ==> es[s].key == key)
    && forall t: nat :: t < j ==> es[Slot(start, t, |es|)].key != key
  }

  lemma FreeMeansAbsent(es: seq<Entry>, hash: IdentityKey -> nat, key: IdentityKey, s: nat, j: nat, x: nat)
    requires TableOk(es, hash) && ProbeEnds(es, hash(key), key, s, j) && !es[s].occupied && x < |es|
    ensures !(es[x].occupied && es[x].key == key)
  {
    assert Reached(es, hash, x);
    if es[x].occupied {
      var i: nat :| ReachedAfter(es, hash(es[x].key), x, i);
    }
  }

  /** An entry for a key is put where its probe ended. */
  lemma Put(es: seq<Entry>, hash: IdentityKey -> nat, key: IdentityKey, id: Option<Identity>, s: nat, j: nat)
    requires TableOk(es, hash) && ProbeEnds(es, hash(key), key, s, j)
    ensures TableOk(es[s := Entry(true, key, id)], hash)
    ensures Occupied(es[s := Entry(true, key, id)]) == Occupied(es) + (if es[s].occupied then 0 else 1)
  {
    var es' := es[s := Entry(true, key, id)];
    OccupiedSet(es, s, Entry(true, key, id));
    forall x: nat ensures Reached(es', hash, x) {
      if x < |es'| && es'[x].occupied {
        if x == s {
          assert ReachedAfter(es', hash(key), s, j);
        } else {
          assert Reached(es, hash, x);
          var i: nat :| ReachedAfter(es, hash(es[x].key), x, i);
          assert ReachedAfter(es', hash(es'[x].key), x, i);
        }
      }
    }
    if !es[s].occupied {
      forall x | 0 <= x < |es| && es[x].occupied ensures es[x].key != key {
        FreeMeansAbsent(es, hash, key, s, j, x);
      }
    }
  }

  /** A live identity for a key that had none joins the map. */
  lemma PutMeans(es: seq<Entry>, hash: IdentityKey -> nat, live: map<IdentityKey, Identity>, key: IdentityKey,
                 id: Identity, s: nat, j: nat)
    requires TableOk(es, hash) && Means(es, live) && ProbeEnds(es, hash(key), key, s, j) && es[s].identity.None?
    ensures key !in live && Means(es[s := Entry(true, key, Some(id))], live[key := id])
  {
    var es' := es[s := Entry(true, key, Some(id))];
    forall x: nat | x < |es| && es[x].identity.Some? ensures es[x].key != key {
      if es[s].occupied { assert x != s; } else { FreeMeansAbsent(es, hash, key, s, j, x); }
    }
    var live' := live[key := id];
    forall k | k in live' ensures exists x: nat :: HoldsAt(es', x, k, live'[k]) {
      if k == key {
        assert HoldsAt(es', s, key, id);
      } else {
        var x: nat :| HoldsAt(es, x, k, live[k]);
        assert HoldsAt(es', x, k, live'[k]);
      }
    }
  }

  // -------------------------------------------------------------- a collection

  /** An entry after a collection: a weak one whose identity was not marked is cleared. */
  function Swept(e: Entry, marked: set<Identity>): (r: Entry) {
    if e.identity.Some? && e.key.environment.Some? && e.identity.value !in marked then e.(identity := None) else e
  }

  ghost function Survivors(live: map<IdentityKey, Identity>, marked: set<Identity>): (r: map<IdentityKey, Identity>) {
    map k | k in live && (k.environment.None? || live[k] in marked) :: live[k]
  }

  lemma SweptReached(es: seq<Entry>, es': seq<Entry>, hash: IdentityKey -> nat, x: nat)
    requires Reached(es, hash, x) && |es'| == |es| && forall s :: 0 <= s < |es| ==>
      es'[s].occupied == es[s].occupied && es'[s].key == es[s].key
    ensures Reached(es', hash, x)
  {
    if x < |es'| && es'[x].occupied {
      var i: nat :| ReachedAfter(es, hash(es[x].key), x, i);
      assert ReachedAfter(es', hash(es'[x].key), x, i);
    }
  }

  lemma SweptMeans(es: seq<Entry>, es': seq<Entry>, live: map<IdentityKey, Identity>, marked: set<Identity>)
    requires Means(es, live) && |es'| == |es| && forall s :: 0 <= s < |es| ==> es'[s] == Swept(es[s], marked)
    ensures Means(es', Survivors(live, marked))
  {
    var live' := Survivors(live, marked);
    forall k | k in live' ensures exists x: nat :: HoldsAt(es', x, k, live'[k]) {
      var x: nat :| HoldsAt(es, x, k, live[k]);
      assert HoldsAt(es', x, k, live'[k]);
    }
  }

  lemma SweptTable(es: seq<Entry>, es': seq<Entry>, hash: IdentityKey -> nat, live: map<IdentityKey, Identity>,
                   marked: set<Identity>)
    requires TableOk(es, hash) && Means(es, live) && |es'| == |es| && forall s :: 0 <= s < |es| ==>
      es'[s] == Swept(es[s], marked)
    ensures TableOk(es', hash) && Means(es', Survivors(live, marked)) && Occupied(es') == Occupied(es)
  {
    SameOccupied(es, es');
    SweptMeans(es, es', live, marked);
    forall x: nat ensures Reached(es', hash, x) {
      assert Reached(es, hash, x);
      SweptReached(es, es', hash, x);
    }
  }

  lemma {:induction false} SameOccupied(es: seq<Entry>, es': seq<Entry>)
    requires |es| == |es'| && forall s :: 0 <= s < |es| ==> es'[s].occupied == es[s].occupied
    ensures Occupied(es') == Occupied(es)
    decreases |es|
  {
    if es != [] { SameOccupied(es[..|es| - 1], es'[..|es| - 1]); }
  }

  // -------------------------------------------------------------- live entries

  ghost function Live(es: seq<Entry>): (n: nat) {
    if es == [] then 0 else Live(es[..|es| - 1]) + (if es[|es| - 1].identity.Some? then 1 else 0)
  }

  lemma {:induction false} LiveSwept(es: seq<Entry>, es': seq<Entry>, marked: set<Identity>)
    requires |es'| == |es| && forall s :: 0 <= s < |es| ==> es'[s] == Swept(es[s], marked)
    ensures Live(es') <= Live(es)
    decreases |es|
  {
    if es != [] { LiveSwept(es[..|es| - 1], es'[..|es| - 1], marked); }
  }

  lemma {:induction false} LivePrefix(es: seq<Entry>, i: nat)
    requires i <= |es|
    ensures Live(es[..i]) <= Live(es)
    decreases |es|
  {
    if i < |es| {
      LivePrefix(es[..|es| - 1], i);
      assert es[..|es| - 1][..i] == es[..i];
    } else {
      assert es[..i] == es;
    }
  }

  /** The live entries among the first `i` are what has been copied. */
  ghost predicate Copied(es: seq<Entry>, i: nat, copied: map<IdentityKey, Identity>) {
    && i <= |es|
    && (forall s: nat :: s < i && es[s].identity.Some? ==>
          es[s].key in copied && copied[es[s].key] == es[s].identity.value)
    && (forall k :: k in copied ==> exists s: nat :: s < i && HoldsAt(es, s, k, copied[k]))
  }

  lemma CopiedAll(es: seq<Entry>, copied: map<IdentityKey, Identity>, live: map<IdentityKey, Identity>)
    requires Copied(es, |es|, copied) && Means(es, live)
    ensures copied == live
  {
  }

  lemma CopiedOne(es: seq<Entry>, hash: IdentityKey -> nat, i: nat, copied: map<IdentityKey, Identity>)
    requires TableOk(es, hash) && Copied(es, i, copied) && i < |es| && es[i].identity.Some?
    ensures es[i].key !in copied && Copied(es, i + 1, copied[es[i].key := es[i].identity.value])
  {
    var copied' := copied[es[i].key := es[i].identity.value];
    assert HoldsAt(es, i, es[i].key, es[i].identity.value);
    forall k | k in copied' ensures exists s: nat :: s < i + 1 && HoldsAt(es, s, k, copied'[k]) {
      if k != es[i].key {
        var s: nat :| s < i && HoldsAt(es, s, k, copied[k]);
        assert HoldsAt(es, s, k, copied'[k]);
      }
    }
  }

  class Registry {
    const hash: IdentityKey -> nat
    var entries: array<Entry>
    var count: nat
    ghost var live: map<IdentityKey, Identity>

    ghost predicate Valid()
      reads this, entries
    {
      TableOk(entries[..], hash) && Means(entries[..], live) && count == Occupied(entries[..])
      && 2 * count <= entries.Length
    }

    constructor (hash: IdentityKey -> nat)
      ensures Valid() && fresh(entries) && live == map[] && this.hash == hash
    {
      this.hash := hash;
      entries, count, live := new Entry[0], 0, map[];
    }

    /** Probes for a key in a table with a free slot. */
    method FindSlot(table: array<Entry>, key: IdentityKey) returns (s: nat, ghost j: nat)
      requires TableOk(table[..], hash) && Occupied(table[..]) < table.Length
      ensures ProbeEnds(table[..], hash(key), key, s, j)
    {
      ghost var es := table[..];
      ghost var hole := FreeSlot(es);
      ghost var last := ProbeReaches(hash(key), hole, table.Length);
      s, j := Slot(hash(key), 0, table.Length), 0;
      while table[s].occupied && table[s].key != key
        invariant j <= last && s == Slot(hash(key), j, table.Length)
        invariant forall t: nat :: t < j ==>
          es[Slot(hash(key), t, |es|)].occupied && es[Slot(hash(key), t, |es|)].key != key
        decreases last - j
      {
        j := j + 1;
        NextSlot(hash(key), j - 1, table.Length);
        s := (s + 1) % table.Length;
      }
    }

    /** The collector clears weak entries whose identity is not marked. */
    method MarkEnd(marked: set<Identity>)
      requires Valid()
      modifies this`live, entries
      ensures Valid() && live == Survivors(old(live), marked) && Live(entries[..]) <= old(Live(entries[..]))
      ensures forall k: IdentityKey :: k.environment.None? ==>
        (k in live <==> k in old(live)) && (k in live ==> live[k] == old(live)[k])
      ensures forall k: IdentityKey :: k.environment.Some? ==>
        (k in live <==> k in old(live) && old(live)[k] in marked) && (k in live ==> live[k] == old(live)[k])
    {
      ghost var es := entries[..];
      for i := 0 to entries.Length
        invariant forall s :: 0 <= s < i ==> entries[s] == Swept(es[s], marked)
        invariant forall s :: i <= s < entries.Length ==> entries[s] == es[s]
        modifies entries
      {
        entries[i] := Swept(entries[i], marked);
      }
      SweptTable(es, entries[..], hash, live, marked);
      LiveSwept(es, entries[..], marked);
      live := Survivors(live, marked);
    }

    method CountLive() returns (n: nat)
      requires Valid()
      ensures n == Live(entries[..])
    {
      n := 0;
      for i := 0 to entries.Length
        invariant n == Live(entries[..i])
      {
        assert entries[..i + 1][..i] == entries[..i];
        if entries[i].identity.Some? { n := n + 1; }
      }
      assert entries[..entries.Length] == entries[..];
    }

    /** A new table from the live entries of the old one. */
    method RebuildLocked(table: array<Entry>)
      requires Valid() && table != entries && 4 * Live(entries[..]) < table.Length
               && (forall s :: 0 <= s < table.Length ==> table[s] == BLANK)
      modifies this`entries, this`count, table
      ensures entries == table && Valid() && count == Live(old(entries[..])) && 4 * count < table.Length
    {
      ghost var es := entries[..];
      ghost var copied: map<IdentityKey, Identity> := map[];
      var n: nat := 0;
      BlankTable(table[..], hash);
      for i := 0 to entries.Length
        invariant n <= Live(es) && Copying(es, i, copied, n, table[..], hash)
        modifies table
      {
        n, copied := CopyNext(table, entries[i], es, i, n, copied);
      }
      assert es[..|es|] == es;
      CopiedAll(es, copied, live);
      entries := table;
      count := n;
    }

    method CopyNext(table: array<Entry>, e: Entry, ghost es: seq<Entry>, ghost i: nat, n: nat,
                    ghost copied: map<IdentityKey, Identity>)
      returns (n': nat, ghost copied': map<IdentityKey, Identity>)
      requires TableOk(es, hash) && i < |es| && e == es[i] && 4 * Live(es) < table.Length && n <= Live(es)
               && Copying(es, i, copied, n, table[..], hash)
      modifies table
      ensures n' <= Live(es) && Copying(es, i + 1, copied', n', table[..], hash)
    {
      LivePrefix(es, i + 1);
      assert es[..i + 1][..i] == es[..i];
      n', copied' := n, copied;
      if e.identity.Some? {
        CopiedOne(es, hash, i, copied);
        CopyEntry(table, e, copied);
        n', copied' := n + 1, copied[e.key := e.identity.value];
      }
    }

    method CopyEntry(table: array<Entry>, e: Entry, ghost copied: map<IdentityKey, Identity>)
      requires TableOk(table[..], hash) && Means(table[..], copied) && Occupied(table[..]) < table.Length
               && AllLive(table[..])
      requires e.identity.Some? && e.key !in copied
      modifies table
      ensures TableOk(table[..], hash) && Means(table[..], copied[e.key := e.identity.value]) && AllLive(table[..])
      ensures Occupied(table[..]) == old(Occupied(table[..])) + 1
    {
      ghost var before := table[..];
      ghost var j: nat;
      var s: nat;
      s, j := FindSlot(table, e.key);
      ghost var found := before[s];
      assert found.identity.None?;
      Put(before, hash, e.key, e.identity, s, j);
      PutMeans(before, hash, copied, e.key, e.identity.value, s, j);
      table[s] := Entry(true, e.key, e.identity);
      assert table[..] == before[s := Entry(true, e.key, e.identity)];
    }

    /** Sizes a new table for the live entries and some more; a collection may happen while it is allocated. */
    method Rebuild(extra: nat, marked: set<Identity>)
      requires Valid() && extra > 0
      modifies this, entries
      ensures Valid() && fresh(entries) && live == Survivors(old(live), marked) && count + extra <= entries.Length / 4
    {
      var n := CountLive();
      var capacity := 16;
      while capacity < (n + extra) * 4
        invariant capacity > 0
        decreases (n + extra) * 4 - capacity
      {
        capacity := capacity * 2;
      }
      var table := new Entry[capacity](i => BLANK);
      MarkEnd(marked);
      RebuildLocked(table);
    }

    method Lookup(key: IdentityKey) returns (r: Option<Identity>)
      requires Valid()
      ensures r == if key in live then Some(live[key]) else None
    {
      if entries.Length == 0 {
        return None;
      }
      ghost var j: nat;
      var s: nat;
      s, j := FindSlot(entries, key);
      FoundOrAbsent(entries[..], hash, live, key, s, j);
      r := entries[s].identity;
    }

    /** The identity that is live for the key, or else the new one. */
    method Register(key: IdentityKey, id: Identity, marked: set<Identity>) returns (r: Identity)
      requires Valid()
      modifies this, entries
      ensures Valid() && (entries == old(entries) || fresh(entries))
      ensures (ghost var grows := old(entries.Length == 0 || count >= entries.Length / 2);
               ghost var known := if grows then Survivors(old(live), marked) else old(live);
               r == (if key in known then known[key] else id) && live == known[key := r])
    {
      if entries.Length == 0 || count >= entries.Length / 2 { Rebuild(1, marked); }
      r := Install(key, id);
    }

    method Install(key: IdentityKey, id: Identity) returns (r: Identity)
      requires Valid() && 2 * (count + 1) <= entries.Length
      modifies this`count, this`live, entries
      ensures Valid() && r == (if key in old(live) then old(live)[key] else id) && live == old(live)[key := r]
    {
      ghost var es := entries[..];
      ghost var j: nat;
      var s: nat;
      s, j := FindSlot(entries, key);
      FoundOrAbsent(es, hash, live, key, s, j);
      if entries[s].identity.Some? {
        return entries[s].identity.value;
      }
      Put(es, hash, key, Some(id), s, j);
      PutMeans(es, hash, live, key, id, s, j);
      if !entries[s].occupied { count := count + 1; }
      entries[s] := Entry(true, key, Some(id));
      assert entries[..] == es[s := Entry(true, key, Some(id))];
      live := live[key := id];
      r := id;
    }
  }

  /** The new table while entries are copied into it. */
  ghost predicate Copying(es: seq<Entry>, i: nat, copied: map<IdentityKey, Identity>, n: nat, table: seq<Entry>,
                          hash: IdentityKey -> nat) {
    && Copied(es, i, copied) && n == Live(es[..i])
    && TableOk(table, hash) && Means(table, copied) && Occupied(table) == n && AllLive(table)
  }

  ghost predicate AllLive(es: seq<Entry>) {
    forall s :: 0 <= s < |es| && es[s].occupied ==> es[s].identity.Some?
  }

  lemma BlankTable(es: seq<Entry>, hash: IdentityKey -> nat)
    requires forall s :: 0 <= s < |es| ==> es[s] == BLANK
    ensures TableOk(es, hash) && Means(es, map[]) && Occupied(es) == 0 && AllLive(es)
  {
  }

  /** The slot where a probe ends tells whether the key has a live identity, and which. */
  lemma FoundOrAbsent(es: seq<Entry>, hash: IdentityKey -> nat, live: map<IdentityKey, Identity>, key: IdentityKey,
                      s: nat, j: nat)
    requires TableOk(es, hash) && Means(es, live) && ProbeEnds(es, hash(key), key, s, j)
    ensures es[s].identity == if key in live then Some(live[key]) else None
  {
    if key in live {
      var x: nat :| HoldsAt(es, x, key, live[key]);
      if !es[s].occupied { FreeMeansAbsent(es, hash, key, s, j, x); }
    }
  }

  lemma NextSlot(start: nat, j: nat, cap: nat)
    requires cap > 0
    ensures (Slot(start, j, cap) + 1) % cap == Slot(start, j + 1, cap)
  {
    var n := start + j;
    var q, r := n / cap, n % cap;
    if r + 1 < cap {
      Binary.DivisionUnique(n + 1, cap, q, r + 1);
      Binary.DivisionUnique(r + 1, cap, 0, r + 1);
    } else {
      assert cap * (q + 1) == cap * q + cap;
      Binary.DivisionUnique(n + 1, cap, q + 1, 0);
      Binary.DivisionUnique(cap, cap, 1, 0);
    }
  }

  // ------------------------------------------------------------------ whole runs

  /** What happens to the registry; each collection says what it has marked. */
  datatype Event = Registers(key: IdentityKey, id: Identity,
                             marked: set<Identity>) | LooksUp(key: IdentityKey) | Collects(marked: set<Identity>)

  /** Whatever is registered and collected, an identity without an environment stays what it was first registered as. */
  method Run(hash: IdentityKey -> nat,
             events: seq<Event>) returns (r: Registry, ghost strong: map<IdentityKey, Identity>)
    ensures r.Valid()
    ensures forall k :: k in strong ==> k in r.live && r.live[k] == strong[k]
    ensures forall i :: 0 <= i < |events| && events[i].Registers? && events[i].key.environment.None? ==>
      events[i].key in strong
  {
    r := new Registry(hash);
    strong := map[];
    for i := 0 to |events|
      invariant r.Valid() && fresh(r) && fresh(r.entries)
      invariant forall k :: k in strong ==> k in r.live && r.live[k] == strong[k] && k.environment.None?
      invariant forall j :: 0 <= j < i && events[j].Registers? && events[j].key.environment.None? ==>
        events[j].key in strong
    {
      match events[i] {
        case Registers(key, id, marked) =>
          var identity := r.Register(key, id, marked);
          if key.environment.None? && key !in strong { strong := strong[key := identity]; }
        case LooksUp(key) => var _ := r.Lookup(key);
        case Collects(marked) => r.MarkEnd(marked);
      }
    }
  }
}
