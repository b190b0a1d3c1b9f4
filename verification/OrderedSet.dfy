/**
The Set of `tsc_map_set.c`: a dense vector in insertion order, a hash index into it, and a
list of order nodes that cursors walk while the set changes under them.
*/
module OrderedSet {
  import opened Options
  import opened Lists
  import opened OrderIndex

  /** An order node; `next` is a node number, or NONE at the tail. */
  datatype Node = Node(index: nat, active: bool, next: int)

  datatype Lookup = Lookup(position: int, slot: int)

  // ------------------------------------------------------------- the order list

  /** Nodes are linked in the order of their creation. */
  ghost predicate Linked(nodes: seq<Node>, tail: nat) {
    && |nodes| > 0 && tail == |nodes| - 1
    && forall x :: 0 <= x < |nodes| ==> nodes[x].next == if x + 1 < |nodes| then x + 1 else NONE
  }

  /** The active nodes, in order, are the entries of the vector. */
  ghost predicate Entries(nodes: seq<Node>, entries: seq<nat>) {
    && (forall i :: 0 <= i < |entries| ==>
          entries[i] < |nodes| && nodes[entries[i]].active && nodes[entries[i]].index == i)
    && (forall i, j :: 0 <= i < j < |entries| ==> entries[i] < entries[j])
    && (forall x :: 0 <= x < |nodes| && nodes[x].active ==> nodes[x].index < |entries| && entries[nodes[x].index] == x)
  }

  /** No active node lies at or before the head. */
  ghost predicate Passed(nodes: seq<Node>, head: nat) {
    head < |nodes| && forall x :: 0 <= x <= head ==> !nodes[x].active
  }

  /** The first active node, if there is one, comes right after the head. */
  ghost predicate Ahead(nodes: seq<Node>, head: nat) {
    Passed(nodes, head) && (head + 1 < |nodes| ==> nodes[head + 1].active)
  }

  /** What each node was created for is what the vector holds at its index, as long as it is active. */
  ghost predicate Remembers(nodes: seq<Node>, data: seq<Key>, history: seq<Key>) {
    |history| == |nodes| && forall x :: 0 <= x < |nodes| && nodes[x].active && nodes[x].index < |data| ==>
      data[nodes[x].index] == history[x]
  }

  /** The set moves on: nodes are only added, and a node that has become inactive stays so. */
  ghost predicate Evolves(nodes: seq<Node>, history: seq<Key>, nodes': seq<Node>, history': seq<Key>) {
    && |nodes| <= |nodes'| && |history| == |nodes| && |history'| == |nodes'| && history == history'[..|history|]
    && forall x :: 0 <= x < |nodes| && nodes'[x].active ==> nodes[x].active
  }

  class Set {
    const hash: Key -> nat
    var data: seq<Key>
    var buckets: array<int>
    var nodes: seq<Node>
    var entries: seq<nat>
    var head: nat
    var tail: nat
    /** The key that each node was created for. */
    ghost var history: seq<Key>

    ghost predicate IndexOk()
      reads this, buckets
    {
      && Indexes(buckets[..], data, hash) && Distinct(data)
      && 4 * |data| <= 3 * buckets.Length
    }

    ghost predicate OrderOk()
      reads this
    {
      Linked(nodes, tail) && Entries(nodes, entries) && |entries| == |data| && Ahead(nodes, head)
      && Remembers(nodes, data, history)
    }

    ghost predicate Valid()
      reads this, buckets
    {
      IndexOk() && OrderOk()
    }

    constructor (hash: Key -> nat)
      ensures Valid() && fresh(buckets) && this.hash == hash && data == []
    {
      this.hash := hash;
      data, entries := [], [];
      buckets := new int[0];
      nodes, history := [Node(0, false, NONE)], [0];
      head, tail := 0, 0;
    }

    /** Probes for a key; the slot is where it is, or where it may be put. */
    method Find(key: Key) returns (r: Lookup)
      requires IndexOk()
      ensures r.position == EMPTY <==> key !in data
      ensures r.position != EMPTY ==>
        0 <= r.position < |data| && data[r.position] == key && 0 <= r.slot < buckets.Length
        && buckets[r.slot] == r.position
      ensures r.position == EMPTY && buckets.Length > 0 ==>
        exists j: nat ::
          j < buckets.Length && r.slot == Slot(hash(key), j, buckets.Length) && buckets[r.slot] == EMPTY &&
          forall t: nat :: t < j ==> buckets[Slot(hash(key), t, buckets.Length)] != EMPTY
    {
      if buckets.Length == 0 {
        return Lookup(EMPTY, EMPTY);
      }
      var cap, firstTomb := buckets.Length, EMPTY;
      EmptySlotExists(buckets[..], data, hash);
      ghost var hole :| 0 <= hole < cap && buckets[hole] == EMPTY;
      ghost var last := ProbeReaches(hash(key), hole, cap);
      var j: nat := 0;
      while true
        invariant j <= last && firstTomb == EMPTY
        invariant forall t: nat :: t < j ==> buckets[Slot(hash(key), t, cap)] != EMPTY
        invariant forall t: nat :: t < j ==>
          0 <= buckets[Slot(hash(key), t, cap)] < |data| && data[buckets[Slot(hash(key), t, cap)]] != key
        decreases last - j
      {
        var slot := Slot(hash(key), j, cap);
        var e := buckets[slot];
        if e == EMPTY {
          forall i | 0 <= i < |data| ensures data[i] != key {
            if data[i] == key { MetBeforeEmpty(buckets[..], data, hash, key, j, i); }
          }
          return Lookup(EMPTY, if firstTomb != EMPTY then firstTomb else slot);
        }
        if e == TOMBSTONE {
          if firstTomb == EMPTY { firstTomb := slot; }
        } else if data[e] == key {
          return Lookup(e, slot);
        }
        j := j + 1;
      }
    }

    /** A fresh table of the given capacity, filled from the vector. */
    method Rebuild(capacity: nat)
      requires Distinct(data) && 4 * |data| <= 3 * capacity && capacity > 0
      modifies this`buckets
      ensures fresh(buckets) && buckets.Length == capacity && IndexOk()
    {
      var table := new int[capacity](i => EMPTY);
      for i := 0 to |data|
        invariant table.Length == capacity && fresh(table) && Indexes(table[..], data[..i], hash)
      {
        EmptySlotExists(table[..], data[..i], hash);
        ghost var hole :| 0 <= hole < capacity && table[hole] == EMPTY;
        ghost var last := ProbeReaches(hash(data[i]), hole, capacity);
        var j: nat := 0;
        while table[Slot(hash(data[i]), j, capacity)] != EMPTY
          invariant j <= last
          invariant forall t: nat :: t < j ==> table[Slot(hash(data[i]), t, capacity)] != EMPTY
          decreases last - j
        {
          j := j + 1;
        }
        Inserted(table[..], data[..i], hash, data[i], j);
        assert data[..i + 1] == data[..i] + [data[i]];
        ghost var before := table[..];
        table[Slot(hash(data[i]), j, capacity)] := i;
        assert table[..] == before[Slot(hash(data[i]), j, capacity) := i];
      }
      assert data[..|data|] == data;
      buckets := table;
    }

    /** The capacity that keeps the table at most three quarters full after one more insertion. */
    method Grow()
      requires IndexOk()
      modifies this`buckets
      ensures IndexOk() && 4 * (|data| + 1) <= 3 * buckets.Length && (buckets == old(buckets) || fresh(buckets))
      ensures (var cap := old(buckets).Length;
               if 4 * (|data| + 1) <= 3 * cap then buckets == old(buckets)
               else buckets.Length >= if cap == 0 then 1024 else 2 * cap)
    {
      if buckets.Length == 0 || (|data| + 1) * 4 > buckets.Length * 3 {
        var capacity := if buckets.Length > 0 then buckets.Length * 2 else 1024;
        while (|data| + 1) * 4 > capacity * 3
          invariant capacity > 0 && 4 * |data| <= 3 * capacity
          invariant capacity >= if buckets.Length > 0 then 2 * buckets.Length else 1024
          decreases (|data| + 1) * 4 - capacity * 3
        {
          capacity := capacity * 2;
        }
        Rebuild(capacity);
      }
    }

    method AppendNode(index: nat, ghost key: Key)
      requires OrderOk() && index == |data|
      modifies this`nodes, this`entries, this`tail, this`history
      ensures |nodes| == old(|nodes|) + 1 && tail == old(|nodes|)
      ensures Linked(nodes, tail) && Entries(nodes, entries) && |entries| == |data| + 1 && Ahead(nodes, head)
      ensures Evolves(old(nodes), old(history), nodes, history) && Remembers(nodes, data + [key], history)
    {
      ghost var before := nodes;
      var node := |nodes|;
      nodes := nodes[tail := nodes[tail].(next := node)] + [Node(index, true, NONE)];
      entries := entries + [node];
      tail := node;
      history := history + [key];
      Appended(before, nodes, old(entries), entries, data, old(history), history, key);
    }

    /** Puts a new key into the empty slot that its probe ended in. */
    method Insert(key: Key, slot: nat, ghost j: nat)
      requires Valid() && key !in data && 4 * (|data| + 1) <= 3 * buckets.Length
      requires j < buckets.Length && slot == Slot(hash(key), j, buckets.Length) && buckets[slot] == EMPTY
      requires forall t: nat :: t < j ==> buckets[Slot(hash(key), t, buckets.Length)] != EMPTY
      modifies this`data, this`nodes, this`entries, this`tail, this`history, buckets
      ensures Valid() && data == old(data) + [key] && Evolves(old(nodes), old(history), nodes, history)
    {
      Inserted(buckets[..], data, hash, key, j);
      ghost var before := buckets[..];
      buckets[slot] := |data|;
      assert buckets[..] == before[slot := |data|];
      AppendNode(|data|, key);
      data := data + [key];
    }

    /** Adds a key at the end, unless it is there. */
    method Add(key: Key)
      requires Valid()
      modifies this, buckets
      ensures Valid() && (buckets == old(buckets) || fresh(buckets))
      ensures data == if key in old(data) then old(data) else old(data) + [key]
      ensures Evolves(old(nodes), old(history), nodes, history)
    {
      Grow();
      var r := Find(key);
      if r.position == EMPTY {
        ghost var j: nat :| j < buckets.Length && r.slot == Slot(hash(key), j, buckets.Length)
        && buckets[r.slot] == EMPTY &&
          forall t: nat :: t < j ==> buckets[Slot(hash(key), t, buckets.Length)] != EMPTY;
        Insert(key, r.slot, j);
      }
    }

    method Has(key: Key) returns (found: bool)
      requires Valid()
      ensures found <==> key in data
    {
      var r := Find(key);
      found := r.position != EMPTY;
    }

    /** The node becomes inactive and later entries move down; nothing is unlinked. */
    method DropNode(index: nat)
      requires OrderOk() && index < |data|
      modifies this`nodes, this`entries
      ensures Linked(nodes, tail) && Entries(nodes, entries) && |entries| == |data| - 1 && Passed(nodes, head)
      ensures Evolves(old(nodes), history, nodes, history) && Remembers(nodes, Without(data, index), history)
      ensures Renumbered(old(nodes), nodes, old(entries), entries, index, |data| - 1)
    {
      ghost var nodes0, entries0 := nodes, entries;
      var length := |entries|;
      nodes := nodes[entries[index] := nodes[entries[index]].(active := false)];
      entries := entries[..index] + entries[index + 1..];
      for current := index to length - 1
        invariant Renumbered(nodes0, nodes, entries0, entries, index, current)
      {
        ghost var before := nodes;
        RenumberedEntry(nodes0, nodes, entries0, entries, index, current);
        nodes := nodes[entries[current] := nodes[entries[current]].(index := current)];
        RenumberOne(nodes0, before, nodes, entries0, entries, index, current);
      }
      Dropped(nodes0, nodes, entries0, entries, data, history, index);
    }

    /** The head skips inactive nodes, and only those. */
    method AdvanceHead()
      requires Linked(nodes, tail) && Passed(nodes, head)
      modifies this`head
      ensures Ahead(nodes, head)
    {
      while nodes[head].next != NONE && !nodes[nodes[head].next].active
        invariant Passed(nodes, head)
        decreases |nodes| - head
      {
        head := nodes[head].next;
      }
    }

    /** One entry leaves the vector and the order list. */
    method DropEntry(index: nat)
      requires OrderOk() && Distinct(data) && index < |data|
      modifies this`nodes, this`entries, this`head, this`data
      ensures OrderOk() && Distinct(data) && data == Without(old(data), index)
      ensures Renumbered(old(nodes), nodes, old(entries), entries, index, |old(data)| - 1)
      ensures Evolves(old(nodes), history, nodes, history)
    {
      DropNode(index);
      AdvanceHead();
      WithoutMembers(data, index);
      data := Without(data, index);
    }

    method Delete(key: Key) returns (found: bool)
      requires Valid()
      modifies this, buckets
      ensures Valid() && (buckets == old(buckets) || fresh(buckets))
      ensures found <==> key in old(data)
      ensures !found ==> data == old(data)
      ensures found ==>
        exists i: nat ::
          i < |old(data)| && old(data)[i] == key && data == Without(old(data), i)
          && Renumbered(old(nodes), nodes, old(entries), entries, i, |old(data)| - 1)
      ensures Evolves(old(nodes), old(history), nodes, history)
    {
      var r := Find(key);
      if r.position == EMPTY { return false; }
      DeleteAt(r.position, r.slot);
      found := true;
    }

    /** The entry at a position, which the slot points to, leaves the set. */
    method DeleteAt(position: nat, slot: nat)
      requires Valid() && position < |data| && slot < buckets.Length
      modifies this, buckets
      ensures Valid() && fresh(buckets) && data == Without(old(data), position)
      ensures Renumbered(old(nodes), nodes, old(entries), entries, position, |old(data)| - 1)
      ensures Evolves(old(nodes), old(history), nodes, history)
    {
      buckets[slot] := TOMBSTONE;
      DropEntry(position);
      if buckets.Length > 0 { Rebuild(buckets.Length); }
    }

    method ClearNodes()
      requires Entries(nodes, entries)
      modifies this`nodes
      ensures Cleared(old(nodes), nodes, entries, |entries|)
    {
      for index := 0 to |entries|
        invariant Cleared(old(nodes), nodes, entries, index)
      {
        nodes := nodes[entries[index] := nodes[entries[index]].(active := false)];
      }
    }

    method Clear()
      requires Valid()
      modifies this, buckets
      ensures Valid() && buckets == old(buckets) && data == []
      ensures Evolves(old(nodes), old(history), nodes, history)
    {
      ClearNodes();
      entries := [];
      head := tail;
      data := [];
      assert forall x :: 0 <= x < |nodes| ==> !nodes[x].active;
      for i := 0 to buckets.Length
        invariant forall s :: 0 <= s < i ==> buckets[s] == EMPTY
        modifies buckets
      {
        buckets[i] := EMPTY;
      }
    }
  }

  lemma Appended(nodes: seq<Node>, nodes': seq<Node>, entries: seq<nat>, entries': seq<nat>, data: seq<Key>,
                 history: seq<Key>, history': seq<Key>, key: Key)
    requires Entries(nodes, entries) && |entries| == |data| && Remembers(nodes, data, history) && |nodes| > 0
    requires |nodes'| == |nodes| + 1 && nodes'[|nodes|].active && nodes'[|nodes|].index == |data|
    requires forall x :: 0 <= x < |nodes| ==> nodes'[x].active == nodes[x].active && nodes'[x].index == nodes[x].index
    requires entries' == entries + [|nodes|] && history' == history + [key]
    ensures Entries(nodes', entries') && Remembers(nodes', data + [key], history')
            && Evolves(nodes, history, nodes', history')
  {
  }

  /** Entry `index` is gone and the entries up to `done` carry their new numbers. */
  ghost predicate Renumbered(nodes0: seq<Node>, nodes: seq<Node>, entries0: seq<nat>, entries: seq<nat>, index: nat,
                             done: nat) {
    && Entries(nodes0, entries0) && index < |entries0| && index <= done <= |entries| == |entries0| - 1
    && entries == entries0[..index] + entries0[index + 1..] && |nodes| == |nodes0|
    && (forall x :: 0 <= x < |nodes| ==>
          nodes[x].next == nodes0[x].next && (nodes[x].active <==> nodes0[x].active && x != entries0[index]))
    && (forall x :: 0 <= x < |nodes| && nodes[x].active ==>
          nodes[x].index == if index < nodes0[x].index <= done then nodes0[x].index - 1 else nodes0[x].index)
  }

  lemma RenumberedEntry(nodes0: seq<Node>, nodes: seq<Node>, entries0: seq<nat>, entries: seq<nat>, index: nat,
                        current: nat)
    requires Renumbered(nodes0, nodes, entries0, entries, index, current) && current < |entries|
    ensures entries[current] == entries0[current + 1] < |nodes| && nodes0[entries[current]].index == current + 1
  {
  }

  lemma RenumberOne(nodes0: seq<Node>, nodes: seq<Node>, nodes': seq<Node>, entries0: seq<nat>, entries: seq<nat>,
                    index: nat, current: nat)
    requires Renumbered(nodes0, nodes, entries0, entries, index, current) && current < |entries|
             && entries[current] < |nodes|
    requires nodes' == nodes[entries[current] := nodes[entries[current]].(index := current)]
    ensures Renumbered(nodes0, nodes', entries0, entries, index, current + 1)
  {
  }

  lemma Dropped(nodes0: seq<Node>, nodes: seq<Node>, entries0: seq<nat>, entries: seq<nat>, data: seq<Key>,
                history: seq<Key>, index: nat)
    requires |entries0| > 0 && Renumbered(nodes0, nodes, entries0, entries, index, |entries0| - 1)
             && |data| == |entries0| && Remembers(nodes0, data, history)
    ensures Entries(nodes, entries) && Remembers(nodes, Without(data, index), history)
            && Evolves(nodes0, history, nodes, history)
  {
    forall i | 0 <= i < |entries|
      ensures entries[i] == entries0[if i < index then i else i + 1]
      ensures entries[i] < |nodes| && nodes[entries[i]].active && nodes[entries[i]].index == i
    {
      DroppedEntry(nodes0, nodes, entries0, entries, index, i);
    }
    forall x | 0 <= x < |nodes| && nodes[x].active
      ensures nodes[x].index < |entries| && entries[nodes[x].index] == x
              && Without(data, index)[nodes[x].index] == history[x]
    {
      DroppedNode(nodes0, nodes, entries0, entries, data, history, index, x);
    }
  }

  lemma DroppedEntry(nodes0: seq<Node>, nodes: seq<Node>, entries0: seq<nat>, entries: seq<nat>, index: nat, i: nat)
    requires |entries0| > 0 && Renumbered(nodes0, nodes, entries0, entries, index, |entries0| - 1) && i < |entries|
    ensures entries[i] == entries0[if i < index then i else i + 1]
    ensures entries[i] < |nodes| && nodes[entries[i]].active && nodes[entries[i]].index == i
  {
  }

  lemma DroppedNode(nodes0: seq<Node>, nodes: seq<Node>, entries0: seq<nat>, entries: seq<nat>, data: seq<Key>,
                    history: seq<Key>, index: nat, x: nat)
    requires |entries0| > 0 && Renumbered(nodes0, nodes, entries0, entries, index, |entries0| - 1)
             && |data| == |entries0| && Remembers(nodes0, data, history)
    requires x < |nodes| && nodes[x].active
    ensures nodes[x].index < |entries| && entries[nodes[x].index] == x
            && Without(data, index)[nodes[x].index] == history[x]
  {
  }

  ghost predicate Cleared(nodes0: seq<Node>, nodes: seq<Node>, entries: seq<nat>, done: nat) {
    && Entries(nodes0, entries) && done <= |entries| && |nodes| == |nodes0|
    && forall x :: 0 <= x < |nodes| ==>
         && nodes[x].next == nodes0[x].next && nodes[x].index == nodes0[x].index
         && (nodes[x].active <==> nodes0[x].active && nodes0[x].index >= done)
  }

  // -------------------------------------------------------------------- cursors

  /**
  All entries from the cursor's start to its position that are live now have been returned, each once and in order.
  */
  ghost predicate CursorOk(nodes: seq<Node>, start: nat, position: nat, returned: seq<nat>) {
    && start <= position < |nodes|
    && (forall i :: 0 <= i < |returned| ==> start < returned[i] <= position)
    && (forall i, j :: 0 <= i < j < |returned| ==> returned[i] < returned[j])
    && (forall x: nat :: start < x <= position && nodes[x].active ==> x in returned)
  }

  /** Whatever happens to the set in between, a cursor's account stays right. */
  lemma CursorSurvives(nodes: seq<Node>, history: seq<Key>, nodes': seq<Node>, history': seq<Key>, start: nat,
                       position: nat, returned: seq<nat>)
    requires CursorOk(nodes, start, position, returned) && Evolves(nodes, history, nodes', history')
    ensures CursorOk(nodes', start, position, returned)
  {
  }

  class Cursor {
    var source: Set?
    var position: nat
    ghost const start: nat
    /** The nodes that the cursor has returned. */
    ghost var returned: seq<nat>

    ghost predicate Walks(s: Set)
      reads this, s
    {
      source == null || (source == s && CursorOk(s.nodes, start, position, returned))
    }

    /** A new cursor is before every live entry. */
    constructor (s: Set)
      requires s.Valid()
      ensures source == s && Walks(s) && returned == [] && start == s.head
      ensures forall x :: 0 <= x < |s.nodes| && s.nodes[x].active ==> start < x
    {
      source, position := s, s.head;
      start, returned := s.head, [];
    }

    /** The earliest entry that is live now and was inserted after the cursor's last position. */
    method Step() returns (r: Option<Key>)
      requires source != null && source.Valid() && Walks(source)
      modifies this
      ensures r.Some? ==>
        source == old(source) && Walks(source) && old(position) < position < |source.nodes|
        && source.nodes[position].active
      ensures r.Some? ==>
        r.value == source.history[position] && r.value in source.data && returned == old(returned) + [position]
      ensures r.Some? ==>
        source.nodes[position].index < |source.data| && r.value == source.data[source.nodes[position].index]
      ensures r.Some? ==> forall x :: old(position) < x < position ==> !source.nodes[x].active
      ensures r.None? ==> source == null && returned == old(returned)
      ensures r.None? ==> forall x :: old(position) < x < |old(source).nodes| ==> !old(source).nodes[x].active
      ensures r.None? ==>
        forall x: nat :: start < x < |old(source).nodes| && old(source).nodes[x].active ==> x in returned
    {
      var node := source.nodes[position].next;
      while node != NONE && !source.nodes[node].active
        invariant node == NONE || position < node < |source.nodes|
        invariant forall x :: position < x < (if node == NONE then |source.nodes| else node) ==> !source.nodes[x].active
        decreases if node == NONE then 0 else |source.nodes| - node
      {
        node := source.nodes[node].next;
      }
      if node == NONE {
        source := null;
        return None;
      }
      position := node;
      returned := returned + [node];
      r := Some(source.data[source.nodes[node].index]);
    }
  }

  // ------------------------------------------------------------- interleavings

  datatype Action = Insert(key: Key) | Remove(key: Key) | Empty | Open | Advance(cursor: nat)

  /** The list without a key. */
  ghost function Minus(data: seq<Key>, key: Key): (r: seq<Key>) {
    if data == [] then [] else if data[0] == key then data[1..] else [data[0]] + Minus(data[1..], key)
  }

  /** What an action makes of a plain list of keys. */
  ghost function After(data: seq<Key>, action: Action): (r: seq<Key>) {
    match action
    case Insert(key) => if key in data then data else data + [key]
    case Remove(key) => Minus(data, key)
    case Empty => []
    case _ => data
  }

  /** What a script makes of it. */
  ghost function Played(data: seq<Key>, script: seq<Action>): (r: seq<Key>)
    decreases |script|
  {
    if script == [] then data else Played(After(data, script[0]), script[1..])
  }

  lemma {:induction false} WithoutIsMinus(data: seq<Key>, i: nat)
    requires Distinct(data) && i < |data|
    ensures Without(data, i) == Minus(data, data[i])
    decreases |data|
  {
    if i > 0 {
      WithoutIsMinus(data[1..], i - 1);
      assert Without(data, i) == [data[0]] + Without(data[1..], i - 1);
    }
  }

  lemma {:induction false} NothingToRemove(data: seq<Key>, key: Key)
    requires key !in data
    ensures Minus(data, key) == data
    decreases |data|
  {
    if data != [] {
      NothingToRemove(data[1..], key);
      assert data == [data[0]] + data[1..];
    }
  }

  method Change(s: Set, action: Action)
    requires s.Valid()
    modifies s, s.buckets
    ensures s.Valid() && (s.buckets == old(s.buckets) || fresh(s.buckets)) && s.data == After(old(s.data), action)
    ensures Evolves(old(s.nodes), old(s.history), s.nodes, s.history)
  {
    ghost var before := s.data;
    match action {
      case Insert(key) =>
        s.Add(key);
      case Remove(key) =>
        var found := s.Delete(key);
        if found {
          ghost var i: nat :| i < |before| && before[i] == key && s.data == Without(before, i);
          WithoutIsMinus(before, i);
        } else {
          NothingToRemove(before, key);
        }
      case Empty =>
        s.Clear();
      case Open =>
      case Advance(_) =>
    }
  }

  /** All cursors keep their account of the set. */
  ghost predicate AllWalk(s: Set, cursors: seq<Cursor>)
    reads s, cursors
  {
    forall i :: 0 <= i < |cursors| ==> cursors[i].Walks(s)
  }

  method ChangeUnder(s: Set, cursors: seq<Cursor>, action: Action)
    requires s.Valid() && AllWalk(s, cursors)
    modifies s, s.buckets
    ensures s.Valid() && AllWalk(s, cursors) && (s.buckets == old(s.buckets) || fresh(s.buckets))
            && s.data == After(old(s.data), action)
  {
    ghost var nodes, history := s.nodes, s.history;
    Change(s, action);
    forall i | 0 <= i < |cursors| ensures cursors[i].Walks(s) {
      var c := cursors[i];
      if c.source != null { CursorSurvives(nodes, history, s.nodes, s.history, c.start, c.position, c.returned); }
    }
  }

  method StepOne(s: Set, cursors: seq<Cursor>, k: nat)
    requires s.Valid() && AllWalk(s, cursors)
    modifies cursors
    ensures AllWalk(s, cursors)
  {
    if k < |cursors| {
      var c := cursors[k];
      assert c.Walks(s);
      if c.source != null { var _ := c.Step(); }
    }
  }

  /** A cursor opened now joins the others. */
  method OpenOne(s: Set, cursors: seq<Cursor>) returns (all: seq<Cursor>)
    requires s.Valid() && AllWalk(s, cursors)
    ensures AllWalk(s, all) && |all| == |cursors| + 1 && cursors <= all && fresh(all[|cursors|])
    ensures all[|cursors|].source == s && all[|cursors|].start == s.head && all[|cursors|].returned == []
  {
    var c := new Cursor(s);
    all := cursors + [c];
  }

  /** How many cursors a script opens. */
  function Opened(script: seq<Action>): (n: nat) {
    if script == [] then 0 else (if script[0].Open? then 1 else 0) + Opened(script[1..])
  }

  /**
  Any number of cursors over one set, opened at any time, and any interleaving of changes and steps: the cursors keep
  their account, and the set holds what its changes make of a plain list.
  */
  method Interleave(s: Set, cursors: seq<Cursor>, script: seq<Action>) returns (all: seq<Cursor>)
    requires s.Valid() && AllWalk(s, cursors)
    modifies s, s.buckets, cursors
    ensures s.Valid() && AllWalk(s, all) && cursors <= all && |all| == |cursors| + Opened(script)
    ensures forall i :: |cursors| <= i < |all| ==> fresh(all[i])
    ensures s.data == Played(old(s.data), script)
    decreases |script|
  {
    all := cursors;
    if |script| > 0 {
      ghost var data := s.data;
      var next := PlayOne(s, cursors, script[0]);
      assert s.data == After(data, script[0]);
      all := Interleave(s, next, script[1..]);
      assert cursors <= all;
      forall i | |cursors| <= i < |all| ensures fresh(all[i]) {
        if i < |next| { assert all[i] == next[i]; }
      }
    }
  }

  /** One change, one step of a cursor, or one more cursor. */
  method PlayOne(s: Set, cursors: seq<Cursor>, action: Action) returns (all: seq<Cursor>)
    requires s.Valid() && AllWalk(s, cursors)
    modifies s, s.buckets, cursors
    ensures s.Valid() && AllWalk(s, all) && cursors <= all && s.data == After(old(s.data), action)
    ensures s.buckets == old(s.buckets) || fresh(s.buckets)
    ensures |all| == |cursors| + (if action.Open? then 1 else 0) && (action.Open? ==> fresh(all[|cursors|]))
  {
    all := cursors;
    match action {
      case Open => all := OpenOne(s, cursors);
      case Advance(k) => StepOne(s, cursors, k);
      case _ => ChangeUnder(s, cursors, action);
    }
  }
}
