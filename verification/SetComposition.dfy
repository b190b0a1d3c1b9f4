/**
The set methods that combine two sets (`tsc_map_set.c`). The argument is set-like: it has a size, answers
for some keys that it has them, and yields keys, possibly repeating some. The three need not agree.
*/
module SetComposition {
  import opened Options
  import opened Sealing
  import opened Lists
  import opened OrderIndex
  import opened OrderedSet

  datatype Operation = Union | Intersection | Difference | SymmetricDifference | Subset | Superset | Disjoint

  /** `members` are the keys that `has` answers for, among those that it is asked for. */
  datatype SetLike = SetLike(members: seq<Key>, keys: seq<Key>, size: nat)

  predicate Asks(operation: Operation) {
    operation in {Subset, Superset, Disjoint}
  }

  // ------------------------------------------------------------------ the results

  /** The keys of the first list that the second has (or has not), in order. */
  ghost function Only(data: seq<Key>, keys: seq<Key>, want: bool): (r: seq<Key>) {
    if data == [] then []
    else
      var last := data[|data| - 1];
      Only(data[..|data| - 1], keys, want) + (if last in keys <==> want then [last] else [])
  }

  /** The list with each key of another at its end, unless it is there. */
  ghost function AddAll(data: seq<Key>, keys: seq<Key>): (r: seq<Key>) {
    if keys == [] then data else Plus(AddAll(data, keys[..|keys| - 1]), keys[|keys| - 1])
  }

  ghost function Plus(data: seq<Key>, key: Key): (r: seq<Key>) {
    if key in data then data else data + [key]
  }

  /** What walking the argument's keys makes of the receiver's. */
  ghost function Built(operation: Operation, data: seq<Key>, keys: seq<Key>): (r: seq<Key>) {
    match operation
    case Union => AddAll(data, keys)
    case Intersection => AddAll([], Only(keys, data, true))
    case Difference => Only(data, keys, false)
    case SymmetricDifference => AddAll(Only(data, keys, false), Only(keys, data, false))
    case _ => []
  }

  /** What a combination holds, in the order in which its method puts it there. */
  ghost function Combination(operation: Operation, data: seq<Key>, other: SetLike): (r: seq<Key>) {
    if |data| <= other.size && operation == Intersection then Only(data, other.members, true)
    else if |data| <= other.size && operation == Difference then Only(data, other.members, false)
    else Built(operation, data, other.keys)
  }

  /** All keys of the first list are in the second, or none is. */
  ghost predicate Agree(data: seq<Key>, keys: seq<Key>, want: bool) {
    forall i :: 0 <= i < |data| ==> (data[i] in keys <==> want)
  }

  /** What a question about two sets is answered with. */
  ghost predicate Decision(operation: Operation, data: seq<Key>, other: SetLike) {
    match operation
    case Subset => |data| <= other.size && Agree(data, other.members, true)
    case Superset => |data| >= other.size && Agree(other.keys, data, true)
    case Disjoint => if |data| <= other.size then Agree(data, other.members, false) else Agree(other.keys, data, false)
    case _ => false
  }

  // ------------------------------------------------------------- the algebra of sets

  /** The key belongs to the combination, by the algebra of sets. */
  predicate InCombination(operation: Operation, inFirst: bool, inSecond: bool) {
    match operation
    case Union => inFirst || inSecond
    case Intersection => inFirst && inSecond
    case Difference => inFirst && !inSecond
    case SymmetricDifference => inFirst != inSecond
    case _ => false
  }

  ghost predicate Holds(operation: Operation, data: seq<Key>, keys: seq<Key>) {
    match operation
    case Subset => forall k :: k in data ==> k in keys
    case Superset => forall k :: k in keys ==> k in data
    case Disjoint => forall k :: k in data ==> k !in keys
    case _ => false
  }

  /** The answers of `has` are those of a set with these keys. */
  ghost predicate Consistent(other: SetLike) {
    forall k :: k in other.members <==> k in other.keys
  }

  lemma {:induction false} OnlyMembers(data: seq<Key>, keys: seq<Key>, want: bool, k: Key)
    ensures k in Only(data, keys, want) <==> k in data && (k in keys <==> want)
    decreases |data|
  {
    if data != [] {
      var front, last := data[..|data| - 1], data[|data| - 1];
      OnlyMembers(front, keys, want, k);
      assert data == front + [last];
    }
  }

  lemma {:induction false} AddAllMembers(data: seq<Key>, keys: seq<Key>, k: Key)
    ensures k in AddAll(data, keys) <==> k in data || k in keys
    decreases |keys|
  {
    if keys != [] {
      var front, last := keys[..|keys| - 1], keys[|keys| - 1];
      AddAllMembers(data, front, k);
      assert keys == front + [last];
    }
  }

  /** Whatever the order, the size and the strategy, the keys are those of the algebra of sets. */
  lemma CombinationIsAlgebra(operation: Operation, data: seq<Key>, other: SetLike, k: Key)
    requires Consistent(other)
    ensures k in Combination(operation, data, other) <==> InCombination(operation, k in data, k in other.keys)
  {
    OnlyMembers(data, other.members, true, k);
    OnlyMembers(data, other.members, false, k);
    if !Asks(operation) { BuiltMembers(operation, data, other.keys, k); }
  }

  lemma BuiltMembers(operation: Operation, data: seq<Key>, keys: seq<Key>, k: Key)
    requires !Asks(operation)
    ensures k in Built(operation, data, keys) <==> InCombination(operation, k in data, k in keys)
  {
    OnlyMembers(data, keys, false, k);
    OnlyMembers(keys, data, true, k);
    OnlyMembers(keys, data, false, k);
    AddAllMembers(data, keys, k);
    AddAllMembers([], Only(keys, data, true), k);
    AddAllMembers(Only(data, keys, false), Only(keys, data, false), k);
  }

  ghost function Elements(keys: seq<Key>): (r: set<Key>) {
    set k | k in keys
  }

  lemma {:induction false} DistinctSize(data: seq<Key>)
    requires Distinct(data)
    ensures |Elements(data)| == |data|
    decreases |data|
  {
    if data != [] {
      var front, last := data[..|data| - 1], data[|data| - 1];
      DistinctSize(front);
      assert last !in front && Elements(data) == Elements(front) + {last};
    }
  }

  lemma SubsetSize(a: set<Key>, b: set<Key>)
    requires a <= b
    ensures |a| <= |b|
  {
    assert b == a + (b - a);
  }

  /** With the right size, the answers are those of the algebra of sets. */
  lemma DecisionIsAlgebra(operation: Operation, data: seq<Key>, other: SetLike)
    requires Consistent(other) && Distinct(data) && other.size == |Elements(other.keys)|
    ensures Decision(operation, data, other) <==> Holds(operation, data, other.keys)
  {
    DistinctSize(data);
    AgreeHolds(data, other.members, true);
    AgreeHolds(data, other.members, false);
    AgreeHolds(other.keys, data, true);
    AgreeHolds(other.keys, data, false);
    if Elements(data) <= Elements(other.keys) { SubsetSize(Elements(data), Elements(other.keys)); }
    if Elements(other.keys) <= Elements(data) { SubsetSize(Elements(other.keys), Elements(data)); }
  }

  lemma AgreeHolds(data: seq<Key>, keys: seq<Key>, want: bool)
    ensures Agree(data, keys, want) <==> forall k :: k in data ==> (k in keys <==> want)
  {
    if Agree(data, keys, want) {
      forall k | k in data ensures k in keys <==> want {
        var i :| 0 <= i < |data| && data[i] == k;
      }
    }
    if forall k :: k in data ==> (k in keys <==> want) {
      forall i | 0 <= i < |data| ensures data[i] in keys <==> want {
        assert data[i] in data;
      }
    }
  }

  // -------------------------------------------------------------- lists, step by step

  lemma OnlyAppend(data: seq<Key>, key: Key, keys: seq<Key>, want: bool)
    ensures Only(data + [key], keys, want) == Only(data, keys, want) + (if key in keys <==> want then [key] else [])
  {
  }

  lemma AddAllAppend(data: seq<Key>, keys: seq<Key>, key: Key)
    ensures AddAll(data, keys + [key]) == Plus(AddAll(data, keys), key)
  {
  }

  /** Asking for one more key is asking again. */
  lemma {:induction false} OnlyTwice(data: seq<Key>, keys: seq<Key>, key: Key)
    ensures Only(data, keys + [key], false) == Only(Only(data, keys, false), [key], false)
    decreases |data|
  {
    if data != [] {
      var front, last := data[..|data| - 1], data[|data| - 1];
      OnlyTwice(front, keys, key);
      var kept := Only(front, keys, false);
      if last in keys {
        assert Only(data, keys, false) == kept + [] == kept;
        assert Only(data, keys + [key], false) == Only(front, keys + [key], false) + [];
      } else {
        assert Only(data, keys, false) == kept + [last];
        OnlyAppend(kept, last, [key], false);
        assert last in keys + [key] <==> last == key;
      }
    }
  }

  lemma {:induction false} OnlyAll(data: seq<Key>, keys: seq<Key>)
    requires forall i :: 0 <= i < |data| ==> data[i] !in keys
    ensures Only(data, keys, false) == data
    decreases |data|
  {
    if data != [] {
      OnlyAll(data[..|data| - 1], keys);
      assert data == data[..|data| - 1] + [data[|data| - 1]];
    }
  }

  lemma OnlyAllOf(data: seq<Key>, key: Key)
    requires key !in data
    ensures Only(data, [key], false) == data
  {
  }

  lemma WithoutLast(front: seq<Key>, last: Key, i: nat)
    requires i <= |front|
    ensures Without(front + [last], i) == if i == |front| then front else Without(front, i) + [last]
  {
  }

  /** Deleting an entry leaves the other keys, in order. */
  lemma {:induction false} DeletedIsOnly(data: seq<Key>, i: nat)
    requires Distinct(data) && i < |data|
    ensures Without(data, i) == Only(data, [data[i]], false)
    decreases |data|
  {
    var front, last, key := data[..|data| - 1], data[|data| - 1], data[i];
    assert data == front + [last];
    WithoutLast(front, last, i);
    OnlyAppend(front, last, [key], false);
    if i == |front| { OnlyAll(front, [key]); } else { DeletedIsOnly(front, i); }
  }

  /** A key that is not added can be taken out before or after. */
  lemma {:induction false} OutOfKept(kept: seq<Key>, added: seq<Key>, key: Key)
    requires key !in added
    ensures AddAll(Only(kept, [key], false), added) == Only(AddAll(kept, added), [key], false)
    decreases |added|
  {
    if added != [] {
      var front, last := added[..|added| - 1], added[|added| - 1];
      assert added == front + [last] && last in added;
      OutOfKept(kept, front, key);
      PlusOut(AddAll(kept, front), last, key);
    }
  }

  lemma PlusOut(data: seq<Key>, x: Key, key: Key)
    requires x != key
    ensures Plus(Only(data, [key], false), x) == Only(Plus(data, x), [key], false)
  {
    OnlyMembers(data, [key], false, x);
    OnlyAppend(data, x, [key], false);
  }

  /** How the result changes with one more key of the argument. */
  lemma NextBuilt(operation: Operation, data: seq<Key>, keys: seq<Key>, key: Key)
    requires !Asks(operation)
    ensures var before, after := Built(operation, data, keys), Built(operation, data, keys + [key]);
            if operation == Union || (operation == Intersection && key in data)
            || (operation == SymmetricDifference && key !in data)
            then after == Plus(before, key)
            else if operation == Intersection then after == before
            else after == Only(before, [key], false)
  {
    match operation {
      case Union => AddAllAppend(data, keys, key);
      case Intersection =>
        OnlyAppend(keys, key, data, true);
        assert Only(keys, data, true) + [] == Only(keys, data, true);
        AddAllAppend([], Only(keys, data, true), key);
      case Difference => OnlyTwice(data, keys, key);
      case SymmetricDifference => NextSymmetric(data, keys, key);
    }
  }

  lemma NextSymmetric(data: seq<Key>, keys: seq<Key>, key: Key)
    ensures var before, after := Built(SymmetricDifference, data, keys), Built(SymmetricDifference, data, keys + [key]);
            after == if key in data then Only(before, [key], false) else Plus(before, key)
  {
    var kept, added := Only(data, keys, false), Only(keys, data, false);
    OnlyTwice(data, keys, key);
    OnlyAppend(keys, key, data, false);
    OnlyMembers(keys, data, false, key);
    OnlyMembers(data, keys, false, key);
    if key in data {
      assert added + [] == added;
      OutOfKept(kept, added, key);
    } else {
      OnlyAllOf(kept, key);
      AddAllAppend(kept, added, key);
    }
  }

  // ---------------------------------------------------------------- the order of a result

  /** Where a key stands first. */
  ghost function Position(list: seq<Key>, key: Key): (i: nat)
    requires key in list
    ensures i < |list| && list[i] == key && forall j :: 0 <= j < i ==> list[j] != key
  {
    if list[0] == key then 0 else 1 + Position(list[1..], key)
  }

  /** Keys without repetitions that stand in the order in which another list first has them. */
  ghost predicate InOrderOf(keys: seq<Key>, list: seq<Key>) {
    && (forall i :: 0 <= i < |keys| ==> keys[i] in list)
    && (forall i, j :: 0 <= i < j < |keys| ==> Position(list, keys[i]) < Position(list, keys[j]))
  }

  /**
  The list that an operation takes its order from: the receiver's keys and then the argument's, but for an intersection
  the receiver's alone if it is not larger than the argument, and otherwise the argument's.
  */
  ghost function Listing(operation: Operation, data: seq<Key>, other: SetLike): (r: seq<Key>) {
    if operation != Intersection then data + other.keys else if |data| <= other.size then data else other.keys
  }

  lemma LongerList(keys: seq<Key>, list: seq<Key>, more: seq<Key>)
    requires InOrderOf(keys, list)
    ensures InOrderOf(keys, list + more)
  {
    forall i | 0 <= i < |keys| ensures Position(list + more, keys[i]) == Position(list, keys[i]) {
      var p, q := Position(list, keys[i]), Position(list + more, keys[i]);
      assert (list + more)[p] == list[p] && (q < |list| ==> (list + more)[q] == list[q]);
    }
  }

  lemma OneLater(keys: seq<Key>, list: seq<Key>, key: Key)
    requires InOrderOf(keys, list) && key !in list
    ensures InOrderOf(keys + [key], list + [key])
  {
    LongerList(keys, list, [key]);
    assert Position(list + [key], key) == |list|;
    forall i | 0 <= i < |keys| ensures Position(list + [key], keys[i]) < |list| {
      assert (list + [key])[|list|] == key != keys[i];
    }
  }

  lemma {:induction false} SomeInOrder(data: seq<Key>, keys: seq<Key>, want: bool, list: seq<Key>)
    requires InOrderOf(data, list)
    ensures InOrderOf(Only(data, keys, want), list)
    decreases |data|
  {
    if data != [] {
      var front, last := data[..|data| - 1], data[|data| - 1];
      SomeInOrder(front, keys, want, list);
      forall k | k in Only(front, keys, want) ensures Position(list, k) < Position(list, last) {
        OnlyMembers(front, keys, want, k);
        var i :| 0 <= i < |front| && front[i] == k;
        assert data[i] == k;
      }
      var kept := Only(front, keys, want);
      assert forall i :: 0 <= i < |kept| ==> kept[i] in kept;
    }
  }

  lemma OwnOrder(data: seq<Key>)
    requires Distinct(data)
    ensures InOrderOf(data, data)
  {
    forall i | 0 <= i < |data| ensures Position(data, data[i]) == i {}
  }

  /** Walking the argument's keys keeps the order. */
  lemma {:induction false} BuiltInOrder(operation: Operation, data: seq<Key>, keys: seq<Key>)
    requires !Asks(operation) && Distinct(data)
    ensures InOrderOf(Built(operation, data, keys), if operation == Intersection then keys else data + keys)
    decreases |keys|
  {
    if keys == [] {
      NothingBuilt(data);
      OwnOrder(data);
      assert data + [] == data;
    } else {
      var front, key := keys[..|keys| - 1], keys[|keys| - 1];
      var list, built := if operation == Intersection then front else data + front, Built(operation, data, front);
      assert keys == front + [key] && (data + front) + [key] == data + keys;
      BuiltInOrder(operation, data, front);
      NextBuilt(operation, data, front, key);
      BuiltMembers(operation, data, front, key);
      LongerList(built, list, [key]);
      SomeInOrder(built, [key], false, list + [key]);
      if key !in list { OneLater(built, list, key); }
    }
  }

  /** A result holds at most what the operation takes, in the order in which it takes it, and nothing twice. */
  lemma CombinationIsOrdered(operation: Operation, data: seq<Key>, other: SetLike)
    requires !Asks(operation) && Distinct(data)
    ensures InOrderOf(Combination(operation, data, other), Listing(operation, data, other))
  {
    OwnOrder(data);
    if |data| <= other.size && operation == Intersection {
      SomeInOrder(data, other.members, true, data);
    } else if |data| <= other.size && operation == Difference {
      SomeInOrder(data, other.members, false, data);
      LongerList(Only(data, other.members, false), data, other.keys);
    } else {
      BuiltInOrder(operation, data, other.keys);
    }
  }

  lemma NothingBuilt(data: seq<Key>)
    ensures Built(Intersection, data, []) == [] && Built(Union, data, []) == data
    ensures Built(Difference, data, []) == data && Built(SymmetricDifference, data, []) == data
  {
    OnlyAll(data, []);
  }

  // --------------------------------------------------------------------- walking

  /** A set whose invariant holds; folded. */
  ghost predicate Good(s: Set)
    reads s, s.buckets
  {
    forall b {:trigger Unfold(b)} :: Unfold(b) ==> s.Valid()
  }

  lemma GoodIsValid(s: Set)
    requires Good(s)
    ensures s.Valid()
  {
    assert Unfold(true);
  }

  /** The cursor has gone by exactly the first `j` entries of the set. */
  ghost predicate Before(nodes: seq<Node>, position: nat, j: nat) {
    forall x: nat :: x < |nodes| && nodes[x].active ==> (x <= position <==> nodes[x].index < j)
  }

  ghost predicate Walking(s: Set, cursor: Cursor, j: nat)
    reads s, cursor
  {
    cursor.source == s && cursor.Walks(s) && Before(s.nodes, cursor.position, j) && j <= |s.data|
  }

  ghost predicate Walks(s: Set, cursor: Cursor, j: nat)
    reads s, cursor
  {
    j <= |s.data| && forall b {:trigger Unfold(b)} :: Unfold(b) ==> Walking(s, cursor, j)
  }

  /** The next active node after the first `j` entries is entry `j`. */
  lemma NextIsEntry(nodes: seq<Node>, entries: seq<nat>, position: nat, next: nat, j: nat)
    requires Entries(nodes, entries) && Before(nodes, position, j) && j <= |entries| && position < next < |nodes|
             && nodes[next].active
    requires forall x :: position < x < next ==> !nodes[x].active
    ensures nodes[next].index == j < |entries| && Before(nodes, next, j + 1)
  {
    var i := nodes[next].index;
    assert entries[i] == next && i >= j;
    assert nodes[entries[j]].active && nodes[entries[j]].index == j;
    forall x: nat | x < |nodes| && nodes[x].active ensures x <= next <==> nodes[x].index < j + 1 {
      assert entries[nodes[x].index] == x;
    }
  }

  /** While entries are left, there is an active node ahead. */
  lemma SomeLeft(nodes: seq<Node>, entries: seq<nat>, position: nat, j: nat)
    requires Entries(nodes, entries) && Before(nodes, position, j) && j < |entries|
    ensures position < entries[j] < |nodes| && nodes[entries[j]].active
  {
  }

  method Start(s: Set) returns (cursor: Cursor)
    requires Good(s)
    ensures fresh(cursor) && Walks(s, cursor, 0)
  {
    assert Unfold(true);
    cursor := new Cursor(s);
  }

  /** The cursor yields the entries one after the other. */
  method Next(s: Set, cursor: Cursor, ghost j: nat) returns (r: Option<Key>)
    requires Good(s) && Walks(s, cursor, j)
    modifies cursor
    ensures r.Some? ==> j < |s.data| && r.value == s.data[j] && Walks(s, cursor, j + 1)
    ensures r.None? ==> j == |s.data|
  {
    assert Unfold(true);
    ghost var position := cursor.position;
    if j < |s.data| { SomeLeft(s.nodes, s.entries, position, j); }
    r := cursor.Step();
    if r.Some? { NextIsEntry(s.nodes, s.entries, position, cursor.position, j); }
  }

  method Include(result: Set, key: Key)
    requires Good(result)
    modifies result, result.buckets
    ensures Good(result) && (result.buckets == old(result.buckets) || fresh(result.buckets))
            && result.data == Plus(old(result.data), key)
  {
    assert Unfold(true);
    result.Add(key);
  }

  method Exclude(result: Set, key: Key)
    requires Good(result)
    modifies result, result.buckets
    ensures Good(result) && (result.buckets == old(result.buckets) || fresh(result.buckets))
    ensures result.data == Only(old(result.data), [key], false)
  {
    assert Unfold(true);
    ghost var data := result.data;
    var found := result.Delete(key);
    if found {
      ghost var i: nat :| i < |data| && data[i] == key && result.data == Without(data, i);
      DeletedIsOnly(data, i);
    } else {
      OnlyAllOf(data, key);
    }
  }

  method Contains(s: Set, key: Key) returns (found: bool)
    requires Good(s)
    ensures found <==> key in s.data
  {
    assert Unfold(true);
    found := s.Has(key);
  }

  lemma GoodIsDistinct(s: Set)
    requires Good(s)
    ensures Distinct(s.data)
  {
    assert Unfold(true);
  }

  // --------------------------------------------------------------------- copying

  lemma OneMore(data: seq<Key>, j: nat)
    requires Distinct(data) && j < |data|
    ensures Plus(data[..j], data[j]) == data[..j + 1]
  {
  }

  /** A copy holds the same keys in the same order. */
  method CopyInto(result: Set, s: Set)
    requires Good(result) && Good(s) && result != s && result.buckets != s.buckets && result.data == []
    modifies result, result.buckets
    ensures Good(result) && (result.buckets == old(result.buckets) || fresh(result.buckets)) && result.data == s.data
  {
    GoodIsDistinct(s);
    var cursor := Start(s);
    ghost var j := 0;
    while true
      invariant Good(result) && (result.buckets == old(result.buckets) || fresh(result.buckets))
      invariant Walks(s, cursor, j) && result.data == s.data[..j]
      decreases |s.data| - j
    {
      var r := Next(s, cursor, j);
      if r == None { break; }
      OneMore(s.data, j);
      Include(result, r.value);
      j := j + 1;
    }
  }

  // ------------------------------------------------------------ asking the argument

  /** Walks the receiver and asks the argument for each key; `want` is the answer that all must give. */
  method AllAnswer(s: Set, members: seq<Key>, want: bool) returns (all: bool)
    requires Good(s)
    ensures all <==> Agree(s.data, members, want)
  {
    var cursor := Start(s);
    ghost var j := 0;
    while true
      invariant Walks(s, cursor, j) && Agree(s.data[..j], members, want)
      decreases |s.data| - j
    {
      var r := Next(s, cursor, j);
      if r == None {
        assert s.data[..j] == s.data;
        return true;
      }
      if (r.value in members) != want { return false; }
      j := j + 1;
    }
  }

  /** The next key of a list without repetitions is not in what has been kept so far. */
  lemma KeyIsNew(data: seq<Key>, j: nat, keys: seq<Key>, want: bool)
    requires Distinct(data) && j < |data|
    ensures Only(data[..j + 1], keys, want) == if data[j] in keys <==>
      want then Plus(Only(data[..j], keys, want), data[j]) else Only(data[..j], keys, want)
  {
    OnlyMembers(data[..j], keys, want, data[j]);
    assert data[j] !in data[..j] && data[..j + 1] == data[..j] + [data[j]];
    OnlyAppend(data[..j], data[j], keys, want);
    assert Only(data[..j], keys, want) + [] == Only(data[..j], keys, want);
  }

  method IntersectByHas(s: Set, result: Set, members: seq<Key>)
    requires Good(result) && Good(s) && result != s && result.buckets != s.buckets && result.data == []
    modifies result, result.buckets
    ensures Good(result) && (result.buckets == old(result.buckets) || fresh(result.buckets))
    ensures result.data == Only(s.data, members, true)
  {
    GoodIsDistinct(s);
    var cursor := Start(s);
    ghost var j := 0;
    while true
      invariant Good(result) && (result.buckets == old(result.buckets) || fresh(result.buckets))
      invariant Walks(s, cursor, j) && result.data == Only(s.data[..j], members, true)
      decreases |s.data| - j
    {
      var r := Next(s, cursor, j);
      if r == None { break; }
      KeyIsNew(s.data, j, members, true);
      if r.value in members { Include(result, r.value); }
      j := j + 1;
    }
    assert s.data[..|s.data|] == s.data;
  }

  // ---------------------------------------------------------------- deleting on the way

  /** What is left when the first `i` keys of a list have been asked for. */
  ghost function Remaining(data: seq<Key>, keys: seq<Key>, i: nat): (r: seq<Key>)
    requires i <= |data|
  {
    Only(data[..i], keys, false) + data[i..]
  }

  /** The entry that a walk is at when the first `i` keys have been asked for. */
  ghost function Entry(data: seq<Key>, keys: seq<Key>, i: nat): (j: nat)
    requires i <= |data|
  {
    |Only(data[..i], keys, false)|
  }

  lemma RemainingNext(data: seq<Key>, keys: seq<Key>, i: nat)
    requires i < |data|
    ensures var j := Entry(data, keys, i);
            && j < |Remaining(data, keys, i)| && Remaining(data, keys, i)[j] == data[i]
            && (data[i] in keys ==>
                  Remaining(data, keys, i + 1) == Without(Remaining(data, keys, i), j) && Entry(data, keys, i + 1) == j)
            && (data[i] !in keys ==>
                  Remaining(data, keys, i + 1) == Remaining(data, keys, i) && Entry(data, keys, i + 1) == j + 1)
  {
    assert data[..i + 1] == data[..i] + [data[i]] && data[i..] == [data[i]] + data[i + 1..];
    OnlyAppend(data[..i], data[i], keys, false);
  }

  lemma AllRemains(data: seq<Key>, keys: seq<Key>)
    ensures Remaining(data, keys, 0) == data && Entry(data, keys, 0) == 0
  {
  }

  lemma SomethingRemains(data: seq<Key>, keys: seq<Key>, i: nat)
    requires i <= |data| && Entry(data, keys, i) < |Remaining(data, keys, i)|
    ensures i < |data| && Remaining(data, keys, i)[Entry(data, keys, i)] == data[i]
  {
  }

  lemma NothingRemains(data: seq<Key>, keys: seq<Key>, i: nat)
    requires i <= |data| && Entry(data, keys, i) == |Remaining(data, keys, i)|
    ensures i == |data| && Remaining(data, keys, i) == Only(data, keys, false)
  {
    assert data[..|data|] == data;
  }

  /** Deleting the entry that the cursor has just returned takes it back by one. */
  lemma BeforeDeleted(nodes: seq<Node>, nodes': seq<Node>, entries: seq<nat>, entries': seq<nat>, position: nat, j: nat)
    requires |entries| > 0 && Renumbered(nodes, nodes', entries, entries', j, |entries| - 1)
             && Before(nodes, position, j + 1)
    ensures Before(nodes', position, j)
  {
  }

  /** The key is at one place, so that is the one that was deleted. */
  lemma DeletedThere(data: seq<Key>, i: nat, j: nat)
    requires Distinct(data) && i < |data| && j < |data| && data[i] == data[j]
    ensures i == j
  {
  }

  /** The entry under the cursor goes; the walk goes on. */
  method DeleteHere(result: Set, cursor: Cursor, key: Key, ghost j: nat)
    requires Good(result) && Walks(result, cursor, j + 1) && key == result.data[j]
    modifies result, result.buckets
    ensures Good(result) && (result.buckets == old(result.buckets) || fresh(result.buckets))
    ensures result.data == Without(old(result.data), j) && Walks(result, cursor, j)
  {
    assert Unfold(true);
    ghost var nodes, history, entries, data := result.nodes, result.history, result.entries, result.data;
    var _ := result.Delete(key);
    ghost var i: nat :| i < |data| && data[i] == key && result.data == Without(data, i)
                        && Renumbered(nodes, result.nodes, entries, result.entries, i, |data| - 1);
    DeletedThere(data, i, j);
    BeforeDeleted(nodes, result.nodes, entries, result.entries, cursor.position, j);
    CursorSurvives(nodes, history, result.nodes, result.history, cursor.start, cursor.position, cursor.returned);
  }

  /** How far the walk over a copy has come. */
  ghost predicate Subtracting(result: Set, cursor: Cursor, data: seq<Key>, members: seq<Key>, i: nat)
    reads result, result.buckets, cursor
  {
    i <= |data| && Good(result) && result.data == Remaining(data, members, i)
    && Walks(result, cursor, Entry(data, members, i))
  }

  /** One key of the copy stays or goes; false at the end of the walk. */
  method SubtractOne(result: Set, cursor: Cursor, members: seq<Key>, ghost data: seq<Key>,
                     ghost i: nat) returns (more: bool)
    requires Subtracting(result, cursor, data, members, i)
    modifies result, result.buckets, cursor
    ensures result.buckets == old(result.buckets) || fresh(result.buckets)
    ensures more ==> i < |data| && Subtracting(result, cursor, data, members, i + 1)
    ensures !more ==> i == |data| && Good(result) && result.data == Only(data, members, false)
  {
    var r := Next(result, cursor, Entry(data, members, i));
    more := r.Some?;
    if more {
      SomethingRemains(data, members, i);
      RemainingNext(data, members, i);
      if r.value in members { DeleteHere(result, cursor, r.value, Entry(data, members, i)); }
    } else {
      NothingRemains(data, members, i);
    }
  }

  /** Walks the copy and takes out of it what the argument has. */
  method SubtractByHas(result: Set, members: seq<Key>)
    requires Good(result)
    modifies result, result.buckets
    ensures Good(result) && (result.buckets == old(result.buckets) || fresh(result.buckets))
    ensures result.data == Only(old(result.data), members, false)
  {
    ghost var data, i := result.data, 0;
    AllRemains(data, members);
    var cursor := Start(result);
    var more := true;
    while more
      invariant result.buckets == old(result.buckets) || fresh(result.buckets)
      invariant more ==> Subtracting(result, cursor, data, members, i)
      invariant !more ==> Good(result) && result.data == Only(data, members, false)
      decreases more, |data| - i
    {
      more := SubtractOne(result, cursor, members, data, i);
      i := i + 1;
    }
  }

  // -------------------------------------------------------- walking the argument

  /** Walks the argument's keys; `want` says whether each must be in the receiver. */
  method AllFound(s: Set, keys: seq<Key>, want: bool) returns (all: bool)
    requires Good(s)
    ensures all <==> Agree(keys, s.data, want)
  {
    for i := 0 to |keys|
      invariant Agree(keys[..i], s.data, want)
    {
      var found := Contains(s, keys[i]);
      if found != want {
        assert !(keys[i] in s.data <==> want);
        return false;
      }
    }
    all := true;
  }

  /** One more key of the argument. */
  method BuildStep(operation: Operation, s: Set, result: Set, key: Key, ghost keys: seq<Key>)
    requires Good(result) && Good(s) && result != s && result.buckets != s.buckets
    requires !Asks(operation) && result.data == Built(operation, s.data, keys)
    modifies result, result.buckets
    ensures Good(result) && (result.buckets == old(result.buckets) || fresh(result.buckets))
    ensures result.data == Built(operation, s.data, keys + [key])
  {
    NextBuilt(operation, s.data, keys, key);
    var found := Contains(s, key);
    if operation == Union || (operation == Intersection && found) {
      Include(result, key);
    } else if operation == Difference || (operation == SymmetricDifference && found) {
      Exclude(result, key);
    } else if operation == SymmetricDifference && !found {
      Include(result, key);
    }
  }

  method BuildByKeys(operation: Operation, s: Set, result: Set, keys: seq<Key>)
    requires Good(result) && Good(s) && result != s && result.buckets != s.buckets
    requires !Asks(operation) && result.data == Built(operation, s.data, [])
    modifies result, result.buckets
    ensures Good(result) && (result.buckets == old(result.buckets) || fresh(result.buckets))
    ensures result.data == Built(operation, s.data, keys)
  {
    assert keys[..0] == [];
    for i := 0 to |keys|
      invariant Good(result) && (result.buckets == old(result.buckets) || fresh(result.buckets))
      invariant result.data == Built(operation, s.data, keys[..i])
    {
      assert keys[..i + 1] == keys[..i] + [keys[i]];
      BuildStep(operation, s, result, keys[i], keys[..i]);
    }
    assert keys[..|keys|] == keys;
  }

  // --------------------------------------------------------------- the operations

  /** `isSubsetOf`, `isSupersetOf` and `isDisjointFrom`, with their shortcuts by size. */
  method Decide(operation: Operation, s: Set, other: SetLike) returns (r: bool)
    requires s.Valid() && Asks(operation)
    ensures r <==> Decision(operation, s.data, other)
  {
    assert Good(s);
    var smaller := |s.data| <= other.size;
    if operation == Subset && !smaller { return false; }
    if operation == Superset && |s.data| < other.size { return false; }
    if operation == Subset {
      r := AllAnswer(s, other.members, true);
    } else if operation == Disjoint && smaller {
      r := AllAnswer(s, other.members, false);
    } else {
      r := AllFound(s, other.keys, operation == Superset);
    }
  }

  /** `union`, `intersection`, `difference` and `symmetricDifference`. */
  method Combine(operation: Operation, s: Set, other: SetLike) returns (result: Set)
    requires s.Valid() && !Asks(operation)
    ensures fresh(result) && fresh(result.buckets) && result.Valid()
            && result.data == Combination(operation, s.data, other)
  {
    assert Good(s);
    NothingBuilt(s.data);
    var smaller := |s.data| <= other.size;
    result := new Set(s.hash);
    assert Good(result);
    if operation != Intersection { CopyInto(result, s); }
    if smaller && operation == Intersection {
      IntersectByHas(s, result, other.members);
    } else if smaller && operation == Difference {
      SubtractByHas(result, other.members);
    } else {
      BuildByKeys(operation, s, result, other.keys);
    }
    GoodIsValid(result);
  }
}
