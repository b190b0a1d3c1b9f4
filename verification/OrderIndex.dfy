/**
The open-addressing index of `tsc_map_set.c`: slots hold positions of a dense vector,
probing is linear, and an empty slot ends every probe.
*/
module OrderIndex {
  import Binary
  import opened Lists

  /** Keys stand for values up to SameValueZero, so equal keys are equal and hash equally. */
  type Key = int

  const EMPTY: int := -1
  const TOMBSTONE: int := -2

  /** The slot that a probe looks at after j steps. */
  function Slot(start: nat, j: nat, cap: nat): (s: nat)
    requires cap > 0
    ensures s < cap
  {
    (start + j) % cap
  }

  /** Position i is found after j steps, and no empty slot comes before. */
  ghost predicate FoundAfter(buckets: seq<int>, start: nat, i: int, j: nat)
    requires |buckets| > 0
  {
    && j < |buckets| && buckets[Slot(start, j, |buckets|)] == i
    && forall t: nat :: t < j ==> buckets[Slot(start, t, |buckets|)] != EMPTY
  }

  ghost predicate Findable(buckets: seq<int>, start: nat, i: int) {
    |buckets| > 0 && exists j: nat :: FoundAfter(buckets, start, i, j)
  }

  /**
  Every slot is empty or holds its own position of the vector, and every position can be found from its key's hash.
  */
  ghost predicate Indexes(buckets: seq<int>, data: seq<Key>, hash: Key -> nat) {
    && (forall s :: 0 <= s < |buckets| ==> buckets[s] == EMPTY || 0 <= buckets[s] < |data|)
    && (forall s, t :: 0 <= s < t < |buckets| && buckets[s] != EMPTY ==> buckets[s] != buckets[t])
    && (forall i :: 0 <= i < |data| ==> Findable(buckets, hash(data[i]), i))
  }

  // ------------------------------------------------------------- an empty slot

  lemma {:induction false} DistinctBound(s: seq<int>, n: nat)
    requires forall i :: 0 <= i < |s| ==> 0 <= s[i] < n
    requires Distinct(s)
    ensures |s| <= n
    decreases n
  {
    assert |s| > 0 ==> 0 <= s[0] < n;
    if n == 0 {
    } else if n - 1 in s {
      var k :| 0 <= k < |s| && s[k] == n - 1;
      var rest := s[..k] + s[k + 1..];
      DistinctBound(rest, n - 1);
    } else {
      DistinctBound(s, n - 1);
    }
  }

  /** Fewer entries than slots leave an empty slot. */
  lemma EmptySlotExists(buckets: seq<int>, data: seq<Key>, hash: Key -> nat)
    requires Indexes(buckets, data, hash) && |data| < |buckets|
    ensures exists s :: 0 <= s < |buckets| && buckets[s] == EMPTY
  {
    if forall s :: 0 <= s < |buckets| ==> buckets[s] != EMPTY {
      DistinctBound(buckets, |data|);
    }
  }

  /** Every slot is reached by some probe. */
  lemma ProbeReaches(start: nat, s: nat, cap: nat) returns (j: nat)
    requires s < cap
    ensures j < cap && Slot(start, j, cap) == s
  {
    var a := start % cap;
    j := if s >= a then s - a else s + cap - a;
    assert start == cap * (start / cap) + a;
    if s >= a {
      Binary.DivisionUnique(start + j, cap, start / cap, s);
    } else {
      assert cap * (start / cap + 1) == cap * (start / cap) + cap;
      Binary.DivisionUnique(start + j, cap, start / cap + 1, s);
    }
  }

  /** A key that is in the vector is met before any empty slot. */
  lemma MetBeforeEmpty(buckets: seq<int>, data: seq<Key>, hash: Key -> nat, key: Key, j: nat, i: nat)
    requires |buckets| > 0 && Indexes(buckets, data, hash) && i < |data| && data[i] == key
    requires j < |buckets| && buckets[Slot(hash(key), j, |buckets|)] == EMPTY
    ensures exists t: nat :: t < j && buckets[Slot(hash(key), t, |buckets|)] == i
  {
  }

  /** Filling an empty slot that the probe of a new key ends in keeps the index. */
  lemma Inserted(buckets: seq<int>, data: seq<Key>, hash: Key -> nat, key: Key, j: nat)
    requires |buckets| > 0 && Indexes(buckets, data, hash) && j < |buckets|
    requires buckets[Slot(hash(key), j, |buckets|)] == EMPTY
    requires forall t: nat :: t < j ==> buckets[Slot(hash(key), t, |buckets|)] != EMPTY
    ensures Indexes(buckets[Slot(hash(key), j, |buckets|) := |data|], data + [key], hash)
  {
    var slot := Slot(hash(key), j, |buckets|);
    var buckets', data' := buckets[slot := |data|], data + [key];
    forall i | 0 <= i < |data'| ensures Findable(buckets', hash(data'[i]), i) {
      if i < |data| {
        assert Findable(buckets, hash(data[i]), i);
        var t: nat :| FoundAfter(buckets, hash(data[i]), i, t);
        assert FoundAfter(buckets', hash(data'[i]), i, t);
      } else {
        assert FoundAfter(buckets', hash(key), i, j);
      }
    }
  }
}
