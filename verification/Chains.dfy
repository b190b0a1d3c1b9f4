/** Singly linked lists with a head and a tail, kept in link fields of the records that they hold. */
module Chains {
  import opened Lists

  function At(list: seq<nat>, i: int): (r: int)
    requires i >= -1
  {
    if 0 <= i < |list| then list[i] else NONE
  }

  ghost predicate Hop(next: seq<int>, list: seq<nat>, i: nat) {
    i < |list| ==> list[i] < |next| && next[list[i]] == At(list, i + 1)
  }

  /** The list that the links spell out from `head` to `tail`. */
  ghost predicate Chain(next: seq<int>, head: int, tail: int, list: seq<nat>) {
    && Distinct(list) && head == At(list, 0) && tail == At(list, |list| - 1)
    && forall i: nat {:trigger Hop(next, list, i)} :: Hop(next, list, i)
  }

  lemma Appended(next: seq<int>, head: int, tail: int, list: seq<nat>, w: nat, next': seq<int>)
    requires Chain(next, head, tail, list) && w < |next| && w !in list && |next'| == |next|
    requires tail == NONE ==> list == []
    requires next'[w] == NONE && (tail != NONE ==> 0 <= tail < |next| && next'[tail] == w)
    requires forall x :: 0 <= x < |next| && x != w && x != tail ==> next'[x] == next[x]
    ensures Chain(next', if tail == NONE then w else head, w, list + [w])
  {
    var list' := list + [w];
    forall i: nat ensures Hop(next', list', i) {
      assert Hop(next, list, i);
      if i < |list| - 1 { assert list[i] != list[|list| - 1]; }
    }
  }

  /** The record at position `i` is taken out; `previous` is the one before it. */
  lemma Unlinked(next: seq<int>, head: int, tail: int, list: seq<nat>, i: nat, next': seq<int>)
    requires Chain(next, head, tail, list) && i < |list| && |next'| == |next|
    requires i > 0 ==> list[i - 1] < |next'| && next'[list[i - 1]] == At(list, i + 1)
    requires forall x :: 0 <= x < |next| && x != list[i] && (i > 0 ==> x != list[i - 1]) ==> next'[x] == next[x]
    ensures Chain(next', if i == 0 then At(list, 1) else head, if tail == list[i] then At(list, i - 1) else tail,
                  Without(list, i))
  {
    var list' := Without(list, i);
    WithoutMembers(list, i);
    assert list[|list| - 1] == list[i] ==> i == |list| - 1;
    forall j: nat ensures Hop(next', list', j) {
      if j < |list'| { UnlinkedHop(next, head, tail, list, i, next', j); }
    }
  }

  lemma UnlinkedHop(next: seq<int>, head: int, tail: int, list: seq<nat>, i: nat, next': seq<int>, j: nat)
    requires Chain(next, head, tail, list) && i < |list| && |next'| == |next| && j < |list| - 1
    requires i > 0 ==> list[i - 1] < |next'| && next'[list[i - 1]] == At(list, i + 1)
    requires forall x :: 0 <= x < |next| && x != list[i] && (i > 0 ==> x != list[i - 1]) ==> next'[x] == next[x]
    ensures Hop(next', Without(list, i), j)
  {
    var k := if j < i then j else j + 1;
    assert Without(list, i)[j] == list[k];
    assert Hop(next, list, k);
    assert list[k] != list[i];
    if i > 0 && k != i - 1 { assert list[k] != list[i - 1]; }
  }

  lemma LastInRange(next: seq<int>, head: int, tail: int, list: seq<nat>)
    requires Chain(next, head, tail, list)
    ensures tail == NONE <==> list == []
    ensures tail != NONE ==> 0 <= tail < |next| && tail in list
  {
    if list != [] { assert Hop(next, list, |list| - 1); }
  }
}
