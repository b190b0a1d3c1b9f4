/** Lists without repetitions, and taking one element out of a list. */
module Lists {
  /** The link of a last record. */
  const NONE: int := -1

  ghost predicate Distinct<T>(list: seq<T>) {
    forall i, j :: 0 <= i < j < |list| ==> list[i] != list[j]
  }

  function Without<T>(list: seq<T>, i: nat): (r: seq<T>)
    requires i < |list|
  {
    list[..i] + list[i + 1..]
  }

  lemma WithoutMembers<T>(list: seq<T>, i: nat)
    requires i < |list| && Distinct(list)
    ensures Distinct(Without(list, i)) && forall w :: w in Without(list, i) <==> w in list && w != list[i]
  {
  }
}
