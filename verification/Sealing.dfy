/**
Facts that a proof only passes on are folded away: a predicate of the form `forall b :: Unfold(b) ==> P` means P,
and a proof that needs P says `assert Unfold(true)`.
*/
module Sealing {
  predicate Unfold(b: bool) { b }
}
