/** How this project keeps a large predicate out of proofs that do not need its contents.

    `forall k: nat {:trigger Unsealed(k)} :: Unsealed(k) ==> Q` says the same as `Q`, because `Unsealed` is
    always true. But the verifier reads `Q` off it only where some proof mentions `Unsealed(k)`; everywhere else
    the predicate is passed along as a whole. A predicate written this way is called sealed, and the lemma
    beside it that asserts `Unsealed(0)` opens it. */
module Sealing {
  predicate Unsealed(k: nat) {
    true
  }
}
