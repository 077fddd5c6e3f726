/** Facts about sequence concatenation that the verifier only reaches by
    extensionality; stating them once keeps the proofs that use them
    cheap. */
module Seqs {

  lemma AppendNil<T>(x: seq<T>)
    ensures x + [] == x && [] + x == x
  {
  }

  lemma AppendAssoc<T>(x: seq<T>, y: seq<T>, z: seq<T>)
    ensures (x + y) + z == x + (y + z)
  {
  }

  /** A non-empty sequence is its prefix and its last element. */
  lemma LastSplit<T>(xs: seq<T>)
    requires xs != []
    ensures xs == xs[..|xs| - 1] + [xs[|xs| - 1]]
    ensures forall x :: x in xs <==> x in xs[..|xs| - 1] || x == xs[|xs| - 1]
  {
    assert xs == xs[..|xs| - 1] + [xs[|xs| - 1]];
  }
}
