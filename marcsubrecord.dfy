/** `MARCSubrecord`: a subfield value that behaves as the plain string `val`
    and also carries the indicators of its field and a way back to the
    other subfields of that field. */
module Subrecords {

  /** Where `other_subfields` leads: one field of a tag (the `index`-th dict
      in that tag's list), or the whole list of fields of a tag. Python holds
      the object itself; the model names it by its place. */
  datatype BackRef = FieldRef(tag: string, index: nat) | TagRef(tag: string)

  datatype Subrecord = Subrecord(val: string, i1: string, i2: string, other: BackRef)

  /** `str(subrecord)` */
  function Str(s: Subrecord): string {
    s.val
  }

  /** `==` between two subrecords: the comparison of `str`. */
  predicate Equals(a: Subrecord, b: Subrecord) {
    Str(a) == Str(b)
  }

  /** `==` between a subrecord and a plain string. */
  predicate EqualsString(a: Subrecord, t: string) {
    Str(a) == t
  }

  /** The string view of a list of subrecords. */
  function Values(subs: seq<Subrecord>): (r: seq<string>)
    ensures |r| == |subs|
    ensures forall i :: 0 <= i < |subs| ==> r[i] == Str(subs[i])
  {
    if subs == [] then [] else [Str(subs[0])] + Values(subs[1..])
  }

  /** The constructor keeps its four arguments, and `str` gives back `val`. */
  lemma ConstructorKeepsArguments(val: string, i1: string, i2: string, other: BackRef)
    ensures var s := Subrecord(val, i1, i2, other);
      Str(s) == val && s.i1 == i1 && s.i2 == i2 && s.other == other
  {
  }

  /** Indicators and back-reference play no part in equality: two subrecords
      are equal exactly when their values are, and each equals its value. */
  lemma EqualityIsStringEquality(a: Subrecord, b: Subrecord)
    ensures Equals(a, b) <==> a.val == b.val
    ensures EqualsString(a, a.val)
    ensures Equals(a, a.(i1 := b.i1, i2 := b.i2, other := b.other))
  {
  }

  lemma ValuesConcat(a: seq<Subrecord>, b: seq<Subrecord>)
    ensures Values(a + b) == Values(a) + Values(b)
  {
    assert forall i :: 0 <= i < |a + b| ==> Values(a + b)[i] == (Values(a) + Values(b))[i];
  }
}
