/** The canonical order the serializer uses for keys (tools/resorted.py):
    the sorted list, rotated so that it starts at the first "word", which
    puts the digit-led keys sorted before it at the end. */
module Tools {
  import opened Wrappers
  import opened Text
  import opened Sorting

  /** A value the rotation can start at: non-empty and not led by a digit. */
  predicate IsWord(v: string) {
    v != "" && !IsDigitChar(v[0])
  }

  /** Index of the first word, `None` when there is none. */
  function FirstWord(s: seq<string>): (r: Option<nat>)
    ensures r.None? <==> forall i :: 0 <= i < |s| ==> !IsWord(s[i])
    ensures r.Some? ==> r.value < |s| && IsWord(s[r.value])
    ensures r.Some? ==> forall i :: 0 <= i < r.value ==> !IsWord(s[i])
  {
    if s == [] then None
    else if IsWord(s[0]) then Some(0)
    else
      match FirstWord(s[1..])
      case None => None
      case Some(k) => Some(k + 1)
  }

  function Resorted(values: seq<string>): seq<string> {
    if values == [] then values
    else
      var s := Sort(values);
      match FirstWord(s)
      case None => s
      case Some(k) => s[k..] + s[..k]
  }

  /** Where the rotation cuts the sorted list: the first word, or the end. */
  function Cut(s: seq<string>): (k: nat)
    ensures k <= |s|
    ensures forall i :: 0 <= i < k ==> !IsWord(s[i])
    ensures k < |s| ==> IsWord(s[k])
  {
    match FirstWord(s)
    case None => |s|
    case Some(k) => k
  }

  /** The result is the sorted input rotated at its first word; what
      precedes that word (empty strings, digit-led strings) goes last. */
  lemma ResortedIsRotation(values: seq<string>)
    ensures var s := Sort(values); var k := Cut(s);
      Resorted(values) == s[k..] + s[..k]
  {
    var s := Sort(values);
    if values == [] {
      assert s == [];
    } else if FirstWord(s).None? {
      assert s[|s|..] + s[..|s|] == s;
    }
  }

  lemma RotationPermutation(s: seq<string>, k: nat)
    requires k <= |s|
    ensures |s[k..] + s[..k]| == |s|
    ensures multiset(s[k..] + s[..k]) == multiset(s)
  {
    assert s == s[..k] + s[k..];
  }

  /** The output is a permutation of the input. */
  lemma ResortedPermutation(values: seq<string>)
    ensures |Resorted(values)| == |values|
    ensures multiset(Resorted(values)) == multiset(values)
  {
    ResortedIsRotation(values);
    SortSorted(values);
    RotationPermutation(Sort(values), Cut(Sort(values)));
  }

  /** The result depends only on the multiset of the input. */
  lemma ResortedDependsOnMultiset(a: seq<string>, b: seq<string>)
    requires multiset(a) == multiset(b)
    ensures Resorted(a) == Resorted(b)
  {
    SortPermutationInvariant(a, b);
  }

  /** Sorting canonically twice is sorting canonically once. */
  lemma ResortedIdempotent(values: seq<string>)
    ensures Resorted(Resorted(values)) == Resorted(values)
  {
    ResortedPermutation(values);
    ResortedDependsOnMultiset(Resorted(values), values);
  }

  /** Without a word the plain sorted list comes back. */
  lemma ResortedWithoutWords(values: seq<string>)
    requires forall i :: 0 <= i < |values| ==> !IsWord(values[i])
    ensures Resorted(values) == Sort(values)
  {
    var s := Sort(values);
    SortSorted(values);
    forall i | 0 <= i < |s| ensures !IsWord(s[i]) {
      assert s[i] in multiset(values);
    }
  }

  /** The words of a list, in order, and the rest. */
  function Words(s: seq<string>): (r: seq<string>)
    ensures forall i :: 0 <= i < |r| ==> IsWord(r[i])
  {
    if s == [] then [] else (if IsWord(s[0]) then [s[0]] else []) + Words(s[1..])
  }

  function NonWords(s: seq<string>): (r: seq<string>)
    ensures forall i :: 0 <= i < |r| ==> !IsWord(r[i])
  {
    if s == [] then [] else (if IsWord(s[0]) then [] else [s[0]]) + NonWords(s[1..])
  }

  lemma {:induction false} FilterSplit(s: seq<string>, k: nat)
    requires k <= |s|
    requires forall i :: 0 <= i < k ==> !IsWord(s[i])
    requires forall i :: k <= i < |s| ==> IsWord(s[i])
    ensures Words(s) == s[k..] && NonWords(s) == s[..k]
  {
    if s != [] {
      FilterSplit(s[1..], if k == 0 then 0 else k - 1);
      if k > 0 { assert s[..k] == [s[0]] + s[1..][..k - 1]; }
    }
  }

  /** When every word starts with a character above '9' (letters do), all
      words come first, sorted, and then the empty and digit-led values,
      sorted: the "numbers after words" order of the function's docstring. */
  lemma {:induction false} ResortedWordsThenNumbers(values: seq<string>)
    requires forall i :: 0 <= i < |values| ==> IsWord(values[i]) ==> values[i][0] > '9'
    ensures Resorted(values) == Words(Sort(values)) + NonWords(Sort(values))
  {
    var s := Sort(values);
    var k := Cut(s);
    ResortedIsRotation(values);
    SortSorted(values);
    if k < |s| {
      assert s[k] in multiset(values);
      forall i | k < i < |s| ensures IsWord(s[i]) {
        assert Below(s[k], s[i]);
      }
    }
    FilterSplit(s, k);
  }

  /** The examples of the docstring and of the unit tests. */
  lemma ResortedSmall()
    ensures Resorted([]) == []
    ensures Resorted(["a"]) == ["a"]
    ensures Resorted(["2", "1"]) == ["1", "2"]
  {
  }

  lemma ResortedLettersFirst()
    ensures Resorted(["b", "1", "a"]) == ["a", "b", "1"]
  {
    assert Sort(["1", "a"]) == ["1", "a"];
    assert Sort(["b", "1", "a"]) == ["1", "a", "b"];
  }

  /** The unit test that sorts the characters of "1bc3a". */
  lemma SortCharacters()
    ensures Sort(["1", "b", "c", "3", "a"]) == ["1", "3", "a", "b", "c"]
  {
    assert Sort(["3", "a"]) == ["3", "a"];
    assert Sort(["c", "3", "a"]) == ["3", "a", "c"];
    assert Sort(["b", "c", "3", "a"]) == ["3", "a", "b", "c"];
  }

  lemma ResortedCharacters()
    ensures Resorted(["1", "b", "c", "3", "a"]) == ["a", "b", "c", "1", "3"]
  {
    var s := ["1", "3", "a", "b", "c"];
    assert FirstWord(s) == Some(2);
    assert s[2..] + s[..2] == ["a", "b", "c", "1", "3"];
    SortCharacters();
  }

  lemma ResortedDigitLedWord()
    ensures Resorted(["world", "hello", "3a"]) == ["hello", "world", "3a"]
  {
    assert Sort(["hello", "3a"]) == ["3a", "hello"];
    assert Sort(["world", "hello", "3a"]) == ["3a", "hello", "world"];
  }

  lemma ResortedEmptyString()
    ensures Resorted(["a", "", "1"]) == ["a", "", "1"]
  {
    assert Sort(["", "1"]) == ["", "1"];
    assert Sort(["a", "", "1"]) == ["", "1", "a"];
  }
}
