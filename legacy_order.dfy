/** The older canonical order (resorted.py, and the copy at the top of
    marcxml.py): the sorted values that are not all digits, then the sorted
    values that are all digits. */
module LegacyOrder {
  import opened Text
  import opened Sorting
  import Tools

  /** `filter(lambda x: not x.isdigit(), values)` */
  function NonDigits(s: seq<string>): (r: seq<string>)
    ensures forall i :: 0 <= i < |r| ==> !IsDigits(r[i])
  {
    if s == [] then [] else (if IsDigits(s[0]) then [] else [s[0]]) + NonDigits(s[1..])
  }

  /** `filter(lambda x: x.isdigit(), values)` */
  function Digits(s: seq<string>): (r: seq<string>)
    ensures forall i :: 0 <= i < |r| ==> IsDigits(r[i])
  {
    if s == [] then [] else (if IsDigits(s[0]) then [s[0]] else []) + Digits(s[1..])
  }

  function Resorted(values: seq<string>): seq<string> {
    var s := Sort(values);
    NonDigits(s) + Digits(s)
  }

  /** The two filters split a list without losing or adding anything. */
  lemma {:induction false} FiltersPartition(s: seq<string>)
    ensures multiset(NonDigits(s)) + multiset(Digits(s)) == multiset(s)
  {
    if s != [] {
      FiltersPartition(s[1..]);
      assert s == [s[0]] + s[1..];
    }
  }

  /** A filter keeps a sorted list sorted. */
  lemma {:induction false} FiltersSorted(s: seq<string>)
    requires Sorted(s)
    ensures Sorted(NonDigits(s)) && Sorted(Digits(s))
  {
    if s != [] {
      var t := s[1..];
      FiltersSorted(t);
      FiltersPartition(t);
      assert AllAbove(s[0], t);
      AllAboveByMultiset(s[0], t, NonDigits(t));
      AllAboveByMultiset(s[0], t, Digits(t));
      SortedCons(s[0], NonDigits(t));
      SortedCons(s[0], Digits(t));
    }
  }

  /** The result is a permutation of the input. */
  lemma ResortedPermutation(values: seq<string>)
    ensures multiset(Resorted(values)) == multiset(values)
    ensures |Resorted(values)| == |values|
  {
    SortSorted(values);
    FiltersPartition(Sort(values));
    assert |Resorted(values)| == |multiset(Resorted(values))|;
  }

  /** Every value that is not all digits comes before every value that is;
      each of the two groups is sorted. */
  lemma ResortedShape(values: seq<string>)
    ensures var r := Resorted(values); var n := |NonDigits(Sort(values))|;
      n <= |r| &&
      (forall i :: 0 <= i < n ==> !IsDigits(r[i])) &&
      (forall i :: n <= i < |r| ==> IsDigits(r[i])) &&
      Sorted(r[..n]) && Sorted(r[n..])
  {
    SortSorted(values);
    FiltersSorted(Sort(values));
    var s := Sort(values);
    assert Resorted(values)[..|NonDigits(s)|] == NonDigits(s);
    assert Resorted(values)[|NonDigits(s)|..] == Digits(s);
  }

  lemma ResortedDependsOnMultiset(a: seq<string>, b: seq<string>)
    requires multiset(a) == multiset(b)
    ensures Resorted(a) == Resorted(b)
  {
    SortPermutationInvariant(a, b);
  }

  lemma ResortedIdempotent(values: seq<string>)
    ensures Resorted(Resorted(values)) == Resorted(values)
  {
    ResortedPermutation(values);
    ResortedDependsOnMultiset(Resorted(values), values);
  }

  /** Values the two orders classify alike: all digits, or led by a
      character above '9' (a letter). */
  predicate Unambiguous(v: string) {
    IsDigits(v) || (v != "" && v[0] > '9')
  }

  lemma {:induction false} FiltersAgree(s: seq<string>)
    requires forall i :: 0 <= i < |s| ==> Unambiguous(s[i])
    ensures Tools.Words(s) == NonDigits(s) && Tools.NonWords(s) == Digits(s)
  {
    if s != [] {
      FiltersAgree(s[1..]);
      assert Tools.IsWord(s[0]) <==> !IsDigits(s[0]);
    }
  }

  /** On keys such as MARC tags and subfield codes (all digits, or led by
      a letter) the older order and the current one agree. */
  lemma AgreesWithCurrentOnUnambiguous(values: seq<string>)
    requires forall i :: 0 <= i < |values| ==> Unambiguous(values[i])
    ensures Resorted(values) == Tools.Resorted(values)
  {
    SortSorted(values);
    var s := Sort(values);
    forall i | 0 <= i < |s| ensures Unambiguous(s[i]) {
      assert s[i] in multiset(values);
    }
    Tools.ResortedWordsThenNumbers(values);
    FiltersAgree(s);
  }

  /** The docstring example. */
  lemma ResortedExample()
    ensures Resorted(["b", "1", "a"]) == ["a", "b", "1"]
  {
    assert Sort(["1", "a"]) == ["1", "a"];
    assert Sort(["b", "1", "a"]) == ["1", "a", "b"];
  }

  /** Where the two differ: a digit-led word keeps its sorted place with
      the older order, and goes last with the current one
      (`Tools.ResortedDigitLedWord`). */
  lemma DigitLedWordInPlace()
    ensures Resorted(["world", "hello", "3a"]) == ["3a", "hello", "world"]
  {
    var s := ["3a", "hello", "world"];
    assert Sort(["hello", "3a"]) == ["3a", "hello"];
    assert Sort(["world", "hello", "3a"]) == s;
    assert !IsDigitChar("3a"[1]) && !IsDigitChar("hello"[0]) && !IsDigitChar("world"[0]);
    assert NonDigits(s) == s;
    assert Digits(s) == [];
  }

  /** The empty string keeps its sorted place, first, with the older order. */
  lemma EmptyStringFirst()
    ensures Resorted(["a", "", "1"]) == ["", "a", "1"]
  {
    EmptyWordDigits("a", "1");
  }

  /** The same for any word above the digits and any all-digit value. */
  lemma EmptyWordDigits(w: string, d: string)
    requires w != "" && w[0] > '9' && IsDigits(d)
    ensures Resorted([w, "", d]) == ["", w, d]
  {
    assert [w, "", d][1..] == ["", d] && ["", d][1..] == [d] && [d][1..] == [];
    assert Sort([d]) == [d];
    assert Sort(["", d]) == ["", d];
    assert Insert(w, [d]) == [d, w];
    assert Sort([w, "", d]) == ["", d, w];
    assert !IsDigits("") && !IsDigits(w);
    FiltersCons(w, []);
    FiltersCons(d, [w]);
    FiltersCons("", [d, w]);
    assert [d] + [w] == [d, w] && [""] + [d, w] == ["", d, w];
    assert [""] + ([w] + []) == ["", w] && [] + ([d] + []) == [d];
  }

  /** The filters on a list that starts with `x`. */
  lemma FiltersCons(x: string, t: seq<string>)
    ensures NonDigits([x] + t) == (if IsDigits(x) then [] else [x]) + NonDigits(t)
    ensures Digits([x] + t) == (if IsDigits(x) then [x] else []) + Digits(t)
  {
    assert ([x] + t)[1..] == t;
  }
}
