/** Python's `sorted` on a list of strings: the lexicographic order of
    characters, and a sort that yields the ordered permutation. */
module Sorting {

  /** `a <= b` on Python strings. */
  predicate Below(a: string, b: string) {
    a == [] || (b != [] && (a[0] < b[0] || (a[0] == b[0] && Below(a[1..], b[1..]))))
  }

  lemma BelowReflexive(a: string)
    ensures Below(a, a)
  {
  }

  lemma BelowAntisymmetric(a: string, b: string)
    requires Below(a, b) && Below(b, a)
    ensures a == b
  {
    if a != [] && b != [] {
      BelowAntisymmetric(a[1..], b[1..]);
      assert a == [a[0]] + a[1..] && b == [b[0]] + b[1..];
    }
  }

  lemma BelowTransitive(a: string, b: string, c: string)
    requires Below(a, b) && Below(b, c)
    ensures Below(a, c)
  {
    if a != [] && b != [] && c != [] && a[0] == b[0] == c[0] {
      BelowTransitive(a[1..], b[1..], c[1..]);
    }
  }

  lemma BelowTotal(a: string, b: string)
    ensures Below(a, b) || Below(b, a)
  {
    if a != [] && b != [] && a[0] == b[0] {
      BelowTotal(a[1..], b[1..]);
    }
  }

  ghost predicate Sorted(s: seq<string>) {
    forall i, j :: 0 <= i < j < |s| ==> Below(s[i], s[j])
  }

  /** Every element of `s` is at least `x`. */
  ghost predicate AllAbove(x: string, s: seq<string>) {
    forall i :: 0 <= i < |s| ==> Below(x, s[i])
  }

  lemma AllAboveByMultiset(x: string, s: seq<string>, t: seq<string>)
    requires AllAbove(x, s) && multiset(t) <= multiset(s)
    ensures AllAbove(x, t)
  {
    forall i | 0 <= i < |t| ensures Below(x, t[i]) {
      assert t[i] in multiset(t);
      assert t[i] in multiset(s);
      var j :| 0 <= j < |s| && s[j] == t[i];
    }
  }

  lemma SortedCons(x: string, t: seq<string>)
    requires Sorted(t) && AllAbove(x, t)
    ensures Sorted([x] + t)
  {
  }

  /** Insertion of `x` before the first element it is below. */
  function Insert(x: string, s: seq<string>): (r: seq<string>)
    ensures |r| == |s| + 1
  {
    if s == [] then [x]
    else if Below(x, s[0]) then [x] + s
    else [s[0]] + Insert(x, s[1..])
  }

  /** Insertion into a sorted list keeps it sorted and adds `x`. */
  lemma {:induction false} InsertSorted(x: string, s: seq<string>)
    requires Sorted(s)
    ensures Sorted(Insert(x, s))
    ensures multiset(Insert(x, s)) == multiset(s) + multiset{x}
  {
    if s == [] {
    } else if Below(x, s[0]) {
      InsertFront(x, s);
    } else {
      InsertSorted(x, s[1..]);
      InsertBehind(x, s, Insert(x, s[1..]));
    }
  }

  lemma InsertFront(x: string, s: seq<string>)
    requires Sorted(s) && s != [] && Below(x, s[0])
    ensures Sorted([x] + s)
  {
    assert AllAbove(x, s) by {
      forall i | 0 <= i < |s| ensures Below(x, s[i]) {
        if i > 0 { BelowTransitive(x, s[0], s[i]); }
      }
    }
    SortedCons(x, s);
  }

  lemma InsertBehind(x: string, s: seq<string>, t: seq<string>)
    requires Sorted(s) && s != [] && !Below(x, s[0])
    requires Sorted(t) && multiset(t) == multiset(s[1..]) + multiset{x}
    ensures Sorted([s[0]] + t)
    ensures multiset([s[0]] + t) == multiset(s) + multiset{x}
  {
    assert s == [s[0]] + s[1..];
    assert AllAbove(s[0], t) by {
      BelowTotal(x, s[0]);
      assert AllAbove(s[0], s[1..] + [x]);
      assert multiset(t) == multiset(s[1..] + [x]);
      AllAboveByMultiset(s[0], s[1..] + [x], t);
    }
    SortedCons(s[0], t);
  }

  /** `sorted(values)`: insertion sort. */
  function Sort(s: seq<string>): (r: seq<string>)
    ensures |r| == |s|
  {
    if s == [] then [] else Insert(s[0], Sort(s[1..]))
  }

  /** `sorted` yields an ordered permutation of its input. */
  lemma {:induction false} SortSorted(s: seq<string>)
    ensures Sorted(Sort(s))
    ensures multiset(Sort(s)) == multiset(s)
    ensures |Sort(s)| == |s|
  {
    if s != [] {
      SortSorted(s[1..]);
      InsertSorted(s[0], Sort(s[1..]));
      assert s == [s[0]] + s[1..];
    }
  }

  /** Two sorted lists with the same elements start with the same one. */
  lemma SortedHeads(a: seq<string>, b: seq<string>)
    requires Sorted(a) && Sorted(b) && multiset(a) == multiset(b) && a != []
    ensures b != [] && a[0] == b[0]
  {
    assert a[0] in multiset(b);
    var j :| 0 <= j < |b| && b[j] == a[0];
    assert b[0] in multiset(a);
    var i :| 0 <= i < |a| && a[i] == b[0];
    assert Below(a[0], b[0]) by { if i > 0 { assert Below(a[0], a[i]); } else { BelowReflexive(a[0]); } }
    assert Below(b[0], a[0]) by { if j > 0 { assert Below(b[0], b[j]); } else { BelowReflexive(b[0]); } }
    BelowAntisymmetric(a[0], b[0]);
  }

  /** A sorted list is determined by its elements: this is why every
      function built on `sorted` depends only on the multiset of its input. */
  lemma {:induction false} SortedUnique(a: seq<string>, b: seq<string>)
    requires Sorted(a) && Sorted(b) && multiset(a) == multiset(b)
    ensures a == b
  {
    if a == [] {
      assert |b| == |multiset(b)| == 0;
    } else {
      SortedHeads(a, b);
      SortedTail(a);
      SortedTail(b);
      SortedUnique(a[1..], b[1..]);
      assert a == [a[0]] + a[1..] && b == [b[0]] + b[1..];
    }
  }

  lemma SortedTail(a: seq<string>)
    requires Sorted(a) && a != []
    ensures Sorted(a[1..])
    ensures multiset(a[1..]) == multiset(a) - multiset{a[0]}
  {
    assert a == [a[0]] + a[1..];
  }

  /** Ordered neighbours: the cheap way to see that a list is sorted. */
  predicate InOrder(s: seq<string>) {
    forall i :: 0 <= i < |s| - 1 ==> Below(s[i], s[i + 1])
  }

  lemma {:induction false} InOrderSorted(s: seq<string>)
    requires InOrder(s)
    ensures Sorted(s)
  {
    if |s| > 1 {
      InOrderSorted(s[1..]);
      forall j | 1 < j < |s| ensures Below(s[0], s[j]) {
        assert Below(s[1..][0], s[1..][j - 1]);
        BelowTransitive(s[0], s[1], s[j]);
      }
    }
  }

  /** `sorted` returns the one ordered permutation of its input. */
  lemma SortIs(s: seq<string>, t: seq<string>)
    requires InOrder(t) && multiset(t) == multiset(s)
    ensures Sort(s) == t
  {
    InOrderSorted(t);
    SortSorted(s);
    SortedUnique(Sort(s), t);
  }

  lemma SortPermutationInvariant(a: seq<string>, b: seq<string>)
    requires multiset(a) == multiset(b)
    ensures Sort(a) == Sort(b)
  {
    SortSorted(a);
    SortSorted(b);
    SortedUnique(Sort(a), Sort(b));
  }

  lemma SortedSlice(s: seq<string>, i: nat, j: nat)
    requires Sorted(s) && i <= j <= |s|
    ensures Sorted(s[i..j])
  {
  }
}
