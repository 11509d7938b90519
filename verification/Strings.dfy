/**
 Go's order on strings, and the sorted, duplicate-free lists that make the operator's
 output canonical. Comparing byte by byte orders UTF-8 text as comparing code points does.
 */
module Strings {

  /** The order of Go's `<=` on strings: lexicographic. */
  predicate AtMost(a: string, b: string) {
    a == [] || (b != [] && (a[0] < b[0] || (a[0] == b[0] && AtMost(a[1..], b[1..]))))
  }

  lemma {:induction false} AtMostTotal(a: string, b: string)
    ensures AtMost(a, b) || AtMost(b, a)
  {
    if a != [] && b != [] && a[0] == b[0] {
      AtMostTotal(a[1..], b[1..]);
    }
  }

  lemma {:induction false} AtMostAntisymmetric(a: string, b: string)
    requires AtMost(a, b) && AtMost(b, a)
    ensures a == b
  {
    if a != [] {
      AtMostAntisymmetric(a[1..], b[1..]);
      assert a == [a[0]] + a[1..] == [b[0]] + b[1..] == b;
    }
  }

  lemma {:induction false} AtMostTransitive(a: string, b: string, c: string)
    requires AtMost(a, b) && AtMost(b, c)
    ensures AtMost(a, c)
  {
    if a != [] && a[0] == b[0] == c[0] {
      AtMostTransitive(a[1..], b[1..], c[1..]);
    }
  }

  predicate Less(a: string, b: string) {
    AtMost(a, b) && a != b
  }

  lemma LessTransitive(a: string, b: string, c: string)
    requires AtMost(a, b) && AtMost(b, c) && (a != b || b != c)
    ensures Less(a, c)
  {
    AtMostTransitive(a, b, c);
    if a == c {
      AtMostAntisymmetric(a, b);
    }
  }

  ghost predicate Ascending(s: seq<string>) {
    forall i, j | 0 <= i < j < |s| :: AtMost(s[i], s[j])
  }

  ghost predicate Increasing(s: seq<string>) {
    forall i, j | 0 <= i < j < |s| :: Less(s[i], s[j])
  }

  function Elements(s: seq<string>): set<string> {
    set x | x in s
  }

  /** A strictly increasing list is determined by its elements. */
  lemma {:induction false} IncreasingUnique(a: seq<string>, b: seq<string>)
    requires Increasing(a) && Increasing(b) && Elements(a) == Elements(b)
    ensures a == b
  {
    assert a != [] ==> a[0] in Elements(b);
    assert b != [] ==> b[0] in Elements(a);
    if a != [] {
      HeadsAgree(a, b);
      forall x ensures x in Elements(a[1..]) <==> x in Elements(b[1..]) {
        assert x in Elements(a[1..]) <==> x in Elements(a) && x != a[0] by { TailElements(a, x); }
        assert x in Elements(b[1..]) <==> x in Elements(b) && x != b[0] by { TailElements(b, x); }
      }
      IncreasingUnique(a[1..], b[1..]);
      assert a == [a[0]] + a[1..] == [b[0]] + b[1..] == b;
    }
  }

  lemma HeadsAgree(a: seq<string>, b: seq<string>)
    requires Increasing(a) && Increasing(b) && Elements(a) == Elements(b) && a != [] && b != []
    ensures a[0] == b[0]
  {
    assert a[0] in Elements(b) && b[0] in Elements(a);
    var i :| 0 <= i < |b| && b[i] == a[0];
    var j :| 0 <= j < |a| && a[j] == b[0];
    if i != 0 && j != 0 {
      assert Less(b[0], b[i]) && Less(a[0], a[j]);
      AtMostAntisymmetric(a[0], b[0]);
    }
  }

  lemma TailElements(s: seq<string>, x: string)
    requires Increasing(s) && s != []
    ensures x in Elements(s[1..]) <==> x in Elements(s) && x != s[0]
  {
    if x in s[1..] {
      var i :| 0 <= i < |s| - 1 && s[1..][i] == x;
      assert Less(s[0], s[i + 1]);
    }
    if x in s && x != s[0] {
      var i :| 0 <= i < |s| && s[i] == x;
      assert s[1..][i - 1] == x;
    }
  }

  /** `x` put in its place in an ascending list. */
  function Insert(x: string, s: seq<string>): seq<string> {
    if s == [] || AtMost(x, s[0]) then [x] + s else [s[0]] + Insert(x, s[1..])
  }

  /** What Go's `slices.Sort` leaves in the slice. */
  function Sorted(s: seq<string>): seq<string> {
    if s == [] then [] else Insert(s[0], Sorted(s[1..]))
  }

  /** What Go's `slices.Compact` returns: runs of equal elements shortened to one. */
  function Compacted(s: seq<string>): seq<string> {
    if |s| <= 1 then s
    else if s[0] == s[1] then Compacted(s[1..])
    else [s[0]] + Compacted(s[1..])
  }

  lemma {:induction false} InsertAscending(x: string, s: seq<string>)
    ensures multiset(Insert(x, s)) == multiset(s) + multiset{x}
    ensures Ascending(s) ==> Ascending(Insert(x, s))
  {
    if s == [] || AtMost(x, s[0]) {
      if Ascending(s) { ConsAscending(x, s); }
    } else {
      assert s == [s[0]] + s[1..];
      InsertAscending(x, s[1..]);
      if Ascending(s) {
        AtMostTotal(x, s[0]);
        var t := Insert(x, s[1..]);
        assert t[0] == x || (|s| > 1 && t[0] == s[1]);
        ConsAscending(s[0], t);
      }
    }
  }

  lemma {:induction false} SortedAscending(s: seq<string>)
    ensures Ascending(Sorted(s))
    ensures multiset(Sorted(s)) == multiset(s)
  {
    if s != [] {
      assert s == [s[0]] + s[1..];
      SortedAscending(s[1..]);
      InsertAscending(s[0], Sorted(s[1..]));
    }
  }

  lemma ConsAscending(x: string, s: seq<string>)
    requires Ascending(s) && (s != [] ==> AtMost(x, s[0]))
    ensures Ascending([x] + s)
  {
    forall j | 0 <= j < |s| ensures AtMost(x, s[j]) {
      if j > 0 {
        AtMostTransitive(x, s[0], s[j]);
      }
    }
  }

  lemma {:induction false} CompactedIncreasing(s: seq<string>)
    ensures Elements(Compacted(s)) == Elements(s)
    ensures s != [] ==> Compacted(s) != [] && Compacted(s)[0] == s[0]
    ensures Ascending(s) ==> Increasing(Compacted(s))
  {
    if |s| > 1 {
      assert s == [s[0]] + s[1..];
      CompactedIncreasing(s[1..]);
      ConsElements(s[0], s[1..]);
      ConsElements(s[0], Compacted(s[1..]));
      if s[0] != s[1] && Ascending(s) {
        ConsIncreasing(s[0], Compacted(s[1..]));
      }
    }
  }

  lemma ConsElements(x: string, s: seq<string>)
    ensures Elements([x] + s) == {x} + Elements(s)
  {
  }

  lemma ConsIncreasing(x: string, s: seq<string>)
    requires Increasing(s) && (s != [] ==> Less(x, s[0]))
    ensures Increasing([x] + s)
  {
    forall j | 0 <= j < |s| ensures Less(x, s[j]) {
      if j > 0 {
        LessTransitive(x, s[0], s[j]);
      }
    }
  }

  lemma SortedElements(s: seq<string>)
    ensures Elements(Sorted(s)) == Elements(s)
  {
    SortedAscending(s);
    forall x ensures x in Sorted(s) <==> x in s {
      assert x in multiset(Sorted(s)) <==> x in multiset(s);
    }
  }

  ghost predicate NoDuplicates(s: seq<string>) {
    forall i, j | 0 <= i < j < |s| :: s[i] != s[j]
  }

  /** A set's elements in some order. */
  ghost function Listing(s: set<string>): seq<string> {
    if s == {} then [] else
      var x :| x in s;
      [x] + Listing(s - {x})
  }

  lemma ListingElements(s: set<string>)
    ensures Elements(Listing(s)) == s
  {
    forall x | x in Listing(s) ensures x in s { ListingSound(s, x); }
    forall x | x in s ensures x in Listing(s) { ListingComplete(s, x); }
  }

  lemma {:induction false} ListingSound(s: set<string>, x: string)
    requires x in Listing(s)
    ensures x in s
  {
    if s != {} {
      var y :| y in s && Listing(s) == [y] + Listing(s - {y});
      if x != y {
        ListingSound(s - {y}, x);
      }
    }
  }

  lemma {:induction false} ListingComplete(s: set<string>, x: string)
    requires x in s
    ensures x in Listing(s)
  {
    var y :| y in s && Listing(s) == [y] + Listing(s - {y});
    if x != y {
      ListingComplete(s - {y}, x);
    }
  }

  /** The strictly increasing list of a set's elements. */
  ghost function Canonical(s: set<string>): seq<string> {
    Compacted(Sorted(Listing(s)))
  }

  lemma CanonicalIs(s: set<string>)
    ensures Increasing(Canonical(s)) && Elements(Canonical(s)) == s
    ensures Canonical(s) == [] <==> s == {}
  {
    SortedAscending(Listing(s));
    SortedElements(Listing(s));
    CompactedIncreasing(Sorted(Listing(s)));
    ListingElements(s);
    var r := Canonical(s);
    assert r != [] ==> r[0] in Elements(r);
    assert s != {} ==> exists x :: x in s && x in Elements(r);
  }

  /** There is only one such list. */
  lemma CanonicalUnique(s: seq<string>)
    requires Increasing(s)
    ensures s == Canonical(Elements(s))
  {
    CanonicalIs(Elements(s));
    IncreasingUnique(s, Canonical(Elements(s)));
  }

  /** Sorting and compacting gives the canonical list of the elements. */
  lemma SortedCompactedIsCanonical(s: seq<string>)
    ensures Compacted(Sorted(s)) == Canonical(Elements(s))
  {
    SortedAscending(s);
    SortedElements(s);
    CompactedIncreasing(Sorted(s));
    CanonicalUnique(Compacted(Sorted(s)));
  }

  /** Sorting a list without duplicates gives the canonical list of its elements. */
  lemma SortedDistinctIsCanonical(s: seq<string>)
    requires NoDuplicates(s)
    ensures Sorted(s) == Canonical(Elements(s))
  {
    var r := Sorted(s);
    SortedAscending(s);
    SortedElements(s);
    forall i, j | 0 <= i < j < |r| ensures r[i] != r[j] {
      if r[i] == r[j] {
        TwiceInMultiset(r, i, j);
        OnceInMultiset(s, r[i]);
      }
    }
    CanonicalUnique(r);
  }

  lemma TwiceInMultiset(s: seq<string>, i: nat, j: nat)
    requires i < j < |s| && s[i] == s[j]
    ensures multiset(s)[s[i]] >= 2
  {
    assert s == s[..i] + [s[i]] + s[i + 1..j] + [s[j]] + s[j + 1..];
  }

  lemma {:induction false} OnceInMultiset(s: seq<string>, x: string)
    requires NoDuplicates(s)
    ensures multiset(s)[x] <= 1
  {
    if s != [] {
      assert s == [s[0]] + s[1..];
      OnceInMultiset(s[1..], x);
      if x == s[0] {
        assert x !in s[1..];
      }
    }
  }
}
