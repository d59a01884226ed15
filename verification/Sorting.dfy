/**
 The byte-wise order of Go strings, and the sorts the operator relies on: `sort.Strings` for label keys and
 host names and `sort.SliceStable` for pods. Both are given by one stable insertion sort over a key.
 */
module Sorting {

  /** Byte-wise (lexicographic) order. */
  predicate Leq(a: string, b: string) {
    |a| == 0 || (|b| > 0 && (a[0] < b[0] || (a[0] == b[0] && Leq(a[1..], b[1..]))))
  }

  lemma LeqTotal(a: string, b: string)
    ensures Leq(a, b) || Leq(b, a)
  {
  }

  lemma {:induction false} LeqAntisymmetric(a: string, b: string)
    requires Leq(a, b) && Leq(b, a)
    ensures a == b
  {
    if |a| > 0 && |b| > 0 {
      LeqAntisymmetric(a[1..], b[1..]);
      assert a == [a[0]] + a[1..] && b == [b[0]] + b[1..];
    }
  }

  lemma {:induction false} LeqTransitive(a: string, b: string, c: string)
    requires Leq(a, b) && Leq(b, c)
    ensures Leq(a, c)
  {
    if |a| > 0 && a[0] == b[0] && b[0] == c[0] {
      LeqTransitive(a[1..], b[1..], c[1..]);
    }
  }

  ghost predicate SortedBy<T>(s: seq<T>, key: T -> string) {
    forall i, j :: 0 <= i < j < |s| ==> Leq(key(s[i]), key(s[j]))
  }

  /** The key tells the elements of `s` apart. */
  ghost predicate KeyIsInjective<T>(s: seq<T>, key: T -> string) {
    forall i, j :: 0 <= i < |s| && 0 <= j < |s| && key(s[i]) == key(s[j]) ==> s[i] == s[j]
  }

  function Insert<T>(x: T, s: seq<T>, key: T -> string): (r: seq<T>) {
    if s == [] then [x]
    else if Leq(key(x), key(s[0])) then [x] + s
    else [s[0]] + Insert(x, s[1..], key)
  }

  function SortBy<T>(s: seq<T>, key: T -> string): (r: seq<T>) {
    if s == [] then [] else Insert(s[0], SortBy(s[1..], key), key)
  }

  lemma {:induction false} InsertKeepsElements<T>(x: T, s: seq<T>, key: T -> string)
    ensures multiset(Insert(x, s, key)) == multiset{x} + multiset(s)
  {
    if s != [] {
      assert s == [s[0]] + s[1..];
      InsertKeepsElements(x, s[1..], key);
    }
  }

  lemma {:induction false} InsertKeepsOrder<T>(x: T, s: seq<T>, key: T -> string)
    requires SortedBy(s, key)
    ensures SortedBy(Insert(x, s, key), key)
  {
    if s != [] {
      if Leq(key(x), key(s[0])) {
        forall j | 0 <= j < |s| ensures Leq(key(x), key(s[j])) {
          if j > 0 { LeqTransitive(key(x), key(s[0]), key(s[j])); }
        }
      } else {
        LeqTotal(key(x), key(s[0]));
        InsertKeepsOrder(x, s[1..], key);
        InsertKeepsElements(x, s[1..], key);
        var rest := Insert(x, s[1..], key);
        forall j | 0 <= j < |rest| ensures Leq(key(s[0]), key(rest[j])) {
          assert rest[j] in multiset(rest);
          assert rest[j] == x || rest[j] in s[1..];
        }
      }
    }
  }

  lemma {:induction false} SortByIsSort<T>(s: seq<T>, key: T -> string)
    ensures SortedBy(SortBy(s, key), key)
    ensures multiset(SortBy(s, key)) == multiset(s)
  {
    if s != [] {
      SortByIsSort(s[1..], key);
      InsertKeepsOrder(s[0], SortBy(s[1..], key), key);
      InsertKeepsElements(s[0], SortBy(s[1..], key), key);
      assert s == [s[0]] + s[1..];
    }
  }

  lemma SortedHeadsAgree<T>(a: seq<T>, b: seq<T>, key: T -> string)
    requires SortedBy(a, key) && SortedBy(b, key)
    requires multiset(a) == multiset(b)
    requires KeyIsInjective(a, key)
    requires a != [] && b != []
    ensures a[0] == b[0]
  {
    assert a[0] in multiset(b) && b[0] in multiset(a);
    var i :| 0 <= i < |b| && b[i] == a[0];
    var j :| 0 <= j < |a| && a[j] == b[0];
    if i > 0 && j > 0 {
      LeqAntisymmetric(key(a[0]), key(b[0]));
    }
  }

  lemma TailContents<T>(s: seq<T>)
    requires s != []
    ensures multiset(s[1..]) == multiset(s) - multiset{s[0]}
  {
    assert s == [s[0]] + s[1..];
  }

  lemma RemoveHead<T>(a: seq<T>, b: seq<T>, i: nat)
    requires multiset(a) == multiset(b) && a != [] && i < |b| && b[i] == a[0]
    ensures multiset(a[1..]) == multiset(b[..i] + b[i + 1..])
  {
    TailContents(a);
    assert b == b[..i] + ([b[i]] + b[i + 1..]);
  }

  /** Two sorted listings of the same elements are the same listing. */
  lemma {:induction false} SortedIsUnique<T>(a: seq<T>, b: seq<T>, key: T -> string)
    requires SortedBy(a, key) && SortedBy(b, key)
    requires multiset(a) == multiset(b)
    requires KeyIsInjective(a, key)
    ensures a == b
  {
    assert |a| == |multiset(a)| == |multiset(b)| == |b|;
    if a != [] {
      SortedHeadsAgree(a, b, key);
      TailContents(a);
      TailContents(b);
      SortedIsUnique(a[1..], b[1..], key);
      assert a == [a[0]] + a[1..] && b == [b[0]] + b[1..];
    }
  }

  /** Sorting forgets the order in which the elements were listed. */
  lemma SortForgetsOrder<T>(a: seq<T>, b: seq<T>, key: T -> string)
    requires multiset(a) == multiset(b)
    requires KeyIsInjective(a, key)
    ensures SortBy(a, key) == SortBy(b, key)
  {
    SortByIsSort(a, key);
    SortByIsSort(b, key);
    var sorted := SortBy(a, key);
    forall i, j | 0 <= i < |sorted| && 0 <= j < |sorted| && key(sorted[i]) == key(sorted[j])
      ensures sorted[i] == sorted[j]
    {
      assert sorted[i] in multiset(a) && sorted[j] in multiset(a);
    }
    SortedIsUnique(sorted, SortBy(b, key), key);
  }

  /** The key by which strings are sorted: the string. */
  function Itself(s: string): string { s }

  ghost predicate AllDistinct<T>(s: seq<T>) {
    forall i, j :: 0 <= i < j < |s| ==> s[i] != s[j]
  }

  /** `s` lists the set `elements`, each element once. */
  ghost predicate Lists<T>(s: seq<T>, elements: set<T>) {
    multiset(s) == multiset(elements)
  }

  lemma ListsMembers<T>(s: seq<T>, elements: set<T>)
    requires Lists(s, elements)
    ensures forall x :: x in s <==> x in elements
    ensures AllDistinct(s)
    ensures |s| == |elements|
  {
    forall x ensures x in s <==> x in elements {
      assert x in s <==> x in multiset(s);
    }
    forall i, j | 0 <= i < j < |s| ensures s[i] != s[j] {
      assert s == s[..j] + s[j..] && s[i] in s[..j];
      assert multiset(elements)[s[i]] <= 1;
    }
    assert |s| == |multiset(s)|;
  }

  ghost function Listing<T(!new)>(elements: set<T>): (s: seq<T>)
    ensures Lists(s, elements)
  {
    if elements == {} then []
    else
      var x :| x in elements;
      assert multiset(elements) == multiset{x} + multiset(elements - {x});
      [x] + Listing(elements - {x})
  }

  /** The keys of a Go map in sorted order, whatever order iterating the map yields them in. */
  ghost function SortedKeys(keys: set<string>): seq<string> {
    SortBy(Listing(keys), Itself)
  }

  lemma SortedKeysOfAnyListing(s: seq<string>, keys: set<string>)
    requires Lists(s, keys)
    ensures SortBy(s, Itself) == SortedKeys(keys)
  {
    SortForgetsOrder(s, Listing(keys), Itself);
  }
}
