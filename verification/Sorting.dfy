/** Ordered output: the sorts the program applies after it has walked a Go map. */
module Sorting {

  ghost predicate Total<T(!new)>(le: (T, T) -> bool) {
    forall x, y :: le(x, y) || le(y, x)
  }

  ghost predicate Transitive<T(!new)>(le: (T, T) -> bool) {
    forall x, y, z :: le(x, y) && le(y, z) ==> le(x, z)
  }

  ghost predicate SortedBy<T>(le: (T, T) -> bool, s: seq<T>) {
    forall i, j :: 0 <= i < j < |s| ==> le(s[i], s[j])
  }

  /** Distinct elements of s are never equivalent under le. */
  ghost predicate Separates<T>(le: (T, T) -> bool, s: seq<T>) {
    forall x, y :: x in s && y in s && le(x, y) && le(y, x) ==> x == y
  }

  function Insert<T>(le: (T, T) -> bool, x: T, s: seq<T>): seq<T> {
    if s == [] then [x]
    else if le(x, s[0]) then [x] + s
    else [s[0]] + Insert(le, x, s[1..])
  }

  /** Stands for the library calls sort.Slice, sort.Strings and sort.Ints. */
  function Sort<T>(le: (T, T) -> bool, s: seq<T>): seq<T> {
    if s == [] then [] else Insert(le, s[0], Sort(le, s[1..]))
  }

  lemma {:induction false} InsertAdds<T>(le: (T, T) -> bool, x: T, s: seq<T>)
    ensures multiset(Insert(le, x, s)) == multiset(s) + multiset{x}
  {
    if s != [] && !le(x, s[0]) {
      InsertAdds(le, x, s[1..]);
      assert s == [s[0]] + s[1..];
    }
  }

  lemma {:induction false} InsertSorts<T(!new)>(le: (T, T) -> bool, x: T, s: seq<T>)
    requires Total(le) && Transitive(le) && SortedBy(le, s)
    ensures SortedBy(le, Insert(le, x, s))
  {
    if s != [] && le(x, s[0]) {
      forall k | 0 <= k < |s| ensures le(x, s[k]) {
        assert k == 0 || le(s[0], s[k]);
      }
    } else if s != [] {
      InsertSorts(le, x, s[1..]);
      InsertAdds(le, x, s[1..]);
      var r := Insert(le, x, s[1..]);
      forall k | 0 <= k < |r| ensures le(s[0], r[k]) {
        assert r[k] in multiset(r);
        assert r[k] == x || r[k] in s[1..];
      }
    }
  }

  lemma {:induction false} SortPermutes<T>(le: (T, T) -> bool, s: seq<T>)
    ensures multiset(Sort(le, s)) == multiset(s)
  {
    if s != [] {
      SortPermutes(le, s[1..]);
      InsertAdds(le, s[0], Sort(le, s[1..]));
      assert s == [s[0]] + s[1..];
    }
  }

  lemma {:induction false} SortOrders<T(!new)>(le: (T, T) -> bool, s: seq<T>)
    requires Total(le) && Transitive(le)
    ensures SortedBy(le, Sort(le, s))
  {
    if s != [] {
      SortOrders(le, s[1..]);
      InsertSorts(le, s[0], Sort(le, s[1..]));
    }
  }

  /** Sorting orders its input and neither drops nor invents an element. */
  lemma SortSorts<T(!new)>(le: (T, T) -> bool, s: seq<T>)
    requires Total(le) && Transitive(le)
    ensures SortedBy(le, Sort(le, s))
    ensures multiset(Sort(le, s)) == multiset(s)
    ensures |Sort(le, s)| == |s|
    ensures forall x :: x in Sort(le, s) <==> x in s
  {
    hide Sort, Total, Transitive, SortedBy;
    SortOrders(le, s);
    SortPermutes(le, s);
    assert |multiset(Sort(le, s))| == |multiset(s)|;
    forall x ensures x in Sort(le, s) <==> x in s {
      assert x in Sort(le, s) <==> x in multiset(Sort(le, s));
      assert x in s <==> x in multiset(s);
    }
  }

  /** Two sorted sequences over the same elements are the same sequence, when le tells the elements apart. */
  lemma {:induction false} SortedUnique<T(!new)>(le: (T, T) -> bool, a: seq<T>, b: seq<T>)
    requires SortedBy(le, a) && SortedBy(le, b)
    requires multiset(a) == multiset(b)
    requires Separates(le, a)
    ensures a == b
  {
    hide SortedBy, Separates;
    if a == [] {
      assert |multiset(b)| == 0;
    } else {
      assert a[0] in multiset(b);
      HeadsAgree(le, a, b);
      TailFacts(le, a);
      TailFacts(le, b);
      TailSeparates(le, a);
      SortedUnique(le, a[1..], b[1..]);
    }
  }

  lemma TailFacts<T>(le: (T, T) -> bool, s: seq<T>)
    requires SortedBy(le, s) && s != []
    ensures SortedBy(le, s[1..])
    ensures s == [s[0]] + s[1..] && multiset(s[1..]) == multiset(s) - multiset{s[0]}
  {
    assert s == [s[0]] + s[1..];
  }

  lemma TailSeparates<T>(le: (T, T) -> bool, s: seq<T>)
    requires Separates(le, s) && s != []
    ensures Separates(le, s[1..])
  {
    assert forall x :: x in s[1..] ==> x in s;
  }

  lemma HeadsAgree<T>(le: (T, T) -> bool, a: seq<T>, b: seq<T>)
    requires SortedBy(le, a) && SortedBy(le, b)
    requires multiset(a) == multiset(b) && a != [] && b != []
    requires Separates(le, a)
    ensures a[0] == b[0]
  {
    assert a[0] in multiset(b) && b[0] in multiset(a);
    var i :| 0 <= i < |b| && b[i] == a[0];
    var j :| 0 <= j < |a| && a[j] == b[0];
    if i != 0 && j != 0 {
      assert le(b[0], b[i]) && le(a[0], a[j]);
      assert a[0] in a && a[j] in a;
    }
  }

  /** Sorting is a canonical form: it depends on the elements only, not on the order they arrive in. */
  lemma SortCanonical<T(!new)>(le: (T, T) -> bool, a: seq<T>, b: seq<T>)
    requires Total(le) && Transitive(le) && Separates(le, a)
    ensures Sort(le, a) == Sort(le, b) <==> multiset(a) == multiset(b)
  {
    SortSorts(le, a);
    SortSorts(le, b);
    if multiset(a) == multiset(b) {
      SortedUnique(le, Sort(le, a), Sort(le, b));
    }
  }

  ghost predicate Distinct<T>(s: seq<T>) {
    forall i, j :: 0 <= i < j < |s| ==> s[i] != s[j]
  }

  /** Duplicate-free sequences over the same elements are permutations of each other. */
  lemma {:induction false} DistinctPermutation<T>(a: seq<T>, b: seq<T>)
    requires Distinct(a) && Distinct(b)
    requires forall x :: x in a <==> x in b
    ensures multiset(a) == multiset(b)
  {
    forall x ensures multiset(a)[x] == multiset(b)[x] {
      DistinctCount(a, x);
      DistinctCount(b, x);
    }
  }

  lemma {:induction false} DistinctCount<T>(s: seq<T>, x: T)
    requires Distinct(s)
    ensures multiset(s)[x] == if x in s then 1 else 0
  {
    if s != [] {
      DistinctCount(s[1..], x);
      assert s == [s[0]] + s[1..];
      assert s[0] !in s[1..];
    }
  }

  lemma {:induction false} CountsDistinct<T>(s: seq<T>)
    requires forall x :: multiset(s)[x] <= 1
    ensures Distinct(s)
  {
    if s != [] {
      assert s == [s[0]] + s[1..];
      forall x ensures multiset(s[1..])[x] <= 1 && multiset(s[1..])[s[0]] == 0 {
        assert multiset(s)[x] == multiset{s[0]}[x] + multiset(s[1..])[x];
        assert multiset(s)[s[0]] == 1 + multiset(s[1..])[s[0]];
      }
      CountsDistinct(s[1..]);
      assert s[0] !in multiset(s[1..]);
    }
  }

  lemma DistinctAppend<T>(s: seq<T>, x: T)
    requires Distinct(s) && x !in s
    ensures Distinct(s + [x])
  {
  }

  lemma SortKeepsDistinct<T(!new)>(le: (T, T) -> bool, s: seq<T>)
    requires Total(le) && Transitive(le) && Distinct(s)
    ensures Distinct(Sort(le, s))
  {
    hide Sort, Total, Transitive;
    SortSorts(le, s);
    forall x ensures multiset(Sort(le, s))[x] <= 1 {
      DistinctCount(s, x);
    }
    CountsDistinct(Sort(le, s));
  }

  /** Byte-wise string order, the order of sort.Strings. */
  predicate StringLe(a: string, b: string) {
    a == "" || (b != "" && (a[0] < b[0] || (a[0] == b[0] && StringLe(a[1..], b[1..]))))
  }

  /** The first place where two strings differ decides. */
  lemma {:induction false} StringLeDecided(a: string, b: string, i: nat)
    requires i < |a| && i < |b| && a[..i] == b[..i] && a[i] != b[i]
    ensures StringLe(a, b) <==> a[i] < b[i]
  {
    if i > 0 {
      assert a[0] == a[..i][0] == b[..i][0] == b[0];
      assert a[1..][..i - 1] == a[..i][1..] == b[..i][1..] == b[1..][..i - 1];
      StringLeDecided(a[1..], b[1..], i - 1);
    }
  }

  /** Where they do not differ the shorter comes first. */
  lemma {:induction false} StringLePrefix(a: string, b: string)
    requires a <= b
    ensures StringLe(a, b) && (StringLe(b, a) <==> a == b)
  {
    if a != "" {
      assert a[0] == b[0] && a[1..] <= b[1..];
      StringLePrefix(a[1..], b[1..]);
      assert a == [a[0]] + a[1..] && b == [b[0]] + b[1..];
    }
  }

  lemma {:induction false} StringLeTotal(a: string, b: string)
    ensures StringLe(a, b) || StringLe(b, a)
  {
    if a != "" && b != "" && a[0] == b[0] {
      StringLeTotal(a[1..], b[1..]);
    }
  }

  lemma {:induction false} StringLeAntisymmetric(a: string, b: string)
    requires StringLe(a, b) && StringLe(b, a)
    ensures a == b
  {
    if a != "" && b != "" {
      StringLeAntisymmetric(a[1..], b[1..]);
      assert a == [a[0]] + a[1..] && b == [b[0]] + b[1..];
    }
  }

  lemma {:induction false} StringLeTransitive(a: string, b: string, c: string)
    requires StringLe(a, b) && StringLe(b, c)
    ensures StringLe(a, c)
  {
    if a != "" && b != "" && c != "" && a[0] == b[0] == c[0] {
      StringLeTransitive(a[1..], b[1..], c[1..]);
    }
  }

  /** StringLe is a linear order. */
  lemma StringLeOrder()
    ensures Total(StringLe) && Transitive(StringLe)
    ensures forall a, b :: StringLe(a, b) && StringLe(b, a) ==> a == b
  {
    forall a, b ensures StringLe(a, b) || StringLe(b, a) { StringLeTotal(a, b); }
    forall a, b | StringLe(a, b) && StringLe(b, a) ensures a == b { StringLeAntisymmetric(a, b); }
    forall a, b, c | StringLe(a, b) && StringLe(b, c) ensures StringLe(a, c) { StringLeTransitive(a, b, c); }
  }

  lemma SubsetSize<T>(a: set<T>, b: set<T>)
    requires a <= b
    ensures |a| <= |b|
  {
    assert b == a + (b - a);
  }
}
