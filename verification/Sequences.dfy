// The array operations the program leans on: filter, stable sort, distinct values and sums.
module Sequences {
  import opened Text

  function Filter<T>(p: T -> bool, s: seq<T>): (r: seq<T>)
    ensures |r| <= |s|
    ensures forall i :: 0 <= i < |r| ==> r[i] in s && p(r[i])
    ensures forall i :: 0 <= i < |s| && p(s[i]) ==> s[i] in r
  {
    if s == [] then []
    else
      var rest := Filter(p, s[1..]);
      assert s == [s[0]] + s[1..];
      if p(s[0]) then [s[0]] + rest else rest
  }

  // Filtering goes element by element.
  lemma {:induction false} FilterAddsUp<T>(p: T -> bool, s: seq<T>, t: seq<T>)
    ensures Filter(p, s + t) == Filter(p, s) + Filter(p, t)
    ensures forall x :: Filter(p, [x]) == if p(x) then [x] else []
  {
    forall x ensures Filter(p, [x]) == if p(x) then [x] else [] {
      assert [x][1..] == [];
    }
    if s == [] {
      assert s + t == t;
    } else {
      assert (s + t)[1..] == s[1..] + t;
      FilterAddsUp(p, s[1..], t);
    }
  }

  // ---- stable sort; `after(a, b)` says that the comparison of a with b is positive ----

  function Insert<T>(after: (T, T) -> bool, x: T, s: seq<T>): (r: seq<T>)
    ensures multiset(r) == multiset(s) + multiset{x}
    ensures |r| == |s| + 1
    ensures r[0] == if s == [] || after(s[0], x) then x else s[0]
  {
    if s == [] then [x]
    else if after(s[0], x) then [x] + s
    else
      assert s == [s[0]] + s[1..];
      [s[0]] + Insert(after, x, s[1..])
  }

  function StableSort<T>(after: (T, T) -> bool, s: seq<T>): (r: seq<T>)
    ensures multiset(r) == multiset(s)
    ensures |r| == |s|
  {
    if s == [] then []
    else
      assert s == s[..|s| - 1] + [s[|s| - 1]];
      Insert(after, s[|s| - 1], StableSort(after, s[..|s| - 1]))
  }

  // The element a left-to-right scan keeps when it only gives way to a strictly better one.
  function FirstBest<T>(after: (T, T) -> bool, s: seq<T>): (best: T)
    requires s != []
    ensures best in s
  {
    if |s| == 1 then s[0]
    else
      var best := FirstBest(after, s[..|s| - 1]);
      if after(best, s[|s| - 1]) then s[|s| - 1] else best
  }

  lemma {:induction false} SortPutsFirstBestFirst<T>(after: (T, T) -> bool, s: seq<T>)
    requires s != []
    ensures StableSort(after, s)[0] == FirstBest(after, s)
  {
    if |s| > 1 { SortPutsFirstBestFirst(after, s[..|s| - 1]); }
  }

  ghost predicate Ascending<T>(key: T -> real, s: seq<T>) {
    forall i, j {:trigger s[i], s[j]} :: 0 <= i < j < |s| ==> key(s[i]) <= key(s[j])
  }

  // Sorting by a numeric key leaves the keys in ascending order.
  lemma {:induction false} SortOrdersKeys<T>(after: (T, T) -> bool, key: T -> real, s: seq<T>)
    requires forall a: T, b: T :: after(a, b) <==> key(a) > key(b)
    ensures Ascending(key, StableSort(after, s))
  {
    if s != [] {
      SortOrdersKeys(after, key, s[..|s| - 1]);
      InsertKeepsOrder(after, key, s[|s| - 1], StableSort(after, s[..|s| - 1]));
    }
  }

  lemma {:induction false} InsertKeepsOrder<T>(after: (T, T) -> bool, key: T -> real, x: T, s: seq<T>)
    requires forall a: T, b: T :: after(a, b) <==> key(a) > key(b)
    requires Ascending(key, s)
    ensures Ascending(key, Insert(after, x, s))
  {
    if s == [] || after(s[0], x) {
      assert Insert(after, x, s) == [x] + s;
      if s != [] {
        forall j | 0 <= j < |s| ensures key(x) <= key(s[j]) { assert s[0] == s[j] || key(s[0]) <= key(s[j]); }
      }
    } else {
      var rest := Insert(after, x, s[1..]);
      assert Ascending(key, s[1..]) by {
        forall i, j | 0 <= i < j < |s[1..]| ensures key(s[1..][i]) <= key(s[1..][j]) {
          assert s[1..][i] == s[i + 1] && s[1..][j] == s[j + 1];
        }
      }
      InsertKeepsOrder(after, key, x, s[1..]);
      InsertedMembers(after, x, s[1..]);
      forall j | 0 <= j < |rest| ensures key(s[0]) <= key(rest[j]) {
        if rest[j] != x {
          var k :| 0 <= k < |s[1..]| && s[1..][k] == rest[j];
          assert s[k + 1] == rest[j];
        }
      }
      assert Insert(after, x, s) == [s[0]] + rest;
      forall i, j | 0 <= i < j < |rest| + 1
        ensures key(([s[0]] + rest)[i]) <= key(([s[0]] + rest)[j])
      {
        if i > 0 { assert key(rest[i - 1]) <= key(rest[j - 1]); }
      }
    }
  }

  // ---- what fixes a stable sort ----

  // A comparison that agrees with an order of these elements: "not after" is total and transitive.
  ghost predicate Consistent<T>(after: (T, T) -> bool, all: seq<T>) {
    && (forall a <- all, b <- all :: !(after(a, b) && after(b, a)))
    && (forall a <- all, b <- all, c <- all :: !after(a, b) && !after(b, c) ==> !after(a, c))
  }

  predicate Tied<T>(after: (T, T) -> bool, a: T, b: T) {
    !after(a, b) && !after(b, a)
  }

  // The elements that compare equal to x, in their order.
  function Ties<T>(after: (T, T) -> bool, x: T, s: seq<T>): seq<T> {
    if s == [] then []
    else (if Tied(after, x, s[0]) then [s[0]] else []) + Ties(after, x, s[1..])
  }

  ghost predicate Ordered<T>(after: (T, T) -> bool, s: seq<T>) {
    forall i, j :: 0 <= i < j < |s| ==> !after(s[i], s[j])
  }

  lemma {:induction false} TiesOfParts<T>(after: (T, T) -> bool, x: T, a: seq<T>, b: seq<T>)
    ensures Ties(after, x, a + b) == Ties(after, x, a) + Ties(after, x, b)
  {
    hide Tied;
    if a == [] {
      assert a + b == b;
    } else {
      var first := if Tied(after, x, a[0]) then [a[0]] else [];
      assert (a + b)[1..] == a[1..] + b;
      TiesOfParts(after, x, a[1..], b);
      assert first + (Ties(after, x, a[1..]) + Ties(after, x, b)) == first + Ties(after, x, a[1..]) + Ties(after, x, b);
    }
  }

  lemma InsertedMembers<T>(after: (T, T) -> bool, x: T, s: seq<T>)
    ensures forall i :: 0 <= i < |Insert(after, x, s)| ==> Insert(after, x, s)[i] == x || Insert(after, x, s)[i] in s
  {
    var r := Insert(after, x, s);
    forall i | 0 <= i < |r| ensures r[i] == x || r[i] in s {
      assert r[i] in multiset(r);
    }
  }

  lemma NotAfterChains<T>(after: (T, T) -> bool, all: seq<T>, a: T, b: T, c: T)
    requires Consistent(after, all) && a in all && b in all && c in all && !after(a, b) && !after(b, c)
    ensures !after(a, c)
  {
  }

  lemma NotBoth<T>(after: (T, T) -> bool, all: seq<T>, a: T, b: T)
    requires Consistent(after, all) && a in all && b in all
    ensures !(after(a, b) && after(b, a))
  {
  }

  lemma {:induction false} NoTies<T>(after: (T, T) -> bool, x: T, s: seq<T>)
    requires forall i :: 0 <= i < |s| ==> !Tied(after, x, s[i])
    ensures Ties(after, x, s) == []
  {
    hide Tied;
    if s != [] { NoTies(after, x, s[1..]); }
  }

  // Inserting before the elements that come after it keeps a sequence ordered, and puts the new element behind
  // those that compare equal to it.
  lemma {:induction false} InsertIsStable<T>(after: (T, T) -> bool, x: T, s: seq<T>, y: T, all: seq<T>)
    requires Consistent(after, all) && x in all && y in all && forall i :: 0 <= i < |s| ==> s[i] in all
    requires Ordered(after, s)
    ensures Ordered(after, Insert(after, x, s))
    ensures Ties(after, y, Insert(after, x, s)) == Ties(after, y, s) + Ties(after, y, [x])
    decreases |s|, 1
  {
    hide Consistent, Tied, Ties;
    if s == [] {
      NoTiesInNothing(after, y);
    } else if after(s[0], x) {
      InsertFirst(after, x, s, y, all);
    } else {
      InsertLater(after, x, s, y, all);
    }
  }

  lemma NoTiesInNothing<T>(after: (T, T) -> bool, y: T)
    ensures Ties(after, y, []) == []
  {
  }

  lemma {:induction false} InsertLater<T>(after: (T, T) -> bool, x: T, s: seq<T>, y: T, all: seq<T>)
    requires Consistent(after, all) && x in all && y in all && forall i :: 0 <= i < |s| ==> s[i] in all
    requires Ordered(after, s) && s != [] && !after(s[0], x)
    ensures Ordered(after, Insert(after, x, s))
    ensures Ties(after, y, Insert(after, x, s)) == Ties(after, y, s) + Ties(after, y, [x])
    decreases |s|, 0
  {
    hide Consistent, Tied, Ties, Ordered;
    var first, rest := s[0], Insert(after, x, s[1..]);
    OrderedTail(after, s);
    InsertIsStable(after, x, s[1..], y, all);
    InsertedMembers(after, x, s[1..]);
    TiesOfParts(after, y, [first], rest);
    TiesOfParts(after, y, [first], s[1..]);
    assert s == [first] + s[1..];
    forall i | 0 <= i < |rest| ensures !after(first, rest[i]) {
      if rest[i] != x {
        var k :| 0 <= k < |s[1..]| && s[1..][k] == rest[i];
        OrderedAt(after, s, k + 1);
      }
    }
    OrderedFrom(after, first, rest);
  }

  lemma OrderedTail<T>(after: (T, T) -> bool, s: seq<T>)
    requires Ordered(after, s) && s != []
    ensures Ordered(after, s[1..])
  {
  }

  lemma OrderedAt<T>(after: (T, T) -> bool, s: seq<T>, k: nat)
    requires Ordered(after, s) && 0 < k < |s|
    ensures !after(s[0], s[k])
  {
  }

  lemma OrderedFrom<T>(after: (T, T) -> bool, first: T, rest: seq<T>)
    requires Ordered(after, rest) && forall i :: 0 <= i < |rest| ==> !after(first, rest[i])
    ensures Ordered(after, [first] + rest)
  {
  }

  lemma InsertFirst<T>(after: (T, T) -> bool, x: T, s: seq<T>, y: T, all: seq<T>)
    requires Consistent(after, all) && x in all && y in all && forall i :: 0 <= i < |s| ==> s[i] in all
    requires Ordered(after, s) && s != [] && after(s[0], x)
    ensures Ordered(after, [x] + s)
    ensures Ties(after, y, [x] + s) == Ties(after, y, s) + Ties(after, y, [x])
  {
    hide Consistent, Ties, Ordered;
    forall i | 0 <= i < |s| ensures after(s[i], x) {
      if i > 0 && !after(s[i], x) {
        OrderedAt(after, s, i);
        NotAfterChains(after, all, s[0], s[i], x);
      }
    }
    forall i | 0 <= i < |s| ensures !after(x, s[i]) { NotBoth(after, all, x, s[i]); }
    OrderedFrom(after, x, s);
    TiesOfParts(after, y, [x], s);
    if Tied(after, y, x) {
      forall i | 0 <= i < |s| ensures !Tied(after, y, s[i]) {
        if Tied(after, y, s[i]) { NotAfterChains(after, all, s[i], y, x); }
      }
      NoTies(after, y, s);
    } else {
      NoTies(after, y, [x]);
    }
  }

  // The sort orders the sequence, and elements that compare equal keep their order.
  lemma {:induction false} SortIsStable<T>(after: (T, T) -> bool, s: seq<T>, y: T, all: seq<T>)
    requires Consistent(after, all) && y in all && forall i :: 0 <= i < |s| ==> s[i] in all
    ensures Ordered(after, StableSort(after, s))
    ensures Ties(after, y, StableSort(after, s)) == Ties(after, y, s)
  {
    hide Consistent, Tied, Ordered, Ties;
    if s == [] {
      EmptyIsOrdered(after);
    } else {
      var n := |s| - 1;
      var before := StableSort(after, s[..n]);
      assert s == s[..n] + [s[n]];
      SortIsStable(after, s[..n], y, all);
      SortedMembers(after, s[..n]);
      InsertIsStable(after, s[n], before, y, all);
      TiesOfParts(after, y, s[..n], [s[n]]);
      TiesOfParts(after, y, before, [s[n]]);
    }
  }

  lemma EmptyIsOrdered<T>(after: (T, T) -> bool)
    ensures Ordered(after, [])
  {
  }

  lemma SortedMembers<T>(after: (T, T) -> bool, s: seq<T>)
    ensures forall i :: 0 <= i < |StableSort(after, s)| ==> StableSort(after, s)[i] in s
  {
    var r := StableSort(after, s);
    forall i | 0 <= i < |r| ensures r[i] in s {
      assert r[i] in multiset(r);
    }
  }

  lemma FirstTie<T>(after: (T, T) -> bool, s: seq<T>, x: T)
    requires s != [] && Tied(after, x, s[0])
    ensures Ties(after, x, s) == [s[0]] + Ties(after, x, s[1..])
  {
  }

  lemma {:induction false} TieIsMember<T>(after: (T, T) -> bool, x: T, s: seq<T>)
    ensures forall i :: 0 <= i < |Ties(after, x, s)| ==> Ties(after, x, s)[i] in s
  {
    if s != [] { TieIsMember(after, x, s[1..]); }
  }

  lemma OrderedFirst<T>(after: (T, T) -> bool, s: seq<T>, x: T, all: seq<T>)
    requires Consistent(after, all) && Ordered(after, s) && x in s && forall i :: 0 <= i < |s| ==> s[i] in all
    ensures !after(s[0], x)
  {
    hide Ordered, Consistent;
    var k :| 0 <= k < |s| && s[k] == x;
    if k > 0 { OrderedAt(after, s, k); } else { NotBoth(after, all, x, x); }
  }

  // Two ordered sequences with the same ties begin alike.
  lemma SameFirst<T>(after: (T, T) -> bool, s: seq<T>, t: seq<T>, all: seq<T>)
    requires Consistent(after, all) && Ordered(after, s) && Ordered(after, t) && s != []
    requires forall i :: 0 <= i < |s| ==> s[i] in all
    requires forall i :: 0 <= i < |t| ==> t[i] in all
    requires forall y <- all :: Ties(after, y, s) == Ties(after, y, t)
    ensures t != [] && s[0] == t[0]
  {
    hide Ordered, Ties, Consistent;
    NotBoth(after, all, s[0], s[0]);
    FirstTie(after, s, s[0]);
    assert Ties(after, s[0], t)[0] == s[0];
    TieIsMember(after, s[0], t);
    assert t != [];
    NotBoth(after, all, t[0], t[0]);
    FirstTie(after, t, t[0]);
    assert Ties(after, t[0], s)[0] == t[0];
    TieIsMember(after, t[0], s);
    OrderedFirst(after, t, s[0], all);
    OrderedFirst(after, s, t[0], all);
    FirstTie(after, t, s[0]);
  }

  lemma SameRest<T>(first: seq<T>, a: seq<T>, b: seq<T>)
    requires first + a == first + b
    ensures a == b
  {
    assert (first + a)[|first|..] == a && (first + b)[|first|..] == b;
  }

  lemma {:induction false} SameTiesSame<T>(after: (T, T) -> bool, s: seq<T>, t: seq<T>, all: seq<T>)
    requires Consistent(after, all) && Ordered(after, s) && Ordered(after, t)
    requires forall i :: 0 <= i < |s| ==> s[i] in all
    requires forall i :: 0 <= i < |t| ==> t[i] in all
    requires forall y <- all :: Ties(after, y, s) == Ties(after, y, t)
    ensures s == t
  {
    hide Consistent, Ordered, Tied, Ties;
    if s == [] {
      if t != [] { SameFirst(after, t, s, all); }
    } else {
      SameFirst(after, s, t, all);
      forall y <- all ensures Ties(after, y, s[1..]) == Ties(after, y, t[1..]) {
        TiesOfParts(after, y, [s[0]], s[1..]);
        TiesOfParts(after, y, [t[0]], t[1..]);
        assert s == [s[0]] + s[1..] && t == [t[0]] + t[1..];
        SameRest(Ties(after, y, [s[0]]), Ties(after, y, s[1..]), Ties(after, y, t[1..]));
      }
      OrderedTail(after, s);
      OrderedTail(after, t);
      SameTiesSame(after, s[1..], t[1..], all);
    }
  }

  // So however a stable sort works, it ends with this arrangement.
  lemma StableSortIsUnique<T>(after: (T, T) -> bool, s: seq<T>, t: seq<T>)
    requires Consistent(after, s) && Ordered(after, t)
    requires forall i :: 0 <= i < |t| ==> t[i] in s
    requires forall y <- s :: Ties(after, y, t) == Ties(after, y, s)
    ensures t == StableSort(after, s)
  {
    hide Consistent, Ordered, Tied, Ties;
    forall y <- s ensures Ordered(after, StableSort(after, s))
      && Ties(after, y, StableSort(after, s)) == Ties(after, y, s) {
      SortIsStable(after, s, y, s);
    }
    if s == [] { EmptyIsOrdered(after); } else { assert s[0] in s; }
    SortedMembers(after, s);
    SameTiesSame(after, t, StableSort(after, s), s);
  }

  // An arrangement of s in ascending order in which elements that compare equal stand as they do in s.
  ghost predicate Arranged<T>(after: (T, T) -> bool, s: seq<T>, t: seq<T>) {
    && Ordered(after, t)
    && (forall i :: 0 <= i < |t| ==> t[i] in s)
    && forall y <- s :: Ties(after, y, t) == Ties(after, y, s)
  }

  // There is just one, by whatever stable sort it is made.
  lemma OnlyArrangement<T>(after: (T, T) -> bool, s: seq<T>, t: seq<T>)
    requires Consistent(after, s)
    ensures Arranged(after, s, t) <==> t == StableSort(after, s)
  {
    if Arranged(after, s, t) {
      StableSortIsUnique(after, s, t);
    }
    SortedMembers(after, s);
    forall y <- s
      ensures Ordered(after, StableSort(after, s)) && Ties(after, y, StableSort(after, s)) == Ties(after, y, s)
    {
      SortIsStable(after, s, y, s);
    }
    if s == [] { EmptyIsOrdered(after); } else { assert s[0] in s; }
  }

  // ---- distinct values ----

  function Distinct(s: seq<string>): (r: seq<string>)
    ensures forall x :: x in r <==> x in s
    ensures forall i, j :: 0 <= i < j < |r| ==> r[i] != r[j]
  {
    if s == [] then []
    else
      var before := Distinct(s[..|s| - 1]);
      assert s == s[..|s| - 1] + [s[|s| - 1]];
      if s[|s| - 1] in before then before else before + [s[|s| - 1]]
  }

  function TextAfter(): (string, string) -> bool {
    (a: string, b: string) => Less(b, a)
  }

  lemma TextsAreOrdered(all: seq<string>)
    ensures Consistent(TextAfter(), all)
  {
    hide Less;
    forall a <- all, b <- all ensures !(TextAfter()(a, b) && TextAfter()(b, a)) { LessIsTotal(a, b); }
    forall a <- all, b <- all, c <- all | !TextAfter()(a, b) && !TextAfter()(b, c) ensures !TextAfter()(a, c) {
      LessIsTransitive(a, b, c);
    }
  }

  lemma SortedTexts(s: seq<string>)
    requires forall i, j :: 0 <= i < j < |s| ==> s[i] != s[j]
    ensures var r := StableSort(TextAfter(), s);
            forall i, j :: 0 <= i < j < |r| ==> Less(r[i], r[j])
  {
    hide Less, Consistent, StableSort;
    var r := StableSort(TextAfter(), s);
    if s != [] {
      TextsAreOrdered(s);
      assert s[0] in s;
      SortIsStable(TextAfter(), s, s[0], s);
      forall i, j | 0 <= i < j < |r| ensures Less(r[i], r[j]) {
        LessIsTotal(r[i], r[j]);
        assert !TextAfter()(r[i], r[j]);
        OnlyOnce(s, r, i, j);
      }
    }
  }

  lemma {:induction false} CountOnce<T>(s: seq<T>, x: T)
    requires forall i, j :: 0 <= i < j < |s| ==> s[i] != s[j]
    ensures multiset(s)[x] <= 1
  {
    if s != [] {
      assert s == [s[0]] + s[1..];
      CountOnce(s[1..], x);
      if s[0] == x { assert x !in s[1..]; }
    }
  }

  lemma OnlyOnce<T>(s: seq<T>, r: seq<T>, i: nat, j: nat)
    requires forall k, l :: 0 <= k < l < |s| ==> s[k] != s[l]
    requires multiset(r) == multiset(s) && i < j < |r|
    ensures r[i] != r[j]
  {
    CountOnce(s, r[i]);
    assert r == r[..i] + [r[i]] + r[i + 1..j] + [r[j]] + r[j + 1..];
  }

  predicate Increasing(s: seq<string>) {
    forall i, j :: 0 <= i < j < |s| ==> Less(s[i], s[j])
  }

  lemma SortedDistinct(s: seq<string>)
    ensures var r := StableSort(TextAfter(), Distinct(s));
            && (forall x :: x in r <==> x in s)
            && Increasing(r)
  {
    hide Less, StableSort, Distinct;
    SortedTexts(Distinct(s));
    var r := StableSort(TextAfter(), Distinct(s));
    forall x ensures x in r <==> x in s {
      assert x in r <==> x in multiset(r);
      assert x in Distinct(s) <==> x in multiset(Distinct(s));
    }
  }

  // `[...new Set(s)].sort()`
  function DistinctSorted(s: seq<string>): (r: seq<string>)
    ensures forall x :: x in r <==> x in s
    ensures Increasing(r)
  {
    SortedDistinct(s);
    StableSort(TextAfter(), Distinct(s))
  }

  // ---- text ----

  function Join(s: seq<string>, between: string): (r: string)
    ensures (exists i :: 0 <= i < |s| && s[i] != "") ==> r != ""
  {
    if s == [] then ""
    else if |s| == 1 then s[0]
    else s[0] + between + Join(s[1..], between)
  }
}
