/** Stable sorting by a total preorder: what the sort calls of both languages compute. */
module StableSort {

  type Order<!T> = (T, T) -> bool

  ghost predicate TotalPreorder<T(!new)>(le: Order<T>) {
    && (forall a, b :: le(a, b) || le(b, a))
    && (forall a, b, c :: le(a, b) && le(b, c) ==> le(a, c))
  }

  predicate Tie<T>(le: Order<T>, a: T, b: T) {
    le(a, b) && le(b, a)
  }

  predicate Sorted<T>(le: Order<T>, s: seq<T>) {
    forall i, j :: 0 <= i < j < |s| ==> le(s[i], s[j])
  }

  // After every element that may stand before it.
  function Insert<T>(le: Order<T>, s: seq<T>, x: T): (r: seq<T>)
    ensures multiset(r) == multiset(s) + multiset{x}
  {
    if s == [] || le(s[|s| - 1], x) then s + [x]
    else
      assert s == s[..|s| - 1] + [s[|s| - 1]];
      Insert(le, s[..|s| - 1], x) + [s[|s| - 1]]
  }

  function Sort<T>(le: Order<T>, s: seq<T>): (r: seq<T>)
    ensures multiset(r) == multiset(s)
  {
    if s == [] then []
    else
      assert s == s[..|s| - 1] + [s[|s| - 1]];
      Insert(le, Sort(le, s[..|s| - 1]), s[|s| - 1])
  }

  lemma SameMembers<T>(a: seq<T>, b: seq<T>)
    requires multiset(a) == multiset(b)
    ensures |a| == |b| && forall x :: x in a <==> x in b
  {
    assert |multiset(a)| == |a| && |multiset(b)| == |b|;
    assert forall x :: x in a <==> x in multiset(a);
    assert forall x :: x in b <==> x in multiset(b);
  }

  lemma BelowLast<T(!new)>(le: Order<T>, s: seq<T>, x: T, y: T)
    requires TotalPreorder(le) && Sorted(le, s) && s != [] && !le(s[|s| - 1], x)
    requires y in multiset(s[..|s| - 1]) + multiset{x}
    ensures le(y, s[|s| - 1])
  {
    assert le(x, s[|s| - 1]);
    assert y == x || y in s[..|s| - 1];
  }

  lemma {:induction false} InsertSorted<T(!new)>(le: Order<T>, s: seq<T>, x: T)
    requires TotalPreorder(le) && Sorted(le, s)
    ensures Sorted(le, Insert(le, s, x))
  {
    if s != [] && !le(s[|s| - 1], x) {
      var init, last := s[..|s| - 1], s[|s| - 1];
      InsertSorted(le, init, x);
      var r := Insert(le, init, x);
      forall y | y in r ensures le(y, last) {
        assert y in multiset(r);
        BelowLast(le, s, x, y);
      }
    }
  }

  lemma {:induction false} SortSorts<T(!new)>(le: Order<T>, s: seq<T>)
    requires TotalPreorder(le)
    ensures Sorted(le, Sort(le, s))
  {
    if s != [] {
      SortSorts(le, s[..|s| - 1]);
      InsertSorted(le, Sort(le, s[..|s| - 1]), s[|s| - 1]);
    }
  }

  // ---------------------------------------------------------------- stability

  function Filter<T>(keep: T -> bool, s: seq<T>): (r: seq<T>) {
    if s == [] then []
    else Filter(keep, s[..|s| - 1]) + if keep(s[|s| - 1]) then [s[|s| - 1]] else []
  }

  lemma {:induction false} FilterMultiset<T>(keep: T -> bool, s: seq<T>, x: T)
    ensures multiset(Filter(keep, s))[x] == if keep(x) then multiset(s)[x] else 0
  {
    if s != [] {
      FilterMultiset(keep, s[..|s| - 1], x);
      assert s == s[..|s| - 1] + [s[|s| - 1]];
    }
  }

  lemma FilterMembers<T>(keep: T -> bool, s: seq<T>)
    ensures forall x :: x in Filter(keep, s) <==> x in s && keep(x)
  {
    forall x ensures x in Filter(keep, s) <==> x in s && keep(x) {
      FilterMultiset(keep, s, x);
      assert x in s <==> x in multiset(s);
      assert x in Filter(keep, s) <==> x in multiset(Filter(keep, s));
    }
  }

  lemma SameCounts<T>(a: multiset<T>, b: multiset<T>)
    requires forall x :: a[x] == b[x]
    ensures a == b
  {
  }

  lemma FilterPermutes<T>(keep: T -> bool, s: seq<T>, t: seq<T>)
    requires multiset(s) == multiset(t)
    ensures multiset(Filter(keep, s)) == multiset(Filter(keep, t))
  {
    var a, b := multiset(Filter(keep, s)), multiset(Filter(keep, t));
    forall x ensures a[x] == b[x] {
      FilterMultiset(keep, s, x);
      FilterMultiset(keep, t, x);
    }
    SameCounts(a, b);
  }

  lemma FilterAppend<T>(keep: T -> bool, s: seq<T>, x: T)
    ensures Filter(keep, s + [x]) == Filter(keep, s) + if keep(x) then [x] else []
  {
    assert (s + [x])[..|s|] == s;
  }

  lemma NotBothTied<T(!new)>(le: Order<T>, a: T, x: T, y: T)
    requires TotalPreorder(le) && !le(y, x)
    ensures !(Tie(le, a, x) && Tie(le, a, y))
  {
    assert le(y, a) && le(a, x) ==> le(y, x);
  }

  // Inserting keeps the elements that tie with `a` in order, the new one last.
  lemma {:induction false} InsertStable<T(!new)>(le: Order<T>, s: seq<T>, x: T, a: T, keep: T -> bool)
    requires TotalPreorder(le) && forall y :: keep(y) <==> Tie(le, a, y)
    ensures Filter(keep, Insert(le, s, x)) == Filter(keep, s) + if keep(x) then [x] else []
  {
    if s == [] || le(s[|s| - 1], x) {
      FilterAppend(keep, s, x);
    } else {
      var init, last := s[..|s| - 1], s[|s| - 1];
      InsertStable(le, init, x, a, keep);
      FilterAppend(keep, Insert(le, init, x), last);
      NotBothTied(le, a, x, last);
      Commute(Filter(keep, init), keep(x), x, keep(last), last);
    }
  }

  lemma Commute<T>(s: seq<T>, b: bool, x: T, c: bool, y: T)
    requires !(b && c)
    ensures s + (if b then [x] else []) + (if c then [y] else [])
            == s + (if c then [y] else []) + (if b then [x] else [])
  {
  }

  /** Sorting keeps tied elements in their order. */
  lemma {:induction false} SortStable<T(!new)>(le: Order<T>, s: seq<T>, a: T, keep: T -> bool)
    requires TotalPreorder(le) && forall y :: keep(y) <==> Tie(le, a, y)
    ensures Filter(keep, Sort(le, s)) == Filter(keep, s)
  {
    if s != [] {
      SortStable(le, s[..|s| - 1], a, keep);
      InsertStable(le, Sort(le, s[..|s| - 1]), s[|s| - 1], a, keep);
    }
  }

  // ---------------------------------------------------------------- when order of input does not matter

  ghost predicate TiesAreEqual<T>(le: Order<T>, s: seq<T>) {
    forall i, j :: 0 <= i < |s| && 0 <= j < |s| && Tie(le, s[i], s[j]) ==> s[i] == s[j]
  }

  lemma WithoutLast<T>(s: seq<T>)
    requires s != []
    ensures multiset(s[..|s| - 1]) == multiset(s) - multiset{s[|s| - 1]}
  {
    assert s == s[..|s| - 1] + [s[|s| - 1]];
  }

  lemma {:induction false} SortedUnique<T(!new)>(le: Order<T>, s: seq<T>, t: seq<T>)
    requires TotalPreorder(le) && Sorted(le, s) && Sorted(le, t) && multiset(s) == multiset(t) && TiesAreEqual(le, s)
    ensures s == t
  {
    SameMembers(s, t);
    if s != [] {
      var n := |s| - 1;
      assert t[n] in s && s[n] in t;
      assert le(t[n], s[n]) && le(s[n], t[n]);
      assert s[n] == t[n];
      WithoutLast(s);
      WithoutLast(t);
      SortedUnique(le, s[..n], t[..n]);
    }
  }

  lemma SortIgnoresOrder<T(!new)>(le: Order<T>, s: seq<T>, t: seq<T>)
    requires TotalPreorder(le) && multiset(s) == multiset(t) && TiesAreEqual(le, s)
    ensures Sort(le, s) == Sort(le, t)
  {
    SortSorts(le, s);
    SortSorts(le, t);
    SameMembers(s, Sort(le, s));
    forall i, j | 0 <= i < |s| && 0 <= j < |s| && Tie(le, Sort(le, s)[i], Sort(le, s)[j])
      ensures Sort(le, s)[i] == Sort(le, s)[j]
    {
      assert Sort(le, s)[i] in s && Sort(le, s)[j] in s;
    }
    SortedUnique(le, Sort(le, s), Sort(le, t));
  }

  lemma {:induction false} FilterHead<T>(keep: T -> bool, x: T, rest: seq<T>)
    requires keep(x)
    ensures Filter(keep, [x] + rest) == [x] + Filter(keep, rest)
  {
    if rest == [] {
      assert [x] + rest == [x];
    } else {
      assert ([x] + rest)[..|rest|] == [x] + rest[..|rest| - 1];
      FilterHead(keep, x, rest[..|rest| - 1]);
    }
  }

  // Two different tied elements, put first in either order, come out in that order.
  lemma TieShows<T(!new)>(le: Order<T>, a: T, b: T, rest: seq<T>, rest': seq<T>)
    requires TotalPreorder(le) && Tie(le, a, b) && a != b
    ensures Sort(le, [a] + ([b] + rest)) != Sort(le, [b] + ([a] + rest'))
  {
    var keep := y => Tie(le, a, y);
    SortStable(le, [a] + ([b] + rest), a, keep);
    SortStable(le, [b] + ([a] + rest'), a, keep);
    assert keep(a) && keep(b);
    FilterHead(keep, a, [b] + rest);
    FilterHead(keep, b, [a] + rest');
    assert Filter(keep, [a] + ([b] + rest))[0] != Filter(keep, [b] + ([a] + rest'))[0];
  }

  lemma PullTwo<T>(s: seq<T>, i: nat, j: nat) returns (rest: seq<T>)
    requires i < j < |s|
    ensures multiset([s[i]] + ([s[j]] + rest)) == multiset(s) == multiset([s[j]] + ([s[i]] + rest))
  {
    rest := s[..i] + s[i + 1..j] + s[j + 1..];
    assert s == s[..i] + [s[i]] + s[i + 1..j] + [s[j]] + s[j + 1..];
  }

  predicate Permutation<T(==)>(t: seq<T>, s: seq<T>) {
    multiset(t) == multiset(s)
  }

  // Filtering and sorting give the same result for every order of the input.
  ghost predicate IgnoresOrder<T(!new)>(le: Order<T>, keep: T -> bool, s: seq<T>) {
    forall t :: Permutation(t, s) ==> Sort(le, Filter(keep, t)) == Sort(le, Filter(keep, s))
  }

  /** The filtered and sorted result ignores the order of the input exactly when no two different elements
      that pass are tied. */
  lemma OrderMattersOnlyForTies<T(!new)>(le: Order<T>, keep: T -> bool, s: seq<T>)
    requires TotalPreorder(le)
    ensures IgnoresOrder(le, keep, s) <==> TiesAreEqual(le, Filter(keep, s))
  {
    if TiesAreEqual(le, Filter(keep, s)) {
      forall t | Permutation(t, s) ensures Sort(le, Filter(keep, t)) == Sort(le, Filter(keep, s)) {
        FilterPermutes(keep, s, t);
        SortIgnoresOrder(le, Filter(keep, s), Filter(keep, t));
      }
    } else {
      var t, u := TieDistinguishes(le, keep, s);
      assert Permutation(t, s) && Permutation(u, s);
    }
  }

  lemma TieDistinguishes<T(!new)>(le: Order<T>, keep: T -> bool, s: seq<T>) returns (t: seq<T>, u: seq<T>)
    requires TotalPreorder(le) && !TiesAreEqual(le, Filter(keep, s))
    ensures multiset(t) == multiset(s) == multiset(u)
    ensures Sort(le, Filter(keep, t)) != Sort(le, Filter(keep, u))
  {
    var kept := Filter(keep, s);
    var k, l :| 0 <= k < |kept| && 0 <= l < |kept| && Tie(le, kept[k], kept[l]) && kept[k] != kept[l];
    FilterMembers(keep, s);
    assert kept[k] in s && kept[l] in s;
    var i :| 0 <= i < |s| && s[i] == kept[k];
    var j :| 0 <= j < |s| && s[j] == kept[l];
    var first, second := if i < j then i else j, if i < j then j else i;
    var a, b := s[first], s[second];
    var rest := PullTwo(s, first, second);
    t, u := [a] + ([b] + rest), [b] + ([a] + rest);
    FilterHead(keep, a, [b] + rest);
    FilterHead(keep, b, rest);
    FilterHead(keep, b, [a] + rest);
    FilterHead(keep, a, rest);
    TieShows(le, a, b, Filter(keep, rest), Filter(keep, rest));
  }
}
