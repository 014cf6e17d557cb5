/** Filtering and stable sorting of lists. */
module Lists {

  function Filter<T>(keep: T -> bool, s: seq<T>): seq<T> {
    if s == [] then []
    else Filter(keep, s[..|s| - 1]) + (if keep(s[|s| - 1]) then [s[|s| - 1]] else [])
  }

  lemma FilterSnoc<T>(keep: T -> bool, s: seq<T>, i: nat)
    requires i < |s|
    ensures Filter(keep, s[..i + 1]) == Filter(keep, s[..i]) + (if keep(s[i]) then [s[i]] else [])
  {
    assert s[..i + 1][..i] == s[..i];
  }

  lemma {:induction false} FilterMember<T>(keep: T -> bool, s: seq<T>, x: T)
    ensures x in Filter(keep, s) <==> x in s && keep(x)
  {
    if s != [] {
      FilterMember(keep, s[..|s| - 1], x);
      assert s == s[..|s| - 1] + [s[|s| - 1]];
    }
  }

  lemma {:induction false} FilterCount<T>(keep: T -> bool, s: seq<T>, x: T)
    ensures multiset(Filter(keep, s))[x] == if keep(x) then multiset(s)[x] else 0
  {
    if s != [] {
      FilterCount(keep, s[..|s| - 1], x);
      assert s == s[..|s| - 1] + [s[|s| - 1]];
    }
  }

  /** How many elements pass a test does not depend on their order. */
  lemma FilterLengthPermutes<T(!new)>(keep: T -> bool, s: seq<T>, t: seq<T>)
    requires multiset(s) == multiset(t)
    ensures |Filter(keep, s)| == |Filter(keep, t)|
  {
    var a, b := Filter(keep, s), Filter(keep, t);
    forall x: T
      ensures multiset(a)[x] == multiset(b)[x]
    {
      FilterCount(keep, s, x);
      FilterCount(keep, t, x);
    }
    assert multiset(a) == multiset(b);
    assert |a| == |multiset(a)| && |b| == |multiset(b)|;
  }

  lemma MemberSplits<T>(s: seq<T>, x: T) returns (a: seq<T>, b: seq<T>)
    requires x in s
    ensures s == a + [x] + b && multiset(a + b) == multiset(s) - multiset{x}
  {
    var k :| 0 <= k < |s| && s[k] == x;
    a, b := s[..k], s[k + 1..];
    assert s == a + [x] + b;
  }

  /** `less` is a strict order whose incomparable elements form classes. */
  ghost predicate StrictWeak<T(!new)>(less: (T, T) -> bool) {
    && (forall a, b :: less(a, b) ==> !less(b, a))
    && (forall a, b, c :: !less(b, a) && !less(c, b) ==> !less(c, a))
  }

  ghost predicate SortedBy<T>(less: (T, T) -> bool, s: seq<T>) {
    forall i, j :: 0 <= i < j < |s| ==> !less(s[j], s[i])
  }

  lemma {:induction false} FilterKeepsOrder<T>(less: (T, T) -> bool, keep: T -> bool, s: seq<T>)
    requires SortedBy(less, s)
    ensures SortedBy(less, Filter(keep, s))
  {
    if s != [] {
      var rest := s[..|s| - 1];
      FilterKeepsOrder(less, keep, rest);
      var kept := Filter(keep, rest);
      forall i | 0 <= i < |kept|
        ensures !less(s[|s| - 1], kept[i])
      {
        FilterMember(keep, rest, kept[i]);
      }
    }
  }

  /** Puts `x` before the first element that is not less than it. */
  function Insert<T>(less: (T, T) -> bool, x: T, s: seq<T>): seq<T> {
    if s == [] || !less(s[0], x) then [x] + s else [s[0]] + Insert(less, x, s[1..])
  }

  /** The stable sort. */
  function Sort<T>(less: (T, T) -> bool, s: seq<T>): seq<T> {
    if s == [] then [] else Insert(less, s[0], Sort(less, s[1..]))
  }

  lemma {:induction false} InsertMultiset<T>(less: (T, T) -> bool, x: T, s: seq<T>)
    ensures multiset(Insert(less, x, s)) == multiset{x} + multiset(s)
  {
    if s != [] && less(s[0], x) {
      InsertMultiset(less, x, s[1..]);
      assert s == [s[0]] + s[1..];
    }
  }

  /** Sorting loses and repeats nothing. */
  lemma {:induction false} SortIsPermutation<T>(less: (T, T) -> bool, s: seq<T>)
    ensures multiset(Sort(less, s)) == multiset(s)
  {
    if s != [] {
      SortIsPermutation(less, s[1..]);
      InsertMultiset(less, s[0], Sort(less, s[1..]));
      assert s == [s[0]] + s[1..];
    }
  }

  lemma {:induction false} InsertKeepsOrder<T(!new)>(less: (T, T) -> bool, x: T, s: seq<T>)
    requires StrictWeak(less) && SortedBy(less, s)
    ensures SortedBy(less, Insert(less, x, s))
  {
    if s != [] && less(s[0], x) {
      InsertKeepsOrder(less, x, s[1..]);
      InsertMultiset(less, x, s[1..]);
      var rest := Insert(less, x, s[1..]);
      forall j | 0 <= j < |rest|
        ensures !less(rest[j], s[0])
      {
        assert rest[j] in multiset(rest);
      }
    }
  }

  lemma {:induction false} SortIsSorted<T(!new)>(less: (T, T) -> bool, s: seq<T>)
    requires StrictWeak(less)
    ensures SortedBy(less, Sort(less, s))
  {
    if s != [] {
      SortIsSorted(less, s[1..]);
      InsertKeepsOrder(less, s[0], Sort(less, s[1..]));
    }
  }

  /** `less` tells any two different elements of the list apart. */
  ghost predicate Connected<T>(less: (T, T) -> bool, s: seq<T>) {
    forall x, y :: x in s && y in s && x != y ==> less(x, y) || less(y, x)
  }

  /** Two sorted arrangements of elements that `less` tells apart are the same list. */
  lemma {:induction false} SortedIsUnique<T>(less: (T, T) -> bool, s: seq<T>, t: seq<T>)
    requires SortedBy(less, s) && SortedBy(less, t) && multiset(s) == multiset(t) && Connected(less, s)
    ensures s == t
    decreases |s|
  {
    SameLength(s, t);
    if s != [] {
      HeadsAgree(less, s, t);
      TailIsLike(less, s);
      TailIsLike(less, t);
      TailMultiset(s);
      TailMultiset(t);
      SortedIsUnique(less, s[1..], t[1..]);
      SameHeadAndTail(s, t);
    }
  }

  lemma SameLength<T>(s: seq<T>, t: seq<T>)
    requires multiset(s) == multiset(t)
    ensures |s| == |t|
  {
    assert |s| == |multiset(s)| && |t| == |multiset(t)|;
  }

  lemma SameHeadAndTail<T>(s: seq<T>, t: seq<T>)
    requires s != [] && t != [] && s[0] == t[0] && s[1..] == t[1..]
    ensures s == t
  {
    assert s == [s[0]] + s[1..] && t == [t[0]] + t[1..];
  }

  lemma TailIsLike<T>(less: (T, T) -> bool, s: seq<T>)
    requires s != [] && SortedBy(less, s)
    ensures SortedBy(less, s[1..])
    ensures Connected(less, s) ==> Connected(less, s[1..])
  {
  }

  lemma TailMultiset<T>(s: seq<T>)
    requires s != []
    ensures multiset(s[1..]) == multiset(s) - multiset{s[0]}
  {
    assert s == [s[0]] + s[1..];
  }

  lemma HeadsAgree<T>(less: (T, T) -> bool, s: seq<T>, t: seq<T>)
    requires SortedBy(less, s) && SortedBy(less, t) && multiset(s) == multiset(t) && s != [] && t != [] && Connected(less, s)
    ensures s[0] == t[0]
  {
    assert t[0] in multiset(s) && s[0] in multiset(t);
    HeadIsLeast(less, s, t[0]);
    HeadIsLeast(less, t, s[0]);
  }

  lemma HeadIsLeast<T>(less: (T, T) -> bool, s: seq<T>, x: T)
    requires SortedBy(less, s) && x in s
    ensures x == s[0] || !less(x, s[0])
  {
  }

  /** The result does not depend on the order the elements came in. */
  lemma SortForgetsOrder<T(!new)>(less: (T, T) -> bool, s: seq<T>, t: seq<T>)
    requires StrictWeak(less) && multiset(s) == multiset(t) && Connected(less, s)
    ensures Sort(less, s) == Sort(less, t)
  {
    SortIsPermutation(less, s);
    SortIsPermutation(less, t);
    SortIsSorted(less, s);
    SortIsSorted(less, t);
    forall x | x in Sort(less, s)
      ensures x in s
    {
      assert x in multiset(Sort(less, s));
    }
    SortedIsUnique(less, Sort(less, s), Sort(less, t));
  }

  lemma SortMembers<T>(less: (T, T) -> bool, s: seq<T>)
    ensures forall x :: x in Sort(less, s) <==> x in s
  {
    SortIsPermutation(less, s);
    forall x
      ensures x in Sort(less, s) <==> x in s
    {
      assert x in multiset(Sort(less, s)) <==> x in multiset(s);
    }
  }

  // ----- stability

  lemma {:induction false} FilterConcat<T>(keep: T -> bool, s: seq<T>, t: seq<T>)
    ensures Filter(keep, s + t) == Filter(keep, s) + Filter(keep, t)
    decreases |t|
  {
    if t == [] {
      assert s + t == s;
    } else {
      var rest, n := t[..|t| - 1], |s + t| - 1;
      FilterConcat(keep, s, rest);
      assert (s + t)[..n] == s + rest && (s + t)[n] == t[|t| - 1];
    }
  }

  /** The elements that `less` does not tell from `x`. */
  function Like<T>(less: (T, T) -> bool, x: T): T -> bool {
    (e: T) => !less(e, x) && !less(x, e)
  }

  lemma {:induction false} InsertIsStable<T(!new)>(less: (T, T) -> bool, y: T, s: seq<T>, x: T)
    requires StrictWeak(less)
    ensures Filter(Like(less, x), Insert(less, y, s)) == Filter(Like(less, x), [y]) + Filter(Like(less, x), s)
  {
    var like := Like(less, x);
    FilterConcat(like, [y], s);
    if s != [] && less(s[0], y) {
      var rest := s[1..];
      InsertIsStable(less, y, rest, x);
      FilterConcat(like, [s[0]], Insert(less, y, rest));
      FilterConcat(like, [s[0]], rest);
      assert s == [s[0]] + rest;
      assert !(like(s[0]) && like(y));
      FilterOne(like, s[0]);
      FilterOne(like, y);
      Exchange(Filter(like, [s[0]]), Filter(like, [y]), Filter(like, rest));
    }
  }

  lemma Exchange<T>(a: seq<T>, b: seq<T>, c: seq<T>)
    requires a == [] || b == []
    ensures a + (b + c) == b + (a + c)
  {
  }

  lemma FilterOne<T>(keep: T -> bool, a: T)
    ensures Filter(keep, [a]) == if keep(a) then [a] else []
  {
    assert [a][..0] == [] && Filter(keep, []) == [];
  }

  /** Elements that `less` does not tell apart keep the order they came in. */
  lemma {:induction false} SortIsStable<T(!new)>(less: (T, T) -> bool, s: seq<T>, x: T)
    requires StrictWeak(less)
    ensures Filter(Like(less, x), Sort(less, s)) == Filter(Like(less, x), s)
  {
    if s != [] {
      SortIsStable(less, s[1..], x);
      InsertIsStable(less, s[0], Sort(less, s[1..]), x);
      FilterConcat(Like(less, x), [s[0]], s[1..]);
      assert s == [s[0]] + s[1..];
    }
  }
}
