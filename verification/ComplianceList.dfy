/** The list of consents of the compliance portal: filter, order and pages (services/audit/internal/domain/compliance_list.go). */
module ComplianceList {
  import opened Common
  import opened Consents
  import opened Lists
  import opened Retry
  import Text

  const MAX_PAGE := 0x7FFF_FFFF
  const MAX_PAGE_SIZE := 50

  /** `found` is the text search, by id, document or name. */
  datatype Query = Query(
    status: Option<ConsentStatus>,
    grantedFrom: Option<Instant>,
    grantedBefore: Option<Instant>,
    entity: string,
    found: Consent -> bool,
    page: int,
    pageSize: int)
  {
    predicate Valid() {
      1 <= page <= MAX_PAGE && 1 <= pageSize <= MAX_PAGE_SIZE
    }

    predicate Matches(v: ConsentView) {
      && (status.Some? ==> v.status == status.value)
      && (grantedFrom.Some? ==> grantedFrom.value <= v.consent.grantedAt)
      && (grantedBefore.Some? ==> v.consent.grantedAt < grantedBefore.value)
      && (entity != "" ==> v.consent.partnerId == entity)
      && found(v.consent)
    }

    /** In 64 bits. */
    function Offset(): int {
      Wrap((page - 1) * pageSize)
    }
  }

  /** Most recently granted first; the id breaks a tie. */
  predicate ListedBefore(a: ConsentView, b: ConsentView) {
    if a.consent.grantedAt != b.consent.grantedAt then b.consent.grantedAt < a.consent.grantedAt
    else Text.Less(a.consent.id, b.consent.id)
  }

  lemma ListedBeforeIsStrictWeak()
    ensures StrictWeak(ListedBefore)
  {
    forall a, b | ListedBefore(a, b)
      ensures !ListedBefore(b, a)
    {
      Text.LessIsTotal(a.consent.id, b.consent.id);
    }
    forall a, b, c | !ListedBefore(b, a) && !ListedBefore(c, b)
      ensures !ListedBefore(c, a)
    {
      NotListedBeforeIsTransitive(a, b, c);
    }
  }

  lemma NotListedBeforeIsTransitive(a: ConsentView, b: ConsentView, c: ConsentView)
    requires !ListedBefore(b, a) && !ListedBefore(c, b)
    ensures !ListedBefore(c, a)
  {
    Text.LessIsTotal(a.consent.id, b.consent.id);
    Text.LessIsTotal(b.consent.id, c.consent.id);
    Text.LessIsTotal(a.consent.id, c.consent.id);
    if Text.Less(a.consent.id, b.consent.id) && Text.Less(b.consent.id, c.consent.id) {
      Text.LessIsTransitive(a.consent.id, b.consent.id, c.consent.id);
    }
  }

  function Listed(views: seq<ConsentView>, q: Query): seq<ConsentView> {
    Sort(ListedBefore, Filter((v: ConsentView) => q.Matches(v), views))
  }

  method FilterForCompliance(views: seq<ConsentView>, q: Query) returns (out: seq<ConsentView>)
    ensures out == Listed(views, q)
  {
    var matches := (v: ConsentView) => q.Matches(v);
    out := [];
    for i := 0 to |views|
      invariant out == Filter(matches, views[..i])
    {
      FilterSnoc(matches, views, i);
      if q.Matches(views[i]) {
        out := out + [views[i]];
      }
    }
    assert views[..|views|] == views;
    out := Sort(ListedBefore, out);
  }

  /** The status asked for, granted in the interval (its end excluded), of the entity asked for, and found by the search. */
  predicate Wanted(q: Query, v: ConsentView) {
    && (q.status == None || q.status == Some(v.status))
    && (q.grantedFrom == None || v.consent.grantedAt >= q.grantedFrom.value)
    && (q.grantedBefore == None || !(v.consent.grantedAt >= q.grantedBefore.value))
    && (q.entity == "" || q.entity == v.consent.partnerId)
    && q.found(v.consent)
  }

  /** The list holds each wanted view as often as it came, and nothing else: the most recently granted first, those of one instant by id. */
  lemma ListedIsTheMatchingViews(views: seq<ConsentView>, q: Query, v: ConsentView)
    ensures multiset(Listed(views, q))[v] == if Wanted(q, v) then multiset(views)[v] else 0
    ensures forall i, j :: 0 <= i < j < |Listed(views, q)| ==>
              var a, b := Listed(views, q)[i].consent, Listed(views, q)[j].consent;
              a.grantedAt > b.grantedAt || (a.grantedAt == b.grantedAt && !Text.Less(b.id, a.id))
  {
    var matches := (v: ConsentView) => q.Matches(v);
    SortIsPermutation(ListedBefore, Filter(matches, views));
    FilterCount(matches, views, v);
    ListedBeforeIsStrictWeak();
    SortIsSorted(ListedBefore, Filter(matches, views));
  }

  /** With distinct consents, the list is the same whatever order the views came in. */
  lemma ListForgetsOrder(views: seq<ConsentView>, views': seq<ConsentView>, q: Query)
    requires multiset(views) == multiset(views')
    requires forall i, j :: 0 <= i < j < |views| ==> views[i].consent.id != views[j].consent.id
    ensures Listed(views, q) == Listed(views', q)
  {
    var matches := (v: ConsentView) => q.Matches(v);
    var a, b := Filter(matches, views), Filter(matches, views');
    forall v
      ensures multiset(a)[v] == multiset(b)[v]
    {
      FilterCount(matches, views, v);
      FilterCount(matches, views', v);
    }
    assert multiset(a) == multiset(b);
    ListedBeforeIsStrictWeak();
    forall x, y | x in a && y in a && x != y
      ensures ListedBefore(x, y) || ListedBefore(y, x)
    {
      FilterMember(matches, views, x);
      FilterMember(matches, views, y);
      Text.LessIsTotal(x.consent.id, y.consent.id);
    }
    SortForgetsOrder(ListedBefore, a, b);
  }

  // ----- pages

  function Paginate<T>(list: seq<T>, q: Query): seq<T>
    requires q.Valid()
  {
    OffsetFits(q);
    var start := q.Offset();
    if |list| <= start then []
    else
      var end := Wrap(start + q.pageSize);
      list[start..if |list| < end then |list| else end]
  }

  function TotalPages(total: int, pageSize: int): int {
    if total <= 0 || pageSize <= 0 then 1 else (total + pageSize - 1) / pageSize
  }

  /** No valid query overflows its offset, nor the end of its page. */
  lemma OffsetFits(q: Query)
    requires q.Valid()
    ensures q.Offset() == (q.page - 1) * q.pageSize && 0 <= q.Offset() <= 0x7FFF_FFFE * 50
    ensures Wrap(q.Offset() + q.pageSize) == q.page * q.pageSize
  {
    Product(q.page - 1, q.pageSize, MAX_PAGE - 1, MAX_PAGE_SIZE);
    assert (q.page - 1) * q.pageSize + q.pageSize == q.page * q.pageSize;
  }

  lemma Product(a: int, b: int, c: int, d: int)
    requires 0 <= a <= c && 0 <= b <= d
    ensures 0 <= a * b <= c * d
  {
  }

  /** The pages 1..k, one after the other. */
  function FirstPages<T>(list: seq<T>, q: Query, k: nat): seq<T>
    requires q.Valid() && k <= MAX_PAGE
  {
    if k == 0 then [] else FirstPages(list, q, k - 1) + Paginate(list, q.(page := k))
  }

  /** A page is the slice between its offset and the next one, within the list. */
  lemma PageIsSlice<T>(list: seq<T>, q: Query)
    requires q.Valid()
    ensures 0 <= (q.page - 1) * q.pageSize <= q.page * q.pageSize
    ensures Paginate(list, q) == list[Min((q.page - 1) * q.pageSize, |list|)..Min(q.page * q.pageSize, |list|)]
  {
    OffsetFits(q);
  }

  lemma {:induction false} FirstPagesAreAPrefix<T>(list: seq<T>, q: Query, k: nat)
    requires q.Valid() && k <= MAX_PAGE
    ensures 0 <= k * q.pageSize
    ensures FirstPages(list, q, k) == list[..Min(k * q.pageSize, |list|)]
  {
    if k > 0 {
      FirstPagesAreAPrefix(list, q, k - 1);
      PageIsSlice(list, q.(page := k));
      SlicesJoin(list, Min((k - 1) * q.pageSize, |list|), Min(k * q.pageSize, |list|));
    }
  }

  lemma SlicesJoin<T>(list: seq<T>, i: int, j: int)
    requires 0 <= i <= j <= |list|
    ensures list[..i] + list[i..j] == list[..j]
  {
  }

  /** The number of pages is the least that covers the list. */
  lemma TotalPagesCovers(total: int, size: int)
    requires 0 < total && 0 < size
    ensures var t := TotalPages(total, size); 1 <= t && (t - 1) * size < total <= t * size
  {
  }

  lemma Scale(a: int, b: int, size: int)
    requires 0 < size && a <= b
    ensures a * size <= b * size
  {
  }

  /**
   For any list and query: the pages that can be asked for, put together, are the
   list exactly when TotalPages is a page that can be asked for, and the start of
   it otherwise. Every page before the last is full, the last is not empty unless
   the list is, and any page after it is empty.
   */
  lemma PagesAreTheList<T>(list: seq<T>, q: Query)
    requires q.Valid()
    ensures var t := TotalPages(|list|, q.pageSize);
            && 1 <= t
            && FirstPages(list, q, Min(t, MAX_PAGE)) <= list
            && (FirstPages(list, q, Min(t, MAX_PAGE)) == list <==> t <= MAX_PAGE)
            && (forall k :: 1 <= k < t && k <= MAX_PAGE ==> |Paginate(list, q.(page := k))| == q.pageSize)
            && (list != [] && t <= MAX_PAGE ==> Paginate(list, q.(page := t)) != [])
            && (forall k :: t < k <= MAX_PAGE ==> Paginate(list, q.(page := k)) == [])
  {
    var t := TotalPages(|list|, q.pageSize);
    if list != [] {
      TotalPagesCovers(|list|, q.pageSize);
    }
    FirstPagesAreAPrefix(list, q, Min(t, MAX_PAGE));
    if MAX_PAGE < t {
      Scale(MAX_PAGE, t - 1, q.pageSize);
    }
    forall k | 1 <= k <= MAX_PAGE
      ensures k < t ==> |Paginate(list, q.(page := k))| == q.pageSize
      ensures k == t && list != [] ==> Paginate(list, q.(page := k)) != []
      ensures t < k ==> Paginate(list, q.(page := k)) == []
    {
      PageLength(list, q.(page := k), t);
    }
  }

  /** How long page k of t is. */
  lemma PageLength<T>(list: seq<T>, q: Query, t: int)
    requires q.Valid() && |list| <= t * q.pageSize && (list != [] ==> (t - 1) * q.pageSize < |list|)
    ensures q.page < t && list != [] ==> |Paginate(list, q)| == q.pageSize
    ensures q.page == t && list != [] ==> |Paginate(list, q)| > 0
    ensures t < q.page ==> |Paginate(list, q)| == 0
  {
    OffsetFits(q);
    if q.page < t {
      Scale(q.page, t - 1, q.pageSize);
    } else if t < q.page {
      Scale(t, q.page - 1, q.pageSize);
    }
  }
}
