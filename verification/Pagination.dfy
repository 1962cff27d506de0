/** Paging through a limit/offset search until it can be shown to be exhausted. */
module Pagination {
  datatype Response<T> = Page(records: seq<T>) | Raises

  datatype Outcome<T> = Returned(records: seq<T>) | Repeated(offset: nat) | Ceiling | FetchRaised

  /** The search operation: what it answers to its n-th call with a limit and an offset.
      Records are identified with their canonical JSON text. */
  type Fetch<T> = (nat, nat, nat) -> Response<T>

  function PageAt<T>(fetch: Fetch<T>, limit: nat, k: nat): Response<T> {
    fetch(k, limit, k * limit)
  }

  ghost predicate AllPages<T>(fetch: Fetch<T>, limit: nat, n: nat) {
    forall k :: 0 <= k < n ==> PageAt(fetch, limit, k).Page?
  }

  /** The first n pages, in page order. */
  ghost function Joined<T>(fetch: Fetch<T>, limit: nat, n: nat): seq<T>
    requires AllPages(fetch, limit, n)
  {
    if n == 0 then [] else Joined(fetch, limit, n - 1) + PageAt(fetch, limit, n - 1).records
  }

  ghost predicate SeenBefore<T>(fetch: Fetch<T>, limit: nat, k: nat) {
    exists j :: 0 <= j < k && PageAt(fetch, limit, j) == PageAt(fetch, limit, k)
  }

  /** The walk from page k on, the pages before it having been read. */
  ghost function Walk<T>(fetch: Fetch<T>, limit: nat, maxPages: nat, k: nat): Outcome<T>
    requires AllPages(fetch, limit, k)
    decreases maxPages - k
  {
    if k >= maxPages then Ceiling
    else
      match PageAt(fetch, limit, k)
      case Raises => FetchRaised
      case Page(p) =>
        if p == [] then Returned(Joined(fetch, limit, k))
        else if SeenBefore(fetch, limit, k) then Repeated(k * limit)
        else if |p| < limit then Returned(Joined(fetch, limit, k + 1))
        else Walk(fetch, limit, maxPages, k + 1)
  }

  ghost function Paginated<T>(fetch: Fetch<T>, limit: nat, maxPages: nat): Outcome<T> {
    match PageAt(fetch, limit, 0)
    case Raises => FetchRaised
    case Page(p) => if |p| != limit then Returned(p) else Walk(fetch, limit, maxPages, 1)
  }

  /** `paginate_search`; `fetches` counts the calls made. */
  method PaginateSearch<T(==)>(fetch: Fetch<T>, limit: nat, maxPages: nat) returns (r: Outcome<T>, fetches: nat)
    ensures r == Paginated(fetch, limit, maxPages)
    ensures 1 <= fetches && (fetches <= maxPages || fetches == 1)
    ensures r.Returned? ==>
              AllPages(fetch, limit, fetches) && r.records == Joined(fetch, limit, fetches)
  {
    var first := fetch(0, limit, 0);
    fetches := 1;
    assert first == PageAt(fetch, limit, 0);
    if first.Raises? { return FetchRaised, fetches; }
    assert Joined(fetch, limit, 1) == Joined(fetch, limit, 0) + first.records == first.records;
    if |first.records| > limit { return Returned(first.records), fetches; }
    if |first.records| < limit { return Returned(first.records), fetches; }
    var all := first.records;
    var seen := {first.records};
    var index := 1;
    while index < maxPages
      invariant 1 <= index && (index <= maxPages || index == 1) && fetches == index
      invariant AllPages(fetch, limit, index)
      invariant all == Joined(fetch, limit, index)
      invariant forall p :: p in seen <==> exists j :: 0 <= j < index && PageAt(fetch, limit, j) == Page(p)
      invariant Paginated(fetch, limit, maxPages) == Walk(fetch, limit, maxPages, index)
    {
      var offset := index * limit;
      var page := fetch(index, limit, offset);
      assert page == PageAt(fetch, limit, index);
      fetches := fetches + 1;
      if page.Raises? { return FetchRaised, fetches; }
      if page.records == [] {
        assert Joined(fetch, limit, index + 1) == all + [] == all;
        return Returned(all), fetches;
      }
      if page.records in seen { return Repeated(offset), fetches; }
      seen := seen + {page.records};
      all := all + page.records;
      if |page.records| < limit { return Returned(all), fetches; }
      index := index + 1;
    }
    r := Ceiling;
  }

  // ---- an honest server -----------------------------------------------------------

  function Min(a: nat, b: nat): nat { if a < b then a else b }

  function Max(a: nat, b: nat): nat { if a < b then b else a }

  function Slice<T>(data: seq<T>, offset: nat, limit: nat): seq<T> {
    data[Min(offset, |data|)..Min(offset + limit, |data|)]
  }

  ghost predicate Honest<T>(fetch: Fetch<T>, data: seq<T>) {
    forall n, l, o :: fetch(n, l, o) == Page(Slice(data, o, l))
  }

  ghost predicate NoFullPageRepeats<T>(data: seq<T>, limit: nat) {
    forall i, j :: 0 <= i < j && (j + 1) * limit <= |data| ==> Slice(data, i * limit, limit) != Slice(data, j * limit, limit)
  }

  lemma FullPage<T>(data: seq<T>, limit: nat, k: nat)
    requires (k + 1) * limit <= |data|
    ensures k * limit + limit == (k + 1) * limit
    ensures Slice(data, k * limit, limit) == data[k * limit..k * limit + limit]
  {
  }

  /** While pages are full, the walk has read a prefix of the collection. */
  lemma {:induction false} JoinedIsPrefix<T>(fetch: Fetch<T>, data: seq<T>, limit: nat, k: nat)
    requires Honest(fetch, data) && k * limit <= |data|
    ensures AllPages(fetch, limit, k)
    ensures Joined(fetch, limit, k) == data[..k * limit]
  {
    if k > 0 {
      assert (k - 1) * limit + limit == k * limit;
      JoinedIsPrefix(fetch, data, limit, k - 1);
      FullPage(data, limit, k - 1);
    }
  }

  lemma PageProducts(limit: nat, i: nat, j: nat)
    requires i <= j
    ensures i * limit <= j * limit
  {
  }

  ghost predicate DistinctPages<T>(data: seq<T>, limit: nat, k: nat) {
    forall i, j :: 0 <= i < j < k ==> Slice(data, i * limit, limit) != Slice(data, j * limit, limit)
  }

  lemma PagesOf<T>(fetch: Fetch<T>, data: seq<T>, limit: nat)
    requires Honest(fetch, data)
    ensures forall k: nat :: PageAt(fetch, limit, k) == Page(Slice(data, k * limit, limit))
  {
  }

  /** The page after the last full one ends the walk with the whole collection. */
  lemma LastPage<T>(fetch: Fetch<T>, data: seq<T>, limit: nat, maxPages: nat, k: nat)
    requires Honest(fetch, data) && 1 <= k < maxPages && AllPages(fetch, limit, k)
    requires k * limit <= |data| < k * limit + limit
    ensures Walk(fetch, limit, maxPages, k) == Returned(data)
  {
    PagesOf(fetch, data, limit);
    JoinedIsPrefix(fetch, data, limit, k);
    var p := Slice(data, k * limit, limit);
    assert p == data[k * limit..];
    if p == [] {
      assert data[..k * limit] == data;
    } else {
      if SeenBefore(fetch, limit, k) {
        var j :| 0 <= j < k && PageAt(fetch, limit, j) == PageAt(fetch, limit, k);
        PageProducts(limit, j + 1, k);
        FullPage(data, limit, j);
        assert false;
      }
      assert Joined(fetch, limit, k + 1) == data[..k * limit] + p == data;
    }
  }

  lemma AllFullPagesRead<T>(data: seq<T>, limit: nat, k: nat)
    requires |data| < (k + 1) * limit && DistinctPages(data, limit, k)
    ensures NoFullPageRepeats(data, limit)
  {
    forall i, j | 0 <= i < j && (j + 1) * limit <= |data|
      ensures Slice(data, i * limit, limit) != Slice(data, j * limit, limit)
    {
      if j >= k { PageProducts(limit, k + 1, j + 1); }
    }
  }

  /** One full page: either it repeats, and so does a full page of the data, or it is new. */
  lemma FullStep<T>(fetch: Fetch<T>, data: seq<T>, limit: nat, k: nat)
    requires Honest(fetch, data) && DistinctPages(data, limit, k) && (k + 1) * limit <= |data|
    ensures if SeenBefore(fetch, limit, k) then !NoFullPageRepeats(data, limit)
            else DistinctPages(data, limit, k + 1)
  {
    PagesOf(fetch, data, limit);
    if SeenBefore(fetch, limit, k) {
      var j :| 0 <= j < k && PageAt(fetch, limit, j) == PageAt(fetch, limit, k);
      assert Slice(data, j * limit, limit) == Slice(data, k * limit, limit);
    } else {
      forall i | 0 <= i < k ensures Slice(data, i * limit, limit) != Slice(data, k * limit, limit) {
        assert PageAt(fetch, limit, i) == Page(Slice(data, i * limit, limit));
      }
    }
  }

  lemma {:induction false} HonestWalk<T>(fetch: Fetch<T>, data: seq<T>, limit: nat, maxPages: nat, k: nat)
    requires Honest(fetch, data) && limit > 0 && 1 <= k <= Max(1, maxPages) && k * limit <= |data|
    requires AllPages(fetch, limit, k) && DistinctPages(data, limit, k)
    ensures var r := Walk(fetch, limit, maxPages, k);
            if |data| < Max(1, maxPages) * limit && NoFullPageRepeats(data, limit)
            then r == Returned(data) else r.Repeated? || r.Ceiling?
    decreases maxPages - k
  {
    assert (k + 1) * limit == k * limit + limit;
    if k >= maxPages {
      assert Max(1, maxPages) == k;
    } else if (k + 1) * limit <= |data| {
      PagesOf(fetch, data, limit);
      FullPage(data, limit, k);
      FullStep(fetch, data, limit, k);
      if !SeenBefore(fetch, limit, k) {
        HonestWalk(fetch, data, limit, maxPages, k + 1);
      }
    } else {
      LastPage(fetch, data, limit, maxPages, k);
      PageProducts(limit, k + 1, maxPages);
      AllFullPagesRead(data, limit, k);
    }
  }

  /** An honest server is read completely exactly when the collection stays below the ceiling
      and no two full pages repeat; otherwise the walk raises. */
  lemma HonestIffComplete<T>(fetch: Fetch<T>, data: seq<T>, limit: nat, maxPages: nat)
    requires Honest(fetch, data)
    ensures var r := Paginated(fetch, limit, maxPages);
            var fits := if limit == 0 then data == [] && maxPages >= 2
                        else |data| < Max(1, maxPages) * limit && NoFullPageRepeats(data, limit);
            && (fits ==> r == Returned(data))
            && (!fits && limit > 0 ==> r.Repeated? || r.Ceiling?)
            && (!fits ==> r != Returned(data))
  {
    var p := Slice(data, 0, limit);
    assert PageAt(fetch, limit, 0) == Page(p);
    if limit == 0 {
      assert p == [];
      if maxPages >= 2 {
        assert PageAt(fetch, limit, 1) == Page(Slice(data, 0, 0));
        assert Joined(fetch, limit, 1) == [];
      }
    } else if |p| == limit {
      HonestWalk(fetch, data, limit, maxPages, 1);
    } else {
      assert p == data;
      PageProducts(limit, 1, Max(1, maxPages));
      AllFullPagesRead(data, limit, 0);
    }
  }

  // ---- a server that ignores limit and offset ----------------------------------------

  /** A server that always answers with everything is read completely, or, when everything is
      exactly one page long, the walk raises; a partial list is never returned. */
  lemma IgnoringIsCompleteOrRaises<T>(fetch: Fetch<T>, data: seq<T>, limit: nat, maxPages: nat)
    requires forall n, l, o :: fetch(n, l, o) == Page(data)
    ensures var r := Paginated(fetch, limit, maxPages);
            && (r.Returned? ==> r.records == data)
            && (r.Returned? <==> |data| != limit || (data == [] && maxPages >= 2))
  {
  }

  // ---- any server ----------------------------------------------------------------------

  lemma {:induction false} ReturnedWalk<T>(fetch: Fetch<T>, limit: nat, maxPages: nat, k: nat) returns (n: nat)
    requires 1 <= k && AllPages(fetch, limit, k)
    requires forall i, j :: 0 <= i < j < k ==> PageAt(fetch, limit, i) != PageAt(fetch, limit, j)
    requires forall i :: 0 <= i < k ==> |PageAt(fetch, limit, i).records| >= limit
    requires Walk(fetch, limit, maxPages, k).Returned?
    ensures k < n <= maxPages && AllPages(fetch, limit, n)
    ensures Walk(fetch, limit, maxPages, k).records == Joined(fetch, limit, n)
    ensures forall i :: 0 <= i < n - 1 ==> |PageAt(fetch, limit, i).records| >= limit
    ensures forall i, j :: 0 <= i < j < n - 1 ==> PageAt(fetch, limit, i) != PageAt(fetch, limit, j)
    ensures var last := PageAt(fetch, limit, n - 1).records; last == [] || |last| < limit
    decreases maxPages - k
  {
    var p := PageAt(fetch, limit, k).records;
    if p == [] || |p| < limit {
      n := k + 1;
      if p == [] {
        assert Joined(fetch, limit, n) == Joined(fetch, limit, k) + [];
      }
    } else {
      n := ReturnedWalk(fetch, limit, maxPages, k + 1);
    }
  }

  /** Whatever the server does, a normal return is the first page alone, not one page long, or
      joins pages of which all but the last are at least full and pairwise different, and the
      last is empty or short. */
  lemma ReturnedIsWholeWalk<T>(fetch: Fetch<T>, limit: nat, maxPages: nat) returns (n: nat)
    requires Paginated(fetch, limit, maxPages).Returned?
    ensures 1 <= n && (n == 1 || n <= maxPages) && AllPages(fetch, limit, n)
    ensures Paginated(fetch, limit, maxPages).records == Joined(fetch, limit, n)
    ensures n == 1 ==> |PageAt(fetch, limit, 0).records| != limit
    ensures n > 1 ==>
              && (forall i :: 0 <= i < n - 1 ==> |PageAt(fetch, limit, i).records| >= limit)
              && (forall i, j :: 0 <= i < j < n - 1 ==> PageAt(fetch, limit, i) != PageAt(fetch, limit, j))
              && var last := PageAt(fetch, limit, n - 1).records; last == [] || |last| < limit
  {
    if |PageAt(fetch, limit, 0).records| == limit {
      n := ReturnedWalk(fetch, limit, maxPages, 1);
    } else {
      n := 1;
      assert Joined(fetch, limit, 1) == Joined(fetch, limit, 0) + PageAt(fetch, limit, 0).records;
    }
  }

  /** The first n pages are at least full and no two of them alike. */
  ghost predicate FullAndNew<T>(fetch: Fetch<T>, limit: nat, n: nat) {
    && AllPages(fetch, limit, n)
    && (forall i :: 0 <= i < n ==> |PageAt(fetch, limit, i).records| >= limit)
    && (forall i, j :: 0 <= i < j < n ==> PageAt(fetch, limit, i) != PageAt(fetch, limit, j))
  }

  /** What the walk met when it gave up after n pages. */
  ghost predicate GaveUp<T>(fetch: Fetch<T>, limit: nat, maxPages: nat, n: nat, r: Outcome<T>) {
    match r
    case Returned(_) => false
    case FetchRaised => PageAt(fetch, limit, n) == Raises
    case Ceiling => n >= maxPages
    case Repeated(offset) =>
      && n < maxPages && offset == n * limit && PageAt(fetch, limit, n).Page? && PageAt(fetch, limit, n).records != []
      && exists j :: 0 <= j < n && PageAt(fetch, limit, j) == PageAt(fetch, limit, n)
  }

  lemma {:induction false} WalkGivesUp<T>(fetch: Fetch<T>, limit: nat, maxPages: nat, k: nat) returns (n: nat)
    requires 1 <= k && FullAndNew(fetch, limit, k) && !Walk(fetch, limit, maxPages, k).Returned?
    ensures k <= n && (n == k || n <= maxPages) && FullAndNew(fetch, limit, n)
    ensures GaveUp(fetch, limit, maxPages, n, Walk(fetch, limit, maxPages, k))
    decreases maxPages - k
  {
    if Walk(fetch, limit, maxPages, k).Ceiling? && k >= maxPages {
      n := k;
    } else if PageAt(fetch, limit, k).Raises? || SeenBefore(fetch, limit, k) {
      n := k;
    } else {
      n := WalkGivesUp(fetch, limit, maxPages, k + 1);
    }
  }

  /** Whatever the server does, when the walk raises it has read full pages, all different, and then met
      a fetch that raises, a page it had read before, or the ceiling; and it says which. */
  lemma RaisedIsTrue<T>(fetch: Fetch<T>, limit: nat, maxPages: nat) returns (n: nat)
    requires !Paginated(fetch, limit, maxPages).Returned?
    ensures (n <= 1 || n <= maxPages) && FullAndNew(fetch, limit, n)
    ensures GaveUp(fetch, limit, maxPages, n, Paginated(fetch, limit, maxPages))
  {
    if PageAt(fetch, limit, 0).Raises? {
      n := 0;
    } else {
      n := WalkGivesUp(fetch, limit, maxPages, 1);
    }
  }
}
