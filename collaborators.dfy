/**
  * The collaborators list (`useCollaborators`): the in-memory fetch that searches, filters by
  * rank and cuts out one page of a fixed seed list, and the hook's page/page-size/filter state.
  */
module Collaborators {
  import opened Wrappers
  import opened Text
  import opened Lists

  datatype Rank = Gold | Silver | Bronze

  datatype Collaborator = Collaborator(
    id: string,
    code: string,
    name: string,
    avatar: Option<string>,
    totalOrders: int,
    totalOrderValue: int,
    commissionPercent: int,
    rank: Rank,
    commissionReceived: int,
    createdAt: string,
    updatedAt: string)

  /** `{ search?, rank? }`. */
  datatype CollaboratorFilter = CollaboratorFilter(search: Option<string>, rank: Option<Rank>)

  /** The query intent handed to the fetch; its `filter` is optional. */
  datatype ListParams = ListParams(page: int, pageSize: int, filter: Option<CollaboratorFilter>)

  datatype PaginatedResponse = PaginatedResponse(
    data: seq<Collaborator>, total: nat, page: int, pageSize: int, totalPages: nat)

  const DefaultFilter := CollaboratorFilter(None, None)
  const DefaultPage := 1
  const DefaultPageSize := 10

  /** A seed entry; every seed collaborator shares the other field values. */
  function SeedEntry(id: string, code: string, name: string, totalOrders: int, rank: Rank): Collaborator {
    Collaborator(id, code, name, None, totalOrders, 13289339, 15, rank, 1381240, "2025-01-01", "2025-01-01")
  }

  /** The ten collaborators the fetch serves. */
  const MockCollaborators: seq<Collaborator> := [
    SeedEntry("1", "KBAK1837", "Nguyễn Văn Tân", 1839, Gold),
    SeedEntry("2", "AOQ8215", "Trần Minh Hiếu", 1839, Silver),
    SeedEntry("3", "NXLA7294", "Hồ Nhật Thiên", 1839, Bronze),
    SeedEntry("4", "NXYQ8103", "Nguyễn Thị Cẩm Lệ", 242, Bronze),
    SeedEntry("5", "NAOWY173", "Lê Trần Minh Dũng", 1839, Silver),
    SeedEntry("6", "LCNEU244", "Nguyễn Thị Hoài Thương", 1839, Gold),
    SeedEntry("7", "PAKWIM29", "Trần Duy Nhất", 1839, Silver),
    SeedEntry("8", "MZKAO242", "Vũ Văn Minh Giáp", 1839, Bronze),
    SeedEntry("9", "MZKAO243", "Vũ Văn Minh Giáp", 1839, Silver),
    SeedEntry("10", "MZKAO244", "Trần Minh Hùng Bá", 102, Bronze)
  ]

  /** The search text in effect: `params.filter?.search` when it is a non-empty string. */
  function ActiveSearch(filter: Option<CollaboratorFilter>): (r: Option<string>)
    ensures r.Some? ==> r.value != "" && filter.Some? && filter.value.search == r
    ensures r.None? ==> filter.None? || filter.value.search in {None, Some("")}
  {
    if filter.Some? && filter.value.search.Some? && filter.value.search.value != "" then filter.value.search
    else None
  }

  /** The rank in effect: `params.filter?.rank` (every rank is a non-empty string, so any set rank). */
  function ActiveRank(filter: Option<CollaboratorFilter>): (r: Option<Rank>)
    ensures r.Some? ==> filter.Some? && filter.value.rank == r
    ensures r.None? ==> filter.None? || filter.value.rank.None?
  {
    if filter.Some? then filter.value.rank else None
  }

  /** Case-insensitive match of the search text against the name or the code. */
  predicate MatchesSearch(c: Collaborator, search: string) {
    Contains(ToLower(c.name), ToLower(search)) || Contains(ToLower(c.code), ToLower(search))
  }

  /** `c` passes the search condition, or no search is in effect. */
  predicate SearchOk(filter: Option<CollaboratorFilter>, c: Collaborator) {
    match ActiveSearch(filter)
    case Some(search) => MatchesSearch(c, search)
    case None => true
  }

  /** `c` has the requested rank, or no rank is in effect. */
  predicate RankOk(filter: Option<CollaboratorFilter>, c: Collaborator) {
    match ActiveRank(filter)
    case Some(rank) => c.rank == rank
    case None => true
  }

  /** Whether `c` passes every condition the filter puts in effect. */
  predicate Keeps(filter: Option<CollaboratorFilter>, c: Collaborator) {
    SearchOk(filter, c) && RankOk(filter, c)
  }

  /** The search step of `fetchCollaborators`. */
  function SearchStep(items: seq<Collaborator>, filter: Option<CollaboratorFilter>): (r: seq<Collaborator>)
    ensures r == Filter(items, c => SearchOk(filter, c))
  {
    match ActiveSearch(filter)
    case Some(search) =>
      FilterExt(items, c => MatchesSearch(c, search), c => SearchOk(filter, c));
      Filter(items, c => MatchesSearch(c, search))
    case None =>
      FilterAll(items, c => SearchOk(filter, c));
      items
  }

  /** The rank step of `fetchCollaborators`. */
  function RankStep(items: seq<Collaborator>, filter: Option<CollaboratorFilter>): (r: seq<Collaborator>)
    ensures r == Filter(items, c => RankOk(filter, c))
  {
    match ActiveRank(filter)
    case Some(rank) =>
      FilterExt(items, (c: Collaborator) => c.rank == rank, c => RankOk(filter, c));
      Filter(items, (c: Collaborator) => c.rank == rank)
    case None =>
      FilterAll(items, c => RankOk(filter, c));
      items
  }

  /**
    * The filtering of `fetchCollaborators`: search first, then rank. The result is the
    * order-preserving subsequence of `items` that passes both conditions, no more and no less.
    */
  function ApplyFilter(items: seq<Collaborator>, filter: Option<CollaboratorFilter>): (r: seq<Collaborator>)
    ensures r == Filter(items, c => Keeps(filter, c))
    ensures Subsequence(r, items)
    ensures forall i :: 0 <= i < |r| ==> Keeps(filter, r[i])
    ensures forall i :: 0 <= i < |items| && Keeps(filter, items[i]) ==> items[i] in r
  {
    var search: Collaborator -> bool := c => SearchOk(filter, c);
    var rank: Collaborator -> bool := c => RankOk(filter, c);
    var r := RankStep(SearchStep(items, filter), filter);
    FilterFusion(items, search, rank, c => Keeps(filter, c));
    FilterSubsequence(items, c => Keeps(filter, c));
    assert forall i :: 0 <= i < |items| && Keeps(filter, items[i]) ==> items[i] in r by {
      forall i | 0 <= i < |items| && Keeps(filter, items[i]) ensures items[i] in r {
        FilterComplete(items, c => Keeps(filter, c), i);
      }
    }
    r
  }

  /**
    * `fetchCollaborators(params)` without its delay: filter the seed, count, cut out the page.
    * `total` is counted before the page is cut; the page holds at most `pageSize` items, each
    * passing every active condition, in seed order; `totalPages` is `ceil(total / pageSize)`.
    */
  function FetchCollaborators(seed: seq<Collaborator>, params: ListParams): (r: PaginatedResponse)
    requires params.pageSize > 0
    ensures r.total == |ApplyFilter(seed, params.filter)|
    ensures r.page == params.page && r.pageSize == params.pageSize
    ensures |r.data| <= params.pageSize
    ensures Subsequence(r.data, seed)
    ensures forall i :: 0 <= i < |r.data| ==> Keeps(params.filter, r.data[i])
    ensures params.page >= 1 ==>
      var filtered, start := ApplyFilter(seed, params.filter), PageStart(params.page, params.pageSize);
      |r.data| == (if start >= |filtered| then 0 else if start + params.pageSize <= |filtered| then params.pageSize
                   else |filtered| - start) &&
      forall k :: 0 <= k < |r.data| ==> r.data[k] == filtered[start + k]
    ensures r.totalPages == CeilDiv(r.total, params.pageSize)
    ensures r.totalPages == 0 <==> r.total == 0
    ensures params.page > r.totalPages ==> r.data == []
  {
    var filtered := ApplyFilter(seed, params.filter);
    var data := PageWindow(filtered, params.page, params.pageSize);
    SubsequenceTrans(data, filtered, seed);
    assert params.page > CeilDiv(|filtered|, params.pageSize) ==> data == [] by {
      if params.page > CeilDiv(|filtered|, params.pageSize) {
        PastLastPageEmpty(filtered, params.page, params.pageSize);
      }
    }
    assert forall i :: 0 <= i < |data| ==> Keeps(params.filter, data[i]) by {
      forall i | 0 <= i < |data| ensures Keeps(params.filter, data[i]) {
        SubsequenceMember(data, filtered, i);
      }
    }
    PaginatedResponse(data, |filtered|, params.page, params.pageSize, CeilDiv(|filtered|, params.pageSize))
  }

  /** What the hook returns besides its state: the fetched page's fields, or empty defaults before any data. */
  datatype HookView = HookView(collaborators: seq<Collaborator>, total: nat, totalPages: nat)

  /** `data?.data ?? []`, `data?.total ?? 0`, `data?.totalPages ?? 0`. */
  function ViewOf(data: Option<PaginatedResponse>): (v: HookView)
    ensures data.None? ==> v.collaborators == [] && v.total == 0 && v.totalPages == 0
    ensures data.Some? ==> v.collaborators == data.value.data && v.total == data.value.total
                           && v.totalPages == data.value.totalPages
  {
    match data
    case None => HookView([], 0, 0)
    case Some(response) => HookView(response.data, response.total, response.totalPages)
  }

  /**
    * Whatever the query has produced so far (nothing yet, or a fetched page), the view shows no
    * more than a page of items, all passing the filter, and reports zero pages exactly when the total is zero.
    */
  lemma ViewConsistent(seed: seq<Collaborator>, params: ListParams, fetched: bool)
    requires params.pageSize > 0
    ensures var v := ViewOf(if fetched then Some(FetchCollaborators(seed, params)) else None);
      |v.collaborators| <= params.pageSize &&
      (forall i :: 0 <= i < |v.collaborators| ==> Keeps(params.filter, v.collaborators[i])) &&
      (v.totalPages == 0 <==> v.total == 0) &&
      (v.collaborators != [] ==> v.total > 0)
  {
  }

  /**
    * The hook's state: `page`, `pageSize` and `filter` (React `useState` variables), and whether
    * the effect that follows a change of `filter` (`setPage(1)`) is still to run.
    */
  class CollaboratorsHook {
    var page: int
    var pageSize: int
    var filter: CollaboratorFilter
    /** `filter` changed (or the hook mounted) and the page-reset effect has not yet run. */
    var resetPending: bool

    /** Mounting the hook: options default to `{}`, page 1 and page size 10; the effect is due. */
    constructor(initialFilter: Option<CollaboratorFilter>, initialPage: Option<int>, initialPageSize: Option<int>)
      ensures filter == (if initialFilter.Some? then initialFilter.value else DefaultFilter)
      ensures page == (if initialPage.Some? then initialPage.value else DefaultPage)
      ensures pageSize == (if initialPageSize.Some? then initialPageSize.value else DefaultPageSize)
      ensures resetPending
    {
      filter := if initialFilter.Some? then initialFilter.value else DefaultFilter;
      page := if initialPage.Some? then initialPage.value else DefaultPage;
      pageSize := if initialPageSize.Some? then initialPageSize.value else DefaultPageSize;
      resetPending := true;
    }

    /**
      * What the hook returns for its current state, before the query has answered or once it
      * has fetched the page its state asks for: at most a page of collaborators from the seed,
      * in seed order, all passing the current filter, with the filtered total and zero pages
      * exactly when that total is zero.
      */
    function View(seed: seq<Collaborator>, fetched: bool): (v: HookView)
      reads this
      requires pageSize > 0
      ensures |v.collaborators| <= pageSize
      ensures Subsequence(v.collaborators, seed)
      ensures forall i :: 0 <= i < |v.collaborators| ==> Keeps(Some(filter), v.collaborators[i])
      ensures v.totalPages == 0 <==> v.total == 0
      ensures !fetched ==> v == HookView([], 0, 0)
      ensures fetched ==> v.total == |ApplyFilter(seed, Some(filter))|
      ensures fetched && page == 1 && |ApplyFilter(seed, Some(filter))| <= pageSize ==>
        v.collaborators == ApplyFilter(seed, Some(filter))
    {
      var params := ListParams(page, pageSize, Some(filter));
      if fetched then
        assert page == 1 && |ApplyFilter(seed, Some(filter))| <= pageSize ==>
          FetchCollaborators(seed, params).data == ApplyFilter(seed, Some(filter)) by {
          if page == 1 && |ApplyFilter(seed, Some(filter))| <= pageSize {
            FirstPageIsWholeList(seed, params);
          }
        }
        ViewOf(Some(FetchCollaborators(seed, params)))
      else
        ViewOf(None)
    }

    /** The page-reset effect: after a change of `filter` the page goes back to 1. */
    method RunResetEffect()
      modifies this
      ensures page == if old(resetPending) then 1 else old(page)
      ensures !resetPending
      ensures pageSize == old(pageSize) && filter == old(filter)
    {
      if resetPending {
        page := 1;
      }
      resetPending := false;
    }

    method SetPage(n: int)
      modifies this
      ensures page == n
      ensures pageSize == old(pageSize) && filter == old(filter) && resetPending == old(resetPending)
    {
      page := n;
    }

    method SetPageSize(n: int)
      modifies this
      ensures pageSize == n
      ensures page == old(page) && filter == old(filter) && resetPending == old(resetPending)
    {
      pageSize := n;
    }

    /** Replacing the filter; the page-reset effect becomes due. */
    method SetFilter(f: CollaboratorFilter)
      modifies this
      ensures filter == f && resetPending
      ensures page == old(page) && pageSize == old(pageSize)
    {
      filter := f;
      resetPending := true;
    }

    /** `setSearch`: an empty text means no search; the rank is kept. */
    method SetSearch(search: string)
      modifies this
      ensures filter.search == (if search == "" then None else Some(search))
      ensures filter.rank == old(filter.rank)
      ensures resetPending
      ensures page == old(page) && pageSize == old(pageSize)
    {
      filter := filter.(search := if search == "" then None else Some(search));
      resetPending := true;
    }

    /** `setRank`: the search text is kept. */
    method SetRank(rank: Option<Rank>)
      modifies this
      ensures filter.rank == rank
      ensures filter.search == old(filter.search)
      ensures resetPending
      ensures page == old(page) && pageSize == old(pageSize)
    {
      filter := filter.(rank := rank);
      resetPending := true;
    }

    /** `resetFilter`: the empty filter and page 1; the page size is kept. */
    method ResetFilter()
      modifies this
      ensures filter == DefaultFilter && page == DefaultPage
      ensures pageSize == old(pageSize)
      ensures resetPending
    {
      filter := DefaultFilter;
      page := DefaultPage;
      resetPending := true;
    }
  }

  /** A caller's view: mounting on page 3, searching, and letting the effect run lands on page 1. */
  method SearchResetsPage(text: string, rank: Rank) returns (h: CollaboratorsHook)
    ensures h.page == 1 && h.pageSize == DefaultPageSize && !h.resetPending
    ensures h.filter.rank == Some(rank)
    ensures h.filter.search == if text == "" then None else Some(text)
  {
    h := new CollaboratorsHook(None, Some(3), None);
    h.RunResetEffect();
    h.SetPage(3);
    h.SetRank(Some(rank));
    h.SetSearch(text);
    h.RunResetEffect();
  }

  /** No filter, an empty search text and no rank all keep every item, in order. */
  lemma NoConditionKeepsAll(items: seq<Collaborator>, filter: Option<CollaboratorFilter>)
    requires ActiveSearch(filter).None? && ActiveRank(filter).None?
    ensures ApplyFilter(items, filter) == items
  {
    assert SearchStep(items, filter) == items;
  }

  /** The case of the search text does not matter: searching for it or for its lower-case form is the same. */
  lemma SearchIgnoresCase(c: Collaborator, search: string)
    ensures MatchesSearch(c, search) == MatchesSearch(c, ToLower(search))
  {
    ToLowerIdempotent(search);
  }

  /**
    * Treating an empty search text as no search loses nothing: the empty text occurs in every
    * lower-cased name, so searching for it would keep every item anyway.
    */
  lemma EmptySearchMatchesAll(items: seq<Collaborator>)
    ensures Filter(items, c => MatchesSearch(c, "")) == items
  {
    forall i | 0 <= i < |items| ensures MatchesSearch(items[i], "") {
      ContainsEmpty(ToLower(items[i].name));
      assert ToLower("") == "";
    }
    FilterAll(items, c => MatchesSearch(c, ""));
  }

  /** The seed: ten collaborators with distinct ids and codes, of ranks G, S, B, B, S, G, S, B, S, B. */
  lemma MockCollaboratorsShape()
    ensures |MockCollaborators| == 10
    ensures forall i, j :: 0 <= i < j < |MockCollaborators| ==>
      MockCollaborators[i].id != MockCollaborators[j].id && MockCollaborators[i].code != MockCollaborators[j].code
    ensures forall i :: 0 <= i < |MockCollaborators| ==>
      MockCollaborators[i].rank == [Gold, Silver, Bronze, Bronze, Silver, Gold, Silver, Bronze, Silver, Bronze][i]
  {
  }

  /** With no search text, the fetch filters by rank alone. */
  lemma RankOnlyFilter(items: seq<Collaborator>, rank: Rank)
    ensures ApplyFilter(items, Some(CollaboratorFilter(None, Some(rank)))) == Filter(items, (c: Collaborator) => c.rank == rank)
  {
    assert SearchStep(items, Some(CollaboratorFilter(None, Some(rank)))) == items;
  }

  /** When the filtered list fits on the first page, that page is the whole filtered list. */
  lemma FirstPageIsWholeList(seed: seq<Collaborator>, params: ListParams)
    requires params.page == 1 && |ApplyFilter(seed, params.filter)| <= params.pageSize && params.pageSize > 0
    ensures FetchCollaborators(seed, params).data == ApplyFilter(seed, params.filter)
  {
    assert PageStart(1, params.pageSize) == 0;
  }

  /** The GOLD collaborators of the seed are 1 and 6, in that order. */
  lemma GoldOnSeed()
    ensures var f := Filter(MockCollaborators, (c: Collaborator) => c.rank == Gold);
      |f| == 2 && f[0].id == "1" && f[1].id == "6"
  {
    var s := MockCollaborators;
    var keep: Collaborator -> bool := (c: Collaborator) => c.rank == Gold;
    assert s[10..] == [];
    FilterStep(s, 9, keep);
    FilterStep(s, 8, keep);
    FilterStep(s, 7, keep);
    FilterStep(s, 6, keep);
    FilterStep(s, 5, keep);
    FilterStep(s, 4, keep);
    FilterStep(s, 3, keep);
    FilterStep(s, 2, keep);
    FilterStep(s, 1, keep);
    FilterStep(s, 0, keep);
    assert s[0..] == s;
  }

  /** The seed holds 4 SILVER collaborators. */
  lemma SilverOnSeed()
    ensures |Filter(MockCollaborators, (c: Collaborator) => c.rank == Silver)| == 4
  {
    var s := MockCollaborators;
    var keep: Collaborator -> bool := (c: Collaborator) => c.rank == Silver;
    assert s[10..] == [];
    FilterStep(s, 9, keep);
    assert |Filter(s[9..], keep)| == 0;
    FilterStep(s, 8, keep);
    assert |Filter(s[8..], keep)| == 1;
    FilterStep(s, 7, keep);
    assert |Filter(s[7..], keep)| == 1;
    FilterStep(s, 6, keep);
    assert |Filter(s[6..], keep)| == 2;
    FilterStep(s, 5, keep);
    assert |Filter(s[5..], keep)| == 2;
    FilterStep(s, 4, keep);
    assert |Filter(s[4..], keep)| == 3;
    FilterStep(s, 3, keep);
    assert |Filter(s[3..], keep)| == 3;
    FilterStep(s, 2, keep);
    assert |Filter(s[2..], keep)| == 3;
    FilterStep(s, 1, keep);
    assert |Filter(s[1..], keep)| == 4;
    FilterStep(s, 0, keep);
    assert |Filter(s[0..], keep)| == 4;
    assert s[0..] == s;
  }

  /** The seed holds 4 BRONZE collaborators. */
  lemma BronzeOnSeed()
    ensures |Filter(MockCollaborators, (c: Collaborator) => c.rank == Bronze)| == 4
  {
    var s := MockCollaborators;
    var keep: Collaborator -> bool := (c: Collaborator) => c.rank == Bronze;
    assert s[10..] == [];
    FilterStep(s, 9, keep);
    assert |Filter(s[9..], keep)| == 1;
    FilterStep(s, 8, keep);
    assert |Filter(s[8..], keep)| == 1;
    FilterStep(s, 7, keep);
    assert |Filter(s[7..], keep)| == 2;
    FilterStep(s, 6, keep);
    assert |Filter(s[6..], keep)| == 2;
    FilterStep(s, 5, keep);
    assert |Filter(s[5..], keep)| == 2;
    FilterStep(s, 4, keep);
    assert |Filter(s[4..], keep)| == 2;
    FilterStep(s, 3, keep);
    assert |Filter(s[3..], keep)| == 3;
    FilterStep(s, 2, keep);
    assert |Filter(s[2..], keep)| == 4;
    FilterStep(s, 1, keep);
    assert |Filter(s[1..], keep)| == 4;
    FilterStep(s, 0, keep);
    assert |Filter(s[0..], keep)| == 4;
    assert s[0..] == s;
  }

  /** With the rank GOLD alone, the seed yields collaborators 1 and 6. */
  lemma GoldRankScenario()
    ensures var r := FetchCollaborators(MockCollaborators, ListParams(1, 10, Some(CollaboratorFilter(None, Some(Gold)))));
      r.total == 2 && r.totalPages == 1 && |r.data| == 2 && r.data[0].id == "1" && r.data[1].id == "6"
  {
    RankOnlyFilter(MockCollaborators, Gold);
    GoldOnSeed();
    FirstPageIsWholeList(MockCollaborators, ListParams(1, 10, Some(CollaboratorFilter(None, Some(Gold)))));
  }

  /** With the rank SILVER alone, the seed yields four collaborators. */
  lemma SilverRankScenario()
    ensures FetchCollaborators(MockCollaborators, ListParams(1, 10, Some(CollaboratorFilter(None, Some(Silver))))).total == 4
  {
    RankOnlyFilter(MockCollaborators, Silver);
    SilverOnSeed();
  }

  /** With the rank BRONZE alone, the seed yields four collaborators. */
  lemma BronzeRankScenario()
    ensures FetchCollaborators(MockCollaborators, ListParams(1, 10, Some(CollaboratorFilter(None, Some(Bronze))))).total == 4
  {
    RankOnlyFilter(MockCollaborators, Bronze);
    BronzeOnSeed();
  }
}
