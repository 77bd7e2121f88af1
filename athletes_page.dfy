/**
 * The athletes directory (`front/src/app/athletes/page.jsx`): a first page of
 * twelve athletes on mount, then one more page each time the sentinel below
 * the grid scrolls into view, for as long as the server reports more.
 */
module AthletesPage {
  import opened Js
  import opened Browser
  import Api
  import ApiClient

  const PageSize: nat := 12

  /** The page's state variables. */
  datatype Feed = Feed(loading: bool, items: seq<Json>, offset: nat, hasMore: bool, fetchingMore: bool)

  const Initial := Feed(true, [], 0, true, false)

  /** The paging invariant: the next page starts right after the shown items. */
  predicate Valid(s: Feed)
  {
    s.offset == |s.items|
  }

  /** The athletes of a settled `getAthletesPage` call; a failure (or a `results` that is not a list) gives none. */
  function Results(r: Result<Api.Page>): Option<seq<Json>>
  {
    if r.Ok? && r.value.results.JArr? then Some(r.value.results.items) else None
  }

  /** `Boolean(next)` */
  function MoreAfter(r: Result<Api.Page>): bool
    requires r.Ok?
  {
    Truthy(Some(r.value.next))
  }

  /**
   * The mount effect once the first page has settled: its results become the
   * items and the offset, `next` decides `hasMore`; a failure empties the
   * list and stops paging. Loading ends either way.
   */
  function AfterInitial(s: Feed, r: Result<Api.Page>): (t: Feed)
    ensures !t.loading && t.fetchingMore == s.fetchingMore
    ensures Results(r).Some? ==> t.items == Results(r).value && t.offset == |t.items| && t.hasMore == MoreAfter(r)
    ensures Results(r).None? ==> t.items == [] && !t.hasMore && t.offset == s.offset
  {
    match Results(r)
    case Some(xs) => s.(items := xs, hasMore := MoreAfter(r), offset := |xs|, loading := false)
    case None => s.(items := [], hasMore := false, loading := false)
  }

  /** The observer reacts only while there is more, nothing is loading, the sentinel is in view and no load-more is running. */
  predicate CanLoadMore(s: Feed, intersecting: bool)
  {
    s.hasMore && !s.loading && intersecting && !s.fetchingMore
  }

  /** `setFetchingMore(true)` */
  function StartLoadMore(s: Feed): (t: Feed)
    ensures t.fetchingMore && t.(fetchingMore := s.fetchingMore) == s
  {
    s.(fetchingMore := true)
  }

  /**
   * A load-more once its page has settled: the results are appended and
   * counted into the offset and `next` decides `hasMore`; a failure only
   * stops paging. `fetchingMore` ends false either way.
   */
  function AfterLoadMore(s: Feed, r: Result<Api.Page>): (t: Feed)
    ensures !t.fetchingMore && t.loading == s.loading
    ensures Results(r).Some? ==>
              t.items == s.items + Results(r).value && t.offset == s.offset + |Results(r).value| && t.hasMore == MoreAfter(r)
    ensures Results(r).None? ==> t.items == s.items && t.offset == s.offset && !t.hasMore
  {
    match Results(r)
    case Some(xs) => s.(items := s.items + xs, offset := s.offset + |xs|, hasMore := MoreAfter(r), fetchingMore := false)
    case None => s.(hasMore := false, fetchingMore := false)
  }

  /** The mount effect establishes the invariant from the initial state. */
  lemma InitialEstablishesValid(r: Result<Api.Page>)
    ensures Valid(AfterInitial(Initial, r))
  {
  }

  /** A load-more keeps the invariant and never loses or reorders a shown athlete. */
  lemma LoadMorePreservesValid(s: Feed, r: Result<Api.Page>)
    requires Valid(s)
    ensures Valid(AfterLoadMore(StartLoadMore(s), r))
    ensures s.items <= AfterLoadMore(StartLoadMore(s), r).items
  {
  }

  /**
   * Against a server that answers every request with the same plain list,
   * the page always shows a prefix of that list, and paging stops exactly
   * when the list is exhausted.
   */
  lemma PlainListShowsPrefix(s: Feed, xs: seq<Json>)
    requires Valid(s) && s.offset <= |xs| && s.items == xs[..s.offset]
    ensures var t := AfterLoadMore(StartLoadMore(s), Ok(Api.ArrayPage(xs, PageSize, s.offset)));
            Valid(t) && t.offset <= |xs| && t.items == xs[..t.offset] && (t.hasMore <==> t.offset < |xs|)
  {
    var page := Api.ArrayPage(xs, PageSize, s.offset);
    var window := Api.Slice(xs, s.offset, PageSize);
    assert page.results == JArr(window);
    assert xs[..s.offset + |window|] == xs[..s.offset] + window;
  }

  /** The first page against the same server: a prefix of the list, and more to fetch iff the list is longer than a page. */
  lemma PlainListFirstPage(xs: seq<Json>)
    ensures var t := AfterInitial(Initial, Ok(Api.ArrayPage(xs, PageSize, 0)));
            Valid(t) && t.items == xs[..t.offset] && (t.hasMore <==> t.offset < |xs|)
  {
    var window := Api.Slice(xs, 0, PageSize);
    assert xs[..|window|] == window;
  }

  /** The sentinel that triggers the next load is rendered only while `hasMore` holds. */
  predicate SentinelRendered(s: Feed)
  {
    s.hasMore
  }

  /** Once paging has stopped no load-more can start, whatever scrolls into view. */
  lemma StoppedStaysStopped(s: Feed, intersecting: bool)
    requires !SentinelRendered(s)
    ensures !CanLoadMore(s, intersecting)
  {
  }

  /** The page component, over the browser the athletes API talks through. */
  class Page {
    const api: ApiClient.Client
    var loading: bool
    var items: seq<Json>
    var offset: nat
    var hasMore: bool
    var fetchingMore: bool

    function Current(): Feed
      reads this
    {
      Feed(loading, items, offset, hasMore, fetchingMore)
    }

    constructor (api: ApiClient.Client)
      ensures this.api == api && Current() == Initial
    {
      this.api := api;
      loading := true;
      items := [];
      offset := 0;
      hasMore := true;
      fetchingMore := false;
    }

    /** The mount effect: `getAthletesPage(12, 0)`, then its outcome. */
    method InitialLoad() returns (r: Result<Api.Page>)
      modifies this, api.win
      ensures (api.win.State(), r) == Api.GetAthletesPage(old(api.win.State()), PageSize, 0)
      ensures Current() == AfterInitial(old(Current()), r)
    {
      r := api.GetAthletesPage(PageSize, 0);
      var xs := Results(r);
      if xs.Some? {
        items := xs.value;
        hasMore := MoreAfter(r);
        offset := |xs.value|;
      } else {
        items := [];
        hasMore := false;
      }
      loading := false;
    }

    /**
     * The observer callback: when a load-more may start, it is marked as
     * running, the page at the current offset is fetched and its outcome
     * applied; otherwise nothing happens and nothing is sent.
     */
    method LoadMore(intersecting: bool) returns (r: Option<Result<Api.Page>>)
      modifies this, api.win
      ensures !CanLoadMore(old(Current()), intersecting) ==>
                r == None && Current() == old(Current()) && api.win.State() == old(api.win.State())
      ensures CanLoadMore(old(Current()), intersecting) ==>
                r.Some? && (api.win.State(), r.value) == Api.GetAthletesPage(old(api.win.State()), PageSize, old(offset))
                && Current() == AfterLoadMore(StartLoadMore(old(Current())), r.value)
    {
      if !CanLoadMore(Current(), intersecting) {
        return None;
      }
      fetchingMore := true;
      var page := api.GetAthletesPage(PageSize, offset);
      var xs := Results(page);
      if xs.Some? {
        items := items + xs.value;
        offset := offset + |xs.value|;
        hasMore := MoreAfter(page);
      } else {
        hasMore := false;
      }
      fetchingMore := false;
      r := Some(page);
    }
  }
}
