/**
 * The feed of followed athletes (`front/src/app/followed/page.jsx`): the
 * activity feed with its type filter, the strip of followed athletes loaded
 * on mount, and the small display rules of each card.
 */
module FollowedPage {
  import opened Js
  import opened Browser
  import ItemCard
  import MessagesPage

  type Entry = map<string, Json>

  /** The filter keys offered above the feed; "all" shows everything. */
  const FilterKeys := ["all", "post", "competition", "followers", "trophy", "photo"]

  /** The mock feed: its entries' ids and types (the other fields only feed the layout). */
  function SampleFeed(): seq<Entry>
  {
    [ map["id" := JStr("p1"), "type" := JStr("post")],
      map["id" := JStr("c1"), "type" := JStr("competition")],
      map["id" := JStr("f1"), "type" := JStr("followers"), "delta" := JNum(15200)],
      map["id" := JStr("t1"), "type" := JStr("trophy")],
      map["id" := JStr("ph1"), "type" := JStr("photo")],
      map["id" := JStr("yt1"), "type" := JStr("post")] ]
  }

  /** `e.type === filter` */
  predicate HasType(e: Entry, filter: string)
  {
    Prop(e, "type") == Some(JStr(filter))
  }

  /** `feed.filter(e => e.type === filter)` */
  function OfType(feed: seq<Entry>, filter: string): (r: seq<Entry>)
    ensures |r| <= |feed|
    ensures forall i :: 0 <= i < |r| ==> HasType(r[i], filter)
    ensures forall e :: e in r <==> e in feed && HasType(e, filter)
  {
    if feed == [] then []
    else
      var rest := OfType(feed[1..], filter);
      assert forall e :: e in feed <==> e == feed[0] || e in feed[1..];
      if HasType(feed[0], filter) then [feed[0]] + rest else rest
  }

  /** The filter keeps the feed's order: it distributes over concatenation. */
  lemma {:induction false} OfTypeAppend(a: seq<Entry>, b: seq<Entry>, filter: string)
    ensures OfType(a + b, filter) == OfType(a, filter) + OfType(b, filter)
  {
    if a == [] {
      assert a + b == b;
    } else {
      assert (a + b)[1..] == a[1..] + b;
      assert (a + b)[0] == a[0];
      OfTypeAppend(a[1..], b, filter);
    }
  }

  /** The shown events: the whole feed for "all", else the entries of that type. */
  function Events(feed: seq<Entry>, filter: string): (r: seq<Entry>)
    ensures filter == "all" ==> r == feed
    ensures filter != "all" ==> r == OfType(feed, filter)
  {
    if filter == "all" then feed else OfType(feed, filter)
  }

  /** A filter that matches every entry keeps the feed as it is. */
  lemma {:induction false} OfTypeAllMatch(feed: seq<Entry>, filter: string)
    requires forall i :: 0 <= i < |feed| ==> HasType(feed[i], filter)
    ensures OfType(feed, filter) == feed
  {
    if feed != [] {
      OfTypeAllMatch(feed[1..], filter);
    }
  }

  /** The explorer tab: "/" or a path under one of these prefixes. */
  const ExplorerPrefixes := ["/explorer", "/athletes", "/teams", "/organisations"]

  predicate IsExplorer(pathname: string)
  {
    pathname == "/" || StartsWithAny(pathname, ExplorerPrefixes)
  }

  /** This page highlights the explorer tab wherever the messages page does, and on "/explorer" as well. */
  lemma ExplorerWiderThanMessages(pathname: string)
    ensures MessagesPage.IsExplorer(pathname) ==> IsExplorer(pathname)
    ensures IsExplorer("/explorer") && !MessagesPage.IsExplorer("/explorer")
  {
    if MessagesPage.IsExplorer(pathname) && pathname != "/" {
      var i :| 0 <= i < |MessagesPage.ExplorerPrefixes| && StartsWith(pathname, MessagesPage.ExplorerPrefixes[i]);
      assert StartsWith(pathname, ExplorerPrefixes[i + 1]);
    }
    assert StartsWith("/explorer", ExplorerPrefixes[0]);
    var p := "/explorer";
    forall i | 0 <= i < |MessagesPage.ExplorerPrefixes| ensures !StartsWith(p, MessagesPage.ExplorerPrefixes[i]) {
      assert p[1] != MessagesPage.ExplorerPrefixes[i][1];
    }
  }

  /** An athlete card's link: `a.profile_url || `#/athletes/${a.id}``. */
  function AthleteHref(a: Entry): (r: Json)
    ensures Truthy(Some(r))
    ensures Truthy(Prop(a, "profile_url")) ==> r == a["profile_url"]
    ensures !Truthy(Prop(a, "profile_url")) ==> r == JStr("#/athletes/" + JsString(Prop(a, "id")))
  {
    Or(Prop(a, "profile_url"), JStr("#/athletes/" + JsString(Prop(a, "id"))))
  }

  /** The avatar: `images?.[0]` when truthy, else the grey disc (`None`). */
  function Avatar(a: Entry): (r: Option<Json>)
    ensures r.Some? ==> Truthy(r)
    ensures ItemCard.HasImageArray(a) ==>
              (r.Some? <==> Truthy(Some(a["images"].items[0]))) && (r.Some? ==> r.value == a["images"].items[0])
  {
    var images := ItemCard.Images(a);
    if |images| > 0 && Truthy(Some(images[0])) then Some(images[0]) else None
  }

  /** A legacy record with no image array shows its first set image among `image1`..`image3`. */
  lemma LegacyAvatar(a: Entry)
    requires !ItemCard.HasImageArray(a)
    ensures Truthy(Prop(a, "image1")) ==> Avatar(a) == Prop(a, "image1")
    ensures !Truthy(Prop(a, "image1")) && Truthy(Prop(a, "image2")) ==> Avatar(a) == Prop(a, "image2")
    ensures !Truthy(Prop(a, "image1")) && !Truthy(Prop(a, "image2")) && Truthy(Prop(a, "image3")) ==> Avatar(a) == Prop(a, "image3")
    ensures !Truthy(Prop(a, "image1")) && !Truthy(Prop(a, "image2")) && !Truthy(Prop(a, "image3")) ==> Avatar(a) == None
  {
    ItemCard.LegacyImagesInOrder(a);
  }

  /** The activity badge: `a.recent_activity_count > 0`, false for a missing or non-numeric count. */
  predicate ActivityBadgeShown(a: Entry)
  {
    GreaterThan(Prop(a, "recent_activity_count"), 0)
  }

  lemma ActivityBadgeOnlyForPositiveCounts(a: Entry)
    ensures Prop(a, "recent_activity_count") == None ==> !ActivityBadgeShown(a)
    ensures forall n: int :: Prop(a, "recent_activity_count") == Some(JNum(n)) ==> (ActivityBadgeShown(a) <==> n > 0)
  {
  }

  /** A followers entry is drawn as a gain iff `(item.delta || 0) >= 0`; a missing delta counts as a gain. */
  predicate Positive(item: Entry)
  {
    AtLeast(Some(Or(Prop(item, "delta"), JNum(0))), 0)
  }

  lemma PositiveCases(item: Entry)
    ensures Prop(item, "delta") == None ==> Positive(item)
    ensures forall n: int :: Prop(item, "delta") == Some(JNum(n)) ==> (Positive(item) <==> n >= 0)
  {
  }

  /** The page's state: the followed athletes and the loading flag. */
  class Page {
    var athletes: seq<Json>
    var loadingAthletes: bool

    constructor ()
      ensures athletes == [] && loadingAthletes
    {
      athletes := [];
      loadingAthletes := true;
    }

    /**
     * The mount effect, given how `getFollowedAthletes()` settled: its
     * items, or `[]` when it threw; the loading flag ends false either way.
     */
    method LoadAthletes(outcome: Result<seq<Json>>)
      modifies this
      ensures athletes == (if outcome.Ok? then outcome.value else [])
      ensures !loadingAthletes
    {
      if outcome.Ok? {
        athletes := outcome.value;
      } else {
        athletes := [];
      }
      loadingAthletes := false;
    }

    /** The count beside the heading is shown only once loading is over. */
    predicate CountShown()
      reads this
    {
      !loadingAthletes
    }

    /** The empty-state message: loaded, and nothing followed. */
    predicate EmptyStateShown()
      reads this
    {
      !loadingAthletes && |athletes| == 0
    }
  }

  /** A failed load always ends on the empty state. */
  method LoadFailureShowsEmptyState(e: Error) returns (shown: bool)
    ensures shown
  {
    var page := new Page();
    page.LoadAthletes(Err(e));
    shown := page.EmptyStateShown();
  }
}
