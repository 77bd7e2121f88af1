/**
 * The card shown for an athlete, team or organisation
 * (`front/src/components/item-card.jsx`). Records come either from the API
 * or from the older mock data, so the card normalises the link, the image
 * list, the carousel flag and the subscriber counts before rendering.
 */
module ItemCard {
  import opened Js

  type Item = map<string, Json>

  /** `item.profileUrl || item.profile_url || "#"`: the card always links somewhere. */
  function Href(item: Item): (r: Json)
    ensures Truthy(Some(r))
    ensures Truthy(Prop(item, "profileUrl")) ==> r == item["profileUrl"]
    ensures !Truthy(Prop(item, "profileUrl")) && Truthy(Prop(item, "profile_url")) ==> r == item["profile_url"]
    ensures !Truthy(Prop(item, "profileUrl")) && !Truthy(Prop(item, "profile_url")) ==> r == JStr("#")
  {
    Or(Prop(item, "profileUrl"), Or(Prop(item, "profile_url"), JStr("#")))
  }

  /** `xs.filter(Boolean)`: the truthy values, in their original order. */
  function KeepTruthy(xs: seq<Option<Json>>): (r: seq<Json>)
    ensures |r| <= |xs|
    ensures forall i :: 0 <= i < |r| ==> Truthy(Some(r[i]))
    ensures forall i :: 0 <= i < |xs| && Truthy(xs[i]) ==> xs[i].value in r
    ensures forall x :: x in r ==> Some(x) in xs
  {
    if xs == [] then []
    else
      var rest := KeepTruthy(xs[1..]);
      assert forall i :: 1 <= i < |xs| ==> xs[i] == xs[1..][i - 1];
      if Truthy(xs[0]) then [xs[0].value] + rest else rest
  }

  /** Filtering keeps the order: it distributes over concatenation. */
  lemma {:induction false} KeepTruthyAppend(a: seq<Option<Json>>, b: seq<Option<Json>>)
    ensures KeepTruthy(a + b) == KeepTruthy(a) + KeepTruthy(b)
  {
    if a == [] {
      assert a + b == b;
    } else {
      assert (a + b)[1..] == a[1..] + b;
      assert (a + b)[0] == a[0];
      KeepTruthyAppend(a[1..], b);
    }
  }

  /** `Array.isArray(item.images) && item.images.length` */
  predicate HasImageArray(item: Item)
  {
    "images" in item && item["images"].JArr? && |item["images"].items| > 0
  }

  function LegacyImages(item: Item): seq<Option<Json>>
  {
    [Prop(item, "image1"), Prop(item, "image2"), Prop(item, "image3")]
  }

  /**
   * The image list: a non-empty `images` array as it is, otherwise the set
   * ones of `image1`, `image2`, `image3`, in that order (at most three).
   */
  function Images(item: Item): (r: seq<Json>)
    ensures HasImageArray(item) ==> r == item["images"].items && |r| > 0
    ensures !HasImageArray(item) ==> |r| <= 3 && forall i :: 0 <= i < |r| ==> Truthy(Some(r[i]))
    ensures !HasImageArray(item) ==> forall x :: x in r ==> Some(x) in LegacyImages(item)
  {
    if HasImageArray(item) then item["images"].items else KeepTruthy(LegacyImages(item))
  }

  /** With no image array, every set legacy image is kept, in slot order. */
  lemma LegacyImagesInOrder(item: Item)
    requires !HasImageArray(item)
    ensures Images(item) == KeepTruthy([Prop(item, "image1")]) + KeepTruthy([Prop(item, "image2")]) + KeepTruthy([Prop(item, "image3")])
  {
    var a, b, c := Prop(item, "image1"), Prop(item, "image2"), Prop(item, "image3");
    assert LegacyImages(item) == [a] + ([b] + [c]);
    assert Images(item) == KeepTruthy([a] + ([b] + [c]));
    ThreeSlots(a, b, c);
  }

  lemma ThreeSlots(a: Option<Json>, b: Option<Json>, c: Option<Json>)
    ensures KeepTruthy([a] + ([b] + [c])) == KeepTruthy([a]) + KeepTruthy([b]) + KeepTruthy([c])
  {
    KeepTruthyAppend([a], [b] + [c]);
    KeepTruthyAppend([b], [c]);
  }

  /**
   * `item.isCarousel ?? item.is_carousel ?? Boolean(images.length)`, as the
   * condition of the render: only null or undefined fall through, so an
   * explicit `false` switches the carousel off even when there are images.
   */
  function IsCarousel(item: Item): (r: bool)
    ensures Prop(item, "isCarousel").Some? && item["isCarousel"] != JNull ==> r == Truthy(Prop(item, "isCarousel"))
    ensures Coalesce(Prop(item, "isCarousel"), JNull) == JNull ==>
              (Coalesce(Prop(item, "is_carousel"), JNull) != JNull ==> r == Truthy(Prop(item, "is_carousel")))
    ensures Coalesce(Prop(item, "isCarousel"), JNull) == JNull ==>
              (Coalesce(Prop(item, "is_carousel"), JNull) == JNull ==> (r <==> |Images(item)| > 0))
  {
    var v := Coalesce(Prop(item, "isCarousel"), Coalesce(Prop(item, "is_carousel"), JBool(|Images(item)| > 0)));
    Truthy(Some(v))
  }

  /**
   * `item.subscribers || { instagram: item.subscribers_instagram ?? 0,
   * vb: item.subscribers_facebook ?? 0, youtube: item.subscribers_youtube ?? 0 }`.
   */
  function Subs(item: Item): (r: Json)
    ensures Truthy(Some(r))
    ensures Truthy(Prop(item, "subscribers")) ==> r == item["subscribers"]
    ensures !Truthy(Prop(item, "subscribers")) ==>
              r.JObj? && r.fields.Keys == {"instagram", "vb", "youtube"}
              && r.fields["vb"] == Coalesce(Prop(item, "subscribers_facebook"), JNum(0))
  {
    Or(Prop(item, "subscribers"),
       JObj(map[
         "instagram" := Coalesce(Prop(item, "subscribers_instagram"), JNum(0)),
         "vb" := Coalesce(Prop(item, "subscribers_facebook"), JNum(0)),
         "youtube" := Coalesce(Prop(item, "subscribers_youtube"), JNum(0))]))
  }

  /** The three counts handed to the number formatter (`subs.x || 0`): a missing or falsy count is 0. */
  function Counts(item: Item): (r: (Json, Json, Json))
    ensures Truthy(Some(r.0)) || r.0 == JNum(0)
    ensures Truthy(Some(r.1)) || r.1 == JNum(0)
    ensures Truthy(Some(r.2)) || r.2 == JNum(0)
    ensures Truthy(Prop(item, "subscribers")) ==>
              r.0 == Or(Member(item["subscribers"], "instagram"), JNum(0))
              && r.1 == Or(Member(item["subscribers"], "vb"), JNum(0))
              && r.2 == Or(Member(item["subscribers"], "youtube"), JNum(0))
  {
    var subs := Subs(item);
    (Or(Member(subs, "instagram"), JNum(0)), Or(Member(subs, "vb"), JNum(0)), Or(Member(subs, "youtube"), JNum(0)))
  }

  /**
   * A legacy record's Facebook count shows in the `vb` slot: the default of
   * `??` and the default of `||` agree, so the count is `subscribers_facebook || 0`.
   */
  lemma LegacyFacebookCount(item: Item)
    requires !Truthy(Prop(item, "subscribers"))
    ensures Counts(item).1 == Or(Prop(item, "subscribers_facebook"), JNum(0))
    ensures Counts(item).0 == Or(Prop(item, "subscribers_instagram"), JNum(0))
    ensures Counts(item).2 == Or(Prop(item, "subscribers_youtube"), JNum(0))
  {
  }

  /** The category badge is rendered only for a certified record. */
  predicate CategoryBadgeShown(item: Item)
  {
    Truthy(Prop(item, "certified"))
  }

  /** The level badge is rendered only when `level` is truthy. */
  predicate LevelBadgeShown(item: Item)
  {
    Truthy(Prop(item, "level"))
  }
}
