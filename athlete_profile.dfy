/**
 * The header of an athlete's profile (`front/src/components/athlete-profile.jsx`):
 * the breadcrumb trail, the follow button's label and the four photo slots
 * of the grid, each with its own fallback chain.
 */
module AthleteProfile {
  import opened Js

  const Placeholder := "/images/placeholder.jpg"

  /** `images[i]`: past the end of the list this is `undefined`. */
  function At(images: seq<Json>, i: nat): Option<Json>
  {
    if i < |images| then Some(images[i]) else None
  }

  /** The four slots: `images[0]`, `images[1] || images[0]`, `images[2] || images[0]`, `images[3] || images[1]`, each falling back to the placeholder. */
  function Slots(images: seq<Json>): (r: seq<Json>)
    ensures |r| == 4
    ensures forall k :: 0 <= k < 4 ==> Truthy(Some(r[k]))
    ensures r[0] == Or(At(images, 0), JStr(Placeholder))
    ensures r[1] == Or(At(images, 1), Or(At(images, 0), JStr(Placeholder)))
    ensures r[2] == Or(At(images, 2), Or(At(images, 0), JStr(Placeholder)))
    ensures r[3] == Or(At(images, 3), Or(At(images, 1), JStr(Placeholder)))
  {
    [ Or(At(images, 0), JStr(Placeholder)),
      Or(At(images, 1), Or(At(images, 0), JStr(Placeholder))),
      Or(At(images, 2), Or(At(images, 0), JStr(Placeholder))),
      Or(At(images, 3), Or(At(images, 1), JStr(Placeholder))) ]
  }

  /** With no images every slot shows the placeholder. */
  lemma NoImagesAllPlaceholder()
    ensures Slots([]) == [JStr(Placeholder), JStr(Placeholder), JStr(Placeholder), JStr(Placeholder)]
  {
  }

  /**
   * With a single photo, slots 2 and 3 repeat it but slot 4 falls back to
   * `images[1]`, not `images[0]`, so it shows the placeholder.
   */
  lemma SinglePhotoSlots(x: Json)
    requires Truthy(Some(x))
    ensures Slots([x]) == [x, x, x, JStr(Placeholder)]
  {
  }

  /** With four set photos each slot shows its own. */
  lemma FullSlots(images: seq<Json>)
    requires |images| >= 4 && forall i :: 0 <= i < 4 ==> Truthy(Some(images[i]))
    ensures Slots(images) == images[..4]
  {
    assert Truthy(At(images, 0)) && Truthy(At(images, 1)) && Truthy(At(images, 2)) && Truthy(At(images, 3));
  }

  /** A breadcrumb: its label and, for the trail's links, the target. */
  datatype Crumb = Crumb(caption: Json, href: Option<Json>)

  /** What the trail renders, left to right. */
  datatype Piece = Link(text: Json, target: Json) | PageText(text: Json) | Separator

  /** A crumb with a (truthy) `href` is a link; one without is the current page's text. */
  function CrumbPiece(c: Crumb): (p: Piece)
    ensures p.Link? <==> Truthy(c.href)
    ensures p != Separator && (p.Link? ==> p.target == c.href.value)
  {
    if Truthy(c.href) then Link(c.caption, c.href.value) else PageText(c.caption)
  }

  /** The fragment for crumb `idx`: the crumb, then a separator when `idx < breadcrumbs.length - 1`. */
  function Fragment(crumbs: seq<Crumb>, idx: nat): seq<Piece>
    requires idx < |crumbs|
  {
    [CrumbPiece(crumbs[idx])] + (if idx < |crumbs| - 1 then [Separator] else [])
  }

  /** The fragments of crumbs `idx..`, in order. */
  function RenderFrom(crumbs: seq<Crumb>, idx: nat): (r: seq<Piece>)
    requires idx <= |crumbs|
    ensures idx == |crumbs| ==> r == []
    ensures idx < |crumbs| ==> |r| == 2 * (|crumbs| - idx) - 1
    ensures forall j :: 0 <= j < |r| ==> r[j] == if j % 2 == 0 then CrumbPiece(crumbs[idx + j / 2]) else Separator
    decreases |crumbs| - idx
  {
    if idx == |crumbs| then [] else Fragment(crumbs, idx) + RenderFrom(crumbs, idx + 1)
  }

  /** The whole trail. */
  function Render(crumbs: seq<Crumb>): seq<Piece>
  {
    RenderFrom(crumbs, 0)
  }

  function CountSeparators(ps: seq<Piece>): nat
  {
    if ps == [] then 0 else (if ps[0] == Separator then 1 else 0) + CountSeparators(ps[1..])
  }

  lemma {:induction false} CountSeparatorsAlternating(ps: seq<Piece>, start: nat)
    requires forall j :: 0 <= j < |ps| ==> (ps[j] == Separator <==> (start + j) % 2 == 1)
    ensures CountSeparators(ps) == (start + |ps|) / 2 - start / 2
  {
    if ps != [] {
      CountSeparatorsAlternating(ps[1..], start + 1);
    }
  }

  /**
   * n breadcrumbs give n - 1 separators, one between each neighbouring
   * pair, and the i-th crumb is at position 2i.
   */
  lemma SeparatorsBetween(crumbs: seq<Crumb>)
    requires |crumbs| > 0
    ensures |Render(crumbs)| == 2 * |crumbs| - 1
    ensures CountSeparators(Render(crumbs)) == |crumbs| - 1
    ensures forall i :: 0 <= i < |crumbs| ==> Render(crumbs)[2 * i] == CrumbPiece(crumbs[i])
  {
    var r := Render(crumbs);
    forall j | 0 <= j < |r| ensures r[j] == Separator <==> (0 + j) % 2 == 1 {
      if j % 2 == 0 { assert r[j] == CrumbPiece(crumbs[j / 2]); }
    }
    CountSeparatorsAlternating(r, 0);
    forall i | 0 <= i < |crumbs| ensures r[2 * i] == CrumbPiece(crumbs[i]) {
      assert (2 * i) % 2 == 0 && (2 * i) / 2 == i;
    }
  }

  /** The follow button reads "Suivi" for a followed athlete and "Suivre" otherwise (`isFollowed` defaults to false). */
  function FollowLabel(isFollowed: Option<Json>): (r: string)
    ensures r == "Suivi" <==> Truthy(isFollowed)
    ensures r == "Suivi" || r == "Suivre"
  {
    if Truthy(isFollowed) then "Suivi" else "Suivre"
  }
}
