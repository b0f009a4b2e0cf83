/** The gallery view of the current reply (GuidesManager::GetGallery): one
    item per record that bundles exactly one guide, in reply order. */
module GuidesGallery {
  import opened GuidesTypes
  import opened GuidesMarks

  /** A record listed in the gallery bundles exactly one guide. Clusters and
      empty records (no sight and no outdoor route) are left out. */
  predicate InGallery(g: Guide)
  {
    g.sightsCount + g.outdoorCount == 1
  }

  /** The gallery item built for record `g` when `shownCount` guides have been shown. */
  function GalleryItemOf(g: Guide, shownCount: nat, env: Env): (r: GalleryItem)
    requires InGallery(g)
    ensures r.params.OutdoorParams? ==> g.outdoorCount == 1 && g.sightsCount == 0
    ensures r.params.CityParams? ==> g.sightsCount == 1 && g.outdoorCount == 0
  {
    var info := g.info;
    GalleryItem(
      info.id,
      env.galleryUrl(info.id, shownCount),
      info.imageUrl,
      info.name,
      env.isDownloaded(info.id),
      if g.sightsCount == 1 then CityParams(info.bookmarksCount, info.hasTrack)
      else OutdoorParams(info.tourDuration, info.tracksLength, info.ascent, info.tag))
  }

  /** The gallery of reply `gs`. */
  function GalleryOf(gs: seq<Guide>, shownCount: nat, env: Env): (r: seq<GalleryItem>)
    ensures |r| <= |gs|
    decreases |gs|
  {
    if gs == [] then []
    else
      var g := gs[|gs| - 1];
      GalleryOf(gs[..|gs| - 1], shownCount, env) +
        (if InGallery(g) then [GalleryItemOf(g, shownCount, env)] else [])
  }

  /** The gallery of a concatenation is the concatenation of the galleries:
      together with GalleryOfOne this fixes the gallery's contents and order. */
  lemma {:induction false} GalleryAppend(gs: seq<Guide>, hs: seq<Guide>, shownCount: nat, env: Env)
    ensures GalleryOf(gs + hs, shownCount, env) == GalleryOf(gs, shownCount, env) + GalleryOf(hs, shownCount, env)
    decreases |hs|
  {
    if hs == [] {
      assert gs + hs == gs;
    } else {
      var hInit := hs[..|hs| - 1];
      assert (gs + hs)[..|gs + hs| - 1] == gs + hInit;
      GalleryAppend(gs, hInit, shownCount, env);
    }
  }

  /** A one-record reply lists that record iff it bundles exactly one guide. */
  lemma GalleryOfOne(g: Guide, shownCount: nat, env: Env)
    ensures GalleryOf([g], shownCount, env) == if InGallery(g) then [GalleryItemOf(g, shownCount, env)] else []
  {
    assert [g][..0] == [];
  }

  /** An item is in the gallery iff it is the item of some listed record of the reply. */
  lemma {:induction false} GalleryMembership(gs: seq<Guide>, shownCount: nat, env: Env, x: GalleryItem)
    ensures x in GalleryOf(gs, shownCount, env) <==>
            exists g :: g in gs && InGallery(g) && x == GalleryItemOf(g, shownCount, env)
    decreases |gs|
  {
    if gs != [] {
      var init, last := gs[..|gs| - 1], gs[|gs| - 1];
      GalleryMembership(init, shownCount, env, x);
      assert gs == init + [last];
      assert forall g :: g in gs <==> g in init || g == last;
    }
  }

  /** Every guide listed in the gallery has been shown on the map: its id is
      among those the same reply adds to the shown-guides set. */
  lemma {:induction false} GalleryIdsShown(gs: seq<Guide>, shownCount: nat, env: Env)
    ensures forall x :: x in GalleryOf(gs, shownCount, env) ==> x.guideId in ShownIdsOf(gs)
    decreases |gs|
  {
    if gs != [] {
      GalleryIdsShown(gs[..|gs| - 1], shownCount, env);
    }
  }

  /** Every item links to its own guide, tagged with the current shown count,
      and is a City item iff its record holds the one sight. */
  lemma GalleryItemsDescribeGuides(gs: seq<Guide>, shownCount: nat, env: Env, x: GalleryItem)
    requires x in GalleryOf(gs, shownCount, env)
    ensures x.url == env.galleryUrl(x.guideId, shownCount)
    ensures x.downloaded == env.isDownloaded(x.guideId)
    ensures exists g :: g in gs && InGallery(g) && g.info.id == x.guideId &&
                        (x.params.CityParams? <==> g.sightsCount == 1)
  {
    GalleryMembership(gs, shownCount, env, x);
  }
}
