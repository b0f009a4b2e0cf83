/** The mark projection of a catalog reply (GuidesManager::UpdateGuidesMarks)
    and the lookup of the active guide's mark (GuidesManager::UpdateActiveGuide).
    Each function describes the whole result of the loop over the guides; the
    indices handed out continue from `base`, the mark counter before the loop,
    so the mark for the guide at position p gets index base + p + 1. */
module GuidesMarks {
  import opened GuidesTypes

  /** The cluster marks created for `gs`, in guide order (see ClusterMarksDescribeClusters). */
  function ClusterMarksOf(gs: seq<Guide>, base: nat): seq<ClusterMark>
    decreases |gs|
  {
    if gs == [] then []
    else
      var g := gs[|gs| - 1];
      ClusterMarksOf(gs[..|gs| - 1], base) +
        (if IsCluster(g) then [ClusterMark(g.point, g.sightsCount, g.outdoorCount, base + |gs|)] else [])
  }

  /** The type a guide mark is drawn with: City as soon as the record has a sight. */
  function MarkTypeOf(g: Guide): MarkType
  {
    if g.sightsCount > 0 then City else Outdoor
  }

  /** The guide marks created for `gs`, in guide order (see GuideMarksDescribeSingles). */
  function GuideMarksOf(gs: seq<Guide>, base: nat, isDownloaded: string -> bool): seq<GuideMark>
    decreases |gs|
  {
    if gs == [] then []
    else
      var g := gs[|gs| - 1];
      GuideMarksOf(gs[..|gs| - 1], base, isDownloaded) +
        (if IsCluster(g) then []
         else [GuideMark(g.point, MarkTypeOf(g), g.info.id, isDownloaded(g.info.id), base + |gs|)])
  }

  /** The ids added to the shown-guides set while projecting `gs`. */
  function ShownIdsOf(gs: seq<Guide>): (r: set<string>)
    decreases |gs|
  {
    if gs == [] then {}
    else
      var g := gs[|gs| - 1];
      ShownIdsOf(gs[..|gs| - 1]) + (if IsCluster(g) then {} else {g.info.id})
  }

  /** The position of the first mark carrying guide id `id`, if any. */
  function FirstMarkWithId(ms: seq<GuideMark>, id: string): (r: Option<nat>)
    ensures r.Some? ==> r.value < |ms| && ms[r.value].guideId == id
    ensures r.Some? ==> forall j :: 0 <= j < r.value ==> ms[j].guideId != id
    ensures r.None? ==> forall j :: 0 <= j < |ms| ==> ms[j].guideId != id
  {
    if ms == [] then None
    else if ms[0].guideId == id then Some(0)
    else match FirstMarkWithId(ms[1..], id)
      case None => None
      case Some(k) => Some(k + 1)
  }

  /** Every cluster mark carries the counts of the cluster record whose
      position its index gives, and the indices strictly increase. */
  lemma {:induction false} ClusterMarksDescribeClusters(gs: seq<Guide>, base: nat)
    ensures var r := ClusterMarksOf(gs, base);
      && |r| <= |gs|
      && (forall k :: 0 <= k < |r| ==>
            base < r[k].index <= base + |gs| &&
            var g := gs[r[k].index - base - 1];
            IsCluster(g) && r[k] == ClusterMark(g.point, g.sightsCount, g.outdoorCount, r[k].index))
      && (forall j, k :: 0 <= j < k < |r| ==> r[j].index < r[k].index)
    decreases |gs|
  {
    if gs != [] {
      var init := gs[..|gs| - 1];
      ClusterMarksDescribeClusters(init, base);
      assert forall p :: 0 <= p < |init| ==> init[p] == gs[p];
    }
  }

  /** Every guide mark carries the id, type and download flag of the single
      (non-cluster) record whose position its index gives, and the indices
      strictly increase. */
  lemma {:induction false} GuideMarksDescribeSingles(gs: seq<Guide>, base: nat, isDownloaded: string -> bool)
    ensures var r := GuideMarksOf(gs, base, isDownloaded);
      && |r| <= |gs|
      && (forall k :: 0 <= k < |r| ==>
            base < r[k].index <= base + |gs| &&
            var g := gs[r[k].index - base - 1];
            !IsCluster(g) &&
            r[k] == GuideMark(g.point, MarkTypeOf(g), g.info.id, isDownloaded(g.info.id), r[k].index))
      && (forall j, k :: 0 <= j < k < |r| ==> r[j].index < r[k].index)
    decreases |gs|
  {
    if gs != [] {
      var init := gs[..|gs| - 1];
      GuideMarksDescribeSingles(init, base, isDownloaded);
      assert forall p :: 0 <= p < |init| ==> init[p] == gs[p];
    }
  }

  /** Projecting one more record extends each result by that record's part. */
  lemma ProjectOneMore(gs: seq<Guide>, i: nat, base: nat, isDownloaded: string -> bool)
    requires i < |gs|
    ensures var g := gs[i];
      && ClusterMarksOf(gs[..i + 1], base) == ClusterMarksOf(gs[..i], base) +
           (if IsCluster(g) then [ClusterMark(g.point, g.sightsCount, g.outdoorCount, base + i + 1)] else [])
      && GuideMarksOf(gs[..i + 1], base, isDownloaded) == GuideMarksOf(gs[..i], base, isDownloaded) +
           (if IsCluster(g) then []
            else [GuideMark(g.point, MarkTypeOf(g), g.info.id, isDownloaded(g.info.id), base + i + 1)])
      && ShownIdsOf(gs[..i + 1]) == ShownIdsOf(gs[..i]) + (if IsCluster(g) then {} else {g.info.id})
  {
    var pre := gs[..i + 1];
    assert pre[..|pre| - 1] == gs[..i];
    assert pre[|pre| - 1] == gs[i];
  }

  /** Projecting two batches one after the other, with the counter carried
      over, gives the same cluster marks as projecting their concatenation. */
  lemma {:induction false} ClusterMarksAppend(gs: seq<Guide>, hs: seq<Guide>, base: nat)
    ensures ClusterMarksOf(gs + hs, base) == ClusterMarksOf(gs, base) + ClusterMarksOf(hs, base + |gs|)
    decreases |hs|
  {
    if hs == [] {
      assert gs + hs == gs;
    } else {
      var hInit := hs[..|hs| - 1];
      assert (gs + hs)[..|gs + hs| - 1] == gs + hInit;
      ClusterMarksAppend(gs, hInit, base);
    }
  }

  /** The same for guide marks. */
  lemma {:induction false} GuideMarksAppend(gs: seq<Guide>, hs: seq<Guide>, base: nat, isDownloaded: string -> bool)
    ensures GuideMarksOf(gs + hs, base, isDownloaded) ==
            GuideMarksOf(gs, base, isDownloaded) + GuideMarksOf(hs, base + |gs|, isDownloaded)
    decreases |hs|
  {
    if hs == [] {
      assert gs + hs == gs;
    } else {
      var hInit := hs[..|hs| - 1];
      assert (gs + hs)[..|gs + hs| - 1] == gs + hInit;
      GuideMarksAppend(gs, hInit, base, isDownloaded);
    }
  }

  /** Every cluster record gets a cluster mark with index base + p + 1 for its position p. */
  lemma {:induction false} EveryClusterMarked(gs: seq<Guide>, base: nat, p: nat)
    requires p < |gs| && IsCluster(gs[p])
    ensures exists k :: 0 <= k < |ClusterMarksOf(gs, base)| && ClusterMarksOf(gs, base)[k].index == base + p + 1
    decreases |gs|
  {
    var init := gs[..|gs| - 1];
    var cs := ClusterMarksOf(init, base);
    assert ClusterMarksOf(gs, base)[..|cs|] == cs;
    if p < |gs| - 1 {
      assert init[p] == gs[p];
      EveryClusterMarked(init, base, p);
      var k :| 0 <= k < |cs| && cs[k].index == base + p + 1;
      assert ClusterMarksOf(gs, base)[k] == cs[k];
    } else {
      assert ClusterMarksOf(gs, base)[|cs|].index == base + p + 1;
    }
  }

  /** Every single record gets a guide mark with index base + p + 1 for its position p. */
  lemma {:induction false} EverySingleMarked(gs: seq<Guide>, base: nat, isDownloaded: string -> bool, p: nat)
    requires p < |gs| && !IsCluster(gs[p])
    ensures exists k :: 0 <= k < |GuideMarksOf(gs, base, isDownloaded)| && GuideMarksOf(gs, base, isDownloaded)[k].index == base + p + 1
    decreases |gs|
  {
    var init := gs[..|gs| - 1];
    var ms := GuideMarksOf(init, base, isDownloaded);
    assert GuideMarksOf(gs, base, isDownloaded)[..|ms|] == ms;
    if p < |gs| - 1 {
      assert init[p] == gs[p];
      EverySingleMarked(init, base, isDownloaded, p);
      var k :| 0 <= k < |ms| && ms[k].index == base + p + 1;
      assert GuideMarksOf(gs, base, isDownloaded)[k] == ms[k];
    } else {
      assert GuideMarksOf(gs, base, isDownloaded)[|ms|].index == base + p + 1;
    }
  }

  /** No index is used twice in one batch: cluster and guide marks never share one. */
  lemma MarkIndicesDistinct(gs: seq<Guide>, base: nat, isDownloaded: string -> bool, i: nat, j: nat)
    requires i < |ClusterMarksOf(gs, base)| && j < |GuideMarksOf(gs, base, isDownloaded)|
    ensures ClusterMarksOf(gs, base)[i].index != GuideMarksOf(gs, base, isDownloaded)[j].index
  {
    ClusterMarksDescribeClusters(gs, base);
    GuideMarksDescribeSingles(gs, base, isDownloaded);
  }

  /** The guide ids carried by a sequence of guide marks. */
  function MarkIds(ms: seq<GuideMark>): set<string>
  {
    set m | m in ms :: m.guideId
  }

  lemma MarkIdsAppend(ms: seq<GuideMark>, ns: seq<GuideMark>)
    ensures MarkIds(ms + ns) == MarkIds(ms) + MarkIds(ns)
  {
    assert forall m :: m in ms + ns <==> m in ms || m in ns;
  }

  /** The shown-guides ids of a batch are exactly the ids its guide marks carry. */
  lemma {:induction false} ShownIdsAreGuideMarkIds(gs: seq<Guide>, base: nat, isDownloaded: string -> bool)
    ensures ShownIdsOf(gs) == MarkIds(GuideMarksOf(gs, base, isDownloaded))
    decreases |gs|
  {
    if gs != [] {
      var init, g := gs[..|gs| - 1], gs[|gs| - 1];
      ShownIdsAreGuideMarkIds(init, base, isDownloaded);
      var ms := GuideMarksOf(init, base, isDownloaded);
      var tail: seq<GuideMark> := if IsCluster(g) then [] else [GuideMark(g.point, MarkTypeOf(g), g.info.id, isDownloaded(g.info.id), base + |gs|)];
      assert GuideMarksOf(gs, base, isDownloaded) == ms + tail;
      var tailIds := if IsCluster(g) then {} else {g.info.id};
      assert ShownIdsOf(gs) == ShownIdsOf(init) + tailIds;
      assert MarkIds(tail) == tailIds;
      MarkIdsAppend(ms, tail);
    }
  }

  /** Only single records contribute to the shown-guides set, and every one does. */
  lemma {:induction false} ShownIdsAreSingles(gs: seq<Guide>)
    ensures ShownIdsOf(gs) == set g | g in gs && !IsCluster(g) :: g.info.id
    decreases |gs|
  {
    if gs != [] {
      var init := gs[..|gs| - 1];
      ShownIdsAreSingles(init);
      assert gs == init + [gs[|gs| - 1]];
    }
  }
}
