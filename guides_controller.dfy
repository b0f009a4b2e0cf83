/** The guides-on-map controller as a value: everything GuidesManager keeps,
    plus logs of what it tells the outside world (states sent to the state
    listener, `reload` flags sent to the gallery listener, catalog queries
    dispatched, scale commands sent to the renderer). One function per
    operation of map/guides_manager.cpp gives the controller after that
    operation; the class in guides_manager.dfy is proved to follow them. */
module Controller {
  import opened GuidesTypes
  import opened GuidesMarks

  datatype Ctl = Ctl(
    state: GuidesState,
    guides: seq<Guide>,
    errorRequestsCount: nat,
    requestCounter: nat,
    nextMarkIndex: nat,
    shownGuides: set<string>,
    activeGuide: string,
    screen: Screen,
    zoom: int,
    clusterMarks: seq<ClusterMark>,
    guideMarks: seq<GuideMark>,
    selectionMarks: seq<SelectionMark>,
    hasStateListener: bool,
    hasGalleryListener: bool,
    stateLog: seq<GuidesState>,
    galleryLog: seq<bool>,
    requests: seq<Request>,
    scaleCommands: seq<ScaleCommand>)

  /** A freshly built controller: disabled, no data, no listeners, zoom 0. */
  function Initial(screen: Screen): Ctl
  {
    Ctl(Disabled, [], 0, 0, 0, {}, "", screen, 0, [], [], [], false, false, [], [], [], [])
  }

  /** The feature counts as on in every state but Disabled, including after
      the controller has given up. */
  function IsEnabled(c: Ctl): (r: bool)
    ensures r <==> c.state in {Enabled, HasData, NoData, NetworkError, FatalNetworkError}
  {
    c.state != Disabled
  }

  /** Whether a query can be built from the recorded screen and zoom. As
      written this accepts a screen whose rectangle has an empty interior. */
  predicate ParamsInitialized(c: Ctl)
    ensures c.screen.emptyInterior ==> ParamsInitialized(c)
    ensures !c.screen.emptyInterior ==> (ParamsInitialized(c) <==> c.zoom != 0)
  {
    c.screen.emptyInterior || c.zoom != 0
  }

  /** Changing to the current state is a no-op; otherwise the listener, if
      any, hears the new state once, after the state is updated. */
  function ChangeState(c: Ctl, s: GuidesState): (r: Ctl)
    ensures r.state == s
    ensures c.state == s ==> r == c
    ensures c.state != s ==> r.stateLog == c.stateLog + (if c.hasStateListener then [s] else [])
    ensures r.(state := c.state, stateLog := c.stateLog) == c
  {
    if c.state == s then c
    else c.(state := s, stateLog := if c.hasStateListener then c.stateLog + [s] else c.stateLog)
  }

  /** Registering a listener makes it hear the current state at once. */
  function SetStateListener(c: Ctl, present: bool): (r: Ctl)
    ensures r.hasStateListener == present
    ensures r.stateLog == c.stateLog + (if present then [c.state] else [])
    ensures r.(hasStateListener := c.hasStateListener, stateLog := c.stateLog) == c
  {
    c.(hasStateListener := present, stateLog := if present then c.stateLog + [c.state] else c.stateLog)
  }

  function SetGalleryListener(c: Ctl, present: bool): (r: Ctl)
    ensures r.hasGalleryListener == present
    ensures r.(hasGalleryListener := c.hasGalleryListener) == c
  {
    c.(hasGalleryListener := present)
  }

  /** A query is dispatched, under the next request number, only when the
      parameters are initialized; otherwise nothing happens. */
  function RequestGuides(c: Ctl): (r: Ctl)
    ensures !ParamsInitialized(c) ==> r == c
    ensures r.requestCounter == c.requestCounter + (if ParamsInitialized(c) then 1 else 0)
    ensures ParamsInitialized(c) ==>
      r.requests == c.requests + [Request(r.requestCounter, c.screen.corners, c.zoom)]
    ensures r.(requestCounter := c.requestCounter, requests := c.requests) == c
  {
    if !ParamsInitialized(c) then c
    else
      var n := c.requestCounter + 1;
      c.(requestCounter := n, requests := c.requests + [Request(n, c.screen.corners, c.zoom)])
  }

  /** The selection group is rebuilt from the first guide mark of the active
      guide; when there is none, the active guide is forgotten. */
  function UpdateActiveGuide(c: Ctl): (r: Ctl)
    ensures |r.selectionMarks| <= 1
    ensures |r.selectionMarks| == 1 <==> exists k :: 0 <= k < |c.guideMarks| && c.guideMarks[k].guideId == c.activeGuide
    ensures r.activeGuide == if |r.selectionMarks| == 1 then c.activeGuide else ""
    ensures match FirstMarkWithId(c.guideMarks, c.activeGuide)
      case Some(k) => r.selectionMarks == [SelectionMark(c.guideMarks[k].point)]
      case None => r.selectionMarks == [] && r.activeGuide == ""
    ensures r.(selectionMarks := c.selectionMarks, activeGuide := c.activeGuide) == c
  {
    match FirstMarkWithId(c.guideMarks, c.activeGuide)
    case Some(k) => c.(selectionMarks := [SelectionMark(c.guideMarks[k].point)])
    case None => c.(selectionMarks := [], activeGuide := "")
  }

  /** The cluster and guide groups are rebuilt from the current guides; the
      mark counter continues, and the ids of single guides join the
      shown-guides set. Then the selection is reconciled. */
  function UpdateGuidesMarks(c: Ctl, env: Env): (r: Ctl)
    ensures r.nextMarkIndex == c.nextMarkIndex + |c.guides|
    ensures r.clusterMarks == ClusterMarksOf(c.guides, c.nextMarkIndex)
    ensures r.guideMarks == GuideMarksOf(c.guides, c.nextMarkIndex, env.isDownloaded)
    ensures r.shownGuides == c.shownGuides + ShownIdsOf(c.guides)
    ensures match FirstMarkWithId(r.guideMarks, c.activeGuide)
      case Some(k) => r.selectionMarks == [SelectionMark(r.guideMarks[k].point)] && r.activeGuide == c.activeGuide
      case None => r.selectionMarks == [] && r.activeGuide == ""
    ensures r.state == c.state && r.guides == c.guides && r.errorRequestsCount == c.errorRequestsCount
    ensures r.requests == c.requests && r.requestCounter == c.requestCounter
    ensures r.stateLog == c.stateLog && r.galleryLog == c.galleryLog
    ensures r.(clusterMarks := c.clusterMarks, guideMarks := c.guideMarks, nextMarkIndex := c.nextMarkIndex,
               shownGuides := c.shownGuides, selectionMarks := c.selectionMarks, activeGuide := c.activeGuide) == c
  {
    var base := c.nextMarkIndex;
    UpdateActiveGuide(c.(
      clusterMarks := ClusterMarksOf(c.guides, base),
      guideMarks := GuideMarksOf(c.guides, base, env.isDownloaded),
      nextMarkIndex := base + |c.guides|,
      shownGuides := c.shownGuides + ShownIdsOf(c.guides)))
  }

  /** Drops the guides, the active guide and the error count, and empties the marks. */
  function Clear(c: Ctl, env: Env): (r: Ctl)
    ensures r.guides == [] && r.errorRequestsCount == 0 && r.activeGuide == ""
    ensures r.clusterMarks == [] && r.guideMarks == [] && r.selectionMarks == []
    ensures r.nextMarkIndex == c.nextMarkIndex && r.shownGuides == c.shownGuides
    ensures r.state == c.state && r.requests == c.requests && r.requestCounter == c.requestCounter
    ensures r.stateLog == c.stateLog && r.galleryLog == c.galleryLog
    ensures r.(guides := c.guides, errorRequestsCount := c.errorRequestsCount, activeGuide := c.activeGuide,
               clusterMarks := c.clusterMarks, guideMarks := c.guideMarks, selectionMarks := c.selectionMarks) == c
  {
    UpdateGuidesMarks(c.(activeGuide := "", guides := [], errorRequestsCount := 0), env)
  }

  /** Switching to the state already held does nothing. Any other call
      clears everything, forgets the shown guides, and then queries the
      catalog when the feature was switched on. */
  function SetEnabled(c: Ctl, env: Env, enabled: bool): (r: Ctl)
    ensures IsEnabled(r) == enabled
    ensures (if enabled then Enabled else Disabled) == c.state ==> r == c
    ensures (if enabled then Enabled else Disabled) != c.state ==>
      && r.state == (if enabled then Enabled else Disabled)
      && r.guides == [] && r.activeGuide == "" && r.errorRequestsCount == 0 && r.shownGuides == {}
      && r.clusterMarks == [] && r.guideMarks == [] && r.selectionMarks == []
      && r.stateLog == c.stateLog + (if c.hasStateListener then [r.state] else [])
      && r.requests == c.requests +
           (if enabled && ParamsInitialized(c) then [Request(c.requestCounter + 1, c.screen.corners, c.zoom)] else [])
      && r.requestCounter == c.requestCounter + (if enabled && ParamsInitialized(c) then 1 else 0)
    ensures r.(state := c.state, guides := c.guides, activeGuide := c.activeGuide,
               errorRequestsCount := c.errorRequestsCount, shownGuides := c.shownGuides,
               clusterMarks := c.clusterMarks, guideMarks := c.guideMarks, selectionMarks := c.selectionMarks,
               stateLog := c.stateLog, requestCounter := c.requestCounter, requests := c.requests) == c
  {
    var newState := if enabled then Enabled else Disabled;
    if newState == c.state then c
    else
      var c1 := ChangeState(Clear(c, env), newState).(shownGuides := {});
      if enabled then RequestGuides(c1) else c1
  }

  /** Only a controller that gave up reconnects: it becomes Enabled and queries. */
  function Reconnect(c: Ctl): (r: Ctl)
    ensures c.state != FatalNetworkError ==> r == c
    ensures c.state == FatalNetworkError ==>
      && r.state == Enabled && r.guides == c.guides && r.errorRequestsCount == c.errorRequestsCount
      && r.stateLog == c.stateLog + (if c.hasStateListener then [Enabled] else [])
      && r.requests == c.requests +
           (if ParamsInitialized(c) then [Request(c.requestCounter + 1, c.screen.corners, c.zoom)] else [])
      && r.requestCounter == c.requestCounter + (if ParamsInitialized(c) then 1 else 0)
    ensures r.(state := c.state, stateLog := c.stateLog, requestCounter := c.requestCounter, requests := c.requests) == c
  {
    if c.state != FatalNetworkError then c
    else RequestGuides(ChangeState(c, Enabled))
  }

  /** The viewport policy. While disabled or given up, the screen is only
      recorded. A screen with an empty interior is ignored. A screen similar
      to the recorded one is ignored once the parameters are initialized.
      Any other screen is recorded and queried for. */
  function UpdateViewport(c: Ctl, env: Env, screen: Screen): (r: Ctl)
    ensures c.state == Disabled || c.state == FatalNetworkError ==>
      r == c.(screen := screen, zoom := screen.tileScale)
    ensures c.state != Disabled && c.state != FatalNetworkError && screen.emptyInterior ==> r == c
    ensures (c.state != Disabled && c.state != FatalNetworkError &&
             ParamsInitialized(c) && env.similar(c.screen, screen)) ==> r == c
    ensures (c.state != Disabled && c.state != FatalNetworkError && !screen.emptyInterior &&
             !(ParamsInitialized(c) && env.similar(c.screen, screen))) ==>
      r.screen == screen && r.zoom == screen.tileScale &&
      r.requests == c.requests + (if screen.tileScale != 0 then [Request(c.requestCounter + 1, screen.corners, screen.tileScale)] else []) &&
      r.requestCounter == c.requestCounter + (if screen.tileScale != 0 then 1 else 0)
    ensures r.(screen := c.screen, zoom := c.zoom, requestCounter := c.requestCounter, requests := c.requests) == c
  {
    if c.state == Disabled || c.state == FatalNetworkError then
      c.(screen := screen, zoom := screen.tileScale)
    else if screen.emptyInterior then c
    else if ParamsInitialized(c) && env.similar(c.screen, screen) then c
    else RequestGuides(c.(screen := screen, zoom := screen.tileScale))
  }

  /** A successful reply, unless the feature is off: the reply replaces the
      guides, the error count is reset, the state says whether anything came
      back, the marks are rebuilt and the gallery is told to reload. */
  function OnSuccess(c: Ctl, env: Env, gs: seq<Guide>): (r: Ctl)
    ensures c.state == Disabled ==> r == c
    ensures c.state != Disabled ==>
      && r.guides == gs && r.errorRequestsCount == 0
      && (r.state == HasData <==> |gs| > 0) && (r.state == NoData <==> gs == [])
      && r.clusterMarks == ClusterMarksOf(gs, c.nextMarkIndex)
      && r.guideMarks == GuideMarksOf(gs, c.nextMarkIndex, env.isDownloaded)
      && r.shownGuides == c.shownGuides + ShownIdsOf(gs)
      && r.galleryLog == c.galleryLog + (if c.hasGalleryListener then [true] else [])
      && r.requests == c.requests && r.requestCounter == c.requestCounter
      && r.nextMarkIndex == c.nextMarkIndex + |gs|
      && r.stateLog == c.stateLog + (if c.hasStateListener && c.state != r.state then [r.state] else [])
    ensures r.(guides := c.guides, errorRequestsCount := c.errorRequestsCount, state := c.state,
               stateLog := c.stateLog, clusterMarks := c.clusterMarks, guideMarks := c.guideMarks,
               selectionMarks := c.selectionMarks, activeGuide := c.activeGuide,
               nextMarkIndex := c.nextMarkIndex, shownGuides := c.shownGuides, galleryLog := c.galleryLog) == c
    ensures c.state != Disabled ==>
      match FirstMarkWithId(r.guideMarks, c.activeGuide)
      case Some(k) => r.selectionMarks == [SelectionMark(r.guideMarks[k].point)] && r.activeGuide == c.activeGuide
      case None => r.selectionMarks == [] && r.activeGuide == ""
  {
    if c.state == Disabled then c
    else
      var c1 := c.(guides := gs, errorRequestsCount := 0);
      var c2 := ChangeState(c1, if gs != [] then HasData else NoData);
      var c3 := UpdateGuidesMarks(c2, env);
      c3.(galleryLog := if c3.hasGalleryListener then c3.galleryLog + [true] else c3.galleryLog)
  }

  /** A failed reply for request `n`, unless the feature is off or has given
      up: the error count grows; at the budget everything is cleared and the
      controller gives up, otherwise it reports a network error. Either way
      the query is repeated when no newer request was dispatched since. */
  function OnFailure(c: Ctl, env: Env, n: nat): (r: Ctl)
    ensures c.state == Disabled || c.state == FatalNetworkError ==> r == c
    ensures c.state != Disabled && c.state != FatalNetworkError ==>
      && (c.errorRequestsCount + 1 >= RequestAttemptsCount ==>
            && r.state == FatalNetworkError && r.guides == [] && r.errorRequestsCount == 0
            && r.clusterMarks == [] && r.guideMarks == [] && r.selectionMarks == [] && r.activeGuide == "")
      && (c.errorRequestsCount + 1 < RequestAttemptsCount ==>
            && r.state == NetworkError && r.guides == c.guides && r.errorRequestsCount == c.errorRequestsCount + 1
            && r.clusterMarks == c.clusterMarks && r.guideMarks == c.guideMarks
            && r.selectionMarks == c.selectionMarks && r.activeGuide == c.activeGuide)
      && r.stateLog == c.stateLog + (if c.hasStateListener && c.state != r.state then [r.state] else [])
      && r.requests == c.requests +
           (if n == c.requestCounter && ParamsInitialized(c)
            then [Request(c.requestCounter + 1, c.screen.corners, c.zoom)] else [])
      && r.requestCounter == c.requestCounter + (if n == c.requestCounter && ParamsInitialized(c) then 1 else 0)
    ensures r.(state := c.state, guides := c.guides, errorRequestsCount := c.errorRequestsCount,
               clusterMarks := c.clusterMarks, guideMarks := c.guideMarks, selectionMarks := c.selectionMarks,
               activeGuide := c.activeGuide, stateLog := c.stateLog, requestCounter := c.requestCounter,
               requests := c.requests) == c
  {
    if c.state == Disabled || c.state == FatalNetworkError then c
    else
      var count := c.errorRequestsCount + 1;
      var c1 := c.(errorRequestsCount := count);
      var c2 :=
        if count >= RequestAttemptsCount then ChangeState(Clear(c1, env), FatalNetworkError)
        else ChangeState(c1, NetworkError);
      if n == c2.requestCounter then RequestGuides(c2) else c2
  }

  /** Selecting the active guide again does nothing; another id is made
      active and the selection mark follows it, if it is on the map. */
  function SetActiveGuide(c: Ctl, id: string): (r: Ctl)
    ensures id == c.activeGuide ==> r == c
    ensures id != c.activeGuide ==>
      && (|r.selectionMarks| == 1 <==> exists k :: 0 <= k < |c.guideMarks| && c.guideMarks[k].guideId == id)
      && |r.selectionMarks| <= 1
      && r.activeGuide == (if |r.selectionMarks| == 1 then id else "")
      && r.guideMarks == c.guideMarks && r.guides == c.guides && r.state == c.state
    ensures r.(selectionMarks := c.selectionMarks, activeGuide := c.activeGuide) == c
  {
    if c.activeGuide == id then c
    else UpdateActiveGuide(c.(activeGuide := id))
  }

  /** A tap on a guide mark: it becomes the one selection and the active
      guide, and the gallery is told to move to it without reloading. */
  function OnGuideSelected(c: Ctl, mark: GuideMark): (r: Ctl)
    ensures r.selectionMarks == [SelectionMark(mark.point)] && r.activeGuide == mark.guideId
    ensures r.galleryLog == c.galleryLog + (if c.hasGalleryListener then [false] else [])
    ensures r.(selectionMarks := c.selectionMarks, activeGuide := c.activeGuide, galleryLog := c.galleryLog) == c
  {
    c.(selectionMarks := [SelectionMark(mark.point)],
       activeGuide := mark.guideId,
       galleryLog := if c.hasGalleryListener then c.galleryLog + [false] else c.galleryLog)
  }

  /** A tap on a cluster only asks the renderer to zoom in twice around it. */
  function OnClusterSelected(c: Ctl, mark: ClusterMark, screen: Screen): (r: Ctl)
    ensures r.scaleCommands == c.scaleCommands + [ScaleCommand(2.0, mark.point, screen, true)]
    ensures r.(scaleCommands := c.scaleCommands) == c
  {
    c.(scaleCommands := c.scaleCommands + [ScaleCommand(2.0, mark.point, screen, true)])
  }
}
