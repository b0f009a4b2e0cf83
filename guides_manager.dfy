/** GuidesManager as the class map/guides_manager.cpp defines: its fields are
    updated by its methods, its private helpers are called as the source
    calls them, and the two callbacks of a catalog query are the methods
    OnSuccess and OnFailure, which the environment may call at any time.
    Each method of the source is proved to produce the controller that the
    matching function of module Controller describes, and the public ones
    to keep the invariant. ProjectMarks holds the loop of UpdateGuidesMarks
    on locals. SetMarkGroups, SetProjectionCounters and TakeReply have no
    counterpart in the source: they split a run of assignments of one
    source function into steps, to keep the proof of each step small. */
module Manager {
  import opened GuidesTypes
  import opened GuidesMarks
  import opened GuidesGallery
  import Controller
  import opened ControllerProperties

  class GuidesManager {
    const env: Env

    var state: GuidesState
    var guides: seq<Guide>
    var errorRequestsCount: nat
    var requestCounter: nat
    var nextMarkIndex: nat
    var shownGuides: set<string>
    var activeGuide: string
    var screen: Screen
    var zoom: int
    // The three mark groups of the bookmark manager.
    var clusterMarks: seq<ClusterMark>
    var guideMarks: seq<GuideMark>
    var selectionMarks: seq<SelectionMark>
    // Whether a state listener and a gallery listener are registered.
    var hasStateListener: bool
    var hasGalleryListener: bool

    // What the listeners, the catalog and the renderer have been told so far.
    ghost var stateLog: seq<GuidesState>
    ghost var galleryLog: seq<bool>
    ghost var requests: seq<Request>
    ghost var scaleCommands: seq<ScaleCommand>

    ghost function Abs(): Controller.Ctl
      reads this
    {
      Controller.Ctl(state, guides, errorRequestsCount, requestCounter, nextMarkIndex, shownGuides,
                     activeGuide, screen, zoom, clusterMarks, guideMarks, selectionMarks,
                     hasStateListener, hasGalleryListener, stateLog, galleryLog, requests, scaleCommands)
    }

    ghost predicate Valid()
      reads this
    {
      Inv(Abs(), env)
    }

    constructor (env: Env, initialScreen: Screen)
      ensures this.env == env && Abs() == Controller.Initial(initialScreen) && Valid()
    {
      this.env := env;
      state := Disabled;
      guides := [];
      errorRequestsCount := 0;
      requestCounter := 0;
      nextMarkIndex := 0;
      shownGuides := {};
      activeGuide := "";
      screen := initialScreen;
      zoom := 0;
      clusterMarks, guideMarks, selectionMarks := [], [], [];
      hasStateListener, hasGalleryListener := false, false;
      stateLog, galleryLog, requests, scaleCommands := [], [], [], [];
      new;
      InitialInv(initialScreen, env);
    }

    /** The current state; under the invariant it agrees with the guides held. */
    function GetState(): (r: GuidesState)
      requires Valid()
      reads this
      ensures r == Abs().state
      ensures r == HasData ==> guides != []
      ensures r == NoData || r == Disabled ==> guides == []
    {
      StateMatchesData(Abs(), env);
      state
    }

    function IsEnabled(): (r: bool)
      reads this
      ensures r == Controller.IsEnabled(Abs())
    {
      state != Disabled
    }

    /** The active guide: empty, or the one whose selection mark is on the map
        or whose guide mark was last tapped. */
    function GetActiveGuide(): (r: string)
      reads this
      ensures r == Abs().activeGuide
    {
      activeGuide
    }

    /** How many different guides have been shown since the feature was switched on. */
    function GetShownGuidesCount(): (r: nat)
      reads this
      ensures r == |Abs().shownGuides|
    {
      |shownGuides|
    }

    function IsRequestParamsInitialized(): (r: bool)
      reads this
      ensures r == Controller.ParamsInitialized(Abs())
    {
      screen.emptyInterior || zoom != 0
    }

    /** The gallery of the current guides: it lists nothing the map does not
        show, and asks the catalog about downloads at the time of the call. */
    function GetGallery(): (r: seq<GalleryItem>)
      requires Valid()
      reads this
      ensures r == GalleryOf(guides, |shownGuides|, env)
      ensures |r| <= |guides|
      ensures forall x :: x in r ==> x.guideId in shownGuides && x.guideId in MarkIds(guideMarks)
      ensures forall x :: x in r ==> x.downloaded == env.isDownloaded(x.guideId)
    {
      GalleryShowsMarkedGuides(Abs(), env);
      var r := GalleryOf(guides, |shownGuides|, env);
      assert forall x :: x in r ==> x.downloaded == env.isDownloaded(x.guideId) by {
        forall x | x in r {
          GalleryItemsDescribeGuides(guides, |shownGuides|, env, x);
        }
      }
      r
    }

    method SetStateListener(present: bool)
      requires Valid()
      modifies this
      ensures Abs() == Controller.SetStateListener(old(Abs()), present)
      ensures Valid()
    {
      hasStateListener := present;
      if hasStateListener {
        stateLog := stateLog + [state];
      }
    }

    method SetGalleryListener(present: bool)
      requires Valid()
      modifies this
      ensures Abs() == Controller.SetGalleryListener(old(Abs()), present)
      ensures Valid()
    {
      hasGalleryListener := present;
    }

    method ChangeState(newState: GuidesState)
      modifies this
      ensures Abs() == Controller.ChangeState(old(Abs()), newState)
    {
      if state == newState {
        return;
      }
      state := newState;
      if hasStateListener {
        stateLog := stateLog + [newState];
      }
    }

    method RequestGuides()
      modifies this
      ensures Abs() == Controller.RequestGuides(old(Abs()))
    {
      if !IsRequestParamsInitialized() {
        return;
      }
      requestCounter := requestCounter + 1;
      requests := requests + [Request(requestCounter, screen.corners, zoom)];
    }

    method UpdateActiveGuide()
      modifies this
      ensures Abs() == Controller.UpdateActiveGuide(old(Abs()))
    {
      selectionMarks := [];
      var i := 0;
      while i < |guideMarks| && guideMarks[i].guideId != activeGuide
        invariant 0 <= i <= |guideMarks|
        invariant forall j :: 0 <= j < i ==> guideMarks[j].guideId != activeGuide
      {
        i := i + 1;
      }
      if i < |guideMarks| {
        selectionMarks := [SelectionMark(guideMarks[i].point)];
      } else {
        activeGuide := "";
      }
    }

    /** The loop of UpdateGuidesMarks: the marks for the current guides,
        numbered on from the mark counter, with the counter and shown set
        they leave behind. */
    method ProjectMarks() returns (clusters: seq<ClusterMark>, marks: seq<GuideMark>, next: nat, shown: set<string>)
      ensures clusters == ClusterMarksOf(guides, nextMarkIndex)
      ensures marks == GuideMarksOf(guides, nextMarkIndex, env.isDownloaded)
      ensures next == nextMarkIndex + |guides|
      ensures shown == shownGuides + ShownIdsOf(guides)
    {
      clusters, marks, next, shown := [], [], nextMarkIndex, shownGuides;
      var i := 0;
      while i < |guides|
        invariant 0 <= i <= |guides|
        invariant next == nextMarkIndex + i
        invariant clusters == ClusterMarksOf(guides[..i], nextMarkIndex)
        invariant marks == GuideMarksOf(guides[..i], nextMarkIndex, env.isDownloaded)
        invariant shown == shownGuides + ShownIdsOf(guides[..i])
      {
        var guide := guides[i];
        ProjectOneMore(guides, i, nextMarkIndex, env.isDownloaded);
        next := next + 1;
        if guide.sightsCount + guide.outdoorCount > 1 {
          clusters := clusters + [ClusterMark(guide.point, guide.sightsCount, guide.outdoorCount, next)];
        } else {
          var markType := if guide.sightsCount > 0 then City else Outdoor;
          marks := marks + [GuideMark(guide.point, markType, guide.info.id, env.isDownloaded(guide.info.id), next)];
          shown := shown + {guide.info.id};
        }
        i := i + 1;
      }
      assert guides[..|guides|] == guides;
    }

    /** Replaces the cluster and guide mark groups. It stands for no function
        of the source: it is the write-back after ProjectMarks. */
    method SetMarkGroups(clusters: seq<ClusterMark>, marks: seq<GuideMark>)
      modifies this
      ensures Abs() == old(Abs()).(clusterMarks := clusters, guideMarks := marks)
    {
      clusterMarks, guideMarks := clusters, marks;
    }

    /** Records the mark counter and the shown set a projection leaves behind.
        It stands for no function of the source: the source raises the
        counter and fills the set on each pass of its loop, which here runs
        on locals in ProjectMarks and is written back once. */
    method SetProjectionCounters(next: nat, shown: set<string>)
      modifies this
      ensures Abs() == old(Abs()).(nextMarkIndex := next, shownGuides := shown)
    {
      nextMarkIndex, shownGuides := next, shown;
    }

    method UpdateGuidesMarks()
      modifies this
      ensures Abs() == Controller.UpdateGuidesMarks(old(Abs()), env)
    {
      UpdateGuidesMarksThenSelection(Abs(), env);
      var clusters, marks, next, shown := ProjectMarks();
      SetMarkGroups(clusters, marks);
      SetProjectionCounters(next, shown);
      UpdateActiveGuide();
    }

    method Clear()
      modifies this
      ensures Abs() == Controller.Clear(old(Abs()), env)
    {
      ghost var before := Abs();
      activeGuide := "";
      assert Abs() == before.(activeGuide := "");
      guides := [];
      errorRequestsCount := 0;
      assert Abs() == before.(activeGuide := "", guides := [], errorRequestsCount := 0);
      UpdateGuidesMarks();
    }

    method SetEnabled(enabled: bool)
      requires Valid()
      modifies this
      ensures Abs() == Controller.SetEnabled(old(Abs()), env, enabled)
      ensures Valid()
    {
      ghost var before := Abs();
      var newState := if enabled then Enabled else Disabled;
      if newState == state {
        return;
      }
      Clear();
      ChangeState(newState);
      shownGuides := {};
      if enabled {
        RequestGuides();
      }
      SetEnabledInv(before, env, enabled);
    }

    method Reconnect()
      requires Valid()
      modifies this
      ensures Abs() == Controller.Reconnect(old(Abs()))
      ensures Valid()
    {
      ghost var before := Abs();
      if state != FatalNetworkError {
        return;
      }
      ChangeState(Enabled);
      RequestGuides();
      ReconnectInv(before, env);
    }

    method UpdateViewport(newScreen: Screen)
      requires Valid()
      modifies this
      ensures Abs() == Controller.UpdateViewport(old(Abs()), env, newScreen)
      ensures Valid()
    {
      ghost var before := Abs();
      UpdateViewportInv(before, env, newScreen);
      var newZoom := newScreen.tileScale;
      if state == Disabled || state == FatalNetworkError {
        screen := newScreen;
        zoom := newZoom;
        return;
      }
      if newScreen.emptyInterior {
        return;
      }
      if IsRequestParamsInitialized() && env.similar(screen, newScreen) {
        return;
      }
      screen := newScreen;
      zoom := newZoom;
      RequestGuides();
    }

    /** The success callback of a query. */
    method OnSuccess(reply: seq<Guide>)
      requires Valid()
      modifies this
      ensures Abs() == Controller.OnSuccess(old(Abs()), env, reply)
      ensures Valid()
    {
      OnSuccessInv(Abs(), env, reply);
      if state == Disabled {
        return;
      }
      TakeReply(reply);
      UpdateGuidesMarks();
      if hasGalleryListener {
        galleryLog := galleryLog + [true];
      }
    }

    /** The first steps of OnSuccess: the reply replaces the guides, the error
        count is reset and the state says whether anything came back. It
        stands for no function of the source; it only splits OnSuccess. */
    method TakeReply(reply: seq<Guide>)
      modifies this
      ensures Abs() == Controller.ChangeState(old(Abs()).(guides := reply, errorRequestsCount := 0),
                                              if reply != [] then HasData else NoData)
    {
      guides := reply;
      errorRequestsCount := 0;
      if guides != [] {
        ChangeState(HasData);
      } else {
        ChangeState(NoData);
      }
    }

    /** The failure callback of query number `requestNumber`. */
    method OnFailure(requestNumber: nat)
      requires Valid()
      modifies this
      ensures Abs() == Controller.OnFailure(old(Abs()), env, requestNumber)
      ensures Valid()
    {
      ghost var before := Abs();
      OnFailureInv(before, env, requestNumber);
      if state == Disabled || state == FatalNetworkError {
        return;
      }
      errorRequestsCount := errorRequestsCount + 1;
      if errorRequestsCount >= RequestAttemptsCount {
        Clear();
        ChangeState(FatalNetworkError);
      } else {
        ChangeState(NetworkError);
      }
      if requestNumber == requestCounter {
        RequestGuides();
      }
    }

    method SetActiveGuide(guideId: string)
      requires Valid()
      modifies this
      ensures Abs() == Controller.SetActiveGuide(old(Abs()), guideId)
      ensures Valid()
    {
      ghost var before := Abs();
      SetActiveGuideInv(before, env, guideId);
      if activeGuide == guideId {
        return;
      }
      activeGuide := guideId;
      UpdateActiveGuide();
    }

    method OnGuideSelected(mark: GuideMark)
      requires Valid()
      modifies this
      ensures Abs() == Controller.OnGuideSelected(old(Abs()), mark)
      ensures Valid()
    {
      selectionMarks := [SelectionMark(mark.point)];
      activeGuide := mark.guideId;
      if hasGalleryListener {
        galleryLog := galleryLog + [false];
      }
    }

    method OnClusterSelected(mark: ClusterMark, onScreen: Screen)
      requires Valid()
      modifies this
      ensures Abs() == Controller.OnClusterSelected(old(Abs()), mark, onScreen)
      ensures Valid()
    {
      scaleCommands := scaleCommands + [ScaleCommand(2.0, mark.point, onScreen, true)];
    }
  }
}
