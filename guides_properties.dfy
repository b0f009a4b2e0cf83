/** What holds of the controller over any sequence of the calls the outside
    world may make: an invariant kept by every call, the retry budget, the
    monotone shown-guides set, request coalescing, selection reconciliation,
    and the places where the code does what a reader of its comments and
    names would not expect: a controller that gave up has error count 0,
    still repeats its query and still takes a reply; an empty-interior
    screen counts as initialized; re-enabling a running feature resets it. */
module ControllerProperties {
  import opened GuidesTypes
  import opened GuidesMarks
  import opened GuidesGallery
  import opened Controller

  /** The calls the outside world may make, including the two callbacks of
      a dispatched query, in any order and with any arguments. */
  datatype Op =
    | SetEnabledOp(enabled: bool)
    | ReconnectOp
    | UpdateViewportOp(screen: Screen)
    | SuccessOp(guides: seq<Guide>)
    | FailureOp(requestNumber: nat)
    | SetActiveGuideOp(id: string)
    | GuideSelectedOp(mark: GuideMark)
    | ClusterSelectedOp(cluster: ClusterMark, screen: Screen)
    | SetStateListenerOp(present: bool)
    | SetGalleryListenerOp(present: bool)

  function Step(c: Ctl, env: Env, op: Op): Ctl
  {
    match op
    case SetEnabledOp(b) => SetEnabled(c, env, b)
    case ReconnectOp => Reconnect(c)
    case UpdateViewportOp(s) => UpdateViewport(c, env, s)
    case SuccessOp(gs) => OnSuccess(c, env, gs)
    case FailureOp(n) => OnFailure(c, env, n)
    case SetActiveGuideOp(id) => SetActiveGuide(c, id)
    case GuideSelectedOp(m) => OnGuideSelected(c, m)
    case ClusterSelectedOp(m, s) => OnClusterSelected(c, m, s)
    case SetStateListenerOp(p) => SetStateListener(c, p)
    case SetGalleryListenerOp(p) => SetGalleryListener(c, p)
  }

  function Run(c: Ctl, env: Env, ops: seq<Op>): Ctl
    decreases |ops|
  {
    if ops == [] then c else Run(Step(c, env, ops[0]), env, ops[1..])
  }

  /** The marks on the map are those of the current guides, numbered by the
      last batch of the mark counter. */
  predicate MarksMatchGuides(c: Ctl, env: Env)
  {
    && c.nextMarkIndex >= |c.guides|
    && c.clusterMarks == ClusterMarksOf(c.guides, c.nextMarkIndex - |c.guides|)
    && c.guideMarks == GuideMarksOf(c.guides, c.nextMarkIndex - |c.guides|, env.isDownloaded)
  }

  /** Requests are numbered 1, 2, 3, ... and the counter is the last number. */
  predicate RequestsNumbered(c: Ctl)
  {
    c.requestCounter == |c.requests| &&
    forall k :: 0 <= k < |c.requests| ==> c.requests[k].number == k + 1
  }

  /** The controller invariant. */
  predicate Inv(c: Ctl, env: Env)
  {
    // The error count stays below the budget and is non-zero exactly in NetworkError.
    && c.errorRequestsCount < RequestAttemptsCount
    && (c.errorRequestsCount > 0 <==> c.state == NetworkError)
    // Guides are held only in HasData, and in NetworkError after a later failure.
    && (c.state == HasData ==> c.guides != [])
    && (c.guides != [] ==> c.state == HasData || c.state == NetworkError)
    && MarksMatchGuides(c, env)
    // Every guide drawn as a single mark has been counted as shown.
    && ShownIdsOf(c.guides) <= c.shownGuides
    && |c.selectionMarks| <= 1
    && RequestsNumbered(c)
  }

  lemma InitialInv(screen: Screen, env: Env)
    ensures Inv(Initial(screen), env)
  {
  }

  lemma RequestGuidesKeepsNumbering(c: Ctl)
    requires RequestsNumbered(c)
    ensures RequestsNumbered(RequestGuides(c))
  {
  }

  lemma UpdateGuidesMarksMatches(c: Ctl, env: Env)
    ensures MarksMatchGuides(UpdateGuidesMarks(c, env), env)
  {
    var r := UpdateGuidesMarks(c, env);
    assert r.nextMarkIndex - |r.guides| == c.nextMarkIndex;
  }

  /** Helper for Manager.GuidesManager.UpdateGuidesMarks: a rebuild is the
      projection of the guides followed by the reconciliation of the
      selection, with the field updates grouped as the method makes them. */
  lemma UpdateGuidesMarksThenSelection(c: Ctl, env: Env)
    ensures UpdateGuidesMarks(c, env) == UpdateActiveGuide(c.(
      clusterMarks := ClusterMarksOf(c.guides, c.nextMarkIndex),
      guideMarks := GuideMarksOf(c.guides, c.nextMarkIndex, env.isDownloaded)).(
      nextMarkIndex := c.nextMarkIndex + |c.guides|,
      shownGuides := c.shownGuides + ShownIdsOf(c.guides)))
  {
  }

  lemma {:induction false} SetEnabledInv(c: Ctl, env: Env, b: bool)
    requires Inv(c, env)
    ensures Inv(SetEnabled(c, env, b), env)
  {
    if (if b then Enabled else Disabled) != c.state {
      var c0 := Clear(c, env);
      UpdateGuidesMarksMatches(c.(activeGuide := "", guides := [], errorRequestsCount := 0), env);
      var c1 := ChangeState(c0, if b then Enabled else Disabled).(shownGuides := {});
      assert ShownIdsOf(c1.guides) == {};
      RequestGuidesKeepsNumbering(c1);
    }
  }

  lemma {:induction false} OnSuccessInv(c: Ctl, env: Env, gs: seq<Guide>)
    requires Inv(c, env)
    ensures Inv(OnSuccess(c, env, gs), env)
  {
    if c.state != Disabled {
      var c1 := c.(guides := gs, errorRequestsCount := 0);
      var c2 := ChangeState(c1, if gs != [] then HasData else NoData);
      UpdateGuidesMarksMatches(c2, env);
    }
  }

  /** Repeating the query when no newer one was dispatched keeps the invariant. */
  lemma RetryInv(c: Ctl, env: Env, n: nat)
    requires Inv(c, env)
    ensures Inv(if n == c.requestCounter then RequestGuides(c) else c, env)
  {
    RequestGuidesKeepsNumbering(c);
  }

  /** Giving up clears everything but the request numbering. */
  lemma GiveUpInv(c: Ctl, env: Env)
    requires RequestsNumbered(c)
    ensures Inv(ChangeState(Clear(c, env), FatalNetworkError), env)
  {
    UpdateGuidesMarksMatches(c.(activeGuide := "", guides := [], errorRequestsCount := 0), env);
  }

  /** A failure within the budget reports a network error and keeps the invariant. */
  lemma NetworkErrorInv(c: Ctl, env: Env)
    requires Inv(c, env) && c.state != Disabled && c.state != FatalNetworkError
    requires c.errorRequestsCount + 1 < RequestAttemptsCount
    ensures Inv(ChangeState(c.(errorRequestsCount := c.errorRequestsCount + 1), NetworkError), env)
  {
  }

  lemma {:induction false} OnFailureInv(c: Ctl, env: Env, n: nat)
    requires Inv(c, env)
    ensures Inv(OnFailure(c, env, n), env)
  {
    if c.state != Disabled && c.state != FatalNetworkError {
      var c1 := c.(errorRequestsCount := c.errorRequestsCount + 1);
      if c1.errorRequestsCount >= RequestAttemptsCount {
        GiveUpInv(c1, env);
        RetryInv(ChangeState(Clear(c1, env), FatalNetworkError), env, n);
      } else {
        NetworkErrorInv(c, env);
        RetryInv(ChangeState(c1, NetworkError), env, n);
      }
    }
  }

  lemma ReconnectInv(c: Ctl, env: Env)
    requires Inv(c, env)
    ensures Inv(Reconnect(c), env)
  {
    RequestGuidesKeepsNumbering(ChangeState(c, Enabled));
  }

  lemma UpdateViewportInv(c: Ctl, env: Env, s: Screen)
    requires Inv(c, env)
    ensures Inv(UpdateViewport(c, env, s), env)
  {
    RequestGuidesKeepsNumbering(c.(screen := s, zoom := s.tileScale));
  }

  lemma SetActiveGuideInv(c: Ctl, env: Env, id: string)
    requires Inv(c, env)
    ensures Inv(SetActiveGuide(c, id), env)
  {
  }

  lemma OnGuideSelectedInv(c: Ctl, env: Env, m: GuideMark)
    requires Inv(c, env)
    ensures Inv(OnGuideSelected(c, m), env)
  {
  }

  lemma ListenersInv(c: Ctl, env: Env, present: bool)
    requires Inv(c, env)
    ensures Inv(SetStateListener(c, present), env)
    ensures Inv(SetGalleryListener(c, present), env)
  {
  }

  lemma OnClusterSelectedInv(c: Ctl, env: Env, m: ClusterMark, s: Screen)
    requires Inv(c, env)
    ensures Inv(OnClusterSelected(c, m, s), env)
  {
  }

  /** Every call keeps the invariant. */
  lemma {:induction false} StepInv(c: Ctl, env: Env, op: Op)
    requires Inv(c, env)
    ensures Inv(Step(c, env, op), env)
  {
    match op
    case SetEnabledOp(b) => SetEnabledInv(c, env, b);
    case ReconnectOp => ReconnectInv(c, env);
    case UpdateViewportOp(s) => UpdateViewportInv(c, env, s);
    case SuccessOp(gs) => OnSuccessInv(c, env, gs);
    case FailureOp(n) => OnFailureInv(c, env, n);
    case SetActiveGuideOp(id) => SetActiveGuideInv(c, env, id);
    case GuideSelectedOp(m) => OnGuideSelectedInv(c, env, m);
    case ClusterSelectedOp(m, s) => OnClusterSelectedInv(c, env, m, s);
    case SetStateListenerOp(p) => ListenersInv(c, env, p);
    case SetGalleryListenerOp(p) => ListenersInv(c, env, p);
  }

  /** The invariant holds after any sequence of calls from a fresh controller. */
  lemma {:induction false} RunInv(c: Ctl, env: Env, ops: seq<Op>)
    requires Inv(c, env)
    ensures Inv(Run(c, env, ops), env)
    decreases |ops|
  {
    if ops != [] {
      StepInv(c, env, ops[0]);
      RunInv(Step(c, env, ops[0]), env, ops[1..]);
    }
  }

  /** State and emptiness agree, and a disabled controller shows no guide or
      cluster marks. */
  lemma StateMatchesData(c: Ctl, env: Env)
    requires Inv(c, env)
    ensures c.state == HasData ==> |c.guides| >= 1
    ensures c.state == NoData ==> c.guides == []
    ensures c.state == Disabled ==> c.guides == [] && c.clusterMarks == [] && c.guideMarks == []
  {
  }

  /** A controller that has given up holds an error count of 0, not 3:
      the count is reset by the clear that precedes the switch. */
  lemma FatalHasZeroErrorCount(c: Ctl, env: Env)
    requires Inv(c, env) && c.state == FatalNetworkError
    ensures c.errorRequestsCount == 0 && c.guides == []
  {
  }

  /** Failure callbacks delivered one after another, the i-th for request number ns[i]. */
  function Failures(c: Ctl, env: Env, ns: seq<nat>): Ctl
    decreases |ns|
  {
    if ns == [] then c else Failures(OnFailure(c, env, ns[0]), env, ns[1..])
  }

  /** Failed replies change nothing once the controller has given up. */
  lemma {:induction false} FailuresWhileFatal(c: Ctl, env: Env, ns: seq<nat>)
    requires c.state == FatalNetworkError
    ensures Failures(c, env, ns) == c
    decreases |ns|
  {
    if ns != [] {
      FailuresWhileFatal(c, env, ns[1..]);
    }
  }

  /** Failures that stay below the budget leave the controller in NetworkError
      with its guides, each one adding one to the error count. */
  lemma {:induction false} FailuresBelowBudget(c: Ctl, env: Env, ns: seq<nat>)
    requires c.state != Disabled && c.state != FatalNetworkError
    requires |ns| > 0 && c.errorRequestsCount + |ns| < RequestAttemptsCount
    ensures Failures(c, env, ns).state == NetworkError
    ensures Failures(c, env, ns).errorRequestsCount == c.errorRequestsCount + |ns|
    ensures Failures(c, env, ns).guides == c.guides
    decreases |ns|
  {
    if |ns| > 1 {
      FailuresBelowBudget(OnFailure(c, env, ns[0]), env, ns[1..]);
    }
  }

  /** Enough failures exhaust the budget: the controller gives up and drops its guides. */
  lemma {:induction false} FailuresExhaustBudget(c: Ctl, env: Env, ns: seq<nat>)
    requires c.state != Disabled && c.state != FatalNetworkError
    requires c.errorRequestsCount < RequestAttemptsCount <= c.errorRequestsCount + |ns|
    ensures Failures(c, env, ns).state == FatalNetworkError
    ensures Failures(c, env, ns).guides == [] && Failures(c, env, ns).errorRequestsCount == 0
    decreases |ns|
  {
    var c1 := OnFailure(c, env, ns[0]);
    if c.errorRequestsCount + 1 >= RequestAttemptsCount {
      FailuresWhileFatal(c1, env, ns[1..]);
    } else {
      FailuresExhaustBudget(c1, env, ns[1..]);
    }
  }

  /** The retry budget: from a controller with no pending error, one or two
      consecutive failures give NetworkError, three or more give up. */
  lemma RetryBudget(c: Ctl, env: Env, ns: seq<nat>)
    requires c.state != Disabled && c.state != FatalNetworkError && c.errorRequestsCount == 0
    requires |ns| > 0
    ensures |ns| < RequestAttemptsCount ==> Failures(c, env, ns).state == NetworkError
    ensures |ns| >= RequestAttemptsCount ==> Failures(c, env, ns).state == FatalNetworkError
  {
    if |ns| < RequestAttemptsCount {
      FailuresBelowBudget(c, env, ns);
    } else {
      FailuresExhaustBudget(c, env, ns);
    }
  }

  /** The third failure of the current request still repeats it: the query
      is dispatched although the controller has just given up. */
  lemma RetryAfterGivingUp(c: Ctl, env: Env)
    requires c.state != Disabled && c.state != FatalNetworkError
    requires c.errorRequestsCount == RequestAttemptsCount - 1 && ParamsInitialized(c)
    ensures OnFailure(c, env, c.requestCounter).state == FatalNetworkError
    ensures OnFailure(c, env, c.requestCounter).requests ==
      c.requests + [Request(c.requestCounter + 1, c.screen.corners, c.zoom)]
  {
  }

  /** A failure reply for an older request is not repeated once a newer one was dispatched. */
  lemma StaleFailureNotRepeated(c: Ctl, env: Env, n: nat)
    requires n != c.requestCounter
    ensures OnFailure(c, env, n).requests == c.requests
  {
  }

  /** Two failures and a success, with a state listener: it hears
      NetworkError once (the second failure is no change) and then HasData,
      and the error count ends at 0. */
  lemma TwoFailuresThenSuccess(c: Ctl, env: Env, n1: nat, n2: nat, gs: seq<Guide>)
    requires c.state == Enabled && c.errorRequestsCount == 0 && c.hasStateListener && gs != []
    ensures var r := OnSuccess(OnFailure(OnFailure(c, env, n1), env, n2), env, gs);
      r.state == HasData && r.errorRequestsCount == 0 &&
      r.stateLog == c.stateLog + [NetworkError, HasData]
  {
    var c1 := OnFailure(c, env, n1);
    var c2 := OnFailure(c1, env, n2);
    assert c1.stateLog == c.stateLog + [NetworkError];
    assert c2.stateLog == c1.stateLog;
  }

  /** A successful reply is taken even after the controller gave up. */
  lemma SuccessLeavesFatal(c: Ctl, env: Env, gs: seq<Guide>)
    requires c.state == FatalNetworkError
    ensures OnSuccess(c, env, gs).state == (if gs == [] then NoData else HasData)
  {
  }

  /** No call other than SetEnabled removes a guide from the shown set. */
  lemma StepGrowsShownGuides(c: Ctl, env: Env, op: Op)
    requires !op.SetEnabledOp?
    ensures c.shownGuides <= Step(c, env, op).shownGuides
  {
  }

  /** Over any calls without SetEnabled, the shown set never shrinks. */
  lemma {:induction false} ShownGuidesMonotone(c: Ctl, env: Env, ops: seq<Op>)
    requires forall i :: 0 <= i < |ops| ==> !ops[i].SetEnabledOp?
    ensures c.shownGuides <= Run(c, env, ops).shownGuides
    decreases |ops|
  {
    if ops != [] {
      StepGrowsShownGuides(c, env, ops[0]);
      ShownGuidesMonotone(Step(c, env, ops[0]), env, ops[1..]);
    }
  }

  /** SetEnabled(true) on a controller that is already on (but not in state
      Enabled) empties the shown set, like switching the feature off. */
  lemma ReEnablingForgetsShownGuides(c: Ctl, env: Env)
    requires c.state == HasData || c.state == NoData || c.state == NetworkError
    ensures SetEnabled(c, env, true).shownGuides == {}
    ensures SetEnabled(c, env, true).state == Enabled
  {
  }

  /** Request coalescing: once a screen has been queried for, a second
      screen similar to it dispatches nothing. */
  lemma SimilarViewportCoalesced(c: Ctl, env: Env, s1: Screen, s2: Screen)
    requires c.state != Disabled && c.state != FatalNetworkError
    requires !s1.emptyInterior && s1.tileScale != 0
    requires !(ParamsInitialized(c) && env.similar(c.screen, s1))
    requires env.similar(s1, s2)
    ensures |UpdateViewport(c, env, s1).requests| == |c.requests| + 1
    ensures UpdateViewport(UpdateViewport(c, env, s1), env, s2) == UpdateViewport(c, env, s1)
  {
  }

  /** A screen recorded while disabled counts as initialized when its
      rectangle has an empty interior, so switching on queries with it. */
  lemma EmptyScreenIsQueried(c: Ctl, env: Env, s: Screen)
    requires c.state == Disabled && s.emptyInterior
    ensures var r := SetEnabled(UpdateViewport(c, env, s), env, true);
      |r.requests| == |c.requests| + 1 && r.requests[|c.requests|].corners == s.corners
  {
  }

  /** Every mark on the map has an index up to the mark counter; since the
      next rebuild numbers its marks above the counter, every new mark
      outnumbers every mark that was there before. */
  lemma NewMarksOutnumberOld(c: Ctl, env: Env)
    requires Inv(c, env)
    ensures forall k :: 0 <= k < |c.clusterMarks| ==> c.clusterMarks[k].index <= c.nextMarkIndex
    ensures forall k :: 0 <= k < |c.guideMarks| ==> c.guideMarks[k].index <= c.nextMarkIndex
    ensures var r := UpdateGuidesMarks(c, env);
      && (forall k :: 0 <= k < |r.clusterMarks| ==> r.clusterMarks[k].index > c.nextMarkIndex)
      && (forall k :: 0 <= k < |r.guideMarks| ==> r.guideMarks[k].index > c.nextMarkIndex)
  {
    var base := c.nextMarkIndex - |c.guides|;
    ClusterMarksDescribeClusters(c.guides, base);
    GuideMarksDescribeSingles(c.guides, base, env.isDownloaded);
    ClusterMarksDescribeClusters(c.guides, c.nextMarkIndex);
    GuideMarksDescribeSingles(c.guides, c.nextMarkIndex, env.isDownloaded);
  }

  /** Selection reconciliation: after making another guide active there is
      one selection mark, at the first guide mark of that guide, iff such a
      mark is on the map, and otherwise no active guide. */
  lemma SelectionFollowsActiveGuide(c: Ctl, id: string)
    requires id != c.activeGuide
    ensures var r := SetActiveGuide(c, id);
      match FirstMarkWithId(c.guideMarks, id)
      case Some(k) => r.selectionMarks == [SelectionMark(c.guideMarks[k].point)] && r.activeGuide == id
      case None => r.selectionMarks == [] && r.activeGuide == ""
  {
  }

  /** Selecting the same guide twice changes nothing the second time. */
  lemma SetActiveGuideIdempotent(c: Ctl, id: string)
    ensures SetActiveGuide(SetActiveGuide(c, id), id) == SetActiveGuide(c, id)
  {
  }

  /** Every item of the gallery is a guide the current marks show. */
  lemma GalleryShowsMarkedGuides(c: Ctl, env: Env)
    requires Inv(c, env)
    ensures forall x :: x in GalleryOf(c.guides, |c.shownGuides|, env) ==> x.guideId in c.shownGuides
    ensures forall x :: x in GalleryOf(c.guides, |c.shownGuides|, env) ==>
      x.guideId in MarkIds(c.guideMarks)
  {
    GalleryIdsShown(c.guides, |c.shownGuides|, env);
    ShownIdsAreGuideMarkIds(c.guides, c.nextMarkIndex - |c.guides|, env.isDownloaded);
  }

  /** The catalog is asked about a download twice, at different times: a
      guide mark keeps the answer given when the marks were last rebuilt,
      while the gallery asks again whenever it is built. With `built` the
      catalog of the last rebuild and `now` the catalog of the gallery call,
      the two flags of one guide are those two answers, so they differ once
      the guide was downloaded in between. */
  lemma DownloadFlagsReadAtDifferentTimes(c: Ctl, built: Env, now: Env, x: GalleryItem, k: nat)
    requires MarksMatchGuides(c, built)
    requires x in GalleryOf(c.guides, |c.shownGuides|, now)
    requires k < |c.guideMarks| && c.guideMarks[k].guideId == x.guideId
    ensures x.downloaded == now.isDownloaded(x.guideId)
    ensures c.guideMarks[k].isDownloaded == built.isDownloaded(x.guideId)
  {
    GalleryItemsDescribeGuides(c.guides, |c.shownGuides|, now, x);
    GuideMarksDescribeSingles(c.guides, c.nextMarkIndex - |c.guides|, built.isDownloaded);
  }

  /** The rebuild the program makes: every mark drawn for a successful reply
      outnumbers every mark that was on the map before it. */
  lemma ReplyMarksOutnumberOld(c: Ctl, env: Env, gs: seq<Guide>)
    requires Inv(c, env) && c.state != Disabled
    ensures var r := OnSuccess(c, env, gs);
      && (forall j, k :: 0 <= j < |c.clusterMarks| && 0 <= k < |r.clusterMarks| ==>
            c.clusterMarks[j].index < r.clusterMarks[k].index)
      && (forall j, k :: 0 <= j < |c.clusterMarks| && 0 <= k < |r.guideMarks| ==>
            c.clusterMarks[j].index < r.guideMarks[k].index)
      && (forall j, k :: 0 <= j < |c.guideMarks| && 0 <= k < |r.clusterMarks| ==>
            c.guideMarks[j].index < r.clusterMarks[k].index)
      && (forall j, k :: 0 <= j < |c.guideMarks| && 0 <= k < |r.guideMarks| ==>
            c.guideMarks[j].index < r.guideMarks[k].index)
  {
    NewMarksOutnumberOld(c, env);
    ClusterMarksDescribeClusters(gs, c.nextMarkIndex);
    GuideMarksDescribeSingles(gs, c.nextMarkIndex, env.isDownloaded);
  }

  /** No call lowers the mark counter. */
  lemma StepKeepsMarkCounter(c: Ctl, env: Env, op: Op)
    ensures c.nextMarkIndex <= Step(c, env, op).nextMarkIndex
  {
  }

  /** Over any sequence of calls the mark counter never decreases, so indices
      are never handed out twice. */
  lemma {:induction false} MarkCounterMonotone(c: Ctl, env: Env, ops: seq<Op>)
    ensures c.nextMarkIndex <= Run(c, env, ops).nextMarkIndex
    decreases |ops|
  {
    if ops != [] {
      StepKeepsMarkCounter(c, env, ops[0]);
      MarkCounterMonotone(Step(c, env, ops[0]), env, ops[1..]);
    }
  }
}
