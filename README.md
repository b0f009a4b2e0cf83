# Guides on the map: the GuidesManager controller

This project models `GuidesManager` from `map/guides_manager.cpp`. That class controls the "guides on the map" layer:

- It moves between six states: Disabled, Enabled, HasData, NoData, NetworkError and FatalNetworkError.
- It queries the guides catalog for the visible rectangle and repeats a failed query when no newer one was sent. The third failure in a row makes it give up, and the failed query is still repeated once more.
- It draws the returned guides as cluster marks and single guide marks, with ever-growing indices.
- It remembers which guides have been shown.
- It keeps one selection mark on the active guide.
- It derives the gallery of single guides.

The model has three layers.

- **Values** (`GuidesTypes`, `GuidesMarks`, `GuidesGallery`):
  - the states and the guide, mark, request and gallery records;
  - the projection of a catalog reply onto mark groups;
  - the lookup of the active guide's mark;
  - the gallery.
- **Controller** (`Controller`, `ControllerProperties`):
  - Everything the class keeps is one value, `Ctl`. It also holds ghost logs of what the class tells the outside world: states sent to the state listener, `reload` flags sent to the gallery listener, catalog queries dispatched, and scale commands sent to the renderer.
  - Each operation is a function from `Ctl` to `Ctl`, whose contract states its effect.
  - `ControllerProperties` proves an invariant kept by every call and by every sequence of calls (`Op`, `Step`, `Run`), the retry budget, the monotone shown-guides set, request coalescing, the reconciliation of the selection, and mark numbering.
- **Class** (`Manager.GuidesManager`):
  - The fields are those of the source, and the methods assign them. The search loop of `UpdateActiveGuide` runs over the fields themselves. The loop of `UpdateGuidesMarks` runs in `ProjectMarks` on local copies: the source raises `m_nextMarkIndex` and adds to `m_shownGuides` on each pass (lines 274 and 283-284), while the model writes the counter, the shown set and the two mark groups back once after the loop (`SetMarkGroups`, `SetProjectionCounters`).
  - The asynchronous catalog API becomes two methods, `OnSuccess` and `OnFailure`. The environment may call them at any time and in any order.
  - Every method that stands for a function of the source ensures `Abs() == Controller.X(old(Abs()), …)`. The public ones also keep `Valid()`, which is the controller invariant.
  - `ProjectMarks`, `SetMarkGroups`, `SetProjectionCounters` and `TakeReply` are steps of such a method with no counterpart in the source. `ProjectMarks` returns the projection and changes nothing. The other three state their new fields directly.

The class's read-only members read its fields: `GetState`, `IsEnabled`, `GetActiveGuide`, `GetShownGuidesCount`, `IsRequestParamsInitialized` and `GetGallery`. Each one's contract ties it to the controller value or to a property proved of `Controller` and `GuidesGallery`.

Everything outside the class is a parameter `env: Env` of total functions:

- `similar(last, next)` is the viewport test of lines 55-70.
- `isDownloaded(id)` is the bookmark catalog's download check.
- `galleryUrl(id, shownCount)` is the gallery deep link.

The zoom (`tileScale`) and the empty-interior flag of a screen are given fields of `Screen`.

The model follows the code as written, including these places where it does not do what the names and comments around it suggest:

- `IsRequestParamsInitialized` is `emptyInterior || zoom != 0` exactly as written (line 326). A screen whose rectangle has an empty interior therefore counts as initialized (`ControllerProperties.EmptyScreenIsQueried`).
- `Clear` resets the error count before the switch to FatalNetworkError. A controller that has given up therefore has error count 0, not 3 (`ControllerProperties.FatalHasZeroErrorCount`).
- The retry at lines 164-165 also runs after the third failure has just made the controller give up (`ControllerProperties.RetryAfterGivingUp`).
- A success callback is discarded only in Disabled, not in FatalNetworkError (line 133, `ControllerProperties.SuccessLeavesFatal`).
- `SetEnabled(true)` from HasData, NoData or NetworkError compares against the state Enabled. It is therefore not a no-op: it clears, empties the shown set and queries again (`ControllerProperties.ReEnablingForgetsShownGuides`).

## Model

| member | source | states |
|---|---|---|
| GuidesTypes.DebugPrint | map/guides_manager.cpp:329-341 | every state's name is at least six characters long |
| GuidesTypes.DebugPrintInjective | map/guides_manager.cpp:329-341 | different states print differently |
| GuidesMarks.FirstMarkWithId | map/guides_manager.cpp:311-320 | the position found holds a mark with the id and no earlier mark has it; None means no mark has it |
| GuidesMarks.ClusterMarksDescribeClusters | map/guides_manager.cpp:268-275 | one cluster mark per record with more than one guide: its counts and point are that record's, its index is base + position + 1, and indices increase |
| GuidesMarks.GuideMarksDescribeSingles | map/guides_manager.cpp:276-285 | one guide mark per other record: its point, id and download flag are that record's, it is City iff the record has a sight, its index is base + position + 1, and indices increase |
| GuidesMarks.EveryClusterMarked | map/guides_manager.cpp:270-275 | every cluster record gets a cluster mark, indexed by its position |
| GuidesMarks.EverySingleMarked | map/guides_manager.cpp:276-285 | every single record gets a guide mark, indexed by its position |
| GuidesMarks.ClusterMarksAppend | map/guides_manager.cpp:268-286 | projecting two batches with the counter carried over equals projecting their concatenation (cluster marks) |
| GuidesMarks.GuideMarksAppend | map/guides_manager.cpp:268-286 | the same for guide marks |
| GuidesMarks.MarkIndicesDistinct | map/guides_manager.cpp:274-283 | a cluster mark and a guide mark of one batch never share an index |
| GuidesMarks.ShownIdsAreGuideMarkIds | map/guides_manager.cpp:281-284 | the ids added to the shown set are exactly the ids the new guide marks carry |
| GuidesMarks.ShownIdsAreSingles | map/guides_manager.cpp:268-286 | the ids added to the shown set are exactly those of the records that are not clusters |
| GuidesGallery.GalleryItemOf | map/guides_manager.cpp:186-214 | an Outdoor item comes from a record with one outdoor route and no sight; a City item from one with one sight and no route |
| GuidesGallery.GalleryOf | map/guides_manager.cpp:178-220 | the gallery has at most one item per record |
| GuidesGallery.GalleryAppend | map/guides_manager.cpp:181-217 | the gallery of a concatenation is the concatenation of the galleries, so item order follows record order |
| GuidesGallery.GalleryOfOne | map/guides_manager.cpp:183-216 | a one-record reply lists its record iff the record bundles exactly one guide |
| GuidesGallery.GalleryMembership | map/guides_manager.cpp:181-217 | an item is in the gallery iff it is the item of a record bundling exactly one guide |
| GuidesGallery.GalleryIdsShown | map/guides_manager.cpp:181-217 | every gallery item's guide is among those the same reply adds to the shown set |
| GuidesGallery.GalleryItemsDescribeGuides | map/guides_manager.cpp:189-214 | each item's URL is built from its own id and the shown count, its download flag is the catalog's, and it is City iff its record holds the one sight |
| Controller.ChangeState | map/guides_manager.cpp:115-122 | the new state is set; changing to the current state changes nothing; otherwise the listener, if set, hears exactly the new state; nothing else changes |
| Controller.SetStateListener | map/guides_manager.cpp:32-37 | a registered listener hears the current state exactly once; nothing else changes |
| Controller.SetGalleryListener | map/guides_manager.cpp:238-241 | only the gallery listener changes |
| Controller.RequestGuides | map/guides_manager.cpp:124-131 | the counter grows by one and a query with that number, the recorded corners and the zoom is dispatched iff the parameters are initialized; without them nothing changes, and with them nothing else changes |
| Controller.IsEnabled | map/guides_manager.cpp:110-113 | the feature counts as on in every state but Disabled, FatalNetworkError included |
| Controller.ParamsInitialized | map/guides_manager.cpp:324-327 | a screen with an empty interior always counts as initialized; any other counts iff the zoom is non-zero |
| Controller.UpdateActiveGuide | map/guides_manager.cpp:307-322 | the selection is exactly one mark at the point of the first guide mark carrying the active id, and the active id is kept; with no such mark there is no selection and the active guide becomes empty; nothing else changes |
| Controller.UpdateGuidesMarks | map/guides_manager.cpp:263-288 | the mark groups are the projection of the guides numbered on from the counter; the counter grows by the number of guides; the shown set grows by the ids of the single guides; the selection is one mark at the first new guide mark carrying the active id, or none with the active guide emptied; every other field is kept |
| Controller.Clear | map/guides_manager.cpp:169-176 | guides, active guide, error count and all three mark groups are emptied; every other field (state, mark counter, shown set, screen, zoom, listeners, requests and all logs) is kept |
| Controller.SetEnabled | map/guides_manager.cpp:94-108 | afterwards the feature is on iff `enabled`; to the state already held: no change; otherwise the new state is Enabled or Disabled and the state listener, if any, hears it; guides, active guide, error count and all three mark groups are emptied and the shown set too; the query log is kept and gains Request(counter + 1, recorded corners, zoom), with the counter raised by one, iff switched on with initialized parameters; every other field (mark counter, screen, zoom, listeners, gallery log) is kept |
| Controller.Reconnect | map/guides_manager.cpp:85-92 | no change unless given up; from FatalNetworkError the state becomes Enabled and the state listener, if any, hears Enabled; the query log gains Request(counter + 1, recorded corners, zoom), with the counter raised by one, iff the parameters are initialized; every other field is kept |
| Controller.UpdateViewport | map/guides_manager.cpp:39-78 | in Disabled or Fatal only the screen and zoom are recorded; an empty-interior screen, or one similar to the recorded one once initialized, changes nothing; any other screen is recorded and queried for, with the counter raised by one, iff its zoom is non-zero; no call changes anything but the screen, zoom, request counter and query log |
| Controller.OnSuccess | map/guides_manager.cpp:132-148 | in Disabled no change; otherwise the reply replaces the guides, the error count is 0, HasData iff the reply is non-empty and NoData iff empty, and the state listener hears the new state iff it changed; the marks are the reply's projection, the mark counter grows by the reply's length, the shown set grows by its single ids, the selection follows the first new guide mark of the active id (or is emptied with the active guide), the gallery listener hears `true`; the request counter, query log and every other field are kept |
| Controller.OnFailure | map/guides_manager.cpp:149-166 | in Disabled or Fatal no change; otherwise at the budget the guides and all three mark groups are emptied with an empty active guide, error count 0 and state Fatal, and below it the count grows by one, the state is NetworkError and guides, marks, selection and active guide are kept; the state listener hears the new state iff it changed; the query log gains Request(counter + 1, recorded corners, zoom), with the counter raised by one, iff the number is the current one and the parameters are initialized; mark counter, shown set, screen, listeners and gallery log are kept |
| Controller.SetActiveGuide | map/guides_manager.cpp:224-231 | the same id changes nothing; another id yields one selection mark iff a guide mark carries it, and otherwise an empty active guide; nothing but the selection and the active guide changes |
| Controller.OnGuideSelected | map/guides_manager.cpp:296-305 | exactly one selection mark, at the tapped mark; the active guide is its id; the gallery listener hears `false`; nothing else changes |
| Controller.OnClusterSelected | map/guides_manager.cpp:290-294 | one animated scale-by-2 command around the cluster is sent; nothing else changes |
| ControllerProperties.RequestGuidesKeepsNumbering | map/guides_manager.cpp:129-131 | dispatched queries stay numbered 1, 2, 3, … with the counter as the last number |
| ControllerProperties.UpdateGuidesMarksMatches | map/guides_manager.cpp:263-288 | after a rebuild, the marks are the projection of the current guides from the previous counter |
| ControllerProperties.SetEnabledInv | map/guides_manager.cpp:94-108 | SetEnabled keeps the controller invariant |
| ControllerProperties.OnSuccessInv | map/guides_manager.cpp:132-148 | the success callback keeps the invariant |
| ControllerProperties.RetryInv | map/guides_manager.cpp:163-165 | repeating the current query keeps the invariant |
| ControllerProperties.GiveUpInv | map/guides_manager.cpp:153-157 | giving up yields a controller satisfying the invariant from any one whose queries are numbered |
| ControllerProperties.NetworkErrorInv | map/guides_manager.cpp:158-161 | a failure within the budget keeps the invariant |
| ControllerProperties.OnFailureInv | map/guides_manager.cpp:149-166 | the failure callback keeps the invariant |
| ControllerProperties.ReconnectInv | map/guides_manager.cpp:85-92 | Reconnect keeps the invariant |
| ControllerProperties.UpdateViewportInv | map/guides_manager.cpp:39-78 | UpdateViewport keeps the invariant |
| ControllerProperties.SetActiveGuideInv | map/guides_manager.cpp:224-231 | SetActiveGuide keeps the invariant |
| ControllerProperties.OnGuideSelectedInv | map/guides_manager.cpp:296-305 | OnGuideSelected keeps the invariant |
| ControllerProperties.ListenersInv | map/guides_manager.cpp:32-37 | registering either listener keeps the invariant |
| ControllerProperties.OnClusterSelectedInv | map/guides_manager.cpp:290-294 | a cluster tap keeps the invariant |
| ControllerProperties.StepInv | map/guides_manager.cpp:32-322 | every call, with any arguments, keeps the invariant: error count below 3 and non-zero exactly in NetworkError; guides only in HasData or NetworkError; marks are the projection of the guides; their single ids are shown; at most one selection mark; queries numbered 1, 2, 3, … |
| ControllerProperties.RunInv | map/guides_manager.cpp:32-322 | the invariant holds after any sequence of calls |
| ControllerProperties.StateMatchesData | map/guides_manager.cpp:132-148 | HasData holds guides, NoData none, and a disabled controller holds no guides, no cluster marks and no guide marks |
| ControllerProperties.FatalHasZeroErrorCount | map/guides_manager.cpp:153-173 | a controller that has given up has no guides and error count 0 |
| ControllerProperties.FailuresWhileFatal | map/guides_manager.cpp:150-151 | failures change nothing after giving up |
| ControllerProperties.FailuresBelowBudget | map/guides_manager.cpp:153-161 | failures that stay below the budget leave NetworkError, the guides, and the count raised by their number |
| ControllerProperties.FailuresExhaustBudget | map/guides_manager.cpp:153-157 | failures reaching the budget end in FatalNetworkError with no guides and count 0 |
| ControllerProperties.RetryBudget | map/guides_manager.cpp:149-166 | from a fresh count, one or two consecutive failures give NetworkError, three or more give FatalNetworkError |
| ControllerProperties.RetryAfterGivingUp | map/guides_manager.cpp:153-165 | the third failure of the current query gives up and still dispatches the query Request(counter + 1, recorded corners, zoom) |
| ControllerProperties.StaleFailureNotRepeated | map/guides_manager.cpp:163-165 | the failure of an older query dispatches nothing |
| ControllerProperties.TwoFailuresThenSuccess | map/guides_manager.cpp:132-166 | failure, failure, success: the listener hears NetworkError once then HasData, and the count ends at 0 |
| ControllerProperties.SuccessLeavesFatal | map/guides_manager.cpp:132-142 | a reply delivered after giving up is taken: the state becomes HasData or NoData |
| ControllerProperties.StepGrowsShownGuides | map/guides_manager.cpp:263-288 | no call other than SetEnabled removes a shown guide |
| ControllerProperties.ShownGuidesMonotone | map/guides_manager.cpp:263-288 | over any calls without SetEnabled the shown set never shrinks |
| ControllerProperties.ReEnablingForgetsShownGuides | map/guides_manager.cpp:96-102 | SetEnabled(true) from HasData, NoData or NetworkError empties the shown set and yields Enabled |
| ControllerProperties.SimilarViewportCoalesced | map/guides_manager.cpp:53-77 | a queried screen dispatches one query, and a second screen similar to it changes nothing |
| ControllerProperties.EmptyScreenIsQueried | map/guides_manager.cpp:324-327 | a screen with an empty interior recorded while disabled is queried for when the feature is switched on |
| ControllerProperties.NewMarksOutnumberOld | map/guides_manager.cpp:274-283 | under the invariant every mark is indexed at most the counter, and every mark a rebuild from that counter draws is indexed above it |
| ControllerProperties.ReplyMarksOutnumberOld | map/guides_manager.cpp:132-148 | every cluster and guide mark drawn for a successful reply has a larger index than every cluster and guide mark on the map before it |
| ControllerProperties.StepKeepsMarkCounter | map/guides_manager.cpp:263-288 | no call lowers the mark counter |
| ControllerProperties.MarkCounterMonotone | map/guides_manager.cpp:263-288 | over any sequence of calls the mark counter never decreases |
| ControllerProperties.SelectionFollowsActiveGuide | map/guides_manager.cpp:307-322 | after making another guide active, the one selection mark sits at the first guide mark carrying its id, or there is none and the active guide is empty |
| ControllerProperties.SetActiveGuideIdempotent | map/guides_manager.cpp:224-231 | selecting the same guide twice equals selecting it once |
| ControllerProperties.GalleryShowsMarkedGuides | map/guides_manager.cpp:178-220 | under the invariant, every gallery item's guide is shown and carried by a guide mark on the map |
| ControllerProperties.DownloadFlagsReadAtDifferentTimes | map/guides_manager.cpp:199 | a guide mark carries the catalog's download answer from the last rebuild (line 282), a gallery item the answer at the time of the gallery call, so the two differ once the guide was downloaded in between |
| Manager.GuidesManager.SetStateListener | map/guides_manager.cpp:32-37 | the fields become Controller.SetStateListener of the old ones; the invariant is kept |
| Manager.GuidesManager.SetGalleryListener | map/guides_manager.cpp:238-241 | the fields become Controller.SetGalleryListener of the old ones; the invariant is kept |
| Manager.GuidesManager.ChangeState | map/guides_manager.cpp:115-122 | the fields become Controller.ChangeState of the old ones |
| Manager.GuidesManager.RequestGuides | map/guides_manager.cpp:124-131 | the fields become Controller.RequestGuides of the old ones |
| Manager.GuidesManager.UpdateActiveGuide | map/guides_manager.cpp:307-322 | the search loop over the guide marks gives Controller.UpdateActiveGuide of the old fields |
| Manager.GuidesManager.ProjectMarks | map/guides_manager.cpp:268-286 | the loop over the guides yields exactly the projected cluster marks, guide marks, counter and shown set |
| Manager.GuidesManager.UpdateGuidesMarks | map/guides_manager.cpp:263-288 | the fields become Controller.UpdateGuidesMarks of the old ones |
| Manager.GuidesManager.Clear | map/guides_manager.cpp:169-176 | the fields become Controller.Clear of the old ones |
| Manager.GuidesManager.SetEnabled | map/guides_manager.cpp:94-108 | the fields become Controller.SetEnabled of the old ones; the invariant is kept |
| Manager.GuidesManager.Reconnect | map/guides_manager.cpp:85-92 | the fields become Controller.Reconnect of the old ones; the invariant is kept |
| Manager.GuidesManager.UpdateViewport | map/guides_manager.cpp:39-78 | the fields become Controller.UpdateViewport of the old ones; the invariant is kept |
| Manager.GuidesManager.OnSuccess | map/guides_manager.cpp:132-148 | the fields become Controller.OnSuccess of the old ones; the invariant is kept |
| Manager.GuidesManager.TakeReply | map/guides_manager.cpp:136-142 | the reply replaces the guides, the error count is 0, and the state changes to HasData or NoData as Controller.ChangeState says |
| Manager.GuidesManager.OnFailure | map/guides_manager.cpp:149-166 | the fields become Controller.OnFailure of the old ones; the invariant is kept |
| Manager.GuidesManager.SetActiveGuide | map/guides_manager.cpp:224-231 | the fields become Controller.SetActiveGuide of the old ones; the invariant is kept |
| Manager.GuidesManager.OnGuideSelected | map/guides_manager.cpp:296-305 | the fields become Controller.OnGuideSelected of the old ones; the invariant is kept |
| Manager.GuidesManager.OnClusterSelected | map/guides_manager.cpp:290-294 | the fields become Controller.OnClusterSelected of the old ones; the invariant is kept |
| Manager.GuidesManager.constructor | map/guides_manager.cpp:27-30 | the new manager is Controller.Initial of the given screen, so GetState first reports Disabled, with no guides, counters 0, zoom 0 and no listeners; it satisfies the invariant (the defaults are the header's, which is not part of this model) |
| Manager.GuidesManager.GetState | map/guides_manager.cpp:27-30 | it is the controller's state; under the invariant, HasData comes with guides, and NoData and Disabled with none |
| Manager.GuidesManager.IsEnabled | map/guides_manager.cpp:110-113 | it is Controller.IsEnabled of the fields: on in every state but Disabled |
| Manager.GuidesManager.GetActiveGuide | map/guides_manager.cpp:222 | it is the controller's active guide, the one SetActiveGuide, UpdateActiveGuide and OnGuideSelected maintain |
| Manager.GuidesManager.GetShownGuidesCount | map/guides_manager.cpp:233-236 | it is the number of distinct guides in the shown set |
| Manager.GuidesManager.IsRequestParamsInitialized | map/guides_manager.cpp:324-327 | it is Controller.ParamsInitialized of the fields: empty interior, or a non-zero zoom |
| Manager.GuidesManager.GetGallery | map/guides_manager.cpp:178-220 | it is GalleryOf the current guides and shown count, so its items, order, URLs and payloads are those GalleryAppend, GalleryOfOne, GalleryMembership and GalleryItemsDescribeGuides give; every item's guide is in the shown set and carried by a guide mark on the map; each item's download flag is the catalog's answer now |

## Left out

- The viewport similarity test (lines 55-70) is left out: the scale ratio against 0.1115 and the rectangle intersection score against 0.8 are floating-point geometry. It is the parameter `env.similar`.
- `df::GetDrawTileScale` and the `ScreenBase` geometry are left out. The zoom and the empty-interior flag are given fields of `Screen`.
- `OnClusterSelected` does not call the rendering engine. It appends the command to a ghost log, and the pixel pivot `screen.GtoP(...)` is recorded as the mark's point together with the screen.
- The gallery URL construction (lines 191-194: catalog URL, language, UTM tags) is left out. It is the parameter `env.galleryUrl(id, shownCount)`.
- `IsGuideDownloaded` (lines 258-261) asks the bookmark catalog. It is the parameter `env.isDownloaded`.
- The asynchrony of the catalog API is left out. Its two callbacks are the methods `OnSuccess` and `OnFailure`, callable at any time.
- Edit-session batching in the bookmark manager is left out. Mark groups are sequences written at once. The model assumes two things this file does not show: marks created in the current edit session are visible at once to the mark lookup of `UpdateActiveGuide` (line 311), and marks removed by `ClearGroup` (lines 266-267) are gone from `GetUserMarkIds` at once.
- The wiring setters `SetBookmarkManager`, `SetDrapeEngine` and `SetApiDelegate` (lines 243-256) only store collaborators, so they are left out.
- `Invalidate` (lines 80-83) is an empty TODO and is left out.
- Listeners are modelled by whether one is registered. What they hear is logged, and a listener that calls back into the manager is not modelled.
- The order of `GetUserMarkIds` (line 311) is not fixed by this file. The model assumes the creation order of the guide marks, so `UpdateActiveGuide` selects the first-created mark carrying the active id. If the bookmark manager returns the newest mark first, the source selects the last-created one instead. The two agree whenever at most one guide mark carries the id.
- The catalog's answers are fixed for the manager's lifetime: `env` is a constant of the class, so `similar`, `isDownloaded` and `galleryUrl` cannot change between calls. The source asks the catalog about downloads when it rebuilds the marks (line 282) and again whenever the gallery is built (line 199), so after a download the map mark and the gallery item disagree until the next rebuild. The model's invariant (`MarksMatchGuides`) holds only because the catalog does not change; `ControllerProperties.DownloadFlagsReadAtDifferentTimes` states what each flag is read from.
- `requestCounter`, `nextMarkIndex` and `errorRequestsCount` are unbounded natural numbers. Their C++ widths are declared in the header, which is not part of this model, so wrap-around is not modelled; `ControllerProperties.NewMarksOutnumberOld` relies on the mark counter never wrapping.
- Manager.GuidesManager.constructor: the header is not part of this model. The defaults assumed are state Disabled, all counters 0, zoom 0 and no listeners, with the initial screen as a parameter.
- GuidesTypes.DebugPrint: its contract states only the names' length. The names themselves are its body, and their distinctness is `DebugPrintInjective`.
