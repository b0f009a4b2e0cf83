/** Values shared by the guides-on-map controller: its six states, the guide
    records the catalog returns, the screens the map reports, the three kinds
    of marks the controller places and the gallery it derives. */
module GuidesTypes {

  datatype Option<T> = None | Some(value: T)

  /** The six states of the controller. */
  datatype GuidesState =
    | Disabled
    | Enabled
    | HasData
    | NoData
    | NetworkError
    | FatalNetworkError

  /** Number of consecutive failed requests after which the controller gives up. */
  const RequestAttemptsCount: nat := 3

  /** The state's name, as used in logs. */
  function DebugPrint(s: GuidesState): (r: string)
    ensures |r| >= 6
  {
    match s
    case Disabled => "Disabled"
    case Enabled => "Enabled"
    case HasData => "HasData"
    case NoData => "NoData"
    case NetworkError => "NetworkError"
    case FatalNetworkError => "FatalNetworkError"
  }

  /** Different states print differently, so a log line identifies its state. */
  lemma DebugPrintInjective(s: GuidesState, t: GuidesState)
    requires s != t
    ensures DebugPrint(s) != DebugPrint(t)
  {
    var a, b := DebugPrint(s), DebugPrint(t);
    // Only Enabled and HasData share a length; they differ in the first letter.
    assert |a| != |b| || a[0] != b[0];
  }

  /** A point in global (Mercator) coordinates. */
  datatype Point = Point(x: real, y: real)

  /** What the controller keeps of a `ScreenBase`: the four corners of its
      global rectangle, its scale, whether the local rectangle has an empty
      interior, and the draw-tile scale (zoom) the renderer derives from it.
      The last two are taken as given rather than computed from the geometry. */
  datatype Screen = Screen(corners: seq<Point>, scale: real, emptyInterior: bool, tileScale: int)

  /** The info block of a guide record. */
  datatype GuideInfo = GuideInfo(
    id: string,
    name: string,
    imageUrl: string,
    bookmarksCount: nat,
    hasTrack: bool,
    tourDuration: nat,
    tracksLength: real,
    ascent: nat,
    tag: string)

  /** One record of a catalog reply: a point with the number of sights and of
      outdoor routes bundled there. */
  datatype Guide = Guide(point: Point, sightsCount: nat, outdoorCount: nat, info: GuideInfo)

  /** A record bundling more than one guide is drawn as a cluster. */
  predicate IsCluster(g: Guide)
  {
    g.sightsCount + g.outdoorCount > 1
  }

  /** Marks of the GUIDE_CLUSTER group. */
  datatype ClusterMark = ClusterMark(point: Point, sightsCount: nat, outdoorCount: nat, index: nat)

  datatype MarkType = City | Outdoor

  /** Marks of the GUIDE group: one single guide. */
  datatype GuideMark = GuideMark(point: Point, markType: MarkType, guideId: string, isDownloaded: bool, index: nat)

  /** Marks of the GUIDE_SELECTION group. */
  datatype SelectionMark = SelectionMark(point: Point)

  /** The type-specific part of a gallery item. */
  datatype ItemParams =
    | CityParams(bookmarksCount: nat, trackIsAvailable: bool)
    | OutdoorParams(duration: nat, distance: real, ascent: nat, tag: string)

  datatype GalleryItem = GalleryItem(
    guideId: string,
    url: string,
    imageUrl: string,
    title: string,
    downloaded: bool,
    params: ItemParams)

  /** A query sent to the catalog: its number, rectangle and zoom. */
  datatype Request = Request(number: nat, corners: seq<Point>, zoom: int)

  /** A command sent to the rendering engine: scale by `factor` around the
      pivot of a cluster mark as seen on `screen`. */
  datatype ScaleCommand = ScaleCommand(factor: real, pivot: Point, screen: Screen, animated: bool)

  /** The collaborators the controller consults but does not own:
      - `similar(last, next)`: the viewport test of UpdateViewport (the scale
        has not changed by more than 11.15% and the rectangles overlap by more
        than 80%);
      - `isDownloaded(id)`: whether the bookmark catalog holds guide `id`;
      - `galleryUrl(id, n)`: the deep link for guide `id`, tagged with the
        number `n` of guides shown so far. */
  datatype Env = Env(
    similar: (Screen, Screen) -> bool,
    isDownloaded: string -> bool,
    galleryUrl: (string, nat) -> string)
}
