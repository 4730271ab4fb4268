/** The application-mode state machine of the places map screen, as pure
    transitions over a snapshot of the screen's state. */
module MapModel {
  import opened Places

  datatype AppMode = Default | Routing

  const RouteTitle: string := "Route"
  const ClearRouteTitle: string := "Clear Route"

  /** The user-visible side effect most recently produced by the screen. */
  datatype Effect =
    | NoEffect
    | PopoverShown
    | AlertShown(message: string)
    | CenteredOn(place: PlaceId)

  /** mode: the screen's application mode.
      buttonTitle: the title of the route bar button.
      selectedTarget: the view model's selected target place.
      routeShown: a route response is held and its overlays are drawn.
      annotations: the place pins on the map.
      fetchCount: how many place fetches the screen has asked for.
      routeRequests: how many route computations the screen has asked for.
      lastEffect: the last popover, alert or re-centering. */
  datatype MapState = MapState(
    mode: AppMode,
    buttonTitle: string,
    selectedTarget: Option<PlaceId>,
    routeShown: bool,
    annotations: set<PlaceId>,
    fetchCount: nat,
    routeRequests: nat,
    lastEffect: Effect)

  /** The title the route button carries in a given mode. */
  function TitleFor(m: AppMode): (t: string) {
    match m
    case Default => RouteTitle
    case Routing => ClearRouteTitle
  }

  predicate TitleMatchesMode(s: MapState) {
    s.buttonTitle == TitleFor(s.mode)
  }

  /** Neither a route overlay nor a pin is on the map. */
  predicate NothingShown(s: MapState) {
    !s.routeShown && s.annotations == {}
  }

  /** The screen as it is created: browsing, nothing requested yet. */
  function Initial(): (r: MapState)
    ensures r.mode == Default && TitleMatchesMode(r) && NothingShown(r)
    ensures r.selectedTarget == None && r.fetchCount == 0 && r.routeRequests == 0
    ensures r.lastEffect == NoEffect
  {
    MapState(Default, RouteTitle, None, false, {}, 0, 0, NoEffect)
  }

  /** The view model is asked to reload the places; the reload itself is
      opaque and its result reaches the map as a PlacesPublished event. */
  function FetchPlaces(s: MapState): (r: MapState)
    ensures r.fetchCount == s.fetchCount + 1
    ensures r.(fetchCount := s.fetchCount) == s
  {
    s.(fetchCount := s.fetchCount + 1)
  }

  /** The view model drops its route response; the response binding's nil
      branch then removes every annotation and every overlay. */
  function ClearRoute(s: MapState): (r: MapState)
    ensures NothingShown(r)
    ensures r.(routeShown := s.routeShown, annotations := s.annotations) == s
  {
    s.(routeShown := false, annotations := {})
  }

  /** Leave routing: default mode, "Route" title, route cleared, places refetched. */
  function SwitchAppToNormalMode(s: MapState): (r: MapState)
    ensures r.mode == Default && r.buttonTitle == RouteTitle
    ensures NothingShown(r)
    ensures r.fetchCount == s.fetchCount + 1
    ensures r.selectedTarget == s.selectedTarget && r.routeRequests == s.routeRequests
    ensures r.lastEffect == s.lastEffect
  {
    FetchPlaces(ClearRoute(s.(mode := Default, buttonTitle := RouteTitle)))
  }

  /** The build-route notification: routing mode at once, before any result. */
  function BuildRoute(s: MapState): (r: MapState)
    ensures r.mode == Routing && r.buttonTitle == ClearRouteTitle
    ensures r.routeRequests == s.routeRequests + 1
    ensures r.(mode := s.mode, buttonTitle := s.buttonTitle, routeRequests := s.routeRequests) == s
  {
    s.(mode := Routing, buttonTitle := ClearRouteTitle, routeRequests := s.routeRequests + 1)
  }

  /** The completion of a route request; it never consults or changes the mode. */
  function RouteCompleted(s: MapState, err: Option<string>): (r: MapState)
    ensures r.mode == s.mode && r.buttonTitle == s.buttonTitle
    ensures r.selectedTarget == s.selectedTarget
    ensures r.fetchCount == s.fetchCount && r.routeRequests == s.routeRequests
    ensures err.Some? ==> r == s.(lastEffect := AlertShown(err.value))
    ensures err.None? ==> r.routeShown && r.lastEffect == s.lastEffect
    ensures err.None? ==>
              r.annotations == (if s.selectedTarget.Some? then s.annotations + {s.selectedTarget.value}
                                else s.annotations)
  {
    match err
    case Some(message) => s.(lastEffect := AlertShown(message))
    case None =>
      var pins := match s.selectedTarget
        case Some(t) => s.annotations + {t}
        case None => s.annotations;
      s.(routeShown := true, annotations := pins)
  }

  /** The deleted place is the current target: both are present and equal. */
  predicate IsTarget(s: MapState, p: Option<PlaceId>) {
    p.Some? && s.selectedTarget == p
  }

  /** The place-deleted notification; `p` is None when the notification
      carries no place, and then nothing happens. */
  function PlaceDeleted(s: MapState, p: Option<PlaceId>): (r: MapState)
    ensures IsTarget(s, p) && s.mode == Routing ==> r == SwitchAppToNormalMode(s)
    ensures !(IsTarget(s, p) && s.mode == Routing) ==> r == s
    ensures r.mode == Routing <==> s.mode == Routing && !IsTarget(s, p)
  {
    if IsTarget(s, p) && s.mode == Routing then SwitchAppToNormalMode(s) else s
  }

  /** The center-place notification; `p` is None when the notification
      carries no place, and then nothing happens. `located` says whether the
      place has a location, the only case in which the map is re-centered. */
  function CenterPlace(s: MapState, p: Option<PlaceId>, located: bool): (r: MapState)
    ensures p.None? ==> r == s
    ensures p.Some? ==> r.mode == Default
    ensures p.Some? && s.mode == Default ==>
              r.fetchCount == s.fetchCount && r.annotations == s.annotations && r.routeShown == s.routeShown
    ensures p.Some? && s.mode == Routing ==>
              NothingShown(r) && r.fetchCount == s.fetchCount + 1 && r.buttonTitle == RouteTitle
    ensures p.Some? ==> r.lastEffect == if located then CenteredOn(p.value) else s.lastEffect
    ensures p.Some? ==>
              r.(lastEffect := s.lastEffect) == if s.mode == Routing then SwitchAppToNormalMode(s) else s
  {
    match p
    case None => s
    case Some(place) =>
      var normal := if s.mode != Default then SwitchAppToNormalMode(s) else s;
      if located then normal.(lastEffect := CenteredOn(place)) else normal
  }

  /** A tap on the route bar button. */
  function RouteButtonTapped(s: MapState): (r: MapState)
    ensures s.mode == Default ==> r == s.(lastEffect := PopoverShown)
    ensures s.mode == Routing ==> r == SwitchAppToNormalMode(s)
    ensures r.mode == Default
  {
    match s.mode
    case Default => s.(lastEffect := PopoverShown)
    case Routing => SwitchAppToNormalMode(s)
  }

  /** The screen is about to appear: places are refetched only while browsing. */
  function ViewWillAppear(s: MapState): (r: MapState)
    ensures s.mode == Default ==> r == FetchPlaces(s)
    ensures s.mode == Routing ==> r == s
  {
    if s.mode == Default then FetchPlaces(s) else s
  }

  /** A caller (the place details screen or the places popover) chooses the
      route target before posting the build-route notification; the details
      screen's place is optional, so the target can be set back to None. */
  function SelectTarget(s: MapState, p: Option<PlaceId>): (r: MapState)
    ensures r.selectedTarget == p
    ensures r.(selectedTarget := s.selectedTarget) == s
  {
    s.(selectedTarget := p)
  }

  /** The places binding: every published place is added to the map. */
  function PlacesPublished(s: MapState, ids: set<PlaceId>): (r: MapState)
    ensures r.annotations == s.annotations + ids
    ensures r.(annotations := s.annotations) == s
  {
    s.(annotations := s.annotations + ids)
  }

  /** Everything that can happen to the screen, one event at a time. */
  datatype Event =
    | SelectTargetEvent(target: Option<PlaceId>)
    | BuildRouteEvent
    | RouteCompletedEvent(error: Option<string>)
    | PlaceDeletedEvent(deleted: Option<PlaceId>)
    | CenterPlaceEvent(center: Option<PlaceId>, located: bool)
    | RouteButtonTapEvent
    | ViewWillAppearEvent
    | PlacesPublishedEvent(ids: set<PlaceId>)

  function Step(s: MapState, e: Event): (r: MapState) {
    match e
    case SelectTargetEvent(p) => SelectTarget(s, p)
    case BuildRouteEvent => BuildRoute(s)
    case RouteCompletedEvent(err) => RouteCompleted(s, err)
    case PlaceDeletedEvent(p) => PlaceDeleted(s, p)
    case CenterPlaceEvent(p, located) => CenterPlace(s, p, located)
    case RouteButtonTapEvent => RouteButtonTapped(s)
    case ViewWillAppearEvent => ViewWillAppear(s)
    case PlacesPublishedEvent(ids) => PlacesPublished(s, ids)
  }

  /** The state after the events of `evs`, in order. */
  function Run(s: MapState, evs: seq<Event>): (r: MapState)
    decreases |evs|
  {
    if evs == [] then s else Step(Run(s, evs[..|evs| - 1]), evs[|evs| - 1])
  }
}
