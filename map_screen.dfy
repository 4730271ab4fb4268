/** The places map screen as an object whose handlers update its fields. */
module MapScreen {
  import opened Places
  import opened MapModel

  class PlacesMapViewController {
    var mode: AppMode
    var buttonTitle: string
    var selectedTarget: Option<PlaceId>
    var routeShown: bool
    var annotations: set<PlaceId>
    var fetchCount: nat
    var routeRequests: nat
    var lastEffect: Effect

    /** The screen's fields as one value of the mode machine. */
    function State(): MapState
      reads this
    {
      MapState(mode, buttonTitle, selectedTarget, routeShown, annotations, fetchCount, routeRequests, lastEffect)
    }

    constructor ()
      ensures State() == Initial()
    {
      mode := Default;
      buttonTitle := RouteTitle;
      selectedTarget := None;
      routeShown := false;
      annotations := {};
      fetchCount := 0;
      routeRequests := 0;
      lastEffect := NoEffect;
    }

    /** Asks the view model to reload the places. */
    method FetchPlaces()
      modifies this
      ensures State() == MapModel.FetchPlaces(old(State()))
    {
      fetchCount := fetchCount + 1;
    }

    /** The view model drops the route response, and the response binding
        removes every annotation and overlay from the map. */
    method ClearRoute()
      modifies this
      ensures State() == MapModel.ClearRoute(old(State()))
      ensures NothingShown(State())
    {
      routeShown := false;
      annotations := {};
    }

    method SwitchAppToNormalMode()
      modifies this
      ensures State() == MapModel.SwitchAppToNormalMode(old(State()))
      ensures mode == Default && buttonTitle == RouteTitle && !routeShown
      ensures fetchCount == old(fetchCount) + 1
    {
      mode := Default;
      buttonTitle := RouteTitle;
      ClearRoute();
      FetchPlaces();
    }

    /** Handler of the build-route notification; the route computation is
        requested and its completion arrives later as RouteCompleted. */
    method BuildRoute()
      modifies this
      ensures State() == MapModel.BuildRoute(old(State()))
      ensures mode == Routing && buttonTitle == ClearRouteTitle
    {
      mode := Routing;
      buttonTitle := ClearRouteTitle;
      routeRequests := routeRequests + 1;
    }

    /** The completion of a route request: an error is shown in an alert, a
        success draws the route and puts the target's pin back. */
    method RouteCompleted(err: Option<string>)
      modifies this
      ensures State() == MapModel.RouteCompleted(old(State()), err)
      ensures mode == old(mode)
      ensures err.Some? ==> lastEffect == AlertShown(err.value)
    {
      if err.Some? {
        lastEffect := AlertShown(err.value);
      } else {
        routeShown := true;
        if selectedTarget.Some? {
          annotations := annotations + {selectedTarget.value};
        }
      }
    }

    /** Handler of the place-deleted notification. */
    method PlaceDeletedNotification(p: Option<PlaceId>)
      modifies this
      ensures State() == MapModel.PlaceDeleted(old(State()), p)
      ensures !(IsTarget(old(State()), p) && old(mode) == Routing) ==> State() == old(State())
    {
      if p.Some? && selectedTarget.Some? {
        if p.value == selectedTarget.value && mode == Routing {
          SwitchAppToNormalMode();
        }
      }
    }

    /** Handler of the center-place notification. */
    method CenterPlaceNotification(p: Option<PlaceId>, located: bool)
      modifies this
      ensures State() == MapModel.CenterPlace(old(State()), p, located)
      ensures p.Some? ==> mode == Default
      ensures p.None? ==> State() == old(State())
    {
      if p.Some? {
        if mode != Default {
          SwitchAppToNormalMode();
        }
        if located {
          lastEffect := CenteredOn(p.value);
        }
      }
    }

    /** A tap on the route bar button. */
    method RouteButtonTapped()
      modifies this
      ensures State() == MapModel.RouteButtonTapped(old(State()))
      ensures old(mode) == Default ==> lastEffect == PopoverShown && mode == Default
    {
      match mode
      case Default =>
        lastEffect := PopoverShown;
      case Routing =>
        SwitchAppToNormalMode();
    }

    method ViewWillAppear()
      modifies this
      ensures State() == MapModel.ViewWillAppear(old(State()))
      ensures old(mode) == Routing ==> State() == old(State())
    {
      if mode == Default {
        FetchPlaces();
      }
    }

    /** What the place details screen and the places popover do before they
        post the build-route notification. */
    method SelectTarget(p: Option<PlaceId>)
      modifies this
      ensures State() == MapModel.SelectTarget(old(State()), p)
    {
      selectedTarget := p;
    }

    /** The places binding adds every published place to the map. */
    method PlacesPublished(ids: set<PlaceId>)
      modifies this
      ensures State() == MapModel.PlacesPublished(old(State()), ids)
    {
      annotations := annotations + ids;
    }
  }
}
