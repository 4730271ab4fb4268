/** Properties of the map screen's mode machine over single events and over
    whole event histories. */
module MapProperties {
  import opened Places
  import opened MapModel

  /** The route target after a history: the last one a caller selected. */
  function TargetAfter(t0: Option<PlaceId>, evs: seq<Event>): (t: Option<PlaceId>)
    decreases |evs|
  {
    if evs == [] then t0
    else match evs[|evs| - 1]
      case SelectTargetEvent(p) => p
      case _ => TargetAfter(t0, evs[..|evs| - 1])
  }

  /** The events that end routing: a route-button tap, a center request that
      carries a place, or the deletion of the current target. */
  predicate EndsRouting(e: Event, target: Option<PlaceId>) {
    e.RouteButtonTapEvent? || (e.CenterPlaceEvent? && e.center.Some?)
    || (e.PlaceDeletedEvent? && e.deleted.Some? && target == e.deleted)
  }

  /** No event of `evs` from position k on ends routing. */
  ghost predicate NoEndFrom(t0: Option<PlaceId>, evs: seq<Event>, k: nat) {
    forall j :: k <= j < |evs| ==> !EndsRouting(evs[j], TargetAfter(t0, evs[..j]))
  }

  /** The screen is routing after `evs` when some build-route request was not
      followed by an event that ends routing, or when it started out routing
      and nothing ended that. */
  ghost predicate RoutingByHistory(m0: AppMode, t0: Option<PlaceId>, evs: seq<Event>) {
    (exists i :: 0 <= i < |evs| && evs[i] == BuildRouteEvent && NoEndFrom(t0, evs, i + 1))
    || (m0 == Routing && NoEndFrom(t0, evs, 0))
  }

  /** Only the selection of a target changes the selected target. */
  lemma {:induction false} RunSelectedTarget(s: MapState, evs: seq<Event>)
    ensures Run(s, evs).selectedTarget == TargetAfter(s.selectedTarget, evs)
    decreases |evs|
  {
    if evs != [] {
      RunSelectedTarget(s, evs[..|evs| - 1]);
    }
  }

  /** One event makes the screen routing exactly when it is a build-route
      request, or the screen was routing and the event does not end it. */
  lemma StepMode(s: MapState, e: Event)
    ensures Step(s, e).mode == Routing <==>
              e == BuildRouteEvent || (s.mode == Routing && !EndsRouting(e, s.selectedTarget))
  {
  }

  lemma NoEndFromSnoc(t0: Option<PlaceId>, evs: seq<Event>, k: nat)
    requires k < |evs|
    ensures NoEndFrom(t0, evs, k) <==>
              NoEndFrom(t0, evs[..|evs| - 1], k)
              && !EndsRouting(evs[|evs| - 1], TargetAfter(t0, evs[..|evs| - 1]))
  {
    var pre := evs[..|evs| - 1];
    forall j | 0 <= j < |pre|
      ensures evs[j] == pre[j] && evs[..j] == pre[..j]
    {
    }
  }

  lemma HistorySnoc(m0: AppMode, t0: Option<PlaceId>, evs: seq<Event>)
    requires evs != []
    ensures RoutingByHistory(m0, t0, evs) <==>
              evs[|evs| - 1] == BuildRouteEvent
              || (RoutingByHistory(m0, t0, evs[..|evs| - 1])
                  && !EndsRouting(evs[|evs| - 1], TargetAfter(t0, evs[..|evs| - 1])))
  {
    var n := |evs|;
    var pre, e := evs[..n - 1], evs[n - 1];
    var ends := EndsRouting(e, TargetAfter(t0, pre));
    if e == BuildRouteEvent {
      assert NoEndFrom(t0, evs, n);
    } else {
      NoEndFromSnoc(t0, evs, 0);
      if RoutingByHistory(m0, t0, evs) {
        if m0 == Routing && NoEndFrom(t0, evs, 0) {
        } else {
          var i :| 0 <= i < n && evs[i] == BuildRouteEvent && NoEndFrom(t0, evs, i + 1);
          assert i < n - 1;
          NoEndFromSnoc(t0, evs, i + 1);
          assert pre[i] == BuildRouteEvent;
        }
      }
      if RoutingByHistory(m0, t0, pre) && !ends {
        if m0 == Routing && NoEndFrom(t0, pre, 0) {
        } else {
          var i :| 0 <= i < n - 1 && pre[i] == BuildRouteEvent && NoEndFrom(t0, pre, i + 1);
          NoEndFromSnoc(t0, evs, i + 1);
          assert evs[i] == BuildRouteEvent;
        }
      }
    }
  }

  /** After any history the screen is routing exactly when the last build-route
      request has not been followed by an event that ends routing (or, with no
      such request, when it started routing and nothing ended it). */
  lemma {:induction false} RunMode(s: MapState, evs: seq<Event>)
    ensures Run(s, evs).mode == Routing <==> RoutingByHistory(s.mode, s.selectedTarget, evs)
    decreases |evs|
  {
    if evs == [] {
      assert NoEndFrom(s.selectedTarget, evs, 0);
    } else {
      var pre := evs[..|evs| - 1];
      RunMode(s, pre);
      RunSelectedTarget(s, pre);
      StepMode(Run(s, pre), evs[|evs| - 1]);
      HistorySnoc(s.mode, s.selectedTarget, evs);
    }
  }

  /** The route button's title always matches the mode. */
  lemma {:induction false} RunKeepsTitle(s: MapState, evs: seq<Event>)
    requires TitleMatchesMode(s)
    ensures TitleMatchesMode(Run(s, evs))
    decreases |evs|
  {
    if evs != [] {
      RunKeepsTitle(s, evs[..|evs| - 1]);
    }
  }

  /** Switching to normal mode twice leaves mode, title, route and pins as one
      switch does; only one more fetch is asked for. */
  lemma SwitchTwice(s: MapState)
    ensures SwitchAppToNormalMode(SwitchAppToNormalMode(s))
            == SwitchAppToNormalMode(s).(fetchCount := s.fetchCount + 2)
  {
  }

  /** A three-event history, one step at a time. */
  lemma RunPrefixes3(s: MapState, evs: seq<Event>)
    requires |evs| == 3
    ensures Run(s, evs) == Step(Step(Step(s, evs[0]), evs[1]), evs[2])
  {
    assert evs[..2][..1] == evs[..1] && evs[..2][1] == evs[1];
    assert evs[..1][..0] == [] && evs[..1][0] == evs[0];
    assert Run(s, evs[..1]) == Step(s, evs[0]);
    assert Run(s, evs[..2]) == Step(Step(s, evs[0]), evs[1]);
  }

  /** Target selected, route requested, route found: routing, "Clear Route",
      the route drawn and the target's pin on the map. */
  lemma RouteFoundScenario(s: MapState, t: PlaceId)
    ensures var r := Run(s, [SelectTargetEvent(Some(t)), BuildRouteEvent, RouteCompletedEvent(None)]);
            r.mode == Routing && r.buttonTitle == ClearRouteTitle && r.routeShown && t in r.annotations
  {
    var evs := [SelectTargetEvent(Some(t)), BuildRouteEvent, RouteCompletedEvent(None)];
    RunPrefixes3(s, evs);
  }

  /** Target selected, route requested, route not found: still routing, the
      alert carries the service's message, and nothing is added to the map. */
  lemma RouteFailedScenario(s: MapState, t: PlaceId, message: string)
    ensures var r := Run(s, [SelectTargetEvent(Some(t)), BuildRouteEvent, RouteCompletedEvent(Some(message))]);
            r.mode == Routing && r.buttonTitle == ClearRouteTitle && r.lastEffect == AlertShown(message)
            && r.routeShown == s.routeShown && r.annotations == s.annotations
  {
    var evs := [SelectTargetEvent(Some(t)), BuildRouteEvent, RouteCompletedEvent(Some(message))];
    RunPrefixes3(s, evs);
  }

  /** The completion is not tied to the request that is current: a route found
      after the user already cleared it is still drawn, with its target pin,
      while the screen is back in default mode. */
  lemma LateRouteStillDrawn(s: MapState, t: PlaceId)
    ensures var r := Run(s, [SelectTargetEvent(Some(t)), BuildRouteEvent, RouteButtonTapEvent,
                             RouteCompletedEvent(None)]);
            r.mode == Default && r.routeShown && r.annotations == {t}
  {
    var evs := [SelectTargetEvent(Some(t)), BuildRouteEvent, RouteButtonTapEvent, RouteCompletedEvent(None)];
    assert evs[..3] == [SelectTargetEvent(Some(t)), BuildRouteEvent, RouteButtonTapEvent];
    RunPrefixes3(s, evs[..3]);
  }
}
