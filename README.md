# PinPlace: the map screen's mode machine and the places list

PinPlace is an iOS app that shows the user's pins on a map, lists them, and
draws a walking or driving route from the user's location to a chosen pin.
This Dafny project models the two pieces of it that carry behaviour of their
own:

- **The places map screen** (`PlacesMapViewController`). The screen is either
  browsing (`default`) or showing a route (`routing`). A build-route
  notification switches it to routing at once and asks the view model for a
  route. The route's completion, delivered later as its own event, shows an
  alert or draws the route and puts the target's pin back; it never changes
  the mode. A tap on the route button opens the places popover while
  browsing and ends routing while routing. Deleting the current target while
  routing ends routing. A center request that carries a place always ends
  routing and, when the place has a location, re-centers the map; one that
  carries no place is ignored, as is a deletion notice without a place. The screen refetches places when it appears, but only while
  browsing. Ending routing sets the button back to "Route", drops the route
  response (the response binding then removes every pin and overlay) and
  refetches places.
- **The places list** (`PlacesTableViewModel`). `deletePlace` asks the store
  to delete a place and removes the place's first entry from the list.
  `findPlacesByName` narrows the list to the places whose titles contain the
  query, or asks for a reload when the query is empty.

Layout:

- `places.dfy` (module `Places`): `Option`, place identities and `Place`.
- `map_model.dfy` (module `MapModel`): the screen's state as a `MapState`
  value, one transition function per handler, the `Event` type, and `Run`,
  which applies a history of events in order.
- `map_properties.dfy` (module `MapProperties`): properties over whole
  histories: the mode is `routing` exactly when the last build-route request
  was not followed by an event that ends routing; the button title always
  matches the mode; plus ending routing twice, and three scenarios.
- `map_screen.dfy` (module `MapScreen`): class `PlacesMapViewController`.
  Its fields are the screen's state, and each handler is a method whose
  postcondition ties the new state to the `MapModel` transition of the old
  state.
- `places_table.dfy` (module `PlacesTable`): substring matching, the title
  filter, the first-index removal, their lemmas, and class
  `PlacesTableViewModel` over a `seq<Place>` field.

Modelling choices:

- Place identity. Places are persisted objects, and Swift's `==` on them is
  object identity. Here identity is the place's `id`. `firstIndex(of:)` and
  the place-deleted comparison both compare ids.
- Collaborators whose code is not part of this model become recorded
  effects. `fetchPlaces` is a counter (`fetchCount`). `viewModel.buildRoute`
  is a counter (`routeRequests`). `viewModel.clearRoute` sets the route
  response to nil. The store deletion of `deletePlace` is a log
  (`storeDeletions`). A popover, an error alert and a re-centering are
  recorded in `lastEffect`.
- Asynchronous results are separate events. `RouteCompleted(err)` is the
  route callback. `PlacesPublished(ids)` is the places binding, which adds
  the reloaded places to the map.
- A completion without an error is taken to mean that the view model stored
  a route response before calling back, so the route is then shown
  (`routeShown`). The code that stores it is not part of this model.
- The route button's title at launch comes from the storyboard, which is not
  part of this model; it is taken to be "Route".
- A build-route notification switches to routing even when no target is
  selected. The code has no guard there, and the model follows the code.
- No request is ever marked stale. The callback applies whatever it
  receives, in any mode. `LateRouteStillDrawn` shows a route found after the
  user cleared it being drawn while the screen is browsing.
- The callers that choose a target (the place details screen and the places
  popover) are modelled as `SelectTarget` followed by `BuildRoute`. The
  details screen's place is optional, so the place a notification carries and
  the target a caller sets are `Option<PlaceId>`: a notification without a
  place changes nothing, and a caller can set the target back to none.

## Model

| member | source | states |
|---|---|---|
| `MapModel.Initial` | PinPlace/View/PlacesMapViewController.swift:30 | the screen starts browsing, with nothing shown, fetched or requested, no target and no effect yet |
| `MapModel.FetchPlaces` | PinPlace/View/PlacesMapViewController.swift:191 | a fetch request is counted once and changes nothing else |
| `MapModel.ClearRoute` | PinPlace/View/PlacesMapViewController.swift:100-103 | once the route response is nil, no overlay and no pin is shown; nothing else changes |
| `MapModel.SwitchAppToNormalMode` | PinPlace/View/PlacesMapViewController.swift:187-192 | leaves default mode, title "Route", nothing shown, exactly one more fetch; target, requests and last effect kept |
| `MapModel.BuildRoute` | PinPlace/View/PlacesMapViewController.swift:133-137 | from any mode: routing, title "Clear Route", one more route request, all else unchanged |
| `MapModel.RouteCompleted` | PinPlace/View/PlacesMapViewController.swift:137-153 | never changes mode, title, target or counters; an error shows an alert with exactly that message and changes nothing else; success shows the route and adds the target's pin if there is a target |
| `MapModel.PlaceDeleted` | PinPlace/View/PlacesMapViewController.swift:156-163 | switches to normal mode exactly when the notice carries a place, that place is the target and the mode is routing; otherwise nothing changes (a notice without a place included) |
| `MapModel.CenterPlace` | PinPlace/View/PlacesMapViewController.swift:165-177 | a notice without a place changes nothing; with a place the mode is default afterwards, the switch and its refetch happen only from routing, the map is re-centered only when the place has a location, and nothing else changes |
| `MapModel.RouteButtonTapped` | PinPlace/View/PlacesMapViewController.swift:72-79 | browsing: the popover is shown and nothing else changes; routing: switches to normal mode |
| `MapModel.ViewWillAppear` | PinPlace/View/PlacesMapViewController.swift:108-114 | fetches places only when browsing; while routing the state is untouched |
| `MapModel.SelectTarget` | PinPlace/View/PlaceDetailsViewController.swift:52-55 | a caller's choice of target, possibly none, becomes the selected target; nothing else changes |
| `MapModel.PlacesPublished` | PinPlace/View/PlacesMapViewController.swift:81-83 | the published places are added to the pins; nothing else changes |
| `MapProperties.RunMode` | PinPlace/View/PlacesMapViewController.swift:133-192 | after any history, the mode is routing exactly when the last build-route request was not followed by a tap, a center request carrying a place, or the deletion of the then-current target |
| `MapProperties.RunSelectedTarget` | PinPlace/View/PlacesPopoverTableViewController.swift:37-40 | after any history, the target is the one most recently selected by a caller |
| `MapProperties.RunKeepsTitle` | PinPlace/View/PlacesMapViewController.swift:133-192 | the route button reads "Clear Route" exactly while routing and "Route" while browsing, after any history |
| `MapProperties.SwitchTwice` | PinPlace/View/PlacesMapViewController.swift:187-192 | ending routing twice gives the same mode, title, route and pins as once, with one more fetch |
| `MapProperties.RouteFoundScenario` | PinPlace/View/PlacesMapViewController.swift:133-152 | select, build, success: routing, "Clear Route", route shown, target pinned |
| `MapProperties.RouteFailedScenario` | PinPlace/View/PlacesMapViewController.swift:133-147 | select, build, failure: still routing, alert with exactly the service's message, no route or pin added |
| `MapProperties.LateRouteStillDrawn` | PinPlace/View/PlacesMapViewController.swift:137-152 | a success arriving after the user cleared the route is still drawn, with the target pin, in default mode |
| `MapScreen.PlacesMapViewController.constructor` | PinPlace/View/PlacesMapViewController.swift:30 | the new screen's state is the initial state |
| `MapScreen.PlacesMapViewController.FetchPlaces` | PinPlace/View/PlacesMapViewController.swift:191 | the fields change as `MapModel.FetchPlaces` says |
| `MapScreen.PlacesMapViewController.ClearRoute` | PinPlace/View/PlacesMapViewController.swift:100-103 | nothing is shown afterwards; the fields change as `MapModel.ClearRoute` says |
| `MapScreen.PlacesMapViewController.SwitchAppToNormalMode` | PinPlace/View/PlacesMapViewController.swift:187-192 | default mode, "Route", no route, one more fetch; the fields change as the model says |
| `MapScreen.PlacesMapViewController.BuildRoute` | PinPlace/View/PlacesMapViewController.swift:133-137 | routing and "Clear Route"; the fields change as the model says |
| `MapScreen.PlacesMapViewController.RouteCompleted` | PinPlace/View/PlacesMapViewController.swift:137-153 | the mode is unchanged; an error becomes the alert's message; the fields change as the model says |
| `MapScreen.PlacesMapViewController.PlaceDeletedNotification` | PinPlace/View/PlacesMapViewController.swift:156-163 | the state is unchanged unless the target is deleted while routing |
| `MapScreen.PlacesMapViewController.CenterPlaceNotification` | PinPlace/View/PlacesMapViewController.swift:165-177 | the mode is default afterwards; the fields change as the model says |
| `MapScreen.PlacesMapViewController.RouteButtonTapped` | PinPlace/View/PlacesMapViewController.swift:72-79 | browsing: popover shown and mode kept; the fields change as the model says |
| `MapScreen.PlacesMapViewController.ViewWillAppear` | PinPlace/View/PlacesMapViewController.swift:108-114 | while routing the state is unchanged; the fields change as the model says |
| `MapScreen.PlacesMapViewController.SelectTarget` | PinPlace/View/PlacesPopoverTableViewController.swift:37-40 | the target is set; the fields change as the model says |
| `MapScreen.PlacesMapViewController.PlacesPublished` | PinPlace/View/PlacesMapViewController.swift:81-83 | the published places are pinned; the fields change as the model says |
| `PlacesTable.ContainsIff` | PinPlace/ViewModel/PlacesTableViewModel.swift:21 | the substring test holds exactly when the query occurs at some position of the title |
| `PlacesTable.KeepMatching` | PinPlace/ViewModel/PlacesTableViewModel.swift:20-22 | needs every title present; every kept place's title contains the query, each matching entry is kept as often as it was listed and no other entry is kept, and the list never grows |
| `PlacesTable.KeepMatchingIsSubsequence` | PinPlace/ViewModel/PlacesTableViewModel.swift:20-22 | the filtered list is an order-preserving subsequence of the list |
| `PlacesTable.KeepMatchingIdempotent` | PinPlace/ViewModel/PlacesTableViewModel.swift:20-22 | filtering twice with the same query gives the same list as once |
| `PlacesTable.SubsequenceBounds` | PinPlace/ViewModel/PlacesTableViewModel.swift:20-22 | a subsequence is no longer than the list and holds only the list's elements, no more often than the list does |
| `PlacesTable.FirstIndexOf` | PinPlace/ViewModel/PlacesTableViewModel.swift:15 | for a listed place, the position of its first entry: that entry is the place and no earlier one is |
| `PlacesTable.RemoveAt` | PinPlace/ViewModel/PlacesTableViewModel.swift:15 | removing at a position shortens the list by one and takes out exactly that element |
| `PlacesTable.RemoveAtIsSubsequence` | PinPlace/ViewModel/PlacesTableViewModel.swift:15 | the other elements keep their relative order |
| `PlacesTable.WithoutFirst` | PinPlace/ViewModel/PlacesTableViewModel.swift:13-16 | one entry fewer; entries before the first one for the place are kept, later ones move up by one, and exactly that entry is gone |
| `PlacesTable.PlacesTableViewModel.DeletePlace` | PinPlace/ViewModel/PlacesTableViewModel.swift:13-16 | needs the place to be listed; the store is asked to delete it, the list loses its first entry and keeps the rest in order |
| `PlacesTable.PlacesTableViewModel.FindPlacesByName` | PinPlace/ViewModel/PlacesTableViewModel.swift:18-26 | a non-empty query needs every title present and narrows the list to the matching places in order; an empty query leaves the list and asks for one reload |
| `PlacesTable.PlacesTableViewModel.FetchPlaces` | PinPlace/ViewModel/PlacesTableViewModel.swift:24 | a reload is counted; nothing else changes |

## Left out

- Map rendering, the user-location region and span, the route's bounding
  rectangle and re-centering coordinates: floating-point geometry inside
  MapKit. A re-centering is recorded only as `CenteredOn(place)`.
- The progress HUD, alert and segue presentation, the popover delegate and
  `DispatchQueue.main.async`: presentation only. An alert is recorded as
  `AlertShown(message)`, the popover as `PopoverShown`.
- Notification subscription and removal, and the Rx bindings' plumbing:
  notifications are direct method calls, and the two bindings with state
  effects are `PlacesPublished` and `ClearRoute`.
- The long-press handler that adds a pin and the callout tap that opens a
  place's details: they are not part of the modelled handlers.
- `fetchPlaces`, `clearRoute` and `viewModel.buildRoute`: their code is not
  part of this model. They are recorded as a fetch counter, a nil route
  response and a request counter. `clearRoute` is taken to leave the
  selected target as it is; `RunSelectedTarget` and `LateRouteStillDrawn`
  rely on that.
- `PlacesTable.PlacesTableViewModel.FetchPlaces`: the reload of `places` from
  the store is not modelled. The list is left as it was and the request is
  counted.
- `PlacesTable.Contains`: Swift compares strings by Unicode canonical
  equivalence. The model compares characters one by one.
- The place details view model: a thin wrapper over the persistence store
  and the nearby-places web service, neither of which is part of this model.
- The weakly captured `self` in the route callback: the model's screen is
  never released, so the callback always runs.
