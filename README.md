# Map view routing overlay — a Dafny model

The repository is one React component, `MapView`, that puts a routing overlay
on a Leaflet map. The user right-clicks to choose "Direct from here" or "Direct
to here", picks a travel profile (car, bike or foot) in a selector, and the
component rebuilds a routing control over the two chosen points each time one
of the three values changes. This project models the logic under the UI
plumbing:

- `Markers` (`markers.dfy`): `makeIcon` and the routing control's
  `geocoderPlaceholder` and `createMarker` hooks. These pure functions map a
  waypoint index `i` and a count `n` to a start, via or end role. The role is
  stated once, independently, as `RoleAt`, and the two source functions are
  proved to agree with it and with each other.
- `Profiles` (`profiles.dfy`): the `profileRoutes` table, the routing service
  URL built from it, and the selector's three option values.
- `Session` (`session.dfy`): the view state (`profile`, `startLatLng`,
  `destLatLng`) and what the effect registers on the map, held as a value
  (`MapState`). It also holds the four context-menu handlers, the effect's
  setup and cleanup as transitions, and lemmas about every sequence of events.
- `MapView` (`mapview.dfy`): the same state as a class, `EventMap`, whose
  fields are updated step by step. Its methods `Dispatch`, `ChooseMenuItem`,
  `SetProfile`, `RunEffect` (cleanup, then setup, with the `forEach` of
  `addItem` as a loop) and `Unmount` each ensure that the new state is the
  matching `Session` transition of the old one.
- `Wrappers` (`wrappers.dfy`): `Option`, which stands for the source's `null`.

Waypoint indices and counts are `nat`, because they are array positions. With
natural numbers, the code's rule ("index 0 is the start, else index `n-1` is
the end, else via") is the same as the rule "the last index is the end only
when there are at least two points". For `i = n - 1` with `n < 1` (for example `i = -1`, `n = 0`) the code would
answer "end" where that rule says "via"; such an index cannot occur.

The code has no session ids, no failed state and no idle state that skips
the request while a point is unset. The effect always builds a control over
`[start, dest]`, unset entries included (`FirstEffectWithoutEndpoints`). It
removes the previous control and all menu items before setting up again, and
that is the only teardown. The scale control is added on every effect run
and never removed, so the map collects one per run (`ReplayScaleControls`).
`L.latLng` returns a new object on every menu click, so React sees a change
even when the same point is picked again. The model makes every effect run an
explicit `RunEffect` call, so this case needs no special handling.

The routing control also lets the user change its waypoints from inside:
its markers are draggable, it has a reverse button, and it has geocoder text
inputs. No handler copies those edits back into `startLatLng` or
`destLatLng`. `Session.LibraryEdit` models such an edit as the code leaves it:
only the registered control changes. `Session.LibraryEditLostOnRerun` shows
the consequence. The next effect run, which a profile switch alone triggers,
rebuilds the control over the view's own `start`, and the edited point is
dropped.

## Model

| member | source | states |
|---|---|---|
| `Markers.MakeIcon` | src/components/MapView.jsx:27-53 | every icon has size (20, 56) and anchor (10, 28), and its image is the one for `RoleAt(i, n)` |
| `Markers.GeocoderPlaceholder` | src/components/MapView.jsx:131-145 | the placeholder text announces the role `RoleAt(i, n)` |
| `Markers.CreateMarker` | src/components/MapView.jsx:149-155 | the marker is draggable, sits at the waypoint's position, and carries `MakeIcon(i, n)`: size (20, 56), anchor (10, 28) and the image of its role |
| `Markers.PlaceMarkers` | src/components/MapView.jsx:149-155 | one marker per waypoint, in order, each draggable, at its waypoint, and carrying `MakeIcon(k, n)` with size (20, 56), anchor (10, 28) and the image of its role |
| `Markers.IconAndPlaceholderAgree` | src/components/MapView.jsx:131-145 | for every `(i, n)`, the marker icon and the input placeholder select the same role |
| `Markers.FirstIsStart` | src/components/MapView.jsx:33-39 | index 0 is the start for every count, a single waypoint included |
| `Markers.RolesSplitByIndex` | src/components/MapView.jsx:40-52 | for `n > 1` and `i < n`: start iff `i = 0`, end iff `i = n-1`, via iff `0 < i < n-1` |
| `Markers.IconRoleDetermined` | src/components/MapView.jsx:28-32 | every icon is one of the three images; equal roles give equal icons, different roles give different images |
| `Markers.TwoWaypointMarkers` | src/components/MapView.jsx:149-155 | two waypoints give exactly a start marker and an end marker, in that order |
| `Profiles.Key` | src/components/MapView.jsx:199-201 | each profile's stored value is a selector option and a key of the route table |
| `Profiles.ParseSelection` | src/components/MapView.jsx:192-201 | a selected value names a profile exactly when it is one of the three options, and it is that profile's key |
| `Profiles.RoutePath` | src/components/MapView.jsx:58-62 | the route table sends each profile to `"routed-"` followed by its key |
| `Profiles.ServiceUrl` | src/components/MapView.jsx:126 | the URL is `//routing.openstreetmap.de/`, then the profile's path, then `/route/v1` |
| `Profiles.SelectionRoundTrip` | src/components/MapView.jsx:192-201 | selecting a profile's option yields that profile |
| `Profiles.SelectorCoversProfiles` | src/components/MapView.jsx:199-201 | a value is one of the selector's options exactly when it is the stored value of some profile |
| `Profiles.RoutePathInjective` | src/components/MapView.jsx:58-62 | different profiles map to different service paths |
| `Profiles.ServiceUrlInjective` | src/components/MapView.jsx:124-127 | different profiles give different service URLs |
| `Session.NewRouteControl` | src/components/MapView.jsx:103-127 | the control's waypoints are exactly `[start, dest]` in that order, unset ones included, and its router uses the profile's service URL |
| `Session.RemoveControl` | src/components/MapView.jsx:177 | the removed control is no longer registered, and every other registered control stays |
| `Session.InitValid` | src/components/MapView.jsx:64-66 | the initial state is car with no start and no destination, and nothing is registered |
| `Session.RunEffectRegistersOnce` | src/components/MapView.jsx:101-180 | after an effect run exactly one control over `[start, dest]` and the four menu items in table order are registered; scale controls grow by one; the view state is unchanged |
| `Session.DispatchIntent` | src/components/MapView.jsx:68-83 | a menu handler touches no registration and not the profile; "Direct from here" sets the start to the clicked point, "Direct to here" sets the destination, "Zoom In" sends an `In` command and "Zoom Out" an `Out` command, and the "Direct" items send none |
| `Session.SelectProfile` | src/components/MapView.jsx:192-196 | the profile is replaced; the endpoints, the registrations and the zoom commands stay |
| `Session.Cleanup` | src/components/MapView.jsx:176-179 | after cleanup nothing is pending, the control the last setup built is no longer registered, no menu item is left, no control is added, and the view state and scale controls stay |
| `Session.Setup` | src/components/MapView.jsx:101-175 | setup appends one control over `[start, dest]` with the profile's service URL, keeps the earlier ones, appends the four menu items in table order after the earlier items, adds one scale control, keeps the view state and the zoom commands, and makes the new control the one its cleanup removes |
| `Session.RunEffect` | src/components/MapView.jsx:101-180 | from a consistent state the effect run leaves it consistent, with the map in step with the view state; scale controls grow by one; the view state stays |
| `Session.Unmount` | src/components/MapView.jsx:176-179 | on removal of the view nothing is pending; from a consistent state no control and no menu item is left; scale controls stay |
| `Session.LibraryEdit` | src/components/MapView.jsx:146-155 | in a consistent state with a registered control, an edit of slot `k` replaces that control by one whose slot `k` is the new point, with its other slot and service URL unchanged, and the cleanup then removes the edited control; the view state, the menu, the scale controls and the zoom commands stay; with no control registered, or a slot out of range, nothing changes |
| `Session.LibraryEditLostOnRerun` | src/components/MapView.jsx:180 | after an edit inside the control, a profile switch and the effect run rebuild the control over the view's own start, and the edited point is lost |
| `Session.SetupTwiceLeaks` | src/components/MapView.jsx:170-174 | two setups without the cleanup between them add two more controls and two more copies of the four menu items |
| `Session.UnmountReleases` | src/components/MapView.jsx:176-179 | the cleanup leaves no route control and no menu item, and keeps every scale control |
| `Session.DispatchFrames` | src/components/MapView.jsx:68-99 | "Direct from here" sets only the start, "Direct to here" sets only the destination, and "Zoom In" and "Zoom Out" leave profile, start and destination unchanged and send `In` and `Out` |
| `Session.StepValid` | src/components/MapView.jsx:101-180 | every menu action, profile change, edit inside the control and effect run keeps the map's registrations consistent |
| `Session.ReplayValid` | src/components/MapView.jsx:101-180 | any event sequence from a consistent state leaves it consistent |
| `Session.ReplayScaleControls` | src/components/MapView.jsx:170 | the scale-control count grows by exactly the number of effect runs |
| `Session.ReplayFromInit` | src/components/MapView.jsx:176-180 | after any event sequence from the start: at most one control and four menu items are registered, one scale control per effect run, and after an effect run exactly the control over `[start, dest]` and the four items |
| `Session.ZoomKeepsSynced` | src/components/MapView.jsx:68-75 | a zoom command keeps the registrations in step with the view state |
| `Session.FirstEffectWithoutEndpoints` | src/components/MapView.jsx:103-104 | before any point is chosen, the first effect run builds a car control over two unset waypoints |
| `Session.ServiceUrlsWrittenOut` | src/components/MapView.jsx:126 | the car, bike and foot service URLs, written out |
| `Session.ProfileSwitchScenario` | src/components/MapView.jsx:180 | start and end chosen under car, then a switch to bike, leaves one control for the bike service over the same two points and four scale controls |
| `MapView.EventMap.constructor` | src/components/MapView.jsx:64-66 | the view starts with car, no start, no destination, and nothing registered |
| `MapView.EventMap.Dispatch` | src/components/MapView.jsx:68-83 | each menu handler changes only its own field; the new state is `Session.DispatchIntent` of the old |
| `MapView.EventMap.ChooseMenuItem` | src/components/MapView.jsx:85-99 | choosing a registered menu item runs the handler the dispatch table pairs with it |
| `MapView.EventMap.SetProfile` | src/components/MapView.jsx:192-196 | the profile is replaced, and the endpoints and registrations stay unchanged |
| `MapView.EventMap.Cleanup` | src/components/MapView.jsx:176-179 | the pending cleanup removes its control and all menu items |
| `MapView.EventMap.Setup` | src/components/MapView.jsx:101-175 | a new control is added, then a scale control, then the four menu items one by one in table order |
| `MapView.EventMap.RunEffect` | src/components/MapView.jsx:101-180 | cleanup then setup: exactly one control over `[start, dest]`, the four menu items, one more scale control, view state unchanged |
| `MapView.EventMap.Unmount` | src/components/MapView.jsx:176-179 | on removal of the view, no control and no menu item is left |

## Left out

- Map rendering, tiles, zoom mechanics and the `MapContainer`/`TileLayer` tree, which are UI and library code. A zoom item only records the command it sends to the map.
- The OSRM router's HTTP traffic, the Nominatim geocoder and route results, which are network and library code. Any discarding of late route results happens inside the routing library, which is not part of this model. The code has no session ids and no failed state.
- The class changes on the routing container, the unused geocoder container lookup and the `console.log` calls, which are DOM side effects with no logic.
- Line and alternative-line styles, `collapsible`, `routeDragInterval` and the `language` option, which are static configuration handed to the library.
- Edits made inside the routing control: dragging a marker (`routeWhileDragging`, draggable markers), reversing the waypoints (`reverseWaypoints`) and typing an address. The library handles these, and the model does not show how. `Session.LibraryEdit` keeps only what matters to the view: one waypoint of the registered control changes, and the view's `start` and `dest` do not. Re-routing after an edit, and the reordering the reverse button does, are not modelled.
- `RouteControl` and `Synced` describe the control as the effect built it. `RouteControl` holds the two waypoint slots it was given and the service URL. It does not track where the library has since moved those waypoints, except through `LibraryEdit`. `Synced` means that the registered control is the one the effect would build from the current view state.
- `Markers.PlaceMarkers` stands for the library's own loop, which is not part of this model. The library calls the `createMarker` hook once for each waypoint that has a position. `PlaceMarkers` applies the hook to a list of positions that are already set. It does not model how the library skips unset waypoints.
- Coordinates are an opaque pair of reals. They are only copied, never computed with.
- React's scheduling: each dependency change is followed by an explicit `RunEffect` call. Only the first run has no cleanup to perform.
- The control object's identity: `RemoveControl` removes by value. The consistency invariant keeps at most one control registered, so value and identity agree.
- The stored profile is a string in the code. It is modelled as the three-valued `Profile`, because the selector supplies only those three values. A lookup of any other string in the route table is left out.
