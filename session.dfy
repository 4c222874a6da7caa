/**
 * The state the map view's event layer keeps and the map registrations its
 * effect performs, as values: the selected profile, the two clicked
 * endpoints, the route controls, context-menu items and scale controls
 * registered on the map, the zoom commands sent to it, and the cleanup that
 * the last effect run left pending.
 */
module Session {
  import opened Wrappers
  import opened Profiles

  /** A clicked map position. Coordinates are only copied, never computed with. */
  datatype LatLng = LatLng(lat: real, lng: real)

  /** The four context-menu intents. */
  datatype Intent = ZoomIn | ZoomOut | DirectFrom | DirectTo

  /** A context-menu entry: its label and the handler it runs. */
  datatype MenuItem = MenuItem(text: string, callback: Intent)

  /** A zoom command sent to the map; the map applies its own limits. */
  datatype Zoom = In | Out

  /**
   * A registered routing control. Its router serves `serviceUrl`; its
   * waypoint list holds the two endpoints as they were when it was built,
   * unset ones included.
   */
  datatype RouteControl = RouteControl(waypoints: seq<Option<LatLng>>, serviceUrl: string)

  datatype MapState = MapState(
    profile: Profile,
    start: Option<LatLng>,
    dest: Option<LatLng>,
    controls: seq<RouteControl>,
    menu: seq<MenuItem>,
    scaleControls: nat,
    zoomRequests: seq<Zoom>,
    cleanup: Option<RouteControl>)

  /** The dispatch table, in the order the effect registers it. */
  const ContextMenuItems: seq<MenuItem> := [
    MenuItem("Zoom In", ZoomIn),
    MenuItem("Zoom Out", ZoomOut),
    MenuItem("Direct from here", DirectFrom),
    MenuItem("Direct to here", DirectTo)
  ]

  /** Nothing selected, nothing registered. */
  const Init: MapState := MapState(DefaultProfile, None, None, [], [], 0, [], None)

  /** The control the effect builds from the current profile and endpoints. */
  function NewRouteControl(profile: Profile, start: Option<LatLng>, dest: Option<LatLng>): (c: RouteControl)
    ensures |c.waypoints| == 2 && c.waypoints[0] == start && c.waypoints[1] == dest
    ensures c.serviceUrl == ServiceUrl(profile)
  {
    RouteControl([start, dest], ServiceUrl(profile))
  }

  /** The registered controls once control `c` is removed from the map. */
  function RemoveControl(controls: seq<RouteControl>, c: RouteControl): (r: seq<RouteControl>)
    ensures c !in r
    ensures forall x :: x in r <==> x in controls && x != c
    ensures |r| <= |controls|
    ensures c !in controls ==> r == controls
  {
    if controls == [] then []
    else if controls[0] == c then RemoveControl(controls[1..], c)
    else [controls[0]] + RemoveControl(controls[1..], c)
  }

  // The transitions below are the abstract state changes that the methods of
  // `MapView.EventMap` are proved to perform; they are the specification of
  // that class, not a second model of the view.

  /** A menu handler's effect on the state; `point` is where the menu was opened. */
  function DispatchIntent(s: MapState, intent: Intent, point: LatLng): (r: MapState)
    ensures r.controls == s.controls && r.menu == s.menu && r.cleanup == s.cleanup
    ensures r.scaleControls == s.scaleControls && r.profile == s.profile
    ensures r.start == (if intent == DirectFrom then Some(point) else s.start)
    ensures r.dest == (if intent == DirectTo then Some(point) else s.dest)
    ensures intent == ZoomIn ==> r.zoomRequests == s.zoomRequests + [In]
    ensures intent == ZoomOut ==> r.zoomRequests == s.zoomRequests + [Out]
    ensures intent in {DirectFrom, DirectTo} ==> r.zoomRequests == s.zoomRequests
  {
    match intent
    case ZoomIn => s.(zoomRequests := s.zoomRequests + [In])
    case ZoomOut => s.(zoomRequests := s.zoomRequests + [Out])
    case DirectFrom => s.(start := Some(LatLng(point.lat, point.lng)))
    case DirectTo => s.(dest := Some(LatLng(point.lat, point.lng)))
  }

  /** The profile setter. */
  function SelectProfile(s: MapState, p: Profile): (r: MapState)
    ensures r.profile == p && r.start == s.start && r.dest == s.dest
    ensures r.controls == s.controls && r.menu == s.menu && r.cleanup == s.cleanup
    ensures r.scaleControls == s.scaleControls && r.zoomRequests == s.zoomRequests
  {
    s.(profile := p)
  }

  /** The effect's cleanup: remove the control it built and every menu item. */
  function Cleanup(s: MapState): (r: MapState)
    ensures r.cleanup == None
    ensures s.cleanup.Some? ==> s.cleanup.value !in r.controls && r.menu == []
    ensures forall x :: x in r.controls ==> x in s.controls
    ensures Valid(s) ==> r.controls == [] && r.menu == []
    ensures r.profile == s.profile && r.start == s.start && r.dest == s.dest
    ensures r.scaleControls == s.scaleControls && r.zoomRequests == s.zoomRequests
  {
    match s.cleanup
    case None => s
    case Some(c) => s.(controls := RemoveControl(s.controls, c), menu := [], cleanup := None)
  }

  /** The effect's setup: add a new control, a scale control and the four menu items. */
  function Setup(s: MapState): (r: MapState)
    ensures |r.controls| == |s.controls| + 1 && r.controls[..|s.controls|] == s.controls
    ensures r.controls[|s.controls|].waypoints == [s.start, s.dest]
    ensures r.controls[|s.controls|].serviceUrl == ServiceUrl(s.profile)
    ensures r.cleanup == Some(r.controls[|s.controls|])
    ensures r.menu == s.menu + ContextMenuItems && |r.menu| == |s.menu| + 4
    ensures r.scaleControls == s.scaleControls + 1
    ensures r.profile == s.profile && r.start == s.start && r.dest == s.dest
    ensures r.zoomRequests == s.zoomRequests
  {
    var c := NewRouteControl(s.profile, s.start, s.dest);
    s.(controls := s.controls + [c], scaleControls := s.scaleControls + 1,
       menu := s.menu + ContextMenuItems, cleanup := Some(c))
  }

  /** One run of the effect after a dependency change: the pending cleanup, then setup. */
  function RunEffect(s: MapState): (r: MapState)
    ensures Valid(s) ==> Valid(r) && Synced(r)
    ensures r.scaleControls == s.scaleControls + 1
    ensures r.profile == s.profile && r.start == s.start && r.dest == s.dest
    ensures r.zoomRequests == s.zoomRequests
  {
    Setup(Cleanup(s))
  }

  /** The view is removed: the pending cleanup runs and nothing is set up again. */
  function Unmount(s: MapState): (r: MapState)
    ensures Valid(s) ==> Valid(r) && r.controls == [] && r.menu == []
    ensures r.cleanup == None && r.scaleControls == s.scaleControls
  {
    Cleanup(s)
  }

  /**
   * A waypoint edited inside the routing control (a marker dragged, an
   * address typed, the reverse button): the control's own list changes, and
   * nothing reaches the view's `start` and `dest`.
   */
  function LibraryEdit(s: MapState, k: nat, point: LatLng): (r: MapState)
    ensures r.profile == s.profile && r.start == s.start && r.dest == s.dest
    ensures r.menu == s.menu && r.scaleControls == s.scaleControls && r.zoomRequests == s.zoomRequests
    ensures Valid(s) ==> Valid(r)
    ensures Valid(s) && s.cleanup.Some? && k < 2 ==>
              r.controls == [s.controls[0].(waypoints := s.controls[0].waypoints[k := Some(point)])]
              && r.cleanup == Some(r.controls[0])
    ensures !(s.cleanup.Some? && k < |s.cleanup.value.waypoints|) ==> r == s
  {
    match s.cleanup
    case None => s
    case Some(c) =>
      if k < |c.waypoints| then
        var edited := c.(waypoints := c.waypoints[k := Some(point)]);
        s.(controls := RemoveControl(s.controls, c) + [edited], cleanup := Some(edited))
      else s
  }

  /**
   * What the map holds between events: with no cleanup pending nothing is
   * registered but scale controls; otherwise exactly the control of the last
   * setup, with its two waypoint slots, and that setup's menu items.
   */
  ghost predicate Valid(s: MapState)
  {
    match s.cleanup
    case None => s.controls == [] && s.menu == []
    case Some(c) => s.controls == [c] && |c.waypoints| == 2 && s.menu == ContextMenuItems
  }

  /**
   * The one registered control is the control the effect builds from the
   * current profile and endpoints (its waypoint list as built, before any
   * edit made inside the control), and the four menu items are registered.
   */
  ghost predicate Synced(s: MapState)
  {
    s.controls == [NewRouteControl(s.profile, s.start, s.dest)] && s.menu == ContextMenuItems
  }

  /**
   * The events the view sees: menu actions, profile changes, edits made
   * inside the routing control, and explicit effect runs.
   */
  datatype Event = Menu(intent: Intent, point: LatLng) | Select(p: Profile) | Edit(k: nat, point: LatLng) | Effect

  function Step(s: MapState, e: Event): MapState
  {
    match e
    case Menu(intent, point) => DispatchIntent(s, intent, point)
    case Select(p) => SelectProfile(s, p)
    case Edit(k, point) => LibraryEdit(s, k, point)
    case Effect => RunEffect(s)
  }

  /** The state after the events of `es`, oldest first. */
  function Replay(s: MapState, es: seq<Event>): MapState
    decreases |es|
  {
    if es == [] then s else Step(Replay(s, es[..|es| - 1]), es[|es| - 1])
  }

  /** How many effect runs `es` contains. */
  function EffectCount(es: seq<Event>): nat
    decreases |es|
  {
    if es == [] then 0 else EffectCount(es[..|es| - 1]) + (if es[|es| - 1] == Effect then 1 else 0)
  }

  lemma InitValid()
    ensures Valid(Init)
    ensures Init.profile == Car && Init.start == None && Init.dest == None
  {
  }

  /**
   * After any effect run from a valid state exactly one route control is
   * registered, built over [start, dest] in that order, and exactly the four
   * menu items, in table order.
   */
  lemma RunEffectRegistersOnce(s: MapState)
    requires Valid(s)
    ensures var t := RunEffect(s);
            Valid(t) && Synced(t)
            && |t.controls| == 1 && t.controls[0].waypoints == [s.start, s.dest]
            && t.controls[0].serviceUrl == ServiceUrl(s.profile)
            && |t.menu| == 4 && t.menu == ContextMenuItems
            && t.scaleControls == s.scaleControls + 1
            && t.profile == s.profile && t.start == s.start && t.dest == s.dest
            && t.zoomRequests == s.zoomRequests
  {
    match s.cleanup
    case None =>
    case Some(c) =>
      assert RemoveControl([c], c) == [];
  }

  /** Without the cleanup, two setups add two more controls and two more copies of the four menu items. */
  lemma SetupTwiceLeaks(s: MapState)
    requires Valid(s)
    ensures |Setup(Setup(s)).controls| == |s.controls| + 2
    ensures Setup(Setup(s)).menu == s.menu + ContextMenuItems + ContextMenuItems
  {
  }

  /** The unmount cleanup leaves no route control and no menu item, but every scale control. */
  lemma UnmountReleases(s: MapState)
    requires Valid(s)
    ensures var t := Unmount(s);
            Valid(t) && t.controls == [] && t.menu == [] && t.scaleControls == s.scaleControls
  {
    match s.cleanup
    case None =>
    case Some(c) =>
      assert RemoveControl([c], c) == [];
  }

  /** Each menu handler changes only its own field. */
  lemma DispatchFrames(s: MapState, intent: Intent, point: LatLng)
    ensures var t := DispatchIntent(s, intent, point);
            t.controls == s.controls && t.menu == s.menu && t.cleanup == s.cleanup
            && t.scaleControls == s.scaleControls && t.profile == s.profile
            && (intent == DirectFrom ==> t.start == Some(point) && t.dest == s.dest && t.zoomRequests == s.zoomRequests)
            && (intent == DirectTo ==> t.dest == Some(point) && t.start == s.start && t.zoomRequests == s.zoomRequests)
            && (intent == ZoomIn ==> t.start == s.start && t.dest == s.dest && t.zoomRequests == s.zoomRequests + [In])
            && (intent == ZoomOut ==> t.start == s.start && t.dest == s.dest && t.zoomRequests == s.zoomRequests + [Out])
  {
  }

  /** Every event keeps the registrations consistent. */
  lemma StepValid(s: MapState, e: Event)
    requires Valid(s)
    ensures Valid(Step(s, e))
  {
    if e == Effect {
      RunEffectRegistersOnce(s);
    }
  }

  /** Any event sequence from a consistent state leaves it consistent. */
  lemma {:induction false} ReplayValid(s: MapState, es: seq<Event>)
    requires Valid(s)
    ensures Valid(Replay(s, es))
    decreases |es|
  {
    if es != [] {
      ReplayValid(s, es[..|es| - 1]);
      StepValid(Replay(s, es[..|es| - 1]), es[|es| - 1]);
    }
  }

  /** Scale controls are never removed: one per effect run. */
  lemma {:induction false} ReplayScaleControls(s: MapState, es: seq<Event>)
    ensures Replay(s, es).scaleControls == s.scaleControls + EffectCount(es)
    decreases |es|
  {
    if es != [] {
      ReplayScaleControls(s, es[..|es| - 1]);
    }
  }

  /**
   * From the initial state, after any sequence of events: at most one route
   * control and at most four menu items are registered, scale controls number
   * the effect runs, and when the last event was an effect run the map holds
   * exactly the control over [start, dest] and the four menu items.
   */
  lemma ReplayFromInit(es: seq<Event>)
    ensures var t := Replay(Init, es);
            |t.controls| <= 1 && |t.menu| <= 4
            && t.scaleControls == EffectCount(es)
            && (es != [] && es[|es| - 1] == Effect ==> Synced(t))
  {
    ReplayValid(Init, es);
    ReplayScaleControls(Init, es);
    if es != [] && es[|es| - 1] == Effect {
      ReplayValid(Init, es[..|es| - 1]);
      RunEffectRegistersOnce(Replay(Init, es[..|es| - 1]));
    }
  }

  /** A zoom command does not change what the effect depends on, so a synced map stays synced. */
  lemma ZoomKeepsSynced(s: MapState, intent: Intent, point: LatLng)
    requires Synced(s) && intent in {ZoomIn, ZoomOut}
    ensures Synced(DispatchIntent(s, intent, point))
  {
  }

  /**
   * Endpoints are not required: the first effect run builds a control over
   * two unset waypoints with the default car service.
   */
  lemma FirstEffectWithoutEndpoints()
    ensures RunEffect(Init).controls == [RouteControl([None, None], "//routing.openstreetmap.de/routed-car/route/v1")]
  {
    ServiceUrlsWrittenOut();
  }

  /** The three service URLs written out. */
  lemma ServiceUrlsWrittenOut()
    ensures ServiceUrl(Car) == "//routing.openstreetmap.de/routed-car/route/v1"
    ensures ServiceUrl(Bike) == "//routing.openstreetmap.de/routed-bike/route/v1"
    ensures ServiceUrl(Foot) == "//routing.openstreetmap.de/routed-foot/route/v1"
  {
    assert RoutePath(Car) == "routed-car" && RoutePath(Bike) == "routed-bike" && RoutePath(Foot) == "routed-foot";
  }

  /**
   * Start and end picked from the menu with the car profile, each followed
   * by its effect run, then a switch to bike: the map first holds one control
   * for the car service over the two points, and afterwards one control for
   * the bike service over the same points, with four scale controls.
   */
  lemma ProfileSwitchScenario()
    ensures var a := LatLng(21.03, 105.80);
            var b := LatLng(21.05, 105.82);
            var t1 := RunEffect(DispatchIntent(RunEffect(DispatchIntent(RunEffect(Init), DirectFrom, a)), DirectTo, b));
            var t2 := RunEffect(SelectProfile(t1, Bike));
            t1.controls == [RouteControl([Some(a), Some(b)], "//routing.openstreetmap.de/routed-car/route/v1")]
            && t2.controls == [RouteControl([Some(a), Some(b)], "//routing.openstreetmap.de/routed-bike/route/v1")]
            && t2.scaleControls == 4
  {
    var a := LatLng(21.03, 105.80);
    var b := LatLng(21.05, 105.82);
    ServiceUrlsWrittenOut();
    InitValid();
    var s1 := RunEffect(Init);
    RunEffectRegistersOnce(Init);
    var s2 := DispatchIntent(s1, DirectFrom, a);
    var s3 := RunEffect(s2);
    RunEffectRegistersOnce(s2);
    var s4 := DispatchIntent(s3, DirectTo, b);
    var t1 := RunEffect(s4);
    RunEffectRegistersOnce(s4);
    var s5 := SelectProfile(t1, Bike);
    RunEffectRegistersOnce(s5);
  }

  /**
   * An edit made inside the control does not survive the next effect run:
   * after a profile switch the control is rebuilt over the view's own
   * `start`, and the edited first waypoint is gone.
   */
  lemma LibraryEditLostOnRerun(s: MapState, point: LatLng, p: Profile)
    requires Valid(s) && s.cleanup.Some? && s.start != Some(point)
    ensures LibraryEdit(s, 0, point).controls[0].waypoints[0] == Some(point)
    ensures var t := RunEffect(SelectProfile(LibraryEdit(s, 0, point), p));
            t.controls[0].waypoints[0] == s.start && t.controls[0].waypoints[0] != Some(point)
  {
  }
}
