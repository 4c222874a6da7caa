/**
 * The map view's event layer as an object: the three pieces of view state
 * and the registrations its effect makes on the map, updated step by step.
 * Each method is tied to the matching transition of `Session`, where the
 * properties of those transitions are proved.
 */
module MapView {
  import opened Wrappers
  import opened Profiles
  import Session

  class EventMap {
    var profile: Profile
    var start: Option<Session.LatLng>
    var dest: Option<Session.LatLng>
    /** Route controls currently registered on the map. */
    var controls: seq<Session.RouteControl>
    /** Items currently in the map's context menu. */
    var menu: seq<Session.MenuItem>
    /** Scale controls added to the map. */
    var scaleControls: nat
    /** Zoom commands sent to the map. */
    var zoomRequests: seq<Session.Zoom>
    /** The control the last setup built, which its pending cleanup will remove. */
    var cleanup: Option<Session.RouteControl>

    function State(): Session.MapState
      reads this
    {
      Session.MapState(profile, start, dest, controls, menu, scaleControls, zoomRequests, cleanup)
    }

    ghost predicate Valid()
      reads this
    {
      Session.Valid(State())
    }

    /** The view's initial state: car, no endpoints, nothing registered yet. */
    constructor ()
      ensures State() == Session.Init && Valid()
      ensures profile == Car && start == None && dest == None
    {
      profile := DefaultProfile;
      start := None;
      dest := None;
      controls := [];
      menu := [];
      scaleControls := 0;
      zoomRequests := [];
      cleanup := None;
    }

    /** Runs the handler of a context-menu intent at the clicked point. */
    method Dispatch(intent: Session.Intent, point: Session.LatLng)
      modifies this
      ensures State() == Session.DispatchIntent(old(State()), intent, point)
      ensures profile == old(profile) && controls == old(controls) && menu == old(menu)
      ensures start == (if intent == Session.DirectFrom then Some(point) else old(start))
      ensures dest == (if intent == Session.DirectTo then Some(point) else old(dest))
      ensures old(Valid()) ==> Valid()
    {
      match intent
      case ZoomIn => zoomRequests := zoomRequests + [Session.In];
      case ZoomOut => zoomRequests := zoomRequests + [Session.Out];
      case DirectFrom => start := Some(Session.LatLng(point.lat, point.lng));
      case DirectTo => dest := Some(Session.LatLng(point.lat, point.lng));
    }

    /** The user picks entry `k` of the context menu currently registered. */
    method ChooseMenuItem(k: nat, point: Session.LatLng)
      requires k < |menu|
      modifies this
      ensures State() == Session.DispatchIntent(old(State()), old(menu[k].callback), point)
      ensures old(Valid()) ==> Valid()
    {
      Dispatch(menu[k].callback, point);
    }

    /** The profile selector's change handler. */
    method SetProfile(p: Profile)
      modifies this
      ensures State() == Session.SelectProfile(old(State()), p)
      ensures profile == p && start == old(start) && dest == old(dest)
      ensures old(Valid()) ==> Valid()
    {
      profile := p;
    }

    /** The cleanup the last setup returned, if one is pending. */
    method Cleanup()
      modifies this
      ensures State() == Session.Cleanup(old(State()))
    {
      match cleanup
      case None =>
      case Some(c) =>
        controls := Session.RemoveControl(controls, c);
        menu := [];
        cleanup := None;
    }

    /** Builds and registers a route control, a scale control and the menu items. */
    method Setup()
      modifies this
      ensures State() == Session.Setup(old(State()))
    {
      var c := Session.NewRouteControl(profile, start, dest);
      controls := controls + [c];
      scaleControls := scaleControls + 1;
      ghost var before := State();
      var items := Session.ContextMenuItems;
      var i := 0;
      while i < |items|
        invariant 0 <= i <= |items|
        invariant State() == before.(menu := before.menu + items[..i])
      {
        menu := menu + [items[i]];
        i := i + 1;
      }
      assert items[..i] == items;
      cleanup := Some(c);
    }

    /**
     * One effect run after a dependency change: the previous run's cleanup,
     * then setup. Afterwards exactly one route control, over [start, dest],
     * and exactly the four menu items are registered.
     */
    method RunEffect()
      requires Valid()
      modifies this
      ensures State() == Session.RunEffect(old(State()))
      ensures Valid() && Session.Synced(State())
      ensures controls == [Session.NewRouteControl(profile, start, dest)]
      ensures menu == Session.ContextMenuItems
      ensures scaleControls == old(scaleControls) + 1
      ensures profile == old(profile) && start == old(start) && dest == old(dest)
    {
      Session.RunEffectRegistersOnce(State());
      Cleanup();
      Setup();
    }

    /** The view is removed: the pending cleanup runs. */
    method Unmount()
      requires Valid()
      modifies this
      ensures State() == Session.Unmount(old(State()))
      ensures Valid() && controls == [] && menu == [] && scaleControls == old(scaleControls)
    {
      Session.UnmountReleases(State());
      Cleanup();
    }
  }

  /** The view's lifetime on one map: mount, pick a start and an end, switch to foot. */
  method UsageExample(a: Session.LatLng, b: Session.LatLng)
  {
    var v := new EventMap();
    v.RunEffect();
    v.ChooseMenuItem(2, a);
    assert v.start == Some(a);
    v.RunEffect();
    v.ChooseMenuItem(3, b);
    v.RunEffect();
    v.SetProfile(Foot);
    v.RunEffect();
    assert v.controls == [Session.RouteControl([Some(a), Some(b)], ServiceUrl(Foot))];
    assert v.scaleControls == 4;
    v.Unmount();
    assert v.controls == [] && v.menu == [];
  }
}
