/**
 * Marker and placeholder policy of the map view: a waypoint's position
 * `i` among `n` waypoints decides whether it is drawn and labelled as the
 * start, a via point or the end of the route.
 */
module Markers {
  import opened Wrappers

  datatype Role = Start | Via | End

  /** The metadata handed to the map library for one marker image. */
  datatype Icon = Icon(iconUrl: string, iconSize: (int, int), iconAnchor: (int, int))

  /** A draggable marker placed at a waypoint. */
  datatype Marker<P> = Marker(latLng: P, draggable: bool, icon: Icon)

  const ViaIconUrl: string := "images/marker-via-icon-2x.png"
  const MarkerList: seq<string> := ["images/marker-start-icon-2x.png", "images/marker-end-icon-2x.png"]
  const IconSize: (int, int) := (20, 56)
  const IconAnchor: (int, int) := (10, 28)

  const StartEnd: seq<string> := ["Start - press enter to drop marker", "End - press enter to drop marker"]
  const ViaPlaceholder: string := "Via point - press enter to drop marker"

  /**
   * The role of waypoint `i` of `n`: the first point is the start; the last
   * point is the end when there are at least two points; every other point
   * is a via point.
   */
  function RoleAt(i: nat, n: nat): Role
  {
    if i == 0 then Start
    else if n > 1 && i == n - 1 then End
    else Via
  }

  /** Which role an icon draws, read back from its image URL. */
  function IconRole(icon: Icon): Option<Role>
  {
    if icon.iconUrl == MarkerList[0] then Some(Start)
    else if icon.iconUrl == MarkerList[1] then Some(End)
    else if icon.iconUrl == ViaIconUrl then Some(Via)
    else None
  }

  /** Which role a geocoder input placeholder announces. */
  function PlaceholderRole(text: string): Option<Role>
  {
    if text == StartEnd[0] then Some(Start)
    else if text == StartEnd[1] then Some(End)
    else if text == ViaPlaceholder then Some(Via)
    else None
  }

  /**
   * The icon for waypoint `i` of `n`. The start test runs first, so index 0
   * is the start even when it is also the last index. All three icons share
   * size and anchor; only the image differs.
   */
  function MakeIcon(i: nat, n: nat): (icon: Icon)
    ensures icon.iconSize == (20, 56) && icon.iconAnchor == (10, 28)
    ensures IconRole(icon) == Some(RoleAt(i, n))
  {
    if i == 0 then
      Icon(MarkerList[0], IconSize, IconAnchor)
    else if i == n - 1 then
      Icon(MarkerList[1], IconSize, IconAnchor)
    else
      Icon(ViaIconUrl, IconSize, IconAnchor)
  }

  /** The placeholder text of the geocoder input for waypoint `i` of `n`. */
  function GeocoderPlaceholder(i: nat, n: nat): (text: string)
    ensures PlaceholderRole(text) == Some(RoleAt(i, n))
  {
    if i == 0 then StartEnd[0]
    else if i == n - 1 then StartEnd[1]
    else ViaPlaceholder
  }

  /** The marker the route control creates for waypoint `i` of `n`. */
  function CreateMarker<P>(i: nat, start: P, n: nat): (m: Marker<P>)
    ensures m.latLng == start && m.draggable && m.icon == MakeIcon(i, n)
    ensures m.icon.iconSize == (20, 56) && m.icon.iconAnchor == (10, 28)
    ensures IconRole(m.icon) == Some(RoleAt(i, n))
  {
    Marker(start, true, MakeIcon(i, n))
  }

  /** One marker per waypoint, each styled by its position in the list. */
  function PlaceMarkers<P>(waypoints: seq<P>): (ms: seq<Marker<P>>)
    ensures |ms| == |waypoints|
    ensures forall k :: 0 <= k < |ms| ==>
              ms[k].latLng == waypoints[k] && ms[k].draggable && ms[k].icon == MakeIcon(k, |waypoints|)
              && ms[k].icon.iconSize == (20, 56) && ms[k].icon.iconAnchor == (10, 28)
              && IconRole(ms[k].icon) == Some(RoleAt(k, |waypoints|))
  {
    seq(|waypoints|, k requires 0 <= k < |waypoints| => CreateMarker(k, waypoints[k], |waypoints|))
  }

  /** The marker icon and the input placeholder always announce the same role. */
  lemma IconAndPlaceholderAgree(i: nat, n: nat)
    ensures IconRole(MakeIcon(i, n)) == PlaceholderRole(GeocoderPlaceholder(i, n))
  {
  }

  /** Index 0 is the start for every count, including a single waypoint. */
  lemma FirstIsStart(n: nat)
    ensures IconRole(MakeIcon(0, n)) == Some(Start)
    ensures PlaceholderRole(GeocoderPlaceholder(0, n)) == Some(Start)
  {
  }

  /** With at least two waypoints the roles split cleanly by index. */
  lemma RolesSplitByIndex(i: nat, n: nat)
    requires n > 1 && i < n
    ensures RoleAt(i, n) == Start <==> i == 0
    ensures RoleAt(i, n) == End <==> i == n - 1
    ensures RoleAt(i, n) == Via <==> 0 < i < n - 1
  {
  }

  /** Distinct roles are drawn with distinct images, and every image is one of the three. */
  lemma IconRoleDetermined(i: nat, j: nat, n: nat, m: nat)
    ensures IconRole(MakeIcon(i, n)).Some?
    ensures RoleAt(i, n) != RoleAt(j, m) ==> MakeIcon(i, n).iconUrl != MakeIcon(j, m).iconUrl
    ensures RoleAt(i, n) == RoleAt(j, m) ==> MakeIcon(i, n) == MakeIcon(j, m)
  {
  }

  /** Two waypoints give exactly two markers: a start marker and an end marker. */
  lemma TwoWaypointMarkers<P>(a: P, b: P)
    ensures var ms := PlaceMarkers([a, b]);
            |ms| == 2 && ms[0].latLng == a && ms[1].latLng == b
            && IconRole(ms[0].icon) == Some(Start) && IconRole(ms[1].icon) == Some(End)
  {
  }
}
