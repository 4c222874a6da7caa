/**
 * Travel profiles of the map view: the selector's three values and the
 * routing-service path and URL each one selects.
 */
module Profiles {
  import opened Wrappers

  datatype Profile = Car | Bike | Foot

  /** The profile the view starts with. */
  const DefaultProfile: Profile := Car

  /** The option values the profile selector offers, in display order. */
  const SelectorOptions: seq<string> := ["car", "bike", "foot"]

  /** The lookup table from profile key to routing-service path segment. */
  const ProfileRoutes: map<string, string> :=
    map["foot" := "routed-foot", "bike" := "routed-bike", "car" := "routed-car"]

  const ServiceHost: string := "//routing.openstreetmap.de/"
  const ServiceSuffix: string := "/route/v1"

  /** The string the view stores for a profile (the selector's option value). */
  function Key(p: Profile): (k: string)
    ensures k in SelectorOptions && k in ProfileRoutes
  {
    match p
    case Car => "car"
    case Bike => "bike"
    case Foot => "foot"
  }

  /** The value the selector hands back when the user picks an option. */
  function ParseSelection(value: string): (p: Option<Profile>)
    ensures p.Some? <==> value in SelectorOptions
    ensures p.Some? ==> Key(p.value) == value
  {
    if value == "car" then Some(Car)
    else if value == "bike" then Some(Bike)
    else if value == "foot" then Some(Foot)
    else None
  }

  /** The service path segment of a profile, looked up in the route table. */
  function RoutePath(p: Profile): (path: string)
    ensures path == "routed-" + Key(p)
  {
    ProfileRoutes[Key(p)]
  }

  /** The routing service URL the router is built with. */
  function ServiceUrl(p: Profile): (url: string)
    ensures |url| == |ServiceHost| + |RoutePath(p)| + |ServiceSuffix|
    ensures url[..|ServiceHost|] == ServiceHost
    ensures url[|ServiceHost|..|url| - |ServiceSuffix|] == RoutePath(p)
    ensures url[|url| - |ServiceSuffix|..] == ServiceSuffix
  {
    ServiceHost + RoutePath(p) + ServiceSuffix
  }

  /** The selection comes back as the profile whose option was picked. */
  lemma SelectionRoundTrip(p: Profile)
    ensures ParseSelection(Key(p)) == Some(p)
  {
  }

  /** The selector's options are exactly the stored values of the three profiles. */
  lemma SelectorCoversProfiles(value: string)
    ensures value in SelectorOptions <==> exists p :: Key(p) == value
  {
    if value in SelectorOptions {
      var p := ParseSelection(value).value;
      assert Key(p) == value;
    }
  }

  /** Different profiles reach different service paths. */
  lemma RoutePathInjective(p: Profile, q: Profile)
    ensures RoutePath(p) == RoutePath(q) ==> p == q
  {
    if RoutePath(p) == RoutePath(q) {
      assert Key(p) == RoutePath(p)[|"routed-"|..];
      assert Key(q) == RoutePath(q)[|"routed-"|..];
      SelectionRoundTrip(p);
      SelectionRoundTrip(q);
    }
  }

  /** Different profiles reach different service URLs. */
  lemma ServiceUrlInjective(p: Profile, q: Profile)
    ensures ServiceUrl(p) == ServiceUrl(q) ==> p == q
  {
    if ServiceUrl(p) == ServiceUrl(q) {
      var u := ServiceUrl(p);
      assert RoutePath(p) == u[|ServiceHost|..|u| - |ServiceSuffix|] == RoutePath(q);
      RoutePathInjective(p, q);
    }
  }
}
