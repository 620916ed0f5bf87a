/**
 * The bottom tab bar (components/CustomTabBar.tsx): each route of the
 * navigator's state becomes a tab whose icon shows whether it is focused;
 * pressing an unfocused tab pushes its route.
 */
module CustomTabBar {
  import opened Wrappers

  /** The paths of `TabRoute` (line 11). */
  const TabRoutes: set<string> := {"/", "/explore", "/profile"}

  /** `getRouteName` (lines 21-32): three tab names, everything else goes home. */
  function GetRouteName(name: string): (route: string)
    ensures route in TabRoutes
    ensures name == "explore" ==> route == "/explore"
    ensures name == "profile" ==> route == "/profile"
    ensures name != "explore" && name != "profile" ==> route == "/"
  {
    match name
    case "index" => "/"
    case "explore" => "/explore"
    case "profile" => "/profile"
    case _ => "/"
  }

  /** The tab name each route belongs to. */
  function NameOf(route: string): string
    requires route in TabRoutes
  {
    if route == "/explore" then "explore" else if route == "/profile" then "profile" else "index"
  }

  /** Every route is reached from its own tab name, and the three tab names reach three different routes. */
  lemma RouteNamesRoundTrip(route: string)
    requires route in TabRoutes
    ensures GetRouteName(NameOf(route)) == route
    ensures forall other :: other in TabRoutes && other != route ==> GetRouteName(NameOf(other)) != GetRouteName(NameOf(route))
  {
  }

  datatype Route = Route(key: string, name: string)

  /** The navigator state the bar receives. */
  datatype NavigationState = NavigationState(routes: seq<Route>, index: int)

  /** `navigation.emit({ type: "tabPress", target, canPreventDefault: true })` (lines 46-50). */
  datatype TabPressEvent = TabPressEvent(target: string, canPreventDefault: bool)

  /** `state.index === index` (line 43). */
  predicate IsFocused(state: NavigationState, i: int) {
    state.index == i
  }

  /**
   * `onPress` of tab `i` (lines 45-56): the press event targets the
   * route's key; the route is pushed only when the tab is not focused and
   * no listener prevented the default.
   */
  function OnPress(state: NavigationState, i: nat, defaultPrevented: bool): (r: (TabPressEvent, Option<string>))
    requires i < |state.routes|
    ensures r.0 == TabPressEvent(state.routes[i].key, true)
    ensures r.1.Some? <==> !IsFocused(state, i) && !defaultPrevented
    ensures r.1.Some? ==> r.1.value == GetRouteName(state.routes[i].name) && r.1.value in TabRoutes
  {
    var event := TabPressEvent(state.routes[i].key, true);
    if !IsFocused(state, i) && !defaultPrevented then (event, Some(GetRouteName(state.routes[i].name)))
    else (event, None)
  }

  datatype IconColor = TabIconSelected | TabIconDefault

  /** What `tabBarIcon` receives (lines 64-68). */
  datatype IconProps = IconProps(focused: bool, color: IconColor, size: nat)

  /** The props of every tab's icon, in route order (lines 41-71). */
  function TabIcons(state: NavigationState): (icons: seq<IconProps>)
    ensures |icons| == |state.routes|
    ensures forall i :: 0 <= i < |icons| ==> icons[i].focused == IsFocused(state, i) && icons[i].size == 24
    ensures forall i :: 0 <= i < |icons| ==> (icons[i].color == TabIconSelected <==> icons[i].focused)
  {
    seq(|state.routes|, i => IconProps(state.index == i, if state.index == i then TabIconSelected else TabIconDefault, 24))
  }

  /** With the index in range, exactly one tab is focused and only its icon gets the selected colour. */
  lemma ExactlyOneSelected(state: NavigationState)
    requires 0 <= state.index < |state.routes|
    ensures (set i | 0 <= i < |TabIcons(state)| && TabIcons(state)[i].color == TabIconSelected) == {state.index}
    ensures |set i | 0 <= i < |state.routes| && IsFocused(state, i)| == 1
  {
    var icons := TabIcons(state);
    assert (set i | 0 <= i < |icons| && icons[i].color == TabIconSelected) == {state.index};
    assert (set i | 0 <= i < |state.routes| && IsFocused(state, i)) == {state.index};
  }

  /** Pressing the focused tab never navigates. */
  lemma FocusedPressStays(state: NavigationState, defaultPrevented: bool)
    requires 0 <= state.index < |state.routes|
    ensures OnPress(state, state.index, defaultPrevented).1 == None
  {
  }
}
