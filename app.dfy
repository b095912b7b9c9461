/**
 * The authenticated router: the session gate in front of every page, and
 * the ordered route table behind it, tried first match first.
 */
module App {
  import opened Wrappers
  import opened Session
  import AppHeader

  datatype Page =
    | Home | InboundCustomers | OutboundCustomers | OutboundStaffs
    | AnalyticsPage | CustomerAnalyticsPage | NotFound

  /** What a matching route renders: a redirect or a page. */
  datatype Target = RedirectTo(to: string) | Show(page: Page)

  /** A route with a path matches that exact location; one without a path matches every location. */
  datatype Route = Route(path: Option<string>, target: Target)

  /** What the router renders. */
  datatype View = Loading | Login | Routed(target: Target)

  predicate Matches(r: Route, location: string)
  {
    r.path.None? || r.path.value == location
  }

  /** The routes in the order the switch lists them; only the last one, the fallback, has no path. */
  function RouteTable(): (routes: seq<Route>)
    ensures |routes| == 8
    ensures routes[7] == Route(None, Show(NotFound))
    ensures forall i :: 0 <= i < 7 ==> routes[i].path.Some?
  {
    [
    Route(Some("/"), RedirectTo("/inbound/staffs")),
    Route(Some("/inbound/staffs"), Show(Home)),
    Route(Some("/inbound/customers"), Show(InboundCustomers)),
    Route(Some("/outbound/customers"), Show(OutboundCustomers)),
    Route(Some("/outbound/staffs"), Show(OutboundStaffs)),
    Route(Some("/analytics"), Show(AnalyticsPage)),
    Route(Some("/customer-analytics"), Show(CustomerAnalyticsPage)),
    Route(None, Show(NotFound))
    ]
  }

  /**
   * The switch: the target of the first route that matches, or nothing when
   * no route matches.
   */
  function FirstMatch(routes: seq<Route>, location: string): (t: Option<Target>)
    ensures t.None? <==> forall i :: 0 <= i < |routes| ==> !Matches(routes[i], location)
    ensures forall i :: 0 <= i < |routes| && Matches(routes[i], location)
                        && (forall j :: 0 <= j < i ==> !Matches(routes[j], location))
                        ==> t == Some(routes[i].target)
  {
    if routes == [] then None
    else if Matches(routes[0], location) then Some(routes[0].target)
    else
      var rest := FirstMatch(routes[1..], location);
      assert forall i :: 1 <= i < |routes| ==> routes[i] == routes[1..][i - 1];
      rest
  }

  /** The six page paths and the root, in table order. */
  const ListedPaths: seq<string> := [
    "/", "/inbound/staffs", "/inbound/customers", "/outbound/customers",
    "/outbound/staffs", "/analytics", "/customer-analytics"
  ]

  /** Every location is matched, since the table ends with the fallback. */
  lemma RouteTableTotal(location: string)
    ensures FirstMatch(RouteTable(), location).Some?
  {
    assert Matches(RouteTable()[7], location);
  }

  /** A location that is none of the listed paths renders NotFound. */
  lemma UnlistedIsNotFound(location: string)
    requires location !in ListedPaths
    ensures FirstMatch(RouteTable(), location) == Some(Show(NotFound))
  {
    assert forall j :: 0 <= j < 7 ==> RouteTable()[j].path == Some(ListedPaths[j]);
    assert forall j :: 0 <= j < 7 ==> !Matches(RouteTable()[j], location);
    assert Matches(RouteTable()[7], location);
  }

  /** Each listed path selects its own entry of the table. */
  lemma ListedPathsRoute(k: nat)
    requires k < |ListedPaths|
    ensures FirstMatch(RouteTable(), ListedPaths[k]) == Some(RouteTable()[k].target)
    ensures RouteTable()[k].target != Show(NotFound)
  {
    var location := ListedPaths[k];
    assert forall j :: 0 <= j < 7 ==> RouteTable()[j].path == Some(ListedPaths[j]);
    assert forall j :: 0 <= j < k ==> ListedPaths[j] != location;
    assert Matches(RouteTable()[k], location);
  }

  /** The root redirects to the staff page, and the redirect lands on Home. */
  lemma RootRedirectsHome()
    ensures FirstMatch(RouteTable(), "/") == Some(RedirectTo("/inbound/staffs"))
    ensures FirstMatch(RouteTable(), "/inbound/staffs") == Some(Show(Home))
  {
    ListedPathsRoute(0);
    ListedPathsRoute(1);
  }

  /**
   * The root is the only location that redirects, so (with RootRedirectsHome)
   * every redirect lands on a page and redirects never chain.
   */
  lemma OnlyRootRedirects(location: string)
    ensures FirstMatch(RouteTable(), location).Some?
    ensures FirstMatch(RouteTable(), location).value.RedirectTo? <==> location == "/"
  {
    if location in ListedPaths {
      var k :| 0 <= k < |ListedPaths| && ListedPaths[k] == location;
      ListedPathsRoute(k);
      assert k == 0 <==> location == "/";
    } else {
      UnlistedIsNotFound(location);
    }
  }

  /** Every header menu item leads to a page of its own, not to NotFound. */
  lemma MenuTargetsRouted(m: AppHeader.MenuItem)
    ensures FirstMatch(RouteTable(), AppHeader.MenuTarget(m)).Some?
    ensures FirstMatch(RouteTable(), AppHeader.MenuTarget(m)).value.Show?
    ensures FirstMatch(RouteTable(), AppHeader.MenuTarget(m)).value.page != NotFound
  {
    var k := match m
      case MenuItem(Inbound, Staffs) => 1
      case MenuItem(Inbound, Customers) => 2
      case MenuItem(Outbound, Customers) => 3
      case MenuItem(Outbound, Staffs) => 4;
    assert AppHeader.MenuTarget(m) == ListedPaths[k];
    ListedPathsRoute(k);
  }

  /** True when the cached session says the user is signed in (`session?.authenticated`). */
  predicate IsAuthenticated(session: Option<SessionResponse>)
  {
    session.Some? && session.value.authenticated
  }

  /**
   * `AuthenticatedRouter`: Loading while the session query is loading, Login
   * unless the session is authenticated, and otherwise the route table.
   */
  function AuthenticatedRouter(isLoading: bool, session: Option<SessionResponse>, location: string)
    : (v: View)
    ensures v == Loading <==> isLoading
    ensures v == Login <==> !isLoading && !IsAuthenticated(session)
    ensures v.Routed? <==> !isLoading && IsAuthenticated(session)
    ensures v.Routed? ==> Some(v.target) == FirstMatch(RouteTable(), location)
  {
    if isLoading then Loading
    else if !IsAuthenticated(session) then Login
    else
      RouteTableTotal(location);
      Routed(FirstMatch(RouteTable(), location).value)
  }

  /** Without an authenticated session no location reaches a page or a redirect. */
  lemma NoPageWithoutSession(isLoading: bool, session: Option<SessionResponse>, location: string)
    requires !IsAuthenticated(session)
    ensures !AuthenticatedRouter(isLoading, session, location).Routed?
  {
  }
}
