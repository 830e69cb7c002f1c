/** The pure part of src/App.jsx: which page the router mounts for a path, the
    links the navigation bar shows, and the class of the page wrapper, all as
    functions of the path and the logged-in flag. */
module Routing {
  import opened Outcomes
  import Text

  /** The pages App.jsx routes to. */
  datatype View = HomeView | LoginView | EventsView | PastMeetingsView | MeetingDetailView(id: string) | SettingsView
  {
    /** Routed only while the user is logged in. */
    predicate NeedsLogin()
    {
      !(HomeView? || LoginView?)
    }
  }

  /** The path with its trailing slashes removed; the router ignores them. */
  function StripTrailingSlashes(path: string): (r: string)
    ensures r <= path
    ensures forall i :: |r| <= i < |path| ==> path[i] == '/'
    ensures r == [] || r[|r| - 1] != '/'
  {
    if |path| > 0 && path[|path| - 1] == '/' then StripTrailingSlashes(path[..|path| - 1]) else path
  }

  /** The route "/" matches a path made only of slashes. */
  predicate MatchesRoot(path: string)
  {
    |path| > 0 && StripTrailingSlashes(path) == []
  }

  /** A static route such as "/events": equal up to ASCII case once trailing
      slashes are dropped. */
  predicate MatchesStatic(path: string, pattern: string)
  {
    Text.EqualsIgnoringCase(StripTrailingSlashes(path), pattern)
  }

  const DetailPrefix := "/meetings/"

  /** The `:id` of "/meetings/:id": one or more characters other than '/'. */
  function DetailId(path: string): (id: Option<string>)
    ensures id.Some? ==> |id.value| > 0 && '/' !in id.value
    ensures id.Some? ==> Text.StartsWithIgnoringCase(StripTrailingSlashes(path), DetailPrefix)
    ensures id.Some? ==> StripTrailingSlashes(path) == StripTrailingSlashes(path)[..|DetailPrefix|] + id.value
  {
    var t := StripTrailingSlashes(path);
    if Text.StartsWithIgnoringCase(t, DetailPrefix) && |t| > |DetailPrefix| && '/' !in t[|DetailPrefix|..]
    then Some(t[|DetailPrefix|..])
    else None
  }

  /** Trailing slashes appended to a path do not change what the router
      sees. */
  lemma {:induction false} StripIgnoresAddedSlashes(path: string, slashes: string)
    requires forall i :: 0 <= i < |slashes| ==> slashes[i] == '/'
    ensures StripTrailingSlashes(path + slashes) == StripTrailingSlashes(path)
  {
    if slashes != [] {
      var shorter := slashes[..|slashes| - 1];
      assert (path + slashes)[..|path + slashes| - 1] == path + shorter;
      StripIgnoresAddedSlashes(path, shorter);
    } else {
      assert path + slashes == path;
    }
  }

  /** Round trip: every non-empty id without '/' placed after "/meetings/"
      written in any ASCII letter case, with any trailing slashes, is the id
      the router extracts. */
  lemma DetailIdRoundTrip(prefix: string, id: string, slashes: string)
    requires Text.EqualsIgnoringCase(prefix, DetailPrefix)
    requires |id| > 0 && '/' !in id
    requires forall i :: 0 <= i < |slashes| ==> slashes[i] == '/'
    ensures DetailId(prefix + id + slashes) == Some(id)
  {
    StripIgnoresAddedSlashes(prefix + id, slashes);
    assert (prefix + id)[|prefix + id| - 1] == id[|id| - 1];
    assert (prefix + id)[|DetailPrefix|..] == id;
  }

  /** The page the `Routes` block of App mounts for `path`, or None when no
      route matches. No two routes match the same path, so their order does
      not matter. */
  function RouteFor(path: string, isLoggedIn: bool): Option<View>
  {
    if MatchesRoot(path) then Some(HomeView)
    else if MatchesStatic(path, "/login") then Some(LoginView)
    else if !isLoggedIn then None
    else if MatchesStatic(path, "/events") then Some(EventsView)
    else if MatchesStatic(path, "/past-meetings") then Some(PastMeetingsView)
    else if DetailId(path).Some? then Some(MeetingDetailView(DetailId(path).value))
    else if MatchesStatic(path, "/settings") then Some(SettingsView)
    else None
  }

  /** Logged out, only "/" and "/login" are routed; logging in keeps those
      routes and only adds the others. */
  lemma LoggedOutRoutesArePublic(path: string)
    ensures RouteFor(path, false).Some? ==> !RouteFor(path, false).value.NeedsLogin()
    ensures RouteFor(path, false).Some? ==> RouteFor(path, true) == RouteFor(path, false)
  {
  }

  /** A page that needs login is never reached while logged out. */
  lemma ProtectedViewNeedsLogin(path: string)
    requires RouteFor(path, true).Some? && RouteFor(path, true).value.NeedsLogin()
    ensures RouteFor(path, false) == None
  {
  }

  /** "/" and "/login" reach their pages whether or not the user is logged in. */
  lemma PublicPathsRouted(isLoggedIn: bool)
    ensures RouteFor("/", isLoggedIn) == Some(HomeView)
    ensures RouteFor("/login", isLoggedIn) == Some(LoginView)
  {
  }

  /** The static protected paths reach their pages once logged in, and no
      page before. */
  lemma ProtectedPathsRouted()
    ensures RouteFor("/events", true) == Some(EventsView) && RouteFor("/events", false) == None
    ensures RouteFor("/past-meetings", true) == Some(PastMeetingsView) && RouteFor("/past-meetings", false) == None
    ensures RouteFor("/settings", true) == Some(SettingsView) && RouteFor("/settings", false) == None
  {
    assert RouteFor("/events", true) == Some(EventsView);
    assert RouteFor("/past-meetings", true) == Some(PastMeetingsView);
  }

  /** "/meetings/:id" passes the id segment to the detail page; the router
      ignores letter case and trailing slashes, and an empty id matches
      nothing. */
  lemma DetailPathRouted()
    ensures RouteFor("/meetings/m1", true) == Some(MeetingDetailView("m1"))
    ensures RouteFor("/Meetings/m1/", true) == Some(MeetingDetailView("m1"))
    ensures RouteFor("/meetings/m1", false) == None
    ensures RouteFor("/meetings/", true) == None
  {
    assert RouteFor("/meetings/m1", true) == Some(MeetingDetailView("m1"));
    assert StripTrailingSlashes("/Meetings/m1/") == "/Meetings/m1";
    assert StripTrailingSlashes("/meetings/") == "/meetings";
    assert Text.LowerAscii("/meetings"[1]) != "/settings"[1];
  }

  /** A link of the navigation bar. */
  datatype NavLink = NavLink(caption: string, to: string)

  const BrandLink := NavLink("\U{1F4F1} Post-meeting Generator", "/")

  /** The links `Navigation` renders, or None on "/login" where it renders
      nothing. The comparison with "/login" is exact. */
  function Navigation(path: string, isLoggedIn: bool): Option<seq<NavLink>>
  {
    if path == "/login" then None
    else if isLoggedIn then
      Some([BrandLink, NavLink("Events", "/events"), NavLink("Past Meetings", "/past-meetings"),
            NavLink("Settings", "/settings")])
    else Some([BrandLink, NavLink("Login", "/login")])
  }

  /** The bar shows a link whose target the router sends to page `v`. */
  predicate ShowsLinkTo(path: string, isLoggedIn: bool, v: View)
  {
    Navigation(path, isLoggedIn).Some? &&
    exists link :: link in Navigation(path, isLoggedIn).value && RouteFor(link.to, isLoggedIn) == Some(v)
  }

  /** Every link the bar shows leads to a routed page, the Login link is
      shown exactly when the user is logged out, and once logged in the bar
      leads to the events, past meetings and settings pages. */
  lemma {:induction false} NavigationLinksAreRouted(path: string, isLoggedIn: bool)
    requires path != "/login"
    ensures forall link :: link in Navigation(path, isLoggedIn).value ==> RouteFor(link.to, isLoggedIn).Some?
    ensures NavLink("Login", "/login") in Navigation(path, isLoggedIn).value <==> !isLoggedIn
    ensures isLoggedIn ==>
      ShowsLinkTo(path, true, EventsView) && ShowsLinkTo(path, true, PastMeetingsView) &&
      ShowsLinkTo(path, true, SettingsView)
    ensures !isLoggedIn ==>
      forall link :: link in Navigation(path, false).value ==> !RouteFor(link.to, false).value.NeedsLogin()
  {
    PublicPathsRouted(isLoggedIn);
    if isLoggedIn {
      ProtectedPathsRouted();
      var links := Navigation(path, true).value;
      assert links[1] in links && RouteFor(links[1].to, true) == Some(EventsView);
      assert links[2] in links && RouteFor(links[2].to, true) == Some(PastMeetingsView);
      assert links[3] in links && RouteFor(links[3].to, true) == Some(SettingsView);
    }
  }

  /** `PageWrapper`'s class: "" on "/login", "page" elsewhere. */
  function PageWrapperClass(path: string): string
  {
    if path == "/login" then "" else "page"
  }

  /** The wrapper drops its class exactly where the navigation bar is hidden. */
  lemma WrapperFollowsNavigation(path: string, isLoggedIn: bool)
    ensures PageWrapperClass(path) == "" <==> Navigation(path, isLoggedIn).None?
    ensures PageWrapperClass(path) == "" || PageWrapperClass(path) == "page"
  {
  }
}
