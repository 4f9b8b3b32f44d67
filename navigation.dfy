/** The navigation decisions: the guard component (components/AuthGuard.tsx),
    the redirect hook (hooks/useAuthRedirect.ts) and the entry screen
    (app/index.tsx). Each is a total function of the session flags and the
    current route; the router itself is not modelled, only the chosen target. */
module Navigation {
  import opened Common
  import opened AuthTypes

  const AuthGroup := "(auth)"
  const TabsGroup := "(tabs)"

  const LoginHref := "/(auth)/login"
  const TabsHomeHref := "/(tabs)/home"
  const TabsHref := "/(tabs)"

  const LoadingMessage := "Verificando autenticación..."

  /** A `router.replace` target of the guard and the hook. */
  datatype Redirect = ToLogin | ToTabsHome
  {
    function Href(): string
    {
      match this
      case ToLogin => LoginHref
      case ToTabsHome => TabsHomeHref
    }

    /** The route segments of the target. */
    function Segments(): seq<string>
    {
      match this
      case ToLogin => [AuthGroup, "login"]
      case ToTabsHome => [TabsGroup, "home"]
    }
  }

  /** `segments[0] === '(auth)'`; an empty route is outside the group. */
  predicate InAuthGroup(segments: seq<string>)
  {
    |segments| > 0 && segments[0] == AuthGroup
  }

  /** The redirect inside the guard's effect. Nothing happens before the
      navigator is ready or while the session is loading; then a signed-out
      user outside the auth screens goes to login and a signed-in user on
      the auth screens goes to the home tab. */
  function AuthGuardDecision(navReady: bool, isLoading: bool, isAuthenticated: bool, segments: seq<string>): (r: Option<Redirect>)
    ensures !navReady || isLoading ==> r.None?
    ensures r == Some(ToLogin) <==> navReady && !isLoading && !isAuthenticated && !InAuthGroup(segments)
    ensures r == Some(ToTabsHome) <==> navReady && !isLoading && isAuthenticated && InAuthGroup(segments)
  {
    if !navReady || isLoading then None
    else if !isAuthenticated && !InAuthGroup(segments) then Some(ToLogin)
    else if isAuthenticated && InAuthGroup(segments) then Some(ToTabsHome)
    else None
  }

  /** The redirect inside `useAuthRedirect`'s effect: the same rules without
      the readiness check. */
  function UseAuthRedirectDecision(isLoading: bool, isAuthenticated: bool, segments: seq<string>): (r: Option<Redirect>)
    ensures isLoading ==> r.None?
    ensures r == Some(ToLogin) <==> !isLoading && !isAuthenticated && !InAuthGroup(segments)
    ensures r == Some(ToTabsHome) <==> !isLoading && isAuthenticated && InAuthGroup(segments)
  {
    if isLoading then None
    else if !isAuthenticated && !InAuthGroup(segments) then Some(ToLogin)
    else if isAuthenticated && InAuthGroup(segments) then Some(ToTabsHome)
    else None
  }

  /** Once the navigator is ready the hook and the guard agree. */
  lemma HookAgreesWithGuard(isLoading: bool, isAuthenticated: bool, segments: seq<string>)
    ensures UseAuthRedirectDecision(isLoading, isAuthenticated, segments)
         == AuthGuardDecision(true, isLoading, isAuthenticated, segments)
  {
  }

  /** Only whether the route is in the auth group matters: whether it is in
      the tabs group, or which screen inside a group, does not. */
  lemma GuardSeesOnlyAuthGroup(navReady: bool, isLoading: bool, isAuthenticated: bool, s: seq<string>, t: seq<string>)
    requires InAuthGroup(s) == InAuthGroup(t)
    ensures AuthGuardDecision(navReady, isLoading, isAuthenticated, s) == AuthGuardDecision(navReady, isLoading, isAuthenticated, t)
  {
  }

  /** Redirecting settles: at the target's route the same session state
      asks for no further redirect. */
  lemma GuardTargetIsFixedPoint(isAuthenticated: bool, segments: seq<string>)
    requires AuthGuardDecision(true, false, isAuthenticated, segments).Some?
    ensures AuthGuardDecision(true, false, isAuthenticated, AuthGuardDecision(true, false, isAuthenticated, segments).value.Segments()).None?
  {
  }

  /** What the entry screen renders. */
  datatype IndexView = LoadingScreen(message: string) | RedirectTo(href: string)

  /** The segments of an entry-screen redirect target. */
  function HrefSegments(href: string): seq<string>
  {
    if href == LoginHref then [AuthGroup, "login"] else [TabsGroup]
  }

  /** `Index`: the loading screen while loading, whatever else holds;
      otherwise the tabs when signed in and login when not. The user record
      is only logged and takes no part. */
  function IndexScreen(isLoading: bool, isAuthenticated: bool, user: Option<User>): (v: IndexView)
    ensures isLoading <==> v == LoadingScreen(LoadingMessage)
    ensures !isLoading && isAuthenticated <==> v == RedirectTo(TabsHref)
    ensures !isLoading && !isAuthenticated <==> v == RedirectTo(LoginHref)
  {
    if isLoading then LoadingScreen(LoadingMessage)
    else if isAuthenticated then RedirectTo(TabsHref)
    else RedirectTo(LoginHref)
  }

  /** Exactly one view for every state, and the same view whoever the user is. */
  lemma IndexIgnoresUser(isLoading: bool, isAuthenticated: bool, u: Option<User>, w: Option<User>)
    ensures IndexScreen(isLoading, isAuthenticated, u) == IndexScreen(isLoading, isAuthenticated, w)
  {
  }

  /** Where the entry screen sends the user, the guard finds nothing to
      correct. */
  lemma IndexTargetSatisfiesGuard(isAuthenticated: bool, user: Option<User>)
    ensures var v := IndexScreen(false, isAuthenticated, user);
            v.RedirectTo? && AuthGuardDecision(true, false, isAuthenticated, HrefSegments(v.href)).None?
  {
  }
}
