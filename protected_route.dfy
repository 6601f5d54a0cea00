/** The route guards of src/components/ProtectedRoute.tsx: a protected page sends a signed-out
    visitor to the login page (remembering where they were going) and a visitor of the wrong
    account type to "/unauthorized"; a public page sends a signed-in visitor back to where they
    came from, or to the dashboard. */
module ProtectedRoute {
  import opened Common

  /** A router location; `from` is the location kept in its navigation state, if any. */
  datatype Location = Location(pathname: string, from: Option<Location>)

  /** What a guard renders: its children, or a replacing redirect with optional state. */
  datatype Decision = Children | Redirect(to: string, from: Option<Location>)

  const DefaultLoginPath := "/login"
  const UnauthorizedPath := "/unauthorized"
  const DashboardPath := "/dashboard"

  /** `ProtectedRoute`. `redirectTo` is `None` when the prop is not given. */
  function Protect(signedIn: bool, profile: Option<UserProfile>, requiredUserType: Option<UserType>,
                   redirectTo: Option<string>, location: Location): (d: Decision)
    ensures !signedIn ==>
      d == Redirect(if redirectTo.Some? then redirectTo.value else DefaultLoginPath, Some(location))
    ensures signedIn && requiredUserType.Some? &&
            (profile.None? || profile.value.userType != requiredUserType.value) ==>
      d == Redirect(UnauthorizedPath, None)
    ensures d == Children <==>
      signedIn && (requiredUserType.None? || (profile.Some? && profile.value.userType == requiredUserType.value))
  {
    if !signedIn then
      Redirect(if redirectTo.Some? then redirectTo.value else DefaultLoginPath, Some(location))
    else if requiredUserType.Some? && (profile.None? || profile.value.userType != requiredUserType.value) then
      Redirect(UnauthorizedPath, None)
    else Children
  }

  /** `state?.from?.pathname || '/dashboard'` */
  function ReturnPath(location: Location): (path: string)
    ensures path != ""
    ensures location.from.Some? && location.from.value.pathname != "" ==> path == location.from.value.pathname
    ensures location.from.None? ==> path == DashboardPath
  {
    if location.from.Some? && location.from.value.pathname != "" then location.from.value.pathname
    else DashboardPath
  }

  /** `PublicRoute` */
  function Public(signedIn: bool, location: Location): (d: Decision)
    ensures !signedIn <==> d == Children
    ensures signedIn ==> d == Redirect(ReturnPath(location), None)
  {
    if signedIn then Redirect(ReturnPath(location), None) else Children
  }

  /** The page a redirect leads to, carrying its state. */
  function Follow(d: Decision): Option<Location>
  {
    if d.Redirect? then Some(Location(d.to, d.from)) else None
  }

  /** A signed-out visit to a protected page lands on the login page; once signed in there,
      the login page's public guard returns the visitor to the page they asked for. */
  lemma LoginReturnsToRequestedPage(profile: Option<UserProfile>, requiredUserType: Option<UserType>,
                                    redirectTo: Option<string>, requested: Location)
    requires requested.pathname != ""
    ensures var login := Follow(Protect(false, profile, requiredUserType, redirectTo, requested));
            login.Some? && Public(true, login.value) == Redirect(requested.pathname, None)
  {
  }

  /** A signed-in visitor never sees the login page's content, and a signed-out one never sees
      a protected page's content, whatever the profile and required type. */
  lemma GuardsAreComplementary(signedIn: bool, profile: Option<UserProfile>, requiredUserType: Option<UserType>,
                               redirectTo: Option<string>, location: Location)
    ensures !(Protect(signedIn, profile, requiredUserType, redirectTo, location) == Children &&
              Public(signedIn, location) == Children)
    ensures requiredUserType.None? ==>
      (Protect(signedIn, profile, requiredUserType, redirectTo, location) == Children <==>
       Public(signedIn, location) != Children)
  {
  }
}
