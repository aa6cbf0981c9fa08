/**
 * The request middleware (proxy.ts): sign-in protection of the dashboard and
 * the onboarding guard for signed-in users without an organisation.
 * The signed-in user and the membership query's rows are inputs; route
 * matching is by path.
 */
module Proxy {
  import opened Wrappers
  import opened JsValues

  datatype Decision =
    | RedirectToSignIn
    | Redirect(path: string)
    | PassThrough

  /** The decision, and whether the membership query was issued on the way to it. */
  datatype Outcome = Outcome(decision: Decision, queried: bool)

  const Dashboard: string := "/dashboard"
  const Onboarding: string := "/onboarding"

  /** `createRouteMatcher(['/dashboard(.*)'])`: every path beginning with `/dashboard`. */
  predicate IsProtectedRoute(path: string) {
    |path| >= |Dashboard| && path[..|Dashboard|] == Dashboard
  }

  /** `createRouteMatcher(['/onboarding'])`. */
  predicate IsOnboardingRoute(path: string) {
    path == Onboarding
  }

  /** `memberships && memberships.length > 0`; `None` is a `null` result, as after a query error. */
  predicate HasOrg(memberships: Option<nat>) {
    memberships.Some? && memberships.value > 0
  }

  /**
   * The middleware callback, as its early returns are written. The user id is
   * tested for truthiness, so an empty id counts as signed out.
   */
  function Decide(userId: Option<string>, path: string, memberships: Option<nat>): (r: Outcome)
    ensures !Present(userId) && IsProtectedRoute(path) ==> r == Outcome(RedirectToSignIn, false)
    ensures !Present(userId) && !IsProtectedRoute(path) ==> r == Outcome(PassThrough, false)
    ensures Present(userId) && IsOnboardingRoute(path) ==> r == Outcome(PassThrough, false)
    ensures Present(userId) && !IsOnboardingRoute(path) ==> r.queried
    ensures Present(userId) && !HasOrg(memberships) && IsProtectedRoute(path) ==> r.decision == Redirect(Onboarding)
    ensures Present(userId) && !IsProtectedRoute(path) ==> r.decision == PassThrough
    ensures Present(userId) && HasOrg(memberships) && !IsOnboardingRoute(path) ==> r.decision == PassThrough
  {
    assert !IsProtectedRoute(Onboarding) by {
      assert Onboarding[..|Dashboard|][1] != Dashboard[1];
    }
    if !Present(userId) && IsProtectedRoute(path) then Outcome(RedirectToSignIn, false)
    else if Present(userId) then
      if IsOnboardingRoute(path) then Outcome(PassThrough, false)
      else
        var hasOrg := HasOrg(memberships);
        if !hasOrg && !IsOnboardingRoute(path) && IsProtectedRoute(path) then Outcome(Redirect(Onboarding), true)
        else if hasOrg && IsOnboardingRoute(path) then Outcome(Redirect(Dashboard), true)
        else Outcome(PassThrough, true)
    else Outcome(PassThrough, false)
  }

  /** The member-on-onboarding redirect to `/dashboard` is dead code: onboarding returned earlier. */
  lemma DashboardRedirectUnreachable(userId: Option<string>, path: string, memberships: Option<nat>)
    ensures Decide(userId, path, memberships).decision != Redirect(Dashboard)
  {
  }

  /** When the membership query is not issued, its result cannot matter. */
  lemma UnqueriedIgnoresMemberships(userId: Option<string>, path: string, m1: Option<nat>, m2: Option<nat>)
    requires !Decide(userId, path, m1).queried
    ensures Decide(userId, path, m1) == Decide(userId, path, m2)
  {
  }

  /** Only a dashboard path is ever redirected, and only when signed out or without an organisation. */
  lemma RedirectsOnlyDashboard(userId: Option<string>, path: string, memberships: Option<nat>)
    ensures Decide(userId, path, memberships).decision != PassThrough ==>
      IsProtectedRoute(path) && (!Present(userId) || !HasOrg(memberships))
  {
  }
}
