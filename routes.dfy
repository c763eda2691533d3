/**
 * The two route guards of the application shell.  Each reads the session's
 * `(isLoading, user, needsOnboarding)` and decides what the route shows; no
 * guard keeps state of its own.
 */
module Routes {
  import opened Wrappers
  import opened JsText
  import opened AuthContext

  const LandingPath: string := "/"
  const OnboardingPath: string := "/onboarding"
  const DashboardPath: string := "/dashboard"

  /** What a guard shows: the loading indicator, a redirect, or the wrapped page. */
  datatype Decision = Spinner | Redirect(to: string) | Children

  /** `ProtectedRoute`, wrapping the dashboard. */
  function ProtectedRoute(isLoading: bool, user: Option<User>, needsOnboarding: bool): (d: Decision)
    ensures d == Spinner <==> isLoading
    ensures !isLoading && user.None? ==> d == Redirect(LandingPath)
    ensures d == Redirect(OnboardingPath) <==> !isLoading && user.Some? && needsOnboarding
    ensures d == Children <==> !isLoading && user.Some? && !needsOnboarding
    ensures d.Redirect? ==> d.to == LandingPath || d.to == OnboardingPath
  {
    if isLoading then Spinner
    else if user.None? then Redirect(LandingPath)
    else if needsOnboarding then Redirect(OnboardingPath)
    else Children
  }

  /** `OnboardingRoute`, wrapping the profile form. */
  function OnboardingRoute(isLoading: bool, user: Option<User>, needsOnboarding: bool): (d: Decision)
    ensures d == Spinner <==> isLoading
    ensures !isLoading && user.None? ==> d == Redirect(LandingPath)
    ensures d == Redirect(DashboardPath) <==> !isLoading && user.Some? && !needsOnboarding
    ensures d == Children <==> !isLoading && user.Some? && needsOnboarding
    ensures d.Redirect? ==> d.to == LandingPath || d.to == DashboardPath
  {
    if isLoading then Spinner
    else if user.None? then Redirect(LandingPath)
    else if !needsOnboarding then Redirect(DashboardPath)
    else Children
  }

  /** With a signed-in user and loading finished, exactly one of the two routes shows its page. */
  lemma ExactlyOneGuardRendersChildren(user: Option<User>, needsOnboarding: bool)
    requires user.Some?
    ensures (ProtectedRoute(false, user, needsOnboarding) == Children) != (OnboardingRoute(false, user, needsOnboarding) == Children)
  {
  }

  /** Without a user neither route ever shows its page. */
  lemma AnonymousNeverRendersChildren(isLoading: bool, needsOnboarding: bool)
    ensures ProtectedRoute(isLoading, None, needsOnboarding) != Children
    ensures OnboardingRoute(isLoading, None, needsOnboarding) != Children
  {
  }

  /**
   * Over a consistent session the guards follow the user's profile: the
   * dashboard is shown exactly to a user none of whose four profile fields is
   * absent or blank, and the onboarding form exactly to everybody else who is
   * signed in.
   */
  lemma {:induction false} GuardsFollowProfile(s: State)
    requires Consistent(s.user, s.needsOnboarding) && !s.isLoading && s.user.Some?
    ensures var u := s.user.value;
      var blank := Incomplete(u.fullName) || Incomplete(u.phone) || Incomplete(u.gender) || Incomplete(u.dateOfBirth);
      && (ProtectedRoute(s.isLoading, s.user, s.needsOnboarding) == Children <==> !blank)
      && (ProtectedRoute(s.isLoading, s.user, s.needsOnboarding) == Redirect(OnboardingPath) <==> blank)
      && (OnboardingRoute(s.isLoading, s.user, s.needsOnboarding) == Children <==> blank)
      && (OnboardingRoute(s.isLoading, s.user, s.needsOnboarding) == Redirect(DashboardPath) <==> !blank)
  {
    OnboardingIffProfileFieldBlank(s.user.value);
  }

  /** A user whose full name is the empty string is sent to onboarding and may see the onboarding form. */
  lemma {:induction false} EmptyNameGoesToOnboarding(u: User)
    requires u.fullName == Some("")
    ensures ProtectedRoute(false, Some(u), CheckOnboardingStatus(u)) == Redirect(OnboardingPath)
    ensures OnboardingRoute(false, Some(u), CheckOnboardingStatus(u)) == Children
  {
    assert FieldMissing(u.fullName);
  }

  /** A string whose first character is not whitespace is a filled-in field. */
  lemma FilledIn(s: string)
    requires s != [] && ('a' <= s[0] <= 'z' || 'A' <= s[0] <= 'Z' || '0' <= s[0] <= '9')
    ensures !Incomplete(Some(s))
  {
    assert !IsJsWhitespace(s[0]);
  }

  /** A user with all four profile fields filled in sees the dashboard and is sent away from onboarding. */
  lemma {:induction false} CompleteProfileGoesToDashboard(u: User)
    requires u.fullName == Some("Jane") && u.phone == Some("555")
    requires u.gender == Some("f") && u.dateOfBirth == Some("2000-01-01")
    ensures ProtectedRoute(false, Some(u), CheckOnboardingStatus(u)) == Children
    ensures OnboardingRoute(false, Some(u), CheckOnboardingStatus(u)) == Redirect(DashboardPath)
  {
    OnboardingIffProfileFieldBlank(u);
    FilledIn("Jane");
    FilledIn("555");
    FilledIn("f");
    FilledIn("2000-01-01");
  }
}
