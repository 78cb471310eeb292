/**
 * The root layout's AuthRedirect effect (app/_layout.tsx): on every run it
 * looks at the first route segment and the authentication flags, may replace
 * the current route, and records the segment it has seen.
 */
module Layout {
  import opened Optional

  /** The first segment of the current route; None is `undefined` (the index route). */
  type Segment = Option<string>

  /** The two targets of `router.replace`. */
  datatype Route = TabsChats | Home

  function RoutePath(r: Route): string {
    match r
    case TabsChats => "/(tabs)/chats"
    case Home => "/"
  }

  /** The first segment a route lands on. */
  function LandingSegment(r: Route): (s: Segment)
    ensures s == None <==> RoutePath(r) == "/"
    ensures r == TabsChats ==> s == Some("(tabs)")
    ensures r == Home ==> s == None
  {
    match r
    case TabsChats => Some("(tabs)")
    case Home => None
  }

  /** `segments[0]`, which is undefined when there are no segments. */
  function MainSegment(segments: seq<string>): (s: Segment)
    ensures s == None <==> segments == []
    ensures s != None ==> s.value == segments[0]
  {
    if segments == [] then None else Some(segments[0])
  }

  /**
   * The sign-in screens: the welcome page, the phone entry and the code entry.
   * No segment is both a sign-in screen and a protected one.
   */
  predicate IsAuthRoute(s: Segment)
    ensures IsAuthRoute(s) ==> !IsProtectedRoute(s)
    ensures s == None ==> IsAuthRoute(s)
  {
    s == None || s == Some("otp") || s == Some("verify")
  }

  /** The screens only a signed-in user may see: the tab group, and only it. */
  predicate IsProtectedRoute(s: Segment)
    ensures IsProtectedRoute(s) ==> s != None && s != Some("otp") && s != Some("verify")
  {
    s == Some("(tabs)")
  }

  /** The redirect decision for a segment. */
  function Redirect(isSignedIn: bool, s: Segment): (r: Option<Route>)
    ensures r == Some(TabsChats) <==> isSignedIn && IsAuthRoute(s)
    ensures r == Some(Home) <==> !isSignedIn && IsProtectedRoute(s)
    ensures r == None <==> !(isSignedIn && IsAuthRoute(s)) && !(!isSignedIn && IsProtectedRoute(s))
  {
    if isSignedIn && IsAuthRoute(s) then Some(TabsChats)
    else if !isSignedIn && IsProtectedRoute(s) then Some(Home)
    else None
  }

  /** Arriving where a redirect points never calls for another redirect. */
  lemma RedirectTargetIsStable(isSignedIn: bool, s: Segment)
    requires Redirect(isSignedIn, s).Some?
    ensures Redirect(isSignedIn, LandingSegment(Redirect(isSignedIn, s).value)) == None
  {
  }

  /** The component's two pieces of state. */
  datatype RedirectState = RedirectState(initialAuthChecked: bool, currentMainSegment: Segment)

  const InitialState := RedirectState(false, None)

  datatype StepResult = StepResult(state: RedirectState, redirect: Option<Route>)

  /** Whether a run of the effect gets past its two early returns. */
  predicate PassesGuards(st: RedirectState, isLoaded: bool, segments: seq<string>)
    ensures PassesGuards(st, isLoaded, segments) ==> isLoaded
    ensures isLoaded && !st.initialAuthChecked ==> PassesGuards(st, isLoaded, segments)
    ensures isLoaded && MainSegment(segments) != st.currentMainSegment ==> PassesGuards(st, isLoaded, segments)
  {
    isLoaded && !(st.initialAuthChecked && MainSegment(segments) == st.currentMainSegment)
  }

  /** One run of the effect, as written. */
  function Step(st: RedirectState, isLoaded: bool, isSignedIn: bool, segments: seq<string>): (r: StepResult)
    ensures !isLoaded ==> r == StepResult(st, None)
    ensures st.initialAuthChecked && MainSegment(segments) == st.currentMainSegment ==> r == StepResult(st, None)
    ensures PassesGuards(st, isLoaded, segments) ==>
      r.state == RedirectState(true, MainSegment(segments))
    ensures r.redirect == Some(TabsChats) <==>
      PassesGuards(st, isLoaded, segments) && isSignedIn && IsAuthRoute(MainSegment(segments))
    ensures r.redirect == Some(Home) <==>
      PassesGuards(st, isLoaded, segments) && !isSignedIn && IsProtectedRoute(MainSegment(segments))
  {
    if !isLoaded then StepResult(st, None)
    else
      var mainSegment := MainSegment(segments);
      if st.initialAuthChecked && mainSegment == st.currentMainSegment then StepResult(st, None)
      else StepResult(RedirectState(true, mainSegment), Redirect(isSignedIn, mainSegment))
  }

  /** The inputs of one run of the effect. */
  datatype Run = Run(isLoaded: bool, isSignedIn: bool, segments: seq<string>)

  /** Where a series of runs leaves the state, and the redirects it issued in order. */
  datatype Trace = Trace(state: RedirectState, redirects: seq<Route>)

  function Runs(st: RedirectState, runs: seq<Run>): (t: Trace)
    decreases |runs|
  {
    if runs == [] then Trace(st, [])
    else
      var step := Step(st, runs[0].isLoaded, runs[0].isSignedIn, runs[0].segments);
      var rest := Runs(step.state, runs[1..]);
      Trace(rest.state, (if step.redirect.Some? then [step.redirect.value] else []) + rest.redirects)
  }

  /** The same run, `n` times in a row. */
  function Repeat(r: Run, n: nat): (runs: seq<Run>)
    ensures |runs| == n
  {
    if n == 0 then [] else [r] + Repeat(r, n - 1)
  }

  /** Once the first check is done it stays done. */
  lemma {:induction false} CheckedStaysChecked(st: RedirectState, runs: seq<Run>)
    requires st.initialAuthChecked
    ensures Runs(st, runs).state.initialAuthChecked
    decreases |runs|
  {
    if runs != [] {
      var step := Step(st, runs[0].isLoaded, runs[0].isSignedIn, runs[0].segments);
      CheckedStaysChecked(step.state, runs[1..]);
    }
  }

  /** Runs that the guards stop keep being stopped: nothing changes. */
  lemma {:induction false} StoppedRunsAreInert(st: RedirectState, r: Run, n: nat)
    requires !PassesGuards(st, r.isLoaded, r.segments)
    ensures Runs(st, Repeat(r, n)) == Trace(st, [])
  {
    if n > 0 {
      var runs := Repeat(r, n);
      assert runs[0] == r && runs[1..] == Repeat(r, n - 1);
      assert Step(st, r.isLoaded, r.isSignedIn, r.segments) == StepResult(st, None);
      StoppedRunsAreInert(st, r, n - 1);
      assert Runs(st, runs).redirects == [] + [];
    }
  }

  /**
   * The effect re-runs whenever its own state changes; with the route and the
   * flags unchanged, the runs issue at most one redirect between them.
   */
  lemma RepeatedRunRedirectsAtMostOnce(st: RedirectState, r: Run, n: nat)
    ensures |Runs(st, Repeat(r, n)).redirects| <= 1
  {
    if n > 0 {
      var runs := Repeat(r, n);
      assert runs[0] == r && runs[1..] == Repeat(r, n - 1);
      var step := Step(st, r.isLoaded, r.isSignedIn, r.segments);
      if PassesGuards(st, r.isLoaded, r.segments) {
        StoppedRunsAreInert(step.state, r, n - 1);
      } else {
        StoppedRunsAreInert(st, r, n);
      }
    }
  }

  /**
   * Signing out on a tab (the settings screen calls signOut and does not
   * navigate) leaves the user on the protected route: the route has not
   * changed, so the effect returns early.
   */
  lemma SignOutOnTabsNotRedirected()
    ensures var signedIn := Step(InitialState, true, true, ["(tabs)", "settings"]);
      && signedIn.redirect == None
      && Step(signedIn.state, true, false, ["(tabs)", "settings"]).redirect == None
  {
  }

  /** The state of the corrected effect also records the sign-in status it last saw. */
  datatype CheckedState = CheckedState(initialAuthChecked: bool, currentMainSegment: Segment, checkedSignedIn: bool)

  /**
   * The effect with its early return taken only when neither the route nor
   * the sign-in status has changed since the last check.
   */
  function CorrectedStep(st: CheckedState, isLoaded: bool, isSignedIn: bool, segments: seq<string>): (r: (CheckedState, Option<Route>))
    ensures !isLoaded ==> r == (st, None)
    ensures isLoaded ==> r.0.initialAuthChecked && r.0.currentMainSegment == MainSegment(segments)
    ensures isLoaded ==> r.0.checkedSignedIn == isSignedIn
  {
    if !isLoaded then (st, None)
    else
      var mainSegment := MainSegment(segments);
      if st.initialAuthChecked && mainSegment == st.currentMainSegment && isSignedIn == st.checkedSignedIn then (st, None)
      else (CheckedState(true, mainSegment, isSignedIn), Redirect(isSignedIn, mainSegment))
  }

  /**
   * With the correction, a loaded run on a protected route while signed out
   * always leaves for `/`, unless the previous check already saw this very
   * route signed out (and redirected then), and a signed-in run on a sign-in
   * screen always leaves for the chats, under the same proviso.
   */
  lemma CorrectedStepRedirects(st: CheckedState, isSignedIn: bool, segments: seq<string>)
    requires !(st.initialAuthChecked && st.currentMainSegment == MainSegment(segments) && st.checkedSignedIn == isSignedIn)
    ensures !isSignedIn && IsProtectedRoute(MainSegment(segments)) ==>
      CorrectedStep(st, true, isSignedIn, segments).1 == Some(Home)
    ensures isSignedIn && IsAuthRoute(MainSegment(segments)) ==>
      CorrectedStep(st, true, isSignedIn, segments).1 == Some(TabsChats)
  {
  }

  /** The corrected effect redirects the sign-out on a tab to `/`. */
  lemma CorrectedSignOutOnTabsRedirected()
    ensures var signedIn := CorrectedStep(CheckedState(false, None, false), true, true, ["(tabs)", "settings"]);
      && signedIn.1 == None
      && CorrectedStep(signedIn.0, true, false, ["(tabs)", "settings"]).1 == Some(Home)
  {
  }

  /** The AuthRedirect component. */
  class AuthRedirect {
    var initialAuthChecked: bool
    var currentMainSegment: Segment

    constructor ()
      ensures !initialAuthChecked && currentMainSegment == None
    {
      initialAuthChecked := false;
      currentMainSegment := None;
    }

    function State(): RedirectState
      reads this
    {
      RedirectState(initialAuthChecked, currentMainSegment)
    }

    /** One run of the effect: the route it replaces the current one with, if any. */
    method RunEffect(isLoaded: bool, isSignedIn: bool, segments: seq<string>) returns (redirect: Option<Route>)
      modifies this
      ensures StepResult(State(), redirect) == Step(old(State()), isLoaded, isSignedIn, segments)
    {
      if !isLoaded {
        return None;
      }
      var mainSegment := MainSegment(segments);
      if initialAuthChecked && mainSegment == currentMainSegment {
        return None;
      }
      currentMainSegment := mainSegment;
      var inTabsGroup := mainSegment == Some("(tabs)");
      var isProtectedRoute := inTabsGroup;
      var isAuthRoute := mainSegment == None || mainSegment == Some("otp") || mainSegment == Some("verify");
      if isSignedIn && isAuthRoute {
        redirect := Some(TabsChats);
      } else if !isSignedIn && isProtectedRoute {
        redirect := Some(Home);
      } else {
        redirect := None;
      }
      if !initialAuthChecked {
        initialAuthChecked := true;
      }
    }
  }
}
