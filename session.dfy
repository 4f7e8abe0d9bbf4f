/**
 * The per-browser session: the four `st.session_state` fields and the user
 * actions that change them (login form, theme selector, tutorial buttons,
 * logout), together with the login gate of `main`.
 *
 * `State` and `Step` are the value-level description of one transition; the
 * class `SessionState` holds the fields the application mutates, and each of
 * its methods is proved to perform exactly `Step` for its action.
 */
module Session {
  import opened Options
  import opened Themes

  const DemoUser := "aurum"
  const DemoPassword := "aurum"

  /** A snapshot of the session fields. `user` is unset until the first login. */
  datatype State = State(loggedIn: bool, theme: ThemeKey, hideTutorial: bool, user: Option<string>)

  /** The defaults installed when a session starts. */
  const Initial := State(false, Pastel, false, None)

  /** The user actions that write to the session. */
  datatype Action =
    | SubmitLogin(username: string, password: string)
    | SelectTheme(selected: ThemeKey)
    | DismissTutorial
    | ShowTutorial
    | Logout

  /** What each handler does to the session, whatever state it runs in. */
  function Step(s: State, a: Action): State {
    match a
    case SubmitLogin(u, p) =>
      if u == DemoUser && p == DemoPassword then s.(loggedIn := true, user := Some(u)) else s
    case SelectTheme(k) =>
      if k != s.theme then s.(theme := k) else s
    case DismissTutorial => s.(hideTutorial := true)
    case ShowTutorial => s.(hideTutorial := false)
    case Logout => s.(loggedIn := false)
  }

  /** The session after a sequence of actions, first to last. */
  function Run(s: State, acts: seq<Action>): State
    decreases |acts|
  {
    if acts == [] then s else Run(Step(s, acts[0]), acts[1..])
  }

  /** What one rerun of the script shows: the login form, or the dashboard. */
  datatype Screen =
    | LoginScreen
    | Dashboard(theme: ThemeKey, guideVisible: bool, showTutorialOffered: bool)

  /** The login gate of `main`, the guide test and the sidebar's tutorial button. */
  function CurrentScreen(s: State): (v: Screen)
    ensures v.LoginScreen? <==> !s.loggedIn
    ensures v.Dashboard? ==> v.theme == s.theme
    ensures v.Dashboard? ==> (v.guideVisible <==> !s.hideTutorial)
    ensures v.Dashboard? ==> (v.showTutorialOffered <==> s.hideTutorial)
  {
    if !s.loggedIn then LoginScreen
    else Dashboard(s.theme, !s.hideTutorial, s.hideTutorial)
  }

  /** Once set, `user` only ever holds the demo user, and a logged-in session has it. */
  predicate UserInvariant(s: State) {
    && (s.user == None || s.user == Some(DemoUser))
    && (s.loggedIn ==> s.user == Some(DemoUser))
  }

  /** Login succeeds exactly on the demo pair; a refused pair changes nothing. */
  lemma LoginExactPair(s: State, u: string, p: string)
    requires !s.loggedIn
    ensures Step(s, SubmitLogin(u, p)).loggedIn <==> u == DemoUser && p == DemoPassword
    ensures u == DemoUser && p == DemoPassword ==>
      Step(s, SubmitLogin(u, p)) == s.(loggedIn := true, user := Some(u))
    ensures !(u == DemoUser && p == DemoPassword) ==> Step(s, SubmitLogin(u, p)) == s
  {
  }

  /** Logout clears the login flag only: theme, tutorial flag and user persist. */
  lemma LogoutKeepsPreferences(s: State)
    ensures Step(s, Logout) == s.(loggedIn := false)
    ensures CurrentScreen(Step(s, Logout)) == LoginScreen
  {
  }

  /** Every action keeps the user invariant, so every reachable session satisfies it. */
  lemma {:induction false} RunKeepsUserInvariant(s: State, acts: seq<Action>)
    requires UserInvariant(s)
    ensures UserInvariant(Run(s, acts))
    decreases |acts|
  {
    if acts != [] {
      RunKeepsUserInvariant(Step(s, acts[0]), acts[1..]);
    }
  }

  lemma InitialSatisfiesUserInvariant()
    ensures UserInvariant(Initial)
    ensures CurrentScreen(Initial) == LoginScreen
  {
  }

  /** The dashboard can only be reached through a submission of the demo pair. */
  lemma {:induction false} DashboardNeedsLogin(s: State, acts: seq<Action>)
    requires !s.loggedIn
    requires Run(s, acts).loggedIn
    ensures SubmitLogin(DemoUser, DemoPassword) in acts
    decreases |acts|
  {
    if acts == [] {
    } else {
      var t := Step(s, acts[0]);
      if t.loggedIn {
        assert acts[0] == SubmitLogin(DemoUser, DemoPassword);
      } else {
        DashboardNeedsLogin(t, acts[1..]);
        assert acts == [acts[0]] + acts[1..];
      }
    }
  }

  /** Only the theme selector writes the theme: logins, logouts and tutorial toggles keep it. */
  lemma {:induction false} ThemeOnlyChangedBySelector(s: State, acts: seq<Action>)
    requires forall i :: 0 <= i < |acts| ==> !acts[i].SelectTheme?
    ensures Run(s, acts).theme == s.theme
    decreases |acts|
  {
    if acts != [] {
      ThemeOnlyChangedBySelector(Step(s, acts[0]), acts[1..]);
    }
  }

  /** Only the two tutorial buttons write the tutorial flag; in particular logout keeps it. */
  lemma {:induction false} TutorialOnlyChangedByButtons(s: State, acts: seq<Action>)
    requires forall i :: 0 <= i < |acts| ==> !acts[i].DismissTutorial? && !acts[i].ShowTutorial?
    ensures Run(s, acts).hideTutorial == s.hideTutorial
    decreases |acts|
  {
    if acts != [] {
      TutorialOnlyChangedByButtons(Step(s, acts[0]), acts[1..]);
    }
  }

  /** Choosing another theme and then the first one again restores the original palette. */
  lemma {:induction false} ThemeSwitchBack(s: State, other: ThemeKey)
    ensures var t := Run(s, [SelectTheme(other), SelectTheme(s.theme)]);
      t == s && ThemeColors(t.theme) == ThemeColors(s.theme)
  {
    var t1 := Step(s, SelectTheme(other));
    assert Run(s, [SelectTheme(other), SelectTheme(s.theme)]) == Run(t1, [SelectTheme(s.theme)]);
    assert Run(t1, [SelectTheme(s.theme)]) == Run(Step(t1, SelectTheme(s.theme)), []);
  }

  /**
   * Dismissing the guide, logging out and logging back in leaves the guide
   * hidden: the flag survives logout.
   */
  lemma DismissSurvivesLogout(s: State)
    requires s.loggedIn
    ensures var t := Run(s, [DismissTutorial, Logout, SubmitLogin(DemoUser, DemoPassword)]);
      t.loggedIn && t.hideTutorial && CurrentScreen(t).Dashboard? && !CurrentScreen(t).guideVisible
  {
    var acts := [DismissTutorial, Logout, SubmitLogin(DemoUser, DemoPassword)];
    var s1 := Step(s, DismissTutorial);
    var s2 := Step(s1, Logout);
    var s3 := Step(s2, SubmitLogin(DemoUser, DemoPassword));
    assert Run(s, acts) == Run(s1, acts[1..]);
    assert Run(s1, acts[1..]) == Run(s2, acts[2..]);
    assert Run(s2, acts[2..]) == Run(s3, []);
  }

  /** The session fields as `st.session_state` holds them, updated in place by the handlers. */
  class SessionState {
    var loggedIn: bool
    var theme: ThemeKey
    var hideTutorial: bool
    var user: Option<string>

    function Snapshot(): State
      reads this
    {
      State(loggedIn, theme, hideTutorial, user)
    }

    /** The first rerun of a session installs the defaults. */
    constructor ()
      ensures Snapshot() == Initial
      ensures !loggedIn && theme == Pastel && !hideTutorial && user == None
    {
      loggedIn := false;
      theme := Pastel;
      hideTutorial := false;
      user := None;
    }

    /** The login form's submit handler; `ok` is false when the error message is shown. */
    method Login(username: string, password: string) returns (ok: bool)
      modifies this
      ensures ok <==> username == DemoUser && password == DemoPassword
      ensures ok ==> loggedIn && user == Some(username)
      ensures !ok ==> loggedIn == old(loggedIn) && user == old(user)
      ensures theme == old(theme) && hideTutorial == old(hideTutorial)
      ensures Snapshot() == Step(old(Snapshot()), SubmitLogin(username, password))
    {
      ok := username == DemoUser && password == DemoPassword;
      if ok {
        loggedIn := true;
        user := Some(username);
      }
    }

    /**
     * The sidebar selector: a theme different from the current one replaces it.
     * The widget forgets its value while the login screen is shown, so the
     * first dashboard run after a login selects `Pastel` through this method.
     */
    method SelectTheme(selected: ThemeKey)
      modifies this
      ensures theme == selected
      ensures loggedIn == old(loggedIn) && hideTutorial == old(hideTutorial) && user == old(user)
      ensures Snapshot() == Step(old(Snapshot()), Action.SelectTheme(selected))
    {
      if selected != theme {
        theme := selected;
      }
    }

    /** The guide's "do not show again" button. */
    method DismissTutorial()
      modifies this
      ensures hideTutorial
      ensures loggedIn == old(loggedIn) && theme == old(theme) && user == old(user)
      ensures Snapshot() == Step(old(Snapshot()), Action.DismissTutorial)
    {
      hideTutorial := true;
    }

    /** The sidebar button that brings the guide back. */
    method ShowTutorial()
      modifies this
      ensures !hideTutorial
      ensures loggedIn == old(loggedIn) && theme == old(theme) && user == old(user)
      ensures Snapshot() == Step(old(Snapshot()), Action.ShowTutorial)
    {
      hideTutorial := false;
    }

    /** The sidebar logout button: only the login flag is cleared. */
    method Logout()
      modifies this
      ensures !loggedIn
      ensures theme == old(theme) && hideTutorial == old(hideTutorial) && user == old(user)
      ensures Snapshot() == Step(old(Snapshot()), Action.Logout)
    {
      loggedIn := false;
    }
  }
}
