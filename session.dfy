/**
 * The session gate of the browser client (frontend/src/App.tsx).
 *
 * One flag, `isLoggedIn`, starts false. The mount effect raises it when a
 * truthy token is stored, and the login form's `onLoginSuccess` callback
 * raises it unconditionally; nothing lowers it. The flag alone selects which
 * of two pages is rendered. The stored token is an `Option<string>` argument
 * (the value `localStorage.getItem('token')` returns).
 */
module Session {
  import opened Wrappers

  /** The two pages the gate chooses between. */
  datatype Page = GeneratorPage | LoginPage

  /** The flag after the mount effect has run with the given stored token. */
  function Mounted(loggedIn: bool, stored: Option<string>): (r: bool)
    ensures r <==> loggedIn || Truthy(stored)
  {
    if Truthy(stored) then true else loggedIn
  }

  /**
   * The page rendered for a value of the flag: exactly one of the two, the
   * generator page exactly when logged in.
   */
  function Render(loggedIn: bool): (page: Page)
    ensures page == GeneratorPage <==> loggedIn
    ensures page == LoginPage <==> !loggedIn
  {
    if loggedIn then GeneratorPage else LoginPage
  }

  /** What can change the flag: the mount effect, or a successful login. */
  datatype Event = Mount(stored: Option<string>) | LoginSucceeded

  function Step(loggedIn: bool, e: Event): (r: bool)
    ensures loggedIn ==> r
    ensures e.LoginSucceeded? ==> r
    ensures e.Mount? ==> r == Mounted(loggedIn, e.stored)
  {
    match e
    case Mount(stored) => Mounted(loggedIn, stored)
    case LoginSucceeded => true
  }

  function Run(loggedIn: bool, events: seq<Event>): bool
    decreases |events|
  {
    if events == [] then loggedIn else Run(Step(loggedIn, events[0]), events[1..])
  }

  /** No sequence of events ever lowers the flag again. */
  lemma {:induction false} RunNeverLogsOut(loggedIn: bool, events: seq<Event>)
    requires loggedIn
    ensures Run(loggedIn, events)
    decreases |events|
  {
    if events != [] {
      RunNeverLogsOut(Step(loggedIn, events[0]), events[1..]);
    }
  }

  /** The events that raise the flag: a login success, or a mount that finds a truthy token. */
  predicate RaisesFlag(e: Event)
  {
    e.LoginSucceeded? || (e.Mount? && Truthy(e.stored))
  }

  /** The flag is true after a run exactly when it was true before or some event of the run raises it. */
  lemma {:induction false} RunRaisesOnlyWithCause(loggedIn: bool, events: seq<Event>)
    ensures Run(loggedIn, events) <==> loggedIn || exists i :: 0 <= i < |events| && RaisesFlag(events[i])
    decreases |events|
  {
    if events != [] {
      var tail := events[1..];
      RunRaisesOnlyWithCause(Step(loggedIn, events[0]), tail);
      if exists i :: 0 <= i < |events| && RaisesFlag(events[i]) {
        var i :| 0 <= i < |events| && RaisesFlag(events[i]);
        if i > 0 {
          assert tail[i - 1] == events[i];
        }
      }
      if exists j :: 0 <= j < |tail| && RaisesFlag(tail[j]) {
        var j :| 0 <= j < |tail| && RaisesFlag(tail[j]);
        assert events[j + 1] == tail[j];
      }
    }
  }

  /**
   * A session that starts logged out and sees no truthy token and no login
   * success stays on the login page.
   */
  lemma {:induction false} NoCauseStaysOnLoginPage(events: seq<Event>)
    requires forall i :: 0 <= i < |events| ==> !RaisesFlag(events[i])
    ensures Render(Run(false, events)) == LoginPage
  {
    RunRaisesOnlyWithCause(false, events);
  }

  /** After a successful login the generator page stays rendered whatever happens next. */
  lemma {:induction false} LoginIsFinal(loggedIn: bool, before: seq<Event>, after: seq<Event>)
    ensures Render(Run(loggedIn, before + [LoginSucceeded] + after)) == GeneratorPage
    decreases |before|
  {
    if before == [] {
      assert before + [LoginSucceeded] + after == [LoginSucceeded] + after;
      RunNeverLogsOut(true, after);
    } else {
      assert before + [LoginSucceeded] + after == [before[0]] + (before[1..] + [LoginSucceeded] + after);
      LoginIsFinal(Step(loggedIn, before[0]), before[1..], after);
    }
  }

  /** The root component: the flag as a field, the effect and the callback as methods. */
  class App {
    var isLoggedIn: bool

    /** The flag starts false, so the login page is rendered first. */
    constructor ()
      ensures !isLoggedIn && View() == LoginPage
    {
      isLoggedIn := false;
    }

    /** The page rendered for the current flag. */
    function View(): (page: Page)
      reads this
      ensures page == GeneratorPage <==> isLoggedIn
      ensures page == LoginPage <==> !isLoggedIn
    {
      Render(isLoggedIn)
    }

    /** The mount effect: raise the flag if a truthy token is stored; otherwise leave it. */
    method Mount(stored: Option<string>)
      modifies this
      ensures isLoggedIn == Mounted(old(isLoggedIn), stored)
      ensures old(isLoggedIn) ==> isLoggedIn
    {
      if Truthy(stored) {
        isLoggedIn := true;
      }
    }

    /** The callback handed to the login form. */
    method OnLoginSuccess()
      modifies this
      ensures isLoggedIn && View() == GeneratorPage
    {
      isLoggedIn := true;
    }
  }

  /**
   * A freshly mounted application shows the generator page exactly when a
   * truthy token is stored; a missing or empty token leaves the login page.
   */
  method MountFresh(stored: Option<string>) returns (app: App)
    ensures app.isLoggedIn <==> Truthy(stored)
    ensures app.View() == (if Truthy(stored) then GeneratorPage else LoginPage)
  {
    app := new App();
    app.Mount(stored);
  }

  /** Logging in is idempotent: a second success changes nothing. */
  lemma LoginSuccessIdempotent(loggedIn: bool)
    ensures Step(Step(loggedIn, LoginSucceeded), LoginSucceeded) == Step(loggedIn, LoginSucceeded)
  {
  }
}
