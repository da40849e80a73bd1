/**
  The admin page's password gate: the page is unlocked for the rest of the browser session
  once the right password is entered, through the `admin_auth` entry of the session
  storage, and locked again by logging out.
 */
module AdminLogin {
  import opened Wrappers

  const AuthKey := "admin_auth"
  const DefaultPassword := "admin123"
  const IncorrectPassword := "Incorrect password"

  /** `import.meta.env.VITE_ADMIN_PASSWORD || "admin123"`: an unset or empty value falls back to the default. */
  function ExpectedPassword(env: Option<string>): (r: string)
    ensures env.Some? && env.value != "" ==> r == env.value
    ensures env.None? || env.value == "" ==> r == DefaultPassword
    ensures r != ""
  {
    if env.Some? && env.value != "" then env.value else DefaultPassword
  }

  /** Whether a storage map carries the unlocked flag (`getItem("admin_auth") === "true"`). */
  predicate Unlocked(items: map<string, string>) {
    AuthKey in items && items[AuthKey] == "true"
  }

  /** The browser tab's `sessionStorage`, which outlives page loads. */
  class Session {
    var items: map<string, string>

    constructor (items: map<string, string>)
      ensures this.items == items
    {
      this.items := items;
    }
  }

  class AdminPage {
    var isAuthenticated: bool
    var password: string
    var error: string
    const session: Session
    /** The password the build was configured with. */
    const adminPassword: string

    /** The page's flag agrees with the stored one, and an unlocked page shows no error. */
    ghost predicate Valid()
      reads this, session
    {
      && (isAuthenticated <==> Unlocked(session.items))
      && (isAuthenticated ==> error == "")
      && adminPassword != ""
    }

    /** Loading the page: unlocked exactly when the session already says so. */
    constructor (session: Session, env: Option<string>)
      ensures Valid()
      ensures this.session == session && adminPassword == ExpectedPassword(env)
      ensures isAuthenticated == Unlocked(session.items)
      ensures password == "" && error == ""
    {
      this.session := session;
      adminPassword := ExpectedPassword(env);
      isAuthenticated := Unlocked(session.items);
      password := "";
      error := "";
    }

    /** Typing into the password field. */
    method SetPassword(value: string)
      requires Valid()
      modifies this
      ensures Valid()
      ensures password == value
      ensures isAuthenticated == old(isAuthenticated) && error == old(error)
    {
      password := value;
    }

    /**
      Submitting the login form, which is shown only while locked: the right password
      unlocks the page and the session and clears the error; a wrong one shows
      "Incorrect password" and clears the field, leaving the lock and the storage as they were.
     */
    method HandleLogin()
      requires Valid() && !isAuthenticated
      modifies this, session
      ensures Valid()
      ensures old(password) == adminPassword ==>
        isAuthenticated && error == "" && password == old(password)
        && session.items == old(session.items)[AuthKey := "true"]
      ensures old(password) != adminPassword ==>
        !isAuthenticated && error == IncorrectPassword && password == ""
        && session.items == old(session.items)
    {
      if password == adminPassword {
        isAuthenticated := true;
        session.items := session.items[AuthKey := "true"];
        error := "";
      } else {
        error := IncorrectPassword;
        password := "";
      }
    }

    /** Logging out: locked again, the flag removed from the session, the field cleared. */
    method HandleLogout()
      requires Valid()
      modifies this, session
      ensures Valid()
      ensures !isAuthenticated && password == "" && error == old(error)
      ensures session.items == old(session.items) - {AuthKey}
    {
      isAuthenticated := false;
      session.items := session.items - {AuthKey};
      password := "";
    }
  }

  /**
    Logging in survives a reload within the session; logging out locks the page, and a
    reload after that stays locked.
   */
  method LoginSurvivesReload(env: Option<string>) returns (unlocked: bool, reloaded: bool, loggedOut: bool, reloadedAgain: bool)
    ensures unlocked && reloaded && !loggedOut && !reloadedAgain
  {
    var session := new Session(map[]);
    var page := new AdminPage(session, env);
    page.SetPassword(ExpectedPassword(env));
    page.HandleLogin();
    unlocked := page.isAuthenticated;
    var again := new AdminPage(session, env);
    reloaded := again.isAuthenticated;
    again.HandleLogout();
    loggedOut := again.isAuthenticated;
    var third := new AdminPage(session, env);
    reloadedAgain := third.isAuthenticated;
  }

  /** With no configured password, a wrong guess is refused and the empty password never unlocks. */
  method WrongPasswordIsRefused() returns (error: string, field: string, unlocked: bool, emptyUnlocks: bool)
    ensures error == IncorrectPassword && field == "" && !unlocked && !emptyUnlocks
  {
    var session := new Session(map["theme" := "dark"]);
    var page := new AdminPage(session, None);
    page.SetPassword("letmein");
    page.HandleLogin();
    error, field, unlocked := page.error, page.password, page.isAuthenticated;
    page.HandleLogin();
    emptyUnlocks := page.isAuthenticated;
  }
}
