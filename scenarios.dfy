/** Whole interactions with the auth manager and the protected controls,
    each on a fresh store: what a user who is not signed in sees when a
    deferred action meets a later login, a logout or a reload. */
module Scenarios {
  import opened Wrappers
  import opened Storage
  import opened UserRecord
  import opened Actions
  import opened Auth
  import opened QuickActions

  /** A protected card clicked while signed out runs after the next
      successful login, exactly once. */
  method DeferredActionRunsOnce(action: string, title: string, email: string, password: string,
                                now: nat, createdAt: string)
    returns (onClick: Option<Effect>, onLogin: Option<Effect>, afterwards: Option<PendingAction>)
    requires !Unprotected(action) && email != "" && password != ""
    ensures onClick == None
    ensures onLogin == Some(ExecuteAction(action))
    ensures afterwards == None
  {
    var storage := new LocalStorage(map[]);
    var m, _ := AuthManager.Create(storage);
    onClick := HandleActionClick(m, action, title);
    var _, e := m.SubmitLoginForm(email, password, now, createdAt);
    onLogin := e;
    afterwards := m.ExecutePendingAction();
  }

  /** A refused login keeps the deferred action, and the next good login
      still runs it. */
  method FailedLoginKeepsAction(platform: string, name: string, email: string, password: string,
                                now: nat, createdAt: string)
    returns (refused: Result<User, AuthError>, onRefusal: Option<Effect>, onLogin: Option<Effect>)
    requires email != "" && password != ""
    ensures refused == Err(InvalidCredentials) && onRefusal == None
    ensures onLogin == Some(ExecuteSocialAction(platform))
  {
    var storage := new LocalStorage(map[]);
    var m, _ := AuthManager.Create(storage);
    var _ := HandleSocialClick(m, platform, name);
    refused, onRefusal := m.SubmitLoginForm(email, "", now, createdAt);
    var _, e := m.SubmitLoginForm(email, password, now, createdAt);
    onLogin := e;
  }

  /** The slot holds one action: a second protected click replaces the first. */
  method LaterClickWins(first: string, second: string, email: string, password: string,
                        now: nat, createdAt: string)
    returns (onLogin: Option<Effect>)
    requires !Unprotected(first) && !Unprotected(second) && email != "" && password != ""
    ensures onLogin == Some(ExecuteAction(second))
  {
    var storage := new LocalStorage(map[]);
    var m, _ := AuthManager.Create(storage);
    var _ := HandleActionClick(m, first, "");
    m.HideAuthModal();
    var _ := HandleActionClick(m, second, "");
    var _, e := m.SubmitLoginForm(email, password, now, createdAt);
    onLogin := e;
  }

  /** Opening the dialog from the "Login" entry forgets a deferred action. */
  method LoginButtonForgetsAction(action: string, email: string, password: string,
                                  now: nat, createdAt: string)
    returns (onLogin: Option<Effect>)
    requires !Unprotected(action) && email != "" && password != ""
    ensures onLogin == None
  {
    var storage := new LocalStorage(map[]);
    var m, _ := AuthManager.Create(storage);
    var _ := HandleActionClick(m, action, "");
    m.ClickLoginButton();
    var _, e := m.SubmitLoginForm(email, password, now, createdAt);
    onLogin := e;
  }

  /** A logout does not empty the slot: an action deferred before it still
      runs at the next login. */
  method ActionSurvivesLogout(email: string, password: string, now: nat, createdAt: string)
    returns (onLogin: Option<Effect>)
    requires email != "" && password != ""
    ensures onLogin == Some(Toast("Upgrade available for Pro members!"))
  {
    var storage := new LocalStorage(map[]);
    var m, _ := AuthManager.Create(storage);
    var _ := ClickSidebarUpgrade(m);
    m.HideAuthModal();
    m.Logout();
    var _, e := m.SubmitLoginForm(email, password, now, createdAt);
    onLogin := e;
  }

  /** A signed-in user is signed in again after a reload of the page, and
      signed out after a logout and a reload. */
  method SessionAcrossReloads(email: string, password: string, now: nat, createdAt: string)
    returns (afterLogin: LoadOutcome, afterLogout: LoadOutcome)
    requires email != "" && password != ""
    ensures afterLogin == Restored(NewUser(email, now, createdAt))
    ensures afterLogout == NothingStored
  {
    var storage := new LocalStorage(map[]);
    var m, _ := AuthManager.Create(storage);
    var _ := m.Login(email, password, now, createdAt);
    var reloaded, o := AuthManager.Create(storage);
    afterLogin := o;
    reloaded.Logout();
    var _, o2 := AuthManager.Create(storage);
    afterLogout := o2;
  }

  /** Registering checks only the passwords: an empty email that a login
      refuses is accepted. */
  method RegisterTakesEmptyEmail(now: nat, createdAt: string)
    returns (login: Result<User, AuthError>, register: Result<User, AuthError>)
    ensures login == Err(InvalidCredentials)
    ensures register.Ok? && register.value.email == ""
  {
    var storage := new LocalStorage(map[]);
    var m, _ := AuthManager.Create(storage);
    login := m.Login("", "secret", now, createdAt);
    register := m.Register("", "secret", "secret", now, createdAt);
  }
}
