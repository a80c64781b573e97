/** The mocked authentication manager: the signed-in user, the stored copy of
    that user, the auth dialog, and the one-slot deferred action that a
    protected control leaves for after sign-in.

    The simulated network delay of login and registration is not modelled:
    each is one atomic step, and the clock readings it takes (`Date.now()` and
    the ISO creation time) are parameters. */
module Auth {
  import opened Wrappers
  import opened UserRecord
  import opened Storage
  import opened Actions

  const UserKey: string := "automatter_user"
  const MinPasswordLength: nat := 6

  datatype AuthError = InvalidCredentials | PasswordMismatch | PasswordTooShort

  /** The document events the manager dispatches. */
  datatype AuthEvent = LoginSucceeded | LoggedOut

  /** What reading the stored user finds. `ParseThrows` is text that
      `ParseUser` cannot read, which the model treats as a `JSON.parse` that
      throws; the manager does not catch it. */
  datatype LoadOutcome = NothingStored | Restored(user: User) | ParseThrows

  /** `if (email && password)`: both strings non-empty. */
  predicate LoginAccepts(email: string, password: string) {
    email != "" && password != ""
  }

  /** Registration's two checks, in the order the manager makes them. The
      email is not checked at all. */
  function RegisterCheck(password: string, confirm: string): (r: Outcome<AuthError>)
    ensures r.Pass? <==> password == confirm && |password| >= MinPasswordLength
    ensures r == Fail(PasswordMismatch) <==> password != confirm
  {
    if password != confirm then Fail(PasswordMismatch)
    else if |password| < MinPasswordLength then Fail(PasswordTooShort)
    else Pass
  }

  /** Registration is an ordered validator: the mismatch rule, then the
      length rule. */
  lemma RegisterCheckOrdered(password: string, confirm: string)
    ensures RegisterCheck(password, confirm)
         == FirstFailure([(password == confirm, PasswordMismatch),
                          (|password| >= MinPasswordLength, PasswordTooShort)])
  {
    FirstFailureOfTwo(password == confirm, PasswordMismatch, |password| >= MinPasswordLength, PasswordTooShort);
  }

  /** What `loadUserFromStorage` finds in a store. An empty stored string is
      falsy and so is treated like an absent key. */
  function LoadFrom(items: map<string, string>): (o: LoadOutcome)
    ensures o == NothingStored <==> UserKey !in items || items[UserKey] == ""
    ensures o.Restored? ==> ParseUser(items[UserKey]) == Some(o.user)
  {
    if UserKey !in items || items[UserKey] == "" then NothingStored
    else match ParseUser(items[UserKey])
      case None => ParseThrows
      case Some(u) => Restored(u)
  }

  /** A saved user is found again by the next load. */
  lemma SaveThenLoad(items: map<string, string>, u: User)
    ensures LoadFrom(items[UserKey := SerializeUser(u)]) == Restored(u)
  {
    UserRoundTrip(u);
  }

  /** After the key is removed the next load finds nothing. */
  lemma RemoveThenLoad(items: map<string, string>)
    ensures LoadFrom(items - {UserKey}) == NothingStored
  {
  }

  /** The effect of running what the slot held, if anything. */
  function RunSlot(a: Option<PendingAction>): (e: Option<Effect>)
    ensures e.Some? <==> a.Some?
  {
    if a.Some? then Some(Perform(a.value)) else None
  }

  class AuthManager {
    var user: Option<User>
    var pendingAction: Option<PendingAction>
    var modalVisible: bool
    var events: seq<AuthEvent>
    const storage: LocalStorage

    /** The stored copy describes the signed-in user. */
    ghost predicate Valid()
      reads this, storage
    {
      user.Some? ==> UserKey in storage.items && ParseUser(storage.items[UserKey]) == Some(user.value)
    }

    /** The field initialisers of `new AuthManager()`; the stored user is read
        by `LoadUserFromStorage`, which the constructor calls next (see
        `Create`). */
    constructor (storage: LocalStorage)
      ensures this.storage == storage
      ensures user == None && pendingAction == None && !modalVisible && events == []
      ensures Valid()
    {
      this.storage := storage;
      user := None;
      pendingAction := None;
      modalVisible := false;
      events := [];
    }

    /** `new AuthManager()`: initialise, then read the stored user. When the
        outcome is `ParseThrows` the constructor throws in the dashboard. */
    static method Create(storage: LocalStorage) returns (m: AuthManager, o: LoadOutcome)
      ensures fresh(m) && m.storage == storage && m.Valid()
      ensures o == LoadFrom(storage.items)
      ensures m.user == (if o.Restored? then Some(o.user) else None)
      ensures m.pendingAction == None && !m.modalVisible && m.events == []
    {
      m := new AuthManager(storage);
      o := m.LoadUserFromStorage();
    }

    /** `loadUserFromStorage`: a stored, parseable user becomes the signed-in
        user; nothing stored leaves the state alone; unparseable text throws
        before anything is assigned. */
    method LoadUserFromStorage() returns (o: LoadOutcome)
      requires Valid()
      modifies this
      ensures Valid()
      ensures o == LoadFrom(storage.items)
      ensures user == (if o.Restored? then Some(o.user) else old(user))
      ensures pendingAction == old(pendingAction) && modalVisible == old(modalVisible)
      ensures events == old(events)
    {
      var stored := storage.GetItem(UserKey);
      if stored.Some? && stored.value != "" {
        var parsed := ParseUser(stored.value);
        if parsed.None? {
          return ParseThrows;
        }
        user := parsed;
        o := Restored(parsed.value);
      } else {
        o := NothingStored;
      }
    }

    /** `saveUserToStorage`: writes the user under its key, or nothing when
        no one is signed in. */
    method SaveUserToStorage()
      modifies storage
      ensures user.Some? ==> storage.items == old(storage.items)[UserKey := SerializeUser(user.value)]
      ensures user.None? ==> storage.items == old(storage.items)
      ensures Valid()
    {
      if user.Some? {
        storage.SetItem(UserKey, SerializeUser(user.value));
        UserRoundTrip(user.value);
      }
    }

    /** `login(email, password)`: accepts exactly when both are non-empty,
        then signs in a new user and saves it; a refusal changes nothing. */
    method Login(email: string, password: string, now: nat, createdAt: string)
      returns (r: Result<User, AuthError>)
      requires Valid()
      modifies this, storage
      ensures Valid()
      ensures LoginAccepts(email, password) ==>
        r == Ok(NewUser(email, now, createdAt)) && user == Some(r.value)
        && storage.items == old(storage.items)[UserKey := SerializeUser(r.value)]
      ensures !LoginAccepts(email, password) ==>
        r == Err(InvalidCredentials) && user == old(user) && storage.items == old(storage.items)
      ensures pendingAction == old(pendingAction) && modalVisible == old(modalVisible)
      ensures events == old(events)
    {
      if email != "" && password != "" {
        user := Some(NewUser(email, now, createdAt));
        SaveUserToStorage();
        r := Ok(user.value);
      } else {
        r := Err(InvalidCredentials);
      }
    }

    /** `register(email, password, confirmPassword)`: the password checks come
        first and decide the error; otherwise the user is created exactly as
        by a login with the same email. */
    method Register(email: string, password: string, confirm: string, now: nat, createdAt: string)
      returns (r: Result<User, AuthError>)
      requires Valid()
      modifies this, storage
      ensures Valid()
      ensures RegisterCheck(password, confirm).Fail? ==>
        r == Err(RegisterCheck(password, confirm).error)
        && user == old(user) && storage.items == old(storage.items)
      ensures RegisterCheck(password, confirm).Pass? ==>
        r == Ok(NewUser(email, now, createdAt)) && user == Some(r.value)
        && storage.items == old(storage.items)[UserKey := SerializeUser(r.value)]
      ensures pendingAction == old(pendingAction) && modalVisible == old(modalVisible)
      ensures events == old(events)
    {
      if password != confirm {
        return Err(PasswordMismatch);
      }
      if |password| < MinPasswordLength {
        return Err(PasswordTooShort);
      }
      user := Some(NewUser(email, now, createdAt));
      SaveUserToStorage();
      r := Ok(user.value);
    }

    /** `logout`: forgets the user and its stored copy, announces it and
        hides the dialog. The deferred action is kept. */
    method Logout()
      requires Valid()
      modifies this, storage
      ensures Valid()
      ensures user == None && storage.items == old(storage.items) - {UserKey}
      ensures events == old(events) + [LoggedOut]
      ensures !modalVisible
      ensures pendingAction == old(pendingAction)
    {
      user := None;
      storage.RemoveItem(UserKey);
      events := events + [LoggedOut];
      HideAuthModal();
    }

    /** `showAuthModal(pendingAction = null)`: the slot takes the argument,
        whatever it held before. */
    method ShowAuthModal(a: Option<PendingAction>)
      modifies this
      ensures pendingAction == a && modalVisible
      ensures user == old(user) && events == old(events)
    {
      pendingAction := a;
      modalVisible := true;
    }

    /** `hideAuthModal`: only the dialog's visibility changes. */
    method HideAuthModal()
      modifies this
      ensures !modalVisible
      ensures user == old(user) && pendingAction == old(pendingAction) && events == old(events)
    {
      modalVisible := false;
    }

    /** `executePendingAction`: hands back what the slot held, to be run once,
        and empties it; an empty slot gives nothing to run. */
    method ExecutePendingAction() returns (ran: Option<PendingAction>)
      modifies this
      ensures ran == old(pendingAction) && pendingAction == None
      ensures user == old(user) && modalVisible == old(modalVisible) && events == old(events)
    {
      ran := pendingAction;
      if pendingAction.Some? {
        pendingAction := None;
      }
    }

    /** The login form: on success the dialog closes, `login-success` is
        dispatched and the deferred action runs; on failure only an error
        toast is shown. */
    method SubmitLoginForm(email: string, password: string, now: nat, createdAt: string)
      returns (r: Result<User, AuthError>, effect: Option<Effect>)
      requires Valid()
      modifies this, storage
      ensures Valid()
      ensures r.Ok? <==> LoginAccepts(email, password)
      ensures r.Err? ==> r.error == InvalidCredentials
      ensures r.Ok? ==> (user == Some(r.value) && r.value.email == email && !modalVisible
        && events == old(events) + [LoginSucceeded]
        && effect == RunSlot(old(pendingAction)) && pendingAction == None)
      ensures r.Err? ==> (user == old(user) && modalVisible == old(modalVisible)
        && events == old(events) && effect == None && pendingAction == old(pendingAction)
        && storage.items == old(storage.items))
    {
      r := Login(email, password, now, createdAt);
      effect := None;
      if r.Ok? {
        HideAuthModal();
        events := events + [LoginSucceeded];
        var ran := ExecutePendingAction();
        effect := RunSlot(ran);
      }
    }

    /** The register form: like the login form, except that no
        `login-success` event is dispatched. */
    method SubmitRegisterForm(email: string, password: string, confirm: string, now: nat, createdAt: string)
      returns (r: Result<User, AuthError>, effect: Option<Effect>)
      requires Valid()
      modifies this, storage
      ensures Valid()
      ensures r.Ok? <==> RegisterCheck(password, confirm).Pass?
      ensures r.Err? ==> r.error == RegisterCheck(password, confirm).error
      ensures r.Ok? ==> (user == Some(r.value) && r.value.email == email && !modalVisible
        && effect == RunSlot(old(pendingAction)) && pendingAction == None)
      ensures r.Err? ==> (user == old(user) && modalVisible == old(modalVisible)
        && effect == None && pendingAction == old(pendingAction)
        && storage.items == old(storage.items))
      ensures events == old(events)
    {
      r := Register(email, password, confirm, now, createdAt);
      effect := None;
      if r.Ok? {
        HideAuthModal();
        var ran := ExecutePendingAction();
        effect := RunSlot(ran);
      }
    }

    /** The "Login" entry of the user menu opens the dialog with no
        deferred action, emptying the slot. */
    method ClickLoginButton()
      modifies this
      ensures pendingAction == None && modalVisible
      ensures user == old(user) && events == old(events)
    {
      ShowAuthModal(None);
    }
  }
}
