/**
 The authentication provider as an object whose fields its operations update
 in place: the current user, the loading flag and the persisted "user" slot.
 Each operation is proved against the transition of the same name in AuthState.
 */
module AuthProvider {
  import opened AuthState

  class SessionManager {
    var user: Option<User>
    var isLoading: bool
    /** The browser's "user" storage entry; None when the key is absent. */
    var slot: Option<StoredRecord>

    /** The fields as one value, for stating transitions. */
    ghost function State(): Session
      reads this
    {
      Session(user, isLoading, slot)
    }

    /** Mounting the provider: nobody signed in and still loading; storage is what the browser holds. */
    constructor (stored: Option<StoredRecord>)
      ensures user == None && isLoading && slot == stored
      ensures State() == Initial(stored)
    {
      user := None;
      isLoading := true;
      slot := stored;
    }

    /** Restores a stored session, discarding a record that fails to restore, and ends loading. */
    method CheckAuth()
      modifies this
      ensures State() == RestoreStep(old(State()))
      ensures !isLoading
      ensures old(StoredSession(slot)).Some? ==> user == old(StoredSession(slot))
    {
      var stored := slot;
      match stored {
        case None =>
        case Some(Blank) =>
        case Some(Serialized(u)) =>
          user := Some(u);
        case Some(NullLiteral) =>
          // decoding yields no object: the user is cleared, reading its name throws, the handler removes the key
          user := None;
          slot := None;
        case Some(Malformed) =>
          // decoding throws: the handler removes the key
          slot := None;
      }
      isLoading := false;
    }

    /**
     Attempts a login. `storageFails` says whether writing the slot throws;
     the handler then reports failure. Loading is on for the attempt only.
     */
    method Login(email: string, password: string, storageFails: bool) returns (ok: bool)
      modifies this
      ensures ok <==> ValidCredentials(email, password) && !storageFails
      ensures !isLoading
      ensures ok ==> user == Some(AdminUser(email)) && slot == Some(Serialized(user.value))
      ensures !ok ==> user == old(user) && slot == old(slot)
      ensures State() == LoginStep(old(State()), email, password, storageFails).after
      ensures ok == LoginStep(old(State()), email, password, storageFails).success
    {
      isLoading := true;
      ok := false;
      if ValidCredentials(email, password) {
        var userData := AdminUser(email);
        if !storageFails {
          slot := Some(Serialized(userData));
          user := Some(userData);
          ok := true;
        }
      }
      isLoading := false;
    }

    /** Signs out: clears the slot and the user and returns the page to navigate to. */
    method Logout() returns (target: string)
      modifies this
      ensures user == None && slot == None && isLoading == old(isLoading)
      ensures State() == LogoutStep(old(State()))
      ensures target == LoginPath
    {
      slot := None;
      user := None;
      target := LoginPath;
    }

    /** The redirect the rule issues for the current state and `pathname`, if any. */
    function RedirectTarget(pathname: string): (target: Option<string>)
      reads this
      ensures target == None <==> Redirects(isLoading, user, pathname) == []
      ensures target.Some? ==> [target.value] == Redirects(isLoading, user, pathname)
      ensures target.Some? ==> !isLoading
      ensures target == None <==> isLoading || (user.None? <==> pathname == LoginPath)
    {
      var pushes := Redirects(isLoading, user, pathname);
      if pushes == [] then None else Some(pushes[0])
    }
  }

  /** Startup with a corrupt record, a login on the login page, then a logout. */
  method CorruptStartupScenario()
  {
    var m := new SessionManager(Some(Malformed));
    assert m.RedirectTarget(HomePath) == None;
    m.CheckAuth();
    assert m.user == None && m.slot == None;
    assert m.RedirectTarget(HomePath) == Some(LoginPath);
    var ok := m.Login("admin@example.com", "secret", false);
    assert ok;
    assert m.RedirectTarget(LoginPath) == Some(HomePath);
    var target := m.Logout();
    assert target == LoginPath && m.RedirectTarget(LoginPath) == None;
  }
}
