/**
 The session state of the admin panel's authentication provider, as values:
 the current user, the loading flag and the persisted "user" storage slot,
 the transitions that restore, log in and log out, and the redirect rule
 that gates navigation on that state.

 The class in auth_provider.dfy updates the same three fields in place and
 is proved against the transition functions defined here.
 */
module AuthState {

  datatype Option<+T> = None | Some(value: T)

  /** The signed-in identity. */
  datatype User = User(email: string, name: string, role: string)

  /**
   What reading the "user" key gives back when the key is present, as far as
   the JSON decoder is concerned. The text itself is left abstract.
   */
  datatype StoredRecord =
    | Blank                    // the empty string: falsy, so it is never decoded
    | Serialized(user: User)   // the encoding of a user record
    | NullLiteral              // the text `null`, which decodes to no object at all
    | Malformed                // text the decoder rejects

  const LoginPath: string := "/login"
  const HomePath: string := "/"
  const AdminName: string := "Admin User"
  const AdminRole: string := "admin"
  const MinPasswordLength: nat := 6

  /** A snapshot of the provider: `user`, `isLoading` and the storage slot. */
  datatype Session = Session(user: Option<User>, isLoading: bool, slot: Option<StoredRecord>)

  /** The provider as it is mounted: nobody signed in, still loading, storage as the browser has it. */
  function Initial(stored: Option<StoredRecord>): Session
  {
    Session(None, true, stored)
  }

  /** The session a fresh start would adopt from `slot`. */
  function StoredSession(slot: Option<StoredRecord>): Option<User>
  {
    match slot
    case Some(Serialized(u)) => Some(u)
    case _ => None
  }

  // ---------------------------------------------------------------------------
  // Credentials

  /**
   The length of `s` as the browser's string `length` counts it: in UTF-16
   code units, so a character outside the Basic Multilingual Plane counts twice.
   */
  function Utf16Length(s: string): (n: nat)
    ensures |s| <= n <= 2 * |s|
  {
    if s == [] then 0
    else (if s[0] as int > 0xFFFF then 2 else 1) + Utf16Length(s[1..])
  }

  /** The demo check: a non-empty email and a password of at least six code units. */
  predicate ValidCredentials(email: string, password: string)
  {
    email != [] && Utf16Length(password) >= MinPasswordLength
  }

  /** The record every successful login builds. */
  function AdminUser(email: string): User
  {
    User(email, AdminName, AdminRole)
  }

  // ---------------------------------------------------------------------------
  // Transitions

  /**
   Startup restore: read the slot; a decodable record becomes the user, a
   record that fails (to decode, or to yield an object) is removed; loading ends.
   */
  function RestoreStep(s: Session): (r: Session)
    ensures !r.isLoading
    // the slot is only ever cleared, and no record that failed to restore survives
    ensures r.slot == s.slot || r.slot == None
    ensures r.slot.Some? ==> r.slot.value.Blank? || r.slot.value.Serialized?
    // a decodable record is adopted as it is
    ensures StoredSession(s.slot).Some? ==> r.user == StoredSession(s.slot) && r.slot == s.slot
    // no user is ever invented: it is the previous one or nobody
    ensures StoredSession(s.slot).None? ==> r.user == s.user || r.user == None
    // text the decoder rejects fails before the user is touched; `null` is adopted, then fails
    ensures s.slot == Some(Malformed) ==> r.user == s.user
    ensures s.slot == Some(NullLiteral) ==> r.user == None
    // with no key, or a blank value, only the loading flag changes
    ensures s.slot == None || s.slot == Some(Blank) ==> r == s.(isLoading := false)
  {
    match s.slot
    case None => s.(isLoading := false)
    case Some(Blank) => s.(isLoading := false)
    case Some(Serialized(u)) => s.(user := Some(u), isLoading := false)
    // the user is set to null, then reading its name throws and the handler removes the key
    case Some(NullLiteral) => Session(None, false, None)
    case Some(Malformed) => s.(isLoading := false, slot := None)
  }

  /** What a login attempt leaves behind, and what it returns. */
  datatype Attempt = Attempt(after: Session, success: bool)

  /**
   A login attempt, taken as one step. `storageFails` says whether writing the
   slot throws; the handler then reports failure.
   */
  function LoginStep(s: Session, email: string, password: string, storageFails: bool): (a: Attempt)
    ensures a.success <==> ValidCredentials(email, password) && !storageFails
    ensures !a.after.isLoading
    ensures a.success ==>
      a.after.user == Some(AdminUser(email)) && a.after.slot == Some(Serialized(AdminUser(email)))
    // a failed attempt does not end an existing session
    ensures !a.success ==> a.after.user == s.user && a.after.slot == s.slot
  {
    if ValidCredentials(email, password) && !storageFails then
      var u := AdminUser(email);
      Attempt(Session(Some(u), false, Some(Serialized(u))), true)
    else
      Attempt(s.(isLoading := false), false)
  }

  /** Logout: clears the slot and the user, whatever they were. */
  function LogoutStep(s: Session): (r: Session)
    ensures r.user == None && r.slot == None && r.isLoading == s.isLoading
    ensures StoredSession(r.slot) == None
  {
    s.(user := None, slot := None)
  }

  // ---------------------------------------------------------------------------
  // Redirect rule

  /**
   The navigations the redirect rule issues for the current state, in order.
   The rule is two independent tests; at most one of them fires.
   */
  function Redirects(isLoading: bool, user: Option<User>, pathname: string): (pushes: seq<string>)
    ensures |pushes| <= 1
    ensures isLoading ==> pushes == []
    ensures pushes == [LoginPath] <==> !isLoading && user.None? && pathname != LoginPath
    ensures pushes == [HomePath] <==> !isLoading && user.Some? && pathname == LoginPath
    // otherwise the page stays: signed out on the login page, or signed in elsewhere
    ensures pushes == [] <==> isLoading || (user.None? <==> pathname == LoginPath)
  {
    if isLoading then []
    else
      var toLogin := if user.None? && pathname != LoginPath then [LoginPath] else [];
      var toHome := if user.Some? && pathname == LoginPath then [HomePath] else [];
      assert toLogin == [] || toHome == [];
      assert |HomePath| == 1 && |LoginPath| == 6;
      assert [HomePath] != [LoginPath] && [LoginPath] + [] == [LoginPath] && [] + [HomePath] == [HomePath];
      toLogin + toHome
  }

  // ---------------------------------------------------------------------------
  // Event traces

  /** Everything that can happen to the provider once it is mounted. */
  datatype Event =
    | RestoreSession
    | LoginAttempt(email: string, password: string, storageFails: bool)
    | LogoutRequest

  function Step(s: Session, e: Event): Session
  {
    match e
    case RestoreSession => RestoreStep(s)
    case LoginAttempt(email, password, storageFails) => LoginStep(s, email, password, storageFails).after
    case LogoutRequest => LogoutStep(s)
  }

  function Run(s: Session, events: seq<Event>): Session
    decreases |events|
  {
    if events == [] then s else Run(Step(s, events[0]), events[1..])
  }

  /** The in-memory session is settled and is exactly what a restart would restore. */
  predicate InSync(s: Session)
  {
    !s.isLoading && s.user == StoredSession(s.slot)
  }
}
