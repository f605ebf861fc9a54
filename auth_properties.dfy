/**
 Properties of the session state machine: the credential check, the
 restart round trip, the agreement between the in-memory session and the
 storage slot over any sequence of events, and the redirect rule.
 */
module AuthProperties {
  import opened AuthState

  // ---------------------------------------------------------------------------
  // Credentials

  /** For text inside the Basic Multilingual Plane, code units and characters agree. */
  lemma {:induction false} BmpUtf16Length(s: string)
    requires forall i :: 0 <= i < |s| ==> s[i] as int <= 0xFFFF
    ensures Utf16Length(s) == |s|
  {
    if s != [] {
      assert forall i :: 0 <= i < |s[1..]| ==> s[1..][i] == s[i + 1];
      BmpUtf16Length(s[1..]);
    }
  }

  /** An empty email always fails; six characters of password with an email always pass. */
  lemma CredentialBounds(email: string, password: string)
    ensures email == [] ==> !ValidCredentials(email, password)
    ensures email != [] && |password| >= MinPasswordLength ==> ValidCredentials(email, password)
    ensures 2 * |password| < MinPasswordLength ==> !ValidCredentials(email, password)
  {
  }

  /** Three characters outside the Basic Multilingual Plane make six code units, which pass. */
  lemma AstralPasswordAccepted()
    ensures var password := "\U{1F511}\U{1F511}\U{1F511}";
      |password| == 3 && ValidCredentials("a", password)
  {
  }

  // ---------------------------------------------------------------------------
  // Restore and the restart round trip

  /** A fresh start adopts exactly `StoredSession` and leaves the provider in sync. */
  lemma StartupInSync(stored: Option<StoredRecord>)
    ensures RestoreStep(Initial(stored)).user == StoredSession(stored)
    ensures InSync(RestoreStep(Initial(stored)))
  {
  }

  /** A successful login survives a restart: restoring from its slot gives back the same user. */
  lemma LoginSurvivesRestart(s: Session, email: string, password: string, storageFails: bool)
    ensures var a := LoginStep(s, email, password, storageFails);
      a.success ==> RestoreStep(Initial(a.after.slot)).user == Some(AdminUser(email))
  {
  }

  /** Each transition keeps the in-memory session in agreement with the slot. */
  lemma StepKeepsSync(s: Session, e: Event)
    requires InSync(s)
    ensures InSync(Step(s, e))
  {
  }

  /** Once settled, the provider stays in sync whatever happens next. */
  lemma {:induction false} SessionStaysInSync(s: Session, events: seq<Event>)
    requires InSync(s)
    ensures InSync(Run(s, events))
    decreases |events|
  {
    if events != [] {
      StepKeepsSync(s, events[0]);
      SessionStaysInSync(Step(s, events[0]), events[1..]);
    }
  }

  /**
   After startup and any sequence of restores, logins and logouts, a restart
   from what is then in storage restores exactly the user signed in before it.
   */
  lemma RestartRoundTrip(stored: Option<StoredRecord>, events: seq<Event>)
    ensures var s := Run(RestoreStep(Initial(stored)), events);
      !s.isLoading && RestoreStep(Initial(s.slot)).user == s.user
  {
    StartupInSync(stored);
    var s := Run(RestoreStep(Initial(stored)), events);
    SessionStaysInSync(RestoreStep(Initial(stored)), events);
    StartupInSync(s.slot);
  }

  // ---------------------------------------------------------------------------
  // Redirects

  /** Following a redirect leads to a page where the rule issues no further redirect. */
  lemma RedirectSettles(isLoading: bool, user: Option<User>, pathname: string)
    ensures var pushes := Redirects(isLoading, user, pathname);
      pushes != [] ==> Redirects(isLoading, user, pushes[0]) == []
  {
  }

  /** After a logout the rule sends every page except the login page to the login page. */
  lemma LogoutLandsOnLogin(s: Session, pathname: string)
    requires !s.isLoading
    ensures var r := LogoutStep(s);
      Redirects(r.isLoading, r.user, pathname) == (if pathname == LoginPath then [] else [LoginPath])
  {
  }

  /** A successful login on the login page is followed by a redirect to the home page. */
  lemma LoginLeavesLoginPage(s: Session, email: string, password: string)
    requires ValidCredentials(email, password)
    ensures var a := LoginStep(s, email, password, false);
      a.success && Redirects(a.after.isLoading, a.after.user, LoginPath) == [HomePath]
  {
  }

  /**
   A corrupt stored record at startup: it is discarded, nobody is signed in,
   and the home page redirects to the login page.
   */
  lemma CorruptSlotLandsOnLogin(stored: Option<StoredRecord>)
    requires stored == Some(Malformed) || stored == Some(NullLiteral)
    ensures var r := RestoreStep(Initial(stored));
      r.user == None && r.slot == None && Redirects(r.isLoading, r.user, HomePath) == [LoginPath]
  {
  }
}
