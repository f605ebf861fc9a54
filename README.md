# Admin panel session manager, in Dafny

This project models the session manager of an admin panel's mock
authentication provider (`AuthProvider` in `context/AuthContext.tsx`). The
provider holds three pieces of state: the signed-in `user` (absent, or a record
of email, name and role), the `isLoading` flag, and the browser storage entry
under the key `"user"`. It has four behaviours:

- **restore on mount**: read the stored entry, adopt a decodable user record,
  remove a record that fails, then stop loading;
- **login**: accept any non-empty email with a password of at least six
  UTF-16 code units, build the fixed demo record (name `"Admin User"`, role
  `"admin"`), store it and adopt it; loading is on for the attempt only;
- **logout**: remove the stored entry and the user, and navigate to `/login`;
- **redirect rule**: once loading is over, send a visitor with no session
  away from every page but `/login` to `/login`, and a signed-in user on
  `/login` to `/`.

Files:

- `auth_state.dfy` (module `AuthState`): the data model, the credential
  check, the three transitions as functions on a `Session` value, the
  redirect rule, and event traces (`Step`, `Run`) with the `InSync` invariant.
- `auth_provider.dfy` (module `AuthProvider`): class `SessionManager` with
  fields `user`, `isLoading`, `slot`, whose methods update them in place and
  are proved against the transitions of `AuthState`, plus a client scenario.
- `auth_properties.dfy` (module `AuthProperties`): lemmas — the restart round
  trip, that the in-memory session agrees with storage after any sequence of
  events, and the redirect rule's consequences.

Modelling choices:

- The storage entry is `Option<StoredRecord>`: `None` when the key is absent,
  otherwise what the JSON decoder makes of its text — `Serialized(user)`,
  `Blank` (the empty string, which the source's truthiness test skips, so it
  is neither decoded nor removed), `NullLiteral` (the text `null`: the user is
  set to null, reading `.name` of it throws, and the handler removes the key),
  or `Malformed` (decoding throws, the key is removed).
- `password.length` counts UTF-16 code units, so `Utf16Length` counts a
  character above U+FFFF twice; `AstralPasswordAccepted` shows a password of
  three such characters passing.
- Writing the entry at login can throw; the parameter `storageFails` stands
  for that, and the handler then returns false without changing the session.
- Navigation is a returned value: `Redirects` gives the list of pages the rule
  pushes, in order (two independent tests, proved to push at most one page);
  `Logout` returns its target.

Two consequences of the code worth noting: a record that fails to decode is
removed, but the user is left as it was rather than cleared (this only shows
when the restore runs again on a mounted provider, since at mount the user is
already absent), whereas a stored `null` does clear the user; and the password
limit is on UTF-16 code units, not characters.

## Model

| member | source | states |
|---|---|---|
| `AuthState.Utf16Length` | context/AuthContext.tsx:105 | the browser's string length lies between the number of characters and twice that |
| `AuthState.RestoreStep` | context/AuthContext.tsx:50-69 | restore always ends loading; a decodable record becomes the user and stays stored; a failed record is removed and never survives; no user is invented; text that fails to decode keeps the previous user, a stored `null` clears it; an absent or blank entry changes nothing but the loading flag |
| `AuthState.LoginStep` | context/AuthContext.tsx:94-134 | success exactly when the email is non-empty, the password has at least six code units and the write does not throw; on success user and storage both hold the admin record for that email; a failure leaves user and storage as they were; loading is off afterwards |
| `AuthState.LogoutStep` | context/AuthContext.tsx:136-140 | user and storage are cleared whatever they held, so a restart finds no session; the loading flag is untouched |
| `AuthState.Redirects` | context/AuthContext.tsx:75-92 | at most one navigation; none while loading; `/login` exactly when settled, signed out and elsewhere; `/` exactly when settled, signed in and on `/login`; nothing otherwise (signed out on `/login`, or signed in elsewhere) |
| `AuthProperties.BmpUtf16Length` | context/AuthContext.tsx:105 | for text without characters above U+FFFF the length test counts characters |
| `AuthProperties.CredentialBounds` | context/AuthContext.tsx:105 | an empty email always fails; a non-empty email with six or more characters of password always passes; fewer than three characters never pass |
| `AuthProperties.AstralPasswordAccepted` | context/AuthContext.tsx:105 | a three-character password of characters above U+FFFF passes the six-unit test |
| `AuthProperties.StartupInSync` | context/AuthContext.tsx:49-69 | restore at mount adopts exactly the stored session and leaves user and storage in agreement |
| `AuthProperties.LoginSurvivesRestart` | context/AuthContext.tsx:105-114 | after a successful login, restoring from the stored entry gives back the same user |
| `AuthProperties.StepKeepsSync` | context/AuthContext.tsx:52-140 | restore, login and logout each keep the user equal to what storage would restore |
| `AuthProperties.SessionStaysInSync` | context/AuthContext.tsx:52-140 | that agreement holds after any sequence of restores, logins and logouts |
| `AuthProperties.RestartRoundTrip` | context/AuthContext.tsx:49-140 | after mount and any sequence of events, a restart from storage restores exactly the current user |
| `AuthProperties.RedirectSettles` | context/AuthContext.tsx:75-92 | the page a redirect leads to triggers no further redirect |
| `AuthProperties.LogoutLandsOnLogin` | context/AuthContext.tsx:136-140 | once loading is over, after logout every page but `/login` is redirected to `/login`, and `/login` stays |
| `AuthProperties.LoginLeavesLoginPage` | context/AuthContext.tsx:88-90 | a successful login on `/login` is followed by a redirect to `/` |
| `AuthProperties.CorruptSlotLandsOnLogin` | context/AuthContext.tsx:63-66 | a corrupt stored entry at mount is removed, nobody is signed in, and `/` redirects to `/login` |
| `AuthProvider.SessionManager.constructor` | context/AuthContext.tsx:42-43 | a mounted provider starts with no user and loading, storage as the browser holds it |
| `AuthProvider.SessionManager.CheckAuth` | context/AuthContext.tsx:50-69 | updates the fields in place exactly as `RestoreStep`; loading is off and a stored session is adopted |
| `AuthProvider.SessionManager.Login` | context/AuthContext.tsx:94-134 | returns true exactly for valid credentials with a working store; on success user and storage hold the admin record, on failure they are unchanged; loading is off at the end; fields match `LoginStep` |
| `AuthProvider.SessionManager.Logout` | context/AuthContext.tsx:136-140 | clears user and storage, keeps the loading flag, returns `/login`; fields match `LogoutStep` |
| `AuthProvider.SessionManager.RedirectTarget` | context/AuthContext.tsx:75-92 | the single page the rule navigates to for the current fields, or none; none exactly while loading, when signed out on `/login`, or when signed in elsewhere |

## Left out

- The category page (`app/categories/page.tsx`): rendering, animation, modal flags and event propagation; its add, update and delete handlers forward to `context/CategoriesContext`, which is not part of this model, so the category store is not modelled.
- Notifications (`showNotification`) and `console.error` logging: messages only, no effect on session state.
- The simulated one-second delay and the promise machinery of `login`: a login is one atomic step, so `isLoading` being true during the attempt is visible only inside `SessionManager.Login`, and concurrent double submission is not modelled.
- React effect scheduling: the redirect rule is a function of the current state, and a re-run of the restore effect is an ordinary `RestoreSession` event.
- The real storage, the JSON encoder and decoder, `usePathname` and `router.push`: storage is one `Option` slot, the text in it is abstract (`StoredRecord`), and navigation is a returned value.
- Stored JSON that decodes to something other than `null` or a user record (a number, an array, an object missing fields): the source would adopt it as the user unchecked; `StoredRecord` has no case for it.
- Exceptions from reading or removing the storage entry, which the source does not catch: not modelled.
- The default context value's stub `login` (always false) and `logout` (does nothing), used only outside a provider: not modelled.
