/**
 * The login screen: the input check before an email sign-in, the device's
 * cache of signed-in users in `SmartMoodPrefs`, the switch-user shortcut,
 * and the choice between the home screen and the profile form.
 */
module Login {
  import opened Wrappers
  import opened Text
  import opened Journal

  const UsersKey: string := "users"
  const UidKeyPrefix: string := "uid_"
  const ActiveUserKey: string := "activeUserEmail"

  /** The signed-in Firebase user: its uid, and its email, which may be null. */
  datatype AuthUser = AuthUser(uid: string, email: Option<string>)

  /** Where a finished login navigates. */
  datatype Route = Homepage | UserProfile

  /** The outcome of `signInWithEmailAndPassword`. */
  datatype SignIn = SignedIn(user: AuthUser) | SignInFailed

  /** The login button proceeds only when both trimmed fields are non-empty. */
  predicate CanAttemptLogin(email: string, password: string) {
    Trim(email) != [] && Trim(password) != []
  }

  /** A sign-in is attempted exactly when neither field is blank. */
  lemma CanAttemptLoginIff(email: string, password: string)
    ensures CanAttemptLogin(email, password) <==> !IsBlank(email) && !IsBlank(password)
  {
    TrimEmptyIffBlank(email);
    TrimEmptyIffBlank(password);
  }

  /** `"uid_$email"`. */
  function UidKey(email: string): string {
    UidKeyPrefix + email
  }

  /** Distinct emails have distinct uid keys, so caching one user leaves every other user's uid alone. */
  lemma UidKeyInjective(a: string, b: string)
    ensures UidKey(a) == UidKey(b) <==> a == b
  {
    if UidKey(a) == UidKey(b) {
      assert a == UidKey(a)[4..] == UidKey(b)[4..] == b;
    }
  }

  /** `getStringSet("users", mutableSetOf())`. */
  function StoredUsers(stringSets: map<string, set<string>>): set<string> {
    if UsersKey in stringSets then stringSets[UsersKey] else {}
  }

  /** The string sets after `cacheUserToDevice` has added `email`. */
  function AddUser(stringSets: map<string, set<string>>, email: string): map<string, set<string>> {
    stringSets[UsersKey := StoredUsers(stringSets) + {email}]
  }

  /**
   * Caching adds exactly the email to the stored users, keeps every email
   * stored before, and leaves every other set untouched.
   */
  lemma AddUserSpec(stringSets: map<string, set<string>>, email: string)
    ensures email in StoredUsers(AddUser(stringSets, email))
    ensures StoredUsers(stringSets) <= StoredUsers(AddUser(stringSets, email))
    ensures forall e :: e in StoredUsers(AddUser(stringSets, email)) ==> e == email || e in StoredUsers(stringSets)
    ensures forall k :: k in stringSets && k != UsersKey ==>
              k in AddUser(stringSets, email) && AddUser(stringSets, email)[k] == stringSets[k]
  {
  }

  /** Caching the same email twice leaves the same sets as caching it once. */
  lemma AddUserIdempotent(stringSets: map<string, set<string>>, email: string)
    ensures AddUser(AddUser(stringSets, email), email) == AddUser(stringSets, email)
  {
    var once := AddUser(stringSets, email);
    assert StoredUsers(once) + {email} == StoredUsers(once);
  }

  /** The login target: the home screen exactly when the profile exists and has a non-empty name. */
  function RouteFor(doc: UserDoc): (r: Route)
    ensures r == Homepage <==> doc.present && doc.name.Some? && doc.name.value != ""
    ensures r == UserProfile <==> !doc.present || doc.name.None? || doc.name.value == ""
  {
    if doc.present && doc.name.Some? && doc.name.value != "" then Homepage else UserProfile
  }

  /**
   * The switch-user shortcut: a non-empty target whose cached uid is the
   * signed-in user's uid.
   */
  predicate AutoRedirect(strings: map<string, string>, switchTo: Option<string>, current: Option<AuthUser>) {
    && switchTo.Some? && switchTo.value != ""
    && UidKey(switchTo.value) in strings
    && current.Some? && current.value.uid == strings[UidKey(switchTo.value)]
  }

  /**
   * Once a user with an email has been cached, switching to that email while
   * they are signed in redirects, whatever other users were cached before or after.
   */
  lemma SwitchBackToCachedUser(strings: map<string, string>, user: AuthUser, other: AuthUser)
    requires user.email.Some? && user.email.value != ""
    requires other.email.Some? && other.email.value != user.email.value
    ensures AutoRedirect(strings[UidKey(user.email.value) := user.uid], user.email, Some(user))
    ensures AutoRedirect(strings[UidKey(user.email.value) := user.uid][UidKey(other.email.value) := other.uid],
                         user.email, Some(user))
  {
    UidKeyInjective(user.email.value, other.email.value);
  }

  /** Switching to a user who was never cached, or to an empty name, never redirects. */
  lemma NoRedirectWithoutCache(strings: map<string, string>, switchTo: Option<string>, current: Option<AuthUser>)
    requires switchTo.None? || switchTo.value == "" || UidKey(switchTo.value) !in strings || current.None?
    ensures !AutoRedirect(strings, switchTo, current)
  {
  }

  /** The email field after the `selectedUserEmail` extra is applied. */
  function PrefillEmail(extra: Option<string>, field: string): (r: string)
    ensures extra.Some? && extra.value != "" ==> r == extra.value
    ensures extra.None? || extra.value == "" ==> r == field
  {
    if extra.Some? && extra.value != "" then extra.value else field
  }

  /** `SmartMoodPrefs`: its string-set values and its string values, by key. */
  class SharedPrefs {
    var stringSets: map<string, set<string>>
    var strings: map<string, string>

    constructor()
      ensures stringSets == map[] && strings == map[]
    {
      stringSets := map[];
      strings := map[];
    }
  }

  class LoginScreen {
    const prefs: SharedPrefs
    /** `auth.currentUser`. */
    var currentUser: Option<AuthUser>
    var emailField: string
    var passwordField: string
    /** The screen navigation started, if any. */
    var route: Option<Route>
    /** The email/password pairs handed to Firebase sign-in. */
    ghost var attempts: seq<(string, string)>

    /** `onCreate` up to the prefill of the email field from the `selectedUserEmail` extra. */
    constructor(prefs: SharedPrefs, currentUser: Option<AuthUser>, selectedUserEmail: Option<string>)
      ensures this.prefs == prefs && this.currentUser == currentUser
      ensures emailField == PrefillEmail(selectedUserEmail, "") && passwordField == ""
      ensures route == None && attempts == []
    {
      this.prefs := prefs;
      this.currentUser := currentUser;
      passwordField := "";
      route := None;
      attempts := [];
      if selectedUserEmail.Some? && selectedUserEmail.value != "" {
        emailField := selectedUserEmail.value;
      } else {
        emailField := "";
      }
    }

    /** `cacheUserToDevice`: nothing without a user and an email; else record the email and its uid. */
    method CacheUserToDevice(user: Option<AuthUser>)
      modifies prefs
      ensures user.None? || user.value.email.None? ==>
                prefs.stringSets == old(prefs.stringSets) && prefs.strings == old(prefs.strings)
      ensures user.Some? && user.value.email.Some? ==>
                && prefs.stringSets == AddUser(old(prefs.stringSets), user.value.email.value)
                && prefs.strings == old(prefs.strings)[UidKey(user.value.email.value) := user.value.uid]
    {
      if user.None? || user.value.email.None? {
        return;
      }
      var email := user.value.email.value;
      var uid := user.value.uid;
      var users := StoredUsers(prefs.stringSets);
      users := users + {email};
      prefs.stringSets := prefs.stringSets[UsersKey := users];
      prefs.strings := prefs.strings[UidKey(email) := uid];
    }

    /**
     * `checkUserProfileAndRedirect`: with a uid and an email, record the active
     * email, then route by the profile document; a failed lookup only warns.
     */
    method CheckUserProfileAndRedirect(profile: Lookup<UserDoc>)
      modifies this, prefs
      ensures currentUser.None? || currentUser.value.email.None? ==>
                prefs.strings == old(prefs.strings) && route == old(route)
      ensures currentUser.Some? && currentUser.value.email.Some? ==>
                && prefs.strings == old(prefs.strings)[ActiveUserKey := currentUser.value.email.value]
                && route == (if profile.Found? then Some(RouteFor(profile.doc)) else old(route))
      ensures prefs.stringSets == old(prefs.stringSets)
      ensures currentUser == old(currentUser) && attempts == old(attempts)
      ensures emailField == old(emailField) && passwordField == old(passwordField)
    {
      if currentUser.None? || currentUser.value.email.None? {
        return;
      }
      var email := currentUser.value.email.value;
      prefs.strings := prefs.strings[ActiveUserKey := email];
      match profile
      case Found(doc) =>
        route := Some(RouteFor(doc));
      case LookupFailed =>
    }

    /**
     * A successful sign-in: the user becomes the current one, is cached, and
     * the screen routes by the profile.
     */
    method CompleteSignIn(user: AuthUser, profile: Lookup<UserDoc>)
      modifies this, prefs
      ensures currentUser == Some(user)
      ensures user.email.None? ==>
                prefs.stringSets == old(prefs.stringSets) && prefs.strings == old(prefs.strings) && route == old(route)
      ensures user.email.Some? ==>
                var email := user.email.value;
                && prefs.stringSets == AddUser(old(prefs.stringSets), email)
                && prefs.strings == old(prefs.strings)[UidKey(email) := user.uid][ActiveUserKey := email]
                && route == (if profile.Found? then Some(RouteFor(profile.doc)) else old(route))
      ensures attempts == old(attempts)
      ensures emailField == old(emailField) && passwordField == old(passwordField)
    {
      currentUser := Some(user);
      CacheUserToDevice(currentUser);
      CheckUserProfileAndRedirect(profile);
    }

    /** `signInWithEmailAndPassword` and its completion listener. */
    method SubmitCredentials(email: string, password: string, outcome: SignIn, profile: Lookup<UserDoc>)
      modifies this, prefs
      ensures attempts == old(attempts) + [(email, password)]
      ensures outcome.SignInFailed? ==>
                && route == old(route) && currentUser == old(currentUser)
                && prefs.stringSets == old(prefs.stringSets) && prefs.strings == old(prefs.strings)
      ensures outcome.SignedIn? ==>
                && currentUser == Some(outcome.user)
                && (outcome.user.email.None? ==>
                      prefs.stringSets == old(prefs.stringSets) && prefs.strings == old(prefs.strings) &&
                      route == old(route))
                && (outcome.user.email.Some? ==>
                      var e := outcome.user.email.value;
                      && prefs.stringSets == AddUser(old(prefs.stringSets), e)
                      && prefs.strings == old(prefs.strings)[UidKey(e) := outcome.user.uid][ActiveUserKey := e]
                      && route == (if profile.Found? then Some(RouteFor(profile.doc)) else old(route)))
      ensures emailField == old(emailField) && passwordField == old(passwordField)
    {
      attempts := attempts + [(email, password)];
      match outcome
      case SignInFailed =>
      case SignedIn(user) =>
        CompleteSignIn(user, profile);
    }

    /**
     * The login button. A blank field stops it; otherwise the trimmed pair is
     * handed to sign-in, and a successful sign-in caches the user and routes.
     */
    method LoginClicked(outcome: SignIn, profile: Lookup<UserDoc>)
      modifies this, prefs
      ensures !CanAttemptLogin(old(emailField), old(passwordField)) ==>
                && attempts == old(attempts) && route == old(route) && currentUser == old(currentUser)
                && prefs.stringSets == old(prefs.stringSets) && prefs.strings == old(prefs.strings)
      ensures CanAttemptLogin(old(emailField), old(passwordField)) ==>
                attempts == old(attempts) + [(Trim(old(emailField)), Trim(old(passwordField)))]
      ensures CanAttemptLogin(old(emailField), old(passwordField)) && outcome.SignInFailed? ==>
                && route == old(route) && currentUser == old(currentUser)
                && prefs.stringSets == old(prefs.stringSets) && prefs.strings == old(prefs.strings)
      ensures CanAttemptLogin(old(emailField), old(passwordField)) && outcome.SignedIn? ==>
                && currentUser == Some(outcome.user)
                && (outcome.user.email.None? ==>
                      prefs.stringSets == old(prefs.stringSets) && prefs.strings == old(prefs.strings) &&
                      route == old(route))
                && (outcome.user.email.Some? ==>
                      var email := outcome.user.email.value;
                      && prefs.stringSets == AddUser(old(prefs.stringSets), email)
                      && prefs.strings == old(prefs.strings)[UidKey(email) := outcome.user.uid][ActiveUserKey := email]
                      && route == (if profile.Found? then Some(RouteFor(profile.doc)) else old(route)))
      ensures emailField == old(emailField) && passwordField == old(passwordField)
    {
      var email := Trim(emailField);
      var password := Trim(passwordField);
      if email == [] || password == [] {
        return;
      }
      SubmitCredentials(email, password, outcome, profile);
    }

    /** The `switchToUser` extra: route straight away when the cached uid is the signed-in one. */
    method SwitchToUser(switchTo: Option<string>, profile: Lookup<UserDoc>)
      modifies this, prefs
      ensures !AutoRedirect(old(prefs.strings), switchTo, currentUser) ==>
                prefs.strings == old(prefs.strings) && route == old(route)
      ensures AutoRedirect(old(prefs.strings), switchTo, currentUser) && currentUser.value.email.Some? ==>
                && prefs.strings == old(prefs.strings)[ActiveUserKey := currentUser.value.email.value]
                && route == (if profile.Found? then Some(RouteFor(profile.doc)) else old(route))
      ensures AutoRedirect(old(prefs.strings), switchTo, currentUser) && currentUser.value.email.None? ==>
                prefs.strings == old(prefs.strings) && route == old(route)
      ensures prefs.stringSets == old(prefs.stringSets)
      ensures currentUser == old(currentUser) && attempts == old(attempts)
      ensures emailField == old(emailField) && passwordField == old(passwordField)
    {
      if switchTo.Some? && switchTo.value != "" {
        var key := UidKey(switchTo.value);
        if key in prefs.strings && currentUser.Some? && currentUser.value.uid == prefs.strings[key] {
          CheckUserProfileAndRedirect(profile);
        }
      }
    }
  }
}
