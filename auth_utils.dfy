/**
 * `AuthUtils`: the login flag and uid kept in shared preferences, checked
 * against the identity provider's current user, and the in-memory
 * "Google login in progress" flag.
 */
module AuthUtils {
  import opened Wrappers

  const KeyIsLoggedIn: string := "isLoggedIn"
  const KeyUserId: string := "currentUserId"

  datatype PrefValue = BoolPref(b: bool) | StringPref(s: string)

  /** The `meet_dating_prefs` file. */
  type Prefs = map<string, PrefValue>

  /** Each key holds the type `AuthUtils` writes to it (it is the only writer
      of this file, so `getBoolean` / `getString` never meet another type). */
  predicate WellTyped(prefs: Prefs) {
    && (KeyIsLoggedIn in prefs ==> prefs[KeyIsLoggedIn].BoolPref?)
    && (KeyUserId in prefs ==> prefs[KeyUserId].StringPref?)
  }

  /** `getBoolean(KEY_IS_LOGGED_IN, false)`. */
  function StoredFlag(prefs: Prefs): bool
    requires WellTyped(prefs)
  {
    if KeyIsLoggedIn in prefs then prefs[KeyIsLoggedIn].b else false
  }

  /** `getString(KEY_USER_ID, null)`. */
  function StoredUid(prefs: Prefs): Option<string>
    requires WellTyped(prefs)
  {
    if KeyUserId in prefs then Some(prefs[KeyUserId].s) else None
  }

  /** `isUserLoggedIn`: the stored flag is set, someone is signed in, and
      the stored uid is theirs. */
  function IsUserLoggedIn(prefs: Prefs, authUser: Option<string>): (r: bool)
    requires WellTyped(prefs)
    ensures r ==> authUser.Some? && KeyIsLoggedIn in prefs && KeyUserId in prefs
  {
    if StoredFlag(prefs) && authUser.Some? then StoredUid(prefs) == Some(authUser.value)
    else false
  }

  /** The preferences after `setUserLoggedIn(loggedIn, userId)`. */
  function AfterSetUserLoggedIn(prefs: Prefs, loggedIn: bool, userId: Option<string>): (r: Prefs)
    requires WellTyped(prefs)
    ensures WellTyped(r)
    ensures StoredFlag(r) == loggedIn
    ensures StoredUid(r) == (if userId.Some? then userId else StoredUid(prefs))
    ensures forall k :: k in prefs && k != KeyIsLoggedIn && k != KeyUserId ==> k in r && r[k] == prefs[k]
  {
    var flagged := prefs[KeyIsLoggedIn := BoolPref(loggedIn)];
    match userId
    case Some(uid) => flagged[KeyUserId := StringPref(uid)]
    case None => flagged
  }

  /** `getCurrentUserId`: the stored uid, else the signed-in user's. */
  function GetCurrentUserId(prefs: Prefs, authUser: Option<string>): (r: Option<string>)
    requires WellTyped(prefs)
    ensures KeyUserId in prefs ==> r == Some(prefs[KeyUserId].s)
    ensures KeyUserId !in prefs ==> r == authUser
  {
    match StoredUid(prefs)
    case Some(uid) => Some(uid)
    case None => authUser
  }

  /** Recording a login for the signed-in user makes the check pass. */
  lemma LoggedInAfterSet(prefs: Prefs, uid: string)
    requires WellTyped(prefs)
    ensures IsUserLoggedIn(AfterSetUserLoggedIn(prefs, true, Some(uid)), Some(uid))
  {
  }

  /** Recording a logout makes the check fail, whoever is signed in. */
  lemma LoggedOutAfterSetFalse(prefs: Prefs, userId: Option<string>, authUser: Option<string>)
    requires WellTyped(prefs)
    ensures !IsUserLoggedIn(AfterSetUserLoggedIn(prefs, false, userId), authUser)
  {
  }

  /** A fresh or cleared preferences file is never logged in. */
  lemma EmptyPrefsNotLoggedIn(authUser: Option<string>)
    ensures WellTyped(map[]) && !IsUserLoggedIn(map[], authUser)
  {
  }

  /** When the check passes, both readers agree on who is signed in. */
  lemma LoggedInAgreesWithCurrentUserId(prefs: Prefs, authUser: Option<string>)
    requires WellTyped(prefs)
    requires IsUserLoggedIn(prefs, authUser)
    ensures GetCurrentUserId(prefs, authUser) == authUser
  {
  }

  class AuthUtils {
    var googleLoginInProgress: bool
    var prefs: Prefs
    var authUser: Option<string>

    ghost predicate Valid()
      reads this
    {
      WellTyped(prefs)
    }

    constructor (prefs: Prefs, authUser: Option<string>)
      requires WellTyped(prefs)
      ensures Valid() && this.prefs == prefs && this.authUser == authUser
      ensures !googleLoginInProgress
    {
      this.prefs := prefs;
      this.authUser := authUser;
      googleLoginInProgress := false;
    }

    method SetGoogleLoginInProgress(inProgress: bool)
      modifies this`googleLoginInProgress
      ensures googleLoginInProgress == inProgress
    {
      googleLoginInProgress := inProgress;
    }

    method IsGoogleLoginInProgress() returns (inProgress: bool)
      ensures inProgress == googleLoginInProgress
    {
      inProgress := googleLoginInProgress;
    }

    method SetUserLoggedIn(loggedIn: bool, userId: Option<string>)
      requires Valid()
      modifies this`prefs
      ensures Valid()
      ensures prefs == AfterSetUserLoggedIn(old(prefs), loggedIn, userId)
    {
      prefs := prefs[KeyIsLoggedIn := BoolPref(loggedIn)];
      if userId.Some? {
        prefs := prefs[KeyUserId := StringPref(userId.value)];
      }
    }

    /** `logoutUser`: signs out and clears the preferences, so the login
        check fails afterwards. */
    method LogoutUser()
      modifies this`prefs, this`authUser
      ensures Valid() && prefs == map[] && authUser == None
      ensures !IsUserLoggedIn(prefs, authUser)
    {
      authUser := None;
      prefs := map[];
    }
  }
}
