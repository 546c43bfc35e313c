/**
 * `main/UserActivity.kt`: the username screen whose view model checks the
 * name against ordered rules and a case-insensitive uniqueness query
 * before writing the user's record.
 */
module MainUserActivity {
  import opened Wrappers
  import opened KotlinStrings
  import opened Firestore

  datatype UserState = UserState(username: string, isLoading: bool, errorMessage: string)

  /** The signed-in account as the identity provider reports it. */
  datatype AuthUser = AuthUser(uid: string, email: Option<string>)

  /** How the store answers the two asynchronous calls of a save: the
      exception message each one throws, if any. */
  datatype Remote = Remote(queryError: Option<string>, writeError: Option<string>)

  /** The character class `[A-zA-Z0-9_]`. The range `A-z` runs from 'A'
      (0x41) to 'z' (0x7A), so it also admits `[ \ ] ^ _` and the
      backquote. */
  predicate InUsernameClass(c: char) {
    ('A' <= c <= 'z') || ('a' <= c <= 'z') || ('0' <= c <= '9') || c == '_'
  }

  /** `matches(Regex("^[A-zA-Z0-9_]+$"))`. */
  predicate MatchesUsernamePattern(u: string) {
    |u| >= 1 && forall i :: 0 <= i < |u| ==> InUsernameClass(u[i])
  }

  /** The message of the first rule `validateUsername` finds broken, in
      its order: empty, too short, too long, characters. Lengths are
      `String.length`, counted in UTF-16 code units. */
  function UsernameError(u: string): (r: Option<string>)
    ensures r.None? <==> 3 <= Utf16Length(u) <= 20 && MatchesUsernamePattern(u)
    ensures |u| == 0 ==> r == Some("Username cannot be empty")
    ensures 0 < |u| && Utf16Length(u) < 3 ==> r == Some("Username too short (min 3 chars)")
    ensures Utf16Length(u) > 20 ==> r == Some("Username too long (max 20 chars)")
    ensures 3 <= Utf16Length(u) <= 20 && !MatchesUsernamePattern(u) ==>
      r == Some("Only letters, numbers, and underscores allowed")
  {
    if |u| == 0 then Some("Username cannot be empty")
    else if Utf16Length(u) < 3 then Some("Username too short (min 3 chars)")
    else if Utf16Length(u) > 20 then Some("Username too long (max 20 chars)")
    else if !MatchesUsernamePattern(u) then Some("Only letters, numbers, and underscores allowed")
    else None
  }

  /** Every character of the class is a single code unit, so an accepted
      name has 3 to 20 characters. */
  lemma AcceptedNameLength(u: string)
    requires UsernameError(u).None?
    ensures 3 <= |u| <= 20
  {
    Utf16LengthOfBmp(u);
  }

  /** A character outside the Basic Multilingual Plane counts twice: a
      letter and an emoji pass the length rules and fail on characters. */
  lemma AstralCharacterCountsTwice()
    ensures UsernameError("a\U{1F600}") == Some("Only letters, numbers, and underscores allowed")
  {
    var u := "a\U{1F600}";
    assert u[1..][1..] == [];
    assert Utf16Length(u) == 3;
    assert !InUsernameClass(u[1]);
  }

  /** The punctuation inside `A-z` passes validation. */
  lemma PunctuationInsideRangePasses(c: char)
    requires c in "[\\]^`"
    ensures UsernameError(['a', c, 'b']).None?
  {
    var u := ['a', c, 'b'];
    assert forall i :: 0 <= i < |u| ==> InUsernameClass(u[i]);
  }

  /** The save button is enabled while no save runs and the name is not
      blank. */
  predicate SaveEnabled(s: UserState) {
    !s.isLoading && !IsBlank(s.username)
  }

  /** A name that passes validation always enables the button when idle:
      no character of the class is whitespace. */
  lemma ValidNameEnablesSave(s: UserState)
    requires UsernameError(s.username).None? && !s.isLoading
    ensures SaveEnabled(s)
  {
    assert InUsernameClass(s.username[0]);
    assert !IsWhitespace(s.username[0]);
  }

  /** The record written to `users/{uid}`. */
  function UserRecord(username: string, user: AuthUser, now: int): (r: Fields)
    ensures r.Keys == {"username", "username_lowercase", "userId", "email", "createdAt"}
    ensures r["username_lowercase"] == StringField(Lowercase(username))
    ensures r["username"] == StringField(username) && r["userId"] == StringField(user.uid)
  {
    map[
      "username" := StringField(username),
      "username_lowercase" := StringField(Lowercase(username)),
      "userId" := StringField(user.uid),
      "email" := (match user.email case Some(e) => StringField(e) case None => NullField),
      "createdAt" := LongField(now)]
  }

  /** `collection(c).whereEqualTo("username_lowercase", lowered)` is not
      empty. */
  predicate NameTakenIn(collections: map<string, map<string, Fields>>, c: string, lowered: string) {
    c in collections &&
    exists id :: id in collections[c] && "username_lowercase" in collections[c][id]
                 && collections[c][id]["username_lowercase"] == StringField(lowered)
  }

  /** The uniqueness query as written: it reads collection "Users", while
      records are written to "users". */
  predicate UsernameTakenAsWritten(collections: map<string, map<string, Fields>>, lowered: string) {
    NameTakenIn(collections, "Users", lowered)
  }

  /** The uniqueness query as intended: the collection records go to. */
  predicate UsernameTaken(collections: map<string, map<string, Fields>>, lowered: string) {
    NameTakenIn(collections, "users", lowered)
  }

  function WithUserRecord(collections: map<string, map<string, Fields>>, uid: string, record: Fields)
    : map<string, map<string, Fields>>
  {
    var users := if "users" in collections then collections["users"] else map[];
    collections["users" := users[uid := record]]
  }

  /** As written, a saved name never makes the check fail: writing a record
      to "users" leaves the query on "Users" as it was. So after "alice"
      saves "Bob", "carol" can save "bob" as well. */
  lemma AsWrittenCheckIgnoresSavedNames(collections: map<string, map<string, Fields>>, user: AuthUser, username: string, now: int)
    requires !UsernameTakenAsWritten(collections, Lowercase(username))
    ensures !UsernameTakenAsWritten(WithUserRecord(collections, user.uid, UserRecord(username, user, now)), Lowercase(username))
  {
  }

  /** The concrete case: from an empty store, "Bob" saved by one account
      does not stop "bob" being saved by another. */
  lemma AsWrittenDuplicateExample()
    ensures var after := WithUserRecord(map[], "alice", UserRecord("Bob", AuthUser("alice", None), 0));
      && UsernameTaken(after, Lowercase("bob"))
      && !UsernameTakenAsWritten(after, Lowercase("bob"))
  {
    var after := WithUserRecord(map[], "alice", UserRecord("Bob", AuthUser("alice", None), 0));
    assert Lowercase("Bob") == "bob";
    assert Lowercase("bob") == "bob";
    assert after["users"]["alice"]["username_lowercase"] == StringField("bob");
  }

  /** With the intended query, a saved name is taken from then on, for
      every spelling that lowercases the same. */
  lemma SavedNameIsTaken(collections: map<string, map<string, Fields>>, user: AuthUser, username: string, other: string, now: int)
    requires Lowercase(other) == Lowercase(username)
    ensures UsernameTaken(WithUserRecord(collections, user.uid, UserRecord(username, user, now)), Lowercase(other))
  {
    var after := WithUserRecord(collections, user.uid, UserRecord(username, user, now));
    assert user.uid in after["users"];
  }

  class UserViewModel {
    var state: UserState

    constructor ()
      ensures state == UserState("", false, "")
    {
      state := UserState("", false, "");
    }

    /** `updateUsername`: sets the name and clears the error. */
    method UpdateUsername(username: string)
      modifies this
      ensures state == old(state).(username := username, errorMessage := "")
    {
      state := state.(username := username, errorMessage := "");
    }

    /** `validateUsername`: true and no change when every rule holds; else
        the first broken rule's message and false. */
    method ValidateUsername() returns (ok: bool)
      modifies this
      ensures ok == UsernameError(old(state).username).None?
      ensures ok ==> state == old(state)
      ensures !ok ==> state == old(state).(errorMessage := UsernameError(old(state).username).value)
    {
      var u := state.username;
      if |u| == 0 {
        state := state.(errorMessage := "Username cannot be empty");
        ok := false;
      } else if Utf16Length(u) < 3 {
        state := state.(errorMessage := "Username too short (min 3 chars)");
        ok := false;
      } else if Utf16Length(u) > 20 {
        state := state.(errorMessage := "Username too long (max 20 chars)");
        ok := false;
      } else if !MatchesUsernamePattern(u) {
        state := state.(errorMessage := "Only letters, numbers, and underscores allowed");
        ok := false;
      } else {
        ok := true;
      }
    }

    /** `saveUsername`, as written: the uniqueness query reads "Users"
        while the record goes to "users". An invalid name stops before the loading flag
        is touched. Otherwise the flag is cleared at the end whatever
        happens; a taken name or a failing call sets the error and writes
        nothing. Returns whether `onComplete` was called. */
    method SaveUsername(db: Db, currentUser: Option<AuthUser>, now: int, remote: Remote)
      returns (completed: bool)
      modifies this, db
      ensures UsernameError(old(state).username).Some? ==>
        && state == old(state).(errorMessage := UsernameError(old(state).username).value)
        && db.collections == old(db.collections) && !completed
      ensures UsernameError(old(state).username).None? ==>
        && state.username == old(state).username
        && !state.isLoading
      ensures UsernameError(old(state).username).None? && currentUser.None? ==>
        state == old(state).(isLoading := false) && db.collections == old(db.collections) && !completed
      ensures UsernameError(old(state).username).None? && currentUser.Some? && remote.queryError.Some? ==>
        && state.errorMessage == "Error saving username: " + remote.queryError.value
        && db.collections == old(db.collections) && !completed
      ensures UsernameError(old(state).username).None? && currentUser.Some? && remote.queryError.None?
              && UsernameTakenAsWritten(old(db.collections), Lowercase(old(state).username)) ==>
        && state.errorMessage == "Username already taken"
        && db.collections == old(db.collections) && !completed
      ensures UsernameError(old(state).username).None? && currentUser.Some? && remote.queryError.None?
              && !UsernameTakenAsWritten(old(db.collections), Lowercase(old(state).username)) ==>
        && (remote.writeError.Some? ==>
              && state.errorMessage == "Error saving username: " + remote.writeError.value
              && db.collections == old(db.collections) && !completed)
        && (remote.writeError.None? ==>
              && state.errorMessage == old(state).errorMessage
              && db.collections == WithUserRecord(old(db.collections), currentUser.value.uid,
                                                  UserRecord(old(state).username, currentUser.value, now))
              && completed)
    {
      completed := false;
      var valid := ValidateUsername();
      if !valid {
        return;
      }
      state := state.(isLoading := true);
      if currentUser.Some? {
        var user := currentUser.value;
        if remote.queryError.Some? {
          state := state.(errorMessage := "Error saving username: " + remote.queryError.value);
        } else if UsernameTakenAsWritten(db.collections, Lowercase(state.username)) {
          state := state.(errorMessage := "Username already taken");
        } else if remote.writeError.Some? {
          state := state.(errorMessage := "Error saving username: " + remote.writeError.value);
        } else {
          db.Set("users", user.uid, UserRecord(state.username, user, now));
          completed := true;
        }
      }
      state := state.(isLoading := false);
    }
  }
}
