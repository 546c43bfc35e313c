/**
 * `activity/UserActivity.kt`: the simpler username screen. The text field
 * trims what is typed, the button needs a non-blank name, and the view
 * model writes `{username, userId}` to `users/{uid}`.
 */
module ActivityUserActivity {
  import opened Wrappers
  import opened KotlinStrings
  import opened Firestore

  datatype UserState = UserState(username: string, isLoading: bool)

  /** The record written to `users/{uid}`. */
  function NameRecord(username: string, uid: string): (r: Fields)
    ensures r.Keys == {"username", "userId"}
    ensures r["username"] == StringField(username) && r["userId"] == StringField(uid)
  {
    map["username" := StringField(username), "userId" := StringField(uid)]
  }

  /** The button is enabled for a non-blank name while no save runs. */
  predicate SaveEnabled(s: UserState) {
    !IsBlank(s.username) && !s.isLoading
  }

  /** Because the field trims what is typed, a name held by the screen is
      blank exactly when it is empty, and an enabled button means a name
      with no whitespace at either end. */
  lemma TrimmedNameBlankIffEmpty(raw: string)
    ensures IsBlank(Trim(raw)) <==> Trim(raw) == []
    ensures SaveEnabled(UserState(Trim(raw), false)) ==>
      |Trim(raw)| > 0 && !IsWhitespace(Trim(raw)[0]) && !IsWhitespace(Trim(raw)[|Trim(raw)| - 1])
  {
    TrimIsTrimmed(raw);
    var t := Trim(raw);
    if t != [] {
      assert !IsWhitespace(t[0]);
    }
  }

  class UserViewModel {
    var state: UserState

    constructor ()
      ensures state == UserState("", false)
    {
      state := UserState("", false);
    }

    /** `updateUsername`: replaces the name only. */
    method UpdateUsername(username: string)
      modifies this
      ensures state == old(state).(username := username)
    {
      state := state.(username := username);
    }

    /** The field's `onValueChange`: the typed text, trimmed. */
    method OnValueChange(raw: string)
      modifies this
      ensures state == old(state).(username := Trim(raw))
      ensures state.username == [] ||
        (!IsWhitespace(state.username[0]) && !IsWhitespace(state.username[|state.username| - 1]))
    {
      TrimIsTrimmed(raw);
      UpdateUsername(Trim(raw));
    }

    /** `saveUsername`. A blank name changes nothing. Otherwise the loading
        flag is raised; without a signed-in user the save stops there and
        the flag stays raised; a failed write lowers it; a successful one
        leaves it raised and runs `onComplete` (reported as `completed`). */
    method SaveUsername(db: Db, currentUser: Option<string>, writeError: Option<string>)
      returns (completed: bool)
      modifies this, db
      ensures IsBlank(old(state).username) ==>
        state == old(state) && db.collections == old(db.collections) && !completed
      ensures !IsBlank(old(state).username) ==> state.username == old(state).username
      ensures !IsBlank(old(state).username) && currentUser.None? ==>
        state.isLoading && db.collections == old(db.collections) && !completed
      ensures !IsBlank(old(state).username) && currentUser.Some? && writeError.Some? ==>
        !state.isLoading && db.collections == old(db.collections) && !completed
      ensures !IsBlank(old(state).username) && currentUser.Some? && writeError.None? ==>
        && state.isLoading && completed
        && db.collections == old(db.collections)["users" :=
             (if "users" in old(db.collections) then old(db.collections)["users"] else map[])
               [currentUser.value := NameRecord(old(state).username, currentUser.value)]]
    {
      completed := false;
      if IsBlank(state.username) {
        return;
      }
      state := state.(isLoading := true);
      if currentUser.None? {
        return;
      }
      if writeError.Some? {
        state := state.(isLoading := false);
      } else {
        db.Set("users", currentUser.value, NameRecord(state.username, currentUser.value));
        completed := true;
      }
    }
  }
}
