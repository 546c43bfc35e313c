/**
 * `UserPrefrenceManager`: presence as a last-writer-wins boolean stored at
 * `users/{uid}/online` for the signed-in user.
 */
module UserPrefrenceManager {
  import opened Wrappers
  import opened RealtimeDatabase

  function OnlinePath(uid: string): Path {
    ["users", uid, "online"]
  }

  /** The store after the signed-in user (if any) writes `online`. */
  function WithPresence(data: map<Path, Value>, currentUser: Option<string>, online: bool): (r: map<Path, Value>)
    ensures currentUser.None? ==> r == data
    ensures currentUser.Some? ==>
      && r.Keys == data.Keys + {OnlinePath(currentUser.value)}
      && r[OnlinePath(currentUser.value)] == BoolValue(online)
      && forall p :: p in data && p != OnlinePath(currentUser.value) ==> r[p] == data[p]
  {
    match currentUser
    case None => data
    case Some(uid) => data[OnlinePath(uid) := BoolValue(online)]
  }

  /** What a listener on `users/{uid}/online` reads as `Boolean?`. */
  function PresenceOf(data: map<Path, Value>, uid: string): Option<bool> {
    if OnlinePath(uid) in data && data[OnlinePath(uid)].BoolValue? then
      Some(data[OnlinePath(uid)].b)
    else None
  }

  /** `setUserOnline()`. */
  method SetUserOnline(db: Database, currentUser: Option<string>)
    modifies db
    ensures db.data == WithPresence(old(db.data), currentUser, true)
  {
    if currentUser.None? {
      return;
    }
    db.SetValue(OnlinePath(currentUser.value), BoolValue(true));
  }

  /** `setUserOffline()`. */
  method SetUserOffline(db: Database, currentUser: Option<string>)
    modifies db
    ensures db.data == WithPresence(old(db.data), currentUser, false)
  {
    if currentUser.None? {
      return;
    }
    db.SetValue(OnlinePath(currentUser.value), BoolValue(false));
  }

  /** The last write wins: an earlier presence write leaves no trace. */
  lemma LastWriterWins(data: map<Path, Value>, currentUser: Option<string>, first: bool, second: bool)
    ensures WithPresence(WithPresence(data, currentUser, first), currentUser, second)
         == WithPresence(data, currentUser, second)
  {
  }

  /** Writing the same flag twice leaves the store as writing it once. */
  lemma PresenceIdempotent(data: map<Path, Value>, currentUser: Option<string>, online: bool)
    ensures var once := WithPresence(data, currentUser, online);
      WithPresence(once, currentUser, online) == once
  {
  }

  /** Observers of the writer's path read back exactly the flag written;
      every other user's presence is untouched. */
  lemma PresenceReadBack(data: map<Path, Value>, uid: string, other: string, online: bool)
    requires other != uid
    ensures PresenceOf(WithPresence(data, Some(uid), online), uid) == Some(online)
    ensures PresenceOf(WithPresence(data, Some(uid), online), other) == PresenceOf(data, other)
  {
  }
}
