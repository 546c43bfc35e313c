/**
 * `ChatViewModel` (the chat list): every other user's profile from the
 * `users` snapshot, and the last message of each conversation keyed by the
 * partner's id.
 */
module ChatViewModel {
  import opened Wrappers
  import opened RealtimeDatabase
  import opened ChatActivity

  /** The profile record the chat list reads from `users/{uid}`, with the
      `userId` the view model fills in from the snapshot key. */
  datatype ChatProfile = ChatProfile(
    id: string,
    name: string,
    age: int,
    location: string,
    base64Image: Option<string>,
    userId: string)

  /** What one child of the `users` snapshot contributes: nothing for the
      signed-in user or an unreadable child, otherwise its profile with
      `userId` set to the child's key (or "" for a null key). */
  function KeptProfile(child: Child<ChatProfile>, currentUserId: string): Option<ChatProfile> {
    if child.key != Some(currentUserId) && child.value.Some? then
      Some(child.value.value.(userId := child.key.GetOr("")))
    else None
  }

  /** The chat list a `users` snapshot produces, in snapshot order. */
  function KeptProfiles(children: seq<Child<ChatProfile>>, currentUserId: string): seq<ChatProfile> {
    if children == [] then []
    else
      var rest := KeptProfiles(children[1..], currentUserId);
      match KeptProfile(children[0], currentUserId)
      case Some(p) => [p] + rest
      case None => rest
  }

  /** The chat list of consecutive runs of children is the concatenation of
      theirs: snapshot order is kept. */
  lemma {:induction false} KeptProfilesAppend(a: seq<Child<ChatProfile>>, b: seq<Child<ChatProfile>>, currentUserId: string)
    ensures KeptProfiles(a + b, currentUserId) == KeptProfiles(a, currentUserId) + KeptProfiles(b, currentUserId)
  {
    if a == [] {
      assert a + b == b;
    } else {
      assert (a + b)[0] == a[0] && (a + b)[1..] == a[1..] + b;
      KeptProfilesAppend(a[1..], b, currentUserId);
    }
  }

  /** A profile is listed exactly when some child other than the signed-in
      user's reads as it, up to the `userId` taken from that child's key. */
  lemma {:induction false} KeptProfilesMembership(children: seq<Child<ChatProfile>>, currentUserId: string, p: ChatProfile)
    ensures p in KeptProfiles(children, currentUserId) <==>
      exists i :: 0 <= i < |children| && KeptProfile(children[i], currentUserId) == Some(p)
  {
    if children != [] {
      KeptProfilesMembership(children[1..], currentUserId, p);
      if exists i :: 0 <= i < |children| && KeptProfile(children[i], currentUserId) == Some(p) {
        var i :| 0 <= i < |children| && KeptProfile(children[i], currentUserId) == Some(p);
        if i > 0 {
          assert children[1..][i - 1] == children[i];
        }
      }
      if p in KeptProfiles(children[1..], currentUserId) {
        var i :| 0 <= i < |children[1..]| && KeptProfile(children[1..][i], currentUserId) == Some(p);
        assert children[i + 1] == children[1..][i];
      }
    }
  }

  /** A signed-in user never appears in their own chat list. */
  lemma {:induction false} KeptProfilesExcludeSelf(children: seq<Child<ChatProfile>>, currentUserId: string)
    requires currentUserId != ""
    ensures forall p :: p in KeptProfiles(children, currentUserId) ==> p.userId != currentUserId
  {
    forall p | p in KeptProfiles(children, currentUserId) ensures p.userId != currentUserId {
      KeptProfilesMembership(children, currentUserId, p);
    }
  }

  /** The body of `onDataChange` for `users`: walks the children, collects
      the kept profiles, and starts a last-message lookup for each. */
  method CollectProfiles(children: seq<Child<ChatProfile>>, currentUserId: string)
    returns (profiles: seq<ChatProfile>, lookups: seq<string>)
    ensures profiles == KeptProfiles(children, currentUserId)
    ensures |lookups| == |profiles|
    ensures forall i :: 0 <= i < |profiles| ==> lookups[i] == profiles[i].userId
  {
    profiles, lookups := [], [];
    var i := 0;
    while i < |children|
      invariant 0 <= i <= |children|
      invariant profiles == KeptProfiles(children[..i], currentUserId)
      invariant |lookups| == |profiles|
      invariant forall k :: 0 <= k < |profiles| ==> lookups[k] == profiles[k].userId
    {
      var child := children[i];
      assert children[..i + 1] == children[..i] + [child];
      KeptProfilesAppend(children[..i], [child], currentUserId);
      if child.key != Some(currentUserId) {
        if child.value.Some? {
          var profile := child.value.value.(userId := child.key.GetOr(""));
          profiles := profiles + [profile];
          lookups := lookups + [profile.userId];
        }
      }
      i := i + 1;
    }
    assert children[..i] == children;
  }

  /** The map after a last-message snapshot for `receiverId`: its first
      child, when readable, becomes that partner's entry. */
  function WithLastMessage(lastMessages: map<string, ChatMessage>, receiverId: string, children: seq<Child<ChatMessage>>)
    : (r: map<string, ChatMessage>)
    ensures children == [] || children[0].value.None? ==> r == lastMessages
    ensures children != [] && children[0].value.Some? ==>
      && r.Keys == lastMessages.Keys + {receiverId}
      && r[receiverId] == children[0].value.value
    ensures forall k :: k in lastMessages && k != receiverId ==> k in r && r[k] == lastMessages[k]
  {
    if children != [] && children[0].value.Some? then
      lastMessages[receiverId := children[0].value.value]
    else lastMessages
  }

  /** The channel the chat list watches for a partner. */
  function LastMessagePath(currentUserId: string, receiverId: string): Path {
    ["chats", ChatId(currentUserId, receiverId), "messages"]
  }

  /** The chat list watches the very collection that either party's chat
      screen writes into. */
  lemma LastMessagePathMatchesChatScreen(currentUserId: string, receiverId: string, id: string)
    ensures MessagePath(ChatId(currentUserId, receiverId), id)[..3] == LastMessagePath(currentUserId, receiverId)
    ensures MessagePath(ChatId(receiverId, currentUserId), id)[..3] == LastMessagePath(currentUserId, receiverId)
  {
    ChatIdSymmetric(currentUserId, receiverId);
  }

  class ChatViewModel {
    const currentUserId: string
    var chatProfiles: seq<ChatProfile>
    var lastMessages: map<string, ChatMessage>

    /** The signed-in user's uid, or "" when nobody is signed in. */
    constructor (currentUser: Option<string>)
      ensures currentUserId == (if currentUser.Some? then currentUser.value else "")
      ensures chatProfiles == [] && lastMessages == map[]
    {
      currentUserId := currentUser.GetOr("");
      chatProfiles := [];
      lastMessages := map[];
    }

    /** `users` listener: the list is replaced wholesale; the returned ids
        are the partners whose last message is then looked up. */
    method OnUsersSnapshot(children: seq<Child<ChatProfile>>) returns (lookups: seq<string>)
      modifies this`chatProfiles
      ensures chatProfiles == KeptProfiles(children, currentUserId)
      ensures |lookups| == |chatProfiles|
      ensures forall i :: 0 <= i < |lookups| ==> lookups[i] == chatProfiles[i].userId
    {
      var profiles;
      profiles, lookups := CollectProfiles(children, currentUserId);
      chatProfiles := profiles;
    }

    /** Last-message listener for one partner. */
    method OnLastMessageSnapshot(receiverId: string, children: seq<Child<ChatMessage>>)
      modifies this`lastMessages
      ensures lastMessages == WithLastMessage(old(lastMessages), receiverId, children)
    {
      if children != [] {
        var first := children[0];
        if first.value.Some? {
          lastMessages := lastMessages[receiverId := first.value.value];
        }
      }
    }
  }
}
