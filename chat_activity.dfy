/**
 * `ChatActivity` and its `ChatScreen` composable: the two-party channel id,
 * the message list rebuilt from every snapshot, send, delete, the
 * receiver's presence, and presence writes on resume and pause.
 */
module ChatActivity {
  import opened Wrappers
  import opened KotlinStrings
  import opened RealtimeDatabase
  import opened SnapshotValues
  import UserPrefrenceManager

  datatype ChatMessage = ChatMessage(
    id: string,
    text: string,
    senderId: string,
    receiverId: string,
    timestamp: int)

  // ---------------------------------------------------------------------
  // Channel addressing

  /** `listOf(a, b).sorted().joinToString("_")`. */
  function ChatId(a: string, b: string): string {
    if LexLessOrEqual(a, b) then a + "_" + b else b + "_" + a
  }

  /** The id is the smaller participant, "_", then the larger one. */
  lemma ChatIdOrdered(a: string, b: string)
    ensures || (ChatId(a, b) == a + "_" + b && LexLessOrEqual(a, b))
            || (ChatId(a, b) == b + "_" + a && LexLessOrEqual(b, a))
  {
    LexTotal(a, b);
  }

  /** Both participants derive the same channel. */
  lemma ChatIdSymmetric(a: string, b: string)
    ensures ChatId(a, b) == ChatId(b, a)
  {
    LexTotal(a, b);
    if LexLessOrEqual(a, b) && LexLessOrEqual(b, a) {
      LexAntisymmetric(a, b);
    }
  }

  /** With '_' in no participant id, a participant's channels with two
      different partners differ. */
  lemma ChatIdDistinguishesPartners(a: string, b: string, c: string)
    requires '_' !in a && '_' !in b && '_' !in c
    requires b != c
    ensures ChatId(a, b) != ChatId(a, c)
  {
    ChatIdOrdered(a, b);
    ChatIdOrdered(a, c);
    if ChatId(a, b) == ChatId(a, c) {
      var x1, y1 := if LexLessOrEqual(a, b) then a else b, if LexLessOrEqual(a, b) then b else a;
      var x2, y2 := if LexLessOrEqual(a, c) then a else c, if LexLessOrEqual(a, c) then c else a;
      JoinUnique(x1, y1, x2, y2);
      LexTotal(a, b);
      LexTotal(a, c);
      if x1 == a && x2 != a {
        LexAntisymmetric(a, c);
      } else if x1 != a && x2 == a {
        LexAntisymmetric(a, b);
      }
    }
  }

  /** `x + "_" + y` determines `x` and `y` when `x` has no '_'. */
  lemma JoinUnique(x1: string, y1: string, x2: string, y2: string)
    requires '_' !in x1 && '_' !in x2
    requires x1 + "_" + y1 == x2 + "_" + y2
    ensures x1 == x2 && y1 == y2
  {
    var s := x1 + "_" + y1;
    FirstSeparator(x1, y1);
    FirstSeparator(x2, y2);
    assert x1 == s[..|x1|] && x2 == s[..|x2|];
    assert y1 == s[|x1| + 1..] && y2 == s[|x2| + 1..];
  }

  /** In `x + "_" + y` with no '_' in `x`, the first '_' follows `x`. */
  lemma FirstSeparator(x: string, y: string)
    requires '_' !in x
    ensures (x + "_" + y)[|x|] == '_'
    ensures forall i :: 0 <= i < |x| ==> (x + "_" + y)[i] != '_'
  {
    forall i | 0 <= i < |x| ensures (x + "_" + y)[i] != '_' {
      assert (x + "_" + y)[i] == x[i];
    }
  }

  // ---------------------------------------------------------------------
  // Message ordering

  predicate Ascending(s: seq<ChatMessage>) {
    forall i, j :: 0 <= i < j < |s| ==> s[i].timestamp <= s[j].timestamp
  }

  /** The messages of `s` stamped `t`, in their order in `s`. */
  function StampedAt(s: seq<ChatMessage>, t: int): seq<ChatMessage> {
    if s == [] then []
    else if s[0].timestamp == t then [s[0]] + StampedAt(s[1..], t)
    else StampedAt(s[1..], t)
  }

  /** Places `m` before the first message stamped no earlier than it. */
  function Insert(m: ChatMessage, s: seq<ChatMessage>): (r: seq<ChatMessage>)
    ensures |r| == |s| + 1 && (r[0] == m || (s != [] && r[0] == s[0]))
  {
    if s == [] || m.timestamp <= s[0].timestamp then [m] + s
    else [s[0]] + Insert(m, s[1..])
  }

  /** Kotlin's `sortedBy { it.timestamp }`, which is stable; written as an
      insertion sort. */
  function SortByTimestamp(s: seq<ChatMessage>): (r: seq<ChatMessage>)
    ensures |r| == |s|
  {
    if s == [] then [] else Insert(s[0], SortByTimestamp(s[1..]))
  }

  lemma {:induction false} InsertAscending(m: ChatMessage, s: seq<ChatMessage>)
    requires Ascending(s)
    ensures Ascending(Insert(m, s))
  {
    if s != [] && m.timestamp > s[0].timestamp {
      InsertAscending(m, s[1..]);
    }
  }

  lemma {:induction false} InsertPermutes(m: ChatMessage, s: seq<ChatMessage>)
    ensures multiset(Insert(m, s)) == multiset(s) + multiset{m}
  {
    if s != [] && m.timestamp > s[0].timestamp {
      InsertPermutes(m, s[1..]);
      assert s == [s[0]] + s[1..];
    }
  }

  lemma {:induction false} InsertStable(m: ChatMessage, s: seq<ChatMessage>, t: int)
    requires Ascending(s)
    ensures StampedAt(Insert(m, s), t) == if m.timestamp == t then [m] + StampedAt(s, t) else StampedAt(s, t)
  {
    if s != [] && m.timestamp > s[0].timestamp {
      InsertStable(m, s[1..], t);
      var r := Insert(m, s);
      assert r[1..] == Insert(m, s[1..]);
    } else if s != [] {
      assert ([m] + s)[1..] == s;
    }
  }

  /** The rebuilt list is in ascending timestamp order. */
  lemma {:induction false} SortAscending(s: seq<ChatMessage>)
    ensures Ascending(SortByTimestamp(s))
  {
    if s != [] {
      SortAscending(s[1..]);
      InsertAscending(s[0], SortByTimestamp(s[1..]));
    }
  }

  /** The rebuilt list holds exactly the input messages. */
  lemma {:induction false} SortPermutes(s: seq<ChatMessage>)
    ensures multiset(SortByTimestamp(s)) == multiset(s)
  {
    if s != [] {
      SortPermutes(s[1..]);
      InsertPermutes(s[0], SortByTimestamp(s[1..]));
      assert s == [s[0]] + s[1..];
    }
  }

  /** Stability: messages with equal timestamps keep their input order. */
  lemma {:induction false} SortStable(s: seq<ChatMessage>, t: int)
    ensures StampedAt(SortByTimestamp(s), t) == StampedAt(s, t)
  {
    if s != [] {
      SortStable(s[1..], t);
      SortAscending(s[1..]);
      InsertStable(s[0], SortByTimestamp(s[1..]), t);
    }
  }

  /** A message whose timestamp is no earlier than any other lands last:
      a message just sent with the current clock shows up as the newest. */
  lemma {:induction false} SortAppendLatest(s: seq<ChatMessage>, m: ChatMessage)
    requires forall i :: 0 <= i < |s| ==> s[i].timestamp <= m.timestamp
    ensures SortByTimestamp(s + [m]) == SortByTimestamp(s) + [m]
  {
    if s == [] {
      assert s + [m] == [m];
    } else {
      assert (s + [m])[0] == s[0] && (s + [m])[1..] == s[1..] + [m];
      SortAppendLatest(s[1..], m);
      InsertBeforeLatest(s[0], SortByTimestamp(s[1..]), m);
    }
  }

  lemma {:induction false} InsertBeforeLatest(x: ChatMessage, r: seq<ChatMessage>, m: ChatMessage)
    requires x.timestamp <= m.timestamp
    ensures Insert(x, r + [m]) == Insert(x, r) + [m]
  {
    if r == [] {
      assert [m][0] == m;
    } else {
      assert (r + [m])[0] == r[0] && (r + [m])[1..] == r[1..] + [m];
      if x.timestamp > r[0].timestamp {
        InsertBeforeLatest(x, r[1..], m);
      }
    }
  }

  /** The list shown after a snapshot: the readable children, sorted. */
  function Rebuild(children: seq<Child<ChatMessage>>): seq<ChatMessage> {
    SortByTimestamp(Values(children))
  }

  /** Everything `Rebuild` promises, in one place: ascending, exactly the
      readable children, and stable among equal timestamps. */
  lemma RebuildSpec(children: seq<Child<ChatMessage>>, t: int)
    ensures Ascending(Rebuild(children))
    ensures multiset(Rebuild(children)) == multiset(Values(children))
    ensures StampedAt(Rebuild(children), t) == StampedAt(Values(children), t)
  {
    SortAscending(Values(children));
    SortPermutes(Values(children));
    SortStable(Values(children), t);
  }

  // ---------------------------------------------------------------------
  // Display

  function Reversed(s: seq<ChatMessage>): (r: seq<ChatMessage>)
    ensures |r| == |s| && forall i :: 0 <= i < |s| ==> r[i] == s[|s| - 1 - i]
  {
    if s == [] then [] else Reversed(s[1..]) + [s[0]]
  }

  /** The displayed list of an ascending list is newest first. */
  lemma DisplayNewestFirst(s: seq<ChatMessage>)
    requires Ascending(s)
    ensures forall i, j :: 0 <= i < j < |s| ==> Reversed(s)[i].timestamp >= Reversed(s)[j].timestamp
  {
  }

  // ---------------------------------------------------------------------
  // Store layout

  function MessagePath(chatId: string, id: string): Path {
    ["chats", chatId, "messages", id]
  }

  /** How `setValue(message)` serialises the data class. */
  function EncodeMessage(m: ChatMessage): Value {
    Node(map[
      "id" := StringValue(m.id),
      "text" := StringValue(m.text),
      "senderId" := StringValue(m.senderId),
      "receiverId" := StringValue(m.receiverId),
      "timestamp" := LongValue(m.timestamp)])
  }

  /** The store after the send button's write, if the store accepts it. */
  function AfterSend(data: map<Path, Value>, chatId: string, m: ChatMessage, result: WriteResult): (r: map<Path, Value>)
    ensures result.Failed? ==> r == data
    ensures result.Succeeded? ==>
      && r.Keys == data.Keys + {MessagePath(chatId, m.id)}
      && r[MessagePath(chatId, m.id)] == EncodeMessage(m)
      && forall p :: p in data && p != MessagePath(chatId, m.id) ==> r[p] == data[p]
  {
    if result.Succeeded? then data[MessagePath(chatId, m.id) := EncodeMessage(m)] else data
  }

  // ---------------------------------------------------------------------
  // The screen

  class ChatScreen {
    const senderId: string
    const receiverId: string
    const chatId: string
    var messages: seq<ChatMessage>
    var inputText: string
    var errorMessage: Option<string>
    var showDeleteDialog: bool
    var selectedMessageId: Option<string>
    var isReceiverOnline: bool

    constructor (senderId: string, receiverId: string)
      ensures this.senderId == senderId && this.receiverId == receiverId
      ensures chatId == ChatId(senderId, receiverId)
      ensures messages == [] && inputText == "" && errorMessage == None
      ensures !showDeleteDialog && selectedMessageId == None && !isReceiverOnline
    {
      this.senderId := senderId;
      this.receiverId := receiverId;
      chatId := ChatId(senderId, receiverId);
      messages := [];
      inputText := "";
      errorMessage := None;
      showDeleteDialog := false;
      selectedMessageId := None;
      isReceiverOnline := false;
    }

    /** `messageListener.onDataChange`: clear, then add the rebuilt list. */
    method OnMessagesSnapshot(children: seq<Child<ChatMessage>>)
      modifies this`messages
      ensures messages == Rebuild(children)
    {
      var newMessages := Rebuild(children);
      messages := [];
      messages := messages + newMessages;
    }

    /** `messageListener.onCancelled`. */
    method OnMessagesCancelled(reason: string)
      modifies this`errorMessage
      ensures errorMessage == Some("Failed to load messages: " + reason)
    {
      errorMessage := Some("Failed to load messages: " + reason);
    }

    /** `onlineListener.onDataChange`: the stored flag, false when absent. */
    method OnOnlineSnapshot(stored: Option<bool>)
      modifies this`isReceiverOnline
      ensures isReceiverOnline == (stored == Some(true))
    {
      isReceiverOnline := stored.GetOr(false);
    }

    /** The text field's `onValueChange`. */
    method OnInputChange(text: string)
      modifies this`inputText
      ensures inputText == text
    {
      inputText := text;
    }

    /** The send button. A blank input writes nothing. Otherwise one message
        keyed by the push key is written; on success the input is cleared,
        on failure it is kept and an error is reported. */
    method Send(db: Database, pushKey: Option<string>, now: int, result: WriteResult)
      modifies this`inputText, this`errorMessage, db
      ensures IsBlank(old(inputText)) ==>
        db.data == old(db.data) && inputText == old(inputText) && errorMessage == old(errorMessage)
      ensures !IsBlank(old(inputText)) ==>
        var m := ChatMessage(pushKey.GetOr(""), old(inputText), senderId, receiverId, now);
        && db.data == AfterSend(old(db.data), chatId, m, result)
        && inputText == (if result.Succeeded? then "" else old(inputText))
        && errorMessage == (if result.Succeeded? then old(errorMessage)
                            else Some("Failed to send message: " + result.message))
      ensures messages == old(messages)
    {
      if !IsBlank(inputText) {
        var messageId := pushKey.GetOr("");
        var message := ChatMessage(messageId, inputText, senderId, receiverId, now);
        if result.Succeeded? {
          db.SetValue(MessagePath(chatId, messageId), EncodeMessage(message));
          inputText := "";
        } else {
          errorMessage := Some("Failed to send message: " + result.message);
        }
      }
    }

    /** A long press on a bubble selects it and opens the delete dialog. */
    method OnLongPress(m: ChatMessage)
      modifies this`selectedMessageId, this`showDeleteDialog
      ensures selectedMessageId == Some(m.id) && showDeleteDialog
    {
      selectedMessageId := Some(m.id);
      showDeleteDialog := true;
    }

    /** The dialog's Delete button, present only while the dialog is shown
        with a selection: removes that one child and closes the dialog. The
        removal's outcome is ignored. */
    method ConfirmDelete(db: Database, result: WriteResult)
      modifies this`showDeleteDialog, db
      ensures old(showDeleteDialog) && selectedMessageId.Some? ==>
        && !showDeleteDialog
        && db.data == if result.Succeeded? then old(db.data) - {MessagePath(chatId, selectedMessageId.value)}
                      else old(db.data)
      ensures !(old(showDeleteDialog) && selectedMessageId.Some?) ==>
        showDeleteDialog == old(showDeleteDialog) && db.data == old(db.data)
    {
      if showDeleteDialog && selectedMessageId.Some? {
        if result.Succeeded? {
          db.RemoveValue(MessagePath(chatId, selectedMessageId.value));
        }
        showDeleteDialog := false;
      }
    }

    /** The dialog's Cancel button and outside taps. */
    method DismissDelete()
      modifies this`showDeleteDialog
      ensures !showDeleteDialog
    {
      showDeleteDialog := false;
    }

    /** The toast: the pending error is shown once and then cleared. */
    method ShowError() returns (toast: Option<string>)
      modifies this`errorMessage
      ensures toast == old(errorMessage) && errorMessage == None
    {
      toast := errorMessage;
      errorMessage := None;
    }

    /** `messages.reversed()`, the order the list is laid out in. */
    function DisplayedMessages(): (r: seq<ChatMessage>)
      reads this
      ensures |r| == |messages|
      ensures forall i :: 0 <= i < |r| ==> r[i] == messages[|messages| - 1 - i]
    {
      Reversed(messages)
    }

    /** A bubble is drawn as the user's own when its sender is this
        screen's sender. */
    predicate IsMe(m: ChatMessage)
      reads this
    {
      m.senderId == senderId
    }

    /** In a conversation between two different participants, every
        message not drawn as the user's own is the partner's. */
    lemma IsMeSplitsConversation(m: ChatMessage)
      requires senderId != receiverId
      requires m.senderId == senderId || m.senderId == receiverId
      ensures IsMe(m) != (m.senderId == receiverId)
    {
    }
  }

  /** `ChatActivity.onResume`. */
  method OnResume(db: Database, currentUser: Option<string>)
    modifies db
    ensures db.data == UserPrefrenceManager.WithPresence(old(db.data), currentUser, true)
  {
    UserPrefrenceManager.SetUserOnline(db, currentUser);
  }

  /** `ChatActivity.onPause`. */
  method OnPause(db: Database, currentUser: Option<string>)
    modifies db
    ensures db.data == UserPrefrenceManager.WithPresence(old(db.data), currentUser, false)
  {
    UserPrefrenceManager.SetUserOffline(db, currentUser);
  }
}
