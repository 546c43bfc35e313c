# Meet-Dating core, modelled in Dafny

Meet-Dating is an Android dating app written in Kotlin. This project models the logic at its core:

- **One-to-one chat.** Both partners derive the same channel id. Messages are rebuilt from each realtime-database snapshot and sorted by timestamp, then shown newest first. Sends and deletes go through the store. The user's presence flag is set on resume and cleared on pause.
- **Chat list.** Every user other than the current one is collected from the `users` node, and each conversation's last message is tracked.
- **Date-of-birth screen.** Three digit-only fields feed `validateDOB`, which checks that the user is 18 or older. `calculateAge` computes the age stored with the date, and the result is merged into the user's Firestore document.
- **Username screens.** There are two of them, each with its own `UserViewModel`:
  - `main/UserActivity.kt` checks the name against ordered rules and a case-insensitive uniqueness query;
  - `activity/UserActivity.kt` only guards against a blank name.
- **`AuthUtils`.** Login state is kept in shared preferences and checked against the identity provider's current user.
- **Profile lists.** Firestore documents are decoded into profiles, with defaults for missing fields, and the in-memory list of liked profiles grows.

## How the model is built

- **Stores.** The stores are classes whose fields the methods update:
  - `RealtimeDatabase.Database` holds a `map` from path to value;
  - `Firestore.Db` holds collections of documents.
- **Screen and view-model state.** These are classes as well: `ChatActivity.ChatScreen`, `DobActivity.DobScreen`, and the `UserViewModel`, `ChatViewModel`, `ProfileViewModel` and `LikedProfilesViewModel` classes.
- **Callbacks.** Each listener callback is one method taking the decoded snapshot.
- **Environment as parameters.** The outcome of each asynchronous call (success, or the exception message) is a parameter. So are the signed-in user, the clock and the push key.
- **Kotlin library behaviour.** The standard-library functions the code relies on are written out in `KotlinStrings`:
  - `isWhitespace`, `isBlank`, `trim`;
  - ASCII `lowercase`;
  - `String.toInt` (optional sign, ASCII digits, 32-bit range);
  - `split` (which keeps empty pieces);
  - `String.compareTo`.

  `Long.toInt()` (32-bit wrap-around) is in `ProfileViewModel`. `sortedBy` is a stable insertion sort in `ChatActivity`.

## Model

| member | source | states |
|---|---|---|
| KotlinStrings.TrimStart | app/src/main/java/com/compose/meet_dating/activity/UserActivity.kt:103 | The result is a suffix of the input that does not start with whitespace, and what was dropped is all whitespace. |
| KotlinStrings.TrimEnd | app/src/main/java/com/compose/meet_dating/activity/UserActivity.kt:103 | The result is a prefix of the input that does not end with whitespace, and what was dropped is all whitespace. |
| KotlinStrings.Trim | app/src/main/java/com/compose/meet_dating/activity/UserActivity.kt:103 | `trim()`. No contract of its own; `TrimIsTrimmed` and `BlankIffTrimEmpty` specify it. |
| KotlinStrings.TrimIsTrimmed | app/src/main/java/com/compose/meet_dating/activity/UserActivity.kt:103 | `trim()` returns a slice of the input with no whitespace at either end, and only whitespace around it. |
| KotlinStrings.IsBlank | app/src/main/java/com/compose/meet_dating/activity/UserActivity.kt:196 | `isBlank()`: every character is whitespace. `BlankIffTrimEmpty` ties it to `trim()`. |
| KotlinStrings.BlankIffTrimEmpty | app/src/main/java/com/compose/meet_dating/activity/UserActivity.kt:196 | A string is blank exactly when its trimmed form is empty. |
| KotlinStrings.LowercaseChar | app/src/main/java/com/compose/meet_dating/main/UserActivity.kt:206 | Maps each of 'A'..'Z' to the same letter in 'a'..'z', and leaves every other character alone. |
| KotlinStrings.Lowercase | app/src/main/java/com/compose/meet_dating/main/UserActivity.kt:220 | The result has the same length as the input and is lowercased character by character. |
| KotlinStrings.Utf16Length | app/src/main/java/com/compose/meet_dating/main/UserActivity.kt:174-180 | `String.length` counts UTF-16 code units: at least one and at most two per character. `Utf16LengthOfChar` and `Utf16LengthAppend` give the exact count. |
| KotlinStrings.Utf16LengthOfBmp | app/src/main/java/com/compose/meet_dating/main/UserActivity.kt:174-180 | With no character outside the Basic Multilingual Plane, the length is the number of characters. |
| KotlinStrings.Utf16LengthOfChar | app/src/main/java/com/compose/meet_dating/main/UserActivity.kt:174-180 | One character is one UTF-16 unit inside the Basic Multilingual Plane and two outside it. |
| KotlinStrings.Utf16LengthAppend | app/src/main/java/com/compose/meet_dating/main/UserActivity.kt:174-180 | The length of a concatenation is the sum of the lengths. With `Utf16LengthOfChar` this fixes the length of every string. |
| KotlinStrings.ToInt | app/src/main/java/com/compose/meet_dating/activity/DOBActivity.kt:219-221 | The empty string fails to parse, and every parsed value lies in the 32-bit Int range. |
| KotlinStrings.ToIntCharset | app/src/main/java/com/compose/meet_dating/activity/DOBActivity.kt:264 | A string that parses contains only digits and sign characters, so it contains no '/'. |
| KotlinStrings.ToIntOfDigits | app/src/main/java/com/compose/meet_dating/activity/DOBActivity.kt:219-221 | A run of 1 to 9 ASCII digits parses to its decimal value. |
| KotlinStrings.Split | app/src/main/java/com/compose/meet_dating/activity/DOBActivity.kt:264 | `split` always yields at least one piece. |
| KotlinStrings.SplitNoSeparator | app/src/main/java/com/compose/meet_dating/activity/DOBActivity.kt:264 | A string without the separator splits into itself alone. |
| KotlinStrings.SplitJoin | app/src/main/java/com/compose/meet_dating/activity/DOBActivity.kt:264 | Splitting `a + sep + b`, with no separator in `a`, gives `a` followed by the pieces of `b`. Joining and splitting are inverse. |
| KotlinStrings.LexTotal | app/src/main/java/com/compose/meet_dating/chats/ChatActivity.kt:98 | String ordering is total: for any two ids, one is less than or equal to the other. |
| KotlinStrings.LexAntisymmetric | app/src/main/java/com/compose/meet_dating/chats/ChatActivity.kt:98 | Two ids that are each less than or equal to the other are equal. |
| RealtimeDatabase.Database.constructor | app/src/main/java/com/compose/meet_dating/utils/UserPrefrenceManager.kt:11 | A fresh store holds no paths. |
| RealtimeDatabase.Database.SetValue | app/src/main/java/com/compose/meet_dating/utils/UserPrefrenceManager.kt:12 | `setValue` replaces the value at one path and changes nothing else. |
| RealtimeDatabase.Database.RemoveValue | app/src/main/java/com/compose/meet_dating/chats/ChatActivity.kt:140 | `removeValue` removes one path and changes nothing else. |
| SnapshotValues.Values | app/src/main/java/com/compose/meet_dating/chats/ChatActivity.kt:106-108 | `mapNotNull` over a snapshot never gives more values than there are children. |
| SnapshotValues.ValuesAppend | app/src/main/java/com/compose/meet_dating/chats/ChatActivity.kt:106-108 | Decoding distributes over concatenation, so the order of children is kept. |
| SnapshotValues.ValuesMembership | app/src/main/java/com/compose/meet_dating/chats/ChatActivity.kt:106-108 | A value is in the decoded list exactly when some child decodes to it. |
| UserPrefrenceManager.PresenceOf | app/src/main/java/com/compose/meet_dating/chats/ChatActivity.kt:101-121 | What the listener on `users/{uid}/online` reads. `PresenceReadBack` specifies it against the presence writes. |
| UserPrefrenceManager.WithPresence | app/src/main/java/com/compose/meet_dating/utils/UserPrefrenceManager.kt:9-19 | With no signed-in user the store is unchanged. Otherwise `users/{uid}/online` holds the flag and every other path is unchanged. |
| UserPrefrenceManager.SetUserOnline | app/src/main/java/com/compose/meet_dating/utils/UserPrefrenceManager.kt:9-13 | The new store is the old one with the user's presence set to true, or unchanged with no user. |
| UserPrefrenceManager.SetUserOffline | app/src/main/java/com/compose/meet_dating/utils/UserPrefrenceManager.kt:15-19 | The new store is the old one with the user's presence set to false, or unchanged with no user. |
| UserPrefrenceManager.LastWriterWins | app/src/main/java/com/compose/meet_dating/utils/UserPrefrenceManager.kt:9-19 | Of two presence writes, only the second one remains. |
| UserPrefrenceManager.PresenceIdempotent | app/src/main/java/com/compose/meet_dating/utils/UserPrefrenceManager.kt:9-19 | Writing the same presence twice is the same as writing it once. |
| UserPrefrenceManager.PresenceReadBack | app/src/main/java/com/compose/meet_dating/utils/UserPrefrenceManager.kt:9-19 | The user's presence reads back as written, and every other user's presence is unchanged. |
| ChatActivity.ChatId | app/src/main/java/com/compose/meet_dating/chats/ChatActivity.kt:98 | `listOf(a, b).sorted().joinToString("_")`. No contract of its own; `ChatIdOrdered`, `ChatIdSymmetric` and `ChatIdDistinguishesPartners` specify it. |
| ChatActivity.ChatIdOrdered | app/src/main/java/com/compose/meet_dating/chats/ChatActivity.kt:98 | The channel id joins the two ids with '_', the smaller one first. |
| ChatActivity.ChatIdSymmetric | app/src/main/java/com/compose/meet_dating/chats/ChatActivity.kt:98 | Both partners compute the same channel id. |
| ChatActivity.ChatIdDistinguishesPartners | app/src/main/java/com/compose/meet_dating/chats/ChatActivity.kt:98 | For ids without '_', different partners give different channels. |
| ChatActivity.Insert | app/src/main/java/com/compose/meet_dating/chats/ChatActivity.kt:108 | Inserting adds exactly one element, and the head is either the new message or the old head. |
| ChatActivity.SortByTimestamp | app/src/main/java/com/compose/meet_dating/chats/ChatActivity.kt:108 | Sorting keeps the length. |
| ChatActivity.InsertAscending | app/src/main/java/com/compose/meet_dating/chats/ChatActivity.kt:108 | Inserting into an ascending list keeps it ascending. |
| ChatActivity.InsertPermutes | app/src/main/java/com/compose/meet_dating/chats/ChatActivity.kt:108 | Inserting adds exactly the new message to the multiset. |
| ChatActivity.InsertStable | app/src/main/java/com/compose/meet_dating/chats/ChatActivity.kt:108 | Among equal timestamps, the inserted message comes before the ones already placed. |
| ChatActivity.SortAscending | app/src/main/java/com/compose/meet_dating/chats/ChatActivity.kt:108 | `sortedBy { it.timestamp }` is in ascending timestamp order. |
| ChatActivity.SortPermutes | app/src/main/java/com/compose/meet_dating/chats/ChatActivity.kt:108 | The sort is a permutation of its input. |
| ChatActivity.SortStable | app/src/main/java/com/compose/meet_dating/chats/ChatActivity.kt:108 | The sort is stable: messages with the same timestamp keep their snapshot order. |
| ChatActivity.SortAppendLatest | app/src/main/java/com/compose/meet_dating/chats/ChatActivity.kt:106-111 | A message no older than all the others appears last after the rebuild. |
| ChatActivity.InsertBeforeLatest | app/src/main/java/com/compose/meet_dating/chats/ChatActivity.kt:108 | Inserting a message no newer than the last one leaves that last one in place. |
| ChatActivity.Rebuild | app/src/main/java/com/compose/meet_dating/chats/ChatActivity.kt:106-108 | `mapNotNull { getValue } .sortedBy { timestamp }`. `RebuildSpec` specifies it. |
| ChatActivity.RebuildSpec | app/src/main/java/com/compose/meet_dating/chats/ChatActivity.kt:105-111 | The rebuilt list is ascending and is a permutation of the decoded children. Equal timestamps keep snapshot order. |
| ChatActivity.Reversed | app/src/main/java/com/compose/meet_dating/chats/ChatActivity.kt:217 | Element i of the reversed list is element n-1-i of the original. |
| ChatActivity.DisplayNewestFirst | app/src/main/java/com/compose/meet_dating/chats/ChatActivity.kt:217 | The displayed list is ordered newest first. |
| ChatActivity.AfterSend | app/src/main/java/com/compose/meet_dating/chats/ChatActivity.kt:265-269 | A failed write leaves the store unchanged. A successful one stores the encoded message at `chats/{chatId}/messages/{id}` and changes no other path. |
| ChatActivity.ChatScreen.constructor | app/src/main/java/com/compose/meet_dating/chats/ChatActivity.kt:91-98 | The initial state: no messages, empty input, no error, no dialog, no selection, partner offline, and the channel id of the two users. |
| ChatActivity.ChatScreen.OnMessagesSnapshot | app/src/main/java/com/compose/meet_dating/chats/ChatActivity.kt:105-111 | The message list is replaced by the decoded and sorted snapshot. |
| ChatActivity.ChatScreen.OnMessagesCancelled | app/src/main/java/com/compose/meet_dating/chats/ChatActivity.kt:113-115 | A cancelled listener sets the error "Failed to load messages: " followed by the reason. |
| ChatActivity.ChatScreen.OnOnlineSnapshot | app/src/main/java/com/compose/meet_dating/chats/ChatActivity.kt:119-121 | The partner counts as online exactly when the stored flag is true. A missing value counts as offline. |
| ChatActivity.ChatScreen.OnInputChange | app/src/main/java/com/compose/meet_dating/chats/ChatActivity.kt:238 | The input field holds what was typed. |
| ChatActivity.ChatScreen.Send | app/src/main/java/com/compose/meet_dating/chats/ChatActivity.kt:255-270 | Blank input changes nothing. Otherwise the message (push key or "", text, both ids, timestamp) is written. Success clears the input. Failure sets "Failed to send message: " followed by the reason. The message list is left to the listener. |
| ChatActivity.ChatScreen.OnLongPress | app/src/main/java/com/compose/meet_dating/chats/ChatActivity.kt:221-224 | A long press selects the message and opens the delete dialog. |
| ChatActivity.ChatScreen.ConfirmDelete | app/src/main/java/com/compose/meet_dating/chats/ChatActivity.kt:135-142 | With the dialog open and a message selected, the message's path is removed and the dialog closes. Otherwise nothing changes. |
| ChatActivity.ChatScreen.DismissDelete | app/src/main/java/com/compose/meet_dating/chats/ChatActivity.kt:137 | Dismissing closes the dialog. |
| ChatActivity.ChatScreen.ShowError | app/src/main/java/com/compose/meet_dating/chats/ChatActivity.kt:278-281 | A pending error is shown once as a toast and then cleared. |
| ChatActivity.ChatScreen.DisplayedMessages | app/src/main/java/com/compose/meet_dating/chats/ChatActivity.kt:217 | The list is displayed in reverse order of the held messages. |
| ChatActivity.ChatScreen.IsMeSplitsConversation | app/src/main/java/com/compose/meet_dating/chats/ChatActivity.kt:220 | In a chat between two different users, each message is drawn as either mine or the partner's, never both. |
| ChatActivity.OnResume | app/src/main/java/com/compose/meet_dating/chats/ChatActivity.kt:76-79 | Resuming marks the signed-in user online. |
| ChatActivity.OnPause | app/src/main/java/com/compose/meet_dating/chats/ChatActivity.kt:81-84 | Pausing marks the signed-in user offline. |
| ChatViewModel.KeptProfile | app/src/main/java/com/compose/meet_dating/main/model/ChatViewModel.kt:178-184 | One child of the `users` snapshot: kept with its key as `userId` unless it is the current user or unreadable. `KeptProfilesMembership` and `KeptProfilesExcludeSelf` specify it. |
| ChatViewModel.KeptProfiles | app/src/main/java/com/compose/meet_dating/main/model/ChatViewModel.kt:176-187 | The list the `forEach` builds. `KeptProfilesAppend`, `KeptProfilesMembership` and `KeptProfilesExcludeSelf` specify it, and `CollectProfiles` is proved equal to it. |
| ChatViewModel.KeptProfilesAppend | app/src/main/java/com/compose/meet_dating/main/model/ChatViewModel.kt:177-187 | Collecting distributes over concatenation of the children, so snapshot order is kept. |
| ChatViewModel.KeptProfilesMembership | app/src/main/java/com/compose/meet_dating/main/model/ChatViewModel.kt:178-182 | A profile is collected exactly when some child other than the current user decodes to it, with the child's key as its user id. |
| ChatViewModel.KeptProfilesExcludeSelf | app/src/main/java/com/compose/meet_dating/main/model/ChatViewModel.kt:178 | For a signed-in user, the user's own profile is never listed. |
| ChatViewModel.CollectProfiles | app/src/main/java/com/compose/meet_dating/main/model/ChatViewModel.kt:175-188 | The loop collects exactly the kept profiles, in order, and requests one last-message lookup per kept profile, for its user id. |
| ChatViewModel.WithLastMessage | app/src/main/java/com/compose/meet_dating/main/model/ChatViewModel.kt:205-209 | An empty or undecodable first child leaves the map unchanged. Otherwise the receiver's entry is the decoded message and every other entry is unchanged. |
| ChatViewModel.LastMessagePathMatchesChatScreen | app/src/main/java/com/compose/meet_dating/main/model/ChatViewModel.kt:198-199 | The list reads the same `chats/{chatId}/messages` node that the chat screen writes, whichever partner opened the chat. |
| ChatViewModel.ChatViewModel.constructor | app/src/main/java/com/compose/meet_dating/main/model/ChatViewModel.kt:157-165 | The initial state: empty lists, and the current user id, or "" when signed out. |
| ChatViewModel.ChatViewModel.OnUsersSnapshot | app/src/main/java/com/compose/meet_dating/main/model/ChatViewModel.kt:175-188 | The chat list becomes the kept profiles, and one lookup is requested per listed profile. |
| ChatViewModel.ChatViewModel.OnLastMessageSnapshot | app/src/main/java/com/compose/meet_dating/main/model/ChatViewModel.kt:204-210 | The last-message map is updated as `WithLastMessage` states. |
| Firestore.GetString | app/src/main/java/com/compose/meet_dating/main/model/ProfileViewModel.kt:43 | `getString` reads an absent or null field as absent and a string as itself. Any other type is a type error. |
| Firestore.DoubleToLong | app/src/main/java/com/compose/meet_dating/main/model/ProfileViewModel.kt:44 | `Double.longValue()` rounds toward zero inside the `Long` range and saturates at either end. |
| Firestore.GetLong | app/src/main/java/com/compose/meet_dating/main/model/ProfileViewModel.kt:44 | `getLong` reads an absent or null field as absent. It reads a long as itself and a double through `longValue()`. Any non-number is a type error. |
| Firestore.Db.Set | app/src/main/java/com/compose/meet_dating/main/UserActivity.kt:226-229 | `set` replaces the whole document and changes no other document. |
| Firestore.Db.Update | app/src/main/java/com/compose/meet_dating/activity/DOBActivity.kt:253-254 | `update` succeeds only on an existing document the store accepts, and then merges the fields into it. Otherwise nothing changes. |
| ProfileViewModel.LongToInt | app/src/main/java/com/compose/meet_dating/main/model/ProfileViewModel.kt:44 | `Long.toInt()` is in the Int range and agrees with its input modulo 2^32. |
| ProfileViewModel.LongToIntInRange | app/src/main/java/com/compose/meet_dating/main/model/ProfileViewModel.kt:44 | An age already in the Int range is kept as is. |
| ProfileViewModel.ToProfile | app/src/main/java/com/compose/meet_dating/main/model/ProfileViewModel.kt:39-52 | A document is dropped exactly when one of its read fields throws: a non-string name, location or image, or a non-numeric age. |
| ProfileViewModel.ToProfileDefaults | app/src/main/java/com/compose/meet_dating/main/model/ProfileViewModel.kt:41-47 | A kept profile carries the document id. Missing fields default to "Anonymous", 0, "Unknown" and no image. Stored strings are taken as they are, and a stored long or double age goes through `toInt()`. |
| ProfileViewModel.DoubleAgeKept | app/src/main/java/com/compose/meet_dating/main/model/ProfileViewModel.kt:44 | A document whose age is the double 25.7 is kept, with age 25. |
| ProfileViewModel.ToProfiles | app/src/main/java/com/compose/meet_dating/main/model/ProfileViewModel.kt:39-52 | Decoding never yields more profiles than there are documents. |
| ProfileViewModel.ToProfilesAppend | app/src/main/java/com/compose/meet_dating/main/model/ProfileViewModel.kt:39-52 | Decoding distributes over concatenation, so document order is kept. |
| ProfileViewModel.ToProfilesMembership | app/src/main/java/com/compose/meet_dating/main/model/ProfileViewModel.kt:39-52 | A profile is listed exactly when some document decodes to it. |
| ProfileViewModel.ProfileViewModel.constructor | app/src/main/java/com/compose/meet_dating/main/model/ProfileViewModel.kt:26 | The list starts empty. |
| ProfileViewModel.ProfileViewModel.OnFetchResult | app/src/main/java/com/compose/meet_dating/main/model/ProfileViewModel.kt:36-56 | A fetched snapshot replaces the list with its decoded profiles. A failed fetch leaves the list unchanged. |
| LikeProfileViewModel.LikedProfilesViewModel.constructor | app/src/main/java/com/compose/meet_dating/main/model/LikeProfileViewModel.kt:8 | The liked list starts empty. |
| LikeProfileViewModel.LikedProfilesViewModel.AddLikedProfile | app/src/main/java/com/compose/meet_dating/main/model/LikeProfileViewModel.kt:11-13 | The profile is appended at the end, earlier entries are kept, and its count grows by one. Duplicates are allowed. |
| AuthUtils.StoredFlag | app/src/main/java/com/compose/meet_dating/utils/AuthUtils.kt:27 | `getBoolean(KEY_IS_LOGGED_IN, false)`. `LoggedInAfterSet`, `LoggedOutAfterSetFalse` and `EmptyPrefsNotLoggedIn` specify it through `IsUserLoggedIn`. |
| AuthUtils.StoredUid | app/src/main/java/com/compose/meet_dating/utils/AuthUtils.kt:31 | `getString(KEY_USER_ID, null)`. `LoggedInAfterSet` and `LoggedInAgreesWithCurrentUserId` specify it through `IsUserLoggedIn`. |
| AuthUtils.IsUserLoggedIn | app/src/main/java/com/compose/meet_dating/utils/AuthUtils.kt:25-36 | Logged in requires a current user plus both the stored flag and a stored id. |
| AuthUtils.AfterSetUserLoggedIn | app/src/main/java/com/compose/meet_dating/utils/AuthUtils.kt:38-44 | The flag is stored. The id is stored only when given, otherwise the old id is kept. Every other key is unchanged. |
| AuthUtils.GetCurrentUserId | app/src/main/java/com/compose/meet_dating/utils/AuthUtils.kt:46-49 | The stored id if present, otherwise the current user's id. |
| AuthUtils.LoggedInAfterSet | app/src/main/java/com/compose/meet_dating/utils/AuthUtils.kt:25-44 | After `setUserLoggedIn(true, uid)`, the user signed in as `uid` is logged in. |
| AuthUtils.LoggedOutAfterSetFalse | app/src/main/java/com/compose/meet_dating/utils/AuthUtils.kt:25-44 | After `setUserLoggedIn(false, ...)`, nobody is logged in. |
| AuthUtils.EmptyPrefsNotLoggedIn | app/src/main/java/com/compose/meet_dating/utils/AuthUtils.kt:25-36 | With cleared preferences, nobody is logged in. |
| AuthUtils.LoggedInAgreesWithCurrentUserId | app/src/main/java/com/compose/meet_dating/utils/AuthUtils.kt:25-49 | When logged in, `getCurrentUserId` is the signed-in user's id. |
| AuthUtils.AuthUtils.constructor | app/src/main/java/com/compose/meet_dating/utils/AuthUtils.kt:15 | No Google login is in progress at start. |
| AuthUtils.AuthUtils.SetGoogleLoginInProgress | app/src/main/java/com/compose/meet_dating/utils/AuthUtils.kt:17-19 | Sets the flag. |
| AuthUtils.AuthUtils.IsGoogleLoginInProgress | app/src/main/java/com/compose/meet_dating/utils/AuthUtils.kt:21-23 | Returns the flag last set. |
| AuthUtils.AuthUtils.SetUserLoggedIn | app/src/main/java/com/compose/meet_dating/utils/AuthUtils.kt:38-44 | The preferences become `AfterSetUserLoggedIn` of the old ones. |
| AuthUtils.AuthUtils.LogoutUser | app/src/main/java/com/compose/meet_dating/utils/AuthUtils.kt:51-57 | Signs out and clears the preferences, after which nobody is logged in. |
| DobActivity.DaysInMonth | app/src/main/java/com/compose/meet_dating/activity/DOBActivity.kt:227 | Every month has 28 to 31 days, and December has 31. |
| DobActivity.NormalizeDay | app/src/main/java/com/compose/meet_dating/activity/DOBActivity.kt:227 | Lenient `Calendar.set` rolls any day number into a real date. `NormalizeKeepsDay` shows it is the same day. |
| DobActivity.NormalizeKeepsDay | app/src/main/java/com/compose/meet_dating/activity/DOBActivity.kt:227 | The roll-over lands on the same day: the running day count of the result equals that of the input. With the validity ensures of `NormalizeDay` this fixes the result. |
| DobActivity.BirthDate | app/src/main/java/com/compose/meet_dating/activity/DOBActivity.kt:227-229 | `set(year, month - 1, day)` read back as year and day of the year. `BirthDateInRange` and `NormalizeKeepsDay` specify it. |
| DobActivity.AgeAt | app/src/main/java/com/compose/meet_dating/activity/DOBActivity.kt:228-235 | The age in whole years. `ValidateDobIffAdult` states it for validated dates. |
| DobActivity.BirthDateInRange | app/src/main/java/com/compose/meet_dating/activity/DOBActivity.kt:223-231 | For day 1..31 and month 1..12, the year stays put and the day of the year is the days before the month plus the day. |
| DobActivity.ValidateDob | app/src/main/java/com/compose/meet_dating/activity/DOBActivity.kt:217-239 | `validateDOB`. No contract of its own; `ValidateDobIffAdult`, `ValidateDobRejectsOutOfRange`, `ValidateDobRejectsUnparsable` and `ValidateDobByYear` specify it. |
| DobActivity.ToInts | app/src/main/java/com/compose/meet_dating/activity/DOBActivity.kt:264 | `map { it.toInt() }` succeeds with one value per piece, or fails because some piece does not parse. |
| DobActivity.CalculateAge | app/src/main/java/com/compose/meet_dating/activity/DOBActivity.kt:262-276 | `calculateAge`. `CalculateAgeMalformed` and `SavedAgeMatchesValidatedAge` specify it. |
| DobActivity.ValidateDobRejectsUnparsable | app/src/main/java/com/compose/meet_dating/activity/DOBActivity.kt:218-221 | A field that does not parse makes the date invalid. |
| DobActivity.ValidateDobRejectsOutOfRange | app/src/main/java/com/compose/meet_dating/activity/DOBActivity.kt:223-225 | A day outside 1..31, a month outside 1..12, or a year outside 1920..this year makes the date invalid. |
| DobActivity.ValidateDobIffAdult | app/src/main/java/com/compose/meet_dating/activity/DOBActivity.kt:217-239 | In range, the date is valid exactly when the age, adjusted for a birthday not yet reached, is at least 18. |
| DobActivity.ValidateDobByYear | app/src/main/java/com/compose/meet_dating/activity/DOBActivity.kt:229-235 | Born 19 or more calendar years ago is always adult. Born fewer than 18 years ago never is. |
| DobActivity.CalculateAgeMalformed | app/src/main/java/com/compose/meet_dating/activity/DOBActivity.kt:262-276 | Fewer than three pieces, or a piece that does not parse, gives age 0. |
| DobActivity.SavedAgeMatchesValidatedAge | app/src/main/java/com/compose/meet_dating/activity/DOBActivity.kt:141-146 | For an accepted date, `calculateAge("d/m/y")` equals the age the check accepted, so the stored age is at least 18. |
| DobActivity.FieldAccepts | app/src/main/java/com/compose/meet_dating/activity/DOBActivity.kt:187-190 | The field filter: digits only, at most 4 for "Year" and 2 otherwise. `FilteredFieldParses` specifies what it lets through. |
| DobActivity.FilteredFieldParses | app/src/main/java/com/compose/meet_dating/activity/DOBActivity.kt:187-190 | Non-empty text the field filter lets through parses, to a value below 100, or below 10000 for the year. |
| DobActivity.ContinueEnabled | app/src/main/java/com/compose/meet_dating/activity/DOBActivity.kt:157 | The Continue button's `enabled`. `EnabledFieldsParse` specifies it. |
| DobActivity.EnabledFieldsParse | app/src/main/java/com/compose/meet_dating/activity/DOBActivity.kt:157 | With filtered fields, an enabled button means all three fields parse. |
| DobActivity.DobFields | app/src/main/java/com/compose/meet_dating/activity/DOBActivity.kt:250-251 | The `{dob, age}` map that is merged. `SaveDobToFirestore` and `DobScreen.OnContinue` state where it goes. |
| DobActivity.SaveDobToFirestore | app/src/main/java/com/compose/meet_dating/activity/DOBActivity.kt:241-260 | With no user nothing happens. Otherwise `{dob, age}` is merged into an existing accepted document, or nothing changes; either way `onComplete` runs. |
| DobActivity.DobScreen.constructor | app/src/main/java/com/compose/meet_dating/activity/DOBActivity.kt:46-50 | Empty fields, not loading, no error. |
| DobActivity.DobScreen.FieldsFiltered | app/src/main/java/com/compose/meet_dating/activity/DOBActivity.kt:187-190 | Each field holds text its filter accepts. The constructor establishes it and each edit keeps it. |
| DobActivity.DobScreen.EditDay | app/src/main/java/com/compose/meet_dating/activity/DOBActivity.kt:187-190 | The day field takes the new text only if it is at most two digits, so the fields stay filtered. |
| DobActivity.DobScreen.EditMonth | app/src/main/java/com/compose/meet_dating/activity/DOBActivity.kt:187-190 | The month field takes the new text only if it is at most two digits, so the fields stay filtered. |
| DobActivity.DobScreen.EditYear | app/src/main/java/com/compose/meet_dating/activity/DOBActivity.kt:187-190 | The year field takes the new text only if it is at most four digits, so the fields stay filtered. |
| DobActivity.DobScreen.OnContinue | app/src/main/java/com/compose/meet_dating/activity/DOBActivity.kt:140-156 | With filtered fields and the button enabled, all three fields parse. An invalid date sets the error message only. A valid date merges `{dob: "d/m/y", age}` into the user's existing document when the store accepts it, and the stored age is at least 18. Otherwise the store is unchanged. The screen moves on when there is a user; without one, the loading flag stays set. |
| MainUserActivity.UsernameError | app/src/main/java/com/compose/meet_dating/main/UserActivity.kt:166-194 | The name is accepted exactly when it is 3 to 20 UTF-16 units long and every character matches `[A-zA-Z0-9_]`. Otherwise the message of the first broken rule is returned, in the order empty, short, long, characters. |
| MainUserActivity.AcceptedNameLength | app/src/main/java/com/compose/meet_dating/main/UserActivity.kt:174-186 | An accepted name has 3 to 20 characters, because each character of the class is one code unit. |
| MainUserActivity.AstralCharacterCountsTwice | app/src/main/java/com/compose/meet_dating/main/UserActivity.kt:174-190 | A letter followed by an emoji counts as length 3, so it passes the length rules and is refused for its characters. |
| MainUserActivity.PunctuationInsideRangePasses | app/src/main/java/com/compose/meet_dating/main/UserActivity.kt:186 | The range `A-z` also admits `[ \ ] ^` and the backquote. |
| MainUserActivity.SaveEnabled | app/src/main/java/com/compose/meet_dating/main/UserActivity.kt:115 | The Save button's `enabled`. `ValidNameEnablesSave` specifies it. |
| MainUserActivity.ValidNameEnablesSave | app/src/main/java/com/compose/meet_dating/main/UserActivity.kt:115 | When idle, a name that passes validation always enables the button. |
| MainUserActivity.UserRecord | app/src/main/java/com/compose/meet_dating/main/UserActivity.kt:218-224 | The saved record has exactly username, username_lowercase, userId, email and createdAt, and its lowercase field is the lowercased name. |
| MainUserActivity.UsernameTakenAsWritten | app/src/main/java/com/compose/meet_dating/main/UserActivity.kt:205-208 | The uniqueness query as written, on "Users". `AsWrittenCheckIgnoresSavedNames` and `AsWrittenDuplicateExample` specify it. |
| MainUserActivity.UsernameTaken | app/src/main/java/com/compose/meet_dating/main/UserActivity.kt:205-208 | The uniqueness query on "users", where records are saved. `SavedNameIsTaken` specifies it. |
| MainUserActivity.AsWrittenCheckIgnoresSavedNames | app/src/main/java/com/compose/meet_dating/main/UserActivity.kt:205-229 | As written, saving a record never makes the uniqueness query report the name as taken. |
| MainUserActivity.AsWrittenDuplicateExample | app/src/main/java/com/compose/meet_dating/main/UserActivity.kt:205-229 | From an empty store, "Bob" saved by one account is in `users`, yet the query as written lets "bob" through. |
| MainUserActivity.SavedNameIsTaken | app/src/main/java/com/compose/meet_dating/main/UserActivity.kt:205-229 | With the corrected query, a saved name and every spelling with the same lowercase form are taken from then on. |
| MainUserActivity.UserViewModel.constructor | app/src/main/java/com/compose/meet_dating/main/UserActivity.kt:244-248 | Empty name, not loading, no error. |
| MainUserActivity.UserViewModel.UpdateUsername | app/src/main/java/com/compose/meet_dating/main/UserActivity.kt:159-164 | Sets the name and clears the error. |
| MainUserActivity.UserViewModel.ValidateUsername | app/src/main/java/com/compose/meet_dating/main/UserActivity.kt:166-194 | Returns whether the name is valid. An invalid name gets its first rule's message; a valid one changes nothing. |
| MainUserActivity.UserViewModel.SaveUsername | app/src/main/java/com/compose/meet_dating/main/UserActivity.kt:196-241 | An invalid name stops before loading. Otherwise loading ends false whatever happens. A query or write exception sets "Error saving username: " followed by the message. A name found by the query as written, on "Users", sets "Username already taken". Otherwise a successful write stores the record in "users" and completes. |
| ActivityUserActivity.NameRecord | app/src/main/java/com/compose/meet_dating/activity/UserActivity.kt:203-206 | The record has exactly username and userId. |
| ActivityUserActivity.SaveEnabled | app/src/main/java/com/compose/meet_dating/activity/UserActivity.kt:140 | The Save button's `enabled`. `TrimmedNameBlankIffEmpty` specifies it. |
| ActivityUserActivity.TrimmedNameBlankIffEmpty | app/src/main/java/com/compose/meet_dating/activity/UserActivity.kt:103 | Because input is trimmed, the name is blank only when empty, and an enabled button means no outer whitespace. |
| ActivityUserActivity.UserViewModel.constructor | app/src/main/java/com/compose/meet_dating/activity/UserActivity.kt:216-219 | Empty name, not loading. |
| ActivityUserActivity.UserViewModel.UpdateUsername | app/src/main/java/com/compose/meet_dating/activity/UserActivity.kt:191-193 | Replaces the name only. |
| ActivityUserActivity.UserViewModel.OnValueChange | app/src/main/java/com/compose/meet_dating/activity/UserActivity.kt:103 | The name becomes the trimmed input, with no whitespace at either end. |
| ActivityUserActivity.UserViewModel.SaveUsername | app/src/main/java/com/compose/meet_dating/activity/UserActivity.kt:195-213 | A blank name changes nothing. Otherwise loading is set. With no user it stays set and nothing is written. A failed write clears it. A successful write stores `{username, userId}` and completes with loading still set. |

## Left out

- Image decoding, bitmaps, Compose layout, toasts' visual form, and navigation between activities are outside the model. Navigation appears only as the `completed`/`navigated` results.
- Listener registration and removal (`addValueEventListener`, `onDispose`), and the coroutine scheduling around the view models, are out of scope. Each callback is one atomic method, so interleavings of concurrent callbacks are not modelled.
- The Firebase deserializers (`getValue(ChatMessage::class.java)`, `getValue(ProfileData::class.java)`) are not modelled field by field. A snapshot child arrives already decoded, or as `None` when decoding yields null.
- A child whose stored shape cannot be converted makes `getValue` throw out of `onDataChange` (chat messages, online flag, chat profiles, last message). The model has no such child: every child decodes or is null.
- Firestore timestamps, arrays, maps, references and blobs are one `OtherField` case. Doubles are `real`, which has no NaN or infinity. `longValue()` takes NaN to 0 and the infinities to the ends of the `Long` range; the model has no such inputs.
- KotlinStrings.ToInt: only ASCII digits are accepted; Kotlin also accepts other Unicode decimal digits.
- DobActivity.DobScreen.EditDay: the filter tests digits with ASCII '0'..'9'. Kotlin's `isDigit()` also accepts other Unicode decimal digits, such as Arabic-Indic ones, which the model refuses.
- DobActivity.DobScreen.EditMonth: the same ASCII-only digit test as `EditDay`.
- DobActivity.DobScreen.EditYear: the same ASCII-only digit test as `EditDay`.
- KotlinStrings.Lowercase: only ASCII letters are folded; Kotlin's `lowercase()` folds every Unicode letter. Its one caller only sees names that passed validation, which are all ASCII, so the difference never shows there.
- KotlinStrings.LexLessOrEqual: compares code points; Kotlin compares UTF-16 code units, which differs only for characters outside the Basic Multilingual Plane.
- DobActivity.NormalizeDay: uses the proleptic Gregorian calendar; `GregorianCalendar` switches to the Julian calendar before 1582 and numbers years by era. The validated years (1920 onward) are unaffected.
- ChatActivity.ChatScreen.Send: a message whose push key is null gets the empty id, and the model stores it at the path ending in "". The model does not capture what the realtime database itself does with an empty child name.
- ChatActivity.ChatScreen.ConfirmDelete: removing a message whose id is "" removes the model's path ending in "" only. The realtime database may resolve an empty child name to the `messages` node itself and delete every message; the model does not capture that.
- ChatViewModel.WithLastMessage: takes the first child of the snapshot as given. That the query `orderByChild("timestamp").limitToLast(1)` delivers the newest message is the server's part and is not modelled.
- ChatActivity.ChatScreen.IsMe is a predicate used for display and has no contract of its own.
- The `onCancelled` handlers of `ChatViewModel` and the online-status listener do nothing, so they are not modelled.

## Findings

| source | as written | input that shows it | evidently intended | confidence | as-written member | corrected member |
|---|---|---|---|---|---|---|
| app/src/main/java/com/compose/meet_dating/main/UserActivity.kt:205-229 | The uniqueness query reads collection "Users", but the record is written to "users". | Account "alice" saves "Bob"; account "carol" then saves "bob". The query on "Users" is empty, so the second save goes through. | Query the collection the records are written to, so a saved name, in any case, is taken. `UserViewModel.SaveUsername` keeps the query as written. | high, not executed | MainUserActivity.AsWrittenDuplicateExample | MainUserActivity.SavedNameIsTaken |
