# P.X HB Support: verified model of the chat state logic

P.X HB Support is a live-chat site: visitors chat through a widget, staff
answer from an admin console, and a small Node server relays messages and a
staff-status record over Socket.IO. Most of its code is browser rendering
and socket plumbing. This project models the sequential state logic inside
it and proves what that logic guarantees.

- **Server** (`server.js`): a message list that is appended to and trimmed
  to the newest 100, reads that return the newest 50, the staff login
  check against a fixed credential table, a staff-status record that the
  HTTP endpoint merges field by field and the socket event replaces
  wholesale, and the statistics derived from them. A ghost history of every
  message ever appended shows that trimming never loses a message a read
  could return.
- **Enterprise console** (`admin-v2.js`): the word-list sentiment classifier,
  the newest-first system log capped at 100, the staff roster upsert with
  the online count recomputed, find-or-insert of a conversation per sender
  with a zero-padded `CV###` id, the de-duplicating staff import loop, the
  clamped active-user counter, and the statistics overwrite that only
  applies fields that are present.
- **Basic console** (`admin.js`): roster removal by username, the status
  update keyed on `staffName`, staff addition, message intake, the clamped
  counter, the periodic statistics refresh, and the "newest 20, newest
  first" chat-log view.
- **Visitor page** (`script.js`): the send throttle. A send goes out only
  when the trimmed text is non-empty, no send is in flight, and more than
  1000 ms have passed. Every two accepted sends are therefore more than a
  second apart. The notification-icon switch is also modelled.
- **Self-hosted client** (`self-hosted-chat.js`): the reconnect counter,
  capped at 5, with a back-off of `2000 * attempts` ms (linear, whatever the
  comment says), reset on connect; the history that a load replaces and
  each new message extends; the connected-guard on sending; the avatar icon.

Each piece of mutable state is a Dafny class. Its methods' `ensures` clauses
give the whole new state in terms of the old state, and lemmas prove the
properties of the functions those clauses use. Pure JavaScript
expressions are Dafny functions. The clock (`Date.now()`, `new Date()`) and
every `Math.random()` draw are method parameters; a random draw's
parameter is restricted to the range the source draws from. Timer expiries
(the 500 ms send-flag reset, the scheduled reconnect, the delayed page reload
after a failed console login) are explicit event methods. Emitting on a
socket is modelled as the method's return value. A page reload puts every
field of a console back to its fresh-page value.

Files: `wrappers.dfy` (Option, Result), `seqs.dfy` (slices, reverse,
counting), `decimal.dfy` (`String(n)`, `padStart`, parsing back),
`text.dfy` (`toLowerCase`, `includes`, `trim`), `credentials.dfy`,
`server.dfy`, `admin_v2.dfy`, `admin_panel.dfy`, `client_script.dfy`,
`self_hosted_chat.dfy`.

## Model

| member | source | states |
|---|---|---|
| Server.ChatServer.constructor | server.js:25-31 | Starts with no messages, an empty history and the offline status record `{isOnline: false, staffName: null, lastSeen: null}` |
| Server.ChatServer.Append | server.js:54-59 | After an append: at most 100 messages, the new one last, exactly the newest 100 of old list + [msg]; the class invariant (kept list = newest 100 of the whole history) is preserved |
| Server.ChatServer.PostMessage | server.js:45-65 | Builds the message from body fields and the clock. Stores it with the same trim and returns it as the broadcast. The status record is untouched |
| Server.ChatServer.ChatMessage | server.js:162-168 | Stores the socket payload unchanged, with the same trim, and broadcasts it as received |
| Server.ChatServer.GetMessages | server.js:41-43 | Returns min(50, \|messages\|) items; they are the trailing suffix of the kept list and the newest 50 of the whole history |
| Seqs.Last | server.js:58 | `slice(-n)`: the result has length min(n, \|s\|) and is a suffix of `s` |
| Seqs.LastOfLast | server.js:215 | Reading the newest 50 after trimming to 100 equals reading the newest 50 of the untrimmed list |
| Seqs.LastAppend | server.js:163-166 | Append-then-trim step by step keeps exactly the newest 100 of the full history |
| Server.StaffLogin | server.js:84-99 | Success iff the username is a key of the table and the password equals its stored value; on success the reply echoes the username and "Login successful", otherwise "Invalid credentials" |
| Credentials.Check | server.js:87 | Acceptance implies a known user with matching password; for a table without empty passwords, the converse holds too |
| Credentials.StaffCheckExact | server.js:34-38 | Exactly the three listed username/password pairs are accepted |
| Credentials.AdminCheckExact | admin.js:50-54 | Only admin / pxhb2024 opens an admin console |
| Server.MergeStatus | server.js:72-76 | Keys are old + body + lastSeen; body fields override; old fields not in the body are kept; lastSeen is always the current time |
| Server.ChatServer.PostStaffStatus | server.js:71-82 | The record becomes the field-by-field merge and is broadcast; messages unchanged |
| Server.ChatServer.ReplaceStaffStatus | server.js:171-174 | The record becomes the payload; no old field outside the payload survives |
| Server.OnlineStaff | server.js:109 | 1 iff `isOnline` is present and truthy, else 0 |
| Server.MergeOnline | server.js:125 | After an HTTP update the online count follows the body when it has `isOnline`, and is otherwise unchanged |
| Server.ChatServer.GetRealTimeStats | server.js:122-130 | onlineStaff is the status indicator (0 or 1), totalMessages the kept count (at most 100), activeUsers the socket count |
| Server.ChatServer.GetAdminStats | server.js:197-204 | The same indicator and kept count, with the random active-user draw in 5..24 |
| Server.ChatServer.GetAdminDataAsWritten | server.js:106-120 | As written the handler always fails with a ReferenceError, so `adminData` is never sent; the uncaught error most likely ends the process, so every stored message and the status record are lost (the state is back to the initial one of server.js:26-31) |
| Server.ChatServer.GetAdminData | server.js:107-118 | With the conversation list supplied: the admin row is "online" iff onlineStaff is 1; the other two rows are offline |
| AdminV2.AnalyzeSentiment | admin-v2.js:187-198 | positive iff more positive than negative words are found, negative iff the reverse, neutral on a tie (including 0-0) |
| AdminV2.MatchesCountsWords | admin-v2.js:191-193 | Each count is the number of distinct listed words occurring as substrings, not the number of occurrences |
| AdminV2.ThanksScoresTwice | admin-v2.js:188 | A message containing "thanks" scores both "thanks" and "thank" |
| AdminV2.SentimentIgnoresCase | admin-v2.js:191 | Messages with the same lower-case form get the same verdict |
| Text.KelvinSignLowers | admin-v2.js:191 | Worked example of the KELVIN SIGN clause of `LowerChar`: "THAN" + U+212A + "S" lower-cases to "thanks", as `toLowerCase` does |
| Text.Contains | admin-v2.js:192 | `includes`: a match needs the word to fit in the text, and the empty word is always found |
| Text.ContainsAt | admin-v2.js:192 | `includes` holds iff the word occurs at some position |
| Text.ToLower | admin-v2.js:191 | Same length, every character lower-cased: ASCII capitals and the KELVIN SIGN become ASCII lower case, other characters are kept |
| Seqs.Take | admin-v2.js:210 | `slice(0, n)`: length min(n, len), and a prefix of the input |
| AdminV2.PushLog | admin-v2.js:201-211 | The new entry is at index 0; length is min(old + 1, 100); the rest is the prefix of the old log (oldest dropped) |
| AdminV2.EnterpriseAdminPanel.AddSystemLog | admin-v2.js:200-214 | The log becomes PushLog of the old log; nothing else changes |
| AdminV2.EnterpriseAdminPanel.ClearLogs | admin-v2.js:1016-1023 | When confirmed the log holds only the "Cleared system logs" entry; otherwise unchanged |
| AdminV2.IndexOfUser | admin-v2.js:168 | `findIndex`: -1 iff no entry has the username, otherwise the first matching position |
| AdminV2.ApplyStatus | admin-v2.js:167-180 | The upsert keeps the length for a known username and adds one entry otherwise; afterwards some entry has the username with the presence of the update |
| AdminV2.ApplyStatusEffect | admin-v2.js:167-180 | A known username changes only that entry's status and lastActive (length and other entries unchanged); an unknown one appends exactly one entry |
| AdminV2.ApplyStatusOnlineCount | admin-v2.js:182 | The online count changes only by the touched entry's contribution |
| AdminV2.EnterpriseAdminPanel.UpdateStaffStatus | admin-v2.js:167-185 | The roster becomes the upsert, and onlineStaff equals the number of entries whose status is online |
| AdminV2.OrDefault | admin-v2.js:171 | `value \|\| fallback`: an absent or empty value gives the fallback |
| AdminV2.ConvId | admin-v2.js:153 | The identifier starts with `CV` and has at least five characters |
| AdminV2.ConvIdRoundTrip | admin-v2.js:153 | `CV` + at least three digits (exactly three below 1000), parsing back to the number |
| AdminV2.ConvIdInjective | admin-v2.js:153 | Different numbers give different ids |
| Decimal.Show | admin-v2.js:153 | `String(n)` for a counter: at least one digit, all digits, no leading zero |
| Decimal.PadStart | admin-v2.js:153 | `padStart(width, c)`: the result is max(width, length) long and is the input preceded by copies of c |
| Decimal.ParseShow | admin-v2.js:153 | Parsing `String(n)` gives back n |
| Decimal.ParseLeadingZeros | admin-v2.js:153 | Zero padding does not change the value |
| AdminV2.RecordSender | admin-v2.js:149-162 | Afterwards the sender has a conversation; the old list is a prefix and grows by at most one |
| AdminV2.NewConversationFields | admin-v2.js:152-154 | A new conversation belongs to the sender and its id parses to old length + 1 |
| AdminV2.RecordSenderDistinct | admin-v2.js:150-151 | Find-or-insert never gives one customer two conversations |
| AdminV2.RecordSenderEffect | admin-v2.js:149-162 | A known sender changes nothing. A new one adds one entry whose id parses to old length + 1. Distinct customers stay distinct |
| AdminV2.RecordSenderAsWritten | admin-v2.js:158-159 | As written it fails exactly when the sender is new and the message has no `content` |
| AdminV2.ServerMessageFromNewSender | admin-v2.js:158 | A server-built message (text, no content) from a new sender: as written it fails; the corrected handler records it with its text |
| AdminV2.AsWrittenAgreesWithContent | admin-v2.js:152-161 | When `content` is present, the corrected and as-written handlers agree |
| AdminV2.EnterpriseAdminPanel.HandleNewMessage | admin-v2.js:145-165 | totalMessages goes up by exactly 1; conversations become the find-or-insert result |
| AdminV2.EnterpriseAdminPanel.UserConnected | admin-v2.js:95-99 | activeUsers + 1 and one "User connected" log line ("Unknown" without an id) |
| AdminV2.EnterpriseAdminPanel.UserDisconnected | admin-v2.js:101-105 | activeUsers becomes max(0, n - 1), never negative, plus one log line |
| AdminV2.EnterpriseAdminPanel.UpdateRealData | admin-v2.js:132-143 | Each statistic is overwritten only when its field is present, the lists only when present; everything else unchanged |
| AdminV2.Imported | admin-v2.js:840-848 | The import fold adds at most one entry per element of the file and removes none |
| AdminV2.ImportedShape | admin-v2.js:840-848 | Import keeps the old roster as a prefix; every added entry has a username taken from the file and is offline with performance 100 and "Never"; no added username is already in the roster or earlier in the same file |
| AdminV2.ImportedCovers | admin-v2.js:840-848 | Every imported username ends up present in the roster |
| AdminV2.ImportedOnlineCount | admin-v2.js:842-847 | Importing does not change the online count |
| AdminV2.EnterpriseAdminPanel.ImportStaff | admin-v2.js:837-853 | The loop produces exactly the import result, then logs the file's length |
| AdminV2.EnterpriseAdminPanel.AddStaff | admin-v2.js:800-825 | Appends one offline entry, recomputes onlineStaff (unchanged in value), logs "Added staff" |
| AdminV2.EnterpriseAdminPanel.Login | admin-v2.js:51-67 | Accepted iff admin / pxhb2024, and then no reload is scheduled; a failure leaves the state as it is and schedules a page reload after 2000 ms |
| AdminV2.EnterpriseAdminPanel.ReloadPage | admin-v2.js:65 | The scheduled reload: every field returns to its constructor value |
| AdminV2.EnterpriseAdminPanel.constructor | admin-v2.js:3-30 | All counters zero, all lists empty, nobody logged in |
| AdminPanel.Panel.constructor | admin.js:3-21 | Zero counters, no messages, and the three default staff members offline (admin.js:177-181) |
| AdminPanel.Panel.Login | admin.js:44-62 | Accepted iff admin / pxhb2024, keeping the rest of the state; a failure reloads the page at once, so every field is back to its fresh-page value (no user, zero counters, default roster, no messages) |
| AdminPanel.Panel.RemoveStaff | admin.js:237-243 | When confirmed the roster becomes the filtered roster, otherwise unchanged |
| AdminPanel.RemoveByName | admin.js:239 | The filter never grows the roster, and every survivor came from the roster and has a different username |
| AdminPanel.RemoveByNameEffect | admin.js:239 | No entry with the name is left. Every other entry stays and nothing new appears. Length drops by the number of matching entries |
| AdminPanel.RemoveByNameConcat | admin.js:239 | Filtering distributes over concatenation, so survivors keep their original order |
| AdminPanel.RemoveByNameAbsent | admin.js:239 | Removing an absent username changes nothing |
| AdminPanel.RemoveByNameIdempotent | admin.js:239 | Removing twice equals removing once |
| AdminPanel.IndexOfName | admin.js:282 | `find`: -1 iff no entry matches `staffName` (a null name matches none), otherwise the first match |
| AdminPanel.Panel.UpdateStaffStatus | admin.js:280-295 | Only the first entry named `staffName` changes; length unchanged; an unknown name changes no entry; onlineStaff equals the count of online entries |
| AdminPanel.StatusUpdateOnlineCount | admin.js:293 | The online count moves only by the touched entry |
| Seqs.CountIf | admin.js:156 | `filter(p).length`: never more than the length of the sequence |
| Seqs.CountIfPositions | admin.js:156 | `filter(p).length` equals the number of positions satisfying p |
| AdminPanel.Panel.AddStaffMember | admin.js:208-230 | Appends exactly one offline entry; earlier entries and the counters are unchanged |
| AdminPanel.Panel.HandleNewMessage | admin.js:268-278 | The message is appended at the end; totalMessages goes up by exactly 1 |
| AdminPanel.Panel.UserConnected | admin.js:87-90 | activeUsers + 1 |
| AdminPanel.Panel.UserDisconnected | admin.js:92-95 | activeUsers clamped at 0 |
| AdminPanel.Panel.RefreshStats | admin.js:151-165 | onlineStaff becomes the online count and totalMessages the message count; the two random draws are taken as given |
| AdminPanel.RecentChatLog | admin.js:250 | `slice(-20).reverse()` holds min(20, n) messages |
| AdminPanel.RecentChatLogOrder | admin.js:250 | At most 20 items, element i being the i-th newest message |
| Seqs.Reverse | admin.js:250 | `reverse()` keeps the length |
| Seqs.ReverseIndex | admin.js:250 | `reverse()` puts element \|s\|-1-i at position i |
| AdminPanel.Panel.LoadChatLogs | admin.js:245-266 | The panel lists min(20, n) messages, newest first |
| ClientScript.ChatPage.constructor | script.js:4-5 | No send in flight, lastMessageTime 0, no sends yet |
| ClientScript.ChatPage.SendMessage | script.js:61-89 | Emits iff trimmed text non-empty, not sending and now - last > 1000. On accept: last := now, sending := true, input cleared. On reject nothing changes. Sends stay more than 1000 ms apart |
| ClientScript.ChatPage.SendQuickMessage | script.js:91-113 | The same gate without the non-empty check, same effects |
| ClientScript.ChatPage.SendingTimerFired | script.js:85-87 | The 500 ms timer clears only the in-flight flag |
| ClientScript.SpacedPairwise | script.js:67-69 | Accepted sends k apart in order are more than 1000·k ms apart |
| Text.Trim | script.js:63 | The result is a slice of the input with only white space cut on either side, and starts and ends with non-space |
| Text.TrimEmpty | script.js:67 | The trimmed text is empty iff the input is all white space |
| ClientScript.NotificationIcon | script.js:243-250 | success→check-circle, error→exclamation-circle, warning→exclamation-triangle, anything else→info-circle (each both ways) |
| SelfHostedChat.Client.constructor | self-hosted-chat.js:5-13 | No messages, offline status, zero attempts, not connected |
| SelfHostedChat.Client.OnConnect | self-hosted-chat.js:32-36 | Connected and the counter reset to 0 |
| SelfHostedChat.Client.AttemptReconnect | self-hosted-chat.js:70-81 | Below 5: counter + 1 and a delay of 2000 · counter. At 5: counter unchanged, nothing scheduled. The counter never exceeds 5 |
| SelfHostedChat.Client.ReconnectTimerFired | self-hosted-chat.js:75-77 | The reconnect timer calls `connect()`, which stores a fresh socket not yet connected (self-hosted-chat.js:15-21): offline, counter, messages and status unchanged |
| SelfHostedChat.Client.OnDisconnect | self-hosted-chat.js:38-42 | Not connected, then one reconnect attempt as above |
| SelfHostedChat.BackoffLinear | self-hosted-chat.js:77 | Attempt i+1 waits 2000·(i+1) ms: linear, not exponential |
| SelfHostedChat.BackoffTotal | self-hosted-chat.js:71-77 | The first k scheduled delays, 2000·1 to 2000·k ms, add up to 1000·k·(k+1) ms |
| SelfHostedChat.Client.DelaysTotal | self-hosted-chat.js:70-81 | Between two connects at most 5 delays are scheduled, adding up to 1000·n·(n+1) ms for n attempts; later disconnects schedule nothing, so the total never exceeds 30000 ms |
| SelfHostedChat.Client.OnHistory | self-hosted-chat.js:50-54 | The history load replaces the messages wholesale |
| SelfHostedChat.Client.OnNewMessage | self-hosted-chat.js:56-60 | A new message is appended, prefix unchanged |
| SelfHostedChat.Client.OnStaffStatusUpdate | self-hosted-chat.js:63-67 | The status is replaced by the payload |
| SelfHostedChat.Client.SendMessage | self-hosted-chat.js:83-98 | Nothing is emitted unless connected; when connected the message built from the arguments is emitted |
| SelfHostedChat.Client.UpdateStaffStatus | self-hosted-chat.js:100-113 | The same connected-guard for the status payload |
| SelfHostedChat.AvatarIcon | self-hosted-chat.js:148-155 | staff→user-shield, system→info-circle, bot→robot, otherwise user (each both ways) |

## Findings

| source | as written | input that shows it | evidently intended | confidence | as-written member | corrected member |
|---|---|---|---|---|---|---|
| admin-v2.js:158-159 | The new conversation reads `message.content` and passes it to `analyzeSentiment`, which calls `toLowerCase()` on it | A `newMessage` as server.js:46-52 builds it (`text`, `sender`, `senderType`, no `content`) from a sender with no conversation: `undefined.toLowerCase()` throws, totalMessages has already gone up, and no conversation is recorded | The sender's conversation is recorded with the message text | high; not executed | AdminV2.RecordSenderAsWritten | AdminV2.RecordSender |
| server.js:117 | The `getAdminData` reply calls `generateConversations()` | Any `getAdminData` event, which admin-v2.js:108 emits whenever the enterprise console starts: the function is defined nowhere in server.js, so a ReferenceError escapes the listener and `adminData` is never emitted. server.js installs no handler for uncaught exceptions (it handles only SIGINT, server.js:227-233), so the process most likely exits and every stored message and the status record are lost. That last step rests on how Socket.IO dispatches listeners, which is not part of this model | The snapshot is sent with a conversation list | high; not executed | Server.ChatServer.GetAdminDataAsWritten | Server.ChatServer.GetAdminData |

The rest of the model uses the corrected versions.
`AdminV2.EnterpriseAdminPanel.HandleNewMessage` records `content` when it is
present and the `text` field otherwise. `AdminV2.ServerMessageFromNewSender`
shows both halves on a server-built message.

## Left out

- Rendering: every DOM update, table, modal, notification, chart and fullscreen/sidebar helper; they only display state.
- Transport: Express routing, static files, Socket.IO connection handling and signal handling; the emit of a handler is its return value.
- Echo-only server handlers (server.js:133-159) and GET /api/staff-status: they store nothing.
- GET /api/admin/staff (server.js:206-212): a constant roster that only copies `staffStatus.isOnline` and `lastSeen`.
- Random and simulated values: admin-v2.js `loadInitialData` and `startRealTimeUpdates` (demo data and random drift), chart data. Random draws used by modelled handlers are parameters.
- Timers: `setTimeout` and `setInterval` scheduling; each expiry is an explicit event method (`ClientScript.ChatPage.SendingTimerFired`, `AdminPanel.Panel.RefreshStats`, `SelfHostedChat.Client.ReconnectTimerFired` for the delay returned by `AttemptReconnect`, `AdminV2.EnterpriseAdminPanel.ReloadPage` for the reload scheduled by a failed login).
- Browser storage, `prompt`/`confirm`, file picking and the JSON parse in `importStaff`: their results are parameters (`Option` for a cancelled prompt, a boolean for a confirm, the parsed array).
- Settings forms (admin.js:297-320, admin-v2.js settings and auto-response dialogs), exports and the staff edit and assignment dialogs: form-to-object copies with no stated behaviour.
- script.js login form handlers and session checks: socket events and session storage only.
- firebase-config.js and deploy.js are not part of this model.
- Text.ToLower: only the ASCII capitals and U+212A KELVIN SIGN, the one character that lowers to an ASCII letter, are mapped; `toLowerCase` also maps other letters to non-ASCII letters and turns U+0130 into "i" followed by U+0307. No listed word contains a non-ASCII letter or ends in "i", so none of these can start or complete a match of a listed word, but the lowered text itself differs.
- Decimal.Show: `String(n)` switches to exponent notation from 1e21 on, which this counter never reaches.
- Server.Value: numbers are integers (no NaN or fractions), and status bodies hold scalar fields only.
- Server.ChatServer.ChatMessage: the payload is taken to have the same shape as a posted message; a socket can send any value.
- Server.ChatServer.ReplaceStaffStatus: a payload that is not an object (such as `null`) is not modelled.
- AdminV2.EnterpriseAdminPanel.UpdateStaffStatus: the payload's `username` is taken as present. The status the server broadcasts carries `staffName` instead, so in practice the lookup is for `undefined`.
- SelfHostedChat.StaffStatus: the client keeps only `isOnline` and `staffName`; the record the server broadcasts in its place (server.js:72-79, 171-174) also carries `lastSeen` and any other fields of the payload, which the source keeps in `this.staffStatus`.
- SelfHostedChat.Client: sockets replaced by `connect()` are never closed and keep their listeners (self-hosted-chat.js:30-67), so their connect, disconnect and newMessage events keep arriving. The single `connected` flag can then disagree with `this.socket.connected`, and one broadcast can be appended more than once; the model has one socket.
- SelfHostedChat.Client.SendMessage: the default `senderType = 'user'` (self-hosted-chat.js:83) is left to the caller, which always passes a sender type.
- Server.ChatServer.PostMessage: `text`, `sender` and `senderType` are taken as strings; a request body without them stores a message whose fields are `undefined` (server.js:46-52).
- Server.StaffLogin: JavaScript turns any username into a property key, so a value such as `["admin"]` with "pxhb2024" is accepted and echoed back; the model takes the username as a string or absent.
- AdminV2.EnterpriseAdminPanel.AddStaff: the form's email and password fields (admin-v2.js:804, 806) are not stored in the model's staff record, and the `addStaff` emit (admin-v2.js:816-818) is not returned; the server only echoes it back (server.js:133-136) and keeps nothing.
- AdminPanel.Panel.UpdateStaffStatus: `lastSeen` is taken as given; a status replaced over the socket without `lastSeen` (self-hosted-chat.js:106-109) makes `new Date(status.lastSeen)` an Invalid Date in the source.
- Event names: both visitor clients emit `sendMessage` (script.js:75, 99; self-hosted-chat.js:96) and script.js:170 emits `staffLogin`, but server.js handles only `chatMessage` for messages (server.js:162) and no `staffLogin` event. So in this code base nothing feeds `Server.ChatServer.ChatMessage`, and visitor sends reach no handler. The model keeps each program on its own and does not connect clients to the server.
- AdminV2.EnterpriseAdminPanel.ImportStaff: each imported element carries a username and role; other fields copied by the object spread are dropped.
