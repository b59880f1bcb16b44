# Chat client core, modelled in Dafny

This project models the client-side logic of a browser chat application.
The application talks to a STOMP message broker over a web socket and to a
REST server. The model covers:

- **The chat page session** (`session.dfy`). The class `Session.ChatSession` holds:
  - the stored credentials, the current user, and whether a broker client exists and is connected;
  - the selected user or group, and the message list;
  - the one subscription to the selected group's topic.

  Its methods are the page's handlers:
  - choosing a user, a group or the public room;
  - sending a message, and the debounced typing signal;
  - receiving a frame, and connection events;
  - disconnecting, and the token check.

  What the page hands the broker client is recorded in order in `transport`.
- **Wire and REST mapping** (`messages.dfy`, `outbound.dfy`, `users.dfy`):
  - inbound envelope normalisation, with its `||` defaults;
  - the JOIN/LEAVE status line and the refresh signals;
  - the three history mappers;
  - the group → user → public destination ladder, the published bodies and the local echo;
  - the user and group record mappers, including `processUserData`.
- **Credential checks** (`auth.dfy`): the chat page's `validateToken` decision, and the protected route's validation ladder as the class `Auth.ProtectedRoute`. Browser storage is a map.
- **The message list's typing timers** (`typing_timers.dfy`). The class `TypingTimers.ChatMessages` keeps the map from typing key to timer handle in step with the TYPING messages. A timer firing removes the message object it captured, by identity. The file also gives the fixed text of system lines.
- **The input box** (`input.dfy`): the 1000-character limit, and the send-or-type decision on Enter and on submit.
- Shared pieces: `base.dfy` holds JavaScript truthiness, optional values, ids that are numbers or strings, and template rendering. `text.dfy` holds `String.prototype.trim`.

Modelling conventions:
- `||` is modelled by `Truthy`/`Filled`: `0`, `""`, `null` and `undefined` are falsy. `??` is an `Option`.
- Message objects are references (`MessageObject`), so the timers' `m !== msg` filter is reference inequality.
- The clock, the JWT decoder, `JSON.parse` and the broker's replies are parameters.
- A frame body that fails to parse is the `None` payload.

Two behaviours of the page shape the model:
- The page appends every well-formed inbound frame. It does not filter by the open conversation, and it does not de-duplicate the sender's own relayed message. `Outbound.RelayedCopyEqualsEcho` states when the two copies look alike. Suppose the broker relays the published body back unchanged. Suppose also the sender has a truthy id, a non-empty name and an avatar URL that is not empty, each selection has a non-empty id (and a selected user a non-empty name), and the body's clock reading is non-empty. Then the relayed copy normalises to the local echo in every field but the timestamp. When a condition fails they can differ further: an empty avatar URL, for example, stays in the echo and is dropped from the relayed copy.
- The page's handlers never unsubscribe from the public topic, including when a private or group conversation is opened.

## Model

| member | source | states |
|---|---|---|
| Base.Digits | src/app/components/ChatMessages.tsx:40-42 | a number interpolated into a template renders as a non-empty string of decimal digits that spells the number, with no leading zero |
| Base.DigitsInjective | src/app/components/ChatMessages.tsx:40-42 | distinct natural numbers have distinct numerals |
| Base.Render | src/app/components/ChatMessages.tsx:40-42 | a template literal renders a number in decimal with a leading minus when negative, and a string as itself; `Base.RenderNumInjective` states its properties |
| Base.RenderNumInjective | src/app/components/ChatMessages.tsx:40-42 | a number never renders as the empty string, and distinct numbers render differently |
| Text.Trim | src/app/components/ChatPage.tsx:925 | `String.prototype.trim`; `Text.TrimIsTrimmed`, `Text.TrimEmptyIffBlank` and `Text.TrimIdempotent` state what it removes and keeps |
| Text.TrimStart | src/app/components/ChatPage.tsx:911 | trimming the front leaves a suffix that is empty or starts with non-whitespace, and the removed prefix is all whitespace |
| Text.TrimEnd | src/app/components/ChatPage.tsx:911 | trimming the end leaves a prefix that is empty or ends with non-whitespace, and the removed suffix is all whitespace |
| Text.TrimEmptyIffBlank | src/app/components/ChatInput.tsx:41 | `trim()` is empty exactly when every character is whitespace, so the `!x.trim()` guards reject exactly the blank drafts |
| Text.TrimIsTrimmed | src/app/components/ChatPage.tsx:925 | the trimmed content is a contiguous slice of the draft with no whitespace at either end, and what was cut on each side is all whitespace |
| Text.TrimIdempotent | src/app/components/ChatPage.tsx:925 | trimming twice equals trimming once |
| Messages.Normalize | src/app/components/ChatPage.tsx:674-684 | the inbound normaliser with its `||` defaults; `Messages.NormalizeDefaults`, `Messages.NormalizeIsCanonical` and `Messages.NormalizeEncode` state its properties |
| Messages.NormalizeIsCanonical | src/app/components/ChatPage.tsx:674-684 | every normalised message has a truthy sender id, a non-empty name, timestamp and type, and no falsy optional field |
| Messages.NormalizeEncode | src/app/components/ChatPage.tsx:674-684 | normalisation inverts encoding: a canonical message that travels in an envelope comes back unchanged |
| Messages.NormalizeDefaults | src/app/components/ChatPage.tsx:674-684 | field by field: a truthy sender id, name, avatar, recipient id and name, group id, timestamp or type is copied as it is; a falsy one becomes "unknown", "Unknown User", dropped, the client clock or "CHAT"; missing content becomes "" |
| Messages.StatusMessage | src/app/components/ChatPage.tsx:686-699 | the JOIN/LEAVE status line; `Messages.RouteStatusLine` states its text, type, clock and addressing |
| Messages.Route | src/app/components/ChatPage.tsx:686-707 | the inbound dispatch; `Messages.RouteAppendsNormalized` and `Messages.RouteStatusLine` state what it appends and refreshes |
| Messages.RouteAppendsNormalized | src/app/components/ChatPage.tsx:686-707 | any frame that is not JOIN/LEAVE is appended exactly as normalised, whatever its type or addressing; users are refreshed exactly on JOIN/LEAVE and groups exactly on GROUP_ADD/GROUP_REMOVE |
| Messages.RouteStatusLine | src/app/components/ChatPage.tsx:686-699 | a JOIN/LEAVE frame appends "<name> joined the chat." / "<name> left the chat." with the event's type, the client clock and no addressing |
| Messages.HistoryRow | src/app/components/ChatPage.tsx:480-558 | the three history mappers; `Messages.HistoryRowAddressing` states how each relates to the inbound normaliser |
| Messages.HistoryRowAddressing | src/app/components/ChatPage.tsx:480-560 | the three history mappers apply the inbound defaults; the private one equals it, the group one keeps no recipient and falls back to the requested group id, the public one keeps no addressing |
| Users.ProcessUserData | src/app/utils/HelperFunctions.ts:4-18 | `processUserData`; `Users.ProcessUserDataDefaults` states its copies and defaults |
| Users.MapActiveUser | src/app/components/ChatPage.tsx:401-417 | the active-users mapper; `Users.UserMappersDisagreeOnPresence` compares it with `processUserData` |
| Users.MapGroup | src/app/components/ChatPage.tsx:432-445 | the groups mapper; its image follows `Users.MappedImagesHaveUrls` |
| Users.MapImage | src/app/components/ChatPage.tsx:408-416 | the image mapping shared by the page's mappers; `Users.MappedImagesHaveUrls` states its URL rule |
| Users.ProcessUserDataDefaults | src/app/utils/HelperFunctions.ts:4-18 | id rendered, name and e-mail copied, missing `online` → true, missing `status` → "active", image present exactly when the row has one, with its id rendered and its URL copied |
| Users.UserMappersDisagreeOnPresence | src/app/components/ChatPage.tsx:402-417 | the active-users mapper agrees with `processUserData` on id, name, e-mail and status, and on `online` exactly when the row carries it |
| Users.MappedImagesHaveUrls | src/app/components/ChatPage.tsx:408-416 | the page's mappers give every image a download URL: the row's own when non-empty, otherwise the download endpoint for the image id |
| Auth.ClearAuth | src/app/components/ProtectedRoute.tsx:28-29 | removing the credentials deletes `token` and `user` and keeps every other key |
| Auth.CheckToken | src/app/components/ChatPage.tsx:288-314 | the chat page's token decision; `Auth.GuardAllowImpliesTokenOk`, `Auth.TokenOkEarlier` and `Auth.TokenWithoutExpiryNeverExpires` state its properties |
| Auth.Guard | src/app/components/ProtectedRoute.tsx:14-50 | the protected route's validation ladder; `Auth.GuardAllowsIff` and `Auth.GuardChecksIdBeforeExpiry` state its verdicts |
| Auth.GuardAllowsIff | src/app/components/ProtectedRoute.tsx:14-50 | the route lets the user through exactly when token and user are present, the user parses with a truthy id, and the token decodes to an unexpired (or absent) expiry |
| Auth.GuardChecksIdBeforeExpiry | src/app/components/ProtectedRoute.tsx:24-43 | a stored user without an id is refused as invalid user data, whatever the token's state |
| Auth.GuardAllowImpliesTokenOk | src/app/components/ChatPage.tsx:288-314 | a page the route admits passes the chat page's token check at the same instant; a missing user is refused by the route while the page's check sees a token |
| Auth.TokenOkEarlier | src/app/components/ChatPage.tsx:297-298 | a token valid at some instant is valid at every earlier one |
| Auth.TokenWithoutExpiryNeverExpires | src/app/components/ProtectedRoute.tsx:35-37 | a token that decodes without `exp` passes both checks at every instant |
| Auth.ProtectedRoute.CheckAccess | src/app/components/ProtectedRoute.tsx:14-50 | the verdict is the ladder's; storage is cleared exactly for a bad user, an expired or an undecodable token; any refusal toasts its message and redirects to /login |
| Outbound.TargetOf | src/app/components/ChatPage.tsx:945-949 | a selected group wins, then a selected user, else the public room |
| Outbound.SendDestination | src/app/components/ChatPage.tsx:945-949 | the send destination for a target; `Outbound.SendDestinationDetermined` states that it identifies the target |
| Outbound.TypingDestination | src/app/components/ChatPage.tsx:894-898 | the typing destination for a target; `Outbound.TypingDestinationAmbiguous` states where it collides |
| Outbound.SendDestinationDetermined | src/app/components/ChatPage.tsx:945-949 | equal send destinations mean the same kind of target and the same id |
| Outbound.TypingDestinationAmbiguous | src/app/components/ChatPage.tsx:894-898 | typing destinations collide for a group and a user with the same id, and for a user with id "public" and the public room |
| Outbound.ChatBody | src/app/components/ChatPage.tsx:917-942 | the published chat body; `Outbound.EchoAgreesWithBody` and `Outbound.RelayedCopyEqualsEcho` relate it to the echo |
| Outbound.TypingBody | src/app/components/ChatPage.tsx:868-892 | the typing body "<name> is typing..." with type TYPING and no timestamp; `Session.ChatSession.Typing` states where it goes |
| Outbound.LeaveBody | src/app/components/ChatPage.tsx:1037-1045 | the LEAVE body carrying only the sender; `Session.ChatSession.AnnounceLeave` states when it is published |
| Outbound.LocalEcho | src/app/components/ChatPage.tsx:957-967 | the local echo; `Outbound.EchoAgreesWithBody` and `Outbound.RelayedCopyEqualsEcho` relate it to the body |
| Outbound.EchoAgreesWithBody | src/app/components/ChatPage.tsx:917-967 | the local echo and the published body carry the same trimmed content, type and addressing ids; each carries its own clock reading |
| Outbound.RelayedCopyEqualsEcho | src/app/components/ChatPage.tsx:942-967 | a body relayed back unchanged normalises to the local echo in every field but the timestamp, which is the body's clock reading; so both copies stay in the list |
| TypingTimers.TypingKey | src/app/components/ChatMessages.tsx:40-42 | `${senderId}-${receiverId || groupId || "public"}`; `TypingTimers.TypingKeyCollides` states where keys collide |
| TypingTimers.TypingKeyCollides | src/app/components/ChatMessages.tsx:40-42 | the key does not record whether it used the receiver or the group id |
| TypingTimers.TypingOnly | src/app/components/ChatMessages.tsx:23 | the TYPING filter keeps exactly the TYPING messages of the list |
| TypingTimers.TypingOnlyAppend | src/app/components/ChatMessages.tsx:23 | the filter keeps order and multiplicity: appending a message appends it to the filtered list exactly when it is a TYPING message |
| TypingTimers.ActiveKeysAreKeys | src/app/components/ChatMessages.tsx:27-31 | a key is active exactly when some TYPING message has it |
| TypingTimers.FirstWithKey | src/app/components/ChatMessages.tsx:39-50 | the message a new key's timer captures is a TYPING message with that key |
| TypingTimers.HasKeyAppend | src/app/components/ChatMessages.tsx:39-42 | appending a message adds exactly its key to the keys present |
| TypingTimers.FirstWithKeyIsEarliest | src/app/components/ChatMessages.tsx:23-50 | the message a new key's timer captures is the earliest TYPING message with that key in the whole list |
| TypingTimers.FirstWithKeyAppend | src/app/components/ChatMessages.tsx:43 | appending a message keeps the first holder of a key, and makes it the holder of a key nobody held |
| TypingTimers.Without | src/app/components/ChatMessages.tsx:45 | removal by identity keeps exactly the other objects |
| TypingTimers.WithoutSingle | src/app/components/ChatMessages.tsx:45 | removing an object that occurs once drops that element only, keeping the order |
| TypingTimers.WithoutAbsent | src/app/components/ChatMessages.tsx:45 | removing an absent object changes nothing |
| TypingTimers.RenderLine | src/app/components/ChatMessages.tsx:72-118 | the line a message renders as; `TypingTimers.SystemLinesDistinct` and `TypingTimers.PresenceLineFromName` state its system lines |
| TypingTimers.SystemLinesDistinct | src/app/components/ChatMessages.tsx:83-92 | for one sender the four system types give four different lines |
| TypingTimers.PresenceLineFromName | src/app/components/ChatMessages.tsx:84-87 | a JOIN/LEAVE line is drawn from the name as "<name> joined the chat" / "<name> left the chat", not from the stored text |
| TypingTimers.ChatMessages.constructor | src/app/components/ChatMessages.tsx:13-15 | an empty list and an empty timer map |
| TypingTimers.ChatMessages.Reconcile | src/app/components/ChatMessages.tsx:18-50 | the list is reset; the map's keys become exactly the active keys; a kept key keeps its timer; a new key gets a fresh timer removing the first TYPING message with it |
| TypingTimers.ChatMessages.DropStaleTimers | src/app/components/ChatMessages.tsx:26-36 | a key no TYPING message holds is cleared and deleted; the others keep their timers |
| TypingTimers.ChatMessages.ArmNewTimers | src/app/components/ChatMessages.tsx:38-50 | every active key gets a timer; existing timers are kept; new ones are fresh and capture the first message with the key |
| TypingTimers.ChatMessages.ArmOne | src/app/components/ChatMessages.tsx:40-49 | one step of the arming loop keeps the loop's invariant |
| TypingTimers.ChatMessages.Teardown | src/app/components/ChatMessages.tsx:52-56 | every timer is cleared and the map emptied |
| TypingTimers.ChatMessages.TimerFired | src/app/components/ChatMessages.tsx:44-47 | a firing timer removes exactly its message object and deletes only its key |
| TypingTimers.ChatMessages.MessagesChanged | src/app/components/ChatMessages.tsx:18-57 | cleanup then effect: every active key has a newly armed timer capturing its first message |
| Input.CanSendIff | src/app/components/ChatInput.tsx:41-82 | a draft can be sent exactly when enabled and not blank, and the send button is enabled in exactly those states |
| Input.ChatInput.constructor | src/app/components/ChatInput.tsx:18 | the draft starts empty |
| Input.ChatInput.HandleChange | src/app/components/ChatInput.tsx:58-62 | a value of at most 1000 characters replaces the draft, a longer one is ignored; the draft never exceeds 1000 |
| Input.ChatInput.HandleKeyDown | src/app/components/ChatInput.tsx:38-48 | Enter without Shift sends the untrimmed draft once and clears it when not blank and enabled, otherwise changes nothing; any other key schedules the typing call |
| Input.ChatInput.HandleSubmit | src/app/components/ChatInput.tsx:50-56 | the same guard; the draft is cleared only on a send |
| Input.ChatInput.TypingQuietElapsed | src/app/components/ChatInput.tsx:29-36 | the scheduled call signals typing unless the box was disabled when it was scheduled |
| Session.EffectOps | src/app/components/ChatPage.tsx:848-860 | what the group effect hands the client when it re-runs; `Session.EffectKeepsOneSubscription` states the subscription it leaves |
| Session.EffectKeepsOneSubscription | src/app/components/ChatPage.tsx:848-860 | after the effect re-runs the page listens to exactly the topic the new dependencies call for: at most one group topic, none unless connected with a group selected |
| Session.CanPublishChatIff | src/app/components/ChatPage.tsx:911 | a send is refused exactly without a client, a connection, a user or a non-blank draft |
| Session.LiveSnoc | src/app/components/ChatPage.tsx:852-858 | one more operation changes the live topics by exactly that subscription or unsubscription |
| Session.ChatSession.constructor | src/app/components/ChatPage.tsx:271-371 | the stored user is parsed, nothing is selected or connected, and a page without a user goes to /login |
| Session.ChatSession.RerunGroupEffect | src/app/components/ChatPage.tsx:848-860 | when the client, connection or group changed, the old subscription is cancelled and the new one made |
| Session.ChatSession.SelectUser | src/app/components/ChatPage.tsx:977-985 | user selected, group cleared, list emptied, private history requested when there is a current user |
| Session.ChatSession.SelectGroup | src/app/components/ChatPage.tsx:987-993 | group selected, user cleared, list emptied, group history requested |
| Session.ChatSession.SelectPublic | src/app/components/ChatPage.tsx:995-1000 | both cleared, list emptied, public history requested |
| Session.ChatSession.ApplyHistory | src/app/components/ChatPage.tsx:480-560 | the list is replaced by the rows as mapped by the scope's mapper |
| Session.ChatSession.SendMessage | src/app/components/ChatPage.tsx:910-972 | a refused send only toasts; an accepted one publishes the chat body, stamped by the first clock reading, to the ladder's destination and appends one local echo, stamped by the second, at the end |
| Session.ChatSession.Typing | src/app/components/ChatPage.tsx:863-906 | with a client, a connection and a user the typing body goes to the typing destination; otherwise nothing is published |
| Session.ChatSession.OnMessageReceived | src/app/components/ChatPage.tsx:670-714 | an unparseable frame only raises an error; any other frame appends exactly one message at the end, earlier ones unchanged |
| Session.ChatSession.AttachClient | src/app/components/ChatPage.tsx:816-817 | the client exists and the group effect re-runs |
| Session.ChatSession.OnConnect | src/app/components/ChatPage.tsx:754-755 | connected, and the group effect re-runs |
| Session.ChatSession.OnConnectionLost | src/app/components/ChatPage.tsx:792-809 | disconnected, and the group effect re-runs |
| Session.ChatSession.Disconnect | src/app/components/ChatPage.tsx:1031-1054 | a LEAVE frame and a dropped connection when connected with a user; always credentials removed, user forgotten, /login |
| Session.ChatSession.AnnounceLeave | src/app/components/ChatPage.tsx:1032-1049 | the LEAVE frame is published and the connection dropped |
| Session.ChatSession.ValidateToken | src/app/components/ChatPage.tsx:288-314 | a missing, undecodable or expired token raises its message and redirects, the latter two clearing storage; a valid one changes nothing |

## Left out

- The broker client's own setup is not modelled (src/app/components/ChatPage.tsx:716-846). This covers the SockJS factory, the connect headers, reconnect, heartbeats and the error callbacks. Creating the client and connecting are the events `AttachClient` and `OnConnect`.
- The subscriptions made on connect are left out: the public topic and the three user queues. So is the JOIN frame published on connect.
- The setup effect's own redirects for a missing token or user id are left out. They are guards around client creation, which is not modelled.
- REST requests, the axios interceptors and the image-blob fetches are left out; these are network I/O. A handler returns the fetcher it calls (`HistoryRequest`), and the rows come back through `ApplyHistory`.
- `HistoryRequest` and `Refresh` stand for the call to a fetcher, not for a request sent. Every fetcher first runs the token check, which is `Session.ChatSession.ValidateToken`; the caller is expected to run it first. When the token is missing, undecodable or expired, the fetcher raises its error, redirects to /login, clears storage for the last two and sends nothing. The model does not tie that outcome to the returned `HistoryRequest` or `Refresh`.
- The history fetchers' error toasts, and the second token check in the private fetcher, are left out. That second check cannot fail once `validateToken` has passed.
- The users and groups lists are not stored. Their mappers are modelled as functions (`MapActiveUser`, `MapGroup`), and a refresh is returned as a `Refresh` signal.
- Profile update, image deletion, group creation and the modals are left out. They are REST calls and presentation.
- The lodash debounce timing is not modelled. `Session.ChatSession.Typing` is the moment the debounced call runs. It reads the state current at that moment, not the state captured when the debounced function was created.
- Input.ChatInput.TypingQuietElapsed: keeps one pending trailing call. When `disabled` changes, a new debounced function is created; the model does not keep a separate pending call for each one.
- Input.ChatInput.HandleChange: compares the length in Unicode characters. JavaScript counts UTF-16 code units, so a character outside the Basic Multilingual Plane counts once here and twice in the source.
- Timestamps are opaque strings, and the clock is a parameter. One handler call uses one `now` value for all the rows it maps; the source calls `new Date()` per row.
- The group-subscription effect's dependencies are compared by value. React compares `selectedGroup` by reference, so re-selecting an equal but different group object re-runs the effect in the source and not in the model.
- A `publish` that throws is not modelled ("Failed to send message"). The broker client is not part of this model.
- A REST row with a missing `id`, or a missing image `id`, is not modelled. `toString()` throws there, and the model's rows always carry an id.
- A `JSON.parse` of the stored user that throws during the page's first render is not modelled. The constructor's `parseAccount` always returns a value.
- The declared message fields `id` and `isSelf` are never set by the page and are not represented. NaN ids are not represented either.
- Base.Render: numbers are unbounded integers rendered in plain decimal. JavaScript renders a number of magnitude 1e21 or more in exponent form, and loses integer precision above 2^53.
- Rendering is reduced to the line kind and text (`RenderLine`). Scrolling, avatars, time formatting and the auto-sizing text area are left out.
