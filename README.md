# waClone core, modelled in Dafny

waClone is a WhatsApp-style web chat with one-to-one voice and video calls.
A Flask server keeps users, messages and call records in SQLite. It
encrypts message content and per-conversation access tokens with Fernet,
and relays chat messages and WebRTC call signalling over Socket.IO rooms.
The browser runs a chat page (contacts, messages, receipts, paging), a
WebRTC call manager, a notification manager and an avatar generator.

This project models the core of that system:

- **Accounts and lookup**: registration, login, logout, profile update, the
  contact search and the lookup by phone number
  (`auth.dfy`, `users.dfy`). The search uses SQLite's `LIKE`, so it ignores
  ASCII case, and a `%` or `_` typed by the user acts as a wildcard. The
  model keeps that behaviour and proves what it means.
- **Encryption** (`encryption.dfy`): access tokens, message content and
  whole API responses, over an abstract cipher of which only "decrypt undoes
  encrypt" is assumed.
- **Messages** (`messages.dfy`): the upload rules, sending text and media,
  reading a conversation a page at a time, serving media files, and the
  delivery and read receipts from both the HTTP routes and the socket
  handlers.
- **Calls** (`calls.dfy`): the server's call records (initiate, answer,
  end, reject, history).
- **Socket relays** (`relay.dfy`): the relays of `app.py`, and a proof that
  every call signal the browser's call manager sends reaches the room it is
  meant for.
- **Call manager** (`webrtc.dfy`): the browser's call controller as a class.
  Timers are a map of pending callbacks. Peer connections are a map keyed by
  call id. What the manager sends is an append-only log.
- **Chat page** (`chat.dfy`): the chat page's list bookkeeping as a class:
  contacts moved to the top, deduplicated incoming messages, receipt flags,
  the unread map, paging and mark-as-read.
- **Notifications and avatars** (`notifications.dfy`, `avatar.dfy`): the
  notification settings and their persistence in local storage, and the
  initials of a generated avatar.

`wrappers.dfy`, `text.dfy` and `ordering.dfy` hold the Option/Result types,
the string functions (decimal rendering and parsing, split/join, ASCII case,
strip) and the sorting and windowing functions that the model needs.

Collaborators the code waits on are parameters that say how each one
answered: the database commit, bcrypt's `checkpw`, `getUserMedia`, the
bookkeeping API and the Telegram fetch. Clocks are integer parameters.

## Model

| member | source | states |
|---|---|---|
| Encryption.CreateSecureToken | backend/encryption.py:25-28 | the token decrypts to "current:target" and is never empty |
| Encryption.ValidateSecureToken | backend/encryption.py:30-40 | no id from a token that does not decrypt; a validated id comes from a plaintext of exactly two ':'-separated integers, the first the current user |
| Text.PyInt | backend/encryption.py:36-37 | int() of a string of Python whitespace, the empty string included, is no number |
| Encryption.TokenRoundTrip | backend/encryption.py:25-40 | a token created for (current, target) validates, for the user who created it, to exactly the target |
| Encryption.TokenBoundToOwner | backend/encryption.py:30-40 | a token validates for no user other than the one who created it |
| Encryption.TokenHasOneOwner | backend/encryption.py:30-40 | any string validates for at most one current user |
| Encryption.TokenFields | backend/encryption.py:25-28 | the token's plaintext "current:target" splits on ':' into exactly the two ids |
| Encryption.EncryptMessage | backend/encryption.py:42-46 | missing or empty content passes through unchanged; other content is encrypted |
| Encryption.DecryptMessage | backend/encryption.py:48-55 | missing or empty content, and content that does not decrypt, pass through unchanged |
| Encryption.MessageRoundTrip | backend/encryption.py:42-55 | decrypting an encrypted message gives back the original content, including the missing and empty cases |
| Encryption.DecryptApiRequest | backend/encryption.py:63-69 | a payload that does not decrypt yields nothing |
| Encryption.EncryptApiResponse | backend/encryption.py:57-61 | the encrypted_data value decrypts to the JSON text of the data and is never empty |
| Encryption.ApiRoundTrip | backend/encryption.py:57-69 | what encrypt_api_response produces, decrypt_api_request turns back into the same value |
| Auth.NewUser | backend/routes/auth.py:27-30 | a registered user gets the given phone, name and hash, is offline and private, and has the default avatar |
| Auth.FindByPhone | backend/routes/auth.py:23-24 | finds the first user with the phone, and finds none exactly when no user has it |
| Auth.RegisterFields | backend/routes/auth.py:10-21 | registration is refused with 400 exactly when the JSON is missing or empty, or phone, name or password is missing or empty; each case has its own message |
| Auth.LoginFields | backend/routes/auth.py:44-50 | login is refused with 400 exactly when the JSON is missing or empty, or phone or password is missing or empty |
| Auth.Authenticate | backend/routes/auth.py:52-53 | succeeds only for the user that the phone lookup finds |
| Auth.AuthenticateUnique | backend/routes/auth.py:52-53 | with unique phones, login succeeds for a user exactly when checkpw accepts the password against that user's hash |
| Auth.UserTable.Register | backend/routes/auth.py:7-35 | validation errors, 400 for a phone already registered, 500 when the commit fails and nothing changes; otherwise exactly one new user with the next id is appended, and phones stay unique |
| Auth.UserTable.Login | backend/routes/auth.py:37-71 | validation errors, 401 for an unknown phone or wrong password, 500 when the commit fails; otherwise only that user goes online and the reply is their profile |
| Auth.UserTable.Logout | backend/routes/auth.py:73-83 | only the current user goes offline, or 500 and nothing changes |
| Auth.UserTable.UpdateProfile | backend/routes/auth.py:96-120 | a missing, empty or malformed body gets Flask's 400; a body that is JSON null or not an object makes `data.get` raise, giving 500; a missing or empty name gives 400; a failed commit gives 500; otherwise only the name changes |
| Auth.RegisterKeepsPhonesUnique | backend/routes/auth.py:23-33 | appending a user whose phone is not taken keeps phones unique |
| Auth.RegisteredUserCanLogIn | backend/routes/auth.py:26-53 | a user just registered with a hash of their password can log in with that password |
| Users.LikePrefix | backend/routes/users.py:14-20 | for a query without wildcards, `LIKE 'q%'` holds exactly when the string starts with q, ignoring ASCII case |
| Users.LikeSuffix | backend/routes/users.py:14-20 | a leading `%` matches the rest of the pattern against any suffix |
| Users.LikeIsSubstring | backend/routes/users.py:14-20 | for a query without wildcards, the search filter `LIKE '%q%'` is a case-insensitive substring test |
| Users.UnderscoresMatchAnyName | backend/routes/users.py:10-20 | the query "___" passes the length check and matches every name of three or more characters |
| Users.Matching | backend/routes/users.py:14-20 | exactly the users, other than the searcher, whose phone or name matches |
| Users.Search | backend/routes/users.py:9-28 | a stripped query under 3 characters gives an empty list; otherwise 500 "Search failed" exactly when the query fails, and never more than 10 users |
| Users.SearchResults | backend/routes/users.py:9-28 | a stripped query under 3 characters finds no one; otherwise at most 10 results, never the searcher, each a match; fewer than 10 means all matches |
| Users.UserByPhone | backend/routes/users.py:32-46 | 500 on a database error; 404 exactly when no user has the phone or it is the asker's own; otherwise that other user's summary |
| Users.LookupFindsOthers | backend/routes/users.py:32-46 | with unique phones, every other user is found by their own phone |
| Calls.WholeSeconds | backend/routes/calls.py:91-94 | int(total_seconds()) truncates toward zero, for both signs |
| Calls.EndedAsWritten | backend/routes/calls.py:86-94 | end_call as written: an initiated call becomes missed, any other call becomes ended with its whole-second duration; the end time is now; nothing else changes |
| Calls.EndedAsWrittenOnLiveCall | backend/routes/calls.py:86-94 | on a ringing or answered call the as-written end and EndedRecord agree; on a missed call they differ |
| Calls.EndedAsWrittenEndsMissedCall | backend/routes/calls.py:86-94 | as written, ending a ringing call twice turns the missed call into an ended call with a duration |
| Calls.EndedRecord | backend/routes/calls.py:86-94 | an unanswered call becomes missed; an answered one ends with its whole-second duration; a call already over is unchanged |
| Calls.EndedRecordIdempotent | backend/routes/calls.py:78-105 | ending twice, at any times, is ending once |
| Calls.EndedOnlyIfAnswered | backend/routes/calls.py:86-94 | a call ends up ended exactly when it was answered, and missed exactly when it never was |
| Calls.TransitionsKeepConsistent | backend/routes/calls.py:53-126 | answering, ending and rejecting keep status, end time and duration consistent |
| Calls.Involving | backend/routes/calls.py:132-134 | exactly the calls in which the user is caller or receiver |
| Calls.History | backend/routes/calls.py:130-154 | at most 50 of the user's calls, latest start first |
| Calls.HistoryRoute | backend/routes/calls.py:130-136 | 500 "Failed to load call history" exactly when the query fails; otherwise at most 50 of the user's own calls, each at most as often as it is stored |
| Calls.HistoryIsLatest | backend/routes/calls.py:132-134 | a call of the user's is left out only when 50 calls that started no earlier are returned |
| Calls.HistoryComplete | backend/routes/calls.py:132-134 | with at most 50 calls, the history holds every one of them |
| Calls.CallTable.Get | backend/routes/calls.py:54 | finds the row with the id exactly when one exists |
| Calls.CallTable.Initiate | backend/routes/calls.py:10-49 | 400 without a receiver, 404 for an unknown one, 500 for a null call_type (the NOT NULL column fails the commit) or a failed commit, with nothing changed; otherwise one initiated call is appended, of the given type or "audio" when the field is absent |
| Calls.CallTable.Answer | backend/routes/calls.py:53-74 | 404 for an unknown call, 403 for anyone but the receiver, 500 on a failed commit; otherwise only that call becomes answered |
| Calls.CallTable.End | backend/routes/calls.py:78-105 | 404 for an unknown call, 403 for a non-party, 500 on a failed commit; otherwise only that call changes, as EndedAsWritten says: a call already missed or ended is ended again, with a new end time and duration |
| Calls.CallTable.Reject | backend/routes/calls.py:109-126 | 404 for an unknown call, 403 for anyone but the receiver, 500 on a failed commit; otherwise only that call becomes missed and ends now |
| Messages.Extension | backend/routes/messages.py:15-16 | the text after the last '.', or none exactly when there is no '.' |
| Messages.ExtensionIsAfterLastDot | backend/routes/messages.py:15-16 | for any '.' with no later '.', the extension is what follows it |
| Messages.AllowedFile | backend/routes/messages.py:13-16 | an accepted name has a '.' and at least four characters |
| Messages.AllowedFileIff | backend/routes/messages.py:13-16 | a name is accepted exactly when some '.' with no later '.' is followed by an allowed extension, ignoring case |
| Messages.ExtensionOfPrefixed | backend/routes/messages.py:99-105 | a time-stamp prefix without '.' leaves the extension unchanged |
| Messages.KindOf | backend/routes/messages.py:105-117 | an extension maps to a media type exactly when it is allowed; images go to Telegram as photos |
| Messages.MediaContent | backend/routes/messages.py:138 | the stored content is the caption, or "Sent a <type>" when there is none; never empty |
| Messages.Delivered | backend/routes/messages.py:331-334 | the message ends up delivered and consistent; an already delivered one is unchanged |
| Messages.Read | backend/routes/messages.py:347-352 | the message ends up read and delivered, read now, and keeps an earlier delivery time |
| Messages.ReceiptsKeepMessage | backend/routes/messages.py:328-357 | receipts change only the four receipt fields |
| Messages.DeliveredIdempotent | app.py:151-169 | delivering again, or after reading, changes nothing |
| Messages.Fetch | backend/routes/messages.py:295 | get_or_404 as meant: the row with the id, or 404 exactly when there is none |
| Messages.MissingMessageIs500AsWritten | backend/routes/messages.py:328-339 | as written, the 404 for a missing message is caught and answered with the route's 500 |
| Messages.FetchInsideTry | backend/routes/messages.py:343-357 | the row is found exactly when Fetch finds it; otherwise the route's 500 |
| Messages.LastSegment | backend/routes/messages.py:302 | the last path segment holds no '/' |
| Messages.FileUrl | backend/routes/messages.py:302-305 | the Telegram URL when present, else the local copy's URL, none only when neither exists; never empty |
| Messages.LocalUrlHidesDirectory | backend/routes/messages.py:302 | a local file is served under /wa/uploads/ by its bare name, so no server directory shows |
| Messages.MediaAccess | backend/routes/messages.py:298-321 | 403 for anyone but the two parties, 404 without a file; the bytes are proxied exactly when the URL is Telegram's and the fetch worked, otherwise a redirect |
| Messages.Conversation | backend/routes/messages.py:182-185 | exactly the messages between the two users, in either direction |
| Messages.Offset | backend/routes/messages.py:172-174 | page 1 skips nothing; the offset plus one page size is page times page size; not negative from page 1 on |
| Messages.PageAt | backend/routes/messages.py:182-188 | the page holds the limit's worth of the conversation after the offset, or what is left of it, or all the rest for a negative limit |
| Messages.PageOf | backend/routes/messages.py:172-188 | from page 1 on, a page holds per_page messages, or what is left after the offset, or none |
| Messages.OffsetSteps | backend/routes/messages.py:172-174 | page p+1 starts where page p ends; from page 1 on, offsets are non-negative |
| Messages.PageIsOldestFirst | backend/routes/messages.py:182-188 | a page holds only messages of the conversation, oldest first |
| Messages.PagesAdjoin | backend/routes/messages.py:182-188 | consecutive pages neither skip nor repeat a message |
| Messages.HasMoreIff | backend/routes/messages.py:214 | has_more holds exactly when the pages so far do not cover the conversation |
| Messages.View | backend/routes/messages.py:195-209 | the reader sees id, type, sender and receipt flags as stored, and the time shifted 5 h 30 min (19800 s) into IST; media messages, and only those, get a file handle equal to the id |
| Messages.MessageTable.SendText | backend/routes/messages.py:20-72 | 400 for bad JSON, a missing token or blank content; 403 exactly when the token does not validate; 500 on a failed commit; otherwise one message to the token's target, content encrypted |
| Messages.MessageTable.SendMedia | backend/routes/messages.py:76-162 | 400 without a file, without or with a malformed receiver, or for a disallowed type; 500 when the stored name has no '.' for the extension lookup; otherwise one media message of the upload's kind, with the file columns of StoredFileColumns |
| Messages.MessageTable.GetConversation | backend/routes/messages.py:166-218 | 403 for an invalid token; otherwise the requested page, its views, the total and has_more |
| Messages.MessageTable.GetMedia | backend/routes/messages.py:293-324 | 500 "File access failed" for an unknown message, since the 404 is caught inside the route's try; otherwise MediaAccess |
| Messages.MessageTable.MarkDelivered | backend/routes/messages.py:328-339 | 500 "Failed to mark message as delivered" when unknown, since the 404 is caught inside the route's try; 403 for a non-receiver or a second attempt; 500 on a failed commit; otherwise only that message is marked delivered |
| Messages.MessageTable.MarkRead | backend/routes/messages.py:343-357 | 500 "Failed to mark message as read" when unknown, since the 404 is caught inside the route's try; 403 for a non-receiver; 500 on a failed commit; otherwise only that message is marked read |
| Messages.MessageTable.AckDelivered | app.py:151-169 | a truthy id of an undelivered message marks it delivered and tells the sender's room; anything else changes nothing |
| Messages.MessageTable.AckRead | app.py:171-192 | a truthy id of an existing message marks it read and tells the sender's room, every time |
| Messages.TextReadsBackAsSent | backend/routes/messages.py:193-196 | a stored text message reads back in the conversation as it was sent |
| Messages.AcceptedUploadIsMedia | backend/routes/messages.py:97-117 | an accepted upload becomes an image, video or audio message |
| Messages.StoredFileColumns | backend/routes/messages.py:119-136 | the file columns send_media stores: the Telegram id and URL exactly when upload_file returned a pair (the URL None when getFile failed), and the local path unless that pair came back and the copy was deleted |
| Messages.KeptFileColumns | backend/routes/messages.py:119-136 | the corrected columns: the local path is dropped only when Telegram gave a non-empty URL |
| Messages.StoredMediaHasUrl | backend/telegram_storage.py:55-77 | the row send_media stores has a URL to serve it from exactly when Telegram gave a URL or the local copy was kept |
| Messages.UnservableUploadAsWritten | backend/routes/messages.py:126-131 | as written, an upload whose getFile failed is stored with neither a path nor a URL, so get_media_file answers 404 for it |
| Messages.KeptUploadHasUrl | backend/routes/messages.py:302-305 | with the corrected columns every stored upload has a URL, the Telegram one whenever there is one |
| Relay.PyStr | app.py:128 | str() of a number, of None, of a string; a dict's repr is not spelled out |
| Relay.CallSignalRoute | app.py:122-137 | at most one delivery, never to the sender; it goes to the receiver's personal room if named, else to the named room, and only for a dict with a type whose receiver id, if any, is not itself a dict |
| Relay.RelayToRoom | app.py:139-149 | the payload, unchanged, to the room it names, and not to the sender; nothing without a room |
| Relay.HandleMessage | app.py:108-120 | the message to its room, then a broadcast delivery notice exactly when it carries a message dict with an id |
| Relay.ManagerEmitsAreRouted | app.py:122-149 | every call signal the call manager sends reaches exactly its destination, once, unchanged and not echoed; offers, answers and candidates reach their call room |
| Relay.PersonalRoomIsNotCallRoom | app.py:128 | a personal room never coincides with a call room |
| WebRTC.CallRoomInjective | frontend/static/js/webrtc.js:54 | different call ids, null included, never share a room |
| WebRTC.CallDuration | frontend/static/js/webrtc.js:315-318 | the whole seconds since connecting, or 0 when no connection time is set |
| WebRTC.FindTrackIsFirst | frontend/static/js/webrtc.js:397-398 | the first track of the kind; none only when there is none |
| WebRTC.StopsContents | frontend/static/js/webrtc.js:346-349 | every track is stopped, in stream order |
| WebRTC.OfKind | frontend/static/js/webrtc.js:450 | exactly the tracks of the kind |
| WebRTC.WithEnabledEffect | frontend/static/js/webrtc.js:282-310 | a toggle makes every track of its kind agree with the flag and changes nothing else |
| WebRTC.ToggleTwiceRestores | frontend/static/js/webrtc.js:282-310 | two toggles restore tracks that agreed with the flag |
| WebRTC.FindSender | frontend/static/js/webrtc.js:401-414 | the first sender carrying a track of the kind; none only when there is none |
| WebRTC.SendersToVideoCounts | frontend/static/js/webrtc.js:401-418 | switching to video adds a video sender only when there was none, and keeps the audio senders |
| WebRTC.SendersToAudioCounts | frontend/static/js/webrtc.js:460-479 | switching to audio takes one video sender out of service and keeps the audio senders |
| WebRTC.VideoAudioVideoRoundTrip | frontend/static/js/webrtc.js:382-498 | video, then audio, then video leaves exactly one sender of each kind |
| WebRTC.SwitchBackToVideo | frontend/static/js/webrtc.js:382-498 | a peer keeps one audio and one video sender over a switch to audio and back |
| WebRTC.SendersFor | frontend/static/js/webrtc.js:191-195 | one sender per local track, in order |
| WebRTC.KeyOrderEnumerates | frontend/static/js/webrtc.js:352-354 | Object.values visits every peer once, numeric keys ascending, then "null" |
| WebRTC.CallManager.constructor | frontend/static/js/webrtc.js:2-13 | no call, no stream, no peers, no timers, unmuted |
| WebRTC.CallManager.CurrentUserLoaded | frontend/static/js/webrtc.js:15-21 | only the current user changes |
| WebRTC.CallManager.StartCallTimer | frontend/static/js/webrtc.js:669-679 | one new ticker is scheduled and kept as the call timer |
| WebRTC.CallManager.ShowCallScreen | frontend/static/js/webrtc.js:500-514 | a ticker starts exactly for a connected video call with a truthy id; nothing else changes |
| WebRTC.CallManager.StopTracks | frontend/static/js/webrtc.js:346-349 | every given track is stopped, in order, and nothing else changes |
| WebRTC.CallManager.ClosePeers | frontend/static/js/webrtc.js:352-355 | every peer is closed once, in Object.values order, and the map emptied |
| WebRTC.CallManager.ClearCallTimers | frontend/static/js/webrtc.js:336-343 | both held timers are cancelled and forgotten |
| WebRTC.CallManager.Cleanup | frontend/static/js/webrtc.js:334-367 | timers cancelled, tracks stopped, peers closed, call fields cleared; the rest kept |
| WebRTC.CallManager.GetLocalStream | frontend/static/js/webrtc.js:113-130 | an acquired stream becomes the local stream; a refusal leaves it unset |
| WebRTC.CallManager.StartCall | frontend/static/js/webrtc.js:30-78 | a refused request or media cleans up; otherwise the call rings: room joined, callee invited, ring timeout armed |
| WebRTC.CallManager.AnswerCall | frontend/static/js/webrtc.js:80-111 | succeeds exactly when the API and media do, then joins, announces, shows the screen; otherwise cleans up |
| WebRTC.CallManager.EndCall | frontend/static/js/webrtc.js:312-332 | with a truthy id: the end request, carrying only the id; if it fails nothing more happens; otherwise the call_ended signal with the whole-second duration to the call room, then cleanup; without an id only cleanup |
| WebRTC.CallManager.HandleCallRejection | frontend/static/js/webrtc.js:369-380 | the rejection goes to the call room, then cleanup |
| WebRTC.CallManager.HandleCallSignal | frontend/static/js/webrtc.js:541-574 | initiated adopts the id; answered connects and offers; ended ends; rejected cleans up; a mode change of the current call is followed |
| WebRTC.CallManager.OnCallAnswered | frontend/static/js/webrtc.js:550-559 | the ring timeout is cancelled, the call connects now, a ticker starts, and a peer offers to the call room |
| WebRTC.CallManager.InitiateWebRTCConnection | frontend/static/js/webrtc.js:183-223 | a new peer carrying every local track under the call id, and its offer sent to the call room |
| WebRTC.CallManager.HandleCallModeChange | frontend/static/js/webrtc.js:516-539 | the mode follows "audio" or "video"; a mode already held changes nothing |
| WebRTC.CallManager.HandleOffer | frontend/static/js/webrtc.js:225-266 | a new peer under the current call; an answer to the offer's room exactly when the offer is accepted |
| WebRTC.CallManager.HandleAnswer | frontend/static/js/webrtc.js:268-273 | the current peer, if any, gets its remote description when accepted |
| WebRTC.CallManager.HandleIceCandidate | frontend/static/js/webrtc.js:275-280 | a candidate joins the current peer only when it has a remote description |
| WebRTC.CallManager.OnLocalIceCandidate | frontend/static/js/webrtc.js:206-213 | a found candidate goes to that peer's room |
| WebRTC.CallManager.SetTracksEnabled | frontend/static/js/webrtc.js:285-287 | every local track of the kind takes the flag, the others are untouched |
| WebRTC.CallManager.ToggleAudio | frontend/static/js/webrtc.js:282-295 | the flag flips and every audio track agrees with it |
| WebRTC.CallManager.ToggleVideo | frontend/static/js/webrtc.js:297-310 | the flag flips and every video track agrees with it |
| WebRTC.CallManager.SwitchToVideo | frontend/static/js/webrtc.js:382-444 | with a peer and media: senders moved, old tracks stopped, new stream adopted, mode announced; otherwise nothing changes |
| WebRTC.CallManager.SwitchToAudio | frontend/static/js/webrtc.js:446-498 | video tracks stopped first; with a peer and media: senders moved, stream adopted, mode announced |
| WebRTC.CallManager.FireTimer | frontend/static/js/webrtc.js:46-51 | the ring timeout schedules the 2 s hang-up while still ringing; the hang-up ends the call; a ticker changes nothing |
| Chat.RoomName | frontend/static/js/chat.js:344 | the room splits on '_' into "chat", the smaller id and the larger id |
| Chat.RoomNameSymmetric | frontend/static/js/chat.js:344 | both users compute the same conversation room |
| Chat.RoomNameInjective | frontend/static/js/chat.js:344 | different pairs never share a room |
| Chat.MoveToFront | frontend/static/js/chat.js:1065-1066 | the chosen element first, the others in order; a permutation |
| Chat.IndexOfContact | frontend/static/js/chat.js:1063 | the first contact with the id; none only when there is none |
| Chat.NewContact | frontend/static/js/chat.js:1082-1089 | the sender's id, seen now, online only when the sender says so |
| Chat.WithStatus | frontend/static/js/chat.js:1035-1040 | 'delivered' sets the delivered flag, 'read' both flags, anything else nothing; nothing else changes |
| Chat.Badge | frontend/static/js/chat.js:271-277 | no badge exactly for zero; the count up to 9, then "9+" |
| Chat.IconFor | frontend/static/js/chat.js:441-450 | blue exactly when read; a double tick exactly when read or delivered |
| Chat.MarkedRead | frontend/static/js/chat.js:1159-1175 | exactly the unread messages from the open chat become read |
| Chat.ReceiptsMatchChanges | frontend/static/js/chat.js:1159-1175 | one message_read per message changed, each naming an unread message of the chat |
| Chat.MarkingIsIdempotent | frontend/static/js/chat.js:1159-1175 | marking again changes and sends nothing |
| Chat.NoReceiptsWithoutUnread | frontend/static/js/chat.js:1159-1175 | nothing is sent when nothing is unread |
| Chat.ChatClient.constructor | frontend/static/js/chat.js:3-17 | no contacts, no messages, no open chat, no unread entries, nothing sent |
| Chat.ChatClient.MoveContactToTop | frontend/static/js/chat.js:1062-1071 | a known contact moves to the front; an unknown one makes the list reload |
| Chat.AddedOrMoved | frontend/static/js/chat.js:1073-1094 | a known contact is rearranged to the front with the same contacts; an unknown one is prepended as NewContact when there is sender data; otherwise nothing changes |
| Chat.AddedOrMovedKnown | frontend/static/js/chat.js:1073-1094 | for a known contact: the list is unchanged when it is already first, else MoveToFront; it is first afterwards; a second call changes nothing |
| Chat.ChatClient.AddOrMoveContactToTop | frontend/static/js/chat.js:1073-1094 | the contacts become AddedOrMoved: a known contact moves to the front; an unknown one is added in front exactly when there is sender data |
| Chat.ChatClient.SelectContact | frontend/static/js/chat.js:307-360 | the contact is selected and paging restarts at page 1 with more presumed |
| Chat.ChatClient.FinishSelectContact | frontend/static/js/chat.js:336-370 | the first page replaces the messages (a failed request keeps them) and sets has_more when the reply has it; the open chat's unread messages are marked read with one receipt each, none left unread; then join_room and join_conversation for the pair's room |
| Chat.ChatClient.StartChatWithUser | frontend/static/js/chat.js:1014-1023 | the user is a contact afterwards, added in front only if new, and selected with paging restarted |
| Chat.ChatClient.AcknowledgeIncoming | frontend/static/js/chat.js:661-675 | a message for this user is acknowledged and the contacts become AddedOrMoved for its sender; any other changes nothing |
| Chat.ChatClient.HandleIncomingMessage | frontend/static/js/chat.js:658-705 | a message of the open chat not yet shown is appended, ids staying unique; the contacts become AddedOrMoved for the sender exactly when the message is for this user, and are unchanged otherwise |
| Chat.ChatClient.UpdateMessageStatus | frontend/static/js/chat.js:1032-1043 | the first message with the id takes the status; an unknown id changes nothing |
| Chat.ChatClient.UnreadCount | frontend/static/js/chat.js:1045-1048 | the length of the contact's unread list, 0 without one |
| Chat.ChatClient.AddUnreadMessage | frontend/static/js/chat.js:1050-1054 | the sender's count grows by one; other entries unchanged |
| Chat.ChatClient.ClearUnreadMessages | frontend/static/js/chat.js:1056-1060 | the contact's count is 0; other entries unchanged |
| Chat.ChatClient.BeginLoadMore | frontend/static/js/chat.js:1112-1121 | the next page is requested exactly when no load runs, a chat is open and there is more |
| Chat.ChatClient.FinishLoadMore | frontend/static/js/chat.js:1121-1149 | older messages go in front and the page advances; an empty page ends paging; loading is over |
| Chat.ChatClient.MarkUnreadMessagesAsRead | frontend/static/js/chat.js:1159-1175 | the messages become MarkedRead and the log gains ReadReceipts |
| Chat.ModeChangeIgnoredAsWritten | frontend/static/js/webrtc.js:567-572 | as written, the call_mode_changed guard fails both ways: the caller's signal with the numeric id against the callee's dataset string, and the callee's signal with the string against the caller's number; a numeric signal against the numeric id passes |
| Chat.DatasetCallId | frontend/static/js/webrtc.js:607 | the popup stores the call id as a string, which parses back to the id |
| Chat.CallIdFromDataset | frontend/static/js/webrtc.js:567-572 | the corrected reading of the popup's id before it is compared: a number stays that number, null gives no id |
| Chat.DatasetCallIdRoundTrip | frontend/static/js/webrtc.js:607 | parsing the dataset's string gives back the numeric call id |
| Notifications.SwitchFrom | frontend/static/js/notifications.js:24-25 | a switch is off exactly when stored as false |
| Notifications.Load | frontend/static/js/notifications.js:20-27 | stored switches replace the current ones; with nothing stored they stay |
| Notifications.LoadAfterSave | frontend/static/js/notifications.js:20-34 | what was saved loads back unchanged |
| Notifications.MissingSwitchIsOn | frontend/static/js/notifications.js:24-25 | only an explicit false turns a switch off |
| Notifications.FlipTwice | frontend/static/js/notifications.js:88-98 | two toggles restore the settings |
| Notifications.ToggleSurvivesReload | frontend/static/js/notifications.js:88-98 | a toggle is still in effect after a reload |
| Notifications.NotificationManager.constructor | frontend/static/js/notifications.js:2-12 | both switches on, then the stored settings loaded |
| Notifications.NotificationManager.LoadSettings | frontend/static/js/notifications.js:20-27 | the switches become Load of storage |
| Notifications.NotificationManager.SaveSettings | frontend/static/js/notifications.js:29-34 | storage holds both switches |
| Notifications.NotificationManager.ToggleNotifications | frontend/static/js/notifications.js:88-92 | the notification switch flips, is saved and returned |
| Notifications.NotificationManager.ToggleSound | frontend/static/js/notifications.js:94-98 | the sound switch flips, is saved and returned |
| Notifications.NotificationManager.PlayNotificationSound | frontend/static/js/notifications.js:36-37 | a tone exactly when the sound is on |
| Notifications.NotificationManager.ShowNotification | frontend/static/js/notifications.js:66-86 | nothing when off; otherwise a popup exactly when permitted, with the default icon if none, then the tone if on |
| Avatar.Initials | frontend/static/js/avatar.js:19 | at most two characters, no lowercase ASCII, empty exactly for an all-space name |
| Avatar.FirstsEmptyIffBlank | frontend/static/js/avatar.js:19 | the joined first letters are empty exactly when the name is all spaces |
| Avatar.FirstsAreWordStarts | frontend/static/js/avatar.js:19 | the joined first letters of the split are exactly the non-space characters that start the name or follow a space, so empty words add nothing |
| Avatar.InitialsFromWordStarts | frontend/static/js/avatar.js:19 | the initials are the first two of those word starts, upper-cased |
| Avatar.DoubledSpaceIgnored | frontend/static/js/avatar.js:19 | a doubled space inside a name gives the same initials as a single one |
| Avatar.TrailingSpaceIgnored | frontend/static/js/avatar.js:19 | a trailing space does not change the initials |
| Avatar.JoinedWordStarts | frontend/static/js/avatar.js:19 | non-empty space-free words joined by single spaces start exactly at their first letters |
| Avatar.WordsInitials | frontend/static/js/avatar.js:19 | such words give the upper-cased first letters of the first two words, or the one letter of a single word |
| Avatar.LeadingSpaceIgnored | frontend/static/js/avatar.js:19 | a leading space does not change the initials |
| Avatar.TwoWords | frontend/static/js/avatar.js:19 | two words give their two first letters, upper-cased |
| Avatar.GenerateAvatar | frontend/static/js/avatar.js:2-23 | a generated picture of the name's initials at the given size |
| Avatar.SetAvatar | frontend/static/js/avatar.js:26-30 | a present element shows the generated avatar; a missing one is left alone |

## Left out

- Rendering, the DOM, scrolling, audio playback and the canvas: the model keeps the state these read and the effects they produce.
- The join_room, leave_room and test_room socket handlers (app.py:84-106): they only join or leave a Socket.IO room.
- Fernet and bcrypt internals: each is a pair of functions. Only "decrypt undoes encrypt" and "checkpw accepts the password a hash was made from" are assumed, and only where a property needs them.
- Sessions, `login_required` and Flask's own 415 reply for a body that is not JSON: the current user is a parameter.
- socketio.sleep and the threading of the server: each handler is one atomic step.
- Media upload I/O: saving the file, the Telegram upload and the local copy's removal are parameters. secure_filename is a parameter: the name it produced.
- The database errors of get_conversation, and its parsing of the page arguments: the page and page size are integer parameters.
- Messages.MessageTable.SendMedia: the local file saved before the 500 for a name without a '.' is not tracked. A failed final commit is not modelled, so a valid upload always stores its row.
- Messages.MediaAccess: when the Telegram fetch fails, the route redirects to the Telegram URL. That URL holds the bot token. The model records the redirect but not that leak.
- Relay.PyStr: the repr of a dict is not spelled out.
- Relay.CallSignalRoute: a signal whose `receiver_id` is a dict is dropped, because the model does not spell out a dict's repr. app.py:128 sends it to the room `user_` followed by that repr, which no personal room of the page is named.
- WebRTC.CallManager.AnswerCall: takes the call id as a number, while chat.js:766 passes it the popup's dataset string. The model reads that string back as a number (Chat.CallIdFromDataset); the string itself appears only in Chat.ModeChangeIgnoredAsWritten.
- Chat.ChatClient.constructor: chat.js:3-17 leaves the paging fields and the unread map undefined. The model starts them at page 1, no more pages, no load running and an empty map; nothing reads them before a contact is selected, and the unread helpers treat a missing map as empty.
- Chat.ChatClient.FinishSelectContact: chat and call events that arrive while the first page is loading are not interleaved into this step.
- Non-string JSON fields in the auth, message and call bodies: a field is present or absent, except call_type, which may also be null (Calls.CallTable.Initiate). A number or other non-string value given for a string field is not modelled.
- Calls.CallTable.Initiate: a body Flask cannot read (its own 400), or one that is JSON null or not an object (`data.get` raises: 500), is not modelled; the route takes the JSON fields as parameters.
- Text.PyInt: Python's int() also accepts underscores between digits and non-ASCII decimal digits. The model accepts only ASCII digits with an optional sign, surrounded by any whitespace str.isspace() accepts.
- Messages.View: isoformat()'s text rendering of the shifted time is not spelled out; the view holds the IST instant as an integer. The same shift in the replies of send_message and send_media (messages.py:66, 153), which return the stored row in the model, is stated in their comments only.
- Calls: total_seconds() is a float. The model uses integer microseconds and truncates toward zero.
- Notifications: a malformed stored JSON value makes JSON.parse throw. The model takes the stored object as already parsed.
- Notifications: requestPermissions and the Web Audio tone's frequency and timing are not modelled. The permission is a parameter and the tone one effect.
- Avatar.Initials: toUpperCase is ASCII only, and the slice counts characters rather than UTF-16 units.
- WebRTC.CallManager.SwitchToVideo: the mute flags are not reapplied to the new stream's tracks, as in the source.
- WebRTC.CallManager.SwitchToAudio: the old audio tracks are not stopped, as in the source.
- WebRTC.CallManager: with no peer for the current call, both switches drop the newly acquired stream without stopping it, as in the source.
- WebRTC.CallManager.ShowCallScreen: a second showing of the screen on a connected call starts a second ticker and drops the handle of the first, as in the source.
- WebRTC.CallManager.FireTimer: the 2-second hang-up's handle is kept nowhere, so it cannot be cancelled, as in the source.
- The unread map: addUnreadMessage and clearUnreadMessages are modelled, but nothing in chat.js calls them. The badge therefore never shows in the running page.
- Chat.ChatClient.HandleIncomingMessage: the desktop notification it raises (chat.js:694-704) is not wired to the Notifications model.
- The search does not escape `%` and `_` in the query. The model keeps that, and Users.UnderscoresMatchAnyName shows its effect.
- The socket's connect and disconnect events, contact listing, user-id encryption and the generic decrypt_data helper are not part of this model.

## Findings

| source | as written | input that shows it | evidently intended | confidence | as-written member | corrected member |
|---|---|---|---|---|---|---|
| backend/routes/calls.py:86-94 | end_call turns a call that is not `initiated` into `ended`, even one already `missed` | a ringing call ended by the caller (becomes missed), then a second POST to its end route by either party (becomes ended, with a duration) | an unanswered call stays missed; a call already over is unchanged | not executed | Calls.EndedAsWrittenEndsMissedCall | Calls.EndedRecord |
| backend/routes/messages.py:328-339 | get_or_404 sits inside `try/except Exception`, which catches its 404 | mark-delivered, mark-read or media request for an id with no message: 500 instead of 404 | 404 Not Found for a missing message | not executed | Messages.MissingMessageIs500AsWritten | Messages.Fetch |
| frontend/static/js/webrtc.js:567-572 | the mode-change check compares call ids with `===`, but the callee's id came from `popup.dataset.callId` (webrtc.js:607), a string | a call answered from the popup, then either side switches to video: the other side ignores the signal | both sides hold the numeric id, so the check matches | not executed | Chat.ModeChangeIgnoredAsWritten | Chat.CallIdFromDataset |
| backend/routes/messages.py:126-131 | any pair from upload_file counts as a successful upload and the local copy is deleted, although the pair's URL is None when getFile failed (telegram_storage.py:55-56, 64-77) | an upload whose sendPhoto succeeds but whose getFile fails: the row has no path and no URL, and get_media_file answers 404 "File not found" | the local copy is kept until there is a URL to serve the file from | not executed | Messages.UnservableUploadAsWritten | Messages.KeptUploadHasUrl |
