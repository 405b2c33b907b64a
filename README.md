# Whisspra backend, modelled in Dafny

Whisspra is a chat backend built on Express, MongoDB and Socket.IO. Users
register, log in (optionally with a TOTP second factor) or join anonymously.
They open direct chats, group chats, roleplay rooms, whisper threads and
community chats, and send messages over a socket. Messages with links or
images are held `pending` until a classifier has scanned them. The socket
handler also asks a user's "AI twin" to answer for them while they are
away, but as written that request never yields a reply (see Findings).
Admins moderate
flagged messages, verify identities, switch maintenance mode, manage feature
flags and site settings, and issue API keys for a small public chat API.
Creators sell marketplace items and receive tips.

This project models the request handlers, the socket handlers, the
middleware and the schema rules these operations rely on. It proves the
properties the code promises about them.

Modelling choices:

- **The store.** The MongoDB store is the datatype `Store.Db`, which holds
  one map per collection from document id to record. Ids are natural
  numbers handed out in increasing order (`Common.NextId`), so "sorted by
  `createdAt`" is "sorted by id".
- **The handlers.** Each handler is a pure function `XxxOutcome`. It
  returns the reply, the store afterwards and the socket events emitted. A
  method on the `Store.Server` class (fields `db`, `sockets`, `events`,
  `maintenance`) performs the same steps in place, and its contract ties
  the new state to that function.
- **Replies.** `Http.Reply` is `Ok(status, body)`, `Fail(status, message)`
  (an error answered directly or passed to the error handler), or `Thrown`
  (an exception the catch block turns into a 500). Constant reply fields
  are not modelled: the fixed `message` texts beside a returned record
  (for example "API Key created successfully. This is the only time you
  will see the full key.") and the `success: true` flags.
- **Outside calls.** Bcrypt, JWT, TOTP, QR codes, SHA-256, random bytes,
  the clock and the Gemini model are parameters: a hash function, a
  verifier, a draw or an already-parsed answer. `None` stands for a call
  or a JSON parse that failed. The TOTP verifier is consulted only for a
  stored secret: speakeasy's `totp.verify` first refuses a code whose
  string form is not six UTF-16 units long or not read by `parseInt`, and
  then base32-decodes the secret, which throws when the secret is undefined.
- **Conversation timestamps.** `updatedAt` is not stored in the records.
  The public API listing takes it as a map from conversation id to time.
- **Mongoose version.** The model follows Mongoose 7 and later: keys whose
  value is undefined are dropped from an update (as since Mongoose 6), and
  `Document#remove` no longer exists.
- **Upload parts.** A file part is known by the file name the client sent.
  The multipart parser keeps only its base name (the part after the last
  '/' or '\\'), and it skips a part whose base name is empty before the
  field check and the type filter.
- **Threat kinds.** The safety scan writes its verdict with an update that
  runs no validators. The classifier's response schema allows only
  `deepfake` and `scam_link` for `type`, the message schema's own list, so
  a stored kind always passes the validation of a later `save()`.
- **Socket payloads.** Every `newMessage` event is emitted after the
  message's `senderId` was populated with name and avatar; the payload
  `Store.NewMessage` carries that sender view beside the stored message.

The code is followed wherever it departs from its description:

- `registerUser` and `createAnonymousUser` answer 200, not 201.
  `handleAuthSuccess` overrides the status.
- The anonymous name "User-" + `substring(2, 8)` of the random draw can be
  shorter than six characters.
- The public API's `sendMessage` stores messages `safe` without a scan.
- `revokeApiKey` does not check who owns the key.
- The first settings update stores the schema defaults. After it, the
  displayed defaults (about-us text, founder details, empty contact
  fields) are gone.
- `updateFeatureFlag` unsets `isEnabled` when the body does not send it;
  the flag then reads back as off, the schema default.
- Deleting a flagged message through `moderateFlaggedContent` answers 500
  and deletes nothing (see Findings).
- `loginUser` throws when a user exists but no password is sent.
- `getSmartFeed` does not exclude communities the caller has joined (see
  Findings).
- The AI-twin auto-reply of `sendMessage` never stores or emits anything
  (see Findings).
- The token a two-factor login answers first is a full session token (see
  Findings).
- `updateUserProfile` keeps the stored password hash when no password is
  sent: the record is read without it, and `save` writes only the fields
  that were assigned.
- Length thresholds use JavaScript's `length`, which counts UTF-16 code
  units; `Text.Utf16Length` models it.

## Model

| member | source | states |
|---|---|---|
| Http.ErrorStatus | middleware/errorMiddleware.js:5 | an error response never keeps status 200: a response still at 200 becomes 500, any other status is kept |
| Http.ErrorHandler | middleware/errorMiddleware.js:4-14 | the error body carries the error's message; the stack is null exactly in production; the status is never 200 |
| Http.Raised | middleware/errorMiddleware.js:5-13 | `res.status(s); next(new Error(m))` reaches the client as a failure with message m, with status s unless s is 200 |
| Store.Answer | server.js:159-215 | a handler that only answers leaves the store unchanged and emits nothing |
| Store.Server.constructor | server.js:76-78 | a started server has an empty socket registry, no events and maintenance off |
| Store.ToUser | controllers/adminController.js:268-271 | `io.to(userSocketMap.get(id))` emits exactly one event to the user's socket when it is registered, none otherwise |
| Models.CreateMessage | models/messageModel.js:5-76 | creation succeeds iff content is non-empty and every enumerated field is in its list; missing fields take the schema defaults (text, sent, safe, server) |
| Models.CreateIgnoresAiTwinMark | models/messageModel.js:5-76 | a key the message schema does not declare (`isAiTwinMessage`) has no effect on the stored record |
| Models.NewUser | models/userModel.js:16-125 | a created user has the given name, e-mail, password and anonymity; every other modelled field takes its schema default (role user, theme dark, avatar "A", verification none, 2FA off, presence online, no purchases) or is unset (lastSeen, aiTwinLastTrained, academicProfile, style profile, 2FA secret) |
| Models.PreSave | models/userModel.js:127-134 | the password changes only when it was modified and is non-empty, and then becomes its hash; nothing else changes |
| Models.MatchPasswordNeedsPassword | models/userModel.js:136-139 | a user without a stored password never matches |
| Models.HashedPasswordMatches | models/userModel.js:127-139 | a password stored through the hook matches itself whenever bcrypt accepts a text against its own hash |
| Models.Redacted | controllers/adminController.js:50-52 | the record returned has no password and no 2FA secret; every other field is unchanged |
| Models.NewConversation | models/conversationModel.js:4-57 | a new conversation has the given participants, every flag false and no name, admin, last message or links |
| Models.NewApiKey | models/apiKeyModel.js:4-37 | a new key has the given hash, prefix and owner, usage count 0, no last use, and is active |
| Ledger.AllTxIds | controllers/adminController.js:104-106 | the aggregation reads every transaction exactly once |
| Ledger.CountOver | controllers/creatorController.js:68-72 | the count of matching transactions never exceeds the number read |
| Ledger.MatchingIds | controllers/creatorController.js:62 | exactly the listed transactions that match, as many as the count |
| Ledger.MatchingIncreasing | controllers/creatorController.js:62 | filtering an increasing list keeps it increasing |
| Ledger.SplitRevenue | controllers/adminController.js:104-115 | the total revenue is the sum of the tips and of every amount that is not a tip |
| Ledger.NoMatchSumsToZero | controllers/adminController.js:107 | `total \|\| 0`: a `$sum` over no matching transaction is 0 |
| Ledger.AmountOverAdd | controllers/adminController.js:104-112 | recording a transaction raises every sum it matches by its amount and leaves the others |
| Ledger.AmountOverFrame | controllers/adminController.js:104-112 | a sum depends only on the transactions it reads |
| Ledger.DailyTotals | controllers/adminController.js:122-131 | the daily aggregation has a total exactly for the days from the start day on with transactions, each the sum of that day's amounts |
| Ledger.DailyTotalOrZero | controllers/adminController.js:135-142 | `dateMap.get(day) \|\| 0` is that day's total, which is 0 on a day without transactions |
| Common.SortedIds | controllers/adminController.js:165-170 | the ids of a collection in creation order, each once |
| Common.IdsWhere | controllers/adminController.js:165-170 | `find(filter)` in creation order: exactly the ids whose record matches |
| Common.First | controllers/authController.js:32 | `findOne(filter)`: none iff no record matches, otherwise the oldest match |
| Common.NextId | controllers/chatController.js:151-153 | a created document gets an id not yet in use, greater than every existing one |
| Common.AddToSet | controllers/communityController.js:90-92 | `$addToSet`: the element is present afterwards, nothing is lost, and a present element adds nothing |
| Common.Dedup | controllers/chatController.js:197 | `[...new Set(list)]`: the same elements, without repeats, and no longer than the list |
| Common.DedupOfNoDup | controllers/chatController.js:197 | a list without repeats is left unchanged |
| Common.DedupIdempotent | controllers/chatController.js:197 | de-duplicating twice is de-duplicating once |
| Common.DedupKeepsFirstOccurrenceOrder | controllers/chatController.js:197 | `new Set` keeps first occurrences in order: an element listed before another first occurs earlier in the input |
| Common.Latest | controllers/aiController.js:212-215 | sort newest first and limit n: the last n entries, newest first |
| Common.LatestDecreasing | controllers/developerController.js:11 | newest first is a decreasing order of ids |
| Common.SortBy | controllers/featureFlagController.js:9 | the sort returns a permutation of its input |
| Common.SortBySorted | controllers/featureFlagController.js:9 | under a total preorder the sort's output is ordered |
| Text.Take | controllers/developerController.js:30 | `substring(0, n)` is a prefix of length min(n, length) |
| Text.Utf16Length | controllers/aiController.js:76 | JavaScript's `length`: at least one and at most two units per character, and exactly one per character iff no character lies outside the Basic Multilingual Plane |
| Text.Utf16LengthAppend | controllers/aiController.js:72-76 | the length of a concatenation is the sum of the lengths |
| Text.SecondField | middleware/authMiddleware.js:13 | `split(' ')[1]` is undefined iff there is no space, and never contains a space |
| Text.SecondFieldOfPair | middleware/authMiddleware.js:13 | for "a b" with space-free a and b, the second field is b |
| Text.ToLower | middleware/uploadMiddleware.js:22 | lower-casing maps each character and keeps the length |
| Text.ToLowerIdempotent | middleware/uploadMiddleware.js:22 | lower-casing twice is lower-casing once |
| Text.ForwardSlashes | routes/uploadRoutes.js:25 | every backslash becomes '/', nothing else changes, none remain |
| Text.ForwardSlashesIdempotent | routes/uploadRoutes.js:25 | replacing backslashes is idempotent |
| Text.ExtName | middleware/uploadMiddleware.js:11 | `path.extname` is empty or one '.' followed by dot-free, slash-free text |
| Text.ExtNameOfName | middleware/uploadMiddleware.js:22 | the extension of "stem.ext" is ".ext" |
| Text.RegexTestLiterals | middleware/uploadMiddleware.js:18-23 | an unanchored alternation of literals matches iff the text contains one of them |
| Text.NatToString | controllers/chatController.js:139 | a number prints as a non-empty string of digits |
| Text.NatToStringValue | controllers/chatController.js:139 | the printed digits read back as the number |
| Text.Hex | controllers/developerController.js:29 | `toString('hex')` gives two hex digits per byte |
| Text.Trim | models/communityModel.js:8 | `trim` leaves no white space at either end and is empty iff the text is all white space |
| Dispatch.Connect | server.js:141-149 | the user's socket replaces any earlier one; everyone is told the user is online |
| Dispatch.Touch | server.js:151-157 | `lastSeen` is set on the user alone; a missing user stays missing |
| Dispatch.Disconnect | server.js:151-157 | the registry entry is removed, `lastSeen` is stored and the same time is broadcast |
| Dispatch.NeedsScanIff | server.js:166 | a message needs a scan iff it is an image or a text containing "http://" or "https://" |
| Dispatch.MessageData | server.js:168-179 | the draft carries the conversation, the sender, the content and the file fields as sent, status sent, the type given or text, and the safety status pending iff that type and content need a scan, safe otherwise |
| Dispatch.FirstOther | server.js:196 | the first participant who is not the sender and still exists; none iff there is no such participant |
| Dispatch.AutoReplyTarget | server.js:196-197 | an auto-reply is due iff that first other participant has it enabled and is away or busy |
| Dispatch.OnlyFirstRecipientCounts | server.js:196-197 | a later participant who would qualify is ignored when the first other participant does not |
| Dispatch.SendMessageOutcome | server.js:159-215 | a missing conversation changes nothing; otherwise the message is stored at a fresh id, pending iff it needs a scan, becomes the last message and is emitted to the room with its populated sender; the scan and the twin reply are started as the conditions say |
| Dispatch.SendMessage | server.js:159-215 | the socket handler updates the store and the event log exactly as `SendMessageOutcome` says |
| Dispatch.ReplyDraft | server.js:202 | the reply draft is the original with only sender, content and the twin mark changed |
| Dispatch.ReplyShape | server.js:199-207 | the stored reply equals the stored original except for sender and content |
| Dispatch.AutoReplyOutcome | server.js:200-207 | the `.then` body: a falsy value does nothing; otherwise the reply is stored at a fresh id, becomes the last message (when the conversation exists) and is emitted with the recipient as its populated sender, and is never scanned; no other collection changes |
| Dispatch.DeliverAutoReply | server.js:200-207 | the method changes the store and events exactly as `AutoReplyOutcome` says |
| Dispatch.AutoReplyInheritsPending | server.js:187-207 | once a reply is delivered (as in `AutoReplyIntended`), the twin's reply to a held message is stored pending too and is never scanned |
| Dispatch.TwinHandlerCall | server.js:199 | calling the Express handler directly: with a bare id the promise rejects; with any argument it never resolves with suggestion text |
| Dispatch.AutoReplyAsWritten | server.js:199-208 | a rejected request changes nothing; a resolved one runs the `.then` body on its value |
| Dispatch.AsWrittenTwinNeverReplies | server.js:199-208 | as written, the auto-reply stores nothing and emits nothing, whatever the handler is given |
| Dispatch.AutoReplyIntended | server.js:196-208 | with the twin route's suggestion for the recipient, a reply is stored and emitted iff the twin is trained, the history builds, the model answers non-empty text and the draft is valid; the stored reply is from the recipient with that text, and it is emitted with the recipient as its populated sender |
| Dispatch.FinalAnalysis | controllers/aiController.js:450-482 | the verdict is warning iff the classifier warned; type and reason are kept only for warnings, and the type is one of the schema's threat kinds |
| Dispatch.SafetyScanOutcome | controllers/aiController.js:445-504 | only the scanned message's verdict changes: images become safe without the classifier, a classifier answer sets the final analysis and is emitted, a failure falls back to safe silently |
| Dispatch.PerformSafetyScan | controllers/aiController.js:445-504 | the method changes the store and events exactly as `SafetyScanOutcome` says |
| Dispatch.ImageScanIgnoresClassifier | controllers/aiController.js:460-464 | an image's scan result does not depend on the classifier |
| Dispatch.ScanResolvesPending | controllers/aiController.js:445-504 | after a scan the message is never left pending |
| Dispatch.UpsertFlag | server.js:61-63 | `$setOnInsert` upsert: an existing name leaves the flags alone, otherwise exactly one flag is added under a new id |
| Dispatch.SeedFeatureFlags | server.js:49-68 | startup seeding replaces the flags by the seeded flags |
| Dispatch.SeedKeepsExisting | server.js:61-63 | seeding never changes or removes an existing flag, and every added flag comes from the seed list |
| Dispatch.SeedHasAll | server.js:51-63 | after seeding, a flag of every seeded name exists |
| Dispatch.SeedNoop | server.js:61-63 | seeding a store that has every name changes nothing |
| Dispatch.SeedIdempotent | server.js:49-68 | seeding twice equals seeding once |
| Dispatch.SeedKeepsNamesUnique | server.js:61-63 | seeding keeps flag names unique |
| Chat.Present | controllers/chatController.js:19-37 | `populate` keeps exactly the participants that still exist: a single id is kept iff its user exists, a list of existing users is kept whole |
| Chat.PresentAppend | controllers/chatController.js:19-37 | the filter keeps order: filtering a concatenation concatenates the filtered parts |
| Chat.Populated | controllers/chatController.js:19-37 | a populated reference is kept iff it names a stored document |
| Chat.MapConvo | controllers/chatController.js:19-37 | the view keeps the record and lists every present participant with name and socket id; it fails iff a roleplay role cannot be resolved |
| Chat.ViewReply | controllers/chatController.js:19-37 | the reply is the mapped conversation with the given status, or a thrown error when mapping fails |
| Chat.AllParticipants | controllers/chatController.js:92-94 | the participants plus the caller, without repeats |
| Chat.GroupIffMoreThanTwo | controllers/chatController.js:96 | the group test counts distinct users, the caller included |
| Chat.RoleName | controllers/chatController.js:139 | the model's role name, or "Character i+1" when it is empty |
| Chat.Roleplay | controllers/chatController.js:132-148 | settings are kept iff the answer has a scenario and one role per participant; participant i plays role i |
| Chat.GroupRecord | controllers/chatController.js:102-149 | the group has the caller as admin and the given name; a roleplay room is never cognitive and stays roleplay only with settings |
| Chat.FindDirect | controllers/chatController.js:155-161 | none iff no direct chat has exactly these two participants; otherwise a matching one |
| Chat.AccessConversationOutcome | controllers/chatController.js:85-175 | 400 without participants or without a group name; a group is created (201); an existing direct chat is returned (200); otherwise a direct chat is created (201) |
| Chat.SelfRequestMatchesAnyDirectChat | controllers/chatController.js:155-161 | a request naming only the caller matches any direct chat of the caller |
| Chat.AccessConversation | controllers/chatController.js:85-175 | the method changes the store exactly as `AccessConversationOutcome` says |
| Chat.UpdateGroupOutcome | controllers/chatController.js:180-206 | 404, thrown without admin, 403 for non-admins; otherwise only the name (when non-empty) and the de-duplicated participants (when given) change |
| Chat.UpdatedParticipantsDistinct | controllers/chatController.js:197 | the stored participants never repeat |
| Chat.GroupEdit | controllers/chatController.js:196-197 | a truthy name replaces the name, a given list replaces the participants de-duplicated; no other field changes |
| Chat.UpdateGroup | controllers/chatController.js:180-206 | the method changes the store exactly as `UpdateGroupOutcome` says |
| Chat.FindWhisper | controllers/chatController.js:223-231 | none iff no whisper thread of the two users exists under the parent |
| Chat.WhisperThread | controllers/chatController.js:235-242 | the thread is a group of the two users under the parent, with the caller as admin |
| Chat.WhisperNotice | controllers/chatController.js:245-251 | the announcement is a system message in the parent linking to the thread |
| Chat.ToUserToOneOf | controllers/chatController.js:255-259 | an emit to a user's socket is addressed to one of the users |
| Chat.CreateWhisper | controllers/chatController.js:235-262 | a new thread and a new announcement are stored and nothing else changes; every event goes to one of the two users and carries the initiator as the populated sender |
| Chat.WhisperAnnouncedToBoth | controllers/chatController.js:253-259 | the announcement, with the initiator as its populated sender, is emitted to the initiator's socket and then to the recipient's, each when registered |
| Chat.StartWhisperOutcome | controllers/chatController.js:211-267 | 403 unless both users are in the parent; an existing thread is returned (200); a missing recipient throws; otherwise the thread is created |
| Chat.WhisperLeavesParentLastMessage | controllers/chatController.js:245-251 | the parent conversation record is left unchanged, so the announcement never becomes its last message |
| Chat.StartWhisperThread | controllers/chatController.js:211-267 | the method changes the store and events exactly as `StartWhisperOutcome` says |
| Chat.OpenWhisper | controllers/chatController.js:235-262 | the creation branch changes the store and events exactly as `CreateWhisper` says |
| ChatApi.NewerOrSameIsPreorder | controllers/api_v1/chatApiController.js:10-13 | ordering by `updatedAt` descending is a total preorder |
| ChatApi.MemberIds | controllers/api_v1/chatApiController.js:10-13 | the query finds exactly the conversations the key's owner takes part in |
| ChatApi.Order | controllers/api_v1/chatApiController.js:10-13 | the sorted result is a permutation of the member conversations |
| ChatApi.Sanitize | controllers/api_v1/chatApiController.js:16-27 | the sanitised conversation keeps id, name and group flag, lists the present participants with id, name and e-mail, and has an admin iff it is a group; it throws iff a group's admin is missing |
| ChatApi.GetConversationsOutcome | controllers/api_v1/chatApiController.js:8-37 | the listing holds each member conversation once, sanitised, with count equal to its length; it throws iff one cannot be sanitised |
| ChatApi.ListingNewestFirst | controllers/api_v1/chatApiController.js:10-13 | the listing is ordered by `updatedAt`, newest first |
| Store.SenderOf | controllers/api_v1/chatApiController.js:78-81 | the populated sender is present iff the user exists |
| ChatApi.ApiMessage | controllers/api_v1/chatApiController.js:61-66 | an API message is a text message, sent, delivered by the server and stored safe |
| ChatApi.SendOutcome | controllers/api_v1/chatApiController.js:42-86 | 400 without content, 403 for non-members or missing conversations; otherwise the message is stored at a fresh id, becomes the last message, is emitted to the room with its populated sender and is answered with 201 carrying the same message and sender |
| ChatApi.SendMessage | controllers/api_v1/chatApiController.js:42-86 | the method changes the store and events exactly as `SendOutcome` says |
| ChatApi.NewestComesFirst | controllers/api_v1/chatApiController.js:10-13 | in a list sorted newest first, the unique newest entry comes first |
| ChatApi.SendKeepsMembership | controllers/api_v1/chatApiController.js:68-69 | sending changes no conversation's membership |
| ChatApi.ListingHead | controllers/api_v1/chatApiController.js:8-37 | a member conversation strictly newer than all others heads the listing |
| ChatApi.SentConversationHeadsListing | controllers/api_v1/chatApiController.js:8-86 | after a message is sent, the conversation it was sent to heads the caller's listing |
| Auth.AuthSuccess | controllers/authController.js:8-18 | the reply is 200 with a token signed for the user and the user without password or 2FA secret |
| Auth.FindByEmail | controllers/authController.js:32 | none iff no user has the e-mail; otherwise the oldest user with it |
| Auth.FindByEmailUnique | controllers/authController.js:58-59 | with unique e-mails the lookup finds exactly the owner |
| Auth.Initial | controllers/authController.js:38 | the avatar is one character, the upper-cased first letter of the name |
| Auth.Registered | controllers/authController.js:38 | the registered user has the given fields and the hashed password |
| Auth.RegisterOutcome | controllers/authController.js:23-50 | 400 for a missing field, 400 for a taken e-mail; otherwise the user is stored at a fresh id and signed in (status 200) |
| Auth.RegisterUser | controllers/authController.js:23-50 | the method changes the store exactly as `RegisterOutcome` says |
| Auth.RegisterKeepsEmailsUnique | controllers/authController.js:32-38 | registration keeps e-mails unique |
| Auth.LoginOutcome | controllers/authController.js:55-81 | signed in iff the user exists and the password matches; a 2FA user gets `twoFactorRequired` with `generateToken(id)` instead of the sign-in body; it throws iff no password is sent for a user with one; otherwise 401 |
| Auth.RegisteredUserCanLogIn | controllers/authController.js:23-81 | a freshly registered user logs in with the registered password |
| Auth.Substring | controllers/authController.js:89 | `substring(from, to)` clamps both ends to the text |
| Auth.AnonymousName | controllers/authController.js:89 | the name starts with "User-" and has 5 to 11 characters |
| Auth.Anonymous | controllers/authController.js:88-93 | the anonymous user has no e-mail and no password and is marked anonymous |
| Auth.CreateAnonymousOutcome | controllers/authController.js:86-105 | the anonymous user is stored at a fresh id and signed in |
| Auth.CreateAnonymousUser | controllers/authController.js:86-105 | the method changes the store exactly as `CreateAnonymousOutcome` says |
| Auth.AnonymousInvisibleToLogin | controllers/authController.js:58-59 | creating an anonymous user changes no e-mail lookup |
| Auth.GenerateSecretOutcome | controllers/authController.js:119-140 | the secret is stored on an existing user; the QR code is returned, or 500 when it cannot be made |
| Auth.GenerateTwoFactorSecret | controllers/authController.js:119-140 | the method changes the store exactly as `GenerateSecretOutcome` says |
| Auth.VerifySetupOutcome | controllers/authController.js:145-169 | 400 without a secret or with a wrong token; otherwise 2FA is enabled |
| Auth.VerifyTwoFactorSetup | controllers/authController.js:145-169 | the method changes the store exactly as `VerifySetupOutcome` says |
| Auth.EnabledTwoFactorGatesLogin | controllers/authController.js:61-70 | once 2FA is enabled, a correct password yields the `twoFactorRequired` answer with `generateToken(id)` |
| Auth.TwoFactorFirstStepOpensSession | controllers/authController.js:65 | as written, the token of that answer is the session token a full sign-in issues, and `protect` accepts it as the user |
| Auth.LoginIntended | controllers/authController.js:61-70 | the intended login: a 2FA user gets a token signed for the second step only; every other answer is `loginUser`'s with session tokens |
| Auth.IntendedTempTokenOnlyForSecondStep | controllers/authController.js:61-70 | with that login, ordinary routes refuse the first step's token with 401 and /2fa/verify-login accepts it as the user |
| Auth.VerifyLoginOutcome | controllers/authController.js:174-195 | only a user with a stored secret can sign in, exactly when the code is accepted for it; a missing user throws; without a secret a well-formed code throws and any other is 401; every refusal is 401 "Invalid 2FA token." |
| Auth.NoSecretNeverSignsIn | controllers/authController.js:180-184 | without a stored secret no code signs in: the answer is a throw for a well-formed code, otherwise 401 |
| Auth.CandidateFormat | controllers/authController.js:180-184 | for every token: six decimal digits pass speakeasy's format checks and reach the secret decoding; a token not six UTF-16 units long, one starting with a letter, and a missing one are refused by them |
| Auth.DisableOutcome | controllers/authController.js:200-216 | a missing password throws for a user who has one, a wrong one is 401; otherwise 2FA is off and the secret is cleared |
| Auth.DisableTwoFactor | controllers/authController.js:200-216 | the method changes the store exactly as `DisableOutcome` says |
| Auth.DisableRestoresPasswordLogin | controllers/authController.js:55-81 | after 2FA is disabled, the password alone signs the user in again, and a new setup needs a new secret |
| Flags.ByNameIsPreorder | controllers/featureFlagController.js:9 | ordering by name is a total preorder |
| Flags.AdminOrder | controllers/featureFlagController.js:9 | the admin listing's order is a permutation of all flag ids |
| Flags.Entries | controllers/featureFlagController.js:7-14 | each listed entry carries its stored flag |
| Flags.AdminFlags | controllers/featureFlagController.js:7-14 | the admin listing shows every flag once, with its stored record |
| Flags.AdminFlagsByName | controllers/featureFlagController.js:9 | the admin listing is sorted by name |
| Flags.PublicFlags | controllers/featureFlagController.js:42-49 | the public listing shows every flag once, with only id, name and `isEnabled` |
| Flags.UpdateFlagOutcome | controllers/featureFlagController.js:19-37 | 404 for an unknown flag; otherwise only `isEnabled` changes, to true iff true was sent |
| Flags.UpdateFeatureFlag | controllers/featureFlagController.js:19-37 | the method changes the store exactly as `UpdateFlagOutcome` says |
| Flags.UpdateSeenPublicly | controllers/featureFlagController.js:19-49 | the public listing shows the updated value |
| Flags.UpdateKeepsNamesUnique | controllers/featureFlagController.js:29-30 | an update keeps flag names unique |
| Flags.GetSettingsOutcome | controllers/settingsController.js:7-31 | the stored settings, or the displayed defaults when there are none |
| Flags.FieldsInjective | controllers/settingsController.js:38 | the settings fields determine the settings record |
| Flags.Merge | controllers/settingsController.js:38-44 | each field the body sends replaces the stored one, and the others are kept, as Mongoose 6 and later drop undefined `$set` keys |
| Flags.UpdateSettingsOutcome | controllers/settingsController.js:36-51 | the upsert merges the body into the stored settings, or into the schema defaults when there are none |
| Flags.UpdateSettings | controllers/settingsController.js:36-51 | the method changes the store exactly as `UpdateSettingsOutcome` says |
| Flags.UpdateThenGet | controllers/settingsController.js:7-51 | a read after an update returns what the update answered, and repeating an update changes nothing |
| Flags.FirstUpdateDropsDisplayedDefaults | controllers/settingsController.js:13-44 | after the first update the about-us text and founder details are no longer shown |
| Gate.CheckMaintenance | middleware/maintenanceMiddleware.js:4-21 | with maintenance off or on the health path everything passes; otherwise only paths under /api/admin pass and the rest get 503 |
| Gate.AdminBypassIsByPrefix | middleware/maintenanceMiddleware.js:6-13 | any path starting with /api/admin passes during maintenance |
| Gate.Protect | middleware/authMiddleware.js:7-35 | 401 without a Bearer header, for a missing or failed token and for a missing user; otherwise the request proceeds as the token's user |
| Gate.BearerTokenAuthenticates | middleware/authMiddleware.js:10-25 | "Bearer t" authenticates exactly the user t names |
| Gate.ProtectFor | middleware/authMiddleware.js:7-35 | the guard the intended two-factor login needs: it passes iff the token's claim has the route's purpose and names an existing user, otherwise 401 |
| Gate.PurposeDecides | middleware/authMiddleware.js:10-25 | a "Bearer t" header passes a route iff t was issued for the route's purpose |
| Gate.AdminGuard | middleware/authMiddleware.js:38-44 | passes iff the user is an admin, otherwise 403 |
| Gate.CreatorGuard | middleware/authMiddleware.js:46-52 | passes iff the user is a creator or admin, otherwise 403 |
| Gate.AdminPassesCreator | middleware/authMiddleware.js:38-52 | whatever the admin guard passes, the creator guard passes |
| Gate.ProvidedKey | middleware/apiKeyAuthMiddleware.js:9-11 | the key is the second field of a Bearer header, otherwise none |
| Gate.FindKeyByHash | middleware/apiKeyAuthMiddleware.js:20 | none iff no key has the hash |
| Gate.ApiKeyAuthOutcome | middleware/apiKeyAuthMiddleware.js:6-49 | 401 without a key or with an unknown one, 403 for a disabled key, 401 "Invalid API Key owner." for a missing owner; otherwise the owner proceeds and only the key's usage count and last use change |
| Gate.DisabledBeforeOwner | middleware/apiKeyAuthMiddleware.js:26-36 | a disabled key is refused with 403 even when its owner is gone |
| Gate.AuthKeepsKeys | middleware/apiKeyAuthMiddleware.js:39-42 | authentication changes no key's hash, prefix, owner or activity |
| Gate.ApiKeyAuth | middleware/apiKeyAuthMiddleware.js:6-49 | the method changes the store exactly as `ApiKeyAuthOutcome` says |
| Admin.UpdateUserRoleOutcome | controllers/adminController.js:28-57 | 404 for an unknown user, 400 for an unknown role; otherwise the role is set and `isCreator` is true iff it is creator or admin |
| Admin.DemotionClearsCreator | controllers/adminController.js:43-44 | demoting a user to user clears `isCreator` |
| Admin.UpdateUserRole | controllers/adminController.js:28-57 | the method changes the store exactly as `UpdateUserRoleOutcome` says |
| Admin.MaintenanceMessage | controllers/adminController.js:83-89 | the message names the new state, enabled or disabled |
| Admin.ToggleMaintenanceMode | controllers/adminController.js:80-94 | the global flag is negated and the message names its new value |
| Admin.GetStats | controllers/adminController.js:100-115 | user count, total, tips, and sales equal to total minus tips (the sum of the non-tips); each is 0 without transactions |
| Admin.DailyChart | controllers/adminController.js:133-143 | thirty labels from 29 days ago to today, oldest first, each with its day's total or 0 |
| Admin.Statistics | controllers/adminController.js:100-158 | the totals and, for each of the thirty days, that day's revenue |
| Admin.FlaggedContent | controllers/adminController.js:163-175 | exactly the warned messages not dismissed, newest first |
| Admin.ModerateOutcome | controllers/adminController.js:180-213 | as intended: 404, or 400 for an unknown action; dismiss records the admin's dismissal; delete removes the message and tells its room |
| Admin.ModerateAsWritten | controllers/adminController.js:198-206 | as written under Mongoose 7: delete of a stored message throws (500), with the store and events unchanged; every other case is as intended |
| Admin.AsWrittenDeleteKeepsReport | controllers/adminController.js:198-206 | as written, deleting a flagged message answers 500 and it stays stored and flagged; as intended it is gone |
| Admin.ModerationClosesReport | controllers/adminController.js:165-209 | after either action the message is no longer listed as flagged |
| Admin.ModerateFlaggedContent | controllers/adminController.js:180-213 | the corrected handler, step by step: it changes the store and events exactly as `ModerateOutcome` says |
| Admin.VerificationOutcome | controllers/adminController.js:246-280 | 404, or 400 for an unknown action; approve and reject set flag and status together and notify the user's socket |
| Admin.VerifiedIffApproved | controllers/adminController.js:255-260 | after processing, a user is verified iff the status is verified |
| Admin.ProcessVerificationRequest | controllers/adminController.js:246-280 | the method changes the store and events exactly as `VerificationOutcome` says |
| Users.Merge | controllers/userController.js:14-26 | name, e-mail, theme and language fall back to the stored values; avatar, password and academic profile change only when sent, so an unsent password keeps the stored hash |
| Users.UpdateProfileOutcome | controllers/userController.js:9-43 | 404 for an unknown user; the save fails iff the schema or the unique e-mail refuses it; otherwise the merged, hashed record is stored and returned without password |
| Users.EmptyUpdateKeepsProfile | controllers/userController.js:14-28 | an empty body leaves the store unchanged, password hash included |
| Users.UpdateKeepsLogin | controllers/userController.js:21-28 | after an update without a password the stored hash is unchanged, and the old password logs in under the user's current e-mail |
| Users.ProfileResponseHidesPassword | controllers/userController.js:32-33 | the response never carries a password |
| Users.UpdateUserProfile | controllers/userController.js:9-43 | the method changes the store exactly as `UpdateProfileOutcome` says |
| Users.UpdatePresenceOutcome | controllers/userController.js:48-79 | 404, 400 for an unknown status; otherwise the presence is set (online and "" by default) and broadcast |
| Users.UpdateUserPresence | controllers/userController.js:48-79 | the method changes the store and events exactly as `UpdatePresenceOutcome` says |
| Users.SubmitOutcome | controllers/userController.js:99-130 | 404; 400 for anonymous users and for requests pending or verified; otherwise only the status becomes pending |
| Users.VerificationCycle | controllers/userController.js:106-116 | submit then approve verifies a user, who cannot submit again; a rejected user can |
| Users.SubmitForVerification | controllers/userController.js:99-130 | the method changes the store exactly as `SubmitOutcome` says |
| Developer.KeyShape | controllers/developerController.js:29 | a key is 60 characters: "whisspra_sk_" and 48 hex digits |
| Developer.PrefixOf | controllers/developerController.js:30 | the prefix is the first 19 characters of the key |
| Developer.FindKeyByPrefix | controllers/developerController.js:31 | none iff no key has the prefix |
| Developer.FirstFresh | controllers/developerController.js:28-37 | the retry loop stops at the first draw whose prefix is unused |
| Developer.CreateApiKeyOutcome | controllers/developerController.js:21-56 | the key of the first fresh draw is stored only as hash and prefix, owned by the caller, and returned once (201); a taken hash throws |
| Developer.CreateKeepsKeysUnique | controllers/developerController.js:28-45 | issuing a key keeps prefixes and hashes unique |
| Developer.CreatedKeyShape | controllers/developerController.js:29-51 | the returned key has the key shape and the stored prefix is its first 19 characters |
| Developer.CreateApiKey | controllers/developerController.js:21-56 | the method changes the store exactly as `CreateApiKeyOutcome` says |
| Developer.DrawFreshKey | controllers/developerController.js:27-37 | the loop returns the key of the first draw whose prefix is unused, and that prefix is not in the store |
| Developer.OwnKeyIds | controllers/developerController.js:11 | exactly the caller's keys, newest first |
| Developer.Views | controllers/developerController.js:11 | each listed key is shown without its hash |
| Developer.GetApiKeys | controllers/developerController.js:8-16 | the caller's keys only, newest first, without hashes |
| Developer.OwnKeysListed | controllers/developerController.js:11 | every key of the caller is listed |
| Developer.RevokeOutcome | controllers/developerController.js:62-83 | 404 for an unknown key; otherwise only that key's `isActive` becomes false |
| Developer.RevokeIdempotent | controllers/developerController.js:74-75 | revoking twice equals revoking once |
| Developer.RevokedKeyIsRefused | controllers/developerController.js:74 | a revoked key is refused with 403 by the API-key middleware |
| Developer.RevokeApiKey | controllers/developerController.js:62-83 | the method changes the store exactly as `RevokeOutcome` says |
| Upload.ContainedTypesAccepted | middleware/uploadMiddleware.js:16-31 | the tests are unanchored: an extension containing an allowed one, with a mimetype containing an allowed type, is accepted |
| Upload.ExtensionAccepted | middleware/uploadMiddleware.js:18-22 | an extension containing an allowed one passes the extension test |
| Upload.MimeAccepted | middleware/uploadMiddleware.js:19-23 | a mimetype containing an allowed type passes the mimetype test |
| Upload.UpperCaseMimetypeRefused | middleware/uploadMiddleware.js:23 | the mimetype is not lower-cased, so one without lower-case letters is refused |
| Upload.StoredNameKeepsExtension | middleware/uploadMiddleware.js:9-11 | the stored file keeps the uploaded file's extension |
| Upload.StoredNameStartsWithField | middleware/uploadMiddleware.js:11 | the stored name starts with "file-" |
| Upload.PartName | middleware/uploadMiddleware.js:40 | the parser's file name: no '/' or '\\', never "." or "..", and a plain name is kept as sent |
| Upload.Files | middleware/uploadMiddleware.js:40 | the parts under their base names, with empty-named parts skipped; none are left iff every part has an empty base name |
| Upload.Receive | middleware/uploadMiddleware.js:7-40 | no file iff every part has an empty base name; a file is stored iff exactly one named part remains, in field file, of an accepted type and within 10 MB; a refused type gives the filter's error |
| Upload.EmptyNameIsNoFile | routes/uploadRoutes.js:17-19 | a request whose only part has an empty file name gets 400 "No file selected!" |
| Upload.OnlyBaseNameCounts | middleware/uploadMiddleware.js:22-40 | the directories in a client's file name never change the outcome: the filter and the storage see the base name |
| Upload.UploadRoute | routes/uploadRoutes.js:11-28 | 400 with the parser's error or without a file; otherwise 200 with a url that starts with '/', has no backslash and is the stored path |
| Upload.UrlIndependentOfSeparator | routes/uploadRoutes.js:25 | the url is "/uploads/" followed by the name stored for the part's base name, with either path separator |
| Communities.FindCommunityByName | models/communityModel.js:5-9 | none iff no community has the name |
| Communities.CommunityChat | controllers/communityController.js:15-21 | the chat is a community group named like it, with the creator as its only participant and its admin |
| Communities.NewCommunity | controllers/communityController.js:24-31 | the community has the trimmed name, the creator as only member, its chat, and the given or default category |
| Communities.CreateCommunityOutcome | controllers/communityController.js:9-47 | the chat is always created; 400 for a taken name and 500 for an invalid body leave it orphaned; on success the two records point at each other (201) |
| Communities.AddChatKeepsLinks | controllers/communityController.js:15-21 | adding a chat nobody points at keeps every link |
| Communities.AddPairKeepsLinks | controllers/communityController.js:24-35 | a new community and chat pointing at each other keep every link |
| Communities.CreateKeepsLinks | controllers/communityController.js:9-47 | creation, successful or not, keeps every community linked to its chat |
| Communities.CreateKeepsNamesUnique | controllers/communityController.js:42-43 | creation keeps community names unique |
| Communities.CreateCommunity | controllers/communityController.js:9-47 | the method changes the store exactly as `CreateCommunityOutcome` says |
| Communities.NewestFirst | controllers/communityController.js:54-56 | every community once, newest first |
| Communities.Views | controllers/communityController.js:59-62 | each view carries the community, its creator's name and its member count |
| Communities.GetCommunities | controllers/communityController.js:52-68 | every community, newest first, with creator name and member count |
| Communities.EveryCommunityListed | controllers/communityController.js:54 | every community appears in the listing |
| Communities.JoinOutcome | controllers/communityController.js:73-109 | 404; otherwise the user is appended to the members when absent and added to the chat's participants as a set |
| Communities.JoinIdempotent | controllers/communityController.js:84-92 | joining twice equals joining once |
| Communities.JoinMakesMember | controllers/communityController.js:84-92 | after joining, the user is a member without duplicates and a participant of the chat |
| Communities.JoinKeepsLinks | controllers/communityController.js:73-109 | joining keeps every community linked to its chat |
| Communities.JoinCommunity | controllers/communityController.js:73-109 | the method changes the store exactly as `JoinOutcome` says |
| Commerce.CreateItemOutcome | controllers/marketplaceController.js:12-24 | the item belongs to the caller, has the trimmed title and the description, price (0 when missing), thumbnail and asset urls as sent, and is stored at a fresh id (201); one the schema refuses is a 500 and stores nothing |
| Commerce.CreateItem | controllers/marketplaceController.js:12-24 | the method changes the store exactly as `CreateItemOutcome` says |
| Commerce.PurchaseRecord | controllers/marketplaceController.js:63-71 | the purchase is paid from the buyer to the item's creator, for its price |
| Commerce.PurchaseOutcome | controllers/marketplaceController.js:43-82 | 400 without a payment id, 404 for an unknown item, 400 for a repeat purchase; otherwise one transaction is recorded, the item joins the buyer's purchases and the buyer is returned without password and 2FA secret |
| Commerce.PurchaseReplyHidesSecrets | controllers/marketplaceController.js:57-78 | the purchase reply carries no password hash or 2FA secret, while the stored buyer keeps both |
| Commerce.SecondPurchaseRefused | controllers/marketplaceController.js:57-61 | a second purchase of the same item is refused and records nothing |
| Commerce.PurchaseItem | controllers/marketplaceController.js:43-82 | the method changes the store exactly as `PurchaseOutcome` says |
| Commerce.TipRecord | controllers/creatorController.js:34-42 | the tip is paid from the tipper to the creator, for its amount |
| Commerce.CreateTipOutcome | controllers/creatorController.js:10-55 | 400 for missing fields (a zero amount counts as missing) and for non-positive amounts, 404 for a non-creator; otherwise the tip is recorded (201) |
| Commerce.CreateTip | controllers/creatorController.js:10-55 | the method changes the store exactly as `CreateTipOutcome` says |
| Commerce.PaidIds | controllers/creatorController.js:62 | exactly the transactions paid to the user, in creation order |
| Commerce.Amounts | controllers/creatorController.js:66 | the amounts of the listed transactions, in order |
| Commerce.GetEarnings | controllers/creatorController.js:60-78 | the transactions paid to the caller, newest first; the count and the total equal the count and the `$sum` of the transactions matching `toUser` |
| Commerce.EarningsFromLedger | controllers/creatorController.js:62-66 | the paid-to list has the filter's count, and its amounts newest first add up to the filter's sum |
| Commerce.SumMatching | controllers/creatorController.js:66 | the running sum over matching transactions equals the plain sum of their amounts |
| Commerce.SumLatest | controllers/creatorController.js:64-66 | listing newest first does not change the sum of the amounts |
| Commerce.PaidIdsInsert | controllers/creatorController.js:62 | a new transaction comes last among its recipient's and appears among no one else's |
| Commerce.PaymentCounts | controllers/creatorController.js:62-72 | a new payment to a user heads their earnings and adds its amount to the total |
| Commerce.SumFront | controllers/creatorController.js:66 | the total over a list with one more transaction in front |
| Commerce.OtherPaymentIgnored | controllers/creatorController.js:62-72 | a payment to someone else leaves a user's earnings unchanged |
| Commerce.AmountsFrame | controllers/creatorController.js:66 | the amounts depend only on the listed transactions |
| Commerce.TipPaysCreator | controllers/creatorController.js:34-72 | a tip raises the creator's earnings by exactly its amount |
| Commerce.PurchasePaysCreator | controllers/marketplaceController.js:63-71 | a purchase raises the seller's earnings by exactly the item's price |
| Edu.NewestTextIds | controllers/eduController.js:16-21 | the conversation's newest 20 (or fewer) text messages, oldest first |
| Edu.NewestTextIdsAreNewest | controllers/eduController.js:17-20 | no text message is left out in favour of an older one |
| Edu.SuffixIsNewest | controllers/eduController.js:19-21 | in an increasing list, an element outside the last n is smaller than all of them |
| Edu.HistoryLinesForAI | controllers/eduController.js:21 | one "name: content" line per selected message; it fails iff a sender is gone |
| Edu.SendersOf | controllers/eduController.js:18 | a populated entry has a sender iff the sender is stored |
| Edu.ChatHistoryForAI | controllers/eduController.js:16-22 | the history is the lines joined by newlines |
| Edu.GetQuizQuestions | controllers/eduController.js:24-57 | a history with a missing sender throws, one under 100 UTF-16 units is 400; otherwise the model's questions iff it answers |
| Edu.UpdateTaskOutcome | controllers/eduController.js:102-113 | 404 for an unknown task; otherwise only `isCompleted` changes, to true iff true was sent |
| Edu.UpdateTaskIdempotent | controllers/eduController.js:107 | sending the same value twice equals sending it once |
| Edu.UpdateStudyTask | controllers/eduController.js:102-113 | the method changes the store exactly as `UpdateTaskOutcome` says |
| Edu.AddFlashcardOutcome | controllers/eduController.js:131-142 | 404 for an unknown deck; a card missing front or back fails validation and changes nothing; otherwise the card is stored and appended to its deck (201) |
| Edu.AddFlashcardKeepsLinks | controllers/eduController.js:137-139 | every deck's cards stay stored and point back to their deck |
| Edu.AddFlashcard | controllers/eduController.js:131-142 | the method changes the store exactly as `AddFlashcardOutcome` says |
| Edu.ResourceType | controllers/eduController.js:173 | video, image, or document by the mimetype's prefix |
| Edu.FileUrl | controllers/eduController.js:178 | the url is '/' and the path, with forward slashes |
| Edu.CreateResourceOutcome | controllers/eduController.js:168-186 | 400 without a file; a blank title or a nameless file fails validation and changes nothing; otherwise the resource is stored with the trimmed title, its type and url, uploaded by the caller (201) |
| Edu.CreateCommunityResource | controllers/eduController.js:168-186 | the method changes the store exactly as `CreateResourceOutcome` says |
| Edu.LowerAll | controllers/eduController.js:194 | the case-insensitive pattern compares lower-cased texts |
| Edu.FirstN | controllers/eduController.js:201 | `limit(n)` keeps the first n in order |
| Edu.SmartFeedAsWritten | controllers/eduController.js:189-218 | the views of the first five relevant communities, members or not, in increasing id order |
| Edu.AsWrittenIds | controllers/eduController.js:196-201 | at most five increasing relevant ids, all of them when fewer than five |
| Edu.RelevantIds | controllers/eduController.js:192-199 | exactly the relevant communities, in store order |
| Edu.AsWrittenShortFeedIsComplete | controllers/eduController.js:196-201 | a short feed as written lists every relevant community |
| Edu.AsWrittenRecommendsJoined | controllers/eduController.js:196 | the feed as written recommends a community the caller already belongs to |
| Edu.Candidates | controllers/eduController.js:195-200 | exactly the relevant communities the caller is not a member of |
| Edu.FeedIds | controllers/eduController.js:193-207 | at most five ids, increasing, each of a relevant community the caller is not in; fewer than five only when that is every such community |
| Edu.SmartFeed | controllers/eduController.js:189-218 | at most five relevant communities the caller is not in, in store order, each with its member count |
| Edu.ShortFeedIsComplete | controllers/eduController.js:195-201 | a feed shorter than five contains every eligible community |
| Ai.EntriesOf | controllers/aiController.js:266-272 | the populated entries of the listed messages, in order |
| Ai.ConversationIds | controllers/aiController.js:266-272 | exactly the conversation's messages, oldest first |
| Ai.ConversationTextIds | controllers/aiController.js:371-376 | exactly the conversation's text messages, oldest first |
| Ai.LastN | controllers/aiController.js:212-215 | sort descending, limit n, reverse: the newest n, oldest first |
| Ai.KeptIndices | controllers/aiController.js:11-16 | the positions of the text messages that have a sender, in order |
| Ai.HistoryLines | controllers/aiController.js:11-16 | one "name: content" line per kept message, in order |
| Ai.AppendKept | controllers/aiController.js:11-16 | a kept message adds exactly its line to the history |
| Ai.AppendDropped | controllers/aiController.js:11-16 | a dropped message leaves the history unchanged |
| Ai.SummaryLines | controllers/aiController.js:71-74 | it fails iff a text message has no sender id |
| Ai.SummaryLinesIndexed | controllers/aiController.js:71-74 | one line per text message, in order: "User ", the first four characters of the sender id, ": " and the text |
| Ai.GenerateSummary | controllers/aiController.js:67-84 | 400 without messages; 500 when a text message has no sender; the canned reply for a history under 20 UTF-16 units; otherwise the model's summary iff it answers, else 500 |
| Ai.VibeAllLines | controllers/aiController.js:93-96 | it fails iff a direct chat has no other user |
| Ai.TextLinesAs | controllers/aiController.js:93-96 | at most one line per message |
| Ai.TextIndices | controllers/aiController.js:94 | exactly the positions of the text messages, in increasing order |
| Ai.TextLinesAsIndexed | controllers/aiController.js:93-96 | one line per text message, in order: the caller's under their name, the others under the other person's |
| Ai.VibeLines | controllers/aiController.js:96 | `slice(-10)`: the last ten lines at most |
| Ai.GenerateVibeReplies | controllers/aiController.js:89-130 | the model's replies (none when it gives none), or 500 |
| Ai.GetRoomSummary | controllers/aiController.js:136-164 | 403 outside cognitive rooms; the canned reply under 50 UTF-16 units; otherwise the model's summary iff it answers, else 500 |
| Ai.AskRoomMemory | controllers/aiController.js:169-200 | 400 without a question, 403 outside cognitive rooms; otherwise the model's answer |
| Ai.UserTextIds | controllers/aiController.js:212-215 | exactly the user's text messages, oldest first |
| Ai.TrainingSamples | controllers/aiController.js:212-215 | the user's latest 100 (or fewer) text messages, newest first |
| Ai.TrainAiTwinOutcome | controllers/aiController.js:205-252 | 404; 400 under ten samples; otherwise the style profile and training time are stored and the user is returned without password |
| Ai.TrainAiTwin | controllers/aiController.js:205-252 | the method changes the store exactly as `TrainAiTwinOutcome` says |
| Ai.NamedLines | controllers/aiController.js:266-272 | one line per message; it fails iff a sender is gone |
| Ai.AiTwinSuggestion | controllers/aiController.js:257-299 | 400 without a trained twin; otherwise the model's suggestion from the last ten messages |
| Ai.GenerateContract | controllers/aiController.js:355-417 | 404 for non-participants, 400 for groups and for histories under 100 UTF-16 units, 500 when the history cannot be built; otherwise the model's answer iff it answers, else 500 |

## Left out

- Socket transport is left out: connection handshakes, room joins (`socket.join`) and delivery. Emits are recorded as an event log.
- The `updateMessageStatus` socket handler is left out: it only logs.
- The Gemini prompts and the parsing of the model's JSON are left out. A handler receives the parsed answer, or `None` when the call or the parse failed.
- Dispatch.AutoReplyOutcome: takes the value the AI-twin promise resolved with as a parameter; `Dispatch.AutoReplyAsWritten` and `Dispatch.AutoReplyIntended` supply it (see Findings). The error `.catch` logs is not modelled.
- Bcrypt, JWT, TOTP, QR codes, SHA-256 and the random sources are parameters, because they are foreign calls.
- The payment, whisperNet, system, dreamscape and storefront controllers are outside this model.
- `logActivity` and the logger write only logs, so they are left out.
- `getMe`, `getExplanation`, `getStudyTasks`, `createStudyTask`, the deck and notice handlers, `getVibeMatches`, `getItems`, `getTransactions`, `getPendingVerifications`, `getActivityLogs` and the two user listings are plain queries or random scores. They are outside the operations modelled.
- Edu.SmartFeed: the three newest notices that `getSmartFeed` adds to the feed are not modelled.
- Regular expressions are modelled as unanchored alternations of literal words, with '.' matching any character except the JavaScript line terminators (line feed, carriage return, U+2028, U+2029). Other special characters in subjects are not interpreted.
- Edu.Candidates: `getSmartFeed`'s pattern runs inside MongoDB, where '.' excludes only the line feed; the model uses the JavaScript rule, so a subject with '.' facing a carriage return, U+2028 or U+2029 is not modelled.
- Text.Take: counts characters by code point, where `substring` counts UTF-16 units; the two differ only for characters outside the Basic Multilingual Plane, which a client-sent sender id in `generateSummary` could hold.
- Auth.Initial: `charAt(0)` of a name starting with a character outside the Basic Multilingual Plane is half a surrogate pair in the source; the model keeps the whole character.
- Case mapping is ASCII only. Characters whose upper or lower case is longer than one character are not modelled.
- Time stamps are integers, days are whole numbers, and their ISO rendering is not modelled.
- Amounts are integers. Floating-point prices and tips are not modelled.
- Multer's internals (streams, disk writes) are not modelled. The fallback sort of `getSmartFeed` by the non-stored `memberCount` keeps store order.
- Edu.SmartFeedAsWritten: assumes that Mongoose passes an undefined `$nin` operand as excluding nothing.
- Store and driver failures are not modelled: stored collections are total maps, so a rejected `findOne`, `findById` or `updateOne` never happens, and the catch blocks that answer 500 or call `next(error)` for one are reached only through the failures the model names (a thrown lookup of a missing record, a refused validation or save).
- Gate.ApiKeyAuthOutcome: a rejected `ApiKey.findOne` or `User.findById` is not modelled, so the catch that answers 500 "Server error during API Key authentication." is unreachable; the usage update is awaited in the model, where the source lets it run on and only logs its failure.
- Flags.Merge: relies on Mongoose 6 and later dropping undefined `$set` keys; under Mongoose 5 and earlier each field the body omits would be stored as null.
- Flags.UpdateSettingsOutcome: relies on the same behaviour of Mongoose 6 and later; under Mongoose 5 and earlier the omitted fields would be cleared.
- Flags.UpdateFlagOutcome: the reply shows `isEnabled` as false when the body omits it; the source's reply body then has no `isEnabled` key.
- Edu.UpdateTaskOutcome: the reply shows `isCompleted` as false when the body omits it; the source's reply body then has no `isCompleted` key.
- Ai.GenerateVibeReplies: the conversation and the current user are parameters, so a body without `conversation` or `currentUser`, or a `conversation` without `messages`, each of which makes the source throw and answer 500, is not modelled.
- Developer.CreateApiKeyOutcome: covers only runs whose draws eventually give an unused prefix; once all 16^7 prefixes ("whisspra_sk_" and seven hex digits) are taken, the source's loop never ends, and the model's `Supply` precondition excludes such runs.
- Models.User: the user fields `bio`, `followers` (default 0), `studyProfile`, `currency` (default "usd"), `storefrontSettings`, `whisprTokenBalance` (default 0) and the `createdAt`/`updatedAt` timestamps are not modelled, because no modelled handler reads or changes them; for the same reason `Chat.ParticipantView` omits the `followers`, `bio`, `createdAt` and `isOnline` that the chat routes select for each participant.
- Auth.LoginOutcome: the e-mail is assumed to be a string. An object query (operator injection) is not modelled.
- Text.ToLower: does not model Unicode case mapping, only ASCII.

## Findings

| source | as written | input that shows it | evidently intended | confidence | as-written member | corrected member |
|---|---|---|---|---|---|---|
| server.js:199 | calls the Express handler `getAiTwinReplySuggestion(req, res, next)` with a conversation id and a user record; reading `req.params` of a string throws, the catch calls the `next` that was never passed, so the promise rejects and `.catch` only logs; a real request would resolve with `undefined` as well | any message to a chat whose first other participant has auto-reply enabled and is away: no twin reply is stored or emitted | store and emit the twin's suggestion for that participant | not executed | Dispatch.AsWrittenTwinNeverReplies | Dispatch.AutoReplyIntended |
| controllers/authController.js:65 | the "temporary" token is `generateToken(user._id)`, the session token itself, and `protect` accepts it on every protected route | a user with 2FA enabled logs in with the right password and sends the `tempToken` as a Bearer token to any protected route: it passes as that user without a TOTP code | a token that only /2fa/verify-login accepts | not executed | Auth.TwoFactorFirstStepOpensSession | Auth.IntendedTempTokenOnlyForSecondStep |
| controllers/adminController.js:200 | `message.remove()`, which Mongoose 7 and later no longer provide, so the delete action throws into the catch block | an admin sends `delete` for a stored flagged message: the answer is 500, the message stays stored and flagged, and its room is not told | delete the message (`deleteOne`) and tell its room | not executed; holds for Mongoose 7 and later | Admin.AsWrittenDeleteKeepsReport | Admin.ModerateOutcome |
| controllers/eduController.js:196 | the exclusion filter reads `user.communities`, a field the user record does not have, so it excludes nothing | a store whose only community has the caller as a member, and a caller without subjects: the feed recommends that community | recommend only communities the caller is not a member of | not executed | Edu.AsWrittenRecommendsJoined | Edu.SmartFeed |
