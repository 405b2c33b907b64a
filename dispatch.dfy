/** The real-time side of server.js: the socket registry, the `sendMessage`
    socket handler with its safety-scan and AI-twin triggers, the safety scan
    itself (`performSafetyScan` of controllers/aiController.js) and the
    feature-flag seeding run at start-up. */
module Dispatch {
  import opened Common
  import opened Text
  import opened Models
  import opened Store
  import Ai

  // ---------------------------------------------------------------------
  // Socket registry (`userSocketMap`)

  /** A connection registers the user's socket, replacing any earlier socket
      of the same user, and announces the user online to everybody. */
  method Connect(srv: Server, userId: Id, socket: SocketId)
    modifies srv`sockets, srv`events
    ensures srv.sockets == old(srv.sockets)[userId := socket]
    ensures srv.events == old(srv.events) + [Emit(Everyone, UserStatus(userId, true, None))]
  {
    srv.sockets := srv.sockets[userId := socket];
    srv.events := srv.events + [Emit(Everyone, UserStatus(userId, true, None))];
  }

  /** The user record after `findByIdAndUpdate(id, { lastSeen })`; a missing
      user is left missing. */
  function Touch(users: map<Id, User>, userId: Id, now: int): (r: map<Id, User>)
    ensures r.Keys == users.Keys
    ensures userId in users ==> r[userId] == users[userId].(lastSeen := Some(now))
    ensures forall k :: k in users && k != userId ==> r[k] == users[k]
  {
    if userId in users then users[userId := users[userId].(lastSeen := Some(now))] else users
  }

  /** A disconnect removes the user's registry entry (whichever of the user's
      sockets closed: the entry is keyed by user alone), stores the time as
      lastSeen and broadcasts that same time. */
  method Disconnect(srv: Server, userId: Id, now: int)
    modifies srv`sockets, srv`events, srv`db
    ensures srv.sockets == old(srv.sockets) - {userId}
    ensures srv.db == old(srv.db).(users := Touch(old(srv.db.users), userId, now))
    ensures srv.events == old(srv.events) + [Emit(Everyone, UserStatus(userId, false, Some(now)))]
  {
    srv.sockets := srv.sockets - {userId};
    srv.db := srv.db.(users := Touch(srv.db.users, userId, now));
    srv.events := srv.events + [Emit(Everyone, UserStatus(userId, false, Some(now)))];
  }

  // ---------------------------------------------------------------------
  // sendMessage

  /** The payload of a `sendMessage` socket event. */
  datatype SocketMessage = SocketMessage(
    conversationId: Id,
    content: Option<string>,
    messageType: Option<string>,
    duration: Option<int>,
    fileName: Option<string>,
    fileSize: Option<int>,
    releaseAt: Option<int>)

  /** The pattern /https?:\/\// as its two literal alternatives. */
  const UrlPattern: seq<string> := ["http://", "https://"]

  /** `needsScan`: images, and texts in which the URL pattern occurs. (A
      missing content is tested as the text "undefined", which never
      matches.) */
  predicate NeedsScan(messageType: string, content: Option<string>) {
    messageType == "image" || (messageType == "text" && content.Some? && RegexTest(UrlPattern, content.value))
  }

  /** A message needs a scan exactly when it is an image, or a text that
      contains "http://" or "https://". */
  lemma NeedsScanIff(messageType: string, content: Option<string>)
    ensures NeedsScan(messageType, content) <==>
      messageType == "image" ||
      (messageType == "text" && content.Some? &&
       (Contains(content.value, "http://") || Contains(content.value, "https://")))
  {
    if content.Some? {
      RegexTestLiterals(UrlPattern, content.value);
      if exists k :: 0 <= k < |UrlPattern| && Contains(content.value, UrlPattern[k]) {
        var k :| 0 <= k < |UrlPattern| && Contains(content.value, UrlPattern[k]);
        assert k == 0 || k == 1;
      }
      if Contains(content.value, "http://") {
        assert Contains(content.value, UrlPattern[0]);
      }
      if Contains(content.value, "https://") {
        assert Contains(content.value, UrlPattern[1]);
      }
    }
  }

  /** `messageData`: the object handed to `Message.create`. */
  function MessageData(sender: Id, data: SocketMessage): (d: MessageDraft)
    ensures d.conversationId == data.conversationId && d.senderId == sender && d.content == data.content
    ensures d.readStatus == Some("sent") && !d.isAiTwinMessage
    ensures d.messageType == Some(if data.messageType.Some? then data.messageType.value else "text")
    ensures d.safetyStatus == Some(if NeedsScan(d.messageType.value, data.content) then "pending" else "safe")
    ensures d.duration == data.duration && d.fileName == data.fileName && d.fileSize == data.fileSize
    ensures d.releaseAt == data.releaseAt && d.relatedConversationId.None? && d.systemParticipants == []
  {
    var kind := if data.messageType.Some? then data.messageType.value else "text";
    MessageDraft(data.conversationId, sender, data.content, Some(kind), data.duration, data.fileName,
                 data.fileSize, data.releaseAt, Some("sent"),
                 Some(if NeedsScan(kind, data.content) then "pending" else "safe"), None, [], false)
  }

  /** `participants.find(p => p._id !== sender)` over the populated list:
      the first participant other than the sender whose user still exists
      (`populate` drops the others). */
  function FirstOther(users: map<Id, User>, participants: seq<Id>, sender: Id): (r: Option<Id>)
    ensures r.None? <==> forall i :: 0 <= i < |participants| ==> participants[i] !in users || participants[i] == sender
    ensures r.Some? ==> r.value in users && r.value != sender
    ensures r.Some? ==>
      exists i :: (0 <= i < |participants| && participants[i] == r.value &&
                   forall j :: 0 <= j < i ==> participants[j] !in users || participants[j] == sender)
  {
    if participants == [] then None
    else if participants[0] in users && participants[0] != sender then Some(participants[0])
    else
      var r := FirstOther(users, participants[1..], sender);
      assert forall i :: 1 <= i < |participants| ==> participants[i] == participants[1..][i - 1];
      r
  }

  /** The AI-twin trigger: that first other participant, provided the
      participant has auto-reply enabled and is away or busy. */
  function AutoReplyTarget(users: map<Id, User>, participants: seq<Id>, sender: Id): (r: Option<Id>)
    ensures r.Some? ==> r.value in participants && r.value != sender && r.value in users
    ensures r.Some? ==> users[r.value].isAiTwinAutoReplyEnabled
    ensures r.Some? ==> users[r.value].presence.status in ["away", "busy"]
    ensures r.Some? <==>
      var first := FirstOther(users, participants, sender);
      first.Some? && users[first.value].isAiTwinAutoReplyEnabled &&
      users[first.value].presence.status in ["away", "busy"]
    ensures r.Some? ==> r == FirstOther(users, participants, sender)
  {
    var first := FirstOther(users, participants, sender);
    if first.Some? && users[first.value].isAiTwinAutoReplyEnabled && users[first.value].presence.status in ["away", "busy"]
    then first else None
  }

  /** Only the first other participant is considered: a later one who is
      away with auto-reply enabled does not trigger a reply when the first is
      not. */
  lemma OnlyFirstRecipientCounts(users: map<Id, User>, sender: Id, a: Id, b: Id)
    requires a != sender && b != sender && a in users && b in users
    requires !users[a].isAiTwinAutoReplyEnabled
    ensures AutoReplyTarget(users, [sender, a, b], sender).None?
  {
    assert FirstOther(users, [sender, a, b], sender) == Some(a) by {
      assert [sender, a, b][1..] == [a, b];
    }
  }

  /** What the handler started besides storing and emitting the message: the
      asynchronous safety scan (only with an AI client configured) and the
      AI-twin request for the trigger's recipient. */
  datatype Dispatched = Dispatched(messageId: Id, data: MessageDraft, scan: bool, twin: Option<Id>)

  datatype Sent = Sent(db: Db, events: seq<Event>, dispatched: Option<Dispatched>)

  /** The `sendMessage` handler. Its only check is that the conversation
      exists: the sender need not be a participant. A draft that fails the
      schema (no content, a type outside the enum) throws inside the `try`
      and is only logged. */
  function SendMessageOutcome(db: Db, sender: Id, data: SocketMessage, aiConfigured: bool): (r: Sent)
    ensures data.conversationId !in db.conversations ==> r == Sent(db, [], None)
    ensures r.dispatched.Some? <==>
      data.conversationId in db.conversations && CreateMessage(MessageData(sender, data)).Some?
    ensures r.dispatched.None? ==> r.db == db && r.events == []
    ensures r.dispatched.Some? ==>
      var id := r.dispatched.value.messageId;
      var m := CreateMessage(MessageData(sender, data)).value;
      && id !in db.messages
      && m.senderId == sender && m.readStatus == "sent" && m.conversationId == data.conversationId
      && (m.safety.status == "pending" <==> NeedsScan(m.messageType, data.content))
      && (m.safety.status == "safe" <==> !NeedsScan(m.messageType, data.content))
      && r.db == db.(messages := db.messages[id := m],
                     conversations := db.conversations[data.conversationId :=
                       db.conversations[data.conversationId].(lastMessage := Some(id))])
      && r.events == [Emit(Room(data.conversationId), NewMessage(id, m, SenderOf(db.users, sender)))]
      && r.dispatched.value.scan == (aiConfigured && NeedsScan(m.messageType, data.content))
      && r.dispatched.value.twin ==
           AutoReplyTarget(db.users, db.conversations[data.conversationId].participants, sender)
  {
    if data.conversationId !in db.conversations then Sent(db, [], None)
    else
      var c := db.conversations[data.conversationId];
      var d := MessageData(sender, data);
      var created := CreateMessage(d);
      if created.None? then Sent(db, [], None)
      else
        var m := created.value;
        var id := NextId(db.messages);
        var db1 := db.(messages := db.messages[id := m],
                       conversations := db.conversations[data.conversationId := c.(lastMessage := Some(id))]);
        Sent(db1, [Emit(Room(data.conversationId), NewMessage(id, m, SenderOf(db.users, sender)))],
             Some(Dispatched(id, d, aiConfigured && NeedsScan(m.messageType, data.content),
                             AutoReplyTarget(db.users, c.participants, sender))))
  }

  method SendMessage(srv: Server, sender: Id, data: SocketMessage, aiConfigured: bool) returns (dispatched: Option<Dispatched>)
    modifies srv`db, srv`events
    ensures var r := SendMessageOutcome(old(srv.db), sender, data, aiConfigured);
      srv.db == r.db && srv.events == old(srv.events) + r.events && dispatched == r.dispatched
  {
    if data.conversationId !in srv.db.conversations {
      return None;
    }
    var conversation := srv.db.conversations[data.conversationId];
    var users := srv.db.users;
    var messageData := MessageData(sender, data);
    var created := CreateMessage(messageData);
    if created.None? {
      return None;
    }
    var message := created.value;
    var id := NextId(srv.db.messages);
    srv.db := srv.db.(messages := srv.db.messages[id := message]);
    srv.db := srv.db.(conversations := srv.db.conversations[data.conversationId := conversation.(lastMessage := Some(id))]);
    srv.events := srv.events + [Emit(Room(data.conversationId), NewMessage(id, message, SenderOf(users, sender)))];
    var scan := aiConfigured && NeedsScan(message.messageType, data.content);
    var twin := AutoReplyTarget(users, conversation.participants, sender);
    dispatched := Some(Dispatched(id, messageData, scan, twin));
  }

  /** `aiMessageData`: the original message data with the recipient as
      sender, the suggestion as content and the (schema-unknown)
      `isAiTwinMessage` mark. */
  function ReplyDraft(data: MessageDraft, recipient: Id, suggestion: string): (d: MessageDraft)
    ensures d.senderId == recipient && d.content == Some(suggestion) && d.isAiTwinMessage
    ensures d.(senderId := data.senderId, content := data.content, isAiTwinMessage := data.isAiTwinMessage) == data
  {
    data.(senderId := recipient, content := Some(suggestion), isAiTwinMessage := true)
  }

  /** The stored reply is the stored original with only sender and content
      replaced: same type, file fields, read status and safety status. */
  lemma ReplyShape(data: MessageDraft, recipient: Id, suggestion: string)
    requires CreateMessage(data).Some? && suggestion != ""
    ensures CreateMessage(ReplyDraft(data, recipient, suggestion)) ==
      Some(CreateMessage(data).value.(senderId := recipient, content := suggestion))
  {
    CreateIgnoresAiTwinMark(data.(senderId := recipient, content := Some(suggestion)), true);
  }

  /** The `.then` body of the AI-twin request, given the value its promise
      resolved with: nothing when that value is falsy; otherwise the reply
      draft is stored, becomes the conversation's last message and is
      emitted to the room. No other collection changes. */
  function AutoReplyOutcome(db: Db, data: MessageDraft, recipient: Id, suggestion: Option<string>): (r: Sent)
    ensures !Truthy(suggestion) ==> r == Sent(db, [], None)
    ensures r.dispatched.Some? ==> Truthy(suggestion)
    ensures r.dispatched.Some? <==> Truthy(suggestion) && CreateMessage(ReplyDraft(data, recipient, suggestion.value)).Some?
    ensures r.dispatched.None? ==> r.db == db && r.events == []
    ensures r.db == db.(messages := r.db.messages, conversations := r.db.conversations)
    ensures data.conversationId !in db.conversations ==> r.db.conversations == db.conversations
    ensures r.dispatched.Some? ==>
      var id := r.dispatched.value.messageId;
      var m := CreateMessage(ReplyDraft(data, recipient, suggestion.value)).value;
      && id !in db.messages
      && r.db.messages == db.messages[id := m]
      && r.events == [Emit(Room(data.conversationId), NewMessage(id, m, SenderOf(db.users, recipient)))]
      && (data.conversationId in db.conversations ==>
            r.db.conversations == db.conversations[data.conversationId :=
              db.conversations[data.conversationId].(lastMessage := Some(id))])
      && !r.dispatched.value.scan
  {
    if !Truthy(suggestion) then Sent(db, [], None)
    else
      var d := ReplyDraft(data, recipient, suggestion.value);
      var created := CreateMessage(d);
      if created.None? then Sent(db, [], None)
      else
        var m := created.value;
        var id := NextId(db.messages);
        var convs := if data.conversationId in db.conversations
          then db.conversations[data.conversationId := db.conversations[data.conversationId].(lastMessage := Some(id))]
          else db.conversations;
        Sent(db.(messages := db.messages[id := m], conversations := convs),
             [Emit(Room(data.conversationId), NewMessage(id, m, SenderOf(db.users, recipient)))],
             Some(Dispatched(id, d, false, None)))
  }

  method DeliverAutoReply(srv: Server, data: MessageDraft, recipient: Id, suggestion: Option<string>) returns (reply: Option<Dispatched>)
    modifies srv`db, srv`events
    ensures var r := AutoReplyOutcome(old(srv.db), data, recipient, suggestion);
      srv.db == r.db && srv.events == old(srv.events) + r.events && reply == r.dispatched
  {
    if !Truthy(suggestion) {
      return None;
    }
    var aiMessageData := ReplyDraft(data, recipient, suggestion.value);
    var created := CreateMessage(aiMessageData);
    if created.None? {
      return None;
    }
    var id := NextId(srv.db.messages);
    srv.db := srv.db.(messages := srv.db.messages[id := created.value]);
    if data.conversationId in srv.db.conversations {
      var c := srv.db.conversations[data.conversationId];
      srv.db := srv.db.(conversations := srv.db.conversations[data.conversationId := c.(lastMessage := Some(id))]);
    }
    srv.events := srv.events + [Emit(Room(data.conversationId), NewMessage(id, created.value, SenderOf(srv.db.users, recipient)))];
    reply := Some(Dispatched(id, aiMessageData, false, None));
  }

  /** What server.js:199 hands to the Express handler in the place of its
      request: the conversation id string itself; `Request` is the shape
      the route gives it (`params.conversationId` and `user`). */
  datatype HandlerArg = IdString(id: Id) | Request(conversationId: Id, user: Id)

  /** How the promise of a direct call to an `async (req, res, next)`
      handler settles. */
  datatype Settled = Rejected | Resolved(value: Option<string>)

  /** Calling `getAiTwinReplySuggestion` as a plain function. Given a bare
      string, `req.params` is undefined and destructuring it throws; the
      catch block then calls `next`, which was never passed, and throws
      again, so the promise rejects. Given a real request, the handler
      answers through `res` and returns nothing, so its promise resolves
      with `undefined`. Either way no suggestion text comes back. */
  function TwinHandlerCall(arg: HandlerArg): (s: Settled)
    ensures s.Rejected? <==> arg.IdString?
    ensures s.Resolved? ==> s.value.None?
  {
    if arg.IdString? then Rejected else Resolved(None)
  }

  /** The AI-twin request and its continuation as server.js:199-208 write
      them: a rejection is only logged by `.catch`; a resolved value is the
      `suggestion` the `.then` body tests. */
  function AutoReplyAsWritten(db: Db, data: MessageDraft, recipient: Id, arg: HandlerArg): (r: Sent)
    ensures TwinHandlerCall(arg).Rejected? ==> r == Sent(db, [], None)
    ensures TwinHandlerCall(arg).Resolved? ==> r == AutoReplyOutcome(db, data, recipient, TwinHandlerCall(arg).value)
  {
    match TwinHandlerCall(arg)
    case Rejected => Sent(db, [], None)
    case Resolved(suggestion) => AutoReplyOutcome(db, data, recipient, suggestion)
  }

  /** As written the AI twin never answers: whatever is handed to the
      handler, the auto-reply stores nothing and emits nothing. */
  lemma {:induction false} AsWrittenTwinNeverReplies(db: Db, data: MessageDraft, recipient: Id, arg: HandlerArg)
    ensures AutoReplyAsWritten(db, data, recipient, arg) == Sent(db, [], None)
  {
    var s := TwinHandlerCall(arg);
    if s.Resolved? {
      assert !Truthy(s.value);
    }
  }

  /** The auto-reply as intended: the suggestion is what the twin route
      computes for the recipient in this conversation (`Ai.AiTwinSuggestion`
      with the model's `answer`), and a failed request is only logged. The
      reply is stored and emitted exactly when the recipient's twin is
      trained, the history builds, the model answers with a non-empty text
      and the draft passes the schema. */
  function AutoReplyIntended(db: Db, data: MessageDraft, recipient: Id, answer: Option<string>): (r: Sent)
    ensures r.dispatched.Some? <==>
      && recipient in db.users && Truthy(db.users[recipient].aiTwinStyleProfile)
      && Ai.NamedLines(Ai.EntriesOf(db, Ai.LastN(Ai.ConversationIds(db, data.conversationId), 10))).Some?
      && Truthy(answer)
      && CreateMessage(ReplyDraft(data, recipient, answer.value)).Some?
    ensures r.dispatched.None? ==> r == Sent(db, [], None)
    ensures r.dispatched.Some? ==>
      var id := r.dispatched.value.messageId;
      && id !in db.messages && id in r.db.messages
      && r.db.messages[id].senderId == recipient && r.db.messages[id].content == answer.value
      && r.events == [Emit(Room(data.conversationId), NewMessage(id, r.db.messages[id], SenderOf(db.users, recipient)))]
  {
    var s := Ai.AiTwinSuggestion(db, recipient, data.conversationId, answer);
    AutoReplyOutcome(db, data, recipient, if s.Ok? then Some(s.body) else None)
  }

  /** The AI-twin reply to a message that was held for a scan is stored
      `pending` as well, and no scan is ever started for it. */
  lemma AutoReplyInheritsPending(db: Db, sender: Id, data: SocketMessage, aiConfigured: bool,
                                 suggestion: Option<string>)
    requires var s := SendMessageOutcome(db, sender, data, aiConfigured);
      s.dispatched.Some? && s.dispatched.value.twin.Some? &&
      s.db.messages[s.dispatched.value.messageId].safety.status == "pending"
    ensures var s := SendMessageOutcome(db, sender, data, aiConfigured);
      var a := AutoReplyOutcome(s.db, s.dispatched.value.data, s.dispatched.value.twin.value, suggestion);
      a.dispatched.Some? ==>
        a.db.messages[a.dispatched.value.messageId].safety.status == "pending" && !a.dispatched.value.scan
  {
    var s := SendMessageOutcome(db, sender, data, aiConfigured);
    var d := s.dispatched.value.data;
    assert d == MessageData(sender, data);
    var a := AutoReplyOutcome(s.db, d, s.dispatched.value.twin.value, suggestion);
    if a.dispatched.Some? {
      ReplyShape(d, s.dispatched.value.twin.value, suggestion.value);
    }
  }

  // ---------------------------------------------------------------------
  // performSafetyScan

  /** The classifier's JSON answer. Its response schema allows only the
      message schema's threat kinds for `type`, and leaves every field
      optional. */
  datatype Verdict = Verdict(isWarning: bool, kind: Option<ThreatKind>, reason: Option<string>)

  /** The fixed result given to every image (no classifier call). */
  const ImageMock: Verdict := Verdict(false, Some("deepfake"), Some("Image analysis is mocked in local dev."))

  /** `finalAnalysis`: warning iff the classifier warned; type and reason are
      kept only for warnings. */
  function FinalAnalysis(v: Verdict): (a: SafetyAnalysis)
    ensures a.status == "warning" <==> v.isWarning
    ensures a.status == "safe" <==> !v.isWarning
    ensures v.isWarning ==> a.kind == v.kind && a.reason == v.reason
    ensures !v.isWarning ==> a.kind.None? && a.reason.None?
  {
    if v.isWarning then SafetyAnalysis("warning", v.kind, v.reason) else SafetyAnalysis("safe", None, None)
  }

  /** The scan of the message handed over by `sendMessage` (its id and the
      record as created). `answer` is what the classifier call and the JSON
      parse produced, `None` when either failed; it is consulted only for
      non-image messages. When the message has been deleted meanwhile, the
      update returns null, reading it throws, and the fallback update finds
      nothing: the store is unchanged and nothing is emitted. */
  function SafetyScanOutcome(db: Db, messageId: Id, m: Message, answer: Option<Verdict>): (r: Sent)
    ensures r.dispatched.None?
    ensures messageId !in db.messages ==> r.db == db && r.events == []
    ensures r.db.messages.Keys == db.messages.Keys
    ensures messageId in db.messages ==>
      r.db == db.(messages := db.messages[messageId := r.db.messages[messageId]])
    ensures messageId in db.messages && m.messageType == "image" ==>
      r.db.messages[messageId].safety == SafetyAnalysis("safe", None, None) &&
      r.events == [Emit(Room(m.conversationId), MessageSafetyUpdate(messageId, m.conversationId, SafetyAnalysis("safe", None, None)))]
    ensures messageId in db.messages && m.messageType != "image" && answer.Some? ==>
      var a := FinalAnalysis(answer.value);
      r.db.messages[messageId] == db.messages[messageId].(safety := a) &&
      r.events == [Emit(Room(m.conversationId), MessageSafetyUpdate(messageId, m.conversationId, a))]
    ensures messageId in db.messages && m.messageType != "image" && answer.None? ==>
      r.db.messages[messageId] == db.messages[messageId].(safety := db.messages[messageId].safety.(status := "safe")) &&
      r.events == []
  {
    var verdict := if m.messageType == "image" then Some(ImageMock) else answer;
    if messageId !in db.messages then Sent(db, [], None)
    else
      var stored := db.messages[messageId];
      if verdict.None? then
        Sent(db.(messages := db.messages[messageId := stored.(safety := stored.safety.(status := "safe"))]), [], None)
      else
        var a := FinalAnalysis(verdict.value);
        Sent(db.(messages := db.messages[messageId := stored.(safety := a)]),
             [Emit(Room(m.conversationId), MessageSafetyUpdate(messageId, m.conversationId, a))], None)
  }

  method PerformSafetyScan(srv: Server, messageId: Id, m: Message, answer: Option<Verdict>)
    modifies srv`db, srv`events
    ensures var r := SafetyScanOutcome(old(srv.db), messageId, m, answer);
      srv.db == r.db && srv.events == old(srv.events) + r.events
  {
    var scanResult: Option<Verdict>;
    if m.messageType == "image" {
      scanResult := Some(ImageMock);
    } else {
      scanResult := answer;
    }
    if messageId !in srv.db.messages {
      return;
    }
    var stored := srv.db.messages[messageId];
    if scanResult.None? {
      srv.db := srv.db.(messages := srv.db.messages[messageId := stored.(safety := stored.safety.(status := "safe"))]);
      return;
    }
    var finalAnalysis := FinalAnalysis(scanResult.value);
    srv.db := srv.db.(messages := srv.db.messages[messageId := stored.(safety := finalAnalysis)]);
    srv.events := srv.events + [Emit(Room(m.conversationId), MessageSafetyUpdate(messageId, m.conversationId, finalAnalysis))];
  }

  /** The classifier's answer has no bearing on the scan of an image. */
  lemma ImageScanIgnoresClassifier(db: Db, messageId: Id, m: Message, a1: Option<Verdict>, a2: Option<Verdict>)
    requires m.messageType == "image"
    ensures SafetyScanOutcome(db, messageId, m, a1) == SafetyScanOutcome(db, messageId, m, a2)
  {
  }

  /** A scan never leaves a stored message `pending`. */
  lemma {:induction false} ScanResolvesPending(db: Db, messageId: Id, m: Message, answer: Option<Verdict>)
    requires messageId in db.messages
    ensures SafetyScanOutcome(db, messageId, m, answer).db.messages[messageId].safety.status != "pending"
  {
    var r := SafetyScanOutcome(db, messageId, m, answer);
    if m.messageType == "image" {
    } else if answer.Some? {
      var a := FinalAnalysis(answer.value);
      assert a.status == "warning" || a.status == "safe";
    }
  }

  // ---------------------------------------------------------------------
  // seedFeatureFlags

  const FlagSeed: seq<FeatureFlag> := [
    FeatureFlag("LiveStage", "Enables live streaming capabilities for creators.", true),
    FeatureFlag("Echoes", "Allows creators to make interactive, branching video content.", true),
    FeatureFlag("Dreamscapes", "Enables AI-generated immersive worlds for users to explore.", false),
    FeatureFlag("EDU_Mode", "Activates the full suite of academic and student tools.", true),
    FeatureFlag("WhisperNet", "Enables offline peer-to-peer mesh networking capabilities.", false),
    FeatureFlag("Wallet", "Enables the Whispr Token wallet and transaction features.", false),
    FeatureFlag("Marketplace", "Allows creators to list and sell digital items.", true)
  ]

  predicate HasFlagNamed(flags: map<Id, FeatureFlag>, name: string) {
    exists id :: id in flags && flags[id].name == name
  }

  /** `updateOne({ name }, { $setOnInsert: f }, { upsert: true })`. */
  function UpsertFlag(flags: map<Id, FeatureFlag>, f: FeatureFlag): (r: map<Id, FeatureFlag>)
    ensures HasFlagNamed(flags, f.name) ==> r == flags
    ensures !HasFlagNamed(flags, f.name) ==> exists id: Id :: id !in flags && r == flags[id := f]
  {
    if HasFlagNamed(flags, f.name) then flags
    else
      var id := NextId(flags);
      assert id !in flags;
      flags[id := f]
  }

  /** The flags after upserting each of `seed` in order. */
  function SeedAll(flags: map<Id, FeatureFlag>, seed: seq<FeatureFlag>): map<Id, FeatureFlag> {
    if seed == [] then flags else UpsertFlag(SeedAll(flags, seed[..|seed| - 1]), seed[|seed| - 1])
  }

  method SeedFeatureFlags(srv: Server)
    modifies srv`db
    ensures srv.db == old(srv.db).(flags := SeedAll(old(srv.db.flags), FlagSeed))
  {
    UpsertEach(srv, FlagSeed);
  }

  /** The seeding loop: one upsert per listed flag, in order. */
  method UpsertEach(srv: Server, seed: seq<FeatureFlag>)
    modifies srv`db
    ensures srv.db == old(srv.db).(flags := SeedAll(old(srv.db.flags), seed))
  {
    for i := 0 to |seed|
      invariant srv.db == old(srv.db).(flags := SeedAll(old(srv.db.flags), seed[..i]))
    {
      assert seed[..i + 1][..i] == seed[..i];
      srv.db := srv.db.(flags := UpsertFlag(srv.db.flags, seed[i]));
    }
    assert seed[..|seed|] == seed;
  }

  /** Seeding never alters or removes an existing flag (in particular its
      isEnabled), and every flag it adds comes from the seed list. */
  lemma {:induction false} SeedKeepsExisting(flags: map<Id, FeatureFlag>, seed: seq<FeatureFlag>)
    ensures forall id :: id in flags ==> id in SeedAll(flags, seed) && SeedAll(flags, seed)[id] == flags[id]
    ensures forall id :: id in SeedAll(flags, seed) && id !in flags ==> SeedAll(flags, seed)[id] in seed
  {
    if seed != [] {
      var init := seed[..|seed| - 1];
      SeedKeepsExisting(flags, init);
      assert forall f :: f in init ==> f in seed;
    }
  }

  /** After seeding, a flag of every seeded name exists. */
  lemma {:induction false} SeedHasAll(flags: map<Id, FeatureFlag>, seed: seq<FeatureFlag>)
    ensures forall f :: f in seed ==> HasFlagNamed(SeedAll(flags, seed), f.name)
  {
    if seed != [] {
      var init := seed[..|seed| - 1];
      var last := seed[|seed| - 1];
      SeedHasAll(flags, init);
      var prev := SeedAll(flags, init);
      var next := SeedAll(flags, seed);
      forall f | f in seed ensures HasFlagNamed(next, f.name) {
        if f in init {
          var id :| id in prev && prev[id].name == f.name;
          assert id in next && next[id] == prev[id];
        } else {
          assert f == last;
          if !HasFlagNamed(prev, last.name) {
            var id: Id :| id !in prev && next == prev[id := last];
            assert next[id].name == f.name;
          }
        }
      }
    }
  }

  /** Seeding a store that already holds every seeded name changes nothing. */
  lemma {:induction false} SeedNoop(flags: map<Id, FeatureFlag>, seed: seq<FeatureFlag>)
    requires forall f :: f in seed ==> HasFlagNamed(flags, f.name)
    ensures SeedAll(flags, seed) == flags
  {
    if seed != [] {
      var init := seed[..|seed| - 1];
      assert forall f :: f in init ==> f in seed;
      SeedNoop(flags, init);
      assert seed[|seed| - 1] in seed;
    }
  }

  /** Seeding twice is the same as seeding once. */
  lemma SeedIdempotent(flags: map<Id, FeatureFlag>, seed: seq<FeatureFlag>)
    ensures SeedAll(SeedAll(flags, seed), seed) == SeedAll(flags, seed)
  {
    SeedHasAll(flags, seed);
    SeedNoop(SeedAll(flags, seed), seed);
  }

  predicate UniqueFlagNames(flags: map<Id, FeatureFlag>) {
    forall a, b :: a in flags && b in flags && flags[a].name == flags[b].name ==> a == b
  }

  /** Seeding keeps flag names unique (the schema's unique index on name). */
  lemma {:induction false} SeedKeepsNamesUnique(flags: map<Id, FeatureFlag>, seed: seq<FeatureFlag>)
    requires UniqueFlagNames(flags)
    ensures UniqueFlagNames(SeedAll(flags, seed))
  {
    if seed != [] {
      var init := seed[..|seed| - 1];
      var last := seed[|seed| - 1];
      SeedKeepsNamesUnique(flags, init);
      var prev := SeedAll(flags, init);
      var next := SeedAll(flags, seed);
      if !HasFlagNamed(prev, last.name) {
        var id: Id :| id !in prev && next == prev[id := last];
        forall a, b | a in next && b in next && next[a].name == next[b].name ensures a == b {
          if a != id && b != id {
            assert prev[a].name == prev[b].name;
          }
        }
      }
    }
  }
}
