/** The history builders and guards of controllers/aiController.js. The
    language-model calls themselves are outside the model: each handler takes
    the model's answer as a parameter (`None` when the call or the parsing of
    its output failed), and the prompts are not modelled. */
module Ai {
  import opened Common
  import opened Text
  import opened Models
  import opened Store
  import opened Http

  // ---------------------------------------------------------------------
  // Stored history

  /** A stored message as the handlers see it after
      `.populate('senderId', 'name')`: the sender's name, or `None` when the
      sender no longer exists (populate yields null). */
  datatype Entry = Entry(messageType: string, sender: Option<string>, content: string)

  function EntryOf(db: Db, id: Id): Entry
    requires id in db.messages
  {
    var m := db.messages[id];
    Entry(m.messageType, if m.senderId in db.users then Some(db.users[m.senderId].name) else None, m.content)
  }

  function EntriesOf(db: Db, ids: seq<Id>): (es: seq<Entry>)
    requires forall i :: 0 <= i < |ids| ==> ids[i] in db.messages
    ensures |es| == |ids|
    ensures forall i :: 0 <= i < |ids| ==> es[i] == EntryOf(db, ids[i])
  {
    seq(|ids|, i requires 0 <= i < |ids| => EntryOf(db, ids[i]))
  }

  /** The messages of a conversation, oldest first (`sort('createdAt')`). */
  function ConversationIds(db: Db, conversationId: Id): (ids: seq<Id>)
    ensures Increasing(ids)
    ensures forall i :: 0 <= i < |ids| ==> ids[i] in db.messages && db.messages[ids[i]].conversationId == conversationId
    ensures forall k :: k in db.messages && db.messages[k].conversationId == conversationId ==> k in ids
  {
    IdsWhere(db.messages, (m: Message) => m.conversationId == conversationId)
  }

  /** The text messages of a conversation, oldest first. */
  function ConversationTextIds(db: Db, conversationId: Id): (ids: seq<Id>)
    ensures Increasing(ids)
    ensures forall i :: 0 <= i < |ids| ==>
      (ids[i] in db.messages && db.messages[ids[i]].conversationId == conversationId &&
       db.messages[ids[i]].messageType == "text")
    ensures forall k ::
      (k in db.messages && db.messages[k].conversationId == conversationId && db.messages[k].messageType == "text")
      ==> k in ids
  {
    IdsWhere(db.messages, (m: Message) => m.conversationId == conversationId && m.messageType == "text")
  }

  /** `.sort({ createdAt: -1 }).limit(n)` followed by `.reverse()`: the newest
      n, oldest first. */
  function LastN<T>(s: seq<T>, n: nat): (r: seq<T>)
    ensures |r| == if |s| < n then |s| else n
    ensures r == s[|s| - |r|..]
    ensures forall i :: 0 <= i < |r| ==> r[i] == s[|s| - |r| + i]
  {
    if |s| <= n then s else s[|s| - n..]
  }

  // ---------------------------------------------------------------------
  // formatConversationHistory

  /** Kept by `formatConversationHistory`: text messages that have a sender. */
  predicate Kept(e: Entry) {
    e.messageType == "text" && e.sender.Some?
  }

  function LineOf(name: string, content: string): string {
    name + ": " + content
  }

  /** The positions of the kept entries, in increasing order. */
  function KeptIndices(es: seq<Entry>): (r: seq<nat>)
    ensures Increasing(r)
    ensures forall i :: 0 <= i < |r| ==> r[i] < |es| && Kept(es[r[i]])
    ensures forall j :: 0 <= j < |es| && Kept(es[j]) ==> j in r
  {
    if es == [] then []
    else
      var init := KeptIndices(es[..|es| - 1]);
      assert forall i :: 0 <= i < |init| ==> es[..|es| - 1][init[i]] == es[init[i]];
      if Kept(es[|es| - 1]) then init + [|es| - 1] else init
  }

  /** One "name: content" line per kept entry, in input order. */
  function HistoryLines(es: seq<Entry>): (r: seq<string>)
    ensures |r| == |KeptIndices(es)|
    ensures forall i :: 0 <= i < |r| ==>
      var e := es[KeptIndices(es)[i]];
      r[i] == LineOf(e.sender.value, e.content)
  {
    if es == [] then []
    else
      var init := es[..|es| - 1];
      var last := es[|es| - 1];
      var r := HistoryLines(init);
      assert forall i :: 0 <= i < |KeptIndices(init)| ==> init[KeptIndices(init)[i]] == es[KeptIndices(init)[i]];
      if Kept(last) then r + [LineOf(last.sender.value, last.content)] else r
  }

  /** `formatConversationHistory(messages)`. */
  function FormatConversationHistory(es: seq<Entry>): string {
    Join(HistoryLines(es), "\n")
  }

  /** Appending a kept entry appends exactly its line. */
  lemma AppendKept(es: seq<Entry>, e: Entry)
    requires Kept(e) && HistoryLines(es) != []
    ensures FormatConversationHistory(es + [e]) ==
      FormatConversationHistory(es) + "\n" + LineOf(e.sender.value, e.content)
  {
    assert (es + [e])[..|es|] == es;
    JoinAppend(HistoryLines(es), LineOf(e.sender.value, e.content), "\n");
  }

  /** Appending an entry that is not kept leaves the history as it was. */
  lemma AppendDropped(es: seq<Entry>, e: Entry)
    requires !Kept(e)
    ensures FormatConversationHistory(es + [e]) == FormatConversationHistory(es)
  {
    assert (es + [e])[..|es|] == es;
  }

  /** The stored history of a conversation, formatted. */
  function RoomHistory(db: Db, conversationId: Id): string {
    FormatConversationHistory(EntriesOf(db, ConversationIds(db, conversationId)))
  }

  // ---------------------------------------------------------------------
  // generateSummary (messages supplied by the client)

  /** A message object in a request body. */
  datatype ClientMessage = ClientMessage(kind: Option<string>, senderId: Option<string>, text: Option<string>)

  /** Template interpolation of a possibly missing string. */
  function Interp(o: Option<string>): string {
    if o.Some? then o.value else "undefined"
  }

  /** The summary history lines: "User <first 4 characters of senderId>:
      <text>" for every text message; `None` when a text message has no
      senderId (calling `substring` on undefined throws). */
  function SummaryLines(msgs: seq<ClientMessage>): (r: Option<seq<string>>)
    ensures r.None? <==> exists i :: 0 <= i < |msgs| && msgs[i].kind == Some("text") && msgs[i].senderId.None?
    ensures r.Some? ==> |r.value| <= |msgs|
  {
    if msgs == [] then Some([])
    else
      var init := msgs[..|msgs| - 1];
      var m := msgs[|msgs| - 1];
      var r := SummaryLines(init);
      assert forall i :: 0 <= i < |init| ==> init[i] == msgs[i];
      if m.kind != Some("text") then r
      else if m.senderId.None? then None
      else if r.None? then None
      else Some(r.value + [SummaryLine(m.senderId.value, m.text)])
  }

  /** One summary history line: "User <first 4 characters of the sender>: <text>". */
  function SummaryLine(sender: string, text: Option<string>): string {
    "User " + Take(sender, 4) + ": " + Interp(text)
  }

  /** The summary history holds one line per text message, in order, each
      naming the first four characters of its sender. */
  lemma {:induction false} SummaryLinesIndexed(msgs: seq<ClientMessage>)
    requires SummaryLines(msgs).Some?
    ensures var r := SummaryLines(msgs).value;
      && |r| == |TextIndices(msgs)|
      && forall k :: 0 <= k < |r| ==>
           var m := msgs[TextIndices(msgs)[k]];
           m.senderId.Some? && r[k] == SummaryLine(m.senderId.value, m.text)
  {
    if msgs != [] {
      var prefix := msgs[..|msgs| - 1];
      assert forall i :: 0 <= i < |prefix| ==> prefix[i] == msgs[i];
      assert SummaryLines(prefix).Some?;
      SummaryLinesIndexed(prefix);
      var ids := TextIndices(prefix);
      var init := SummaryLines(prefix).value;
      var m := msgs[|msgs| - 1];
      var r := SummaryLines(msgs).value;
      var all := TextIndices(msgs);
      if m.kind == Some("text") {
        assert all == ids + [|msgs| - 1];
        assert r == init + [SummaryLine(m.senderId.value, m.text)];
      } else {
        assert all == ids;
        assert r == init;
      }
      forall k | 0 <= k < |init|
        ensures msgs[all[k]].senderId.Some? && r[k] == SummaryLine(msgs[all[k]].senderId.value, msgs[all[k]].text)
      {
        assert all[k] == ids[k] && prefix[ids[k]] == msgs[ids[k]];
      }
    }
  }

  const NotEnoughToSummarize := "Not enough text to summarize."

  /** `generateSummary`: 400 without a message array; the canned reply, with
      no model call, when the history is shorter than 20 UTF-16 units; the
      model's summary otherwise; 500 when building the history or calling the
      model fails. */
  function GenerateSummary(messages: Option<seq<ClientMessage>>, answer: Option<string>): (r: Reply<string>)
    ensures messages.None? ==> r == Fail(400, "A message array is required.")
    ensures (messages.Some? && SummaryLines(messages.value).Some? &&
             Utf16Length(Join(SummaryLines(messages.value).value, "\n")) < 20)
      ==> r == Ok(200, NotEnoughToSummarize)
    ensures r.Ok? <==>
      messages.Some? && SummaryLines(messages.value).Some? &&
      (Utf16Length(Join(SummaryLines(messages.value).value, "\n")) < 20 || answer.Some?)
    ensures (messages.Some? && SummaryLines(messages.value).Some? &&
             Utf16Length(Join(SummaryLines(messages.value).value, "\n")) >= 20 && answer.Some?)
      ==> r == Ok(200, answer.value)
    ensures r.Fail? && r.status != 400 ==> r == Fail(500, "Failed to generate summary.")
  {
    if messages.None? then Fail(400, "A message array is required.")
    else
      var lines := SummaryLines(messages.value);
      if lines.None? then Raised(200, "Failed to generate summary.")
      else if Utf16Length(Join(lines.value, "\n")) < 20 then Ok(200, NotEnoughToSummarize)
      else if answer.None? then Raised(200, "Failed to generate summary.")
      else Ok(200, answer.value)
  }

  // ---------------------------------------------------------------------
  // generateVibeReplies

  /** The conversation object in the request: its type, the other user's
      name (read only for direct chats) and its messages. */
  datatype VibeConversation = VibeConversation(kind: Option<string>, otherUserName: Option<string>, messages: seq<ClientMessage>)

  /** The lines of the text messages, the caller's as their own name and all
      others under the other person's name; `None` when a direct chat has no
      other user (reading its name throws). */
  function VibeAllLines(conv: VibeConversation, meId: string, meName: string): (r: Option<seq<string>>)
    ensures r.None? <==> conv.kind == Some("direct") && conv.otherUserName.None?
  {
    if conv.kind == Some("direct") && conv.otherUserName.None? then None
    else
      var other := if conv.kind == Some("direct") then conv.otherUserName.value else "A group member";
      Some(TextLinesAs(conv.messages, meId, meName, other))
  }

  /** The positions of the text messages, in increasing order. */
  function TextIndices(msgs: seq<ClientMessage>): (r: seq<nat>)
    ensures Increasing(r)
    ensures forall i :: 0 <= i < |r| ==> r[i] < |msgs| && msgs[r[i]].kind == Some("text")
    ensures forall j :: 0 <= j < |msgs| && msgs[j].kind == Some("text") ==> j in r
  {
    if msgs == [] then []
    else
      var init := TextIndices(msgs[..|msgs| - 1]);
      assert forall i :: 0 <= i < |init| ==> msgs[..|msgs| - 1][init[i]] == msgs[init[i]];
      if msgs[|msgs| - 1].kind == Some("text") then init + [|msgs| - 1] else init
  }

  /** The vibe line of one message: the caller's under their name, all
      others under `other`. */
  function VibeLine(m: ClientMessage, meId: string, meName: string, other: string): string {
    (if m.senderId == Some(meId) then meName else other) + ": " + Interp(m.text)
  }

  function TextLinesAs(msgs: seq<ClientMessage>, meId: string, meName: string, other: string): (r: seq<string>)
    ensures |r| <= |msgs|
  {
    if msgs == [] then []
    else
      var init := TextLinesAs(msgs[..|msgs| - 1], meId, meName, other);
      var m := msgs[|msgs| - 1];
      if m.kind == Some("text") then init + [VibeLine(m, meId, meName, other)] else init
  }

  /** The vibe lines are one line per text message, in order. */
  lemma {:induction false} TextLinesAsIndexed(msgs: seq<ClientMessage>, meId: string, meName: string, other: string)
    ensures var r := TextLinesAs(msgs, meId, meName, other);
      && |r| == |TextIndices(msgs)|
      && forall k :: 0 <= k < |r| ==> r[k] == VibeLine(msgs[TextIndices(msgs)[k]], meId, meName, other)
  {
    if msgs != [] {
      var prefix := msgs[..|msgs| - 1];
      TextLinesAsIndexed(prefix, meId, meName, other);
      var ids := TextIndices(prefix);
      var init := TextLinesAs(prefix, meId, meName, other);
      var m := msgs[|msgs| - 1];
      var r := TextLinesAs(msgs, meId, meName, other);
      var all := TextIndices(msgs);
      if m.kind == Some("text") {
        assert all == ids + [|msgs| - 1];
        assert r == init + [VibeLine(m, meId, meName, other)];
      } else {
        assert all == ids;
        assert r == init;
      }
      forall k | 0 <= k < |init|
        ensures r[k] == VibeLine(msgs[all[k]], meId, meName, other)
      {
        assert all[k] == ids[k] && prefix[ids[k]] == msgs[ids[k]];
      }
    }
  }

  /** `.slice(-10)`: the vibe history is the last (at most) ten lines. */
  function VibeLines(conv: VibeConversation, meId: string, meName: string): (r: Option<seq<string>>)
    ensures r.None? <==> VibeAllLines(conv, meId, meName).None?
    ensures r.Some? ==> var all := VibeAllLines(conv, meId, meName).value;
      |r.value| == (if |all| < 10 then |all| else 10) && r.value == all[|all| - |r.value|..]
  {
    var all := VibeAllLines(conv, meId, meName);
    if all.None? then None else Some(LastN(all.value, 10))
  }

  datatype VibeReply = VibeReply(text: string, tone: string)
  datatype VibeAnswer = VibeAnswer(replies: Option<seq<VibeReply>>)

  /** `generateVibeReplies`: the model's replies (`[]` when its answer has
      none), or 500 when the history cannot be built or the model fails. */
  function GenerateVibeReplies(conv: VibeConversation, meId: string, meName: string, answer: Option<VibeAnswer>): (r: Reply<seq<VibeReply>>)
    ensures r.Ok? <==> VibeLines(conv, meId, meName).Some? && answer.Some?
    ensures r.Ok? ==> r.status == 200 && r.body == (if answer.value.replies.Some? then answer.value.replies.value else [])
    ensures r.Fail? ==> r == Fail(500, "Failed to generate vibe replies.")
  {
    if VibeLines(conv, meId, meName).None? || answer.None? then Raised(200, "Failed to generate vibe replies.")
    else Ok(200, if answer.value.replies.Some? then answer.value.replies.value else [])
  }

  // ---------------------------------------------------------------------
  // Cognitive rooms: getRoomSummary, askRoomMemory

  /** `findOne({ _id, participants: me })` followed by the isCognitive check. */
  predicate CognitiveMember(db: Db, me: Id, conversationId: Id) {
    conversationId in db.conversations && me in db.conversations[conversationId].participants &&
    db.conversations[conversationId].isCognitive
  }

  const NotCognitive := "Not a cognitive room or you are not a participant."
  const RoomTooShort := "There isn't enough conversation history to generate a meaningful summary yet."

  /** `getRoomSummary`: 403 outside cognitive rooms; the canned reply, with
      no model call, for a history shorter than 50 UTF-16 units; otherwise
      the model's summary, or 500 when the model fails. */
  function GetRoomSummary(db: Db, me: Id, conversationId: Id, answer: Option<string>): (r: Reply<string>)
    ensures !CognitiveMember(db, me, conversationId) ==> r == Fail(403, NotCognitive)
    ensures CognitiveMember(db, me, conversationId) && Utf16Length(RoomHistory(db, conversationId)) < 50 ==>
      r == Ok(200, RoomTooShort)
    ensures r.Ok? <==>
      CognitiveMember(db, me, conversationId) && (Utf16Length(RoomHistory(db, conversationId)) < 50 || answer.Some?)
    ensures CognitiveMember(db, me, conversationId) && Utf16Length(RoomHistory(db, conversationId)) >= 50 && answer.Some? ==>
      r == Ok(200, answer.value)
    ensures r.Fail? && r.status != 403 ==> r == Fail(500, "Failed to generate summary from AI.")
  {
    if !CognitiveMember(db, me, conversationId) then Raised(403, NotCognitive)
    else if Utf16Length(RoomHistory(db, conversationId)) < 50 then Ok(200, RoomTooShort)
    else if answer.None? then Raised(200, "Failed to generate summary from AI.")
    else Ok(200, answer.value)
  }

  function AskRoomMemory(db: Db, me: Id, conversationId: Id, question: Option<string>, answer: Option<string>): (r: Reply<string>)
    ensures !Truthy(question) ==> r == Fail(400, "A question is required.")
    ensures Truthy(question) && !CognitiveMember(db, me, conversationId) ==> r == Fail(403, NotCognitive)
    ensures r.Ok? <==> Truthy(question) && CognitiveMember(db, me, conversationId) && answer.Some?
    ensures r.Ok? ==> r == Ok(200, answer.value)
  {
    if !Truthy(question) then Raised(400, "A question is required.")
    else if !CognitiveMember(db, me, conversationId) then Raised(403, NotCognitive)
    else if answer.None? then Raised(200, "Failed to get an answer from AI.")
    else Ok(200, answer.value)
  }

  // ---------------------------------------------------------------------
  // AI twin: trainAiTwin, getAiTwinReplySuggestion

  /** The user's text messages, oldest first. */
  function UserTextIds(db: Db, me: Id): (ids: seq<Id>)
    ensures Increasing(ids)
    ensures forall i :: 0 <= i < |ids| ==>
      (ids[i] in db.messages && db.messages[ids[i]].senderId == me && db.messages[ids[i]].messageType == "text")
    ensures forall k :: k in db.messages && db.messages[k].senderId == me && db.messages[k].messageType == "text" ==> k in ids
  {
    IdsWhere(db.messages, (m: Message) => m.senderId == me && m.messageType == "text")
  }

  /** The training samples: the contents of the user's latest (at most) 100
      text messages, newest first. */
  function TrainingSamples(db: Db, me: Id): (r: seq<string>)
    ensures var ids := UserTextIds(db, me);
      |r| == (if |ids| < 100 then |ids| else 100) &&
      forall i :: 0 <= i < |r| ==> r[i] == db.messages[ids[|ids| - 1 - i]].content
  {
    var latest := Latest(UserTextIds(db, me), 100);
    seq(|latest|, i requires 0 <= i < |latest| => db.messages[latest[i]].content)
  }

  const TooFewSamples := "Not enough message history to train AI Twin. Send at least 10 messages."

  /** `trainAiTwin`: 404 for a missing user; 400 when the user has fewer than
      10 text messages; otherwise the model's style profile and the training
      time are stored on the user, whose record is returned without password. */
  function TrainAiTwinOutcome(db: Db, me: Id, answer: Option<string>, now: int): (o: Outcome<User>)
    ensures o.events == []
    ensures me !in db.users ==> o.reply == Fail(404, "User not found") && o.db == db
    ensures me in db.users && |UserTextIds(db, me)| < 10 ==> o.reply == Fail(400, TooFewSamples) && o.db == db
    ensures o.reply.Ok? <==> me in db.users && |UserTextIds(db, me)| >= 10 && answer.Some?
    ensures !o.reply.Ok? ==> o.db == db
    ensures o.reply.Ok? ==>
      var u := db.users[me].(aiTwinStyleProfile := Some(answer.value), aiTwinLastTrained := Some(now));
      o.db == db.(users := db.users[me := u]) && o.reply == Ok(200, Redacted(u))
  {
    if me !in db.users then Answer(db, Fail(404, "User not found"))
    else if |TrainingSamples(db, me)| < 10 then Answer(db, Fail(400, TooFewSamples))
    else if answer.None? then Answer(db, Raised(200, "Failed to train AI Twin."))
    else
      var u := db.users[me].(aiTwinStyleProfile := Some(answer.value), aiTwinLastTrained := Some(now));
      Outcome(Ok(200, Redacted(u)), db.(users := db.users[me := u]), [])
  }

  method TrainAiTwin(srv: Server, me: Id, answer: Option<string>, now: int) returns (reply: Reply<User>)
    modifies srv`db
    ensures var o := TrainAiTwinOutcome(old(srv.db), me, answer, now); srv.db == o.db && reply == o.reply
  {
    if me !in srv.db.users {
      return Fail(404, "User not found");
    }
    var user := srv.db.users[me];
    var samples := TrainingSamples(srv.db, me);
    if |samples| < 10 {
      return Fail(400, TooFewSamples);
    }
    if answer.None? {
      return Raised(200, "Failed to train AI Twin.");
    }
    user := user.(aiTwinStyleProfile := Some(answer.value));
    user := user.(aiTwinLastTrained := Some(now));
    srv.db := srv.db.(users := srv.db.users[me := user]);
    reply := Ok(200, Redacted(user));
  }

  /** Every entry has a sender; `None` when one has none (reading `.name` of
      null throws). */
  function NamedLines(es: seq<Entry>): (r: Option<seq<string>>)
    ensures r.None? <==> exists i :: 0 <= i < |es| && es[i].sender.None?
    ensures r.Some? ==> |r.value| == |es|
    ensures r.Some? ==> forall i :: 0 <= i < |es| ==> r.value[i] == LineOf(es[i].sender.value, es[i].content)
  {
    if es == [] then Some([])
    else
      var init := NamedLines(es[..|es| - 1]);
      var e := es[|es| - 1];
      assert forall i :: 0 <= i < |es| - 1 ==> es[..|es| - 1][i] == es[i];
      if init.None? || e.sender.None? then None
      else Some(init.value + [LineOf(e.sender.value, e.content)])
  }

  const TwinNotTrained := "AI Twin is not trained. Please train it in Settings."

  /** `getAiTwinReplySuggestion`: 400 unless the user exists with a style
      profile; the history is the conversation's last ten messages of any
      type, oldest first; 500 when one of their senders no longer exists or
      the model fails. */
  function AiTwinSuggestion(db: Db, me: Id, conversationId: Id, answer: Option<string>): (r: Reply<string>)
    ensures me !in db.users || !Truthy(db.users[me].aiTwinStyleProfile) ==> r == Fail(400, TwinNotTrained)
    ensures r.Ok? <==>
      && me in db.users && Truthy(db.users[me].aiTwinStyleProfile)
      && NamedLines(EntriesOf(db, LastN(ConversationIds(db, conversationId), 10))).Some?
      && answer.Some?
    ensures r.Ok? ==> r == Ok(200, answer.value)
  {
    if me !in db.users || !Truthy(db.users[me].aiTwinStyleProfile) then Fail(400, TwinNotTrained)
    else
      var ids := LastN(ConversationIds(db, conversationId), 10);
      var lines := NamedLines(EntriesOf(db, ids));
      if lines.None? || answer.None? then Raised(200, "Failed to get suggestion from AI Twin.")
      else Ok(200, answer.value)
  }

  // ---------------------------------------------------------------------
  // generateContract

  const NotEnoughForContract := "Not enough conversation history to generate a contract. Discuss the terms first!"

  /** The contract history: the conversation's last 50 text messages, oldest
      first, as "name: content" lines. */
  function ContractHistory(db: Db, conversationId: Id): Option<string> {
    var lines := NamedLines(EntriesOf(db, LastN(ConversationTextIds(db, conversationId), 50)));
    if lines.None? then None else Some(Join(lines.value, "\n"))
  }

  /** `findOne({ _id, participants: me })`. */
  predicate Participant(db: Db, me: Id, conversationId: Id) {
    conversationId in db.conversations && me in db.conversations[conversationId].participants
  }

  /** `generateContract`: 404 unless the caller is a participant, 400 for
      group chats and for histories under 100 UTF-16 units, otherwise the
      model's JSON answer; 500 when the history cannot be built or the model
      fails. */
  function GenerateContract(db: Db, me: Id, conversationId: Id, answer: Option<string>): (r: Reply<string>)
    ensures !Participant(db, me, conversationId) ==> r == Fail(404, "Conversation not found.")
    ensures Participant(db, me, conversationId) && db.conversations[conversationId].isGroup ==>
      r == Fail(400, "Contract generation is only available for one-on-one chats.")
    ensures (Participant(db, me, conversationId) && !db.conversations[conversationId].isGroup &&
             ContractHistory(db, conversationId).Some? && Utf16Length(ContractHistory(db, conversationId).value) < 100)
      ==> r == Fail(400, NotEnoughForContract)
    ensures r.Ok? <==>
      && Participant(db, me, conversationId) && !db.conversations[conversationId].isGroup
      && ContractHistory(db, conversationId).Some? && Utf16Length(ContractHistory(db, conversationId).value) >= 100
      && answer.Some?
    ensures r.Ok? ==> r == Ok(200, answer.value)
    ensures r.Fail? && r.status != 404 && r.status != 400 ==> r == Fail(500, "Failed to generate contract from AI.")
    ensures (Participant(db, me, conversationId) && !db.conversations[conversationId].isGroup &&
             ContractHistory(db, conversationId).None?)
      ==> r == Fail(500, "Failed to generate contract from AI.")
  {
    if !Participant(db, me, conversationId) then Raised(404, "Conversation not found.")
    else if db.conversations[conversationId].isGroup then
      Raised(400, "Contract generation is only available for one-on-one chats.")
    else
      var history := ContractHistory(db, conversationId);
      if history.None? then Raised(200, "Failed to generate contract from AI.")
      else if Utf16Length(history.value) < 100 then Fail(400, NotEnoughForContract)
      else if answer.None? then Raised(200, "Failed to generate contract from AI.")
      else Ok(200, answer.value)
  }
}
