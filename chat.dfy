/** Conversation access rules of controllers/chatController.js: the
    projection `mapConvo`, `accessConversation`, `updateGroup` and
    `startWhisperThread`. */
module Chat {
  import opened Common
  import opened Text
  import opened Models
  import opened Store
  import opened Http

  // ---------------------------------------------------------------------
  // mapConvo

  /** A populated participant with `id` copied from `_id` and, when the user
      is connected, the socket id from the registry. */
  datatype ParticipantView = ParticipantView(
    id: Id, name: string, avatar: string, email: Option<string>, role: Role, isCreator: bool,
    theme: Theme, lastSeen: Option<int>, socketId: Option<SocketId>)

  /** A conversation as the chat routes return it: the stored record with
      `id`, its participants populated (references to missing users are
      dropped by populate) and the single references kept only when the
      referenced document exists (populate yields null otherwise). */
  datatype ConvoView = ConvoView(
    id: Id, record: Conversation, participants: seq<ParticipantView>,
    admin: Option<Id>, lastMessage: Option<Id>, communityId: Option<Id>)

  /** The participant ids that refer to existing users, in order. */
  function Present(users: map<Id, User>, ids: seq<Id>): (r: seq<Id>)
    ensures forall x :: x in r <==> x in ids && x in users
    ensures |r| <= |ids|
    ensures |ids| == 1 ==> r == (if ids[0] in users then ids else [])
    ensures (forall i :: 0 <= i < |ids| ==> ids[i] in users) ==> r == ids
  {
    if ids == [] then []
    else
      var init := Present(users, ids[..|ids| - 1]);
      var x := ids[|ids| - 1];
      assert ids == ids[..|ids| - 1] + [x];
      if x in users then init + [x] else init
  }

  /** The filter keeps the order of the list: filtering a concatenation
      concatenates the filtered parts. */
  lemma {:induction false} PresentAppend(users: map<Id, User>, a: seq<Id>, b: seq<Id>)
    ensures Present(users, a + b) == Present(users, a) + Present(users, b)
  {
    if b == [] {
      assert a + b == a;
    } else {
      var init := b[..|b| - 1];
      var x := b[|b| - 1];
      assert (a + b)[..|a + b| - 1] == a + init;
      assert (a + b)[|a + b| - 1] == x;
      PresentAppend(users, a, init);
    }
  }

  function ParticipantOf(users: map<Id, User>, sockets: map<Id, SocketId>, id: Id): ParticipantView
    requires id in users
  {
    var u := users[id];
    ParticipantView(id, u.name, u.avatar, u.email, u.role, u.isCreator, u.theme, u.lastSeen, Get(sockets, id))
  }

  /** Every character role of a roleplay room refers to an existing user;
      otherwise `r.userId._id` is read from null and `mapConvo` throws. */
  predicate RolesResolve(users: map<Id, User>, c: Conversation) {
    c.roleplaySettings.None? ||
    forall k :: 0 <= k < |c.roleplaySettings.value.characterRoles| ==>
      c.roleplaySettings.value.characterRoles[k].userId in users
  }

  function Populated<T>(m: map<Id, T>, ref: Option<Id>): (r: Option<Id>)
    ensures r.Some? <==> ref.Some? && ref.value in m
    ensures r.Some? ==> r == ref
  {
    if ref.Some? && ref.value in m then ref else None
  }

  /** `mapConvo(conversation, userSocketMap)`; `None` when it throws. */
  function MapConvo(db: Db, sockets: map<Id, SocketId>, id: Id): (r: Option<ConvoView>)
    requires id in db.conversations
    ensures r.None? <==> !RolesResolve(db.users, db.conversations[id])
    ensures r.Some? ==> r.value.id == id && r.value.record == db.conversations[id]
    ensures r.Some? ==> var present := Present(db.users, db.conversations[id].participants);
      |r.value.participants| == |present| &&
      forall i :: 0 <= i < |present| ==>
        && r.value.participants[i].id == present[i]
        && r.value.participants[i].name == db.users[present[i]].name
        && r.value.participants[i].socketId == Get(sockets, present[i])
  {
    var c := db.conversations[id];
    if !RolesResolve(db.users, c) then None
    else
      var present := Present(db.users, c.participants);
      Some(ConvoView(id, c,
        seq(|present|, i requires 0 <= i < |present| => ParticipantOf(db.users, sockets, present[i])),
        Populated(db.users, c.admin), Populated(db.messages, c.lastMessage),
        Populated(db.communities, c.communityId)))
  }

  /** The reply for a conversation the handler re-reads and maps. */
  function ViewReply(db: Db, sockets: map<Id, SocketId>, id: Id, status: nat): (r: Reply<ConvoView>)
    requires id in db.conversations
    ensures r.Ok? <==> RolesResolve(db.users, db.conversations[id])
    ensures r.Ok? ==> r.status == status && r.body.id == id
    ensures !r.Ok? ==> r.Thrown?
  {
    var v := MapConvo(db, sockets, id);
    if v.Some? then Ok(status, v.value) else Thrown
  }

  // ---------------------------------------------------------------------
  // accessConversation

  /** The request body: `participants` may be missing; `isCognitive` and
      `isRoleplayRoom` are read for their truth value. */
  datatype AccessRequest = AccessRequest(
    participants: Option<seq<Id>>, name: Option<string>, isCognitive: bool, isRoleplayRoom: bool)

  /** The parsed model answer for a roleplay room. */
  datatype RoleplayAnswer = RoleplayAnswer(scenario: Option<string>, roles: Option<seq<string>>)

  /** `[...new Set([...participants, me])]`. */
  function AllParticipants(participants: seq<Id>, me: Id): (r: seq<Id>)
    ensures NoDup(r) && me in r
    ensures forall x :: x in r <==> x in participants || x == me
  {
    Dedup(participants + [me])
  }

  /** The chat is a group exactly when more than two distinct users take
      part, counting the caller. */
  lemma GroupIffMoreThanTwo(participants: seq<Id>, me: Id)
    ensures |AllParticipants(participants, me)| == |Elements(participants) + {me}|
  {
    DedupLength(participants + [me]);
    assert Elements(participants + [me]) == Elements(participants) + {me};
  }

  /** `parsed.roles[index] || \`Character ${index + 1}\``. */
  function RoleName(roles: seq<string>, i: nat): (r: string)
    requires i < |roles|
    ensures roles[i] != "" ==> r == roles[i]
    ensures roles[i] == "" ==> r == "Character " + NatToString(i + 1)
  {
    if roles[i] != "" then roles[i] else "Character " + NatToString(i + 1)
  }

  /** The roleplay settings built from the model's answer: kept only for a
      non-empty scenario and exactly one role per participant, participant i
      playing role i. */
  function Roleplay(all: seq<Id>, answer: Option<RoleplayAnswer>): (r: Option<RoleplaySettings>)
    ensures r.Some? <==>
      answer.Some? && Truthy(answer.value.scenario) && answer.value.roles.Some? && |answer.value.roles.value| == |all|
    ensures r.Some? ==> r.value.scenario == answer.value.scenario.value && |r.value.characterRoles| == |all|
    ensures r.Some? ==> forall i :: 0 <= i < |all| ==>
      r.value.characterRoles[i] == CharacterRole(all[i], RoleName(answer.value.roles.value, i))
  {
    if answer.None? || !Truthy(answer.value.scenario) || answer.value.roles.None? ||
       |answer.value.roles.value| != |all|
    then None
    else
      var roles := answer.value.roles.value;
      Some(RoleplaySettings(answer.value.scenario.value,
        seq(|all|, i requires 0 <= i < |all| => CharacterRole(all[i], RoleName(roles, i)))))
  }

  /** The group record `Conversation.create` stores. A roleplay room is never
      cognitive, and it stays a roleplay room only when the model's answer
      gives it settings. */
  function GroupRecord(all: seq<Id>, me: Id, name: string, isCognitive: bool, isRoleplayRoom: bool,
                       answer: Option<RoleplayAnswer>): (c: Conversation)
    ensures c.isGroup && c.participants == all && c.admin == Some(me) && c.name == Some(name)
    ensures !(c.isRoleplayRoom && c.isCognitive)
    ensures !isRoleplayRoom ==> c.isCognitive == isCognitive && !c.isRoleplayRoom && c.roleplaySettings.None?
    ensures c.isRoleplayRoom <==> isRoleplayRoom && Roleplay(all, answer).Some?
    ensures c.isRoleplayRoom ==> c.roleplaySettings == Roleplay(all, answer)
    ensures c.lastMessage.None? && !c.isWhisperThread && !c.isCommunityChat
  {
    var settings := if isRoleplayRoom then Roleplay(all, answer) else None;
    Conversation(Some(name), true, all, None, Some(me), if isRoleplayRoom then false else isCognitive,
                 settings.Some?, settings, false, None, false, None)
  }

  /** `{ isGroup: false, participants: { $all: all, $size: 2 } }`. */
  predicate IsDirectWith(all: seq<Id>, c: Conversation) {
    !c.isGroup && |c.participants| == 2 && forall x :: x in all ==> x in c.participants
  }

  function FindDirect(conversations: map<Id, Conversation>, all: seq<Id>): (r: Option<Id>)
    ensures r.None? <==> forall k :: k in conversations ==> !IsDirectWith(all, conversations[k])
    ensures r.Some? ==> r.value in conversations && IsDirectWith(all, conversations[r.value])
  {
    First(conversations, (c: Conversation) => IsDirectWith(all, c))
  }

  const ParticipantsRequired := "Participant IDs are required."
  const GroupNameRequired := "Group name is required for group chats."

  /** `accessConversation`. `answer` is the model's parsed roleplay answer,
      `None` when the call or the parsing failed; it is consulted only for
      roleplay groups. */
  function AccessConversationOutcome(db: Db, sockets: map<Id, SocketId>, me: Id, req: AccessRequest,
                                     answer: Option<RoleplayAnswer>): (o: Outcome<ConvoView>)
    ensures o.events == []
    ensures req.participants.None? || req.participants.value == [] ==>
      o.reply == Fail(400, ParticipantsRequired) && o.db == db
    ensures req.participants.Some? && req.participants.value != [] ==>
      var all := AllParticipants(req.participants.value, me);
      && (|all| > 2 && !Truthy(req.name) ==> o.reply == Fail(400, GroupNameRequired) && o.db == db)
      && (|all| > 2 && Truthy(req.name) ==>
            var id := NextId(db.conversations);
            && o.db == db.(conversations := db.conversations[id :=
                 GroupRecord(all, me, req.name.value, req.isCognitive, req.isRoleplayRoom, answer)])
            && o.reply == ViewReply(o.db, sockets, id, 201))
      && (|all| <= 2 && FindDirect(db.conversations, all).Some? ==>
            o.db == db && o.reply == ViewReply(db, sockets, FindDirect(db.conversations, all).value, 200))
      && (|all| <= 2 && FindDirect(db.conversations, all).None? ==>
            var id := NextId(db.conversations);
            && o.db == db.(conversations := db.conversations[id := NewConversation(all)])
            && o.reply.Ok? && o.reply.status == 201 && o.reply.body.id == id)
  {
    if req.participants.None? || req.participants.value == [] then Answer(db, Fail(400, ParticipantsRequired))
    else
      var all := AllParticipants(req.participants.value, me);
      if |all| > 2 then
        if !Truthy(req.name) then Answer(db, Fail(400, GroupNameRequired))
        else
          var id := NextId(db.conversations);
          var db' := db.(conversations := db.conversations[id :=
            GroupRecord(all, me, req.name.value, req.isCognitive, req.isRoleplayRoom, answer)]);
          Outcome(ViewReply(db', sockets, id, 201), db', [])
      else
        var found := FindDirect(db.conversations, all);
        if found.Some? then Answer(db, ViewReply(db, sockets, found.value, 200))
        else
          var id := NextId(db.conversations);
          var db' := db.(conversations := db.conversations[id := NewConversation(all)]);
          Outcome(ViewReply(db', sockets, id, 201), db', [])
  }

  /** A request naming only the caller looks for a two-person direct chat
      containing the caller, so any direct chat of the caller with someone
      else matches it. */
  lemma SelfRequestMatchesAnyDirectChat(me: Id, other: Id, c: Conversation)
    requires c == NewConversation([me, other])
    ensures IsDirectWith(AllParticipants([me], me), c)
  {
    assert [me] + [me] == [me, me];
    var all := AllParticipants([me], me);
    assert forall x :: x in all ==> x == me;
  }

  method AccessConversation(srv: Server, me: Id, req: AccessRequest, answer: Option<RoleplayAnswer>)
    returns (reply: Reply<ConvoView>)
    modifies srv`db
    ensures var o := AccessConversationOutcome(old(srv.db), srv.sockets, me, req, answer);
      srv.db == o.db && reply == o.reply
  {
    if req.participants.None? || req.participants.value == [] {
      return Fail(400, ParticipantsRequired);
    }
    var all := AllParticipants(req.participants.value, me);
    if |all| > 2 {
      if !Truthy(req.name) {
        return Fail(400, GroupNameRequired);
      }
      var record := GroupRecord(all, me, req.name.value, req.isCognitive, req.isRoleplayRoom, answer);
      var id := NextId(srv.db.conversations);
      srv.db := srv.db.(conversations := srv.db.conversations[id := record]);
      reply := ViewReply(srv.db, srv.sockets, id, 201);
    } else {
      var found := FindDirect(srv.db.conversations, all);
      if found.Some? {
        return ViewReply(srv.db, srv.sockets, found.value, 200);
      }
      var id := NextId(srv.db.conversations);
      srv.db := srv.db.(conversations := srv.db.conversations[id := NewConversation(all)]);
      reply := ViewReply(srv.db, srv.sockets, id, 201);
    }
  }

  // ---------------------------------------------------------------------
  // updateGroup

  /** `updateGroup`: 404 for a missing conversation, a thrown error when it
      has no admin, 403 unless the caller is the admin; otherwise the name is
      replaced when a non-empty one is given and the participants by the
      de-duplicated list when one is given. Nothing else changes. */
  function UpdateGroupOutcome(db: Db, sockets: map<Id, SocketId>, me: Id, conversationId: Id,
                              name: Option<string>, participants: Option<seq<Id>>): (o: Outcome<ConvoView>)
    ensures o.events == []
    ensures conversationId !in db.conversations ==> o.reply == Fail(404, "Conversation not found") && o.db == db
    ensures conversationId in db.conversations && db.conversations[conversationId].admin.None? ==>
      o.reply.Thrown? && o.db == db
    ensures (conversationId in db.conversations && db.conversations[conversationId].admin.Some? &&
             db.conversations[conversationId].admin.value != me)
      ==> o.reply == Fail(403, "Not authorized to update this group") && o.db == db
    ensures o.db != db ==> conversationId in db.conversations && db.conversations[conversationId].admin == Some(me)
    ensures conversationId in db.conversations && db.conversations[conversationId].admin == Some(me) ==>
      && conversationId in o.db.conversations
      && var c := db.conversations[conversationId];
         var c' := o.db.conversations[conversationId];
         && o.db == db.(conversations := db.conversations[conversationId := c'])
         && c' == c.(name := c'.name, participants := c'.participants)
         && c'.name == (if Truthy(name) then name else c.name)
         && (participants.None? ==> c'.participants == c.participants)
         && (participants.Some? ==> c'.participants == Dedup(participants.value))
         && o.reply == ViewReply(o.db, sockets, conversationId, 200)
  {
    if conversationId !in db.conversations then Answer(db, Raised(404, "Conversation not found"))
    else
      var c := db.conversations[conversationId];
      if c.admin.None? then Answer(db, Thrown)
      else if c.admin.value != me then Answer(db, Raised(403, "Not authorized to update this group"))
      else
        var db' := db.(conversations := db.conversations[conversationId := GroupEdit(c, name, participants)]);
        Outcome(ViewReply(db', sockets, conversationId, 200), db', [])
  }

  /** The group's new name (when a truthy one is given) and new, deduplicated
      participant list (when one is given); nothing else changes. */
  function GroupEdit(c: Conversation, name: Option<string>, participants: Option<seq<Id>>): (c': Conversation)
    ensures c' == c.(name := c'.name, participants := c'.participants)
    ensures c'.name == (if Truthy(name) then name else c.name)
    ensures participants.None? ==> c'.participants == c.participants
    ensures participants.Some? ==> c'.participants == Dedup(participants.value)
  {
    var c1 := if Truthy(name) then c.(name := name) else c;
    if participants.Some? then c1.(participants := Dedup(participants.value)) else c1
  }

  /** The participants stored by an update never repeat. */
  lemma UpdatedParticipantsDistinct(db: Db, sockets: map<Id, SocketId>, me: Id, conversationId: Id,
                                    name: Option<string>, participants: seq<Id>)
    requires conversationId in db.conversations && db.conversations[conversationId].admin == Some(me)
    ensures NoDup(UpdateGroupOutcome(db, sockets, me, conversationId, name, Some(participants))
                    .db.conversations[conversationId].participants)
  {
  }

  method UpdateGroup(srv: Server, me: Id, conversationId: Id, name: Option<string>, participants: Option<seq<Id>>)
    returns (reply: Reply<ConvoView>)
    modifies srv`db
    ensures var o := UpdateGroupOutcome(old(srv.db), srv.sockets, me, conversationId, name, participants);
      srv.db == o.db && reply == o.reply
  {
    if conversationId !in srv.db.conversations {
      return Raised(404, "Conversation not found");
    }
    var c := srv.db.conversations[conversationId];
    if c.admin.None? {
      return Thrown;
    }
    if c.admin.value != me {
      return Raised(403, "Not authorized to update this group");
    }
    c := GroupEdit(c, name, participants);
    srv.db := srv.db.(conversations := srv.db.conversations[conversationId := c]);
    reply := ViewReply(srv.db, srv.sockets, conversationId, 200);
  }

  // ---------------------------------------------------------------------
  // startWhisperThread

  /** An existing whisper thread of the two users under the parent. */
  predicate IsWhisperOf(parent: Id, a: Id, b: Id, c: Conversation) {
    c.parentConversationId == Some(parent) && c.isWhisperThread && |c.participants| == 2 &&
    a in c.participants && b in c.participants
  }

  function FindWhisper(conversations: map<Id, Conversation>, parent: Id, a: Id, b: Id): (r: Option<Id>)
    ensures r.None? <==> forall k :: k in conversations ==> !IsWhisperOf(parent, a, b, conversations[k])
    ensures r.Some? ==> r.value in conversations && IsWhisperOf(parent, a, b, conversations[r.value])
  {
    First(conversations, (c: Conversation) => IsWhisperOf(parent, a, b, c))
  }

  function WhisperThread(parent: Id, me: Id, meName: string, recipient: Id, recipientName: string): (c: Conversation)
    ensures IsWhisperOf(parent, me, recipient, c)
    ensures c.isGroup && c.admin == Some(me) && c.participants == [me, recipient]
  {
    Conversation(Some("Whisper: " + meName + " & " + recipientName), true, [me, recipient], None, Some(me),
                 false, false, None, true, Some(parent), false, None)
  }

  /** The system message announcing the thread in the parent chat. */
  function WhisperNotice(parent: Id, me: Id, meName: string, recipientName: string, thread: Id): (m: Message)
    ensures m.conversationId == parent && m.senderId == me && m.messageType == "system"
    ensures m.relatedConversationId == Some(thread)
  {
    var content := meName + " started a whisper thread with " + recipientName + ".";
    var d := SimpleDraft(parent, me, content, "system").(relatedConversationId := Some(thread));
    assert content[|content| - 1] == '.';
    CreateMessage(d).value
  }

  /** An event addressed to the socket of one of the given users. */
  predicate ToOneOf(sockets: map<Id, SocketId>, users: set<Id>, e: Event) {
    exists u :: u in users && u in sockets && e.target == ToSocket(sockets[u])
  }

  lemma ToUserToOneOf(sockets: map<Id, SocketId>, u: Id, users: set<Id>, p: Payload)
    requires u in users
    ensures forall e :: e in ToUser(sockets, u, p) ==> ToOneOf(sockets, users, e)
  {
  }

  /** The creation branch: a thread and an announcement in the parent, sent
      to the two users' sockets. */
  function CreateWhisper(db: Db, sockets: map<Id, SocketId>, me: Id, parent: Id, recipient: Id)
    : (o: Outcome<ConvoView>)
    requires me in db.users && recipient in db.users
    ensures var t := NextId(db.conversations);
      var mid := NextId(db.messages);
      && t !in db.conversations && mid !in db.messages
      && t in o.db.conversations && mid in o.db.messages
      && o.db.conversations == db.conversations[t := o.db.conversations[t]]
      && IsWhisperOf(parent, me, recipient, o.db.conversations[t])
      && o.db.conversations[t].admin == Some(me)
      && o.db.messages == db.messages[mid := o.db.messages[mid]]
      && o.db.messages[mid].conversationId == parent
      && o.db.messages[mid].messageType == "system"
      && o.db.messages[mid].relatedConversationId == Some(t)
      && o.db == db.(conversations := o.db.conversations, messages := o.db.messages)
      && o.reply.Ok? && o.reply.status == 201 && o.reply.body.id == t
    ensures forall e :: e in o.events ==> ToOneOf(sockets, {me, recipient}, e)
  {
    var meName := db.users[me].name;
    var recipientName := db.users[recipient].name;
    var t := NextId(db.conversations);
    var thread := WhisperThread(parent, me, meName, recipient, recipientName);
    var mid := NextId(db.messages);
    var notice := WhisperNotice(parent, me, meName, recipientName, t);
    var db' := db.(conversations := db.conversations[t := thread], messages := db.messages[mid := notice]);
    ToUserToOneOf(sockets, me, {me, recipient}, NewMessage(mid, notice, SenderOf(db.users, me)));
    ToUserToOneOf(sockets, recipient, {me, recipient}, NewMessage(mid, notice, SenderOf(db.users, me)));
    Outcome(ViewReply(db', sockets, t, 201), db',
            ToUser(sockets, me, NewMessage(mid, notice, SenderOf(db.users, me))) + ToUser(sockets, recipient, NewMessage(mid, notice, SenderOf(db.users, me))))
  }

  /** The announcement goes to the initiator's socket and then to the
      recipient's, each when the user has one registered. */
  lemma WhisperAnnouncedToBoth(db: Db, sockets: map<Id, SocketId>, me: Id, parent: Id, recipient: Id)
    requires me in db.users && recipient in db.users
    ensures var o := CreateWhisper(db, sockets, me, parent, recipient);
      var mid := NextId(db.messages);
      o.events == ToUser(sockets, me, NewMessage(mid, o.db.messages[mid], SenderOf(db.users, me))) +
                  ToUser(sockets, recipient, NewMessage(mid, o.db.messages[mid], SenderOf(db.users, me)))
  {
  }

  const NotInParent := "Participants not in the parent conversation."

  /** Both users take part in the parent conversation. */
  predicate BothInParent(db: Db, parent: Id, a: Id, b: Id) {
    parent in db.conversations && a in db.conversations[parent].participants &&
    b in db.conversations[parent].participants
  }

  /** `startWhisperThread`: 403 unless both users are in the parent; an
      existing thread of the two is returned (200) unchanged; a missing
      recipient makes the handler throw before anything is created;
      otherwise `CreateWhisper`. */
  function StartWhisperOutcome(db: Db, sockets: map<Id, SocketId>, me: Id, parent: Id, recipient: Id)
    : (o: Outcome<ConvoView>)
    requires me in db.users
    ensures !BothInParent(db, parent, me, recipient) ==> o == Outcome(Fail(403, NotInParent), db, [])
    ensures BothInParent(db, parent, me, recipient) && FindWhisper(db.conversations, parent, me, recipient).Some? ==>
      o == Outcome(ViewReply(db, sockets, FindWhisper(db.conversations, parent, me, recipient).value, 200), db, [])
    ensures (BothInParent(db, parent, me, recipient) && FindWhisper(db.conversations, parent, me, recipient).None? &&
             recipient !in db.users)
      ==> o == Outcome(Thrown, db, [])
    ensures (BothInParent(db, parent, me, recipient) && FindWhisper(db.conversations, parent, me, recipient).None? &&
             recipient in db.users)
      ==> o == CreateWhisper(db, sockets, me, parent, recipient)
    ensures forall e :: e in o.events ==> ToOneOf(sockets, {me, recipient}, e)
  {
    if !BothInParent(db, parent, me, recipient) then Answer(db, Raised(403, NotInParent))
    else
      var found := FindWhisper(db.conversations, parent, me, recipient);
      if found.Some? then Answer(db, ViewReply(db, sockets, found.value, 200))
      else if recipient !in db.users then Answer(db, Thrown)
      else CreateWhisper(db, sockets, me, parent, recipient)
  }

  /** The announcement never becomes the parent's last message. */
  lemma WhisperLeavesParentLastMessage(db: Db, sockets: map<Id, SocketId>, me: Id, parent: Id, recipient: Id)
    requires me in db.users && parent in db.conversations
    ensures var o := StartWhisperOutcome(db, sockets, me, parent, recipient);
      parent in o.db.conversations && o.db.conversations[parent] == db.conversations[parent]
  {
    var o := StartWhisperOutcome(db, sockets, me, parent, recipient);
    if BothInParent(db, parent, me, recipient) && FindWhisper(db.conversations, parent, me, recipient).None? &&
       recipient in db.users {
      assert parent != NextId(db.conversations);
    }
  }

  method StartWhisperThread(srv: Server, me: Id, parent: Id, recipient: Id) returns (reply: Reply<ConvoView>)
    requires me in srv.db.users
    modifies srv`db, srv`events
    ensures var o := StartWhisperOutcome(old(srv.db), srv.sockets, me, parent, recipient);
      srv.db == o.db && reply == o.reply && srv.events == old(srv.events) + o.events
  {
    if !BothInParent(srv.db, parent, me, recipient) {
      return Raised(403, NotInParent);
    }
    var found := FindWhisper(srv.db.conversations, parent, me, recipient);
    if found.Some? {
      return ViewReply(srv.db, srv.sockets, found.value, 200);
    }
    if recipient !in srv.db.users {
      return Thrown;
    }
    reply := OpenWhisper(srv, me, parent, recipient);
  }

  /** The creation branch of `startWhisperThread`, step by step. */
  method OpenWhisper(srv: Server, me: Id, parent: Id, recipient: Id) returns (reply: Reply<ConvoView>)
    requires me in srv.db.users && recipient in srv.db.users
    modifies srv`db, srv`events
    ensures var o := CreateWhisper(old(srv.db), srv.sockets, me, parent, recipient);
      srv.db == o.db && reply == o.reply && srv.events == old(srv.events) + o.events
  {
    var meName := srv.db.users[me].name;
    var recipientName := srv.db.users[recipient].name;
    var t := NextId(srv.db.conversations);
    var mid := NextId(srv.db.messages);
    var notice := WhisperNotice(parent, me, meName, recipientName, t);
    var thread := WhisperThread(parent, me, meName, recipient, recipientName);
    srv.db := srv.db.(conversations := srv.db.conversations[t := thread], messages := srv.db.messages[mid := notice]);
    var toInitiator := ToUser(srv.sockets, me, NewMessage(mid, notice, SenderOf(srv.db.users, me)));
    var toRecipient := ToUser(srv.sockets, recipient, NewMessage(mid, notice, SenderOf(srv.db.users, me)));
    srv.events := srv.events + (toInitiator + toRecipient);
    reply := ViewReply(srv.db, srv.sockets, t, 201);
  }
}
