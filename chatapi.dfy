/** The public developer API for chats, controllers/api_v1/chatApiController.js:
    `getConversations` (the sanitised listing of the key owner's chats) and
    `sendMessage` (posting a text message on the owner's behalf). Both routes
    run behind the API-key check, so `me` is an existing user. */
module ChatApi {
  import opened Common
  import opened Models
  import opened Store
  import opened Http
  import Chat

  // ---------------------------------------------------------------------
  // getConversations

  /** `updatedAt` of each conversation, kept by the store's timestamps. The
      store record does not carry it, so the listing receives it as a map; a
      conversation missing from the map counts as the oldest (stamp 0). */
  function Stamp(updatedAt: map<Id, int>, id: Id): int {
    if id in updatedAt then updatedAt[id] else 0
  }

  /** `.sort({ updatedAt: -1 })`: a places before b when it is not older. */
  function NewerOrSame(updatedAt: map<Id, int>): (Id, Id) -> bool {
    (a: Id, b: Id) => Stamp(updatedAt, a) >= Stamp(updatedAt, b)
  }

  lemma NewerOrSameIsPreorder(updatedAt: map<Id, int>)
    ensures TotalPreorder(NewerOrSame(updatedAt))
  {
  }

  predicate HasMember(c: Conversation, me: Id) {
    me in c.participants
  }

  function IsMemberOf(me: Id): Conversation -> bool {
    (c: Conversation) => HasMember(c, me)
  }

  /** `Conversation.find({ participants: me })` in store order. */
  function MemberIds(db: Db, me: Id): (r: seq<Id>)
    ensures Increasing(r)
    ensures forall k :: k in r <==> k in db.conversations && me in db.conversations[k].participants
  {
    IdsWhere(db.conversations, IsMemberOf(me))
  }

  /** The query result after `.sort({ updatedAt: -1 })`. */
  function Order(db: Db, updatedAt: map<Id, int>, me: Id): (r: seq<Id>)
    ensures multiset(r) == multiset(MemberIds(db, me))
    ensures forall k :: k in r <==> k in db.conversations && me in db.conversations[k].participants
  {
    var r := SortBy(MemberIds(db, me), NewerOrSame(updatedAt));
    assert forall k :: k in r <==> k in multiset(r);
    assert forall k :: k in MemberIds(db, me) <==> k in multiset(MemberIds(db, me));
    r
  }

  datatype ApiParticipant = ApiParticipant(id: Id, name: string, email: Option<string>)
  datatype ApiAdmin = ApiAdmin(id: Id, name: string)

  /** The sanitised conversation: no roleplay, whisper, community or
      last-message data and, for each participant, only id, name and email. */
  datatype ApiConversation = ApiConversation(
    id: Id, name: Option<string>, isGroup: bool, participants: seq<ApiParticipant>, admin: Option<ApiAdmin>)

  datatype Listing = Listing(count: nat, data: seq<ApiConversation>)

  /** A group whose admin is absent or refers to a deleted user populates to
      null, and reading `admin._id` then throws; any other conversation can
      be sanitised. */
  predicate Sanitizable(db: Db, id: Id)
    requires id in db.conversations
  {
    var c := db.conversations[id];
    !c.isGroup || (c.admin.Some? && c.admin.value in db.users)
  }

  function ApiParticipantOf(users: map<Id, User>, id: Id): ApiParticipant
    requires id in users
  {
    ApiParticipant(id, users[id].name, users[id].email)
  }

  /** The map callback of `getConversations`; `None` when it throws. */
  function Sanitize(db: Db, id: Id): (r: Option<ApiConversation>)
    requires id in db.conversations
    ensures r.Some? <==> Sanitizable(db, id)
    ensures r.Some? ==>
      var c := db.conversations[id];
      var present := Chat.Present(db.users, c.participants);
      && r.value.id == id && r.value.name == c.name && r.value.isGroup == c.isGroup
      && |r.value.participants| == |present|
      && (forall i :: 0 <= i < |present| ==>
            && r.value.participants[i].id == present[i]
            && r.value.participants[i].name == db.users[present[i]].name
            && r.value.participants[i].email == db.users[present[i]].email)
      && (r.value.admin.Some? <==> c.isGroup)
      && (c.isGroup ==> r.value.admin == Some(ApiAdmin(c.admin.value, db.users[c.admin.value].name)))
  {
    var c := db.conversations[id];
    if !Sanitizable(db, id) then None
    else
      var present := Chat.Present(db.users, c.participants);
      var participants := seq(|present|, i requires 0 <= i < |present| => ApiParticipantOf(db.users, present[i]));
      var admin := if c.isGroup then Some(ApiAdmin(c.admin.value, db.users[c.admin.value].name)) else None;
      Some(ApiConversation(id, c.name, c.isGroup, participants, admin))
  }

  function ListedIds(data: seq<ApiConversation>): (r: seq<Id>)
    ensures |r| == |data| && forall i :: 0 <= i < |data| ==> r[i] == data[i].id
  {
    seq(|data|, i requires 0 <= i < |data| => data[i].id)
  }

  predicate AllSanitizable(db: Db, me: Id) {
    forall k :: k in db.conversations && me in db.conversations[k].participants ==> Sanitizable(db, k)
  }

  /** `getConversations`: every conversation of the caller, sanitised, most
      recently updated first, with their number. */
  function GetConversationsOutcome(db: Db, updatedAt: map<Id, int>, me: Id): (r: Reply<Listing>)
    ensures r.Ok? <==> AllSanitizable(db, me)
    ensures !r.Ok? ==> r.Thrown?
    ensures r.Ok? ==> r.status == 200 && r.body.count == |r.body.data|
    ensures r.Ok? ==> multiset(ListedIds(r.body.data)) == multiset(MemberIds(db, me))
    ensures r.Ok? ==> forall i :: 0 <= i < |r.body.data| ==>
      var id := r.body.data[i].id;
      id in db.conversations && me in db.conversations[id].participants && Sanitize(db, id) == Some(r.body.data[i])
  {
    if !AllSanitizable(db, me) then Thrown
    else
      var order := Order(db, updatedAt, me);
      OrderSanitizable(db, updatedAt, me);
      var data := Views(db, order);
      Ok(200, Listing(|data|, data))
  }

  /** When every conversation of the caller can be sanitised, so can each
      listed one. */
  lemma OrderSanitizable(db: Db, updatedAt: map<Id, int>, me: Id)
    requires AllSanitizable(db, me)
    ensures var order := Order(db, updatedAt, me);
      forall i :: 0 <= i < |order| ==>
        order[i] in db.conversations && me in db.conversations[order[i]].participants && Sanitizable(db, order[i])
  {
    var order := Order(db, updatedAt, me);
    assert forall i :: 0 <= i < |order| ==> order[i] in order;
  }

  /** The sanitised conversations of the given ids, in that order. */
  function Views(db: Db, ids: seq<Id>): (r: seq<ApiConversation>)
    requires forall i :: 0 <= i < |ids| ==> ids[i] in db.conversations && Sanitizable(db, ids[i])
    ensures ListedIds(r) == ids
    ensures forall i :: 0 <= i < |ids| ==> Sanitize(db, ids[i]) == Some(r[i])
  {
    var r := seq(|ids|, i requires 0 <= i < |ids| => Sanitize(db, ids[i]).value);
    assert ListedIds(r) == ids;
    r
  }

  /** The listing is ordered by `updatedAt`, most recent first. */
  lemma ListingNewestFirst(db: Db, updatedAt: map<Id, int>, me: Id)
    requires GetConversationsOutcome(db, updatedAt, me).Ok?
    ensures var data := GetConversationsOutcome(db, updatedAt, me).body.data;
      forall i, j :: 0 <= i < j < |data| ==> Stamp(updatedAt, data[i].id) >= Stamp(updatedAt, data[j].id)
  {
    var order := Order(db, updatedAt, me);
    OrderSorted(db, updatedAt, me);
    var data := GetConversationsOutcome(db, updatedAt, me).body.data;
    assert ListedIds(data) == order;
    forall i, j | 0 <= i < j < |data|
      ensures Stamp(updatedAt, data[i].id) >= Stamp(updatedAt, data[j].id)
    {
      assert NewerOrSame(updatedAt)(order[i], order[j]);
    }
  }

  lemma OrderSorted(db: Db, updatedAt: map<Id, int>, me: Id)
    ensures SortedBy(Order(db, updatedAt, me), NewerOrSame(updatedAt))
  {
    NewerOrSameIsPreorder(updatedAt);
    SortBySorted(MemberIds(db, me), NewerOrSame(updatedAt));
  }

  // ---------------------------------------------------------------------
  // sendMessage

  const ContentRequired: string := "Message content is required."
  const NotAMember: string := "You are not a member of this conversation."

  /** The created message, with its id and populated sender. */
  datatype Posted = Posted(id: Id, message: Message, sender: Option<SenderView>)


  /** The record `Message.create` stores for an API message: a text message
      with the schema defaults, which always passes validation once the
      content is non-empty. */
  function ApiMessage(conversationId: Id, me: Id, content: string): (m: Message)
    requires content != []
    ensures m.conversationId == conversationId && m.senderId == me && m.content == content
    ensures m.messageType == "text" && m.readStatus == "sent" && m.deliveryMethod == "server"
    ensures m.safety == SafetyAnalysis("safe", None, None)
  {
    CreateMessage(SimpleDraft(conversationId, me, content, "text")).value
  }

  /** `sendMessage`: an empty body is refused with 400, a conversation the
      caller does not belong to (or that does not exist) with 403; otherwise
      the message is stored, becomes the conversation's last message and is
      emitted to the conversation's room with its sender populated, the same
      document the reply carries. */
  function SendOutcome(db: Db, me: Id, conversationId: Id, content: Option<string>): (o: Outcome<Posted>)
    ensures !Truthy(content) ==> o == Outcome(Fail(400, ContentRequired), db, [])
    ensures Truthy(content) && !(conversationId in db.conversations && me in db.conversations[conversationId].participants) ==>
      o == Outcome(Fail(403, NotAMember), db, [])
    ensures o.reply.Ok? <==>
      Truthy(content) && conversationId in db.conversations && me in db.conversations[conversationId].participants
    ensures o.reply.Ok? ==>
      var id := o.reply.body.id;
      var m := o.reply.body.message;
      && o.reply.status == 201
      && id !in db.messages
      && m == ApiMessage(conversationId, me, content.value)
      && o.reply.body.sender == SenderOf(db.users, me)
      && o.db == db.(messages := db.messages[id := m],
                     conversations := db.conversations[conversationId :=
                       db.conversations[conversationId].(lastMessage := Some(id))])
      && o.events == [Emit(Room(conversationId), NewMessage(id, m, o.reply.body.sender))]
  {
    if !Truthy(content) then Outcome(Fail(400, ContentRequired), db, [])
    else if conversationId !in db.conversations || me !in db.conversations[conversationId].participants then
      Outcome(Fail(403, NotAMember), db, [])
    else
      var m := ApiMessage(conversationId, me, content.value);
      var id := NextId(db.messages);
      var c := db.conversations[conversationId];
      Outcome(Ok(201, Posted(id, m, SenderOf(db.users, me))),
              db.(messages := db.messages[id := m],
                  conversations := db.conversations[conversationId := c.(lastMessage := Some(id))]),
              [Emit(Room(conversationId), NewMessage(id, m, SenderOf(db.users, me)))])
  }

  method SendMessage(srv: Server, me: Id, conversationId: Id, content: Option<string>) returns (reply: Reply<Posted>)
    modifies srv`db, srv`events
    ensures var o := SendOutcome(old(srv.db), me, conversationId, content);
      reply == o.reply && srv.db == o.db && srv.events == old(srv.events) + o.events
  {
    if !Truthy(content) {
      return Fail(400, ContentRequired);
    }
    if conversationId !in srv.db.conversations || me !in srv.db.conversations[conversationId].participants {
      return Fail(403, NotAMember);
    }
    var message := ApiMessage(conversationId, me, content.value);
    var id := NextId(srv.db.messages);
    var conversation := srv.db.conversations[conversationId];
    srv.db := srv.db.(messages := srv.db.messages[id := message],
                      conversations := srv.db.conversations[conversationId := conversation.(lastMessage := Some(id))]);
    var sender := SenderOf(srv.db.users, me);
    srv.events := srv.events + [Emit(Room(conversationId), NewMessage(id, message, sender))];
    reply := Ok(201, Posted(id, message, sender));
  }

  /** In a list ordered newest first, the one entry strictly newer than all
      others comes first. */
  lemma NewestComesFirst(ids: seq<Id>, stamps: map<Id, int>, x: Id)
    requires x in ids
    requires forall i, j :: 0 <= i < j < |ids| ==> Stamp(stamps, ids[i]) >= Stamp(stamps, ids[j])
    requires forall y :: y in ids && y != x ==> Stamp(stamps, y) < Stamp(stamps, x)
    ensures ids[0] == x
  {
    var j :| 0 <= j < |ids| && ids[j] == x;
    if j > 0 {
      assert Stamp(stamps, ids[0]) >= Stamp(stamps, ids[j]);
    }
  }

  /** The sender stays a participant of the conversation posted to. */
  lemma SendKeepsMembership(db: Db, me: Id, conversationId: Id, content: Option<string>)
    requires SendOutcome(db, me, conversationId, content).reply.Ok?
    ensures conversationId in MemberIds(SendOutcome(db, me, conversationId, content).db, me)
  {
    var db1 := SendOutcome(db, me, conversationId, content).db;
    assert db1.conversations[conversationId].participants == db.conversations[conversationId].participants;
  }

  /** A conversation of the caller updated strictly after all others heads
      the caller's listing. */
  lemma ListingHead(db: Db, stamps: map<Id, int>, me: Id, x: Id)
    requires x in MemberIds(db, me)
    requires forall k :: k in stamps && k != x ==> Stamp(stamps, k) < Stamp(stamps, x)
    requires Stamp(stamps, x) > 0
    ensures var r := GetConversationsOutcome(db, stamps, me);
      r.Ok? ==> |r.body.data| > 0 && r.body.data[0].id == x
  {
    var r := GetConversationsOutcome(db, stamps, me);
    if r.Ok? {
      var ids := ListedIds(r.body.data);
      assert x in multiset(MemberIds(db, me));
      assert x in ids by { assert x in multiset(ids); }
      ListingNewestFirst(db, stamps, me);
      NewestComesFirst(ids, stamps, x);
    }
  }

  /** A message sent through the API keeps the conversation in the caller's
      listing; and when the send is the latest update (the store bumps
      `updatedAt` to `now`), that conversation heads the listing. */
  lemma SentConversationHeadsListing(db: Db, updatedAt: map<Id, int>, me: Id, conversationId: Id,
                                     content: Option<string>, now: int)
    requires SendOutcome(db, me, conversationId, content).reply.Ok?
    requires forall k :: k in updatedAt && k != conversationId ==> updatedAt[k] < now
    requires now > 0
    ensures var db1 := SendOutcome(db, me, conversationId, content).db;
      var r := GetConversationsOutcome(db1, updatedAt[conversationId := now], me);
      r.Ok? ==> |r.body.data| > 0 && r.body.data[0].id == conversationId
  {
    var db1 := SendOutcome(db, me, conversationId, content).db;
    var stamps := updatedAt[conversationId := now];
    SendKeepsMembership(db, me, conversationId, content);
    LatestStampHighest(updatedAt, conversationId, now);
    ListingHead(db1, stamps, me, conversationId);
  }

  /** Bumping one conversation to a time after every other stamp makes it
      the strictly newest. */
  lemma LatestStampHighest(updatedAt: map<Id, int>, x: Id, now: int)
    requires forall k :: k in updatedAt && k != x ==> updatedAt[k] < now
    requires now > 0
    ensures var stamps := updatedAt[x := now];
      && Stamp(stamps, x) == now
      && forall k :: k in stamps && k != x ==> Stamp(stamps, k) < Stamp(stamps, x)
  {
  }
}
