/** The state of a running backend: the document store (one map per
    collection), the socket registry `userSocketMap`, the log of Socket.IO
    emits and the global maintenance flag. */
module Store {
  import opened Common
  import opened Models
  import opened Http

  /** The collections of the store, each a map from document id to record. */
  datatype Db = Db(
    users: map<Id, User>,
    conversations: map<Id, Conversation>,
    messages: map<Id, Message>,
    flags: map<Id, FeatureFlag>,
    settings: Option<Settings>,
    communities: map<Id, Community>,
    items: map<Id, MarketplaceItem>,
    transactions: map<Id, Transaction>,
    apiKeys: map<Id, ApiKey>,
    tasks: map<Id, StudyTask>,
    decks: map<Id, FlashcardDeck>,
    cards: map<Id, Flashcard>,
    resources: map<Id, Resource>)

  const EmptyDb: Db := Db(map[], map[], map[], map[], None, map[], map[], map[], map[], map[], map[], map[], map[])

  /** Who an emit is addressed to: every connected socket (`io.emit`), the
      sockets that joined a conversation's room (`io.to(conversationId)`), or
      one socket (`io.to(socketId)`). */
  datatype Target = Everyone | Room(conversation: Id) | ToSocket(socket: SocketId)

  /** A message's sender as `populate('senderId', 'name avatar')` yields it. */
  datatype SenderView = SenderView(id: Id, name: string, avatar: string)

  /** `populate('senderId', 'name avatar')`: the sender's name and avatar,
      or nothing when the user no longer exists. */
  function SenderOf(users: map<Id, User>, id: Id): (r: Option<SenderView>)
    ensures r.Some? <==> id in users
  {
    if id in users then Some(SenderView(id, users[id].name, users[id].avatar)) else None
  }

  /** The events the backend emits, with their payloads. Every `newMessage`
      is emitted after its `senderId` was populated, so it carries the
      sender's view beside the stored message. */
  datatype Payload =
    | NewMessage(messageId: Id, message: Message, sender: Option<SenderView>)
    | MessageSafetyUpdate(messageId: Id, conversationId: Id, analysis: SafetyAnalysis)
    | MessageDeleted(messageId: Id, conversationId: Id)
    | UserStatus(userId: Id, isOnline: bool, lastSeen: Option<int>)
    | PresenceUpdate(userId: Id, presence: Presence)
    | VerificationStatusUpdate(status: VerificationStatus)

  datatype Event = Emit(target: Target, payload: Payload)

  /** What a handler does: the reply, the store afterwards and the events it
      emits, in order. */
  datatype Outcome<T> = Outcome(reply: Reply<T>, db: Db, events: seq<Event>)

  /** A confirmation text together with the (redacted) user record. */
  datatype UserReply = UserReply(message: string, user: User)

  /** A handler that answers without touching the store or emitting. */
  function Answer<T>(db: Db, reply: Reply<T>): (o: Outcome<T>)
    ensures o.reply == reply && o.db == db && o.events == []
  {
    Outcome(reply, db, [])
  }

  /** The process-wide mutable state of the server. */
  class Server {
    var db: Db
    /** `userSocketMap`: the socket id of each connected user. */
    var sockets: map<Id, SocketId>
    /** Every emit so far, oldest first. */
    var events: seq<Event>
    /** `global.MAINTENANCE_MODE`. */
    var maintenance: bool

    /** A freshly started server over a given store. */
    constructor (db0: Db)
      ensures db == db0 && sockets == map[] && events == [] && !maintenance
    {
      db := db0;
      sockets := map[];
      events := [];
      maintenance := false;
    }
  }

  /** `io.to(socketId)` for a user when the registry holds a socket for them. */
  function ToUser(sockets: map<Id, SocketId>, userId: Id, p: Payload): (es: seq<Event>)
    ensures userId in sockets ==> es == [Emit(ToSocket(sockets[userId]), p)]
    ensures userId !in sockets ==> es == []
  {
    if userId in sockets then [Emit(ToSocket(sockets[userId]), p)] else []
  }
}
