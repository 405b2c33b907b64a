/** The stored records of the backend (its Mongoose schemas): messages,
    users, conversations, API keys and the smaller collections the
    controllers touch. Enumerated string fields are subset types of `string`
    whose members are exactly the schema's `enum` list, so a record that
    exists has passed the schema's enum validators. */
module Models {
  import opened Common
  import opened Text

  // ---------------------------------------------------------------------
  // Message (models/messageModel.js)

  const MessageTypes: seq<string> := ["text", "image", "audio", "document", "capsule", "system"]
  const ReadStatuses: seq<string> := ["sent", "delivered", "glimpsed", "read"]
  const SafetyStatuses: seq<string> := ["pending", "safe", "warning"]
  const ThreatKinds: seq<string> := ["deepfake", "scam_link"]
  const AdminActions: seq<string> := ["dismissed", "deleted"]
  const DeliveryMethods: seq<string> := ["server", "p2p", "mesh"]

  type MessageType = s: string | s in MessageTypes witness "text"
  type ReadStatus = s: string | s in ReadStatuses witness "sent"
  type SafetyStatus = s: string | s in SafetyStatuses witness "safe"
  type ThreatKind = s: string | s in ThreatKinds witness "deepfake"
  type AdminActionKind = s: string | s in AdminActions witness "dismissed"
  type DeliveryMethod = s: string | s in DeliveryMethods witness "server"

  /** The safety verdict of a message. The scan's update does not run the
      schema's validators, but the only kinds it can store are the ones the
      classifier's response schema allows, which are the schema's own; a
      later `save()` of the message therefore validates. */
  datatype SafetyAnalysis = SafetyAnalysis(status: SafetyStatus, kind: Option<ThreatKind>, reason: Option<string>)

  datatype AdminAction = AdminAction(action: AdminActionKind, adminId: Id, timestamp: int)

  datatype Message = Message(
    conversationId: Id,
    senderId: Id,
    content: string,
    messageType: MessageType,
    duration: Option<int>,
    fileName: Option<string>,
    fileSize: Option<int>,
    releaseAt: Option<int>,
    readStatus: ReadStatus,
    safety: SafetyAnalysis,
    relatedConversationId: Option<Id>,
    systemParticipants: seq<string>,
    adminAction: Option<AdminAction>,
    deliveryMethod: DeliveryMethod)

  /** The plain object handed to `Message.create`: what the handler supplies,
      before the schema casts, validates and fills in defaults. Unknown keys
      such as `isAiTwinMessage` are carried here and dropped by `CreateMessage`. */
  datatype MessageDraft = MessageDraft(
    conversationId: Id,
    senderId: Id,
    content: Option<string>,
    messageType: Option<string>,
    duration: Option<int>,
    fileName: Option<string>,
    fileSize: Option<int>,
    releaseAt: Option<int>,
    readStatus: Option<string>,
    safetyStatus: Option<string>,
    relatedConversationId: Option<Id>,
    systemParticipants: seq<string>,
    isAiTwinMessage: bool)

  /** A draft with only the three required fields and a type. */
  function SimpleDraft(conversationId: Id, senderId: Id, content: string, messageType: string): MessageDraft {
    MessageDraft(conversationId, senderId, Some(content), Some(messageType), None, None, None, None,
                 None, None, None, [], false)
  }

  /** `Message.create(draft)`: fails (the schema throws a validation error)
      when `content` is missing or empty, or an enumerated field holds a value
      outside its list; otherwise absent fields take the schema defaults
      (type text, status sent, verdict safe, delivery server). */
  function CreateMessage(d: MessageDraft): (r: Option<Message>)
    ensures r.Some? <==>
      && Truthy(d.content)
      && (d.messageType.None? || d.messageType.value in MessageTypes)
      && (d.readStatus.None? || d.readStatus.value in ReadStatuses)
      && (d.safetyStatus.None? || d.safetyStatus.value in SafetyStatuses)
    ensures r.Some? ==>
      && r.value.conversationId == d.conversationId
      && r.value.senderId == d.senderId
      && r.value.content == d.content.value
      && r.value.messageType == (if d.messageType.Some? then d.messageType.value else "text")
      && r.value.readStatus == (if d.readStatus.Some? then d.readStatus.value else "sent")
      && r.value.safety == SafetyAnalysis(if d.safetyStatus.Some? then d.safetyStatus.value else "safe", None, None)
      && r.value.deliveryMethod == "server"
      && r.value.adminAction.None?
  {
    if !Truthy(d.content) then None
    else if d.messageType.Some? && d.messageType.value !in MessageTypes then None
    else if d.readStatus.Some? && d.readStatus.value !in ReadStatuses then None
    else if d.safetyStatus.Some? && d.safetyStatus.value !in SafetyStatuses then None
    else
      var kind: MessageType := if d.messageType.Some? then d.messageType.value else "text";
      var read: ReadStatus := if d.readStatus.Some? then d.readStatus.value else "sent";
      var status: SafetyStatus := if d.safetyStatus.Some? then d.safetyStatus.value else "safe";
      Some(Message(d.conversationId, d.senderId, d.content.value, kind, d.duration, d.fileName,
                   d.fileSize, d.releaseAt, read, SafetyAnalysis(status, None, None),
                   d.relatedConversationId, d.systemParticipants, None, "server"))
  }

  /** Two drafts that differ only in the unknown `isAiTwinMessage` key create
      the same record. */
  lemma CreateIgnoresAiTwinMark(d: MessageDraft, mark: bool)
    ensures CreateMessage(d.(isAiTwinMessage := mark)) == CreateMessage(d)
  {
  }

  // ---------------------------------------------------------------------
  // User (models/userModel.js)

  const Roles: seq<string> := ["user", "creator", "admin"]
  const Themes: seq<string> := ["light", "dark"]
  const PresenceStatuses: seq<string> := ["online", "away", "busy", "driving", "sleeping"]
  const VerificationStatuses: seq<string> := ["none", "pending", "verified", "rejected"]
  const AcademicStatuses: seq<string> := ["Student", "Faculty", "Alumni", "Staff"]

  type Role = s: string | s in Roles witness "user"
  type Theme = s: string | s in Themes witness "dark"
  type PresenceStatus = s: string | s in PresenceStatuses witness "online"
  type VerificationStatus = s: string | s in VerificationStatuses witness "none"

  datatype Presence = Presence(status: PresenceStatus, message: Option<string>)

  /** The academic sub-document as supplied by a client; `status` is checked
      against its enum when the user is saved. */
  datatype AcademicProfile = AcademicProfile(institution: Option<string>, status: Option<string>, subjects: seq<string>)

  predicate ValidAcademicProfile(p: AcademicProfile) {
    p.status.None? || p.status.value in AcademicStatuses
  }

  datatype User = User(
    name: string,
    email: Option<string>,
    password: Option<string>,
    avatar: string,
    isAnonymous: bool,
    isCreator: bool,
    role: Role,
    theme: Theme,
    language: string,
    lastSeen: Option<int>,
    purchasedItems: seq<Id>,
    aiTwinStyleProfile: Option<string>,
    aiTwinLastTrained: Option<int>,
    isAiTwinAutoReplyEnabled: bool,
    isTwoFactorEnabled: bool,
    twoFactorSecret: Option<string>,
    isVerified: bool,
    verificationStatus: VerificationStatus,
    academicProfile: Option<AcademicProfile>,
    presence: Presence)

  /** A user record as `User.create` builds it from the given fields, every
      other modelled field at its schema default or unset. */
  function NewUser(name: string, email: Option<string>, password: Option<string>, avatar: Option<string>, isAnonymous: bool): (u: User)
    ensures u.name == name && u.email == email && u.password == password && u.isAnonymous == isAnonymous
    ensures u.avatar == (if avatar.Some? then avatar.value else "A")
    ensures u.role == "user" && !u.isCreator && u.theme == "dark" && u.language == "en"
    ensures u.presence == Presence("online", None)
    ensures !u.isVerified && u.verificationStatus == "none"
    ensures !u.isAiTwinAutoReplyEnabled && u.aiTwinStyleProfile.None?
    ensures !u.isTwoFactorEnabled && u.twoFactorSecret.None?
    ensures u.purchasedItems == []
    ensures u.lastSeen.None? && u.aiTwinLastTrained.None? && u.academicProfile.None?
  {
    User(name, email, password, if avatar.Some? then avatar.value else "A", isAnonymous, false, "user",
         "dark", "en", None, [], None, None, false, false, None, false, "none", None, Presence("online", None))
  }

  /** The pre-save hook: the password is replaced by its hash only when it was
      modified and is non-empty. `hash` stands for bcrypt with a fresh salt. */
  function PreSave(u: User, passwordModified: bool, hash: string -> string): (r: User)
    ensures r.password != u.password ==> passwordModified && Truthy(u.password)
    ensures passwordModified && Truthy(u.password) ==> r.password == Some(hash(u.password.value))
    ensures r == u.(password := r.password)
  {
    if !passwordModified || !Truthy(u.password) then u
    else u.(password := Some(hash(u.password.value)))
  }

  /** `user.matchPassword(entered)`: false when no password is stored,
      otherwise bcrypt's comparison of the entry with the stored hash. */
  predicate MatchPassword(u: User, entered: string, compare: (string, string) -> bool) {
    Truthy(u.password) && compare(entered, u.password.value)
  }

  lemma MatchPasswordNeedsPassword(u: User, entered: string, compare: (string, string) -> bool)
    requires !Truthy(u.password)
    ensures !MatchPassword(u, entered, compare)
  {
  }

  /** A user stored through the hook with a fresh password accepts that
      password whenever bcrypt accepts a plain text against its own hash. */
  lemma HashedPasswordMatches(u: User, hash: string -> string, compare: (string, string) -> bool)
    requires Truthy(u.password) && hash(u.password.value) != ""
    requires compare(u.password.value, hash(u.password.value))
    ensures MatchPassword(PreSave(u, true, hash), u.password.value, compare)
  {
  }

  /** `user.toObject()` with `password` and `twoFactorSecret` deleted. */
  function Redacted(u: User): (r: User)
    ensures r.password.None? && r.twoFactorSecret.None?
    ensures r == u.(password := None, twoFactorSecret := None)
  {
    u.(password := None, twoFactorSecret := None)
  }

  // ---------------------------------------------------------------------
  // Conversation (models/conversationModel.js)

  datatype CharacterRole = CharacterRole(userId: Id, characterName: string)
  datatype RoleplaySettings = RoleplaySettings(scenario: string, characterRoles: seq<CharacterRole>)

  /** `participants` is a plain list: the schema does not forbid repeats. */
  datatype Conversation = Conversation(
    name: Option<string>,
    isGroup: bool,
    participants: seq<Id>,
    lastMessage: Option<Id>,
    admin: Option<Id>,
    isCognitive: bool,
    isRoleplayRoom: bool,
    roleplaySettings: Option<RoleplaySettings>,
    isWhisperThread: bool,
    parentConversationId: Option<Id>,
    isCommunityChat: bool,
    communityId: Option<Id>)

  /** A conversation created with the given participants, every flag at its
      default (false) and every optional reference absent. */
  function NewConversation(participants: seq<Id>): (c: Conversation)
    ensures c.participants == participants
    ensures !c.isGroup && !c.isCognitive && !c.isRoleplayRoom && !c.isWhisperThread && !c.isCommunityChat
    ensures c.name.None? && c.lastMessage.None? && c.admin.None? && c.roleplaySettings.None?
    ensures c.parentConversationId.None? && c.communityId.None?
  {
    Conversation(None, false, participants, None, None, false, false, None, false, None, false, None)
  }

  // ---------------------------------------------------------------------
  // API key (models/apiKeyModel.js)

  datatype ApiKey = ApiKey(
    keyHash: string,
    keyPrefix: string,
    owner: Id,
    usageCount: nat,
    lastUsedAt: Option<int>,
    isActive: bool,
    createdAt: int)

  /** A key record as created: only hash, prefix and owner are given. */
  function NewApiKey(keyHash: string, keyPrefix: string, owner: Id, now: int): (k: ApiKey)
    ensures k.keyHash == keyHash && k.keyPrefix == keyPrefix && k.owner == owner
    ensures k.usageCount == 0 && k.isActive && k.lastUsedAt.None? && k.createdAt == now
  {
    ApiKey(keyHash, keyPrefix, owner, 0, None, true, now)
  }

  // ---------------------------------------------------------------------
  // The smaller collections

  datatype FeatureFlag = FeatureFlag(name: string, description: string, isEnabled: bool)

  /** The site settings singleton; every field is an optional string. */
  datatype Settings = Settings(
    logoUrl: Option<string>,
    primaryColor: Option<string>,
    accentColor: Option<string>,
    companyName: Option<string>,
    contactEmail: Option<string>,
    contactPhone: Option<string>,
    address: Option<string>,
    aboutUs: Option<string>,
    founderName: Option<string>,
    founderInfo: Option<string>,
    founderContact: Option<string>)

  const Categories: seq<string> := ["Study Group", "Social Club", "Campus Event", "Resource Hub"]
  type Category = s: string | s in Categories witness "Social Club"

  datatype Community = Community(
    name: string,
    description: string,
    creator: Id,
    category: Category,
    conversation: Id,
    members: seq<Id>)

  const TransactionStatuses: seq<string> := ["completed", "failed", "pending"]
  type TransactionStatus = s: string | s in TransactionStatuses witness "completed"

  datatype TransactionDetails = TransactionDetails(kind: Option<string>, itemId: Option<Id>, title: Option<string>)

  /** Amounts are whole numbers here (see the README). `day` is the creation
      date counted in days. */
  datatype Transaction = Transaction(
    fromUser: Id,
    toUser: Id,
    amount: int,
    currency: string,
    status: TransactionStatus,
    paymentId: string,
    details: TransactionDetails,
    day: int)

  datatype MarketplaceItem = MarketplaceItem(
    creator: Id,
    title: string,
    description: string,
    price: int,
    thumbnailUrl: string,
    assetUrl: string)

  datatype StudyTask = StudyTask(title: string, dueDate: int, isCompleted: bool, createdBy: Id, conversationId: Id)

  datatype FlashcardDeck = FlashcardDeck(name: string, conversationId: Id, cards: seq<Id>)

  datatype Flashcard = Flashcard(deck: Id, front: string, back: string)

  const FileTypes: seq<string> := ["document", "video", "image"]
  type FileType = s: string | s in FileTypes witness "document"

  datatype Resource = Resource(
    title: string,
    description: Option<string>,
    fileUrl: string,
    fileName: string,
    fileType: FileType,
    uploader: Id,
    community: Id)
}
