/**
 * The Conversation and Message document schemas: the fields a create call
 * supplies, the checks made before the document is stored, and the document
 * that results (with its id and timestamps).
 */
module ChatSchema {
  import opened Wrappers
  import opened Records

  const MessageRoles: set<string> := {"user", "ai"}

  /** The fields given to `Conversation.create`. */
  datatype ConversationFields = ConversationFields(userId: Option<Id>, title: Option<string>)

  /** A stored conversation; `createdAt`/`updatedAt` are the schema's timestamps. */
  datatype Conversation = Conversation(id: Id, userId: Id, title: string, createdAt: int, updatedAt: int)

  /** The fields given to `Message.create`. */
  datatype MessageFields = MessageFields(
    conversationId: Option<Id>, userId: Option<Id>, role: Option<string>,
    content: Option<string>, voiceUrl: Option<string>)

  /** A stored message; `voiceUrl == None` is the schema's `null` default. */
  datatype Message = Message(
    id: Id, conversationId: Id, userId: Option<Id>, role: string,
    content: string, voiceUrl: Option<string>, createdAt: int, updatedAt: int)

  /** Both fields are required, and a required string must not be empty. */
  predicate ValidConversationFields(f: ConversationFields) {
    f.userId.Some? && f.title.Some? && f.title.value != ""
  }

  /** conversationId, role and content are required, role is `user` or `ai`; userId is optional. */
  predicate ValidMessageFields(f: MessageFields) {
    && f.conversationId.Some?
    && f.role.Some? && f.role.value in MessageRoles
    && f.content.Some? && f.content.value != ""
  }

  /** The conversation document that validated fields become at time `now`. */
  function NewConversation(id: Id, f: ConversationFields, now: int): (c: Conversation)
    requires ValidConversationFields(f)
    ensures c.id == id && Some(c.userId) == f.userId && Some(c.title) == f.title && c.title != ""
    ensures c.createdAt == c.updatedAt == now
  {
    Conversation(id, f.userId.value, f.title.value, now, now)
  }

  /** The message document that validated fields become at time `now`. */
  function NewMessage(id: Id, f: MessageFields, now: int): (m: Message)
    requires ValidMessageFields(f)
    ensures m.id == id && Some(m.conversationId) == f.conversationId && m.userId == f.userId
    ensures Some(m.role) == f.role && m.role in MessageRoles
    ensures Some(m.content) == f.content && m.content != ""
    ensures m.voiceUrl == f.voiceUrl
    ensures m.createdAt == m.updatedAt == now
  {
    Message(id, f.conversationId.value, f.userId, f.role.value, f.content.value, f.voiceUrl, now, now)
  }

  /** A stored message satisfies the schema. */
  predicate ValidMessage(m: Message) {
    m.role in MessageRoles && m.content != ""
  }

  /** An assistant message needs no userId. */
  lemma AiMessageNeedsNoUser(conversationId: Id, content: string)
    requires content != ""
    ensures ValidMessageFields(MessageFields(Some(conversationId), None, Some("ai"), Some(content), None))
  {
  }

  /** The role enumeration is closed. */
  lemma RoleOutsideEnumRejected(f: MessageFields)
    requires f.role.Some? && f.role.value != "user" && f.role.value != "ai"
    ensures !ValidMessageFields(f)
  {
  }

  /** The schemas a model registry can hold. */
  datatype Schema = ConversationSchema | MessageSchema

  /** `mongoose.models.Conversation || mongoose.model('Conversation', schema)`: returns the registered schema. */
  function DefineConversation(registry: map<string, Schema>): (r: (map<string, Schema>, Schema))
    ensures "Conversation" in r.0 && r.0["Conversation"] == r.1
    ensures "Conversation" in registry ==> r == (registry, registry["Conversation"])
    ensures "Conversation" !in registry ==> r.0 == registry["Conversation" := ConversationSchema]
  {
    if "Conversation" in registry then (registry, registry["Conversation"])
    else (registry["Conversation" := ConversationSchema], ConversationSchema)
  }

  /** Defining the Conversation model a second time reuses the first: registration is idempotent. */
  lemma DefineConversationIdempotent(registry: map<string, Schema>)
    ensures DefineConversation(DefineConversation(registry).0) == DefineConversation(registry)
  {
  }

  /**
   * `mongoose.model('Message', schema)` with no guard: registering a name twice
   * fails (None).
   */
  function DefineMessage(registry: map<string, Schema>): (r: Option<(map<string, Schema>, Schema)>)
    ensures r.None? <==> "Message" in registry
    ensures r.Some? ==> r.value.0 == registry["Message" := MessageSchema] && r.value.1 == MessageSchema
  {
    if "Message" in registry then None
    else Some((registry["Message" := MessageSchema], MessageSchema))
  }
}
