/**
 * The `/chat_with_ai` handler: checks the request, renders the user's
 * financial summary, opens a conversation titled with the message, stores the
 * user's message, asks the assistant, stores its reply, and answers with both
 * messages. The clock, the locale formatters and the hosted model are
 * parameters.
 */
module ChatRoute {
  import opened Wrappers
  import opened Records
  import opened ChatSchema
  import opened Sums
  import opened Summary
  import opened AiService
  import opened Jwt
  import opened Http
  import opened Store
  import opened Gate

  /** A rendered summary is never the no-data sentinel: it opens with a line break, the sentinel with 'N'. */
  lemma SummaryIsNotSentinel(r: FinancialRecord, date: Scalar<string> -> string, number: Total -> string)
    requires Hydrated(r)
    ensures RenderSummary(r, date, number) != NoDataSentinel
  {
    var s := RenderSummary(r, date, number);
    assert s[0] == Heading[0] == '\n';
    assert NoDataSentinel[0] == 'N';
  }

  /** So this route always asks with the personalised template, carrying the summary. */
  lemma RouteAsksPersonally(question: string, r: FinancialRecord, date: Scalar<string> -> string, number: Total -> string)
    requires Hydrated(r)
    ensures RequestFor(question, RenderSummary(r, date, number)).messages
      == [ChatMessage("user", Personal(question, RenderSummary(r, date, number)))]
  {
    SummaryIsNotSentinel(r, date, number);
  }

  /**
   * The handler's checks, in order: 400 without a userId, 404 for an unknown
   * user, 400 without a message, 404 without financial data. The answer of
   * the first that fails, or None when the request passes them all.
   */
  function Guard(users: seq<User>, records: seq<FinancialRecord>, userId: Option<Id>, message: Option<string>)
    : (refusal: Option<Response>)
    ensures userId.None? ==> refusal == Some(Fail(400, "Please login first"))
    ensures userId.Some? && FindUserById(users, userId.value).None? ==> refusal == Some(Fail(404, "User not found"))
    ensures userId.Some? && FindUserById(users, userId.value).Some? && Blank(message) ==>
      refusal == Some(Fail(400, "Please enter a message"))
    ensures (userId.Some? && FindUserById(users, userId.value).Some? && !Blank(message)
             && FindRecord(records, userId.value).None?) ==> refusal == Some(Fail(404, "Financial data not found"))
    ensures refusal.None? <==>
      && userId.Some? && FindUserById(users, userId.value).Some?
      && message.Some? && message.value != "" && FindRecord(records, userId.value).Some?
  {
    if userId.None? then Some(Fail(400, "Please login first"))
    else if FindUserById(users, userId.value).None? then Some(Fail(404, "User not found"))
    else if Blank(message) then Some(Fail(400, "Please enter a message"))
    else if FindRecord(records, userId.value).None? then Some(Fail(404, "Financial data not found"))
    else None
  }

  /**
   * The clock as the handler's writes read it: each `create` stamps its
   * document with the time it runs, and the assistant's reply is created only
   * after the assistant call returns.
   */
  datatype Clock = Clock(atConversation: int, atUserMessage: int, atReply: int)

  /** What one turn stores and answers: the conversation, the messages under it, and the response. */
  datatype Turn = Turn(conversation: Conversation, stored: seq<Message>, resp: Response)

  /**
   * The turn for `message` when the assistant's reply is `reply` (None when
   * the assistant call fails), with ids allocated from `nextId`: one
   * conversation titled with the message, the user's message under it, and,
   * when there is a reply, the assistant's message after it. A failed call
   * answers 500 with the first two documents already written.
   */
  function TakeTurn(nextId: Id, userId: Id, message: string, reply: Option<string>, clock: Clock): (t: Turn)
    requires message != ""
    requires reply.Some? ==> reply.value != ""
    ensures t.conversation.id == nextId && t.conversation.userId == userId && t.conversation.title == message
    ensures t.conversation.createdAt == clock.atConversation
    ensures |t.stored| == if reply.Some? then 2 else 1
    ensures forall i :: 0 <= i < |t.stored| ==>
      && t.stored[i].id == nextId + 1 + i && t.stored[i].conversationId == t.conversation.id
      && ValidMessage(t.stored[i])
    ensures t.stored[0].role == "user" && t.stored[0].userId == Some(userId) && t.stored[0].content == message
    ensures t.stored[0].createdAt == clock.atUserMessage
    ensures reply.Some? ==>
      && t.stored[1].role == "ai" && t.stored[1].userId.None? && t.stored[1].content == reply.value
      && t.stored[1].createdAt == clock.atReply
      && t.resp == Response(200, ChatTurn(t.conversation, t.stored), Keep)
    ensures reply.None? ==> t.resp == Fail(500, "Something went wrong")
  {
    var c := NewConversation(nextId, ConversationFields(Some(userId), Some(message)), clock.atConversation);
    var userMsg := NewMessage(nextId + 1, MessageFields(Some(c.id), Some(userId), Some("user"), Some(message), None), clock.atUserMessage);
    if reply.None? then Turn(c, [userMsg], Fail(500, "Something went wrong"))
    else
      var aiMsg := NewMessage(nextId + 2, MessageFields(Some(c.id), None, Some("ai"), reply, None), clock.atReply);
      Turn(c, [userMsg, aiMsg], Response(200, ChatTurn(c, [userMsg, aiMsg]), Keep))
  }

  /**
   * The handler's writes once every guard has passed: the turn for the
   * assistant's reply to the message and summary, stored in order.
   */
  method Converse(db: Db, userId: Id, message: string, summary: string,
                  upstream: CompletionRequest -> Upstream, clock: Clock) returns (resp: Response)
    requires db.Valid() && message != ""
    modifies db
    ensures db.Valid()
    ensures db.users == old(db.users) && db.records == old(db.records)
    ensures db.nextId == old(db.nextId) + |db.conversations| - |old(db.conversations)| + |db.messages| - |old(db.messages)|
    ensures
      var t := TakeTurn(old(db.nextId), userId, message, Ask(message, summary, upstream), clock);
      && db.conversations == old(db.conversations) + [t.conversation]
      && db.messages == old(db.messages) + t.stored
      && resp == t.resp
  {
    var conversation := db.AddConversation(ConversationFields(Some(userId), Some(message)), clock.atConversation);
    assert HasConversation(db.conversations, conversation.id) by {
      assert db.conversations[|db.conversations| - 1] == conversation;
    }
    ghost var messages0 := db.messages;
    var userMsg := db.AddMessage(MessageFields(Some(conversation.id), Some(userId), Some("user"), Some(message), None), clock.atUserMessage);
    var reply := Ask(message, summary, upstream);
    if reply.None? {
      return Fail(500, "Something went wrong");
    }
    var aiMsg := db.AddMessage(MessageFields(Some(conversation.id), None, Some("ai"), reply, None), clock.atReply);
    assert db.messages == messages0 + [userMsg, aiMsg];
    resp := Response(200, ChatTurn(conversation, [userMsg, aiMsg]), Keep);
  }

  /** What the handler adds to the store and answers. */
  datatype Effect = Effect(conversations: seq<Conversation>, messages: seq<Message>, resp: Response)

  /**
   * The handler as a function of the store it starts from: a refusal adds
   * nothing and answers the refusal; otherwise one turn is added for the
   * assistant's reply to the message and the summary of the user's document.
   */
  function Handled(users: seq<User>, records: seq<FinancialRecord>, nextId: Id,
                   userId: Option<Id>, message: Option<string>,
                   date: Scalar<string> -> string, number: Total -> string,
                   upstream: CompletionRequest -> Upstream, clock: Clock): (e: Effect)
    requires forall r :: r in records ==> Hydrated(r)
    ensures Guard(users, records, userId, message).Some? ==>
      e == Effect([], [], Guard(users, records, userId, message).value)
    ensures Guard(users, records, userId, message).None? ==> |e.conversations| == 1 && 1 <= |e.messages| <= 2
  {
    var refusal := Guard(users, records, userId, message);
    if refusal.Some? then Effect([], [], refusal.value)
    else
      var summary := RenderSummary(FindRecord(records, userId.value).value, date, number);
      var t := TakeTurn(nextId, userId.value, message.value, Ask(message.value, summary, upstream), clock);
      Effect([t.conversation], t.stored, t.resp)
  }

  /**
   * Past the guards, the handler stores one conversation titled with the
   * message, the user's message under it and, exactly when the assistant
   * answers, the assistant's message after it, with fresh ids in order; it
   * answers 200 with both, or 500 after the first two writes. The assistant
   * is asked with the personalised prompt carrying the summary of the user's
   * first-found document, and the stored reply is that answer's text.
   */
  lemma HandledTakesTurn(users: seq<User>, records: seq<FinancialRecord>, nextId: Id,
                         userId: Option<Id>, message: Option<string>,
                         date: Scalar<string> -> string, number: Total -> string,
                         upstream: CompletionRequest -> Upstream, clock: Clock)
    requires forall r :: r in records ==> Hydrated(r)
    requires Guard(users, records, userId, message).None?
    ensures var e := Handled(users, records, nextId, userId, message, date, number, upstream, clock);
      && e.conversations[0].id == nextId
      && e.conversations[0].userId == userId.value && e.conversations[0].title == message.value
      && e.conversations[0].createdAt == clock.atConversation && e.messages[0].createdAt == clock.atUserMessage
      && (forall i :: 0 <= i < |e.messages| ==>
            e.messages[i].id == nextId + 1 + i && e.messages[i].conversationId == nextId && ValidMessage(e.messages[i]))
      && e.messages[0].role == "user" && e.messages[0].userId == userId && e.messages[0].content == message.value
      && (|e.messages| == 2 <==> e.resp.status == 200)
      && (|e.messages| == 2 ==>
            && e.messages[1].role == "ai" && e.messages[1].userId.None? && e.messages[1].createdAt == clock.atReply
            && e.resp == Response(200, ChatTurn(e.conversations[0], e.messages), Keep))
      && (|e.messages| == 1 ==> e.resp == Fail(500, "Something went wrong"))
    ensures var summary := RenderSummary(FindRecord(records, userId.value).value, date, number);
      var e := Handled(users, records, nextId, userId, message, date, number, upstream, clock);
      && (|e.messages| == 2 <==> upstream(RequestFor(message.value, summary)).Answered?)
      && (|e.messages| == 2 ==> e.messages[1].content == ReplyText(upstream(RequestFor(message.value, summary)).completion))
      && RequestFor(message.value, summary).messages == [ChatMessage("user", Personal(message.value, summary))]
  {
    var r := FindRecord(records, userId.value).value;
    RouteAsksPersonally(message.value, r, date, number);
  }

  /**
   * The `/chat_with_ai` handler after the gate. A request `Guard` refuses is
   * answered with that refusal and writes nothing. Past the guards, the
   * summary of the user's document that `FindRecord` returns is rendered and the turn for the
   * assistant's reply is stored and answered.
   */
  method ChatWithAi(db: Db, userId: Option<Id>, message: Option<string>,
                    date: Scalar<string> -> string, number: Total -> string,
                    upstream: CompletionRequest -> Upstream, clock: Clock) returns (resp: Response)
    requires db.Valid()
    modifies db
    ensures db.Valid()
    ensures db.users == old(db.users) && db.records == old(db.records)
    ensures var e := Handled(old(db.users), old(db.records), old(db.nextId), userId, message, date, number, upstream, clock);
      db.conversations == old(db.conversations) + e.conversations && db.messages == old(db.messages) + e.messages
      && resp == e.resp
  {
    var refusal := Guard(db.users, db.records, userId, message);
    if refusal.Some? {
      return refusal.value;
    }
    var record := FindRecord(db.records, userId.value);
    var summary := RenderSummary(record.value, date, number);
    resp := Converse(db, userId.value, message.value, summary, upstream, clock);
  }

  /**
   * The route as mounted: the gate first, the handler only when the gate
   * calls `next`. A request the gate turns away is answered 401 and writes
   * nothing; one it lets through is answered and stored as `ChatWithAi`
   * answers and stores it, with `userId` and the message taken from the body.
   * `now` is the clock as the gate reads it; `clock` holds the handler's
   * later readings.
   */
  method ChatRoute(x: Exchange, db: Db, secret: Option<string>, userId: Option<Id>, message: Option<string>,
                   date: Scalar<string> -> string, number: Total -> string,
                   upstream: CompletionRequest -> Upstream, now: int, clock: Clock)
    requires x.Fresh() && db.Valid()
    modifies x, db
    ensures db.Valid() && x.response.Some? && x.cookie == old(x.cookie)
    ensures db.users == old(db.users) && db.records == old(db.records)
    ensures NoToken(old(x.cookie)) || Verify(old(x.cookie).value, secret, now).None? ==>
      && x.response.value.status == 401 && x.user.None?
      && db.conversations == old(db.conversations) && db.messages == old(db.messages) && db.nextId == old(db.nextId)
    ensures !NoToken(old(x.cookie)) && Verify(old(x.cookie).value, secret, now).Some? ==>
      var e := Handled(old(db.users), old(db.records), old(db.nextId), userId, message, date, number, upstream, clock);
      && x.user == Verify(old(x.cookie).value, secret, now)
      && db.conversations == old(db.conversations) + e.conversations && db.messages == old(db.messages) + e.messages
      && x.response == Some(e.resp)
  {
    ghost var e := Handled(db.users, db.records, db.nextId, userId, message, date, number, upstream, clock);
    IsAuthenticated(x, secret, now);
    assert unchanged(db);
    if x.nextCalls == 1 {
      var resp := ChatWithAi(db, userId, message, date, number, upstream, clock);
      assert resp == e.resp;
      x.response := Some(resp);
    }
  }
}
