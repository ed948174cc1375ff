/**
 * The backend's document collections held in memory: users, financial
 * documents, conversations and messages, with the lookups the controllers use
 * (`findOne`, `findById`) and the inserts they make (`save`, `create`).
 * Documents are appended in insertion order, and a lookup is modelled as
 * returning the first match in that order (the database itself promises only
 * some match when no sort is given).
 */
module Store {
  import opened Wrappers
  import opened Records
  import opened FinancialSchema
  import opened ChatSchema

  /** A stored user; `password` holds whatever the hash function produced. */
  datatype User = User(id: Id, name: string, email: string, password: string)

  /** The user as a response carries it: `_id`, `name` and `email`, never the password. */
  function Public(u: User): (p: PublicUser)
    ensures p.id == u.id && p.name == u.name && p.email == u.email
  {
    PublicUser(u.id, u.name, u.email)
  }

  /** `User.findOne({ email })`: the first user with exactly this email. */
  function FindUserByEmail(users: seq<User>, email: string): (r: Option<User>)
    ensures r.Some? ==> r.value in users && r.value.email == email
    ensures r.None? <==> forall i :: 0 <= i < |users| ==> users[i].email != email
    decreases |users|
  {
    if |users| == 0 then None
    else if users[0].email == email then Some(users[0])
    else FindUserByEmail(users[1..], email)
  }

  /** `User.findById(id)`: the first user with this id. */
  function FindUserById(users: seq<User>, id: Id): (r: Option<User>)
    ensures r.Some? ==> r.value in users && r.value.id == id
    ensures r.None? <==> forall i :: 0 <= i < |users| ==> users[i].id != id
    decreases |users|
  {
    if |users| == 0 then None
    else if users[0].id == id then Some(users[0])
    else FindUserById(users[1..], id)
  }

  /** The position of the first document owned by `id`. */
  function FirstRecordOf(records: seq<FinancialRecord>, id: Id): (k: Option<nat>)
    ensures k.Some? ==> k.value < |records| && records[k.value].userId == Some(id)
    ensures k.Some? ==> forall j :: 0 <= j < k.value ==> records[j].userId != Some(id)
    ensures k.None? <==> forall j :: 0 <= j < |records| ==> records[j].userId != Some(id)
    decreases |records|
  {
    if |records| == 0 then None
    else if records[0].userId == Some(id) then Some(0)
    else
      var k := FirstRecordOf(records[1..], id);
      if k.Some? then Some(k.value + 1) else None
  }

  /** `FinancialData.findOne({ userId })`, read as the first stored document of that user. */
  function FindRecord(records: seq<FinancialRecord>, id: Id): (r: Option<FinancialRecord>)
    ensures r.Some? ==> r.value in records && r.value.userId == Some(id)
    ensures r.None? <==> forall j :: 0 <= j < |records| ==> records[j].userId != Some(id)
  {
    var k := FirstRecordOf(records, id);
    if k.Some? then Some(records[k.value]) else None
  }

  /** A later document never shadows an earlier one: appending leaves the lookup as it was. */
  lemma {:induction false} FindRecordAppend(records: seq<FinancialRecord>, r: FinancialRecord, id: Id)
    requires FindRecord(records, id).Some?
    ensures FindRecord(records + [r], id) == FindRecord(records, id)
  {
    FirstRecordAppend(records, r, id);
  }

  lemma {:induction false} FirstRecordAppend(records: seq<FinancialRecord>, r: FinancialRecord, id: Id)
    requires FirstRecordOf(records, id).Some?
    ensures FirstRecordOf(records + [r], id) == FirstRecordOf(records, id)
    decreases |records|
  {
    if records[0].userId != Some(id) {
      assert (records + [r])[1..] == records[1..] + [r];
      FirstRecordAppend(records[1..], r, id);
    }
  }

  /** The first document of a user who had none is the one found for that user. */
  lemma {:induction false} FindFirstRecord(records: seq<FinancialRecord>, r: FinancialRecord, id: Id)
    requires FindRecord(records, id).None? && r.userId == Some(id)
    ensures FindRecord(records + [r], id) == Some(r)
  {
    var all := records + [r];
    assert all[|records|] == r;
    assert forall j :: 0 <= j < |records| ==> all[j] == records[j];
    var k := FirstRecordOf(all, id);
    assert k.Some?;
    assert k.value == |records|;
  }

  /** The user just added under a fresh email is the one found under it. */
  lemma {:induction false} FindNewUserByEmail(users: seq<User>, u: User)
    requires FindUserByEmail(users, u.email).None?
    ensures FindUserByEmail(users + [u], u.email) == Some(u)
    decreases |users|
  {
    if |users| > 0 {
      assert (users + [u])[1..] == users[1..] + [u];
      FindNewUserByEmail(users[1..], u);
    }
  }

  predicate HasConversation(conversations: seq<Conversation>, id: Id) {
    exists i :: 0 <= i < |conversations| && conversations[i].id == id
  }

  /** The collections of one database. */
  class Db {
    var users: seq<User>
    var records: seq<FinancialRecord>
    var conversations: seq<Conversation>
    var messages: seq<Message>
    /** The id the next created document receives; ids are never reused. */
    var nextId: Id

    /**
     * What the schemas and the id allocator guarantee of stored documents:
     * ids are unique and below `nextId`, emails are unique, financial
     * documents are built and valid, conversations have a title, messages
     * satisfy their schema and belong to a stored conversation.
     */
    ghost predicate Valid()
      reads this
    {
      && (forall i :: 0 <= i < |users| ==> users[i].id < nextId)
      && (forall i, j :: 0 <= i < j < |users| ==> users[i].id != users[j].id && users[i].email != users[j].email)
      && (forall r :: r in records ==> Hydrated(r) && ValidRecord(r))
      && (forall i :: 0 <= i < |conversations| ==> conversations[i].id < nextId && conversations[i].title != "")
      && (forall i :: 0 <= i < |messages| ==>
            messages[i].id < nextId && ValidMessage(messages[i])
            && HasConversation(conversations, messages[i].conversationId))
    }

    constructor ()
      ensures Valid()
      ensures users == [] && records == [] && conversations == [] && messages == []
    {
      users, records, conversations, messages := [], [], [], [];
      nextId := 0;
    }

    /** `new User({ name, email, password }).save()` under an email not yet registered. */
    method AddUser(name: string, email: string, password: string) returns (u: User)
      requires Valid()
      requires FindUserByEmail(users, email).None?
      modifies this
      ensures Valid()
      ensures u == User(old(nextId), name, email, password)
      ensures FindUserById(old(users), u.id).None?
      ensures users == old(users) + [u] && nextId == old(nextId) + 1
      ensures records == old(records) && conversations == old(conversations) && messages == old(messages)
    {
      u := User(nextId, name, email, password);
      users := users + [u];
      nextId := nextId + 1;
    }

    /** `financialData.save()` of a built document that passed validation. */
    method AddRecord(r: FinancialRecord)
      requires Valid()
      requires Hydrated(r) && ValidRecord(r)
      modifies this
      ensures Valid()
      ensures records == old(records) + [r]
      ensures users == old(users) && conversations == old(conversations) && messages == old(messages)
      ensures nextId == old(nextId)
    {
      records := records + [r];
    }

    /** `Conversation.create(fields)` with fields that pass the schema. */
    method AddConversation(f: ConversationFields, now: int) returns (c: Conversation)
      requires Valid()
      requires ValidConversationFields(f)
      modifies this
      ensures Valid()
      ensures c == NewConversation(old(nextId), f, now)
      ensures conversations == old(conversations) + [c] && nextId == old(nextId) + 1
      ensures users == old(users) && records == old(records) && messages == old(messages)
    {
      c := NewConversation(nextId, f, now);
      conversations := conversations + [c];
      nextId := nextId + 1;
      assert HasConversation(conversations, c.id) by {
        assert conversations[|conversations| - 1].id == c.id;
      }
      forall i | 0 <= i < |messages|
        ensures HasConversation(conversations, messages[i].conversationId)
      {
        var k :| 0 <= k < |old(conversations)| && old(conversations)[k].id == messages[i].conversationId;
        assert conversations[k] == old(conversations)[k];
      }
    }

    /** `Message.create(fields)` with fields that pass the schema, under a stored conversation. */
    method AddMessage(f: MessageFields, now: int) returns (m: Message)
      requires Valid()
      requires ValidMessageFields(f) && HasConversation(conversations, f.conversationId.value)
      modifies this
      ensures Valid()
      ensures m == NewMessage(old(nextId), f, now)
      ensures messages == old(messages) + [m] && nextId == old(nextId) + 1
      ensures users == old(users) && records == old(records) && conversations == old(conversations)
    {
      m := NewMessage(nextId, f, now);
      messages := messages + [m];
      nextId := nextId + 1;
    }
  }
}
