/**
 * The financial-data controllers: create a user's document from a request
 * body, and read back the document of the signed-in user.
 */
module FinancialController {
  import opened Wrappers
  import opened Records
  import opened FinancialSchema
  import opened Http
  import opened Store

  /**
   * The document `new FinancialData({ userId, assets, liabilities, income,
   * expenses, creditScore })` builds: the owner from the query, five groups
   * from the body, every other group at its default.
   */
  function Built(userId: Id, body: FinancialRecord): (r: FinancialRecord)
    ensures Hydrated(r) && r.userId == Some(userId)
    ensures r.goals == Some([]) && r.riskProfile == Some(RiskProfile(Undefined, Undefined, Undefined))
    ensures r.emergencyFund == Some(EmergencyFund(Undefined, Undefined, Undefined))
    ensures r.tax == Some(Tax(Undefined, Some([]), Undefined))
  {
    Hydrate(FinancialRecord(Some(userId), body.income, body.expenses, body.assets, body.liabilities,
                            body.creditScore, None, None, None, None))
  }

  /** Only assets, liabilities, income, expenses and creditScore are taken from the body: the rest is dropped. */
  lemma BuiltIgnoresOtherFields(userId: Id, body: FinancialRecord, body': FinancialRecord)
    requires body.income == body'.income && body.expenses == body'.expenses
    requires body.assets == body'.assets && body.liabilities == body'.liabilities
    requires body.creditScore == body'.creditScore
    ensures Built(userId, body) == Built(userId, body')
  {
  }

  /** The built document passes validation exactly when the copied groups do; the defaults decide nothing. */
  lemma BuiltValidity(userId: Id, body: FinancialRecord)
    ensures ValidRecord(Built(userId, body)) <==>
      && ValidIncome(body.income) && ValidExpenses(body.expenses)
      && ValidAssets(body.assets) && ValidLiabilities(body.liabilities)
      && body.creditScore.Some? && RequiredNumber(body.creditScore.value.value)
  {
    HydrateKeepsValidity(FinancialRecord(Some(userId), body.income, body.expenses, body.assets, body.liabilities,
                                         body.creditScore, None, None, None, None));
  }

  /**
   * `createManualFinancialDataController`: 400 without a `userId` query, 404
   * for an unknown user, 500 when the document fails validation; otherwise
   * the document is appended (even when the user already has one) and 201
   * answers with it.
   */
  method CreateFinancialData(db: Db, userId: Option<Id>, body: FinancialRecord) returns (resp: Response)
    requires db.Valid()
    modifies db
    ensures db.Valid()
    ensures db.users == old(db.users) && db.conversations == old(db.conversations)
    ensures db.messages == old(db.messages) && db.nextId == old(db.nextId)
    ensures userId.None? ==> resp == Fail(400, "Please provide a user ID") && db.records == old(db.records)
    ensures userId.Some? && FindUserById(db.users, userId.value).None? ==>
      resp == Fail(404, "User not found") && db.records == old(db.records)
    ensures userId.Some? && FindUserById(db.users, userId.value).Some? && !ValidRecord(Built(userId.value, body)) ==>
      resp == Fail(500, "Internal server error") && db.records == old(db.records)
    ensures userId.Some? && FindUserById(db.users, userId.value).Some? && ValidRecord(Built(userId.value, body)) ==>
      && db.records == old(db.records) + [Built(userId.value, body)]
      && resp == Response(201, Saved("Financial data saved successfully", Built(userId.value, body)), Keep)
  {
    if userId.None? {
      return Fail(400, "Please provide a user ID");
    }
    var existing := FindUserById(db.users, userId.value);
    if existing.None? {
      return Fail(404, "User not found");
    }
    var doc := Built(userId.value, body);
    if !ValidRecord(doc) {
      return Fail(500, "Internal server error");
    }
    db.AddRecord(doc);
    resp := Response(201, Saved("Financial data saved successfully", doc), Keep);
  }

  /**
   * `getFinancialDataController` with `req.user.id == userId`: 400 without
   * an id, 404 when the user has no document, otherwise 200 with the user's
   * document that `FindRecord` returns.
   */
  function GetFinancialData(records: seq<FinancialRecord>, userId: Option<Id>): (resp: Response)
    ensures userId.None? ==> resp == Fail(400, "Missing user ID")
    ensures userId.Some? && (forall j :: 0 <= j < |records| ==> records[j].userId != userId) ==>
      resp == Fail(404, "No financial data found")
    ensures userId.Some? && (exists j :: 0 <= j < |records| && records[j].userId == userId) ==>
      && resp.status == 200 && resp.cookie == Keep && resp.body.Data?
      && resp.body.data in records && resp.body.data.userId == userId
  {
    if userId.None? then Fail(400, "Missing user ID")
    else
      var found := FindRecord(records, userId.value);
      if found.None? then Fail(404, "No financial data found") else Response(200, Data(found.value), Keep)
  }

  /** A user's first create is what get returns afterwards. */
  lemma CreateThenGet(records: seq<FinancialRecord>, userId: Id, body: FinancialRecord)
    requires GetFinancialData(records, Some(userId)).status == 404
    ensures GetFinancialData(records + [Built(userId, body)], Some(userId))
      == Response(200, Data(Built(userId, body)), Keep)
  {
    FindFirstRecord(records, Built(userId, body), userId);
  }

  /**
   * Once a user has a document, a further create is stored but, with lookups
   * read as first match, never read back: get is unchanged.
   */
  lemma SecondCreateNeverRead(records: seq<FinancialRecord>, userId: Id, body: FinancialRecord)
    requires GetFinancialData(records, Some(userId)).status == 200
    ensures GetFinancialData(records + [Built(userId, body)], Some(userId)) == GetFinancialData(records, Some(userId))
  {
    FindRecordAppend(records, Built(userId, body), userId);
  }
}
