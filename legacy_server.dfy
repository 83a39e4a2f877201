/** The older create-meal handler of backend/server.py. It writes the meal
    through a database session that it opens itself: add, commit, roll back
    on failure, and close on every path. The session is an object whose
    state the handler changes step by step, so it is a class here; the
    table it writes to is another. */
module LegacyServer {
  import opened Wrappers
  import opened Json
  import opened Nutrition
  import opened Server

  const DatabaseError: string := "Database error"

  /** A row of the meals table as this handler writes it; the table of
      backend/models.py has no date column, and its `id` is a UUID generated
      on insert, which nothing here reads. */
  datatype StoredMeal = StoredMeal(userId: JsonValue, description: JsonValue, calories: real)

  /** The meals table: its committed rows. `init_db` only creates the table
      when it is missing and keeps the rows already stored, so the handler
      is stated for any table contents. */
  class Database {
    var rows: seq<StoredMeal>

    /** An empty table object, for the scenarios. */
    constructor()
      ensures rows == []
    {
      rows := [];
    }
  }

  /** What was done to a session, in order. */
  datatype SessionOp = Add(meal: StoredMeal) | Commit | Rollback | Close

  /** A session was released exactly once, and as its last step. */
  predicate ReleasedOnce(history: seq<SessionOp>)
  {
    |history| > 0 && history[|history| - 1] == Close && Close !in history[..|history| - 1]
  }

  /** A unit of work on `db`: rows added but not yet committed are
      `pending`. `history` records every operation, so that the handler's
      use of the session can be stated. A `fault` parameter is the text of
      the exception the database raises for that operation, if any. */
  class Session {
    const db: Database
    var pending: seq<StoredMeal>
    var closed: bool
    var history: seq<SessionOp>

    constructor(db: Database)
      ensures this.db == db && pending == [] && !closed && history == []
    {
      this.db := db;
      pending := [];
      closed := false;
      history := [];
    }

    /** `session.add`: stage a row. */
    method AddMeal(m: StoredMeal, fault: Option<string>) returns (err: Option<string>)
      modifies this
      ensures err == fault
      ensures history == old(history) + [Add(m)]
      ensures pending == (if fault.None? then old(pending) + [m] else old(pending))
      ensures closed == old(closed)
    {
      history := history + [Add(m)];
      err := fault;
      if fault.None? {
        pending := pending + [m];
      }
    }

    /** `session.commit`: make the staged rows part of the table, or leave
        both unchanged when the database refuses. */
    method CommitAll(fault: Option<string>) returns (err: Option<string>)
      modifies this, db
      ensures err == fault
      ensures history == old(history) + [Commit]
      ensures fault.None? ==> db.rows == old(db.rows) + old(pending) && pending == []
      ensures fault.Some? ==> db.rows == old(db.rows) && pending == old(pending)
      ensures closed == old(closed)
    {
      history := history + [Commit];
      err := fault;
      if fault.None? {
        db.rows := db.rows + pending;
        pending := [];
      }
    }

    /** `session.rollback`: discard the staged rows. */
    method RollbackAll()
      modifies this
      ensures history == old(history) + [Rollback]
      ensures pending == [] && closed == old(closed)
    {
      history := history + [Rollback];
      pending := [];
    }

    /** `session.close`: release the session; anything staged is dropped. */
    method CloseSession()
      modifies this
      ensures history == old(history) + [Close]
      ensures pending == [] && closed
    {
      history := history + [Close];
      pending := [];
      closed := true;
    }
  }

  /** The operations the handler performs on its session, given which of
      `add` and `commit` fails. */
  function SessionScript(m: StoredMeal, addFault: Option<string>, commitFault: Option<string>): (r: seq<SessionOp>)
    ensures ReleasedOnce(r)
    ensures r[0] == Add(m)
    // rolled back exactly when a database operation failed
    ensures Rollback in r <==> addFault.Some? || commitFault.Some?
    // committed exactly when the add went through
    ensures Commit in r <==> addFault.None?
  {
    if addFault.Some? then [Add(m), Rollback, Close]
    else if commitFault.Some? then [Add(m), Commit, Rollback, Close]
    else [Add(m), Commit, Close]
  }

  /** `do_POST` of backend/server.py. `estimate` is what the provider
      returns (a failure is not caught here); `addFault` and `commitFault`
      say whether `session.add` and `session.commit` raise. The session
      the handler opened, if any, is returned so its fate can be stated. */
  method DoPost(path: string, body: JsonObject, estimate: Result<NutritionInfo, string>,
                db: Database, addFault: Option<string>, commitFault: Option<string>)
    returns (resp: Response, calls: seq<Call>, session: Session?)
    modifies db
    // routing miss and missing keys: no provider call, no session, no write
    ensures path != MealsPath ==>
      resp == Reply(NotFound, None) && calls == [] && session == null && db.rows == old(db.rows)
    ensures path == MealsPath && !AcceptedPost(path, body) ==>
      resp == Reply(BadRequest, Some(ErrorBody(MissingFieldsError)))
      && calls == [] && session == null && db.rows == old(db.rows)
    // the provider is called once, before any session exists
    ensures AcceptedPost(path, body) ==> calls == [GetNutrition(body["description"])]
    ensures AcceptedPost(path, body) && estimate.Failure? ==>
      resp == Aborted && session == null && db.rows == old(db.rows)
    // a good estimate: a fresh session on `db`, used as the script says and
    // released exactly once whatever happened
    ensures AcceptedPost(path, body) && estimate.Success? ==>
      var m := StoredMeal(body["user_id"], body["description"], estimate.value.calories);
      session != null && fresh(session) && session.db == db
      && session.history == SessionScript(m, addFault, commitFault)
      && ReleasedOnce(session.history) && session.closed && session.pending == []
      // exactly that one row is written, and only when add and commit succeed
      && db.rows == (if addFault.None? && commitFault.None? then old(db.rows) + [m] else old(db.rows))
      && resp == (if addFault.Some? then Reply(InternalServerError, Some(ErrorDetailsBody(DatabaseError, addFault.value)))
                  else if commitFault.Some? then Reply(InternalServerError, Some(ErrorDetailsBody(DatabaseError, commitFault.value)))
                  else Reply(OK, Some(map["calories" := JNum(m.calories)])))
  {
    calls := [];
    session := null;
    if path != MealsPath {
      resp := Reply(NotFound, None);
      return;
    }
    if "user_id" !in body || "description" !in body {
      resp := Reply(BadRequest, Some(ErrorBody(MissingFieldsError)));
      return;
    }
    var userId := body["user_id"];
    var description := body["description"];

    calls := calls + [GetNutrition(description)];
    if estimate.Failure? {
      // get_nutrition raises outside the try: the request is dropped
      resp := Aborted;
      return;
    }
    var info := estimate.value;

    session := new Session(db);
    var meal := StoredMeal(userId, description, info.calories);
    var err := session.AddMeal(meal, addFault);
    if err.None? {
      err := session.CommitAll(commitFault);
    }
    if err.Some? {
      session.RollbackAll();
      resp := Reply(InternalServerError, Some(ErrorDetailsBody(DatabaseError, err.value)));
    } else {
      resp := Reply(OK, Some(map["calories" := JNum(info.calories)]));
    }
    // the `finally` clause
    session.CloseSession();
  }
}
