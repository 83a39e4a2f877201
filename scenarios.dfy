/** The handlers wired to the providers, on the requests the repository's
    server tests send (backend/test/test_server.py, backend/lib/test_server.py),
    and on the replies that show how the zero-calorie rule plays out end to
    end. */
module Scenarios {
  import opened Wrappers
  import opened Json
  import opened Nutrition
  import opened Bucketing
  import opened Server
  import LegacyServer
  import NutritionLLM
  import NutritionFake
  import PyOps

  /** What the handler sees of a provider result: the estimate, or the text
      `str(err)` of what was raised. `LLMException()` carries no message, a
      KeyError shows its key in quotes, a failed request its own text; the
      messages Python gives to the other exceptions are `other`. */
  function AsEstimate(r: Result<NutritionInfo, ProviderError>, other: string): (e: Result<NutritionInfo, string>)
    ensures e.Success? <==> r.Success?
    ensures r.Success? ==> e.value == r.value
    ensures r == Failure(LLMException) ==> e == Failure("")
  {
    match r
    case Success(info) => Success(info)
    case Failure(LLMException) => Failure("")
    case Failure(KeyError(k)) => Failure("'" + k + "'")
    case Failure(RequestFailed(text)) => Failure(text)
    case Failure(_) => Failure(other)
  }

  function AsAdvice(r: Result<JsonValue, ProviderError>, other: string): (a: Result<JsonValue, string>)
    ensures a.Success? <==> r.Success?
    ensures r.Success? ==> a.value == r.value
  {
    match r
    case Success(v) => Success(v)
    case Failure(e) => Failure(AsEstimate(Failure(e), other).error)
  }

  const Meal123: JsonObject := map["user_id" := JStr("123"), "description" := JStr("test meal")]

  /** A POST with the fake provider and an accepting repository: 200 with
      500 calories, and one insert carrying the request's fields, the fake's
      estimate and the current time. */
  method PostWithFakeProvider(now: int) returns (resp: Response, calls: seq<Call>)
    ensures resp == Reply(OK, Some(map["calories" := JNum(500.0)]))
    ensures calls == [GetNutrition(JStr("test meal")), InsertMeal(JStr("123"), JStr("test meal"), 500.0, Now(now))]
  {
    var estimate := AsEstimate(NutritionFake.GetNutrition(JStr("test meal")), "");
    resp, calls := DoPost(MealsPath, Meal123, now, estimate, map["status" := JStr("success")]);
  }

  /** The same request when the repository reports an error: 500 with the
      repository's dict, after exactly one insert. */
  method PostRepositoryError(now: int, details: JsonValue) returns (resp: Response, calls: seq<Call>)
    ensures resp == Reply(InternalServerError, Some(map["status" := JStr("error"), "details" := details]))
    ensures |calls| == 2 && calls[1].InsertMeal?
  {
    var estimate := AsEstimate(NutritionFake.GetNutrition(JStr("test meal")), "");
    resp, calls := DoPost(MealsPath, Meal123, now, estimate, map["status" := JStr("error"), "details" := details]);
  }

  /** The four saved meals of the stats test, as day numbers. */
  function FourMeals(today: int): seq<Meal>
  {
    [Meal(0, "42", "", 100.0, today), Meal(1, "42", "", 200.0, today),
     Meal(2, "42", "", 400.0, today - 2), Meal(3, "42", "", 1000.0, today - 4)]
  }

  /** The stats test: the repository is asked once for user "42", and the
      provider once with [300, None, 400, None, 1000, None, None]; its text
      comes back under `recommendations`. */
  method StatsFourMeals(today: int) returns (resp: Response, calls: seq<Call>)
    ensures resp == Reply(OK, Some(map["recommendations" := JStr("test recommendations")]))
    ensures calls == [GetMealsForLastWeek("42"),
                      GetRecommendations([Some(NutritionInfo(300.0)), None, Some(NutritionInfo(400.0)), None,
                                          Some(NutritionInfo(1000.0)), None, None])]
  {
    FourMealsScenario(today);
    resp, calls := DoGet(StatsPath, map["user_id" := ["42"]], today, Rows(FourMeals(today)),
                         Success(JStr("test recommendations")));
  }

  /** Stats with the fake provider: any week with meals gets its fixed advice. */
  method StatsWithFakeProvider(user: string, meals: seq<Meal>, today: int) returns (resp: Response, calls: seq<Call>)
    requires user != "" && meals != []
    ensures resp == Reply(OK, Some(map["recommendations" := JStr(NutritionFake.Advice)]))
    ensures calls == [GetMealsForLastWeek(user), GetRecommendations(PastData(meals, today))]
  {
    var advice := AsAdvice(NutritionFake.GetRecommendations(PastData(meals, today)), "");
    resp, calls := DoGet(StatsPath + "?user_id=" + user, map["user_id" := [user]], today, Rows(meals), advice);
  }

  /** A reply decoded as {"kilocalories": <v>}. */
  predicate DecodesTo(decode: NutritionLLM.Decode, text: string, v: JsonValue)
  {
    decode(text) == Success(JObject(map["kilocalories" := v]))
  }

  /** The language model answers with numeric zero: the provider raises
      LLMException, whose text is empty, so the request gets 400 with empty
      details and nothing is stored. */
  method PostZeroEstimate(p: NutritionLLM.LLMProvider, now: int, decode: NutritionLLM.Decode)
    returns (resp: Response, calls: seq<Call>)
    requires DecodesTo(decode, "{\"kilocalories\": 0}", JNum(0.0))
    ensures resp == Reply(BadRequest, Some(ErrorDetailsBody(UnrecognizedError, "")))
    ensures calls == [GetNutrition(JStr("test meal"))]
  {
    var reply := JStr("{\"kilocalories\": 0}");
    var r := NutritionLLM.GetNutrition(p, JStr("test meal"), req => Success(reply), decode);
    assert r == Failure(LLMException);
    resp, calls := DoPost(MealsPath, Meal123, now, AsEstimate(r, ""), map["status" := JStr("success")]);
  }

  /** As written, a zero given as the string "0" passes the zero test: the
      meal is stored with 0 calories and the client gets 200. */
  method PostZeroStringStored(p: NutritionLLM.LLMProvider, now: int, decode: NutritionLLM.Decode)
    returns (resp: Response, calls: seq<Call>)
    requires DecodesTo(decode, "{\"kilocalories\": \"0\"}", JStr("0"))
    ensures resp == Reply(OK, Some(map["calories" := JNum(0.0)]))
    ensures calls == [GetNutrition(JStr("test meal")), InsertMeal(JStr("123"), JStr("test meal"), 0.0, Now(now))]
  {
    NutritionLLM.ZeroStringSlipsThrough(p, "test meal", decode);
    var r := NutritionLLM.GetNutrition(p, JStr("test meal"), req => Success(JStr("{\"kilocalories\": \"0\"}")), decode);
    resp, calls := DoPost(MealsPath, Meal123, now, AsEstimate(r, ""), map["status" := JStr("success")]);
  }

  /** With the corrected zero test the same reply is refused, whatever the
      repository would have said, and nothing is inserted. */
  method PostZeroStringRefused(p: NutritionLLM.LLMProvider, now: int, decode: NutritionLLM.Decode, inserted: JsonObject)
    returns (resp: Response, calls: seq<Call>)
    requires DecodesTo(decode, "{\"kilocalories\": \"0\"}", JStr("0"))
    ensures resp == Reply(BadRequest, Some(ErrorDetailsBody(UnrecognizedError, "")))
    ensures calls == [GetNutrition(JStr("test meal"))]
  {
    PyOps.ZeroStringConvertsToZero();
    var r := NutritionLLM.GetNutritionChecked(p, JStr("test meal"), req => Success(JStr("{\"kilocalories\": \"0\"}")), decode);
    assert r == Failure(LLMException);
    resp, calls := DoPost(MealsPath, Meal123, now, AsEstimate(r, ""), inserted);
  }

  /** The older handler with the fake provider and a healthy database: the
      one row is committed, the session is released once, and the client
      gets 200 with 500 calories. */
  method LegacyPostWithFakeProvider(db: LegacyServer.Database) returns (resp: Response, calls: seq<Call>)
    modifies db
    ensures resp == Reply(OK, Some(map["calories" := JNum(500.0)]))
    ensures calls == [GetNutrition(JStr("test meal"))]
    ensures db.rows == old(db.rows) + [LegacyServer.StoredMeal(JStr("123"), JStr("test meal"), 500.0)]
  {
    var estimate := AsEstimate(NutritionFake.GetNutrition(JStr("test meal")), "");
    var session;
    resp, calls, session := LegacyServer.DoPost(MealsPath, Meal123, estimate, db, None, None);
  }

  /** A commit that fails leaves the table as it was and reports the
      database's message with 500. */
  method LegacyCommitFails(db: LegacyServer.Database, message: string) returns (resp: Response, calls: seq<Call>)
    modifies db
    ensures resp == Reply(InternalServerError, Some(ErrorDetailsBody(LegacyServer.DatabaseError, message)))
    ensures db.rows == old(db.rows)
  {
    var estimate := AsEstimate(NutritionFake.GetNutrition(JStr("test meal")), "");
    var session;
    resp, calls, session := LegacyServer.DoPost(MealsPath, Meal123, estimate, db, None, Some(message));
  }
}
