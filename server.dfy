/** The request handlers of backend/lib/server.py. Each handler routes by
    path, validates its input, calls the provider and the repository, and
    maps every outcome to one response. The collaborators are inputs: the
    outcome each call gives is a parameter, and the handler returns, besides
    the response, the calls it made in order. */
module Server {
  import opened Wrappers
  import opened Json
  import opened Nutrition
  import opened Bucketing

  // Status codes (the `config` module is not part of this model; these are
  // the standard HTTP codes its names stand for).
  const OK: int := 200
  const BadRequest: int := 400
  const NotFound: int := 404
  const InternalServerError: int := 500

  const MealsPath: string := "/api/v1/meals"
  const StatsPath: string := "/api/v1/stats"

  const MissingFieldsError: string := "Invalid request, missing user_id or description"
  const UnrecognizedError: string := "Server did not recognize the request."
  const MissingUserIdError: string := "Missing user_id parameter"
  const RecommendationsError: string := "Error fetching recommendations"

  /** What the client receives: a status with an optional JSON body, or
      nothing at all when the handler raised and the server dropped the
      request. */
  datatype Response = Reply(status: int, body: Option<JsonObject>) | Aborted

  /** The date handed to `insert_meal`: the request's `created_date` as
      given, or the current time. */
  datatype CreatedDate = Given(value: JsonValue) | Now(timestamp: int)

  /** A call to a collaborator, with its arguments. */
  datatype Call =
    | GetNutrition(description: JsonValue)
    | InsertMeal(userId: JsonValue, description: JsonValue, calories: real, createdDate: CreatedDate)
    | GetMealsForLastWeek(user: string)
    | GetRecommendations(pastData: seq<Option<NutritionInfo>>)

  /** What `get_meals_for_last_week` returns: meal rows, or a dict (an error
      report when its `status` is "error"). */
  datatype MealsResult = Rows(meals: seq<Meal>) | Dict(fields: JsonObject)

  function ErrorBody(error: string): JsonObject
  {
    map["error" := JStr(error)]
  }

  function ErrorDetailsBody(error: string, details: string): JsonObject
  {
    map["error" := JStr(error), "details" := JStr(details)]
  }

  // ---- do_POST ----

  /** A POST the handler accepts: the meals path and both required keys. */
  predicate AcceptedPost(path: string, body: JsonObject)
  {
    path == MealsPath && "user_id" in body && "description" in body
  }

  function CreatedDateOf(body: JsonObject, now: int): CreatedDate
  {
    if "created_date" in body then Given(body["created_date"]) else Now(now)
  }

  /** `do_POST`: create a meal. `estimate` is what `get_nutrition` returns
      (or the text of what it raises), `inserted` the dict `insert_meal`
      returns. */
  method DoPost(path: string, body: JsonObject, now: int,
                estimate: Result<NutritionInfo, string>, inserted: JsonObject)
    returns (resp: Response, calls: seq<Call>)
    // routing miss: 404, nothing called
    ensures path != MealsPath ==> resp == Reply(NotFound, None) && calls == []
    // a missing key: 400 with the fixed error, nothing called
    ensures path == MealsPath && !AcceptedPost(path, body) ==>
      resp == Reply(BadRequest, Some(ErrorBody(MissingFieldsError))) && calls == []
    // otherwise the provider is called first, once, with the description
    ensures AcceptedPost(path, body) ==> |calls| >= 1 && calls[0] == GetNutrition(body["description"])
    // a failed estimate: 400 with its details, no insert
    ensures AcceptedPost(path, body) && estimate.Failure? ==>
      calls == [GetNutrition(body["description"])]
      && resp == Reply(BadRequest, Some(ErrorDetailsBody(UnrecognizedError, estimate.error)))
    // a good estimate: exactly one insert, with the request's fields
    ensures AcceptedPost(path, body) && estimate.Success? ==>
      calls == [GetNutrition(body["description"]),
                InsertMeal(body["user_id"], body["description"], estimate.value.calories, CreatedDateOf(body, now))]
    // the insert's status decides: error echoes the dict with 500, anything
    // else is 200 with the estimate; no status at all raises KeyError
    ensures AcceptedPost(path, body) && estimate.Success? ==>
      resp == (if "status" !in inserted then Aborted
               else if inserted["status"] == JStr("error") then Reply(InternalServerError, Some(inserted))
               else Reply(OK, Some(map["calories" := JNum(estimate.value.calories)])))
    // summary: a 200 always follows exactly one insert of the returned calories
    ensures resp.Reply? && resp.status == OK ==>
      |calls| == 2 && calls[1].InsertMeal? && resp.body == Some(map["calories" := JNum(calls[1].calories)])
  {
    calls := [];
    if path != MealsPath {
      resp := Reply(NotFound, None);
      return;
    }
    if "user_id" !in body || "description" !in body {
      resp := Reply(BadRequest, Some(ErrorBody(MissingFieldsError)));
      return;
    }
    var userId := body["user_id"];
    var description := body["description"];
    var createdDate;
    if "created_date" in body {
      createdDate := Given(body["created_date"]);
    } else {
      createdDate := Now(now);
    }

    calls := calls + [GetNutrition(description)];
    if estimate.Failure? {
      resp := Reply(BadRequest, Some(ErrorDetailsBody(UnrecognizedError, estimate.error)));
      return;
    }
    var info := estimate.value;

    calls := calls + [InsertMeal(userId, description, info.calories, createdDate)];
    if "status" !in inserted {
      resp := Aborted;
      return;
    }
    if inserted["status"] == JStr("error") {
      resp := Reply(InternalServerError, Some(inserted));
      return;
    }
    resp := Reply(OK, Some(map["calories" := JNum(info.calories)]));
  }

  // ---- do_GET ----

  /** `query_components.get('user_id', [None])[0]` raises IndexError. */
  predicate UserIdRaises(params: map<string, seq<string>>)
  {
    "user_id" in params && params["user_id"] == []
  }

  /** The `user_id` query parameter; "" stands for both a missing and an
      empty one, which the handler treats alike. */
  function UserIdOf(params: map<string, seq<string>>): string
  {
    if "user_id" in params && params["user_id"] != [] then params["user_id"][0] else ""
  }

  /** A GET that reaches the repository. */
  predicate AcceptedGet(path: string, params: map<string, seq<string>>)
  {
    StatsPath <= path && !UserIdRaises(params) && UserIdOf(params) != ""
  }

  /** `do_GET`: weekly stats with recommendations. `params` is the parsed
      query string, `today` the current day, `meals` what
      `get_meals_for_last_week` returns and `advice` what
      `get_recommendations` returns (or the text of what it raises). */
  method DoGet(path: string, params: map<string, seq<string>>, today: int,
               meals: MealsResult, advice: Result<JsonValue, string>)
    returns (resp: Response, calls: seq<Call>)
    // a path not under the stats prefix: 404, nothing called
    ensures !(StatsPath <= path) ==> resp == Reply(NotFound, None) && calls == []
    // a missing or empty user id: 400, nothing called
    ensures StatsPath <= path && UserIdRaises(params) ==> resp == Aborted && calls == []
    ensures StatsPath <= path && !UserIdRaises(params) && UserIdOf(params) == "" ==>
      resp == Reply(BadRequest, Some(ErrorBody(MissingUserIdError))) && calls == []
    // otherwise the repository is called first, once, with the user id
    ensures AcceptedGet(path, params) ==> |calls| >= 1 && calls[0] == GetMealsForLastWeek(UserIdOf(params))
    // an error dict: 500 echoing it
    ensures AcceptedGet(path, params) && meals.Dict? && "status" in meals.fields && meals.fields["status"] == JStr("error") ==>
      calls == [GetMealsForLastWeek(UserIdOf(params))] && resp == Reply(InternalServerError, Some(meals.fields))
    // no meals: 404 with no body, the provider not called
    ensures AcceptedGet(path, params) && (meals == Rows([]) || meals == Dict(map[])) ==>
      calls == [GetMealsForLastWeek(UserIdOf(params))] && resp == Reply(NotFound, None)
    // any other dict: bucketing reads its keys as meals and raises
    ensures AcceptedGet(path, params) && meals.Dict? && meals.fields != map[]
            && !("status" in meals.fields && meals.fields["status"] == JStr("error")) ==>
      calls == [GetMealsForLastWeek(UserIdOf(params))] && resp == Aborted
    // meals: the provider is called once, with the seven buckets
    ensures AcceptedGet(path, params) && meals.Rows? && meals.meals != [] ==>
      calls == [GetMealsForLastWeek(UserIdOf(params)), GetRecommendations(PastData(meals.meals, today))]
      && resp == (if advice.Failure? then Reply(InternalServerError, Some(ErrorDetailsBody(RecommendationsError, advice.error)))
                  else Reply(OK, Some(map["recommendations" := advice.value])))
    // summary: a 200 always carries the advice for the seven buckets
    ensures resp.Reply? && resp.status == OK ==>
      |calls| == 2 && calls[1].GetRecommendations? && |calls[1].pastData| == Days
  {
    calls := [];
    if !(StatsPath <= path) {
      resp := Reply(NotFound, None);
      return;
    }
    if "user_id" in params && params["user_id"] == [] {
      resp := Aborted;
      return;
    }
    var userId := if "user_id" in params then params["user_id"][0] else "";
    if userId == "" {
      resp := Reply(BadRequest, Some(ErrorBody(MissingUserIdError)));
      return;
    }

    calls := calls + [GetMealsForLastWeek(userId)];
    match meals
    case Dict(fields) =>
      if "status" in fields && fields["status"] == JStr("error") {
        resp := Reply(InternalServerError, Some(fields));
      } else if fields == map[] {
        resp := Reply(NotFound, None);
      } else {
        resp := Aborted;
      }
    case Rows(rows) =>
      if rows == [] {
        resp := Reply(NotFound, None);
        return;
      }
      var pastData := PastData(rows, today);
      calls := calls + [GetRecommendations(pastData)];
      if advice.Failure? {
        resp := Reply(InternalServerError, Some(ErrorDetailsBody(RecommendationsError, advice.error)));
        return;
      }
      resp := Reply(OK, Some(map["recommendations" := advice.value]));
  }
}
