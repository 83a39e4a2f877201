# Nutritioner backend: request handlers, weekly bucketing and providers

A Dafny model of the decision layer of the nutritioner bot's HTTP backend.
Users log meals with `POST /api/v1/meals`. The server asks a nutrition
provider for a calorie estimate and stores the meal through a repository.
`GET /api/v1/stats?user_id=…` sums the last seven days of meals per day and
asks the provider for recommendations on that week.

The model covers:

- the two handlers of `backend/lib/server.py` (module `Server`). They are
  methods that return the response and the list of collaborator calls they
  made. What each collaborator returns is an input, and an exception the
  handler does not catch becomes the `Aborted` response;
- the day bucketing at lines 112-122 (module `Bucketing`): seven totals,
  today first, each over the meals dated exactly that day, zero shown as
  absent;
- the LLM-backed provider (module `NutritionLLM`), which builds the prompts
  from fixed templates, reads the `kilocalories` field of the model's JSON
  answer and rejects a zero estimate, and the Python conversions it relies
  on (module `PyOps`: the `== 0` test on JSON values and `float()`);
- the fixed-value fake provider (module `NutritionFake`);
- the older create-meal handler of `backend/server.py` (module
  `LegacyServer`). It opens a database session itself, so the session and
  the table are classes whose methods change their state. The handler is
  proved to release the session exactly once on every path;
- the server tests' requests and a few end-to-end replies (module
  `Scenarios`).

Dates are day numbers and "now"/"today" are parameters. Calories are `real`.
`str.replace` is modelled by `Text.ReplaceAll`.

## Model

| member | source | states |
|---|---|---|
| Server.DoPost | backend/lib/server.py:26-83 | a path other than the meals path gives 404 and no call; a missing `user_id` or `description` key gives 400 with the fixed message and no call; otherwise `get_nutrition` is called once with the description; its failure gives 400 with `details` and no insert; on success exactly one `insert_meal` is made with the request's user id, description, `created_date` (or the current time) and the estimate; then 500 echoing the insert's dict when its status is "error", 200 `{"calories": estimate}` otherwise, and no response when the dict has no status; every 200 follows exactly one insert of the returned calories |
| Server.DoGet | backend/lib/server.py:85-143 | a path not starting with the stats path gives 404 and no call; a missing or empty `user_id` gives 400 and no call; otherwise the repository is asked once for that user; an error dict gives 500 echoing it; an empty result gives 404 and no provider call; otherwise `get_recommendations` is called exactly once with the seven buckets of `PastData`, and its failure gives 500 with `details`, its success 200 with the text verbatim under `recommendations` |
| Bucketing.DailyTotals | backend/lib/server.py:112-121 | exactly seven totals |
| Bucketing.DropEmpty | backend/lib/server.py:122 | the mapping keeps the list's length |
| Bucketing.PastData | backend/lib/server.py:112-122 | the list handed to the provider has seven entries, today first; entry d is None exactly when the meals dated today − d sum to zero, and otherwise `NutritionInfo` of that sum |
| Bucketing.DayTotalAppend | backend/lib/server.py:114-118 | a day's total over two lists of meals is the sum of their totals |
| Bucketing.DayTotalNoMeals | backend/lib/server.py:114-118 | a day with no meal dated on it totals zero |
| Bucketing.DayTotalPermutation | backend/lib/server.py:114-118 | a day's total does not depend on the order of the meals |
| Bucketing.PastDataIgnoresOrder | backend/lib/server.py:112-122 | in exact arithmetic, the buckets do not depend on the order in which the repository returns the meals |
| Bucketing.PastDataIgnoresOutsideWeek | backend/lib/server.py:112-122 | meals dated outside today−6..today do not change the buckets |
| Bucketing.EighthDayDropped | backend/lib/server.py:112-122 | a meal dated seven days ago, which the repository's week filter still returns, falls in no bucket |
| Bucketing.AbsentDays | backend/lib/server.py:112-122 | a day with no meals is None, and a day is None exactly when its total is zero |
| Bucketing.DayTotalNonNegative | backend/lib/server.py:114-118 | with non-negative estimates every day's total is non-negative |
| Bucketing.PresentDaysPositive | backend/lib/server.py:122 | with non-negative estimates every reported day has a positive total |
| Bucketing.SpanCaloriesStep | backend/lib/server.py:112-121 | a span of days splits into its first day and the rest |
| Bucketing.SpanTotalIsSpanCalories | backend/lib/server.py:112-121 | summing day by day equals summing the meals dated in the span |
| Bucketing.ReportedIsSpanTotal | backend/lib/server.py:112-122 | the calories a bucket list reports equal the day-by-day sum of the span it covers |
| Bucketing.WeekCaloriesIsSpan | backend/lib/server.py:112-121 | the week's in-range meals total the same as the seven-day span |
| Bucketing.PastDataConservesWeek | backend/lib/server.py:112-122 | in exact arithmetic, the reported week holds every calorie of every meal dated in the week exactly once: nothing is lost by dropping zero days or counted twice |
| Bucketing.FourMealsScenario | backend/test/test_server.py:63-90 | 100 and 200 today, 400 two days ago and 1000 four days ago give [300, None, 400, None, 1000, None, None] |
| Bucketing.SingleMealScenario | backend/lib/server.py:112-122 | one meal today gives that meal's calories first and six absent days |
| Text.ReplaceAllSkipsPrefix | backend/lib/datasources/providers/nutrition.py:70 | replacing in text that cannot start a match leaves that text unchanged in front |
| Text.ReplaceAllShort | backend/lib/datasources/providers/nutrition.py:70 | text shorter than the placeholder is unchanged |
| Text.ReplaceAllAtHead | backend/lib/datasources/providers/nutrition.py:70 | a placeholder at the head is replaced and the rest is processed |
| Text.Substitute | backend/lib/datasources/providers/nutrition.py:70 | a template with one placeholder becomes prefix + replacement + suffix |
| Text.ReplaceAll | backend/lib/datasources/providers/nutrition.py:70 | text in which the pattern cannot start is returned unchanged, and replacing the pattern by itself changes nothing |
| PyOps.EqualsZeroMatchesFloat | backend/lib/datasources/providers/nutrition.py:79-81 | for numbers and booleans the `== 0` test agrees with `float()` giving zero |
| PyOps.ZeroStringConvertsToZero | backend/lib/datasources/providers/nutrition.py:79-81 | the string "0" is not `== 0`, yet `float()` turns it into zero |
| PyOps.EqualsZero | backend/lib/datasources/providers/nutrition.py:79 | only a number or a boolean can be `== 0`: a string, `None`, a list or a dict never is |
| PyOps.ToFloat | backend/lib/datasources/providers/nutrition.py:81 | `float()` raises TypeError exactly for `None`, lists and dicts, and ValueError only for strings; a number keeps its value and a boolean becomes 1.0 or 0.0 |
| NutritionLLM.CaloriesPromptShape | backend/lib/datasources/providers/nutrition.py:10-21 | the calorie prompt is the template with the description in place of `[[INPUT]]` and nothing else changed |
| NutritionLLM.CaloriesPromptInjective | backend/lib/datasources/providers/nutrition.py:10-21 | different descriptions give different prompts |
| NutritionLLM.NutritionRequest | backend/lib/datasources/providers/nutrition.py:70-76 | the request carries the stored model, the substituted prompt, `stream` false and `format` "json", and goes to the provider's URL followed by `/api/generate` |
| NutritionLLM.CaloriesFrom | backend/lib/datasources/providers/nutrition.py:77-81 | LLMException exactly when the `kilocalories` field is present and `== 0`; success exactly when it is present, not `== 0` and `float()` accepts it, with calories equal to `float(field)` |
| NutritionLLM.GetNutrition | backend/lib/datasources/providers/nutrition.py:58-81 | as written: a description that is not a string gives TypeError; otherwise one request with the calorie prompt of that description; a failed request gives its error, a reply that is not text TypeError, a text that does not decode ValueError, and a decoded reply the result of the calorie rules (`CaloriesFrom`) |
| NutritionLLM.OnlyKilocaloriesMatters | backend/lib/datasources/providers/nutrition.py:77-78 | no field but `kilocalories` affects the result |
| NutritionLLM.NonZeroNumberReturned | backend/lib/datasources/providers/nutrition.py:79-81 | any non-zero number, a negative one included, is returned unchanged |
| NutritionLLM.NumericEstimateNeverZero | backend/lib/datasources/providers/nutrition.py:79-81 | for a numeric or boolean field no success carries zero calories |
| NutritionLLM.ZeroStringSlipsThrough | backend/lib/datasources/providers/nutrition.py:79-81 | as written, a reply `{"kilocalories": "0"}` yields a zero-calorie success |
| NutritionLLM.CaloriesFromChecked | backend/lib/datasources/providers/nutrition.py:79-81 | with the zero test on the converted value, no success is zero, LLMException is raised exactly when the value converts to zero, and every success agrees with the original |
| NutritionLLM.GetNutritionChecked | backend/lib/datasources/providers/nutrition.py:58-81 | the corrected `get_nutrition` never returns zero calories and agrees with the original on every success |
| NutritionLLM.RenderPastData | backend/lib/datasources/providers/nutrition.py:92-96 | the rendered list has the same length as `past_data` |
| NutritionLLM.RenderedWeek | backend/lib/datasources/providers/nutrition.py:92-96 | the rendered week keeps order: day d is None exactly when its total is zero, else `{'calories': total}` |
| NutritionLLM.RecommendationsPromptShape | backend/lib/datasources/providers/nutrition.py:92-96 | the recommendations prompt is the template with the rendered list in place of `[[INPUT]]` and nothing else changed |
| NutritionLLM.RecommendationsRequest | backend/lib/datasources/providers/nutrition.py:92-100 | the request carries the stored model, the substituted prompt, `stream` false and no `format`, and goes to the provider's URL followed by `/api/generate` |
| NutritionLLM.GetRecommendations | backend/lib/datasources/providers/nutrition.py:83-101 | succeeds exactly when the upstream exchange does, and returns its `response` verbatim |
| NutritionFake.EstimateIgnoresDescription | backend/lib/datasources/providers/nutrition_fake.py:13-22 | two calls with any descriptions give equal results |
| NutritionFake.EstimateHonoursContract | backend/lib/datasources/providers/nutrition_fake.py:13-22 | the fake never fails and its estimate is not zero |
| NutritionFake.AdviceIgnoresWeek | backend/lib/datasources/providers/nutrition_fake.py:24-33 | the advice is the same for every week, an all-absent one included |
| NutritionFake.GetNutrition | backend/lib/datasources/providers/nutrition_fake.py:13-22 | every description gets a successful 500.0-calorie estimate |
| NutritionFake.GetRecommendations | backend/lib/datasources/providers/nutrition_fake.py:24-33 | every week gets the fixed advice "надо меньше есть" |
| LegacyServer.Session.constructor | backend/server.py:50 | a new session on the table, open, with nothing staged or done |
| LegacyServer.Session.AddMeal | backend/server.py:57 | records the add; the row is staged unless the database refuses |
| LegacyServer.Session.CommitAll | backend/server.py:58 | records the commit; on success the staged rows are appended to the table and nothing stays staged, on failure table and staging are unchanged |
| LegacyServer.Session.RollbackAll | backend/server.py:60 | records the rollback and discards the staged rows |
| LegacyServer.Session.CloseSession | backend/server.py:67-68 | records the close; the session is closed with nothing staged |
| LegacyServer.SessionScript | backend/server.py:50-68 | every path releases the session exactly once and last; it is rolled back exactly when add or commit failed, and committed exactly when the add went through |
| LegacyServer.DoPost | backend/server.py:25-74 | a routing miss gives 404 and a missing key 400, with no provider call, no session and no write; the provider is called once before any session exists and its failure drops the request; on success a fresh session is used as the script says and released exactly once; exactly one row is written, and only when add and commit succeed; 500 `{'error': 'Database error', 'details': …}` on failure, 200 with the calories otherwise |
| Scenarios.AsEstimate | backend/lib/server.py:53-64 | a provider failure reaches the handler as its text; LLMException's text is empty |
| Scenarios.AsAdvice | backend/lib/server.py:124-132 | a recommendation failure reaches the handler as its text, a success unchanged |
| Scenarios.PostWithFakeProvider | backend/lib/test_server.py:53-69 | with the fake provider a POST gets 200 `{"calories": 500.0}` and one insert with the request's fields, 500.0 and the current time |
| Scenarios.PostRepositoryError | backend/lib/server.py:73-78 | a repository error reaches the client as 500 with the repository's dict, after one insert |
| Scenarios.StatsFourMeals | backend/test/test_server.py:63-90 | the repository is asked once for user "42", the provider once with [300, None, 400, None, 1000, None, None], and its text comes back under `recommendations` |
| Scenarios.StatsWithFakeProvider | backend/lib/datasources/providers/nutrition_fake.py:24-33 | any week with meals gets the fake's fixed advice with 200 |
| Scenarios.PostZeroEstimate | backend/lib/datasources/providers/nutrition.py:79-80 | a numeric zero estimate ends as 400 with empty details and no insert |
| Scenarios.PostZeroStringStored | backend/lib/datasources/providers/nutrition.py:79-81 | as written, a string "0" estimate is stored as a 0-calorie meal and answered with 200 |
| Scenarios.PostZeroStringRefused | backend/lib/datasources/providers/nutrition.py:79-81 | with the corrected zero test the same reply gives 400 and no insert |
| Scenarios.LegacyPostWithFakeProvider | backend/server.py:45-74 | with the fake provider and a healthy database one row is committed and the client gets 200 `{"calories": 500.0}` |
| Scenarios.LegacyCommitFails | backend/server.py:58-66 | a failing commit leaves the table unchanged and gives 500 with the database's message |

## Left out

- HTTP plumbing is not modelled: the request line, headers, `Content-Length`, `json.loads`/`json.dumps` of bodies, `wfile` writes and `run`/`serve_forever`. A POST body is taken as an already decoded JSON object. A body that is not valid JSON, or not an object, is outside the model.
- The query string is taken as already parsed by `parse_qs`. `Server.DoGet` also handles a `user_id` entry with no values (an IndexError, so `Aborted`), which `parse_qs` never produces.
- The repository (`backend/lib/database/session.py`) is an unfinished stub. It appears only as the handlers' collaborator: its results are inputs, and its week filter (from now minus seven days) is not modelled. `Bucketing.EighthDayDropped` shows what the handler does with the extra day that filter lets through.
- Repository results other than a list of meals or a dict (for example `None`) are not modelled.
- Server.DoPost: the estimate that reaches the handler is the provider's result turned into text by `Scenarios.AsEstimate`. The messages Python gives to TypeError and ValueError are a parameter there, not modelled.
- The `requests.post` exchange with Ollama and the model's answers are not modelled. The exchange is the parameter `NutritionLLM.Generate`, and `json.loads` of the answer is the parameter `NutritionLLM.Decode`.
- NutritionLLM.RecommendationsPromptShape: Python's `str()` of the rendered list, including float formatting, is the parameter `NutritionLLM.Repr`.
- PyOps.ToFloat accepts `[+|-]digits[.digits]` strings of ASCII digits. Python's `float()` also accepts surrounding whitespace, exponents, underscores, `inf`, `nan` and non-ASCII Unicode digits; the model rejects those with ValueError.
- PyOps.ToFloat takes every JSON number as an exact real. Python's `float()` raises OverflowError on an integer beyond the double range, and that error is not modelled.
- A JSON `NaN` in the model's reply decodes in Python to a float that is not `== 0` and so comes back as a success. The model's `JsonValue` numbers are reals and have no NaN.
- Calories are exact reals, not IEEE doubles, so float rounding in the sums is not modelled. Python's float `sum` depends on the order of the meals through rounding, so `Bucketing.PastDataIgnoresOrder` and `Bucketing.PastDataConservesWeek` hold in exact arithmetic only.
- `datetime.datetime.now()` is a parameter. The handler reads the clock inside the filter of the inner comprehension, once per meal and per day (seven times the number of meals). Near midnight even one bucket can compare its meals against two different dates; that is not modelled.
- Meal dates are taken as datetimes, as the tests pass them. The table of backend/lib/database/models.py:23 declares `created_date` as a `date`, which has no `.date()`, so rows loaded from it would make backend/lib/server.py:116 raise (an `Aborted` response). That path is not modelled.
- Meal dates are day numbers. The stats test dates one meal 5 ms before now, which is the same day except just after midnight.
- Meal ids are naturals rather than UUIDs; nothing in the core reads them.
- LegacyServer.Database: `init_db` (`create_all`) creates the table only when it is missing and keeps the rows already stored. The table's initial contents are therefore arbitrary, and `LegacyServer.DoPost` is stated relative to them. The empty constructor serves the scenarios only.
- LegacyServer.Session: failures of `rollback` and `close` themselves, and SQLAlchemy's own session semantics beyond staging and committing rows, are not modelled. Constructing the `Meal` row never raises in the model.
- The engine and session factories (`main_db.py`), the ORM declarations (used only for the shape of `Meal`), `backend/main.py` wiring and the Telegram bot are not part of this model.
- The test at backend/lib/test_server.py:68-69 expects `insert_meal` without `created_date`, but backend/lib/server.py:66-71 always passes one. `Scenarios.PostWithFakeProvider` follows the handler.
- The first `test_POST` in backend/test/test_server.py:39 is shadowed by the second and is used as documentation only.
- The providers' constructor fields are a datatype value (`NutritionLLM.LLMProvider`), so "no method changes them" holds by construction and has no lemma of its own.

## Findings

| source | as written | input that shows it | evidently intended | confidence | as-written member | corrected member |
|---|---|---|---|---|---|---|
| backend/lib/datasources/providers/nutrition.py:79-81 | the zero test `calories == 0` runs on the raw JSON value, before `float(calories)` | the model answers `{"kilocalories": "0"}`: `"0" == 0` is false, `float("0")` is 0.0, so `NutritionInfo(0.0)` is returned and the handler stores a 0-calorie meal with 200 | zero calories is never a successful estimate, whatever the JSON type (the prompt asks for 0 "if there is some real error") | medium, not executed | NutritionLLM.ZeroStringSlipsThrough | NutritionLLM.GetNutritionChecked |
