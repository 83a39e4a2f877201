/** The LLM-backed nutrition provider
    (backend/lib/datasources/providers/nutrition.py): it fills a prompt
    template, sends it to the model's `/api/generate` endpoint and reads the
    calorie estimate or the recommendation text out of the reply. The HTTP
    exchange is the parameter `generate`. */
module NutritionLLM {
  import opened Wrappers
  import opened Json
  import opened Nutrition
  import opened Text
  import opened PyOps
  import Bucketing

  /** The marker each prompt template carries once. */
  const Placeholder: string := "[[INPUT]]"

  /** Template text in which no placeholder can start: it has no '['. */
  type PlainText = s: string | '[' !in s

  // GET_CALORIES_PROMPT, one constant per template line, the last one cut
  // at the placeholder. Long lines are joined from short literals: the
  // verifier checks "no '['" piece by piece.
  const CaloriesPersona: PlainText := "You are a smart diet app.\n"
  const CaloriesRequest: PlainText := "User gives you a description of his " + "meal and you give him the amount of\n"
  const CaloriesNutrients: PlainText := "kilocalories, proteins, " + "carbohydrates and fats that this " + "meal had.\n"
  const CaloriesKnowledge: PlainText := "Use your knowledge about nutrition " + "in food.\n"
  const CaloriesFormatIntro: PlainText := "Return ONLY JSON with this format:\n"
  const CaloriesFormatShape: PlainText := "\\{\"kilocalories\": int, \"proteins\": " + "int, \"carbs\": int, \"fats\": int\\}.\n"
  const CaloriesEstimateHint: PlainText := "You can give a reasonable average " + "estimate. If there is some real " + "error\n"
  const CaloriesErrorHint: PlainText := "(like if provided meal is not " + "food), just place 0 for calories.\n"
  const CaloriesIntegerHint: PlainText := "\"calories\" should only be an " + "integer number. not a string\n"
  const CaloriesInputLead: PlainText := "Input: \""

  const CaloriesPrefix: string :=
    "\n"
    + CaloriesPersona + CaloriesRequest + CaloriesNutrients + CaloriesKnowledge
    + CaloriesFormatIntro + CaloriesFormatShape + CaloriesEstimateHint + CaloriesErrorHint
    + CaloriesIntegerHint + CaloriesInputLead
  const CaloriesSuffix: PlainText := "\"\n"
  const GetCaloriesPrompt: string := CaloriesPrefix + Placeholder + CaloriesSuffix

  // GET_RECOMMENDATIONS_PROMPT likewise.
  const RecommendationsPersona: PlainText := "You are a dietologist.\n"
  const RecommendationsClient: PlainText := "Provide recommendations for a " + "client who entered some data into a " + "nutrition app.\n"
  const RecommendationsWeight: PlainText := "This client is an adult who has " + "normal weight. He does not\n"
  const RecommendationsGoal: PlainText := "have a goal of losing weight, he " + "just wants to maintain it. If he " + "consumes\n"
  const RecommendationsTooLittle: PlainText := "less calories than needed for " + "normal life, tell him about it. If " + "he consumes\n"
  const RecommendationsTooMuch: PlainText := "more, also tell him. Give not only " + "general advice, but also advice for\n"
  const RecommendationsSpecificDays: PlainText := "specific days, if they differ from " + "others very much. Answer no more " + "than\n"
  const RecommendationsLength: PlainText := "150 words, no preface, no general " + "words, more specific " + "recommendations.\n"
  const RecommendationsBlank: PlainText := "\n"
  const RecommendationsPastList: PlainText := "Here is a list of PAST kilocalorie " + "intake for days from today to N " + "days ago.\n"
  const RecommendationsNoneMeaning: PlainText := "None signifies that there was no " + "data for that day, you should " + "ignore it.\n"
  const RecommendationsAnalytics: PlainText := "Give general analytics on these " + "past days, and some recommendations " + "for the\n"
  const RecommendationsLanguage: PlainText := "future. Answer only in Russian.\n"
  const RecommendationsInputLead: PlainText := "Input: "

  const RecommendationsPrefix: string :=
    "\n"
    + RecommendationsPersona + RecommendationsClient + RecommendationsWeight + RecommendationsGoal
    + RecommendationsTooLittle + RecommendationsTooMuch + RecommendationsSpecificDays + RecommendationsLength
    + RecommendationsBlank + RecommendationsPastList + RecommendationsNoneMeaning + RecommendationsAnalytics
    + RecommendationsLanguage + RecommendationsInputLead
  const RecommendationsSuffix: PlainText := "\n"
  const GetRecommendationsPrompt: string := RecommendationsPrefix + Placeholder + RecommendationsSuffix

  /** The provider's two constructor arguments; no method changes them. */
  datatype LLMProvider = LLMProvider(ollamaUrl: string, ollamaModel: string)

  /** The JSON body posted to the endpoint, with the URL it goes to. */
  datatype GenerateRequest = GenerateRequest(url: string, model: string, prompt: string, stream: bool, format: Option<string>)

  /** One exchange with the endpoint: the `response` field of its JSON reply,
      or the text of the exception raised on the way (connection error,
      timeout, a body that is not JSON, a reply without that field). */
  type Generate = GenerateRequest -> Result<JsonValue, string>

  /** `json.loads` of a string: the decoded document or the decoder's error. */
  type Decode = string -> Result<JsonValue, string>

  /** Python's `str()` of the rendered past-data list. */
  type Repr = seq<Option<map<string, real>>> -> string

  function GenerateUrl(p: LLMProvider): string
  {
    p.ollamaUrl + "/api/generate"
  }

  // ---- get_nutrition ----

  function CaloriesPrompt(description: string): string
  {
    ReplaceAll(GetCaloriesPrompt, Placeholder, description)
  }

  /** The calorie prompt is the template with the description in place of
      the placeholder and nothing else changed. */
  lemma CaloriesPromptShape(description: string)
    ensures CaloriesPrompt(description) == CaloriesPrefix + description + CaloriesSuffix
  {
    assert Placeholder[0] == '[';
    Substitute(CaloriesPrefix, CaloriesSuffix, Placeholder, description);
  }

  /** Different descriptions give different prompts. */
  lemma CaloriesPromptInjective(d1: string, d2: string)
    ensures CaloriesPrompt(d1) == CaloriesPrompt(d2) ==> d1 == d2
  {
    CaloriesPromptShape(d1);
    CaloriesPromptShape(d2);
    if CaloriesPrompt(d1) == CaloriesPrompt(d2) {
      var n := |CaloriesPrefix|;
      assert d1 == CaloriesPrompt(d1)[n..n + |d1|];
      assert |d1| == |d2|;
      assert d2 == CaloriesPrompt(d2)[n..n + |d2|];
    }
  }

  function NutritionRequest(p: LLMProvider, description: string): (req: GenerateRequest)
    ensures req.url == p.ollamaUrl + "/api/generate" && req.model == p.ollamaModel
    ensures req.prompt == CaloriesPrefix + description + CaloriesSuffix
    ensures !req.stream && req.format == Some("json")
  {
    CaloriesPromptShape(description);
    GenerateRequest(GenerateUrl(p), p.ollamaModel, CaloriesPrompt(description), false, Some("json"))
  }

  /** Lines 78-81 on the decoded reply: the `kilocalories` field, a zero
      raising LLMException, anything else converted with `float`. */
  function CaloriesFrom(doc: JsonValue): (r: Result<NutritionInfo, ProviderError>)
    ensures r == Failure(LLMException) <==>
      doc.JObject? && "kilocalories" in doc.fields && EqualsZero(doc.fields["kilocalories"])
    ensures r.Success? <==>
      doc.JObject? && "kilocalories" in doc.fields && !EqualsZero(doc.fields["kilocalories"])
      && ToFloat(doc.fields["kilocalories"]).Success?
    ensures r.Success? ==> r.value.calories == ToFloat(doc.fields["kilocalories"]).value
  {
    match doc
    case JObject(fields) =>
      if "kilocalories" !in fields then Failure(KeyError("kilocalories"))
      else if EqualsZero(fields["kilocalories"]) then Failure(LLMException)
      else
        (match ToFloat(fields["kilocalories"])
         case Success(x) => Success(NutritionInfo(x))
         case Failure(e) => Failure(e))
    case _ => Failure(TypeError)
  }

  /** `get_nutrition`, as written: a description that is not a string makes
      `str.replace` raise TypeError; otherwise the reply's `response` text is
      decoded and its calorie field read. */
  function GetNutrition(p: LLMProvider, description: JsonValue, generate: Generate, decode: Decode): (r: Result<NutritionInfo, ProviderError>)
    // a description that is not a string: `str.replace` raises
    ensures !description.JStr? ==> r == Failure(TypeError)
    // otherwise one request, for the calorie prompt of that description;
    // its failure, a reply that is not text, a text `json.loads` rejects,
    // or else the calorie rules of lines 78-81 decide
    ensures description.JStr? ==>
      var reply := generate(NutritionRequest(p, description.s));
      (reply.Failure? ==> r == Failure(RequestFailed(reply.error)))
      && (reply.Success? && !reply.value.JStr? ==> r == Failure(TypeError))
      && (reply.Success? && reply.value.JStr? && decode(reply.value.s).Failure? ==> r == Failure(ValueError))
      && (reply.Success? && reply.value.JStr? && decode(reply.value.s).Success? ==>
            r == CaloriesFrom(decode(reply.value.s).value))
  {
    match description
    case JStr(d) =>
      (match generate(NutritionRequest(p, d))
       case Failure(text) => Failure(RequestFailed(text))
       case Success(JStr(text)) =>
         (match decode(text)
          case Failure(_) => Failure(ValueError)
          case Success(doc) => CaloriesFrom(doc))
       case Success(_) => Failure(TypeError))
    case _ => Failure(TypeError)
  }

  /** Only the `kilocalories` field of the decoded reply decides the result. */
  lemma OnlyKilocaloriesMatters(f1: JsonObject, f2: JsonObject)
    requires ("kilocalories" in f1) == ("kilocalories" in f2)
    requires "kilocalories" in f1 ==> f1["kilocalories"] == f2["kilocalories"]
    ensures CaloriesFrom(JObject(f1)) == CaloriesFrom(JObject(f2))
  {
  }

  /** Any non-zero number, a negative one included, is returned as it is. */
  lemma NonZeroNumberReturned(fields: JsonObject, x: real)
    requires "kilocalories" in fields && fields["kilocalories"] == JNum(x) && x != 0.0
    ensures CaloriesFrom(JObject(fields)) == Success(NutritionInfo(x))
  {
  }

  /** For a numeric or boolean calorie field no success carries zero calories. */
  lemma NumericEstimateNeverZero(doc: JsonValue)
    requires doc.JObject? && "kilocalories" in doc.fields
    requires doc.fields["kilocalories"].JNum? || doc.fields["kilocalories"].JBool?
    ensures NeverZero(CaloriesFrom(doc))
  {
    EqualsZeroMatchesFloat(doc.fields["kilocalories"]);
  }

  /** As written, the zero test runs before `float`: a reply whose calorie
      field is the string "0" comes back as a zero-calorie success. */
  lemma ZeroStringSlipsThrough(p: LLMProvider, d: string, decode: Decode)
    requires decode("{\"kilocalories\": \"0\"}") == Success(JObject(map["kilocalories" := JStr("0")]))
    ensures GetNutrition(p, JStr(d), req => Success(JStr("{\"kilocalories\": \"0\"}")), decode)
         == Success(NutritionInfo(0.0))
  {
    ZeroStringConvertsToZero();
  }

  /** The zero test applied to the converted value, as the provider contract
      intends: zero is never a successful estimate, whatever its JSON type. */
  function CaloriesFromChecked(doc: JsonValue): (r: Result<NutritionInfo, ProviderError>)
    ensures NeverZero(r)
    ensures r == Failure(LLMException) <==>
      doc.JObject? && "kilocalories" in doc.fields && ToFloat(doc.fields["kilocalories"]) == Success(0.0)
    ensures r.Success? ==> CaloriesFrom(doc) == r
  {
    match doc
    case JObject(fields) =>
      if "kilocalories" !in fields then Failure(KeyError("kilocalories"))
      else
        (match ToFloat(fields["kilocalories"])
         case Success(x) => if x == 0.0 then Failure(LLMException) else Success(NutritionInfo(x))
         case Failure(e) => Failure(e))
    case _ => Failure(TypeError)
  }

  /** `get_nutrition` with the corrected zero test. */
  function GetNutritionChecked(p: LLMProvider, description: JsonValue, generate: Generate, decode: Decode): (r: Result<NutritionInfo, ProviderError>)
    ensures NeverZero(r)
    ensures r.Success? ==> r == GetNutrition(p, description, generate, decode)
  {
    match description
    case JStr(d) =>
      (match generate(NutritionRequest(p, d))
       case Failure(text) => Failure(RequestFailed(text))
       case Success(JStr(text)) =>
         (match decode(text)
          case Failure(_) => Failure(ValueError)
          case Success(doc) => CaloriesFromChecked(doc))
       case Success(_) => Failure(TypeError))
    case _ => Failure(TypeError)
  }

  // ---- get_recommendations ----

  /** `inform.__dict__` of a NutritionInfo. */
  function FieldDict(info: NutritionInfo): map<string, real>
  {
    map["calories" := info.calories]
  }

  /** Lines 92-96: each day becomes its field dict, an absent day stays None. */
  function RenderPastData(past: seq<Option<NutritionInfo>>): (r: seq<Option<map<string, real>>>)
    ensures |r| == |past|
  {
    seq(|past|, i requires 0 <= i < |past| => if past[i].Some? then Some(FieldDict(past[i].value)) else None)
  }

  /** Rendering the handler's week keeps its length and order: day `d` is
      None exactly when its total is zero, and otherwise `{'calories': total}`. */
  lemma RenderedWeek(meals: seq<Meal>, today: int, d: int)
    requires 0 <= d < Bucketing.Days
    ensures |RenderPastData(Bucketing.PastData(meals, today))| == Bucketing.Days
    ensures RenderPastData(Bucketing.PastData(meals, today))[d] ==
      if Bucketing.DayTotal(meals, today - d) == 0.0 then None
      else Some(map["calories" := Bucketing.DayTotal(meals, today - d)])
  {
  }

  function RecommendationsPrompt(past: seq<Option<NutritionInfo>>, repr: Repr): string
  {
    ReplaceAll(GetRecommendationsPrompt, Placeholder, repr(RenderPastData(past)))
  }

  /** The recommendation prompt is the template with the rendered list in
      place of the placeholder and nothing else changed. */
  lemma RecommendationsPromptShape(past: seq<Option<NutritionInfo>>, repr: Repr)
    ensures RecommendationsPrompt(past, repr) ==
      RecommendationsPrefix + repr(RenderPastData(past)) + RecommendationsSuffix
  {
    assert Placeholder[0] == '[';
    Substitute(RecommendationsPrefix, RecommendationsSuffix, Placeholder, repr(RenderPastData(past)));
  }

  function RecommendationsRequest(p: LLMProvider, past: seq<Option<NutritionInfo>>, repr: Repr): (req: GenerateRequest)
    ensures req.url == p.ollamaUrl + "/api/generate" && req.model == p.ollamaModel
    ensures req.prompt == RecommendationsPrefix + repr(RenderPastData(past)) + RecommendationsSuffix
    ensures !req.stream && req.format == None
  {
    RecommendationsPromptShape(past, repr);
    GenerateRequest(GenerateUrl(p), p.ollamaModel, RecommendationsPrompt(past, repr), false, None)
  }

  /** `get_recommendations`: the reply's `response` field, verbatim, with no
      zero test and no other check. */
  function GetRecommendations(p: LLMProvider, past: seq<Option<NutritionInfo>>, repr: Repr, generate: Generate): (r: Result<JsonValue, ProviderError>)
    ensures r.Success? <==> generate(RecommendationsRequest(p, past, repr)).Success?
    ensures r.Success? ==> r.value == generate(RecommendationsRequest(p, past, repr)).value
  {
    match generate(RecommendationsRequest(p, past, repr))
    case Success(text) => Success(text)
    case Failure(text) => Failure(RequestFailed(text))
  }
}
