/** The fixed-value provider (backend/lib/datasources/providers/nutrition_fake.py):
    it has no state, never raises and ignores its arguments. */
module NutritionFake {
  import opened Wrappers
  import opened Json
  import opened Nutrition

  /** `config.CAL500`: 500.0 calories. */
  const Cal500: real := 500.0

  /** The fixed recommendation ("eat less"). */
  const Advice: string := "надо меньше есть"

  function GetNutrition(description: JsonValue): (r: Result<NutritionInfo, ProviderError>)
    ensures r == Success(NutritionInfo(Cal500))
  {
    Success(NutritionInfo(Cal500))
  }

  function GetRecommendations(past: seq<Option<NutritionInfo>>): (r: Result<JsonValue, ProviderError>)
    ensures r == Success(JStr(Advice))
  {
    Success(JStr(Advice))
  }

  /** The estimate does not depend on the description. */
  lemma EstimateIgnoresDescription(d1: JsonValue, d2: JsonValue)
    ensures GetNutrition(d1) == GetNutrition(d2)
  {
  }

  /** The fake keeps the zero-means-failure contract: it never fails and its
      estimate is not zero. */
  lemma EstimateHonoursContract(d: JsonValue)
    ensures GetNutrition(d).Success? && NeverZero(GetNutrition(d))
  {
  }

  /** The advice is the same for every week, an all-absent one included. */
  lemma AdviceIgnoresWeek(past: seq<Option<NutritionInfo>>)
    ensures GetRecommendations(past) == GetRecommendations([None, None, None, None, None, None, None])
  {
  }
}
