/** The value types shared by the handlers and the providers: NutritionInfo
    (backend/lib/service/interfaces/nutrition.py), the Meal record
    (backend/lib/database/models.py) and the provider contract. */
module Nutrition {
  import opened Wrappers

  /** One meal's estimate, or one day's aggregate total. */
  datatype NutritionInfo = NutritionInfo(calories: real)

  /** A stored meal as the repository returns it. `createdDay` is the calendar
      day of `created_date` as a day number (the `.date()` of the timestamp). */
  datatype Meal = Meal(id: nat, userId: string, description: string, calories: real, createdDay: int)

  /** The exceptions a provider's `get_nutrition` can raise. */
  datatype ProviderError =
    | LLMException          // the estimate was zero: "not food"
    | KeyError(key: string) // a field the reply should carry is missing
    | TypeError             // an argument or reply of the wrong JSON type
    | ValueError            // a calorie string that float() rejects
    | RequestFailed(text: string) // the upstream exchange itself failed

  /** The load-bearing part of the provider contract: zero is never a
      successful estimate. */
  predicate NeverZero(r: Result<NutritionInfo, ProviderError>)
  {
    r.Success? ==> r.value.calories != 0.0
  }
}
