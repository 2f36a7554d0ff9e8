/** The shape of a nutrition report as the response schema of `analyzeFood` declares it.
    JavaScript numbers are modelled as reals. A field the schema leaves optional
    (`confidence`, `micronutrients`) is an `Option`, and so are the four macro numbers,
    which the chart reads with a `|| 0` default. */
module FoodTypes {
  import opened Wrappers

  datatype Macros = Macros(protein: Option<real>, carbs: Option<real>, fat: Option<real>, fiber: Option<real>)

  /** `labelText` is the schema's `label` (a reserved word in Dafny). */
  datatype Micronutrient = Micronutrient(labelText: string, value: real, unit: string)

  datatype NutritionRecord = NutritionRecord(
    foodName: string,
    confidence: Option<real>,
    description: string,
    estimatedWeight: string,
    calories: real,
    macros: Macros,
    micronutrients: Option<seq<Micronutrient>>,
    allergens: seq<string>,
    healthScore: real,
    pros: seq<string>,
    cons: seq<string>,
    tips: seq<string>,
    processingLevel: string)
}
