/** The form side of a plan request: the check on the submitted values, and the
    step that hands the prediction and the category to the plan rules. */
module Form {
  import opened Body
  import opened ExpertSystem
  import Regressor

  /** What `parseFloat` gives for a text field. */
  datatype Parsed = NotANumber | PositiveInfinity | NegativeInfinity | Finite(value: real)

  /** JavaScript's `x > 0`: false for NaN, true for +Infinity. */
  function GreaterThanZero(x: Parsed): (positive: bool)
    ensures x == NotANumber || x == NegativeInfinity ==> !positive
    ensures x == PositiveInfinity ==> positive
    ensures x.Finite? ==> (positive <==> x.value > 0.0)
  {
    match x
    case NotANumber => false
    case PositiveInfinity => true
    case NegativeInfinity => false
    case Finite(v) => v > 0.0
  }

  datatype FormData = FormData(weight: Parsed, height: Parsed, activityLevel: string, dietPreference: string)

  /** `validateFormData`. */
  function ValidateFormData(data: FormData): (ok: bool)
    ensures ok ==> data.weight != NotANumber && data.height != NotANumber
    ensures ok ==> data.activityLevel != [] && data.dietPreference != []
    ensures ok <==> GreaterThanZero(data.weight) && GreaterThanZero(data.height)
                    && |data.activityLevel| > 0 && |data.dietPreference| > 0
  {
    GreaterThanZero(data.weight) && GreaterThanZero(data.height)
      && data.activityLevel != "" && data.dietPreference != ""
  }

  /** Accepted finite weights and heights are positive; zero, negative and
      unparsable numbers and empty choices are each refused on their own. */
  lemma ValidateFormDataRefuses(data: FormData)
    ensures ValidateFormData(data) && data.weight.Finite? ==> data.weight.value > 0.0
    ensures ValidateFormData(data) && data.height.Finite? ==> data.height.value > 0.0
    ensures data.weight == Finite(0.0) || data.height == Finite(0.0) ==> !ValidateFormData(data)
    ensures data.weight == NegativeInfinity || data.height == NegativeInfinity ==> !ValidateFormData(data)
  {
  }

  /** Steps 2 and 3 of a form submission: the workout list for the predicted
      intensity and the nutrition plan for the predicted calories and protein. */
  method GeneratePlans(prediction: Regressor.Prediction, bmiCategory: BmiCategory, dietPreference: string)
    returns (workoutPlan: seq<string>, nutritionPlan: NutritionPlan)
    ensures 4 <= |workoutPlan| <= 5
    ensures workoutPlan == WorkoutPlan(prediction.intensity, bmiCategory)
    ensures |nutritionPlan.tips| == 6
    ensures nutritionPlan.macros.protein == prediction.protein
    ensures nutritionPlan.tips[0] == TargetsLine(prediction.protein, nutritionPlan.macros.fats, nutritionPlan.macros.carbs)
    ensures nutritionPlan == GetNutritionPlan(prediction.calories, prediction.protein, bmiCategory, dietPreference)
  {
    workoutPlan := GetWorkoutPlan(prediction.intensity, bmiCategory);
    WorkoutPlanShape(prediction.intensity, bmiCategory);
    nutritionPlan := GetNutritionPlan(prediction.calories, prediction.protein, bmiCategory, dietPreference);
  }
}
