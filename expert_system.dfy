/** `EXPERT_SYSTEM`: the fixed rules that turn a prediction, the body-mass
    category and the diet preference into a workout list and a nutrition plan.
    The wording of the template texts is carried as opaque constants. */
module ExpertSystem {
  import opened JsSemantics
  import opened Body

  // ---------------------------------------------------------------------
  // Workout plan
  // ---------------------------------------------------------------------

  datatype Tier = Low | Medium | High

  const LowWorkouts: seq<string> := [
    "Walking: 30 minutes daily",
    "Light Yoga: 20 minutes for flexibility",
    "Stretching: 10 minutes morning routine",
    "Beginner Bodyweight: Squats (2x10), Wall Pushups (2x10)"
  ]

  const MediumWorkouts: seq<string> := [
    "Jogging/Brisk Walk: 45 minutes (3-4x/week)",
    "Cycling: 30 minutes moderate pace",
    "Strength Training: Squats, Pushups, Lunges (3x12)",
    "Pilates: 30 minute session"
  ]

  const HighWorkouts: seq<string> := [
    "HIIT Cardio: 20 minutes intense intervals",
    "Weight Training: Full body compound lifts (4x/week)",
    "Running: 5km at steady pace",
    "Sports: Swimming, Basketball, or Tennis (1 hour)"
  ]

  /** The note the safety override adds for an Obese user at high intensity. */
  const LowImpactCardio: string := "Low Impact Cardio (Swimming/Elliptical) to protect joints"

  /** A JavaScript array of strings: an object whose `push` extends it in place. */
  class JsArray {
    var items: seq<string>

    constructor (init: seq<string>)
      ensures items == init
    {
      items := init;
    }

    method Push(x: string)
      modifies this
      ensures items == old(items) + [x]
    {
      items := items + [x];
    }
  }

  /** The `workouts` object literal: one array per tier. */
  class WorkoutTable {
    const low: JsArray
    const medium: JsArray
    const high: JsArray

    constructor ()
      ensures fresh(low) && fresh(medium) && fresh(high)
      ensures low.items == LowWorkouts && medium.items == MediumWorkouts && high.items == HighWorkouts
    {
      low := new JsArray(LowWorkouts);
      medium := new JsArray(MediumWorkouts);
      high := new JsArray(HighWorkouts);
    }

    /** `workouts[level]`. */
    function Get(level: Tier): (a: JsArray)
    {
      match level
      case Low => low
      case Medium => medium
      case High => high
    }
  }

  /** The tier an intensity selects: at most 4 is low, 5 to 7 medium, 8 and up high. */
  function TierOf(intensity: int): (t: Tier)
    ensures t == Low <==> intensity <= 4
    ensures t == Medium <==> 5 <= intensity <= 7
    ensures t == High <==> 8 <= intensity
  {
    if intensity <= 4 then Low else if intensity <= 7 then Medium else High
  }

  function TierWorkouts(level: Tier): seq<string> {
    match level
    case Low => LowWorkouts
    case Medium => MediumWorkouts
    case High => HighWorkouts
  }

  /** What a plan request returns: the tier's list, except that an Obese user
      whose tier is high gets the medium list followed by the low-impact note. */
  function WorkoutPlan(intensity: int, category: BmiCategory): seq<string> {
    if category == Obese && TierOf(intensity) == High then MediumWorkouts + [LowImpactCardio]
    else TierWorkouts(TierOf(intensity))
  }

  /** `getWorkoutPlan`: builds the table afresh, moves `level` up through two
      `>` tests, and for the override pushes the note onto the medium array. */
  method GetWorkoutPlan(intensity: int, bmiCategory: BmiCategory) returns (advice: seq<string>)
    ensures advice == WorkoutPlan(intensity, bmiCategory)
  {
    var workouts := new WorkoutTable();
    var level := Low;
    if intensity > 4 { level := Medium; }
    if intensity > 7 { level := High; }
    var chosen := workouts.Get(level);
    if bmiCategory == Obese && level == High {
      chosen := workouts.medium;
      chosen.Push(LowImpactCardio);
    }
    advice := chosen.items;
  }

  /** Which list a plan starts with, how long it is, and when the note comes last. */
  lemma WorkoutPlanShape(intensity: int, category: BmiCategory)
    ensures var plan := WorkoutPlan(intensity, category);
      && (|plan| == 5 <==> category == Obese && intensity >= 8)
      && (|plan| == 4 <==> !(category == Obese && intensity >= 8))
      && plan[..4] == (if intensity <= 4 then LowWorkouts
                       else if intensity <= 7 || category == Obese then MediumWorkouts
                       else HighWorkouts)
      && (|plan| == 5 ==> plan[4] == LowImpactCardio)
  {
    var plan := WorkoutPlan(intensity, category);
    if category == Obese && intensity >= 8 {
      assert plan[..4] == MediumWorkouts;
    } else {
      assert plan[..4] == plan;
    }
  }

  /** No tier list holds the note: every workout text is shorter. */
  lemma NoteAbsent(level: Tier)
    ensures LowImpactCardio !in TierWorkouts(level)
  {
    var list := TierWorkouts(level);
    assert |LowImpactCardio| == 57;
    forall i | 0 <= i < |list|
      ensures |list[i]| < 57
    {
    }
  }

  /** The note appears exactly once in an overridden plan and never otherwise. */
  lemma LowImpactNoteCount(intensity: int, category: BmiCategory)
    ensures multiset(WorkoutPlan(intensity, category))[LowImpactCardio]
            == if category == Obese && intensity >= 8 then 1 else 0
  {
    NoteAbsent(TierOf(intensity));
    NoteAbsent(Medium);
    if category == Obese && intensity >= 8 {
      assert multiset(WorkoutPlan(intensity, category))
             == multiset(MediumWorkouts) + multiset{LowImpactCardio};
    }
  }

  /** Asking twice gives the same list: notes do not pile up across calls,
      because each call builds its own table. */
  method RepeatedWorkoutPlans(intensity: int, category: BmiCategory)
    returns (first: seq<string>, second: seq<string>)
    ensures first == second
    ensures multiset(second)[LowImpactCardio] <= 1
  {
    first := GetWorkoutPlan(intensity, category);
    second := GetWorkoutPlan(intensity, category);
    LowImpactNoteCount(intensity, category);
  }

  // ---------------------------------------------------------------------
  // Nutrition plan
  // ---------------------------------------------------------------------

  datatype Macros = Macros(protein: int, fats: int, carbs: int)

  datatype NutritionPlan = NutritionPlan(macros: Macros, tips: seq<string>)

  /** The `foodSources` object literal: three food lines per diet. */
  const FoodSources: map<string, seq<string>> := map[
    "veg" := [
      "Protein: Paneer, Lentils (Dal), Chickpeas, Greek Yogurt, Quinoa",
      "Fats: Almonds, Walnuts, Ghee, Olive Oil",
      "Carbs: Brown Rice, Roti, Oats, Sweet Potato"
    ],
    "non-veg" := [
      "Protein: Chicken Breast, Eggs, Fish, Lean Mutton",
      "Fats: Fish Oil, Egg Yolk, Avocado, Nuts",
      "Carbs: Rice, Whole Wheat Bread, Potatoes"
    ],
    "vegan" := [
      "Protein: Tofu, Soy Chunks, Lentils, Black Beans, Nutritional Yeast",
      "Fats: Avocado, Flax Seeds, Chia Seeds, Coconut Oil",
      "Carbs: Quinoa, Buckwheat, Fruits, Vegetables"
    ]
  ]

  const Hydration: string := "Hydration: Drink at least 3-4 liters of water daily."
  const CalorieDeficit: string := "Focus on calorie deficit. Reduce processed sugars."
  const BalancedDiet: string := "Maintain a balanced diet with whole foods."

  /** The first tip: the three gram targets printed into one line. */
  function TargetsLine(protein: int, fats: int, carbs: int): (line: string)
    ensures |line| > 9 && line[..9] == "Targets: "
  {
    "Targets: " + (IntString(protein) + ("g Protein | " + (IntString(fats) + ("g Fats | "
      + (IntString(carbs) + "g Carbs")))))
  }

  /** Equal texts after an equal prefix. */
  lemma DropPrefix(prefix: string, x: string, y: string)
    requires prefix + x == prefix + y
    ensures x == y
  {
    assert x == (prefix + x)[|prefix|..];
    assert y == (prefix + y)[|prefix|..];
  }

  /** The targets line names its three gram values unambiguously: equal lines
      come from equal macros. */
  lemma TargetsLineInjective(p: int, f: int, c: int, p': int, f': int, c': int)
    requires TargetsLine(p, f, c) == TargetsLine(p', f', c')
    ensures p == p' && f == f' && c == c'
  {
    var C, C' := IntString(c), IntString(c');
    var tailF, tailF' := C + "g Carbs", C' + "g Carbs";
    var F, F' := IntString(f), IntString(f');
    var tailP, tailP' := F + ("g Fats | " + tailF), F' + ("g Fats | " + tailF');
    var P, P' := IntString(p), IntString(p');
    IntStringHasNoG(p);
    IntStringHasNoG(p');
    DropPrefix("Targets: ", P + ("g Protein | " + tailP), P' + ("g Protein | " + tailP'));
    SplitBeforeG(P, "g Protein | " + tailP, P', "g Protein | " + tailP');
    DropPrefix("g Protein | ", tailP, tailP');
    IntStringHasNoG(f);
    IntStringHasNoG(f');
    SplitBeforeG(F, "g Fats | " + tailF, F', "g Fats | " + tailF');
    DropPrefix("g Fats | ", tailF, tailF');
    IntStringHasNoG(c);
    IntStringHasNoG(c');
    SplitBeforeG(C, "g Carbs", C', "g Carbs");
    IntStringInjective(p, p');
    IntStringInjective(f, f');
    IntStringInjective(c, c');
  }

  /** `Math.round((calories * 0.25) / 9)`. */
  function Fats(calories: int): (fats: int)
    ensures 72 * fats - 36 <= 2 * calories < 72 * fats + 36
  {
    Round(calories as real * 0.25 / 9.0)
  }

  /** `Math.round((calories - (protein * 4) - (fats * 9)) / 4)`: not clamped. */
  function Carbs(calories: int, protein: int, fats: int): (carbs: int)
    ensures 4 * carbs - 2 <= calories - protein * 4 - fats * 9 < 4 * carbs + 2
  {
    Round((calories - protein * 4 - fats * 9) as real / 4.0)
  }

  /** The food lines for a diet: its own entry, or the vegetarian lines. */
  function SelectFoods(dietPreference: string): (foods: seq<string>)
    ensures |foods| == 3
    ensures dietPreference in FoodSources ==> foods == FoodSources[dietPreference]
    ensures dietPreference !in FoodSources ==> foods == FoodSources["veg"]
  {
    if dietPreference in FoodSources then FoodSources[dietPreference] else FoodSources["veg"]
  }

  function Closing(category: BmiCategory): (line: string)
    ensures line == CalorieDeficit <==> category == Overweight || category == Obese
    ensures line == BalancedDiet <==> category.Underweight? || category.NormalWeight?
  {
    assert |CalorieDeficit| == 50 && |BalancedDiet| == 42;
    if category == Overweight || category == Obese then CalorieDeficit else BalancedDiet
  }

  function Assemble(calories: int, protein: int, category: BmiCategory, foods: seq<string>): NutritionPlan {
    var fats := Fats(calories);
    var carbs := Carbs(calories, protein, fats);
    NutritionPlan(Macros(protein, fats, carbs),
                  [TargetsLine(protein, fats, carbs)] + foods + [Hydration, Closing(category)])
  }

  /** `getNutritionPlan` with the diet lookup falling back to the vegetarian
      lines for every name the table does not hold. */
  function GetNutritionPlan(calories: int, protein: int, bmiCategory: BmiCategory, dietPreference: string)
    : (plan: NutritionPlan)
    ensures plan.macros.protein == protein
    ensures |plan.tips| == 6
    ensures plan.tips[0] == TargetsLine(plan.macros.protein, plan.macros.fats, plan.macros.carbs)
    ensures plan.tips[1..4] == SelectFoods(dietPreference)
    ensures plan.tips[4] == Hydration
    ensures plan.tips[5] == CalorieDeficit <==> bmiCategory == Overweight || bmiCategory == Obese
    ensures plan.tips[5] == BalancedDiet <==> !(bmiCategory == Overweight || bmiCategory == Obese)
  {
    Assemble(calories, protein, bmiCategory, SelectFoods(dietPreference))
  }

  /** The two roundings are exact integer formulas: fats is `calories / 36` and
      carbs the remaining energy over 4, each rounded half up. */
  lemma NutritionMacrosExact(calories: int, protein: int, category: BmiCategory, diet: string)
    ensures var m := GetNutritionPlan(calories, protein, category, diet).macros;
      && m.fats == (2 * calories + 36) / 72
      && m.carbs == (calories - 4 * protein - 9 * m.fats + 2) / 4
  {
    RoundThirtySixth(calories);
    RoundQuarter(calories - 4 * protein - 9 * Fats(calories));
  }

  /** The macros account for the calories to within 2 kcal, and fats for a
      quarter of them to within half a gram. */
  lemma NutritionEnergyBalance(calories: int, protein: int, category: BmiCategory, diet: string)
    ensures var m := GetNutritionPlan(calories, protein, category, diet).macros;
      && -2 <= calories - (4 * m.protein + 9 * m.fats + 4 * m.carbs) < 2
      && 72 * m.fats - 36 <= 2 * calories < 72 * m.fats + 36
  {
    NutritionMacrosExact(calories, protein, category, diet);
  }

  /** Carbs come out negative exactly when protein and fats already exceed the
      calories by more than 2 kcal; nothing clamps them. */
  lemma CarbsSign(calories: int, protein: int, category: BmiCategory, diet: string)
    ensures var m := GetNutritionPlan(calories, protein, category, diet).macros;
      m.carbs >= 0 <==> calories - 4 * protein - 9 * m.fats >= -2
  {
    NutritionMacrosExact(calories, protein, category, diet);
  }

  /** Calories of four times the protein are not enough to keep carbs at zero
      or above: 400 kcal with 100 g protein gives 11 g fats and -25 g carbs. */
  lemma NegativeCarbsExample()
    ensures GetNutritionPlan(400, 100, NormalWeight, "veg").macros == Macros(100, 11, -25)
  {
    NutritionMacrosExact(400, 100, NormalWeight, "veg");
  }

  /** 2000 kcal, 90 g protein, normal weight, vegan: 56 g fats, 284 g carbs,
      the vegan food lines and the balanced-diet closing line. */
  lemma VeganExample()
    ensures var plan := GetNutritionPlan(2000, 90, NormalWeight, "vegan");
      && plan.macros == Macros(90, 56, 284)
      && plan.tips[1..4] == FoodSources["vegan"]
      && plan.tips[5] == BalancedDiet
  {
    NutritionMacrosExact(2000, 90, NormalWeight, "vegan");
  }

  /** What `getNutritionPlan` does as written: `foodSources[pref] || foodSources['veg']`
      finds an inherited `Object.prototype` member for names such as "toString",
      keeps it because it is truthy, and spreading it into the tips throws a
      TypeError since it is not iterable. */
  datatype NutritionOutcome = Returned(plan: NutritionPlan) | ThrewTypeError

  function GetNutritionPlanAsWritten(calories: int, protein: int, bmiCategory: BmiCategory, dietPreference: string)
    : (r: NutritionOutcome)
    ensures r.ThrewTypeError? <==> dietPreference !in FoodSources && dietPreference in ObjectPrototypeKeys
  {
    match Get(FoodSources, dietPreference)
    case Own(foods) => Returned(Assemble(calories, protein, bmiCategory, foods))
    case Inherited(_) => ThrewTypeError
    case Undefined => Returned(Assemble(calories, protein, bmiCategory, FoodSources["veg"]))
  }

  /** A diet named "toString" makes the plan request fail instead of falling back. */
  lemma InheritedDietThrows()
    ensures GetNutritionPlanAsWritten(2000, 90, NormalWeight, "toString") == ThrewTypeError
  {
    assert "toString" !in FoodSources;
  }

  /** Outside the inherited names, the code as written returns the intended plan. */
  lemma GetNutritionPlanAgrees(calories: int, protein: int, category: BmiCategory, diet: string)
    requires diet !in ObjectPrototypeKeys
    ensures GetNutritionPlanAsWritten(calories, protein, category, diet)
            == Returned(GetNutritionPlan(calories, protein, category, diet))
  {
  }
}
