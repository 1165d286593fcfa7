# FitBuddy plan rules in Dafny

FitBuddy is a browser page that takes a user's weight, height, activity level and
diet preference, retrains a small regression network on every request, and turns the
network's three outputs (calories, protein, workout intensity) into a workout list and
a nutrition plan through a fixed rule table (`EXPERT_SYSTEM`). This project models the
deterministic layer of `app.js` around that network and proves what it promises:

- `js_semantics.dfy` (module `JsSemantics`): the JavaScript behaviour the rules depend on —
  `Math.round` (nearest integer, halves upwards, on exact reals), the text an integer
  becomes inside a template string, and `obj[key]` on an object literal, which also finds
  the members every literal inherits from `Object.prototype`.
- `regressor.dfy` (module `Regressor`): the `FitnessAI` class — its `model` and
  `isTrained` fields, `createModel` (the network as an object carrying its shape and the
  number of epochs its weights have been fitted for), `train` (build once, then fit that
  same network for fifty more epochs, each reporting a percentage), `predict` (rounding and the intensity
  clamp, with the network's raw outputs as a parameter) and `mapActivityLevel`; and the
  filter the form's progress callback applies before updating the button text.
- `body.dfy` (module `Body`): `getBMICategory` over the BMI in tenths, which is what the
  one-decimal string from `calculateBMI` carries.
- `expert_system.dfy` (module `ExpertSystem`): `getWorkoutPlan` as an imperative method
  that builds the `workouts` table anew, raises `level` through two `>` tests and pushes
  the low-impact note onto the medium array in place (arrays are objects of class
  `JsArray`); `getNutritionPlan` as a function, with its macro arithmetic and tip list.
- `form.dfy` (module `Form`): `validateFormData` over what `parseFloat` can return, and
  the step of the submit handler that passes the prediction to the two rules.

Each rule is paired with a reference definition or a lemma: the workout method is proved
against `WorkoutPlan`, whose shape, tier boundaries and note count are proved; the
nutrition roundings are proved equal to exact integer formulas and to balance the
calories within 2 kcal; the integer printing used in the targets line is proved to
round-trip; the progress percentages are proved to be `2·(epoch+1)`, strictly
increasing, and to let exactly ten updates through the `% 10` filter.

Notes on the code:

- `getWorkoutPlan` declares its `workouts` literal inside the function, so the `push`
  of the safety override changes only that call's own array: repeated calls do not pile
  up notes. The model builds the table per call and proves that two calls agree.
- Nothing keeps carbs non-negative when calories are at least four times the protein:
  fats take a quarter of the calories first, so 400 kcal with 100 g protein gives
  −25 g carbs. What the code does guarantee, and the model proves, is that carbs are
  non-negative exactly when `calories − 4·protein − 9·fats ≥ −2`.
- `isTrained` is set to `false` by the constructor and never changed; `train` creates the
  network only when `model` is null and refits it on every call.

## Model

| member | source | states |
|---|---|---|
| JsSemantics.Round | app.js:79-81 | `Math.round(x)` is the integer within half of `x`, ties going up |
| JsSemantics.RoundUnique | app.js:79-81 | only one integer meets that description, so the rounding is determined |
| JsSemantics.RoundThirtySixth | app.js:140 | `Math.round(calories*0.25/9)` equals `(2·calories + 36) div 72` |
| JsSemantics.RoundQuarter | app.js:141 | `Math.round(n/4)` equals `(n + 2) div 4`, also for negative `n` |
| JsSemantics.RoundNegativeHalf | app.js:141 | `Math.round(-2.5)` is `-2`: negative halves also round up |
| JsSemantics.NatString | app.js:166 | a natural number prints as at least one decimal digit, with no leading zero |
| JsSemantics.IntString | app.js:166 | an integer prints as its digits, with a leading `-` exactly when it is negative |
| JsSemantics.NatStringValue | app.js:166 | the decimal digits of a natural number read back as that number |
| JsSemantics.IntStringRoundTrip | app.js:166 | an integer printed into a template string reads back as the same integer, sign included |
| JsSemantics.IntStringInjective | app.js:166 | different gram values print as different texts in the targets line |
| JsSemantics.Get | app.js:93 | looking a key up on an object literal finds the literal's own value exactly for the literal's keys, otherwise the inherited member of that very name when `Object.prototype` has one, and is undefined only for keys that are neither own nor inherited |
| Regressor.MapActivityLevelAsWritten | app.js:85-94 | the lookup `map[level]` with its fallback to 1 yields something other than a level exactly for inherited names absent from the table |
| Regressor.InheritedLabelSkipsFallback | app.js:93 | the label "toString" skips the fallback to 1 and yields no level |
| Regressor.MapActivityLevel | app.js:85-94 | the intended lookup is always in [1,5] and differs from 1 only for a label of the table |
| Regressor.ActivityLevelsInOrder | app.js:86-93 | Sedentary, Lightly, Moderately, Very and Extremely Active map to 1..5 in that order; every other string maps to 1 |
| Regressor.MapActivityLevelAgrees | app.js:93 | outside the inherited names the code as written gives the intended level |
| Regressor.ClampIntensity | app.js:81 | the intensity is always in [1,10], equals the rounded value when that is in [1,10], and is 1 below and 10 above |
| Regressor.FitnessAI.Predict | app.js:73-83 | calories and protein are the nearest integers to the raw outputs; intensity is in [1,10] and is the nearest integer to the raw value whenever that rounds into [1,10] |
| Regressor.Progress | app.js:66 | the percentage `Math.round(((e+1)/50)*100)` reported after epoch `e` is exactly `2·(e+1)` |
| Regressor.RunEpochs | app.js:61-70 | one training run reports fifty percentages, the `e`-th being `2·(e+1)` |
| Regressor.ProgressReportsShape | app.js:62-66 | the percentages lie in [2,100], grow strictly and end at 100 |
| Regressor.Shown | app.js:232 | the progress callback passes on at most as many values as it gets, and exactly those that are multiples of ten |
| Regressor.ShownAppend | app.js:232 | the `% 10` filter of the progress callback distributes over concatenation |
| Regressor.ShownOfEvens | app.js:232 | among the first `5m` even percentages exactly the multiples of ten pass, in order |
| Regressor.ShownProgress | app.js:231-235 | exactly ten of the fifty epochs update the button text, at 10, 20, ..., 100 percent |
| Regressor.FitnessAI.constructor | app.js:6-8 | a new instance has no model and is not trained |
| Regressor.Model.constructor | app.js:27-51 | a new network has the given shape and has not been fitted |
| Regressor.Model.Fit | app.js:61-70 | fitting trains the same network for fifty more epochs and reports the fifty percentages |
| Regressor.FitnessAI.CreateModel | app.js:26-55 | the model becomes a new network object shaped 3→16 relu→8 relu→3 linear, trained with Adam at 0.01 on mean squared error, not yet fitted; `isTrained` is untouched |
| Regressor.FitnessAI.Train | app.js:57-71 | with no model, a new network is built and fitted for fifty epochs; with one, that same object is kept and fitted fifty epochs further; every run reports the fifty percentages |
| Regressor.TrainTwice | app.js:58-61 | on a new instance the second run trains the very network the first run built (one object, 100 epochs in all), and both runs report the same percentages |
| Body.LabelInjective | app.js:276-279 | the four category labels are distinct, so comparing labels is comparing categories |
| Body.GetBmiCategory | app.js:275-280 | Underweight below 18.5, Normal weight in [18.5,25), Overweight in [25,30), Obese from 30, each an if-and-only-if |
| Body.GetBmiCategoryMonotone | app.js:275-280 | a larger BMI never gives a lower category |
| Body.GetBmiCategoryBoundaries | app.js:275-280 | 18.5, 25 and 30 belong to the higher category, the tenth below each to the lower |
| ExpertSystem.JsArray.Push | app.js:133 | `push` appends one item to the array in place |
| ExpertSystem.JsArray.constructor | app.js:104-121 | an array literal holds exactly its listed items |
| ExpertSystem.WorkoutTable.constructor | app.js:103-122 | each call's table holds three fresh arrays with the low, medium and high lists |
| ExpertSystem.TierOf | app.js:124-126 | the tier is low for intensity ≤ 4, medium for 5..7 and high for ≥ 8, each an if-and-only-if |
| ExpertSystem.GetWorkoutPlan | app.js:102-137 | the returned list is the tier list the intensity selects, or for Obese at high tier the medium list plus the low-impact note |
| ExpertSystem.WorkoutPlanShape | app.js:124-136 | intensity ≤ 4 gives the low list, 5..7 the medium list, ≥ 8 the high list, except Obese at ≥ 8 gets the medium list and the note as a fifth item |
| ExpertSystem.NoteAbsent | app.js:103-122 | none of the three tier lists contains the low-impact note |
| ExpertSystem.LowImpactNoteCount | app.js:130-134 | the note occurs exactly once in an overridden plan and nowhere else |
| ExpertSystem.RepeatedWorkoutPlans | app.js:103-134 | two calls with the same arguments return the same list, holding the note at most once |
| ExpertSystem.TargetsLine | app.js:166 | the first tip starts with `Targets: `; `TargetsLineInjective` shows that the line fixes the three gram values |
| ExpertSystem.TargetsLineInjective | app.js:166 | equal targets lines come from equal protein, fats and carbs, so the line names the macros unambiguously |
| ExpertSystem.Fats | app.js:140 | fats are the integer nearest to `calories/36`, halves rounded up |
| ExpertSystem.Carbs | app.js:141 | carbs are the integer nearest to `(calories − 4·protein − 9·fats)/4`, halves rounded up, with no clamp |
| ExpertSystem.SelectFoods | app.js:161 | three food lines: a diet the table names gets its own lines, any other the vegetarian ones |
| ExpertSystem.Closing | app.js:169-171 | the closing tip is the calorie-deficit line iff the category is Overweight or Obese, and the balanced-diet line iff it is Underweight or Normal weight |
| ExpertSystem.GetNutritionPlan | app.js:139-174 | protein is passed through; six tips: the targets line, the diet's three food lines, hydration, and the calorie-deficit line iff Overweight or Obese, otherwise the balanced-diet line |
| ExpertSystem.NutritionMacrosExact | app.js:140-141 | fats are `calories/36` and carbs `(calories − 4·protein − 9·fats)/4`, each rounded half up, as integer formulas |
| ExpertSystem.NutritionEnergyBalance | app.js:140-141 | the macros account for the calories to within 2 kcal, and fats for a quarter of them to within half a gram |
| ExpertSystem.CarbsSign | app.js:141 | carbs are non-negative iff protein and fats leave at least −2 kcal; nothing clamps them |
| ExpertSystem.NegativeCarbsExample | app.js:140-141 | 400 kcal with 100 g protein gives 11 g fats and −25 g carbs |
| ExpertSystem.VeganExample | app.js:139-174 | 2000 kcal, 90 g protein, Normal weight, vegan gives 56 g fats, 284 g carbs, the vegan lines and the balanced-diet line |
| ExpertSystem.GetNutritionPlanAsWritten | app.js:161-167 | as written, the plan throws a TypeError exactly for inherited names absent from the diet table |
| ExpertSystem.InheritedDietThrows | app.js:161-167 | the diet "toString" makes the plan request throw instead of falling back |
| ExpertSystem.GetNutritionPlanAgrees | app.js:161 | outside the inherited names the code as written returns the intended plan |
| Form.GreaterThanZero | app.js:267 | JavaScript's `x > 0` is false for NaN and −Infinity, true for +Infinity, and for a finite value true iff it is positive |
| Form.ValidateFormData | app.js:266-268 | a form is accepted iff weight and height compare greater than zero and both choices are non-empty, so NaN is refused |
| Form.ValidateFormDataRefuses | app.js:266-268 | accepted finite weights and heights are positive; zero and −Infinity are refused |
| Form.GeneratePlans | app.js:242-243 | the workout list has four or five items and the nutrition tips are six, starting with the targets line for the predicted protein |

## Findings

| source | as written | input that shows it | evidently intended | confidence | as-written member | corrected member |
|---|---|---|---|---|---|---|
| app.js:93 | the lookup `map[level]` behind the fallback to 1 also finds the members inherited from `Object.prototype`, which are truthy, so the fallback is skipped | `level = "toString"` yields a function, not a level in [1,5] | every label outside the table maps to 1 | high (not executed; standard JavaScript lookup) | Regressor.MapActivityLevelAsWritten | Regressor.MapActivityLevel |
| app.js:161-167 | the lookup `foodSources[dietPreference]` behind the fallback to `foodSources['veg']` keeps an inherited member, and spreading it into the tips throws a TypeError | `dietPreference = "toString"` makes the plan request fail | every unknown diet gets the vegetarian lines | high (not executed; standard JavaScript lookup and spread) | ExpertSystem.GetNutritionPlanAsWritten | ExpertSystem.GetNutritionPlan |

Both values are read from the `activityLevel` and `dietPreference` form fields
(app.js:191-192, app.js:261-262). The page's HTML is not part of this model; if those
fields only offer the listed choices, only a modified page can send such a value. The
rest of the model uses the corrected lookups.

## Left out

- The regression network: its random initial weights, the fitting by `model.fit` and the
  forward pass (`model.predict`, `dataSync`) belong to TensorFlow.js and float arithmetic.
  `Predict` takes the three raw outputs as a parameter; the input row
  `[weight, height, mapActivityLevel(level)]` is therefore not modelled either.
- The twelve-row training corpus (app.js:10-23): it is only data for the network.
- The loss value passed to the progress callback: it comes from the fitting.
- Regressor.FitnessAI.Predict: requires a model, where the source dereferences a null model and throws a TypeError that the form handler catches; every caller trains first.
- ExpertSystem.GetWorkoutPlan: the intensity is an integer. `predict` can also hand it NaN (see the next line); `getWorkoutPlan` then keeps the low tier, since `NaN > 4` is false, and the model does not cover that case.
- Regressor.FitnessAI.Predict: the raw outputs are finite reals. A NaN or ±Infinity output of the network is not modelled: in the source a NaN third output gives intensity NaN (`Math.round`, `Math.max` and `Math.min` all pass NaN on), +Infinity clamps to 10 and −Infinity to 1, and NaN or infinite calories and protein pass through rounding unchanged. Such outputs can arise, for instance, from a weight the form accepts but float32 tensors hold as Infinity.
- `calculateBMI`'s float division and `toFixed(1)`: the category is taken over the BMI in tenths.
- Body.GetBmiCategory: a NaN BMI is not modelled. A weight and a height that both parse to Infinity (such as `1e400`) pass `validateFormData`, `Infinity/Infinity` is NaN, all three `<` tests fail and the source labels the user Obese, which then selects the Obese workout override and the calorie-deficit tip. An infinite BMI (Obese) and a zero BMI (Underweight) agree with the tenths reading.
- Floating point in general: numbers are exact reals. For the integer calories and protein the
  source passes, `calories*0.25/9`, the carbs quotient and the progress quotient are exact or
  round to the same integer in double precision, but overflow and precision loss for huge
  values are not modelled.
- Regressor.RunEpochs: the epoch loop stands for the loop inside `model.fit` calling `onEpochEnd`; per-epoch shuffling is not modelled.
- The exact wording of workout, food and tip texts is carried but nothing is proved about it
  beyond which text appears where.
- All DOM code, `getFormData`'s reading of the fields (only what `parseFloat` returns is
  modelled, as `Parsed`), `formatAIResponse`'s HTML, the async/await sequence and `try/catch`
  of `handleFormSubmit`, `setTimeout`, and overlapping submissions sharing one `FitnessAI`.
