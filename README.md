# NutriSync plan generation, modelled in Dafny

NutriSync's backend turns a user's profile into a seven-day meal plan. This
project models the core of that computation in `main.py`:

- the nutrition arithmetic: `bmr` (Mifflin-St Jeor), `tdee` (activity
  multiplier table `AMF`), `target_cal` (goal offset) and `fit_adj`
  (fitness-tracker adjustment);
- `make_fallback`, the seven-day plan built from two fixed template sets;
- the control flow of the `generate_plan` route. The route computes the
  targets, then asks the external plan generator when a key is configured.
  It falls back to `make_fallback` when the call yields nothing usable, and
  finally sets `used_ai`.

Files:

| file | module | contents |
|---|---|---|
| `wrappers.dfy` | `Wrappers` | `Option`, `Result` |
| `rounding.dfy` | `Rounding` | Python's `round` on exact reals (half to even) |
| `text.dfy` | `Text` | ASCII `lower()`, substring `in`, `join`, decimal `str` of an int |
| `schemas.dfy` | `Schemas` | the `PlanRequest` body |
| `nutrition.dfy` | `Nutrition` | `bmr`, `tdee`, `target_cal`, `fit_adj` and their properties |
| `templates.dfy` | `Templates` | the 21 meal templates, their ingredients and every fixed text |
| `fallback.dfy` | `Fallback` | `make_fallback` and the rendering of its records |
| `fallback_props.dfy` | `FallbackProperties` | properties of the fallback plan |
| `plan_route.dfy` | `PlanRoute` | `generate_plan` as a method over the outcome of the generator call |

Modelling choices:

- Python `round` is `Rounding.Round`. It works on exact reals and rounds half
  to even.
- `str.lower()` is `Text.Lower` (ASCII letters only).
- A substring test `p in s` is the recursive `Text.Contains`. `Text.OccursAt`
  is an index-based reference definition, and the two are proved equivalent.
- A meal of the fallback plan is stored as its `Template` (one of the 21
  dishes the source can emit), its calories, its ingredients (each a `Food`
  and its share of calories), and the two texts that quote the request: the
  goal and the joined allergies. Every fixed string is kept in the
  `Templates` text functions. `Fallback.ViewMeal` renders a meal with every
  value of the record `make_fallback` returns: type, name, ingredients with
  "as needed", macronutrients, micronutrients, explainability and recipe.
  The nested `macronutrients`, `explainability` and `recipe` objects are
  flattened into that one record, under field names of its own.
  With this split the structural proofs compare templates and foods rather
  than string literals.
- `fit_adj` reassigns its argument step by step, so it is the method
  `Nutrition.FitAdj`. That method is proved equal to the function
  `Nutrition.ActivityAdjusted`, and the properties are proved about the function.
- `generate_plan` is the method `PlanRoute.GeneratePlan`. Its two parameters
  stand for what it reads from outside: `apiKey` is the configured key (""
  when unset), and `outcome` is how the generator attempt ended (it raised,
  its reply was not JSON, or it parsed to a value). The value is a `Json`
  datatype with Python truthiness. Assigning `plan_data["used_ai"]` in a
  parsed value that is not an object raises a `TypeError`; the model gives
  `Err(ItemAssignmentOnNonObject)` there. The `print` of
  `plan_data.get(...)` just after `used_ai = True` can raise only inside the
  `try`. The `except` catches it, and it changes no state, so the model
  leaves it out.

Notable behaviour of the code:

- The BMR for a 70 kg, 175 cm, 30-year-old male is 1649. That gives a TDEE of 2556 and a weight-loss target of
  2056 (`Nutrition.WorkedExample`).
- A fallback day reports the target itself as `total_day_calories`. Its
  meals add up to within 2 calories of it, but not always exactly: for a
  target of 2056 they add up to 2057.
- The fallback repeats its meals every other day, so a meal comes back
  within two days. Consecutive days never share a meal in any slot.
- The fallback does not filter allergies. A peanut-allergic request with no
  cuisine is served peanuts on Monday. Each meal still says "Confirmed safe
  — no Peanuts", and the response claims `allergy_verified: true`.
- "Vegetarian" is a case-sensitive substring test. So "Non-Vegetarian"
  counts as vegetarian, and "Vegan" gets the vegetarian templates, dairy
  included.

## Model

| member | source | states |
|---|---|---|
| Rounding.Round | main.py:163 | The result is an integer within 1/2 of x; on an exact tie it is the even one (Python `round`). |
| Rounding.RoundUnique | main.py:163 | Any integer within 1/2 of x that is even on a tie is `Round(x)`, so the rounding is uniquely determined. |
| Rounding.RoundOfInt | main.py:167 | Rounding an integer gives it back. |
| Rounding.RoundShiftEven | main.py:163 | Shifting x by an even integer shifts the rounded value by the same amount. |
| Rounding.RoundMonotone | main.py:167 | Rounding is monotone. |
| Text.LowerChar | main.py:163 | Each upper-case ASCII letter maps to the matching lower-case letter (32 code points on); every other character is unchanged. |
| Text.Lower | main.py:163 | Lower-casing keeps the length and lower-cases each character. |
| Text.LowerIdempotent | main.py:163-165 | Lower-casing twice is lower-casing once. |
| Text.ContainsIffOccurs | main.py:165 | The substring test holds exactly when the pattern occurs at some index. |
| Text.DigitChar | main.py:487 | The digit character of d is a character '0'..'9' whose offset from '0' is d. |
| Text.NatToDecimal | main.py:487 | The decimal text of a natural number is non-empty and made of digits only. It has no leading zero: it starts with '0' exactly when the number is 0, and then it is that one digit. |
| Text.NatToDecimalRoundTrip | main.py:487 | Reading the decimal text of n back gives n. |
| Text.IntToDecimal | main.py:487 | `str(n)` starts with a minus sign exactly when n is negative. Every character after it is a digit, the digits have no leading zero, and they read back as the magnitude of n. |
| Text.JoinSingle | main.py:377 | Joining a single item gives that item back. |
| Text.JoinSnoc | main.py:377 | `Join` (`sep.join`): appending an item to a non-empty list appends the separator and that item to the joined text. With `JoinSingle` this determines the joined text of every list. |
| Text.JoinLength | main.py:377 | A joined text is as long as its items together plus one separator between each two neighbours. |
| Text.JoinStartsWithFirst | main.py:377 | A joined text starts with the first item. |
| Nutrition.BmrIsMifflinStJeor | main.py:163 | `Bmr` (`bmr`): BMR is 10w + 6.25h - 5a, plus 5 when the lower-cased gender is "male" or "m" and -161 for any other string, rounded to the nearest integer, half to even. |
| Nutrition.BmrGenderGap | main.py:163 | For the same body, "male" scores exactly 166 more than any gender string that is not male. |
| Nutrition.CaseInsensitive | main.py:163-165 | Lower-casing gender, activity or goal first leaves BMR, TDEE and the target unchanged. |
| Nutrition.TdeeFactor | main.py:161-164 | `Tdee` and `ActivityFactor` (`tdee`, `AMF`): TDEE is the product of b and the table factor of the lower-cased activity, rounded half to even. An unknown activity is treated like "moderate". |
| Nutrition.TdeeModerateAnyCase | main.py:164 | "Moderate" and "moderate" both give round(b × 1.55). |
| Nutrition.TargetCalCases | main.py:165 | `TargetCal` (`target_cal`): the target is t - 500 exactly when the goal mentions "loss". It is t + 300 exactly when it mentions "gain" or "muscle" but not "loss". Otherwise it is t. |
| Nutrition.LossBeatsGain | main.py:165 | A goal naming both a loss and a gain is treated as a loss. |
| Nutrition.WorkedExample | main.py:163-165 | BMR 1649, TDEE 2556 and target 2056 for the 70 kg / 175 cm / 30-year-old male at moderate activity wanting weight loss. |
| Nutrition.StepAdjusted | main.py:167 | The value after the step statement is the target scaled by the step factor and rounded. |
| Nutrition.BurnAdded | main.py:168 | What the burned-calories statement adds is the burn bonus. |
| Nutrition.FitAdj | main.py:166-169 | The method returns `ActivityAdjusted`: the target scaled for steps and rounded, plus the burn bonus. |
| Nutrition.ActivityAdjustedCases | main.py:166-169 | A missing, zero or ordinary (4000–10000) step count keeps t. Fewer steps give round(0.9t), more give round(1.1t). Only a positive burned reading adds anything, and then 30% of it rounded half to even. |
| Nutrition.ActivityAdjustedMonotone | main.py:166-169 | A larger target never yields a smaller adjusted target. |
| Templates.Foods | main.py:390-450 | Every template lists between two and five ingredients. |
| Templates.NameTextInjective | main.py:390-450 | Different templates carry different display names. |
| Fallback.FlagsOf | main.py:371-376 | A protein preference is set exactly when the request is not vegetarian and lists that protein. Indian is off exactly when cuisines are listed without "Indian". |
| Fallback.SplitOf | main.py:370 | Breakfast, lunch, dinner and snack calories are 25%, 30%, 28% and 8.5% of the target, each rounded half to even. |
| Fallback.MakeMeal | main.py:379-388 | The meal lists the template's foods in order. All its ingredients carry the same calories: the meal's calories divided by the ingredient count, rounded half to even. |
| Fallback.MakeFallback | main.py:368-452 | Seven days, Monday to Sunday, each with the target as its total. Each day has five meals in the slots Breakfast, Mid-Morning, Lunch, Evening, Dinner, sized by the 25 / 8.5 / 30 / 8.5 / 28 % split. |
| FallbackProperties.SplitNearTarget | main.py:370 | The five slot calories add up to within 2 of the target. |
| FallbackProperties.DayMealsNearTarget | main.py:370-452 | Every day's meal calories add up to within 2 of its reported total. |
| FallbackProperties.DayTotalIsNotMealSum | main.py:452 | For target 2056 the day reports 2056 while its meals add up to 2057. |
| FallbackProperties.AlternatingWeekRepeats | main.py:452 | A week that serves set i mod 2 on day i serves the same meals two days apart. |
| FallbackProperties.PlanRepeatsEveryOtherDay | main.py:452 | Day i and day i + 2 serve identical meals. |
| FallbackProperties.SetsDifferPerSlot | main.py:389-450 | `TemplateFor` (the two lists of `sets`): for every slot and every request, the two sets choose different templates. |
| FallbackProperties.AlternatingWeekDiffers | main.py:452 | A week that serves set i mod 2 on day i changes every slot's template from one day to the next. |
| FallbackProperties.ConsecutiveDaysDiffer | main.py:389-452 | For every request, consecutive days never serve the same template in any of the five slots. |
| FallbackProperties.ConsecutiveNamesDiffer | main.py:389-452 | For every request, consecutive days never show the same meal name in any slot. |
| FallbackProperties.IngredientShares | main.py:382 | Every meal has at least two ingredients. All its ingredients carry the same calories: the meal's calories divided by the ingredient count, rounded half to even. |
| FallbackProperties.MeatFreeTemplates | main.py:373-376 | With no meat preference set, no chosen template lists chicken, fish, eggs or mutton. |
| FallbackProperties.VegetarianPlanIsMeatFree | main.py:372-376 | A vegetarian request gets no chicken, fish, eggs or mutton anywhere in the week, whatever proteins it lists. |
| FallbackProperties.VegetarianIffStyleMentionsIt | main.py:372 | A request is vegetarian exactly when "Vegetarian" or "Vegan" occurs in its dietary style. |
| FallbackProperties.NonVegetarianCountsAsVegetarian | main.py:372-373 | The style "Non-Vegetarian" is treated as vegetarian, so no chicken lunch is served. |
| FallbackProperties.VeganCountsAsVegetarian | main.py:372 | The style "Vegan" sets the vegetarian flag. |
| FallbackProperties.DairyTemplates | main.py:402-446 | Dal tadka contains ghee, palak paneer contains cream, and the parfait contains Greek yogurt. |
| FallbackProperties.VegetarianPlanServesDairy | main.py:372-446 | A vegetarian or vegan request is served dal tadka (with ghee) and palak paneer (with cream) with Indian cuisine, and a Greek yogurt parfait otherwise. |
| FallbackProperties.TemplateChoices | main.py:371-444 | `TemplateFor` and `TemplateSet` (the conditional dishes of `sets`): chicken lunch, fish dinner, omelette breakfast and mutton dinner are each served exactly when the request is not vegetarian and lists that protein. The Indian breakfast is served exactly when no cuisine or "Indian" is listed. |
| FallbackProperties.AllergiesOnlyReachConfirmation | main.py:377-387 | Changing the allergies changes no meal except for the allergy text it quotes. |
| FallbackProperties.PeanutsServedDespiteAllergy | main.py:389-392 | A peanut-allergic request with no cuisine gets poha with peanuts on Monday, and that meal's allergy text is "Peanuts". |
| FallbackProperties.PeanutsConfirmedSafe | main.py:377-392 | `ViewMeal` and `ViewIngredient` (the record `meal` builds): the same Monday breakfast renders as "Poha with peanuts & vegetables". It lists an ingredient named "Peanuts" "as needed", and its allergy confirmation reads "Confirmed safe — no Peanuts". |
| PlanRoute.GeneratePlan | main.py:455-498 | Uses `DailyTarget` for lines 457-460, `FallbackFor` and `VoiceSummary` for the fallback record (483-489), and `IsTruthy` for `not plan_data`. With no key, or when the call raises or returns non-JSON, the result is the fallback with `used_ai` false. A falsy parsed value gives the fallback with `used_ai` true. A non-empty object is returned with `used_ai` set to true. Any other truthy value fails on the key assignment. `used_ai` is true exactly when a reply was parsed. The fallback carries the route's BMR, TDEE and adjusted target. |
| FallbackProperties.AllergiesTextAppend | main.py:377 | `AllergiesText` (`allergies_str`): adding an allergy makes the text that allergy alone when the list was empty. Otherwise it appends ", " and the allergy, so with AllergiesTextCases the text is exactly the allergies joined by ", ". |
| FallbackProperties.AllergiesTextCases | main.py:377 | `AllergiesText` (`allergies_str`): "none listed" for no allergies, the single allergy itself for one, and otherwise a text that starts with the first allergy and is as long as all of them plus a ", " between each two. |
| PlanRoute.FallbackClaimsSafetyUnchecked | main.py:483-489 | The fallback reports `allergy_verified` true while serving a peanut-allergic request peanuts. |

## Left out

- Authentication, the other routes, CORS, the HTML pages and the database
  models are not part of this model. Saving the plan for a logged-in user
  (main.py:493-496) is also left out: it changes no returned value.
- `call_gemini`, `build_prompt`, `load_env` and the removal of markdown
  fences from the reply are not modelled. Their combined effect is the
  `CallOutcome` parameter of `GeneratePlan`, and the key is the `apiKey`
  parameter.
- Logging with `print` is left out.
- Floating point: all arithmetic is on exact reals. A value that is an exact
  tie here might not be one in binary floating point, or the other way
  round, so a rounded result can differ by one from CPython's in such cases.
- `str.lower()` is modelled for ASCII only; Unicode case mapping is not.
- Record shape: the returned records are datatypes with named fields. Key
  order is not modelled. A meal's nested `macronutrients`, `explainability`
  and `recipe` objects are flattened into `MealView` fields with their own
  names (`whySelected` for `why_selected`, and so on).
- `medical_conditions`, `budget` and `active_minutes` are carried in the
  request but used by no modelled code (only by the prompt).
- Rounding.Round: modelled for exact reals only, not for the binary-float
  value Python would round.
