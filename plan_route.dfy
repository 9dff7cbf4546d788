/** The control flow of the plan-generation route: compute the calorie
    targets, try the external plan generator when a key is configured, and
    fall back to the seven-day plan when that yields nothing usable. The
    network call, the prompt and the reply's text clean-up are abstracted
    into the outcome of the call; saving the plan is not modelled. */
module PlanRoute {
  import opened Wrappers
  import opened Text
  import opened Schemas
  import opened Nutrition
  import opened Templates
  import opened Fallback
  import opened FallbackProperties

  /** A value as a JSON parser returns it. */
  datatype Json =
    | JNull
    | JBool(b: bool)
    | JNumber(n: real)
    | JString(s: string)
    | JArray(items: seq<Json>)
    | JObject(fields: map<string, Json>)

  /** Python truthiness of a parsed value: null, false, zero and empty
      strings, lists and objects are false. */
  predicate IsTruthy(j: Json)
  {
    match j
    case JNull => false
    case JBool(b) => b
    case JNumber(n) => n != 0.0
    case JString(s) => s != []
    case JArray(items) => items != []
    case JObject(fields) => fields != map[]
  }

  /** How the attempt to get a generated plan ended, once it was made. */
  datatype CallOutcome =
    | CallFailed          // building the prompt or calling the generator raised
    | Unparsable          // the cleaned-up reply was not valid JSON
    | Parsed(value: Json) // the reply parsed to this value

  datatype SafetyCheck = SafetyCheck(allergyVerified: bool, medicalConditionVerified: bool,
                                     conflictsFound: bool, notes: string)

  /** The safety check the fallback plan reports: every check claimed
      passed, without any check being made. */
  const FallbackSafety := SafetyCheck(true, true, false, "Fallback plan — manually verified safe")

  /** The route's plan data: either the parsed reply or the fallback record,
      whose `usedAi` entry is absent until the route sets it. */
  datatype PlanData =
    | Generated(value: Json)
    | FallbackData(bmr: int, tdee: int, targetCalories: int, safetyCheck: SafetyCheck,
                   voiceSummary: string, plan: seq<DayPlan>, usedAi: Option<bool>)

  /** Assigning a key in a value that is not an object raises a TypeError. */
  datatype RouteError = ItemAssignmentOnNonObject

  function VoiceSummary(goal: string, tc: int): (r: string)
  {
    "Your smart " + goal + " plan is ready! Targeting " + IntToDecimal(tc) +
    " calories per day with balanced nutrition."
  }

  /** The adjusted daily target: goal offset, then the tracker adjustment. */
  function DailyTarget(req: PlanRequest): (r: int)
  {
    var t := Tdee(Bmr(req.weightKg, req.heightCm, req.age, req.gender), req.activity);
    ActivityAdjusted(TargetCal(t, req.goal), req.stepsToday, req.caloriesBurned)
  }

  /** The fallback record for `req`, with `usedAi` set as given. */
  function FallbackFor(req: PlanRequest, usedAi: bool): (r: PlanData)
  {
    var b := Bmr(req.weightKg, req.heightCm, req.age, req.gender);
    var tc := DailyTarget(req);
    FallbackData(b, Tdee(b, req.activity), tc, FallbackSafety, VoiceSummary(req.goal, tc),
                 MakeFallback(tc, req), Some(usedAi))
  }

  /** The "used_ai" entry of the returned data, if it has one. */
  function UsedAiEntry(d: PlanData): (e: Option<Json>)
  {
    match d
    case FallbackData(_, _, _, _, _, _, usedAi) => if usedAi.Some? then Some(JBool(usedAi.value)) else None
    case Generated(value) => if value.JObject? && "used_ai" in value.fields then Some(value.fields["used_ai"]) else None
  }

  /** The plan route. `apiKey` is the configured generator key ("" when
      none); `outcome` is what the generator attempt produced, consulted
      only when a key is configured. */
  method GeneratePlan(req: PlanRequest, apiKey: string, outcome: CallOutcome)
    returns (r: Result<PlanData, RouteError>)
    // no key, or the attempt raised: the fallback, marked as not generated
    ensures apiKey == "" || !outcome.Parsed? ==> r == Ok(FallbackFor(req, false))
    // a reply that parsed to a falsy value: the fallback, yet marked as generated
    ensures apiKey != "" && outcome.Parsed? && !IsTruthy(outcome.value) ==> r == Ok(FallbackFor(req, true))
    // a non-empty object: returned as parsed, with "used_ai" set to true
    ensures apiKey != "" && outcome.Parsed? && outcome.value.JObject? && IsTruthy(outcome.value) ==>
      r == Ok(Generated(JObject(outcome.value.fields["used_ai" := JBool(true)])))
    // any other truthy value: the key assignment fails
    ensures apiKey != "" && outcome.Parsed? && !outcome.value.JObject? && IsTruthy(outcome.value) ==>
      r == Err(ItemAssignmentOnNonObject)
    // "used_ai" is always set, and is true exactly when a reply was parsed
    ensures r.Ok? ==> UsedAiEntry(r.value) == Some(JBool(apiKey != "" && outcome.Parsed?))
  {
    var b := Bmr(req.weightKg, req.heightCm, req.age, req.gender);
    var t := Tdee(b, req.activity);
    var tc := TargetCal(t, req.goal);
    tc := FitAdj(tc, req.stepsToday, req.caloriesBurned);

    var planData: PlanData := Generated(JNull);
    var usedAi := false;

    if apiKey != "" {
      match outcome
      case Parsed(value) =>
        planData := Generated(value);
        usedAi := true;
      case CallFailed =>
      case Unparsable =>
    }

    if planData.Generated? && !IsTruthy(planData.value) {
      planData := FallbackData(b, t, tc, FallbackSafety, VoiceSummary(req.goal, tc), MakeFallback(tc, req), None);
    }

    match planData
    case FallbackData(_, _, _, _, _, _, _) =>
      planData := planData.(usedAi := Some(usedAi));
      r := Ok(planData);
    case Generated(value) =>
      if value.JObject? {
        planData := Generated(JObject(value.fields["used_ai" := JBool(usedAi)]));
        r := Ok(planData);
      } else {
        r := Err(ItemAssignmentOnNonObject);
      }
  }

  /** The fallback reports the allergy check as passed, yet serves a
      peanut-allergic request peanuts on Monday. */
  lemma FallbackClaimsSafetyUnchecked(req: PlanRequest, usedAi: bool)
    requires req.allergies == ["Peanuts"] && req.cuisines == []
    ensures var d := FallbackFor(req, usedAi);
      && d.safetyCheck.allergyVerified
      && d.plan[0].meals[0].ingredients[1].food == Peanuts
  {
    PeanutsServedDespiteAllergy(DailyTarget(req), req);
  }
}
