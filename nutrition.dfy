/** Nutrition arithmetic: basal metabolic rate (Mifflin-St Jeor), total
    daily energy expenditure, the goal-adjusted calorie target and the
    adjustment for tracker readings. */
module Nutrition {
  import opened Wrappers
  import opened Text
  import opened Rounding

  /** Activity multipliers, keyed by the lower-cased activity level. */
  const AMF: map<string, real> :=
    map["sedentary" := 1.2, "light" := 1.375, "moderate" := 1.55, "very" := 1.725, "extra" := 1.9]

  /** Factor used for an activity level that is not a key of `AMF`. */
  const DefaultActivityFactor: real := 1.55

  /** The gender is matched case-insensitively against "male" and "m". */
  predicate IsMale(g: string)
  {
    Lower(g) in ["male", "m"]
  }

  /** `bmr(w, h, a, g)`. */
  function Bmr(w: real, h: real, a: int, g: string): (r: int)
  {
    Round(10.0 * w + 6.25 * h - 5.0 * a as real + (if IsMale(g) then 5.0 else -161.0))
  }

  /** `AMF.get(act.lower(), 1.55)`. */
  function ActivityFactor(act: string): (r: real)
  {
    var k := Lower(act);
    if k in AMF then AMF[k] else DefaultActivityFactor
  }

  /** `tdee(b, act)`. */
  function Tdee(b: int, act: string): (r: int)
  {
    Round(b as real * ActivityFactor(act))
  }

  /** `target_cal(t, goal)`. */
  function TargetCal(t: int, goal: string): (r: int)
  {
    var g := Lower(goal);
    if Contains(g, "loss") then t - 500
    else if Contains(g, "gain") || Contains(g, "muscle") then t + 300
    else t
  }

  /** Python truthiness of an optional int: None and 0 are false. */
  predicate Truthy(n: Option<int>)
  {
    n.Some? && n.value != 0
  }

  /** The factor the step count scales the target by. */
  function StepFactor(steps: Option<int>): (r: real)
  {
    if !Truthy(steps) then 1.0
    else if steps.value < 4000 then 0.9
    else if steps.value > 10000 then 1.1
    else 1.0
  }

  /** The calories added for a positive burned-calories reading. */
  function BurnBonus(burned: Option<int>): (r: int)
  {
    if Truthy(burned) && burned.value > 0 then Round(burned.value as real * 0.3) else 0
  }

  /** What `fit_adj(t, steps, burned)` returns: the target scaled by the
      step factor and rounded, plus the burned-calories bonus. */
  function ActivityAdjusted(t: int, steps: Option<int>, burned: Option<int>): (r: int)
  {
    Round(t as real * StepFactor(steps)) + BurnBonus(burned)
  }

  /** The value after the step-count rescaling is the target scaled by the
      step factor. */
  lemma StepAdjusted(t: int, steps: Option<int>, r: int)
    requires !Truthy(steps) || 4000 <= steps.value <= 10000 ==> r == t
    requires Truthy(steps) && steps.value < 4000 ==> r == Round(t as real * 0.9)
    requires Truthy(steps) && steps.value > 10000 ==> r == Round(t as real * 1.1)
    ensures r == Round(t as real * StepFactor(steps))
  {
    if !Truthy(steps) || 4000 <= steps.value <= 10000 {
      RoundOfInt(t);
    }
  }

  /** What the burned-calories statement adds is the bonus. */
  lemma BurnAdded(burned: Option<int>, bonus: int)
    requires burned.Some? && burned.value != 0 && burned.value > 0 ==> bonus == Round(burned.value as real * 0.3)
    requires !(burned.Some? && burned.value != 0 && burned.value > 0) ==> bonus == 0
    ensures bonus == BurnBonus(burned)
  {
  }

  /** `fit_adj(t, steps, burned)`: first rescales `t` for the step count,
      then adds 30% of a positive burned-calories reading. */
  method FitAdj(t: int, steps: Option<int>, burned: Option<int>) returns (r: int)
    ensures r == ActivityAdjusted(t, steps, burned)
  {
    r := t;
    if steps.Some? && steps.value != 0 {
      r := if steps.value < 4000 then Round(r as real * 0.9)
           else if steps.value > 10000 then Round(r as real * 1.1)
           else r;
    }
    StepAdjusted(t, steps, r);
    ghost var stepped := r;
    if burned.Some? && burned.value != 0 && burned.value > 0 {
      r := r + Round(burned.value as real * 0.3);
    }
    BurnAdded(burned, r - stepped);
  }

  // ---------------------------------------------------------------------
  // Properties

  /** `bmr` is the Mifflin-St Jeor value rounded to the nearest integer
      (half to even),
      with the +5 offset exactly when the lower-cased gender is "male" or
      "m" and -161 for every other string. */
  lemma BmrIsMifflinStJeor(w: real, h: real, a: int, g: string)
    ensures var raw := 10.0 * w + 6.25 * h - 5.0 * a as real;
      var offset := if Lower(g) == "male" || Lower(g) == "m" then 5.0 else -161.0;
      NearestEven(raw + offset, Bmr(w, h, a, g))
  {
  }

  /** For the same body measurements a male result is exactly 166 above
      the result for any other gender string: the two raw values differ
      by an even integer, so they round the same way. */
  lemma BmrGenderGap(w: real, h: real, a: int, g: string)
    requires !IsMale(g)
    ensures Bmr(w, h, a, "male") - Bmr(w, h, a, g) == 166
  {
    var raw := 10.0 * w + 6.25 * h - 5.0 * a as real;
    assert Lower("male") == "male";
    RoundShiftEven(raw - 161.0, 83);
    assert raw - 161.0 + (2 * 83) as real == raw + 5.0;
  }

  /** Gender, activity and goal are all compared after lower-casing, so
      lower-casing them first changes nothing. */
  lemma CaseInsensitive(w: real, h: real, a: int, g: string, b: int, act: string, t: int, goal: string)
    ensures Bmr(w, h, a, Lower(g)) == Bmr(w, h, a, g)
    ensures Tdee(b, Lower(act)) == Tdee(b, act)
    ensures TargetCal(t, Lower(goal)) == TargetCal(t, goal)
  {
    LowerIdempotent(g);
    LowerIdempotent(act);
    LowerIdempotent(goal);
  }

  /** `tdee` is `b` times the table factor for the lower-cased activity,
      rounded; every other activity string uses 1.55. */
  lemma TdeeFactor(b: int, act: string)
    ensures Lower(act) in AMF ==> NearestEven(b as real * AMF[Lower(act)], Tdee(b, act))
    ensures Lower(act) !in AMF ==> Tdee(b, act) == Tdee(b, "moderate")
  {
    assert Lower("moderate") == "moderate";
  }

  /** "Moderate" and "moderate" select the same factor. */
  lemma TdeeModerateAnyCase(b: int)
    ensures Tdee(b, "Moderate") == Tdee(b, "moderate") == Round(b as real * 1.55)
  {
    assert Lower("Moderate") == "moderate";
    assert Lower("moderate") == "moderate";
  }

  /** `target_cal` moves the target by -500, +300 or 0, tested in that
      order: "loss" wins over "gain"/"muscle", and a goal mentioning none
      of them leaves the target alone. */
  lemma TargetCalCases(t: int, goal: string)
    ensures Contains(Lower(goal), "loss") <==> TargetCal(t, goal) == t - 500
    ensures TargetCal(t, goal) == t + 300 <==>
      !Contains(Lower(goal), "loss") && (Contains(Lower(goal), "gain") || Contains(Lower(goal), "muscle"))
    ensures TargetCal(t, goal) in {t - 500, t + 300, t}
  {
  }

  /** A goal that mentions both losing and gaining is treated as a loss. */
  lemma LossBeatsGain(t: int)
    ensures TargetCal(t, "Weight Loss and Muscle Gain") == t - 500
  {
    var g := Lower("Weight Loss and Muscle Gain");
    assert g[7..11] == "loss";
    ContainsIffOccurs(g, "loss");
    assert OccursAt(g, "loss", 7);
  }

  /** The worked value: a 70 kg, 175 cm, 30-year-old male at moderate
      activity who wants to lose weight. */
  lemma WorkedExample()
    ensures Bmr(70.0, 175.0, 30, "male") == 1649
    ensures Tdee(1649, "moderate") == 2556
    ensures TargetCal(2556, "Weight Loss") == 2056
  {
    WorkedBmr();
    WorkedTdee();
    WorkedTarget();
  }

  lemma WorkedBmr()
    ensures Bmr(70.0, 175.0, 30, "male") == 1649
  {
    assert Lower("male") == "male";
    assert 10.0 * 70.0 + 6.25 * 175.0 - 5.0 * 30 as real + 5.0 == 1648.75;
    RoundUnique(1648.75, 1649);
  }

  lemma WorkedTdee()
    ensures Tdee(1649, "moderate") == 2556
  {
    assert Lower("moderate") == "moderate";
    assert ActivityFactor("moderate") == 1.55;
    assert 1649 as real * 1.55 == 2555.95;
    RoundUnique(2555.95, 2556);
  }

  lemma WorkedTarget()
    ensures TargetCal(2556, "Weight Loss") == 2056
  {
    var g := Lower("Weight Loss");
    assert g == "weight loss";
    assert g[7..11] == "loss";
    ContainsIffOccurs(g, "loss");
    assert OccursAt(g, "loss", 7);
  }

  /** The tracker adjustment is monotone in the target: a larger target
      never yields a smaller adjusted one. */
  lemma ActivityAdjustedMonotone(t1: int, t2: int, steps: Option<int>, burned: Option<int>)
    requires t1 <= t2
    ensures ActivityAdjusted(t1, steps, burned) <= ActivityAdjusted(t2, steps, burned)
  {
    RoundMonotone(t1 as real * StepFactor(steps), t2 as real * StepFactor(steps));
  }

  /** The cases of the adjustment: a missing, zero or ordinary (4000 to
      10000) step count leaves the target as it is, fewer steps scale it by
      0.9 and more by 1.1; only a positive burned reading adds anything, and
      then 30% of itself, rounded half to even. */
  lemma ActivityAdjustedCases(t: int, steps: Option<int>, burned: Option<int>)
    ensures !Truthy(steps) || 4000 <= steps.value <= 10000 ==> ActivityAdjusted(t, steps, burned) == t + BurnBonus(burned)
    ensures Truthy(steps) && steps.value < 4000 ==> ActivityAdjusted(t, steps, burned) == Round(t as real * 0.9) + BurnBonus(burned)
    ensures Truthy(steps) && steps.value > 10000 ==> ActivityAdjusted(t, steps, burned) == Round(t as real * 1.1) + BurnBonus(burned)
    ensures !(burned.Some? && burned.value > 0) ==> BurnBonus(burned) == 0
    ensures burned.Some? && burned.value > 0 ==> NearestEven(burned.value as real * 0.3, BurnBonus(burned))
  {
    RoundOfInt(t);
  }
}
