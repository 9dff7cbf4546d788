/** The seven-day fallback meal plan served when no generated plan is
    available. */
module Fallback {
  import opened Text
  import opened Rounding
  import opened Templates
  import opened Schemas

  const Days: seq<string> :=
    ["Monday", "Tuesday", "Wednesday", "Thursday", "Friday", "Saturday", "Sunday"]

  /** The meal slots of every day, in order. */
  const Slots: seq<Slot> := [Breakfast, MidMorning, Lunch, Evening, Dinner]

  /** The request facts that choose between templates. */
  datatype Flags = Flags(indian: bool, veg: bool, chicken: bool, seafood: bool, eggs: bool, mutton: bool)

  /** A request counts as vegetarian when its dietary style contains
      "Vegetarian" or "Vegan" (case-sensitive substring test); a protein
      preference only counts for a request that is not vegetarian. Indian
      templates are used when no cuisine is listed or "Indian" is. */
  function FlagsOf(req: PlanRequest): (f: Flags)
    ensures f.veg ==> !f.chicken && !f.seafood && !f.eggs && !f.mutton
    ensures f.chicken <==> !f.veg && "Chicken" in req.proteins
    ensures f.seafood <==> !f.veg && "Seafood" in req.proteins
    ensures f.eggs <==> !f.veg && "Eggs" in req.proteins
    ensures f.mutton <==> !f.veg && "Mutton" in req.proteins
    ensures !f.indian <==> |req.cuisines| > 0 && "Indian" !in req.cuisines
  {
    var veg := Contains(req.dietaryStyle, "Vegetarian") || Contains(req.dietaryStyle, "Vegan");
    Flags(req.cuisines == [] || "Indian" in req.cuisines, veg,
          !veg && "Chicken" in req.proteins, !veg && "Seafood" in req.proteins,
          !veg && "Eggs" in req.proteins, !veg && "Mutton" in req.proteins)
  }

  /** Calories of the breakfast, lunch, dinner and each snack slot. */
  datatype Split = Split(breakfast: int, lunch: int, dinner: int, snack: int)

  /** 25%, 30% and 28% of the target for the main meals and 8.5% for each
      of the two snacks, each rounded half to even; the shares add up to
      exactly 100%. */
  function SplitOf(target: int): (sp: Split)
    ensures NearestEven(target as real * 0.25, sp.breakfast)
    ensures NearestEven(target as real * 0.30, sp.lunch)
    ensures NearestEven(target as real * 0.28, sp.dinner)
    ensures NearestEven(target as real * 0.085, sp.snack)
  {
    Split(Round(target as real * 0.25), Round(target as real * 0.30),
          Round(target as real * 0.28), Round(target as real * 0.085))
  }

  function SlotCalories(slot: Slot, sp: Split): (cal: int)
  {
    match slot
    case Breakfast => sp.breakfast
    case MidMorning => sp.snack
    case Lunch => sp.lunch
    case Evening => sp.snack
    case Dinner => sp.dinner
  }

  /** The template of slot `slot` in template set `k` (0 or 1). */
  function TemplateFor(k: int, slot: Slot, f: Flags): (t: Template)
    requires 0 <= k < 2
  {
    if k == 0 then
      match slot
      case Breakfast => if f.indian then PohaWithPeanuts else OatsWithBanana
      case MidMorning => FreshFruitBowl
      case Lunch => if f.chicken then ChickenRiceBowl else if f.indian then DalTadka else ChickpeaBuddhaBowl
      case Evening => if f.indian then RoastedChanaChaat else MixedNutsAndSeeds
      case Dinner => if f.seafood then GrilledFish else if f.indian then PaneerBhurji else LentilSoup
    else
      match slot
      case Breakfast => if f.eggs then MasalaOmelette else if f.indian then IdliSambar else GreekYogurtParfait
      case MidMorning => AlmondsAndWalnuts
      case Lunch => if f.indian then RajmaChawal else QuinoaVeggieBowl
      case Evening => SproutsChaat
      case Dinner => if f.mutton then MuttonCurry else if f.indian then PalakPaneer else StirFriedTofu
  }

  datatype Ingredient = Ingredient(food: Food, calories: int)

  /** A meal of the plan: its template fixes every text except the two that
      quote the request (goal and allergies). */
  datatype Meal = Meal(slot: Slot, template: Template, cal: int, ingredients: seq<Ingredient>,
                       goal: string, allergies: string)

  datatype DayPlan = DayPlan(day: string, totalDayCalories: int, meals: seq<Meal>)

  /** The allergies joined with ", ", or "none listed" when there are none. */
  function AllergiesText(allergies: seq<string>): (r: string)
  {
    if allergies == [] then "none listed" else Join(", ", allergies)
  }

  /** One meal of `cal` calories: each ingredient of the template, in order,
      is given the calories of an equal share of the meal, rounded half to
      even, so all ingredients of a meal carry the same calories. */
  function MakeMeal(slot: Slot, t: Template, cal: int, goal: string, allergies: string): (m: Meal)
    ensures m.slot == slot && m.template == t && m.cal == cal
    ensures |m.ingredients| == |Foods(t)|
    ensures forall k :: 0 <= k < |m.ingredients| ==> m.ingredients[k].food == Foods(t)[k]
    ensures forall k :: 0 <= k < |m.ingredients| ==>
      NearestEven(cal as real / |Foods(t)| as real, m.ingredients[k].calories)
    ensures forall k :: 0 <= k < |m.ingredients| ==> m.ingredients[k].calories == m.ingredients[0].calories
  {
    var fs := Foods(t);
    var share := Round(cal as real / |fs| as real);
    Meal(slot, t, cal,
         seq(|fs|, k requires 0 <= k < |fs| => Ingredient(fs[k], share)),
         goal, allergies)
  }

  /** Template set `k`: one meal per slot, in slot order. */
  function TemplateSet(k: int, f: Flags, sp: Split, goal: string, allergies: string): (meals: seq<Meal>)
    requires 0 <= k < 2
  {
    seq(5, j requires 0 <= j < 5 =>
      MakeMeal(Slots[j], TemplateFor(k, Slots[j], f), SlotCalories(Slots[j], sp), goal, allergies))
  }

  /** The fallback plan for a daily target of `target` calories: Monday to
      Sunday, alternating between the two template sets, each day reporting
      the target itself as its total. */
  function MakeFallback(target: int, req: PlanRequest): (plan: seq<DayPlan>)
    ensures |plan| == 7
    ensures forall i :: 0 <= i < 7 ==> plan[i].day == Days[i] && plan[i].totalDayCalories == target
    ensures forall i :: 0 <= i < 7 ==> |plan[i].meals| == 5
    ensures forall i, j :: 0 <= i < 7 && 0 <= j < 5 ==>
      plan[i].meals[j].slot == Slots[j] && plan[i].meals[j].cal == SlotCalories(Slots[j], SplitOf(target))
  {
    var f := FlagsOf(req);
    var sp := SplitOf(target);
    var allergies := AllergiesText(req.allergies);
    var sets := [TemplateSet(0, f, sp, req.goal, allergies), TemplateSet(1, f, sp, req.goal, allergies)];
    seq(7, i requires 0 <= i < 7 => DayPlan(Days[i], target, sets[i % 2]))
  }

  // The plan as emitted: every field of a meal record spelled out.

  datatype IngredientView = IngredientView(name: string, quantity: string, calories: int)

  datatype MealView = MealView(
    mealType: string, name: string, cal: int, ingredients: seq<IngredientView>,
    protein: string, carbohydrates: string, fats: string,
    micronutrientsHighlight: seq<string>,
    whySelected: string, nutritionalPurpose: string, goalAlignment: string, allergyConfirmation: string,
    steps: seq<string>, cookingTime: string, difficulty: string)

  datatype DayView = DayView(day: string, totalDayCalories: int, meals: seq<MealView>)

  function ViewIngredient(g: Ingredient): (v: IngredientView)
  {
    IngredientView(FoodText(g.food), "as needed", g.calories)
  }

  function ViewMeal(m: Meal): (v: MealView)
  {
    var (protein, carbs, fats) := MacroTexts(m.template);
    var (time, difficulty) := RecipeInfoTexts(m.template);
    MealView(SlotText(m.slot), NameText(m.template), m.cal,
             seq(|m.ingredients|, k requires 0 <= k < |m.ingredients| => ViewIngredient(m.ingredients[k])),
             protein, carbs, fats, MicronutrientTexts(m.template),
             WhySelectedText(m.template), PurposeText(m.template), AlignmentText(m.template, m.goal),
             "Confirmed safe — no " + m.allergies,
             RecipeStepTexts(m.template), time, difficulty)
  }

  function ViewDay(d: DayPlan): (v: DayView)
  {
    DayView(d.day, d.totalDayCalories, seq(|d.meals|, j requires 0 <= j < |d.meals| => ViewMeal(d.meals[j])))
  }
}
