/** Properties of the fallback plan. */
module FallbackProperties {
  import opened Text
  import opened Rounding
  import opened Templates
  import opened Schemas
  import opened Fallback

  /** Sum of the meal calories of a day. */
  function MealSum(meals: seq<Meal>): (sum: int)
  {
    if meals == [] then 0 else meals[0].cal + MealSum(meals[1..])
  }

  lemma MealSumOfFive(ms: seq<Meal>)
    requires |ms| == 5
    ensures MealSum(ms) == ms[0].cal + ms[1].cal + ms[2].cal + ms[3].cal + ms[4].cal
  {
    var t1 := ms[1..];
    var t2 := t1[1..];
    var t3 := t2[1..];
    var t4 := t3[1..];
    assert t4[1..] == [];
    assert MealSum(t4) == ms[4].cal;
    assert MealSum(t3) == ms[3].cal + MealSum(t4);
    assert MealSum(t2) == ms[2].cal + MealSum(t3);
    assert MealSum(t1) == ms[1].cal + MealSum(t2);
  }

  /** 25% + 8.5% + 30% + 8.5% + 28% is the whole target, and each share is
      rounded by at most half a calorie. */
  lemma {:induction false} SplitNearTarget(target: int)
    ensures var sp := SplitOf(target);
      -2 <= sp.breakfast + sp.snack + sp.lunch + sp.snack + sp.dinner - target <= 2
  {
    var x := target as real;
    var sp := SplitOf(target);
    var sum := sp.breakfast + sp.snack + sp.lunch + sp.snack + sp.dinner;
    assert x * 0.25 + x * 0.085 + x * 0.30 + x * 0.085 + x * 0.28 == x;
    assert x - 2.5 <= sum as real <= x + 2.5;
  }

  /** A day whose five meals carry the slot calories of a split sums to
      the split's total. */
  lemma {:induction false} DaySumIsSplitSum(d: DayPlan, sp: Split)
    requires |d.meals| == 5
    requires forall j :: 0 <= j < 5 ==> d.meals[j].cal == SlotCalories(Slots[j], sp)
    ensures MealSum(d.meals) == sp.breakfast + sp.snack + sp.lunch + sp.snack + sp.dinner
  {
    MealSumOfFive(d.meals);
    assert d.meals[0].cal == SlotCalories(Slots[0], sp) && Slots[0] == Breakfast;
    assert d.meals[1].cal == SlotCalories(Slots[1], sp) && Slots[1] == MidMorning;
    assert d.meals[2].cal == SlotCalories(Slots[2], sp) && Slots[2] == Lunch;
    assert d.meals[3].cal == SlotCalories(Slots[3], sp) && Slots[3] == Evening;
    assert d.meals[4].cal == SlotCalories(Slots[4], sp) && Slots[4] == Dinner;
  }

  /** The five shares add up to the whole target, and each is rounded by at
      most half a calorie, so a day's meals add up to within 2 calories of
      the total the day reports. */
  lemma DayMealsNearTarget(target: int, req: PlanRequest)
    ensures var plan := MakeFallback(target, req);
      forall i :: 0 <= i < 7 ==> -2 <= MealSum(plan[i].meals) - plan[i].totalDayCalories <= 2
  {
    var plan := MakeFallback(target, req);
    var sp := SplitOf(target);
    SplitNearTarget(target);
    forall i | 0 <= i < 7
      ensures -2 <= MealSum(plan[i].meals) - plan[i].totalDayCalories <= 2
    {
      DaySumIsSplitSum(plan[i], sp);
    }
  }

  /** The reported total is not the sum of the meals: for a target of 2056
      the meals add up to 514 + 175 + 617 + 175 + 576 = 2057. */
  lemma DayTotalIsNotMealSum(req: PlanRequest)
    ensures var plan := MakeFallback(2056, req);
      plan[0].totalDayCalories == 2056 && MealSum(plan[0].meals) == 2057
  {
    var plan := MakeFallback(2056, req);
    RoundOfInt(514);
    RoundUnique(616.8, 617);
    RoundUnique(575.68, 576);
    RoundUnique(174.76, 175);
    assert SplitOf(2056) == Split(514, 617, 576, 175);
    MealSumOfFive(plan[0].meals);
    assert Slots[0] == Breakfast && Slots[1] == MidMorning && Slots[2] == Lunch && Slots[3] == Evening && Slots[4] == Dinner;
  }

  /** Day i serves, in slot j, the template that set i mod 2 holds for
      that slot, sized for the slot and quoting the request's goal and
      allergies. */
  lemma PlanMeals(target: int, req: PlanRequest)
    ensures var plan := MakeFallback(target, req);
      forall i, j :: 0 <= i < 7 && 0 <= j < 5 ==>
        plan[i].meals[j] == MakeMeal(Slots[j], TemplateFor(i % 2, Slots[j], FlagsOf(req)),
                                     SlotCalories(Slots[j], SplitOf(target)), req.goal, AllergiesText(req.allergies))
  {
    PlanDays(target, req);
  }

  /** Day i serves template set i mod 2. */
  lemma PlanDays(target: int, req: PlanRequest)
    ensures var plan := MakeFallback(target, req);
      forall i :: 0 <= i < 7 ==>
        plan[i].meals == TemplateSet(i % 2, FlagsOf(req), SplitOf(target), req.goal, AllergiesText(req.allergies))
  {
  }

  /** The template served in slot j of day i. */
  lemma PlanTemplates(target: int, req: PlanRequest)
    ensures var plan := MakeFallback(target, req);
      forall i, j :: 0 <= i < 7 && 0 <= j < 5 ==> plan[i].meals[j].template == TemplateFor(i % 2, Slots[j], FlagsOf(req))
  {
    PlanMeals(target, req);
  }

  /** A week whose day i serves set i mod 2 repeats itself every other day. */
  lemma {:induction false} AlternatingWeekRepeats(plan: seq<DayPlan>, sets: seq<seq<Meal>>)
    requires |plan| == 7 && |sets| == 2
    requires forall i :: 0 <= i < 7 ==> plan[i].meals == sets[i % 2]
    ensures forall i, k :: 0 <= i < 7 && 0 <= k < 7 && k == i + 2 ==> plan[i].meals == plan[k].meals
  {
    forall i, k | 0 <= i < 7 && 0 <= k < 7 && k == i + 2
      ensures plan[i].meals == plan[k].meals
    {
      assert i % 2 == k % 2;
    }
  }

  /** Day i and day i + 2 serve the same meals: the plan has period two. */
  lemma PlanRepeatsEveryOtherDay(target: int, req: PlanRequest)
    ensures var plan := MakeFallback(target, req);
      forall i, k :: 0 <= i < 7 && 0 <= k < 7 && k == i + 2 ==> plan[i].meals == plan[k].meals
  {
    var f, sp, allergies := FlagsOf(req), SplitOf(target), AllergiesText(req.allergies);
    PlanDays(target, req);
    AlternatingWeekRepeats(MakeFallback(target, req),
      [TemplateSet(0, f, sp, req.goal, allergies), TemplateSet(1, f, sp, req.goal, allergies)]);
  }

  /** The two template sets never offer the same template for a slot. */
  lemma {:induction false} SetsDifferPerSlot(slot: Slot, f: Flags)
    ensures TemplateFor(0, slot, f) != TemplateFor(1, slot, f)
  {
  }

  /** Any week whose day i serves set i mod 2 changes every slot's meal from
      one day to the next. */
  lemma {:induction false} AlternatingWeekDiffers(plan: seq<DayPlan>, f: Flags)
    requires |plan| == 7
    requires forall i :: 0 <= i < 7 ==> |plan[i].meals| == 5
    requires forall i, j :: 0 <= i < 7 && 0 <= j < 5 ==> plan[i].meals[j].template == TemplateFor(i % 2, Slots[j], f)
    ensures forall i, k, j :: 0 <= i < 7 && 0 <= k < 7 && k == i + 1 && 0 <= j < 5 ==>
        plan[i].meals[j].template != plan[k].meals[j].template
  {
    forall i, k, j | 0 <= i < 7 && 0 <= k < 7 && k == i + 1 && 0 <= j < 5
      ensures plan[i].meals[j].template != plan[k].meals[j].template
    {
      SetsDifferPerSlot(Slots[j], f);
      if i % 2 == 0 {
        assert k % 2 == 1;
      } else {
        assert k % 2 == 0;
      }
    }
  }

  /** Whatever the request, two consecutive days never serve the same
      template in any slot. */
  lemma ConsecutiveDaysDiffer(target: int, req: PlanRequest)
    ensures var plan := MakeFallback(target, req);
      forall i, k, j :: 0 <= i < 7 && 0 <= k < 7 && k == i + 1 && 0 <= j < 5 ==>
        plan[i].meals[j].template != plan[k].meals[j].template
  {
    PlanTemplates(target, req);
    AlternatingWeekDiffers(MakeFallback(target, req), FlagsOf(req));
  }

  /** ... nor a meal of the same displayed name. */
  lemma ConsecutiveNamesDiffer(target: int, req: PlanRequest)
    ensures var plan := MakeFallback(target, req);
      forall i, k, j :: 0 <= i < 7 && 0 <= k < 7 && k == i + 1 && 0 <= j < 5 ==>
        NameText(plan[i].meals[j].template) != NameText(plan[k].meals[j].template)
  {
    var plan := MakeFallback(target, req);
    ConsecutiveDaysDiffer(target, req);
    forall i, k, j | 0 <= i < 7 && 0 <= k < 7 && k == i + 1 && 0 <= j < 5
      ensures NameText(plan[i].meals[j].template) != NameText(plan[k].meals[j].template)
    {
      NameTextInjective(plan[i].meals[j].template, plan[k].meals[j].template);
    }
  }

  /** Every meal lists at least two ingredients, all carrying the same
      calories: the meal's calories divided by the ingredient count, rounded
      half to even. */
  lemma IngredientShares(target: int, req: PlanRequest)
    ensures var plan := MakeFallback(target, req);
      forall i, j :: 0 <= i < 7 && 0 <= j < 5 ==>
        var m := plan[i].meals[j];
        && |m.ingredients| >= 2
        && (forall g :: 0 <= g < |m.ingredients| ==>
              NearestEven(m.cal as real / |m.ingredients| as real, m.ingredients[g].calories))
        && (forall g :: 0 <= g < |m.ingredients| ==> m.ingredients[g].calories == m.ingredients[0].calories)
  {
    PlanMeals(target, req);
  }

  /** The foods that are meat, fish or egg. */
  const MeatFoods: set<Food> := {ChickenBreast, FishFillet, Eggs, Mutton}

  /** When no meat preference is set, no template chosen lists a meat, fish
      or egg ingredient. */
  lemma {:induction false} MeatFreeTemplates(k: int, slot: Slot, f: Flags)
    requires 0 <= k < 2
    requires !f.chicken && !f.seafood && !f.eggs && !f.mutton
    ensures forall g :: 0 <= g < |Foods(TemplateFor(k, slot, f))| ==> Foods(TemplateFor(k, slot, f))[g] !in MeatFoods
  {
  }

  /** A vegetarian (or vegan) request gets no meat, fish or egg anywhere in
      the week, whatever proteins it lists. */
  lemma VegetarianPlanIsMeatFree(target: int, req: PlanRequest)
    requires FlagsOf(req).veg
    ensures var plan := MakeFallback(target, req);
      forall i, j, g :: 0 <= i < 7 && 0 <= j < 5 && 0 <= g < |plan[i].meals[j].ingredients| ==>
        plan[i].meals[j].ingredients[g].food !in MeatFoods
  {
    var plan := MakeFallback(target, req);
    var f := FlagsOf(req);
    PlanMeals(target, req);
    forall i, j, g | 0 <= i < 7 && 0 <= j < 5 && 0 <= g < |plan[i].meals[j].ingredients|
      ensures plan[i].meals[j].ingredients[g].food !in MeatFoods
    {
      MeatFreeTemplates(i % 2, Slots[j], f);
    }
  }

  /** The dietary style makes a request vegetarian exactly when "Vegetarian"
      or "Vegan" occurs in it somewhere. */
  lemma VegetarianIffStyleMentionsIt(req: PlanRequest)
    ensures FlagsOf(req).veg <==>
      (exists i :: OccursAt(req.dietaryStyle, "Vegetarian", i)) || (exists i :: OccursAt(req.dietaryStyle, "Vegan", i))
  {
    ContainsIffOccurs(req.dietaryStyle, "Vegetarian");
    ContainsIffOccurs(req.dietaryStyle, "Vegan");
  }

  /** The substring test also matches "Non-Vegetarian": such a request is
      treated as vegetarian and gets no chicken, even when it asks for it. */
  lemma NonVegetarianCountsAsVegetarian(target: int, req: PlanRequest)
    requires req.dietaryStyle == "Non-Vegetarian"
    ensures FlagsOf(req).veg
    ensures MakeFallback(target, req)[0].meals[2].template != ChickenRiceBowl
  {
    assert OccursAt(req.dietaryStyle, "Vegetarian", 4);
    VegetarianIffStyleMentionsIt(req);
    PlanTemplates(target, req);
  }

  /** Which templates the request's preferences select: each protein only for
      a request that is not vegetarian and lists it, the Indian breakfast
      exactly when no cuisine or "Indian" is listed. */
  lemma TemplateChoices(target: int, req: PlanRequest)
    ensures var plan := MakeFallback(target, req);
      var veg := FlagsOf(req).veg;
      && (plan[0].meals[2].template == ChickenRiceBowl <==> !veg && "Chicken" in req.proteins)
      && (plan[0].meals[4].template == GrilledFish <==> !veg && "Seafood" in req.proteins)
      && (plan[1].meals[0].template == MasalaOmelette <==> !veg && "Eggs" in req.proteins)
      && (plan[1].meals[4].template == MuttonCurry <==> !veg && "Mutton" in req.proteins)
      && (plan[0].meals[0].template == PohaWithPeanuts <==> req.cuisines == [] || "Indian" in req.cuisines)
  {
    PlanTemplates(target, req);
  }

  /** The allergies never change which meals are served: they only reach the
      text of each meal's allergy confirmation. */
  lemma AllergiesOnlyReachConfirmation(target: int, req: PlanRequest, allergies: seq<string>)
    ensures var plan := MakeFallback(target, req);
      var other := MakeFallback(target, req.(allergies := allergies));
      forall i, j :: 0 <= i < 7 && 0 <= j < 5 ==>
        other[i].meals[j] == plan[i].meals[j].(allergies := AllergiesText(allergies))
  {
    PlanMeals(target, req);
    PlanMeals(target, req.(allergies := allergies));
    assert FlagsOf(req.(allergies := allergies)) == FlagsOf(req);
  }

  /** The allergy text is "none listed" for no allergies. Otherwise it is
      the allergies joined by ", ": it starts with the first one and is as
      long as all of them plus one separator between each two. */
  lemma AllergiesTextCases(allergies: seq<string>)
    ensures allergies == [] ==> AllergiesText(allergies) == "none listed"
    ensures |allergies| == 1 ==> AllergiesText(allergies) == allergies[0]
    ensures allergies != [] ==>
      && OccursAt(AllergiesText(allergies), allergies[0], 0)
      && |AllergiesText(allergies)| == TotalLength(allergies) + (|allergies| - 1) * 2
  {
    if allergies != [] {
      JoinStartsWithFirst(", ", allergies);
      JoinLength(", ", allergies);
      if |allergies| == 1 {
        JoinSingle(", ", allergies[0]);
      }
    }
  }

  /** Adding an allergy to the list appends it to the allergy text, after
      ", " when the list already had one. */
  lemma AllergiesTextAppend(allergies: seq<string>, x: string)
    ensures allergies == [] ==> AllergiesText(allergies + [x]) == x
    ensures allergies != [] ==> AllergiesText(allergies + [x]) == AllergiesText(allergies) + ", " + x
  {
    if allergies == [] {
      assert allergies + [x] == [x];
      JoinSingle(", ", x);
    } else {
      JoinSnoc(", ", allergies, x);
    }
  }

  /** The rendered meal names each ingredient's food and quotes the meal's
      allergies in its confirmation. */
  lemma ViewedIngredientsAndConfirmation(m: Meal)
    ensures var v := ViewMeal(m);
      && |v.ingredients| == |m.ingredients|
      && (forall g :: 0 <= g < |m.ingredients| ==> v.ingredients[g].name == FoodText(m.ingredients[g].food))
      && v.allergyConfirmation == "Confirmed safe — no " + m.allergies
  {
  }

  /** A request that is allergic to peanuts and lists no cuisine is served
      poha with peanuts on Monday, and that meal's allergy text names peanuts
      (rendered as "Confirmed safe — no Peanuts", see above). */
  lemma PeanutsServedDespiteAllergy(target: int, req: PlanRequest)
    requires req.allergies == ["Peanuts"] && req.cuisines == []
    ensures var m := MakeFallback(target, req)[0].meals[0];
      && m.template == PohaWithPeanuts
      && m.ingredients[1].food == Peanuts
      && m.allergies == FoodText(Peanuts)
  {
    PlanMeals(target, req);
    assert Join(", ", req.allergies) == "Peanuts";
  }

  /** A poha meal whose second ingredient is peanuts and whose allergy text
      is "Peanuts" renders with both. */
  lemma RenderedPeanutPoha(m: Meal)
    requires m.template == PohaWithPeanuts && |m.ingredients| > 1
    requires m.ingredients[1].food == Peanuts && m.allergies == FoodText(Peanuts)
    ensures var v := ViewMeal(m);
      && v.name == "Poha with peanuts & vegetables"
      && v.ingredients[1].name == "Peanuts" && v.ingredients[1].quantity == "as needed"
      && v.allergyConfirmation == "Confirmed safe — no Peanuts"
  {
    ViewedIngredientsAndConfirmation(m);
  }

  /** Rendered, that Monday breakfast lists "Peanuts" as needed and still
      reads "Confirmed safe — no Peanuts". */
  lemma PeanutsConfirmedSafe(target: int, req: PlanRequest)
    requires req.allergies == ["Peanuts"] && req.cuisines == []
    ensures var v := ViewMeal(MakeFallback(target, req)[0].meals[0]);
      && v.name == "Poha with peanuts & vegetables"
      && v.ingredients[1].name == "Peanuts" && v.ingredients[1].quantity == "as needed"
      && v.allergyConfirmation == "Confirmed safe — no Peanuts"
  {
    PeanutsServedDespiteAllergy(target, req);
    RenderedPeanutPoha(MakeFallback(target, req)[0].meals[0]);
  }

  /** "Vegan" sets the same flag as "Vegetarian". */
  lemma VeganCountsAsVegetarian(req: PlanRequest)
    requires req.dietaryStyle == "Vegan"
    ensures FlagsOf(req).veg
  {
    assert OccursAt(req.dietaryStyle, "Vegan", 0);
    VegetarianIffStyleMentionsIt(req);
  }

  /** Three of the vegetarian templates are made with dairy. */
  lemma DairyTemplates()
    ensures Ghee in Foods(DalTadka) && Cream in Foods(PalakPaneer) && GreekYogurt in Foods(GreekYogurtParfait)
  {
  }

  /** A week serving the templates of set i mod 2 for flags without meat
      serves dal tadka (ghee) and palak paneer (cream) when Indian and a
      Greek yogurt parfait otherwise. */
  lemma {:induction false} DairyWeek(plan: seq<DayPlan>, f: Flags)
    requires |plan| == 7 && forall i :: 0 <= i < 7 ==> |plan[i].meals| == 5
    requires forall i, j :: 0 <= i < 7 && 0 <= j < 5 ==> plan[i].meals[j].template == TemplateFor(i % 2, Slots[j], f)
    requires !f.chicken && !f.eggs && !f.mutton
    ensures f.indian ==>
      && plan[0].meals[2].template == DalTadka && Ghee in Foods(plan[0].meals[2].template)
      && plan[1].meals[4].template == PalakPaneer && Cream in Foods(plan[1].meals[4].template)
    ensures !f.indian ==>
      plan[1].meals[0].template == GreekYogurtParfait && GreekYogurt in Foods(plan[1].meals[0].template)
  {
    DairyTemplates();
    assert plan[0].meals[2].template == TemplateFor(0, Slots[2], f);
    assert plan[1].meals[4].template == TemplateFor(1, Slots[4], f);
    assert plan[1].meals[0].template == TemplateFor(1, Slots[0], f);
  }

  /** Vegetarian and vegan requests get the same templates, so a vegan
      request is still served dairy: dal tadka (ghee) and palak paneer
      (cream) with Indian cuisine, a Greek yogurt parfait otherwise. */
  lemma VegetarianPlanServesDairy(target: int, req: PlanRequest)
    requires FlagsOf(req).veg
    ensures var plan := MakeFallback(target, req);
      && (FlagsOf(req).indian ==>
            && plan[0].meals[2].template == DalTadka && Ghee in Foods(plan[0].meals[2].template)
            && plan[1].meals[4].template == PalakPaneer && Cream in Foods(plan[1].meals[4].template))
      && (!FlagsOf(req).indian ==>
            plan[1].meals[0].template == GreekYogurtParfait && GreekYogurt in Foods(plan[1].meals[0].template))
  {
    PlanTemplates(target, req);
    DairyWeek(MakeFallback(target, req), FlagsOf(req));
  }
}
