/** The meal templates of the fallback plan and their fixed texts.

    Every meal the fallback plan can emit is one of the 21 templates below;
    every ingredient it can list is one of the `Food` values. The exact
    strings the plan shows for a template or a food are given by the
    `...Text` functions here, so that reasoning about the shape of a plan
    compares templates and foods rather than long string literals. */
module Templates {

  /** The five meal slots of a day, in the order they are emitted. */
  datatype Slot = Breakfast | MidMorning | Lunch | Evening | Dinner

  function SlotText(s: Slot): (r: string)
  {
    match s
    case Breakfast => "Breakfast"
    case MidMorning => "Mid-Morning"
    case Lunch => "Lunch"
    case Evening => "Evening"
    case Dinner => "Dinner"
  }

  /** One meal template. The first template set offers the first eleven,
      the second set the remaining ten. */
  datatype Template =
    // first set
    | PohaWithPeanuts | OatsWithBanana
    | FreshFruitBowl
    | ChickenRiceBowl | DalTadka | ChickpeaBuddhaBowl
    | RoastedChanaChaat | MixedNutsAndSeeds
    | GrilledFish | PaneerBhurji | LentilSoup
    // second set
    | MasalaOmelette | IdliSambar | GreekYogurtParfait
    | AlmondsAndWalnuts
    | RajmaChawal | QuinoaVeggieBowl
    | SproutsChaat
    | MuttonCurry | PalakPaneer | StirFriedTofu

  /** The ingredient names the templates use. */
  datatype Food =
    | Poha | Peanuts | Onion | GreenChilli | RolledOats | Banana | Almonds | Honey
    | Apple | Orange | Pomegranate
    | ChickenBreast | BasmatiRice | Spinach | Spices | ToorDal | BrownRice | Ghee | Turmeric
    | Chickpeas | Quinoa | Cucumber | OliveOil
    | RoastedChana | Lemon | ChaatMasala | Walnuts | PumpkinSeeds
    | FishFillet | Broccoli | Paneer | Capsicum | WheatRoti | RedLentils | Carrot | Bread
    | Eggs | Tomato | WholeWheatToast | Idli | Sambar | CoconutChutney
    | GreekYogurt | Granola | MixedBerries
    | Rajma | Avocado | CherryTomatoes | MoongSprouts
    | Mutton | GingerGarlic | Cream | FirmTofu | MixedVegetables | SoySauce

  /** The ingredient list of a template, in order. */
  function Foods(t: Template): (fs: seq<Food>)
    ensures 2 <= |fs| <= 5
  {
    match t
    case PohaWithPeanuts => [Poha, Peanuts, Onion, GreenChilli]
    case OatsWithBanana => [RolledOats, Banana, Almonds, Honey]
    case FreshFruitBowl => [Apple, Orange, Pomegranate]
    case ChickenRiceBowl => [ChickenBreast, BasmatiRice, Spinach, Spices]
    case DalTadka => [ToorDal, BrownRice, Ghee, Turmeric]
    case ChickpeaBuddhaBowl => [Chickpeas, Quinoa, Cucumber, OliveOil]
    case RoastedChanaChaat => [RoastedChana, Lemon, ChaatMasala]
    case MixedNutsAndSeeds => [Almonds, Walnuts, PumpkinSeeds]
    case GrilledFish => [FishFillet, Broccoli, OliveOil, Lemon]
    case PaneerBhurji => [Paneer, Capsicum, Onion, WheatRoti]
    case LentilSoup => [RedLentils, Carrot, Bread, OliveOil]
    case MasalaOmelette => [Eggs, Onion, Tomato, WholeWheatToast]
    case IdliSambar => [Idli, Sambar, CoconutChutney]
    case GreekYogurtParfait => [GreekYogurt, Granola, MixedBerries, Honey]
    case AlmondsAndWalnuts => [Almonds, Walnuts]
    case RajmaChawal => [Rajma, BasmatiRice, Onion, Tomato, Spices]
    case QuinoaVeggieBowl => [Quinoa, Avocado, CherryTomatoes, Spinach, Lemon]
    case SproutsChaat => [MoongSprouts, Tomato, Cucumber, Lemon]
    case MuttonCurry => [Mutton, Onion, GingerGarlic, WheatRoti]
    case PalakPaneer => [Spinach, Paneer, Cream, WheatRoti]
    case StirFriedTofu => [FirmTofu, MixedVegetables, BrownRice, SoySauce]
  }

  function NameText(t: Template): (r: string)
  {
    match t
    case PohaWithPeanuts => "Poha with peanuts & vegetables"
    case OatsWithBanana => "Oats with banana & nuts"
    case FreshFruitBowl => "Fresh fruit bowl"
    case ChickenRiceBowl => "Chicken rice bowl"
    case DalTadka => "Dal tadka + brown rice"
    case ChickpeaBuddhaBowl => "Chickpea Buddha bowl"
    case RoastedChanaChaat => "Roasted chana chaat"
    case MixedNutsAndSeeds => "Mixed nuts & seeds"
    case GrilledFish => "Grilled fish + veggies"
    case PaneerBhurji => "Paneer bhurji + roti"
    case LentilSoup => "Lentil soup + bread"
    case MasalaOmelette => "Masala omelette + toast"
    case IdliSambar => "Idli + sambar"
    case GreekYogurtParfait => "Greek yogurt parfait"
    case AlmondsAndWalnuts => "Almonds & walnuts"
    case RajmaChawal => "Rajma chawal"
    case QuinoaVeggieBowl => "Quinoa veggie bowl"
    case SproutsChaat => "Sprouts chaat"
    case MuttonCurry => "Mutton curry + roti"
    case PalakPaneer => "Palak paneer + roti"
    case StirFriedTofu => "Stir-fried tofu + rice"
  }

  /** Different templates have different names. */
  lemma NameTextInjective(a: Template, b: Template)
    requires a != b
    ensures NameText(a) != NameText(b)
  {
  }

  function FoodText(f: Food): (r: string)
  {
    match f
    case Poha => "Poha"
    case Peanuts => "Peanuts"
    case Onion => "Onion"
    case GreenChilli => "Green chilli"
    case RolledOats => "Rolled oats"
    case Banana => "Banana"
    case Almonds => "Almonds"
    case Honey => "Honey"
    case Apple => "Apple"
    case Orange => "Orange"
    case Pomegranate => "Pomegranate"
    case ChickenBreast => "Chicken breast"
    case BasmatiRice => "Basmati rice"
    case Spinach => "Spinach"
    case Spices => "Spices"
    case ToorDal => "Toor dal"
    case BrownRice => "Brown rice"
    case Ghee => "Ghee"
    case Turmeric => "Turmeric"
    case Chickpeas => "Chickpeas"
    case Quinoa => "Quinoa"
    case Cucumber => "Cucumber"
    case OliveOil => "Olive oil"
    case RoastedChana => "Roasted chana"
    case Lemon => "Lemon"
    case ChaatMasala => "Chaat masala"
    case Walnuts => "Walnuts"
    case PumpkinSeeds => "Pumpkin seeds"
    case FishFillet => "Fish fillet"
    case Broccoli => "Broccoli"
    case Paneer => "Paneer"
    case Capsicum => "Capsicum"
    case WheatRoti => "Wheat roti"
    case RedLentils => "Red lentils"
    case Carrot => "Carrot"
    case Bread => "Bread"
    case Eggs => "Eggs"
    case Tomato => "Tomato"
    case WholeWheatToast => "Whole wheat toast"
    case Idli => "Idli"
    case Sambar => "Sambar"
    case CoconutChutney => "Coconut chutney"
    case GreekYogurt => "Greek yogurt"
    case Granola => "Granola"
    case MixedBerries => "Mixed berries"
    case Rajma => "Rajma"
    case Avocado => "Avocado"
    case CherryTomatoes => "Cherry tomatoes"
    case MoongSprouts => "Moong sprouts"
    case Mutton => "Mutton"
    case GingerGarlic => "Ginger-garlic"
    case Cream => "Cream"
    case FirmTofu => "Firm tofu"
    case MixedVegetables => "Mixed vegetables"
    case SoySauce => "Soy sauce"
  }

  /** Protein, carbohydrate and fat grams, as the display strings the plan shows. */
  function MacroTexts(t: Template): (r: (string, string, string))
  {
    match t
    case PohaWithPeanuts | OatsWithBanana => ("8g", "45g", "6g")
    case FreshFruitBowl => ("2g", "28g", "0.5g")
    case ChickenRiceBowl => ("35g", "55g", "10g")
    case DalTadka | ChickpeaBuddhaBowl => ("18g", "55g", "10g")
    case RoastedChanaChaat | MixedNutsAndSeeds => ("6g", "18g", "4g")
    case GrilledFish => ("32g", "30g", "12g")
    case PaneerBhurji | LentilSoup => ("22g", "30g", "12g")
    case MasalaOmelette => ("18g", "35g", "9g")
    case IdliSambar | GreekYogurtParfait => ("10g", "35g", "9g")
    case AlmondsAndWalnuts => ("5g", "8g", "14g")
    case RajmaChawal | QuinoaVeggieBowl => ("16g", "62g", "8g")
    case SproutsChaat => ("6g", "14g", "1g")
    case MuttonCurry => ("28g", "32g", "14g")
    case PalakPaneer | StirFriedTofu => ("20g", "32g", "14g")
  }

  function MicronutrientTexts(t: Template): (r: seq<string>)
  {
    match t
    case PohaWithPeanuts | OatsWithBanana => ["Iron", "B6"]
    case FreshFruitBowl => ["Vitamin C", "Potassium", "Antioxidants"]
    case ChickenRiceBowl | DalTadka | ChickpeaBuddhaBowl => ["Protein", "Iron", "Zinc"]
    case RoastedChanaChaat | MixedNutsAndSeeds => ["Magnesium", "Phosphorus"]
    case GrilledFish | PaneerBhurji | LentilSoup => ["Omega-3", "Calcium", "Vitamin D"]
    case MasalaOmelette | IdliSambar | GreekYogurtParfait => ["B12", "Choline", "Selenium"]
    case AlmondsAndWalnuts => ["Omega-3", "Vitamin E"]
    case RajmaChawal | QuinoaVeggieBowl => ["Iron", "Folate", "Fiber"]
    case SproutsChaat => ["Folate", "Vitamin C", "Zinc"]
    case MuttonCurry | PalakPaneer | StirFriedTofu => ["B12", "Iron", "Calcium"]
  }

  function WhySelectedText(t: Template): (r: string)
  {
    match t
    case PohaWithPeanuts => "Light, easily digestible morning meal"
    case OatsWithBanana => "High-fiber, sustained energy breakfast"
    case FreshFruitBowl => "Natural sugar and fiber for mid-morning energy"
    case ChickenRiceBowl | DalTadka | ChickpeaBuddhaBowl => "High-protein balanced meal for midday"
    case RoastedChanaChaat | MixedNutsAndSeeds => "Protein-rich snack to prevent evening hunger"
    case GrilledFish | PaneerBhurji | LentilSoup => "Light, protein-rich dinner for recovery"
    case MasalaOmelette => "High-protein breakfast for muscle support"
    case IdliSambar | GreekYogurtParfait => "Fermented food rich in probiotics"
    case AlmondsAndWalnuts => "Healthy fat and protein snack"
    case RajmaChawal => "Classic complete protein combination"
    case QuinoaVeggieBowl => "Complete amino acid profile from quinoa"
    case SproutsChaat => "Live food packed with enzymes and micronutrients"
    case MuttonCurry => "Iron-rich dinner for energy replenishment"
    case PalakPaneer | StirFriedTofu => "Calcium and iron-rich vegetarian dinner"
  }

  function PurposeText(t: Template): (r: string)
  {
    match t
    case PohaWithPeanuts | OatsWithBanana => "Provides complex carbs and plant protein for morning energy"
    case FreshFruitBowl => "Provides vitamins and fiber to prevent energy crash"
    case ChickenRiceBowl | DalTadka | ChickpeaBuddhaBowl => "Complete protein and complex carbs for sustained energy"
    case RoastedChanaChaat | MixedNutsAndSeeds => "Provides sustained energy and prevents overeating at dinner"
    case GrilledFish | PaneerBhurji | LentilSoup => "Supports muscle recovery and provides essential nutrients before sleep"
    case MasalaOmelette | IdliSambar | GreekYogurtParfait => "Provides complete amino acids and gut health support"
    case AlmondsAndWalnuts => "Brain-boosting omega-3 fatty acids and antioxidants"
    case RajmaChawal | QuinoaVeggieBowl => "Plant protein + complex carb combination for sustained energy"
    case SproutsChaat => "Sprouting increases bioavailability of nutrients significantly"
    case MuttonCurry | PalakPaneer | StirFriedTofu => "Provides essential minerals for recovery and bone health"
  }

  /** The goal-alignment sentence, which quotes the request's goal. */
  function AlignmentText(t: Template, goal: string): (r: string)
  {
    match t
    case PohaWithPeanuts | OatsWithBanana => "Supports " + goal + " with controlled calorie density"
    case FreshFruitBowl => "Low-calorie snack aligned with " + goal
    case ChickenRiceBowl | DalTadka | ChickpeaBuddhaBowl => "Core meal driving " + goal + " — high satiety, balanced macros"
    case RoastedChanaChaat | MixedNutsAndSeeds => "Smart snacking aligned with " + goal
    case GrilledFish | PaneerBhurji | LentilSoup => "Evening meal optimized for " + goal + " — lower carbs, higher protein"
    case MasalaOmelette | IdliSambar | GreekYogurtParfait => "Protein-forward start supporting " + goal
    case AlmondsAndWalnuts => "Supports " + goal + " with healthy fats and satiety"
    case RajmaChawal | QuinoaVeggieBowl => "High-fiber, satisfying lunch for " + goal
    case SproutsChaat => "Micronutrient-dense snack supporting " + goal
    case MuttonCurry | PalakPaneer | StirFriedTofu => "Nutrient-dense dinner closing the day's target for " + goal
  }

  function RecipeStepTexts(t: Template): (r: seq<string>)
  {
    match t
    case PohaWithPeanuts =>
      ["Heat oil, add mustard seeds", "Add onion and green chilli, sauté", "Add soaked poha, mix well", "Garnish with lemon and coriander"]
    case OatsWithBanana => ["Soak oats in milk overnight", "Slice banana and add almonds", "Drizzle honey and serve cold"]
    case FreshFruitBowl => ["Wash and chop fruits", "Mix together and serve"]
    case ChickenRiceBowl | DalTadka | ChickpeaBuddhaBowl =>
      ["Cook rice/grain separately", "Prepare protein/dal with spices", "Combine and serve with vegetables"]
    case RoastedChanaChaat => ["Mix all ingredients", "Add lemon juice and seasoning", "Serve immediately"]
    case MixedNutsAndSeeds => ["Portion out mixed nuts", "Ready to serve"]
    case GrilledFish | PaneerBhurji | LentilSoup =>
      ["Marinate protein with spices", "Cook/grill with minimal oil", "Steam vegetables separately", "Plate and serve hot"]
    case MasalaOmelette => ["Beat eggs with seasoning", "Sauté onions and tomatoes", "Pour eggs, fold omelette", "Toast bread and serve"]
    case IdliSambar | GreekYogurtParfait => ["Steam idlis", "Heat sambar", "Serve with chutney"]
    case AlmondsAndWalnuts => ["Portion 30g mixed nuts", "Eat mindfully"]
    case RajmaChawal => ["Pressure cook rajma", "Prepare rice", "Make tomato-onion gravy", "Combine and serve"]
    case QuinoaVeggieBowl => ["Cook quinoa", "Slice avocado", "Toss all ingredients", "Dress with lemon"]
    case SproutsChaat => ["Rinse sprouts", "Chop vegetables", "Mix with lemon and seasoning", "Serve fresh"]
    case MuttonCurry | PalakPaneer | StirFriedTofu =>
      ["Prepare base gravy", "Add protein and cook through", "Season and garnish", "Serve with roti/rice"]
  }

  /** Cooking time and difficulty. */
  function RecipeInfoTexts(t: Template): (r: (string, string))
  {
    match t
    case PohaWithPeanuts | OatsWithBanana | MasalaOmelette | IdliSambar | GreekYogurtParfait => ("15 mins", "Easy")
    case FreshFruitBowl | RoastedChanaChaat | MixedNutsAndSeeds => ("5 mins", "Easy")
    case ChickenRiceBowl | DalTadka | ChickpeaBuddhaBowl => ("30 mins", "Medium")
    case GrilledFish | PaneerBhurji | LentilSoup => ("25 mins", "Medium")
    case AlmondsAndWalnuts => ("0 mins", "Easy")
    case RajmaChawal | QuinoaVeggieBowl | MuttonCurry | PalakPaneer | StirFriedTofu => ("35 mins", "Medium")
    case SproutsChaat => ("10 mins", "Easy")
  }
}
