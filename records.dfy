/** The five stored record kinds of the tracker, their default values and
    their string forms. Dates are day numbers; timestamps are ticks of a
    logical clock kept by the store. */
module Records {
  import opened Common

  type UserId = nat
  type Day = int

  /** The eighteen nutrient fields of a food log, in declaration order. */
  datatype Nutrient =
    | Calories | Protein | Carbs | Sugars | Fiber | Fat | SaturatedFat
    | Cholesterol | Sodium | Potassium | Calcium | Iron | VitaminA
    | VitaminC | VitaminD | VitaminB12 | Magnesium | Zinc

  const AllNutrients: seq<Nutrient> :=
    [Calories, Protein, Carbs, Sugars, Fiber, Fat, SaturatedFat, Cholesterol,
     Sodium, Potassium, Calcium, Iron, VitaminA, VitaminC, VitaminD,
     VitaminB12, Magnesium, Zinc]

  lemma AllNutrientsComplete(n: Nutrient)
    ensures n in AllNutrients
  {
  }

  /** The model field name of a nutrient, which is also its key in the
      views' dictionaries. */
  function FieldName(n: Nutrient): string
  {
    match n
    case Calories => "calories"
    case Protein => "protein"
    case Carbs => "carbs"
    case Sugars => "sugars"
    case Fiber => "fiber"
    case Fat => "fat"
    case SaturatedFat => "saturated_fat"
    case Cholesterol => "cholesterol"
    case Sodium => "sodium"
    case Potassium => "potassium"
    case Calcium => "calcium"
    case Iron => "iron"
    case VitaminA => "vitamin_a"
    case VitaminC => "vitamin_c"
    case VitaminD => "vitamin_d"
    case VitaminB12 => "vitamin_b12"
    case Magnesium => "magnesium"
    case Zinc => "zinc"
  }

  /** Category choices shared by food logs and grocery items. */
  const CategoryChoices: seq<string> :=
    ["fruit", "vegetable", "protein", "grain", "dairy", "fish", "frozen",
     "dessert", "wine", "other"]

  const DefaultCategory: string := "other"

  /** Quantity units as (value, label) choices. */
  const QuantityUnits: seq<(string, string)> :=
    [("piece", "Piece(s)"), ("slice", "Slice(s)"), ("fruit", "Fruit"),
     ("g", "Grams"), ("oz", "Ounces"), ("cup", "Cups"), ("serving", "Serving")]

  /** The supplement time slots. */
  const TimeSlots: seq<string> := ["morning", "afternoon", "evening"]

  // ---------------------------------------------------------------------
  // FoodLog
  // ---------------------------------------------------------------------

  datatype FoodLog = FoodLog(
    id: nat,
    foodName: string,
    quantityAmount: Option<real>,
    quantityUnit: Option<string>,
    category: string,
    dateLogged: Day,
    calories: real, protein: real, carbs: real, sugars: real, fiber: real,
    fat: real, saturatedFat: real, cholesterol: real, sodium: real,
    potassium: real, calcium: real, iron: real, vitaminA: real,
    vitaminC: real, vitaminD: real, vitaminB12: real, magnesium: real,
    zinc: real)
  {
    /** The value of one nutrient field. */
    function Amount(n: Nutrient): real
    {
      match n
      case Calories => calories
      case Protein => protein
      case Carbs => carbs
      case Sugars => sugars
      case Fiber => fiber
      case Fat => fat
      case SaturatedFat => saturatedFat
      case Cholesterol => cholesterol
      case Sodium => sodium
      case Potassium => potassium
      case Calcium => calcium
      case Iron => iron
      case VitaminA => vitaminA
      case VitaminC => vitaminC
      case VitaminD => vitaminD
      case VitaminB12 => vitaminB12
      case Magnesium => magnesium
      case Zinc => zinc
    }

    /** How `None` and a string unit print inside an f-string. */
    function UnitText(): string
    {
      if quantityUnit.Some? then quantityUnit.value else "None"
    }

    /** `FoodLog.__str__`. The textual forms of the float amount and of the
        date are supplied by the caller. */
    function Describe(amountText: string, dateText: string): (r: string)
      ensures |foodName| <= |r| && r[..|foodName|] == foodName
      ensures Contains(r, foodName) && Contains(r, UnitText())
    {
      var r := foodName + " (" + amountText + " " + UnitText() + ") on " + dateText;
      ContainsInfix([], foodName, r[|foodName|..]);
      assert r == [] + foodName + r[|foodName|..];
      ContainsInfix(foodName + " (" + amountText + " ", UnitText(), ") on " + dateText);
      assert r == (foodName + " (" + amountText + " ") + UnitText() + (") on " + dateText);
      r
    }
  }

  /** A food log created with only its required values given: every nutrient
      field defaults to 0, the category to "other", quantity and unit are
      empty and the date is the current day. */
  function NewFoodLog(id: nat, foodName: string, today: Day): (log: FoodLog)
    ensures forall n: Nutrient :: log.Amount(n) == 0.0
    ensures log.category == DefaultCategory && log.dateLogged == today
    ensures log.quantityAmount == None && log.quantityUnit == None
    ensures log.id == id && log.foodName == foodName
  {
    FoodLog(id, foodName, None, None, DefaultCategory, today,
            0.0, 0.0, 0.0, 0.0, 0.0, 0.0, 0.0, 0.0, 0.0,
            0.0, 0.0, 0.0, 0.0, 0.0, 0.0, 0.0, 0.0, 0.0)
  }

  // ---------------------------------------------------------------------
  // GroceryItem, PantryItem, SupplementLog, SavedRecipe
  // ---------------------------------------------------------------------

  datatype GroceryItem = GroceryItem(
    id: nat,
    user: Option<UserId>,
    name: string,
    quantity: string,
    category: string,
    addedOn: int,
    purchased: bool)
  {
    /** `GroceryItem.__str__`. */
    function Describe(): (r: string)
      ensures |name| <= |r| && r[..|name|] == name
      ensures Contains(r, quantity)
    {
      var r := name + " (" + quantity + ")";
      ContainsInfix(name + " (", quantity, ")");
      r
    }
  }

  /** A grocery item created without a category or purchased flag. */
  function NewGroceryItem(id: nat, user: Option<UserId>, name: string, quantity: string, addedOn: int): (g: GroceryItem)
    ensures g.category == DefaultCategory && !g.purchased
    ensures g.id == id && g.user == user && g.name == name && g.quantity == quantity && g.addedOn == addedOn
  {
    GroceryItem(id, user, name, quantity, DefaultCategory, addedOn, false)
  }

  datatype PantryItem = PantryItem(
    id: nat,
    user: UserId,
    name: string,
    quantity: real,
    unit: string,
    addedOn: int)

  /** A pantry item created without a quantity or unit. */
  function NewPantryItem(id: nat, user: UserId, name: string, addedOn: int): (p: PantryItem)
    ensures p.quantity == 1.0 && p.unit == ""
    ensures p.id == id && p.user == user && p.name == name && p.addedOn == addedOn
  {
    PantryItem(id, user, name, 1.0, "", addedOn)
  }

  /** A marker that `user` took the supplement of one slot on one day. */
  datatype SupplementLog = SupplementLog(user: UserId, date: Day, timeOfDay: string)

  datatype SavedRecipe = SavedRecipe(
    id: nat,
    user: UserId,
    spoonacularId: string,
    title: string,
    imageUrl: string,
    sourceUrl: string,
    savedAt: int)

  /** The `unique_together = ("user", "spoonacular_id")` constraint. */
  ghost predicate UniquePerUser(rs: seq<SavedRecipe>)
  {
    forall i, j :: 0 <= i < j < |rs| ==>
      rs[i].user != rs[j].user || rs[i].spoonacularId != rs[j].spoonacularId
  }
}
