/** The parts of the Spoonacular payloads the application reads, the
    nutrient-name normalisation, the per-ingredient nutrition reply and the
    recipe-details helper. Every HTTP exchange is an input: a reply that did
    not come back with status 200 is `None`. */
module ApiData {
  import opened Common
  import opened Records

  /** One entry of `nutrition.nutrients`: a display name and an amount. */
  datatype NutrientEntry = NutrientEntry(name: string, amount: real)

  /** A `findByIngredients` or `complexSearch` result. Keys the payload may
      lack are `None`. */
  datatype Recipe = Recipe(
    id: int,
    title: string,
    image: Option<string>,
    usedIngredientCount: Option<int>,
    missedIngredientCount: Option<int>,
    missedIngredients: Option<seq<string>>)

  /** The `/recipes/{id}/information` payload; a missing `diets` key or
      nutrient list is the empty sequence. */
  datatype RecipeInfo = RecipeInfo(
    title: Option<string>,
    image: Option<string>,
    sourceUrl: Option<string>,
    diets: seq<string>,
    nutrients: seq<NutrientEntry>)

  // ---------------------------------------------------------------------
  // Nutrient names
  // ---------------------------------------------------------------------

  /** `name.lower().replace(" ", "_")`. */
  function NormaliseName(s: string): (r: string)
    ensures |r| == |s|
    ensures ' ' !in r
    ensures forall i :: 0 <= i < |r| ==> !IsUpper(r[i])
    ensures forall i :: 0 <= i < |s| ==> r[i] == (if s[i] == ' ' then '_' else ToLowerChar(s[i]))
  {
    ReplaceChar(Lower(s), ' ', '_')
  }

  /** A name that is already normalised is left as it is. */
  lemma NormaliseIdempotent(s: string)
    ensures NormaliseName(NormaliseName(s)) == NormaliseName(s)
  {
    AlreadyNormalised(NormaliseName(s));
  }

  /** The model's field names are normalised names, so a nutrient table
      keyed by normalised names can be read with them. */
  lemma FieldNamesAreNormalised(n: Nutrient)
    ensures NormaliseName(FieldName(n)) == FieldName(n)
  {
    var f := FieldName(n);
    assert forall i :: 0 <= i < |f| ==> 'a' <= f[i] <= 'z' || f[i] == '_' || '0' <= f[i] <= '9';
    AlreadyNormalised(f);
  }

  lemma AlreadyNormalised(s: string)
    requires forall i :: 0 <= i < |s| ==> s[i] != ' ' && !IsUpper(s[i])
    ensures NormaliseName(s) == s
  {
    assert forall i :: 0 <= i < |s| ==> NormaliseName(s)[i] == s[i];
  }

  /** Display names as Spoonacular spells them reach the field names. */
  lemma CarbohydratesNormalises()
    ensures NormaliseName("Carbohydrates") == "carbohydrates"
  {
    var c := NormaliseName("Carbohydrates");
    assert forall i :: 0 <= i < |c| ==> c[i] == "carbohydrates"[i];
  }

  lemma VitaminB12Normalises()
    ensures NormaliseName("Vitamin B12") == "vitamin_b12"
  {
    var c := NormaliseName("Vitamin B12");
    assert forall i :: 0 <= i < |c| ==> c[i] == "vitamin_b12"[i];
  }

  /** `{n["name"].lower().replace(" ", "_"): n["amount"] for n in entries}`:
      later entries overwrite earlier ones with the same name. */
  function NutrientTable(entries: seq<NutrientEntry>): map<string, real>
  {
    if entries == [] then map[]
    else
      var e := entries[|entries| - 1];
      NutrientTable(entries[..|entries| - 1])[NormaliseName(e.name) := e.amount]
  }

  /** `table.get(key, 0)`. */
  function Lookup(table: map<string, real>, key: string): real
  {
    if key in table then table[key] else 0.0
  }

  /** The last entry whose name normalises to `key` decides its amount. */
  lemma {:induction false} LastEntryWins(entries: seq<NutrientEntry>, key: string, i: nat)
    requires i < |entries| && NormaliseName(entries[i].name) == key
    requires forall j :: i < j < |entries| ==> NormaliseName(entries[j].name) != key
    ensures Lookup(NutrientTable(entries), key) == entries[i].amount
  {
    if i < |entries| - 1 {
      var prefix := entries[..|entries| - 1];
      assert prefix[i] == entries[i];
      assert NormaliseName(entries[|entries| - 1].name) != key;
      LastEntryWins(prefix, key, i);
    }
  }

  /** A name no entry carries reads as 0. */
  lemma {:induction false} MissingNameIsZero(entries: seq<NutrientEntry>, key: string)
    requires forall i :: 0 <= i < |entries| ==> NormaliseName(entries[i].name) != key
    ensures Lookup(NutrientTable(entries), key) == 0.0
  {
    if entries != [] {
      var prefix := entries[..|entries| - 1];
      assert forall i :: 0 <= i < |prefix| ==> prefix[i] == entries[i];
      assert NormaliseName(entries[|entries| - 1].name) != key;
      MissingNameIsZero(prefix, key);
    }
  }

  // ---------------------------------------------------------------------
  // ingredient_nutrition
  // ---------------------------------------------------------------------

  /** The normalised Spoonacular name read for each field: carbohydrates
      and sugar are spelled differently, every other field by its name. */
  function ApiName(n: Nutrient): string
  {
    match n
    case Carbs => "carbohydrates"
    case Sugars => "sugar"
    case _ => FieldName(n)
  }

  datatype NutritionReply = BadRequest | ServerError | Nutrition(values: map<Nutrient, real>)

  /** The JSON reply of the ingredient-nutrition endpoint. `id`, `amount`
      and `unit` are the query values; `response` is the information
      payload's nutrient list, `None` when the call failed. */
  function IngredientNutrition(id: Option<string>, amount: Option<string>, unit: Option<string>,
                               response: Option<seq<NutrientEntry>>): (r: NutritionReply)
    ensures r == BadRequest <==> Blank(id) || Blank(amount) || Blank(unit)
    ensures r == ServerError <==> !r.BadRequest? && response.None?
    ensures r.Nutrition? ==> response.Some? && forall n :: n in r.values
    ensures r.Nutrition? ==> forall n :: r.values[n] == Lookup(NutrientTable(response.value), ApiName(n))
  {
    if Blank(id) || Blank(amount) || Blank(unit) then BadRequest
    else if response.None? then ServerError
    else
      var table := NutrientTable(response.value);
      var values := map n | n in AllNutrients :: Lookup(table, ApiName(n));
      assert forall n :: n in values by {
        forall n ensures n in values { AllNutrientsComplete(n); }
      }
      Nutrition(values)
  }

  /** Each field carries the amount of the last entry spelled as its
      Spoonacular name, and 0 when there is none. */
  lemma IngredientNutritionFields(id: string, amount: string, unit: string, entries: seq<NutrientEntry>, n: Nutrient)
    requires id != "" && amount != "" && unit != ""
    ensures var r := IngredientNutrition(Some(id), Some(amount), Some(unit), Some(entries));
      && r.Nutrition?
      && ((forall i :: 0 <= i < |entries| ==> NormaliseName(entries[i].name) != ApiName(n)) ==> r.values[n] == 0.0)
      && (forall i :: 0 <= i < |entries| && NormaliseName(entries[i].name) == ApiName(n)
            && (forall j :: i < j < |entries| ==> NormaliseName(entries[j].name) != ApiName(n))
            ==> r.values[n] == entries[i].amount)
  {
    if forall i :: 0 <= i < |entries| ==> NormaliseName(entries[i].name) != ApiName(n) {
      MissingNameIsZero(entries, ApiName(n));
    }
    forall i | 0 <= i < |entries| && NormaliseName(entries[i].name) == ApiName(n)
      && (forall j :: i < j < |entries| ==> NormaliseName(entries[j].name) != ApiName(n))
      ensures Lookup(NutrientTable(entries), ApiName(n)) == entries[i].amount
    {
      LastEntryWins(entries, ApiName(n), i);
    }
  }

  /** Spoonacular's "Carbohydrates" entry fills the carbs field. */
  lemma CarbohydratesFillCarbs(amount: real)
    ensures IngredientNutrition(Some("1"), Some("1"), Some("g"), Some([NutrientEntry("Carbohydrates", amount)])).values[Carbs] == amount
  {
    CarbohydratesNormalises();
    LastEntryWins([NutrientEntry("Carbohydrates", amount)], "carbohydrates", 0);
  }

  // ---------------------------------------------------------------------
  // fetch_recipe_details
  // ---------------------------------------------------------------------

  /** What the saved-recipe view stores: a title and possibly missing image
      and source links. */
  datatype Details = Details(title: string, image: Option<string>, sourceUrl: Option<string>)

  /** `fetch_recipe_details`: the payload's title (default "Unknown"), image
      and source link; a failed call gives "Unknown" and two empty links. */
  function FetchRecipeDetails(response: Option<RecipeInfo>): (d: Details)
    ensures response.None? ==> d == Details("Unknown", Some(""), Some(""))
    ensures response.Some? ==> d.image == response.value.image && d.sourceUrl == response.value.sourceUrl
    ensures response.Some? && response.value.title.Some? ==> d.title == response.value.title.value
    ensures response.Some? && response.value.title.None? ==> d.title == "Unknown"
  {
    match response
    case None => Details("Unknown", Some(""), Some(""))
    case Some(info) => Details(info.title.GetOr("Unknown"), info.image, info.sourceUrl)
  }
}
