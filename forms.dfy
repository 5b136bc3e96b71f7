/** The food-log form: which fields are required, the unit choices, the
    initial date, and the two validators (no future date, no negative
    number). */
module Forms {
  import opened Common
  import opened Records

  /** The fields of the form, in declaration order. */
  const FormFields: seq<string> :=
    ["food_name", "quantity_amount", "quantity_unit", "category", "date_logged",
     "calories", "protein", "carbs", "sugars", "fiber", "fat", "saturated_fat",
     "cholesterol", "sodium", "potassium", "calcium", "iron", "vitamin_a",
     "vitamin_c", "vitamin_d", "vitamin_b12", "magnesium", "zinc"]

  /** The fields the form makes optional. */
  const OptionalFields: seq<string> :=
    ["calories", "protein", "carbs", "sugars", "fiber", "fat", "saturated_fat",
     "cholesterol", "sodium", "potassium", "calcium", "iron",
     "vitamin_a", "vitamin_c", "vitamin_d", "vitamin_b12",
     "magnesium", "zinc"]

  /** The fields checked for negative values, in checking order. */
  const NumericFields: seq<string> :=
    ["quantity_amount", "calories", "protein", "carbs", "sugars", "fiber",
     "fat", "saturated_fat", "cholesterol", "sodium", "potassium", "calcium",
     "iron", "vitamin_a", "vitamin_c", "vitamin_d", "vitamin_b12", "magnesium", "zinc"]

  /** The field names of the eighteen nutrients, in model order. */
  function NutrientFieldNames(): (r: seq<string>)
    ensures |r| == |AllNutrients| && forall i :: 0 <= i < |r| ==> r[i] == FieldName(AllNutrients[i])
  {
    seq(|AllNutrients|, i requires 0 <= i < |AllNutrients| => FieldName(AllNutrients[i]))
  }

  /** The optional fields are exactly the nutrient fields, and the checked
      fields are the quantity followed by them. */
  lemma OptionalAreNutrientFields()
    ensures OptionalFields == NutrientFieldNames()
  {
    var names := NutrientFieldNames();
    assert forall i :: 0 <= i < |OptionalFields| ==> OptionalFields[i] == names[i];
  }

  lemma NumericAreQuantityAndOptional()
    ensures NumericFields == ["quantity_amount"] + OptionalFields
  {
  }

  lemma OptionalAreFormFields()
    ensures OptionalFields == FormFields[5..]
    ensures forall f :: f in OptionalFields ==> f in FormFields
  {
    assert OptionalFields == FormFields[5..];
  }

  // ---------------------------------------------------------------------
  // Validators
  // ---------------------------------------------------------------------

  datatype Cleaned<T> = Accepted(value: T) | Rejected(field: string, message: string)

  const FutureDateMessage: string := "You can\U{2019}t log food for a future date."

  /** The rejection message names a future date, as the form test expects. */
  lemma FutureDateMessageMentionsFuture()
    ensures Contains(Lower(FutureDateMessage), "future date")
  {
    var a, w, b := "You can\U{2019}t log food for a ", "future date", ".";
    assert FutureDateMessage == a + w + b;
    LowerAppend(a + w, b);
    LowerAppend(a, w);
    LowerKeepsLower(w);
    ContainsInfix(Lower(a), w, Lower(b));
  }

  /** `clean_date_logged`: a date after today is rejected; today, any
      earlier date and a missing date are kept. */
  function CleanDateLogged(date: Option<Day>, today: Day): (r: Cleaned<Option<Day>>)
    ensures r.Rejected? <==> date.Some? && date.value > today
    ensures r.Rejected? ==> r.field == "date_logged" && r.message == FutureDateMessage
    ensures r.Accepted? ==> r.value == date
  {
    if date.Some? && date.value > today then Rejected("date_logged", FutureDateMessage)
    else Accepted(date)
  }

  /** `field.replace('_', ' ').capitalize() + " cannot be negative."`. */
  function NegativeMessage(field: string): (m: string)
    ensures |m| == |field| + 20
    ensures m[|field|..] == " cannot be negative."
    ensures forall i :: 0 <= i < |field| ==> m[i] != '_'
    ensures field != [] ==> !IsLower(m[0])
    ensures forall i :: 1 <= i < |field| ==> !IsUpper(m[i])
    ensures forall i :: 0 <= i < |field| ==>
      ToLowerChar(m[i]) == (if field[i] == '_' then ' ' else ToLowerChar(field[i]))
    ensures field != [] ==> m[0] == ToUpperChar(if field[0] == '_' then ' ' else field[0])
    ensures forall i :: 1 <= i < |field| ==> m[i] == ToLowerChar(if field[i] == '_' then ' ' else field[i])
  {
    Capitalize(ReplaceChar(field, '_', ' ')) + " cannot be negative."
  }

  /** The underscore becomes a space and only the first letter is upper
      case. */
  lemma NegativeMessageExample()
    ensures NegativeMessage("saturated_fat") == "Saturated fat cannot be negative."
  {
    SpacedExample();
    CapitalizedExample();
  }

  lemma SpacedExample()
    ensures ReplaceChar("saturated_fat", '_', ' ') == "saturated fat"
  {
    var a, b := "saturated", "fat";
    assert "saturated_fat" == a + "_" + b;
    ReplaceCharAppend(a + "_", b, '_', ' ');
    ReplaceCharAppend(a, "_", '_', ' ');
    ReplaceCharAbsent(a, '_', ' ');
    ReplaceCharAbsent(b, '_', ' ');
  }

  lemma CapitalizedExample()
    ensures Capitalize("saturated fat") == "Saturated fat"
  {
    var s := "saturated fat";
    assert s[1..] == "aturated fat";
    LowerKeepsLower("aturated fat");
  }

  /** A value the check refuses: present and below zero. */
  predicate IsNegative(data: map<string, Option<real>>, f: string)
  {
    f in data && data[f].Some? && data[f].value < 0.0
  }

  /** The position of the first refused field of `fields`. */
  function FirstNegative(data: map<string, Option<real>>, fields: seq<string>): (k: Option<nat>)
    ensures k.None? <==> forall j :: 0 <= j < |fields| ==> !IsNegative(data, fields[j])
    ensures k.Some? ==> (k.value < |fields| && IsNegative(data, fields[k.value])
                         && forall j :: 0 <= j < k.value ==> !IsNegative(data, fields[j]))
  {
    if fields == [] then None
    else if IsNegative(data, fields[0]) then Some(0)
    else
      var rest := FirstNegative(data, fields[1..]);
      if rest.None? then None else Some(rest.value + 1)
  }

  lemma FirstNegativeAt(data: map<string, Option<real>>, fields: seq<string>, i: nat)
    requires i < |fields| && IsNegative(data, fields[i])
    requires forall j :: 0 <= j < i ==> !IsNegative(data, fields[j])
    ensures FirstNegative(data, fields) == Some(i)
  {
    var k := FirstNegative(data, fields);
    assert k.Some?;
    assert !(k.value < i) && !(i < k.value);
  }

  /** `clean`: walks the numeric fields and rejects the first negative one. */
  method Clean(data: map<string, Option<real>>) returns (r: Cleaned<map<string, Option<real>>>)
    ensures FirstNegative(data, NumericFields).None? ==> r == Accepted(data)
    ensures FirstNegative(data, NumericFields).Some? ==>
      var f := NumericFields[FirstNegative(data, NumericFields).value];
      r == Rejected(f, NegativeMessage(f))
  {
    var i := 0;
    while i < |NumericFields|
      invariant 0 <= i <= |NumericFields|
      invariant forall j :: 0 <= j < i ==> !IsNegative(data, NumericFields[j])
    {
      var field := NumericFields[i];
      var value := if field in data then data[field] else None;
      if value.Some? && value.value < 0.0 {
        FirstNegativeAt(data, NumericFields, i);
        return Rejected(field, NegativeMessage(field));
      }
      i := i + 1;
    }
    return Accepted(data);
  }

  /** Zero and missing values pass the check. */
  lemma ZeroAndMissingPass(data: map<string, Option<real>>)
    requires forall f :: f in data ==> data[f] == None || data[f] == Some(0.0)
    ensures FirstNegative(data, NumericFields).None?
  {
  }

  /** A single negative field is the one reported. */
  lemma OnlyNegativeReported(data: map<string, Option<real>>, k: nat)
    requires k < |NumericFields| && IsNegative(data, NumericFields[k])
    requires forall j :: 0 <= j < |NumericFields| && j != k ==> !IsNegative(data, NumericFields[j])
    ensures FirstNegative(data, NumericFields) == Some(k)
  {
  }

  // ---------------------------------------------------------------------
  // The form object
  // ---------------------------------------------------------------------

  /** Requiredness as the model form derives it: every field but the two
      blank-allowed quantity fields is required. */
  function ModelRequired(): (req: map<string, bool>)
    ensures forall f :: f in req <==> f in FormFields
  {
    map f | f in FormFields :: f != "quantity_amount" && f != "quantity_unit"
  }

  const EmptyUnitChoice: (string, string) := ("", "--- Select Unit ---")

  /** The blank choice a model form puts first for a choice field that
      allows blank, as `quantity_unit` does. */
  const ModelBlankChoice: (string, string) := ("", "---------")

  /** The unit field's own choices before the form adds its entry. */
  const ModelUnitChoices: seq<(string, string)> := [ModelBlankChoice] + QuantityUnits

  /** `for field in fields: self.fields[field].required = False`. */
  method MakeOptional(required: map<string, bool>, fields: seq<string>) returns (r: map<string, bool>)
    requires forall f :: f in fields ==> f in required
    ensures r.Keys == required.Keys
    ensures forall f :: f in r ==> r[f] == (f !in fields && required[f])
  {
    r := required;
    var i := 0;
    while i < |fields|
      invariant 0 <= i <= |fields|
      invariant r.Keys == required.Keys
      invariant forall f :: f in r ==> r[f] == (f !in fields[..i] && required[f])
    {
      assert fields[..i + 1] == fields[..i] + [fields[i]];
      r := r[fields[i] := false];
      i := i + 1;
    }
    assert fields[..i] == fields;
  }

  class FoodLogForm {
    var required: map<string, bool>
    var unitChoices: seq<(string, string)>
    var initialDate: Day

    /** `FoodLogForm(instance=...)`: the nutrient fields optional, an empty
        unit choice first, today's date for a new record and the stored
        date for an existing one. */
    constructor (instance: Option<FoodLog>, today: Day)
      ensures required.Keys == ModelRequired().Keys
      ensures forall f :: f in required ==> required[f] == (f !in OptionalFields && ModelRequired()[f])
      ensures unitChoices == [EmptyUnitChoice] + ModelUnitChoices
      ensures unitChoices[0] == EmptyUnitChoice && unitChoices[1] == ModelBlankChoice && unitChoices[2..] == QuantityUnits
      ensures initialDate == if instance.None? then today else instance.value.dateLogged
    {
      OptionalAreFormFields();
      var req := MakeOptional(ModelRequired(), OptionalFields);
      required := req;
      unitChoices := [EmptyUnitChoice] + ModelUnitChoices;
      initialDate := if instance.None? then today else instance.value.dateLogged;
    }
  }

  /** Only the food name, category and date stay required. */
  lemma RequiredFields(f: string)
    requires f in FormFields
    ensures (f !in OptionalFields && ModelRequired()[f]) <==> f == "food_name" || f == "category" || f == "date_logged"
  {
  }
}
