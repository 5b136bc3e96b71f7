/** The recipe page's logic: parsing the ingredient query, the search
    parameters, the image fallback, the nutrient-coverage score, the
    enrichment loop over smart suggestions, the stable descending sort and
    the final image filter with its cut to six entries. */
module Recipes {
  import opened Common
  import opened Records
  import opened Nutrition
  import opened ApiData

  /** At most this many recipes are shown per list. */
  const MaxShown: nat := 6

  // ---------------------------------------------------------------------
  // Ingredient parsing
  // ---------------------------------------------------------------------

  /** The non-empty strings of `ss`, in order. */
  function NonBlank(ss: seq<string>): (r: seq<string>)
    ensures |r| <= |ss|
    ensures forall x :: x in r <==> x in ss && x != []
  {
    if ss == [] then [] else (if ss[0] != [] then [ss[0]] else []) + NonBlank(ss[1..])
  }

  /** `[i.strip() for i in parts if i.strip()]`. */
  function CleanParts(parts: seq<string>): (r: seq<string>)
    ensures forall x :: x in r ==> x != [] && !IsSpace(x[0]) && !IsSpace(x[|x| - 1])
    ensures forall x :: x in r ==> exists k :: 0 <= k < |parts| && x == Strip(parts[k])
    ensures forall k :: 0 <= k < |parts| && Strip(parts[k]) != [] ==> Strip(parts[k]) in r
  {
    var ss := MapSeq(parts, Strip);
    assert forall x :: x in ss ==> exists k :: 0 <= k < |parts| && x == Strip(parts[k]);
    assert forall k :: 0 <= k < |parts| ==> Strip(parts[k]) in ss by {
      forall k | 0 <= k < |parts| ensures Strip(parts[k]) in ss { assert ss[k] == Strip(parts[k]); }
    }
    NonBlank(ss)
  }

  /** `NonBlank` keeps the order and every repeat of the strings it keeps:
      it works string by string. */
  lemma {:induction false} NonBlankAppend(a: seq<string>, b: seq<string>)
    ensures NonBlank(a + b) == NonBlank(a) + NonBlank(b)
  {
    if a == [] {
      assert a + b == b;
    } else {
      assert (a + b)[1..] == a[1..] + b;
      NonBlankAppend(a[1..], b);
    }
  }

  /** `CleanParts` works part by part: the entries of `a` come first, in
      order, each as often as it occurs ... */
  lemma CleanPartsAppend(a: seq<string>, b: seq<string>)
    ensures CleanParts(a + b) == CleanParts(a) + CleanParts(b)
  {
    MapSeqAppend(a, b, Strip);
    NonBlankAppend(MapSeq(a, Strip), MapSeq(b, Strip));
  }

  /** ... and one part gives its stripped form, or nothing when that is
      empty. */
  lemma CleanPartsOne(p: string)
    ensures CleanParts([p]) == if Strip(p) == [] then [] else [Strip(p)]
  {
    assert MapSeq([p], Strip) == [Strip(p)];
    assert [Strip(p)][1..] == [];
  }

  /** A repeated entry is sent twice: two parts that strip to the same
      text give that text two times. */
  lemma RepeatedEntriesKept(p: string, q: string)
    requires Strip(p) == Strip(q) && Strip(p) != []
    ensures CleanParts([p, q]) == [Strip(p), Strip(p)]
  {
    var t := Strip(p);
    var ss := MapSeq([p, q], Strip);
    assert ss == [t, t];
    assert ss[1..] == [t] && ss[1..][1..] == [];
    assert NonBlank(ss[1..]) == [t];
    assert NonBlank(ss) == [t, t];
    assert CleanParts([p, q]) == NonBlank(ss);
  }

  /** The query "egg, egg" splits into "egg" and " egg" and sends "egg,egg"'s
      two entries. */
  lemma RepeatedEggKept()
    ensures CleanParts(["egg", " egg"]) == ["egg", "egg"]
  {
    StripEgg();
    StripSpacedEgg();
    RepeatedEntriesKept("egg", " egg");
  }

  lemma StripEgg()
    ensures Strip("egg") == "egg"
  {
    assert LeadingSpaces("egg") == 0;
    assert TrailingSpaces("egg") == 0;
  }

  lemma StripSpacedEgg()
    ensures Strip(" egg") == "egg"
  {
    assert " egg"[1..] == "egg";
    assert LeadingSpaces("egg") == 0;
    assert LeadingSpaces(" egg") == 1;
    assert TrailingSpaces(" egg") == 0;
    assert " egg"[1..4] == "egg";
  }

  /** The ingredient list of the smart search: the comma-separated query
      entries, stripped and without blanks, when a query was typed, and
      the pantry item names otherwise. */
  function IngredientsList(query: string, pantryNames: seq<string>): (r: seq<string>)
    ensures query == "" ==> r == pantryNames
    ensures query != "" ==> forall x :: x in r ==> x != [] && ',' !in x && !IsSpace(x[0]) && !IsSpace(x[|x| - 1])
  {
    if query == "" then pantryNames
    else
      var parts := Split(query, ',');
      CleanPartsExclude(parts, ',');
      CleanParts(parts)
  }

  /** A non-space character that no part holds is in no cleaned part. */
  lemma CleanPartsExclude(parts: seq<string>, c: char)
    requires !IsSpace(c) && forall p :: p in parts ==> c !in p
    ensures forall x :: x in CleanParts(parts) ==> c !in x
  {
    forall x | x in CleanParts(parts) ensures c !in x {
      var k :| 0 <= k < |parts| && x == Strip(parts[k]);
      StripKeepsChars(parts[k], c);
    }
  }

  /** `",".join(ingredients_list)`. */
  function IngredientsParam(query: string, pantryNames: seq<string>): string
  {
    Join(IngredientsList(query, pantryNames), ',')
  }

  /** The joined query parameter splits back into exactly the parsed
      entries. */
  lemma IngredientsRoundTrip(query: string)
    requires query != "" && IngredientsList(query, []) != []
    ensures Split(IngredientsParam(query, []), ',') == IngredientsList(query, [])
  {
    SplitJoin(IngredientsList(query, []), ',');
  }

  /** Every non-blank query entry reaches the list, stripped. */
  lemma QueryEntriesKept(query: string, k: nat)
    requires query != "" && k < |Split(query, ',')| && Strip(Split(query, ',')[k]) != []
    ensures Strip(Split(query, ',')[k]) in IngredientsList(query, [])
  {
  }

  // ---------------------------------------------------------------------
  // General search parameters
  // ---------------------------------------------------------------------

  /** The general search runs only outside smart mode and with a query. */
  predicate GeneralSearchRuns(mode: Option<string>, query: string)
  {
    mode != Some("smart") && query != ""
  }

  /** The `complexSearch` parameters before filtering. */
  function SearchParams(query: string, diet: string, sort: string, maxTime: string, apiKey: string): seq<(string, string)>
  {
    [("query", query), ("diet", diet), ("sort", sort), ("maxReadyTime", maxTime),
     ("number", "6"), ("apiKey", apiKey)]
  }

  /** `{k: v for k, v in params.items() if v}`. */
  function NonEmptyParams(params: seq<(string, string)>): (r: seq<(string, string)>)
    ensures |r| <= |params|
    ensures forall p :: p in r <==> p in params && p.1 != ""
  {
    if params == [] then []
    else (if params[0].1 != "" then [params[0]] else []) + NonEmptyParams(params[1..])
  }

  /** A filled-in value is sent, an empty one is not, and the result count
      always is. */
  lemma SearchParamsSent(query: string, diet: string, sort: string, maxTime: string, apiKey: string)
    ensures ("number", "6") in NonEmptyParams(SearchParams(query, diet, sort, maxTime, apiKey))
    ensures ("query", query) in NonEmptyParams(SearchParams(query, diet, sort, maxTime, apiKey)) <==> query != ""
    ensures ("diet", diet) in NonEmptyParams(SearchParams(query, diet, sort, maxTime, apiKey)) <==> diet != ""
  {
    var params := SearchParams(query, diet, sort, maxTime, apiKey);
    assert params[0] == ("query", query) && params[1] == ("diet", diet) && params[4] == ("number", "6");
  }

  // ---------------------------------------------------------------------
  // Images
  // ---------------------------------------------------------------------

  /** `https://spoonacular.com/recipeImages/{id}-480x360.jpg`. */
  function FallbackImage(id: int): (url: string)
    ensures url != [] && url[0] == 'h'
  {
    "https://spoonacular.com/recipeImages/" + IntToString(id) + "-480x360.jpg"
  }

  lemma ImageHostSplits()
    ensures "https://spoonacular.com/recipeImages/" == "https://spoo" + "nacular.com/recipeImages/"
  {
  }

  lemma ImageTailHasNoN(digits: string)
    requires 'n' !in digits
    ensures 'n' !in ("nacular.com/recipeImages/" + digits + "-480x360.jpg")[1..]
  {
    var a, b := "acular.com/recipeImages/", "-480x360.jpg";
    assert "nacular.com/recipeImages/" == ['n'] + a;
    assert 'n' !in a && 'n' !in b;
    var t := a + digits + b;
    assert 'n' !in t;
    assert ['n'] + a + digits + b == ['n'] + t;
    assert (['n'] + t)[1..] == t;
  }

  lemma ImageWindow(digits: string)
    ensures ("nacular.com/recipeImages/" + digits + "-480x360.jpg")[..7] == "nacular"
  {
    assert ("nacular.com/recipeImages/" + digits + "-480x360.jpg")[..7] == "nacular.com/recipeImages/"[..7];
  }

  /** The fallback link never carries the "noimage" marker: its only 'n'
      starts "nacular". */
  lemma FallbackHasNoMarker(id: int)
    ensures !Contains(FallbackImage(id), "noimage")
  {
    var w := "noimage";
    var digits := IntToString(id);
    var rest := "nacular.com/recipeImages/" + digits + "-480x360.jpg";
    ImageHostSplits();
    assert FallbackImage(id) == "https://spoo" + rest;
    ImageWindow(digits);
    ImageTailHasNoN(digits);
    NotContainsWithoutFirst(rest[1..], w);
    ContainsDropPrefix("https://spoo", rest, w);
  }

  /** `ensure_working_image`: the recipe's own image when it is not blank,
      the fallback link otherwise. */
  function EnsureWorkingImage(image: Option<string>, id: int): (url: string)
    ensures image.Some? && Strip(image.value) != [] ==> url == image.value
    ensures !(image.Some? && Strip(image.value) != []) ==> url == FallbackImage(id)
    ensures Strip(url) != []
  {
    if image.Some? && Strip(image.value) != [] then image.value
    else
      var f := FallbackImage(id);
      assert !IsSpace(f[0]);
      f
  }

  /** An image that survives the final filter. */
  predicate Displayable(url: string)
  {
    url != [] && !Contains(url, "noimage")
  }

  /** After the fallback, a recipe is dropped exactly when its own
      non-blank image carries the "noimage" marker. */
  lemma WorkingImageDisplayable(image: Option<string>, id: int)
    ensures Displayable(EnsureWorkingImage(image, id)) <==>
      !(image.Some? && Strip(image.value) != [] && Contains(image.value, "noimage"))
  {
    FallbackHasNoMarker(id);
  }

  // ---------------------------------------------------------------------
  // Nutrient score
  // ---------------------------------------------------------------------

  /** Sum over the low nutrients of the recipe's amount divided by the
      daily target, a missing amount counting as 0. */
  function Coverage(low: seq<Nutrient>, table: map<string, real>): real
    requires forall n :: n in low ==> IsTarget(n)
  {
    if low == [] then 0.0
    else
      var n := low[|low| - 1];
      Coverage(low[..|low| - 1], table) + Lookup(table, FieldName(n)) / Target(n)
  }

  /** The rounded mean coverage in percent, and 0 without low nutrients. */
  function Score(low: seq<Nutrient>, table: map<string, real>): (s: int)
    requires forall n :: n in low ==> IsTarget(n)
    ensures low == [] ==> s == 0
    ensures low != [] ==> Coverage(low, table) / |low| as real * 100.0 - 0.5 <= s as real
                          <= Coverage(low, table) / |low| as real * 100.0 + 0.5
    ensures low != [] ==> var p := Coverage(low, table) / |low| as real * 100.0;
      (s as real == p - 0.5 || s as real == p + 0.5) ==> s % 2 == 0
  {
    if low == [] then 0 else RoundHalfEven(Coverage(low, table) / |low| as real * 100.0)
  }

  /** Each low nutrient covered between none and all of its target. */
  predicate WithinTargets(low: seq<Nutrient>, table: map<string, real>)
    requires forall n :: n in low ==> IsTarget(n)
  {
    forall n :: n in low ==> 0.0 <= Lookup(table, FieldName(n)) <= Target(n)
  }

  lemma {:induction false} CoverageBounds(low: seq<Nutrient>, table: map<string, real>)
    requires forall n :: n in low ==> IsTarget(n)
    requires WithinTargets(low, table)
    ensures 0.0 <= Coverage(low, table) <= |low| as real
  {
    if low != [] {
      var n := low[|low| - 1];
      assert forall m :: m in low[..|low| - 1] ==> m in low;
      CoverageBounds(low[..|low| - 1], table);
      RatioBounds(Lookup(table, FieldName(n)), Target(n));
    }
  }

  /** Amounts between none and the full target give a score from 0 to 100. */
  lemma ScoreBounds(low: seq<Nutrient>, table: map<string, real>)
    requires forall n :: n in low ==> IsTarget(n)
    requires WithinTargets(low, table)
    ensures 0 <= Score(low, table) <= 100
  {
    if low != [] {
      CoverageBounds(low, table);
      var c := Coverage(low, table);
      var k := |low| as real;
      assert 0.0 <= c / k <= 1.0 by { RatioBounds(c, k); }
    }
  }

  lemma {:induction false} CoverageOfNothing(low: seq<Nutrient>, table: map<string, real>)
    requires forall n :: n in low ==> IsTarget(n)
    requires forall n :: n in low ==> FieldName(n) !in table
    ensures Coverage(low, table) == 0.0
  {
    if low != [] {
      var prefix, n := low[..|low| - 1], low[|low| - 1];
      assert forall m :: m in prefix ==> m in low;
      CoverageOfNothing(prefix, table);
      var t := Target(n);
      assert Lookup(table, FieldName(n)) == 0.0;
      assert 0.0 / t == 0.0;
      assert Coverage(low, table) == Coverage(prefix, table) + 0.0 / t;
    }
  }

  /** A recipe carrying none of the low nutrients scores 0. */
  lemma NothingCoveredScoresZero(low: seq<Nutrient>, table: map<string, real>)
    requires forall n :: n in low ==> IsTarget(n)
    requires forall n :: n in low ==> FieldName(n) !in table
    ensures Score(low, table) == 0
  {
    CoverageOfNothing(low, table);
  }

  lemma {:induction false} CoverageOfAll(low: seq<Nutrient>, table: map<string, real>)
    requires forall n :: n in low ==> IsTarget(n)
    requires forall n :: n in low ==> Lookup(table, FieldName(n)) == Target(n)
    ensures Coverage(low, table) == |low| as real
  {
    if low != [] {
      var prefix, n := low[..|low| - 1], low[|low| - 1];
      assert forall m :: m in prefix ==> m in low;
      CoverageOfAll(prefix, table);
      WholeRatio(Target(n));
    }
  }

  /** A recipe meeting every low nutrient's target exactly scores 100. */
  lemma FullCoverageScoresHundred(low: seq<Nutrient>, table: map<string, real>)
    requires low != []
    requires forall n :: n in low ==> IsTarget(n)
    requires forall n :: n in low ==> Lookup(table, FieldName(n)) == Target(n)
    ensures Score(low, table) == 100
  {
    CoverageOfAll(low, table);
    MeanOfOnes(Coverage(low, table), |low| as real);
  }

  lemma MeanOfOnes(c: real, k: real)
    requires k > 0.0 && c == k
    ensures RoundHalfEven(c / k * 100.0) == 100
  {
    assert c / k == 1.0;
  }

  // ---------------------------------------------------------------------
  // Enrichment
  // ---------------------------------------------------------------------

  /** An enriched smart suggestion. */
  datatype Suggestion = Suggestion(
    id: int,
    title: string,
    image: string,
    sourceUrl: Option<string>,
    usedIngredientCount: int,
    missedIngredientCount: int,
    missedIngredients: seq<string>,
    score: int)

  /** `[d.lower() for d in diets]`. */
  function LowerAll(diets: seq<string>): (r: seq<string>)
    ensures |r| == |diets| && forall i :: 0 <= i < |diets| ==> r[i] == Lower(diets[i])
  {
    seq(|diets|, i requires 0 <= i < |diets| => Lower(diets[i]))
  }

  /** No diet chosen, or the recipe lists it (case-insensitively). */
  predicate DietOk(diet: string, diets: seq<string>)
  {
    diet == "" || Lower(diet) in LowerAll(diets)
  }

  /** The diet matches when none was chosen or when some listed diet
      agrees with it once both are lower-cased. */
  lemma DietOkMeans(diet: string, diets: seq<string>)
    ensures DietOk(diet, diets) <==> diet == "" || exists i :: 0 <= i < |diets| && Lower(diets[i]) == Lower(diet)
  {
    var ls := LowerAll(diets);
    if diet != "" && Lower(diet) in ls {
      var i :| 0 <= i < |ls| && ls[i] == Lower(diet);
      assert Lower(diets[i]) == Lower(diet);
    }
  }

  /** A candidate survives when its details came back and match the diet. */
  predicate Kept(c: (Recipe, Option<RecipeInfo>), diet: string)
  {
    c.1.Some? && DietOk(diet, c.1.value.diets)
  }

  /** The enriched form of one candidate: its own image, or the fallback
      when it has none; the details' source link; missing counts as 0 and
      missing ingredients as none; the score over the low nutrients. */
  function Enrich(r: Recipe, info: RecipeInfo, low: seq<Nutrient>): (s: Suggestion)
    requires forall n :: n in low ==> IsTarget(n)
    ensures s.id == r.id && s.image != []
    ensures s.score == Score(low, NutrientTable(info.nutrients))
  {
    Suggestion(
      r.id, r.title,
      if r.image.Some? && r.image.value != "" then r.image.value else FallbackImage(r.id),
      info.sourceUrl,
      r.usedIngredientCount.GetOr(0),
      r.missedIngredientCount.GetOr(0),
      r.missedIngredients.GetOr([]),
      Score(low, NutrientTable(info.nutrients)))
  }

  /** Reference result of the enrichment loop. */
  function Enriched(cands: seq<(Recipe, Option<RecipeInfo>)>, diet: string, low: seq<Nutrient>): seq<Suggestion>
    requires forall n :: n in low ==> IsTarget(n)
  {
    if cands == [] then []
    else
      var c := cands[|cands| - 1];
      Enriched(cands[..|cands| - 1], diet, low) + (if Kept(c, diet) then [Enrich(c.0, c.1.value, low)] else [])
  }

  /** The enrichment loop: each candidate paired with its details reply
      (`None` when the call failed). */
  method EnrichAll(cands: seq<(Recipe, Option<RecipeInfo>)>, diet: string, low: seq<Nutrient>) returns (enriched: seq<Suggestion>)
    requires forall n :: n in low ==> IsTarget(n)
    ensures enriched == Enriched(cands, diet, low)
  {
    enriched := [];
    var i := 0;
    while i < |cands|
      invariant 0 <= i <= |cands|
      invariant enriched == Enriched(cands[..i], diet, low)
    {
      assert cands[..i + 1][..i] == cands[..i];
      var (recipe, info) := cands[i];
      if info.None? {
        i := i + 1;
        continue;
      }
      var data := info.value;
      if diet != "" && Lower(diet) !in LowerAll(data.diets) {
        i := i + 1;
        continue;
      }
      enriched := enriched + [Enrich(recipe, data, low)];
      i := i + 1;
    }
    assert cands[..i] == cands;
  }

  /** Exactly the kept candidates are enriched. */
  lemma {:induction false} EnrichedMembers(cands: seq<(Recipe, Option<RecipeInfo>)>, diet: string, low: seq<Nutrient>)
    requires forall n :: n in low ==> IsTarget(n)
    ensures |Enriched(cands, diet, low)| <= |cands|
    ensures forall s :: s in Enriched(cands, diet, low) <==>
      exists k :: 0 <= k < |cands| && Kept(cands[k], diet) && s == Enrich(cands[k].0, cands[k].1.value, low)
  {
    if cands != [] {
      var prefix := cands[..|cands| - 1];
      EnrichedMembers(prefix, diet, low);
      assert forall k :: 0 <= k < |prefix| ==> prefix[k] == cands[k];
    }
  }

  // ---------------------------------------------------------------------
  // Stable descending sort
  // ---------------------------------------------------------------------

  /** Place `x` before the first element scoring no more than it. */
  function InsertByScore(x: Suggestion, t: seq<Suggestion>): seq<Suggestion>
  {
    if t == [] then [x]
    else if t[0].score <= x.score then [x] + t
    else [t[0]] + InsertByScore(x, t[1..])
  }

  /** `sorted(s, key=score, reverse=True)`, which keeps equal scores in
      input order. */
  function SortByScore(s: seq<Suggestion>): seq<Suggestion>
  {
    if s == [] then [] else InsertByScore(s[0], SortByScore(s[1..]))
  }

  ghost predicate SortedDesc(s: seq<Suggestion>)
  {
    forall i, j :: 0 <= i < j < |s| ==> s[i].score >= s[j].score
  }

  /** The suggestions with score `k`, in order. */
  function WithScore(s: seq<Suggestion>, k: int): seq<Suggestion>
  {
    if s == [] then [] else (if s[0].score == k then [s[0]] else []) + WithScore(s[1..], k)
  }

  lemma {:induction false} InsertKeepsSorted(x: Suggestion, t: seq<Suggestion>)
    requires SortedDesc(t)
    ensures SortedDesc(InsertByScore(x, t))
  {
    if t != [] && t[0].score > x.score {
      InsertKeepsSorted(x, t[1..]);
      InsertPermutes(x, t[1..]);
      var r := InsertByScore(x, t[1..]);
      assert InsertByScore(x, t) == [t[0]] + r;
      forall y | y in r ensures t[0].score >= y.score {
        assert y in multiset(r);
        if y != x {
          assert y in multiset(t[1..]);
          assert y in t[1..];
        }
      }
    }
  }

  lemma {:induction false} InsertPermutes(x: Suggestion, t: seq<Suggestion>)
    ensures multiset(InsertByScore(x, t)) == multiset(t) + multiset{x}
  {
    if t != [] && t[0].score > x.score {
      InsertPermutes(x, t[1..]);
      assert t == [t[0]] + t[1..];
    }
  }

  lemma {:induction false} InsertWithScore(x: Suggestion, t: seq<Suggestion>, k: int)
    requires SortedDesc(t)
    ensures WithScore(InsertByScore(x, t), k) == (if x.score == k then [x] else []) + WithScore(t, k)
  {
    if t != [] && t[0].score > x.score {
      var t' := t[1..];
      InsertWithScore(x, t', k);
      var r := [t[0]] + InsertByScore(x, t');
      assert r[1..] == InsertByScore(x, t');
    }
  }

  /** The sort orders by descending score and is a permutation. */
  lemma {:induction false} SortSortsAndPermutes(s: seq<Suggestion>)
    ensures SortedDesc(SortByScore(s))
    ensures multiset(SortByScore(s)) == multiset(s)
  {
    if s != [] {
      SortSortsAndPermutes(s[1..]);
      InsertKeepsSorted(s[0], SortByScore(s[1..]));
      InsertPermutes(s[0], SortByScore(s[1..]));
      assert s == [s[0]] + s[1..];
    }
  }

  /** Suggestions with equal scores keep their relative order. */
  lemma {:induction false} SortIsStable(s: seq<Suggestion>, k: int)
    ensures WithScore(SortByScore(s), k) == WithScore(s, k)
  {
    if s != [] {
      SortIsStable(s[1..], k);
      SortSortsAndPermutes(s[1..]);
      InsertWithScore(s[0], SortByScore(s[1..]), k);
    }
  }

  /** `s[:n]`. */
  function Take<T>(s: seq<T>, n: nat): (r: seq<T>)
    ensures |r| <= n && |r| <= |s|
    ensures |r| == if |s| <= n then |s| else n
    ensures r == s[..|r|]
    ensures |s| <= n ==> r == s
    ensures forall x :: x in r ==> x in s
  {
    if |s| <= n then s else s[..n]
  }

  // ---------------------------------------------------------------------
  // Final image pass
  // ---------------------------------------------------------------------

  function FixSuggestion(s: Suggestion): Suggestion
  {
    s.(image := EnsureWorkingImage(Some(s.image), s.id))
  }

  /** `[r for r in rs if r.get("image") and "noimage" not in r["image"]]`. */
  function ShownSuggestions(rs: seq<Suggestion>): (r: seq<Suggestion>)
    ensures forall x :: x in r <==> x in rs && Displayable(x.image)
  {
    if rs == [] then []
    else (if Displayable(rs[0].image) then [rs[0]] else []) + ShownSuggestions(rs[1..])
  }

  /** The image filter keeps the order and every repeat of what it keeps:
      it works suggestion by suggestion. */
  lemma {:induction false} ShownSuggestionsAppend(a: seq<Suggestion>, b: seq<Suggestion>)
    ensures ShownSuggestions(a + b) == ShownSuggestions(a) + ShownSuggestions(b)
  {
    if a == [] {
      assert a + b == b;
    } else {
      assert (a + b)[1..] == a[1..] + b;
      ShownSuggestionsAppend(a[1..], b);
    }
  }

  lemma ShownSuggestionsOne(x: Suggestion)
    ensures ShownSuggestions([x]) == if Displayable(x.image) then [x] else []
  {
    assert [x][1..] == [];
  }

  lemma {:induction false} WithScoreAppend(a: seq<Suggestion>, b: seq<Suggestion>, k: int)
    ensures WithScore(a + b, k) == WithScore(a, k) + WithScore(b, k)
  {
    if a == [] {
      assert a + b == b;
    } else {
      assert (a + b)[1..] == a[1..] + b;
      WithScoreAppend(a[1..], b, k);
    }
  }

  /** Fixing images keeps scores, so it commutes with picking a score. */
  lemma {:induction false} WithScoreFixed(s: seq<Suggestion>, k: int)
    ensures WithScore(MapSeq(s, FixSuggestion), k) == MapSeq(WithScore(s, k), FixSuggestion)
  {
    if s != [] {
      var x := s[0];
      var h := if x.score == k then [x] else [];
      assert s == [x] + s[1..];
      MapSeqAppend([x], s[1..], FixSuggestion);
      assert MapSeq([x], FixSuggestion) == [FixSuggestion(x)];
      assert FixSuggestion(x).score == x.score;
      WithScoreAppend([FixSuggestion(x)], MapSeq(s[1..], FixSuggestion), k);
      WithScoreFixed(s[1..], k);
      assert WithScore(s, k) == h + WithScore(s[1..], k);
      MapSeqAppend(h, WithScore(s[1..], k), FixSuggestion);
    }
  }

  /** The image filter commutes with picking a score. */
  lemma {:induction false} WithScoreShown(s: seq<Suggestion>, k: int)
    ensures WithScore(ShownSuggestions(s), k) == ShownSuggestions(WithScore(s, k))
  {
    if s != [] {
      var d := if Displayable(s[0].image) then [s[0]] else [];
      var h := if s[0].score == k then [s[0]] else [];
      assert ShownSuggestions(s) == d + ShownSuggestions(s[1..]);
      WithScoreAppend(d, ShownSuggestions(s[1..]), k);
      WithScoreShown(s[1..], k);
      assert WithScore(s, k) == h + WithScore(s[1..], k);
      ShownSuggestionsAppend(h, WithScore(s[1..], k));
      assert WithScore(d, k) == ShownSuggestions(h) by {
        if d != [] { assert d[1..] == []; }
        if h != [] { assert h[1..] == []; }
      }
    }
  }

  /** A cut keeps a prefix of the suggestions of each score. */
  lemma WithScoreTake(s: seq<Suggestion>, n: nat, k: int)
    ensures WithScore(Take(s, n), k) <= WithScore(s, k)
  {
    var t := Take(s, n);
    assert s == t + s[|t|..];
    WithScoreAppend(t, s[|t|..], k);
  }

  /** Reference result of the smart list: the six best scores, images
      fixed, undisplayable entries dropped, at most six kept. */
  function SmartSuggestions(enriched: seq<Suggestion>): seq<Suggestion>
  {
    var top := Take(SortByScore(enriched), MaxShown);
    Take(ShownSuggestions(MapSeq(top, FixSuggestion)), MaxShown)
  }

  /** The smart pipeline from the candidates to the shown list. */
  method SmartPipeline(cands: seq<(Recipe, Option<RecipeInfo>)>, diet: string, low: seq<Nutrient>) returns (smart: seq<Suggestion>)
    requires forall n :: n in low ==> IsTarget(n)
    ensures smart == SmartSuggestions(Enriched(cands, diet, low))
  {
    var enriched := EnrichAll(cands, diet, low);
    var top := Take(SortByScore(enriched), MaxShown);
    var fixed := UpdateEach(top, FixSuggestion);
    assert fixed == MapSeq(top, FixSuggestion);
    smart := Take(ShownSuggestions(fixed), MaxShown);
  }

  lemma {:induction false} ShownKeepsSorted(rs: seq<Suggestion>)
    requires SortedDesc(rs)
    ensures SortedDesc(ShownSuggestions(rs))
  {
    if rs != [] {
      ShownKeepsSorted(rs[1..]);
      var r := ShownSuggestions(rs[1..]);
      assert forall y :: y in r ==> y in rs[1..];
    }
  }

  /** The shown smart list has at most six entries, all displayable, in
      descending score order. */
  lemma SmartSuggestionsShape(enriched: seq<Suggestion>)
    ensures var r := SmartSuggestions(enriched);
      && |r| <= MaxShown
      && SortedDesc(r)
      && (forall x :: x in r ==> Displayable(x.image))
  {
    var sorted := SortByScore(enriched);
    SortSortsAndPermutes(enriched);
    var top := Take(sorted, MaxShown);
    var fixed := MapSeq(top, FixSuggestion);
    assert SortedDesc(fixed);
    ShownKeepsSorted(fixed);
  }

  /** Each shown smart suggestion is the image-fixed form of an enriched
      one. */
  lemma SmartSuggestionsFromEnriched(enriched: seq<Suggestion>)
    ensures forall x :: x in SmartSuggestions(enriched) ==> exists y :: y in enriched && x == FixSuggestion(y)
  {
    var top := Take(SortByScore(enriched), MaxShown);
    TopFromEnriched(enriched);
    var fixed := MapSeq(top, FixSuggestion);
    var shown := ShownSuggestions(fixed);
    var cut := Take(shown, MaxShown);
    assert SmartSuggestions(enriched) == cut;
    forall x | x in cut ensures exists y :: y in enriched && x == FixSuggestion(y)
    {
      assert x in shown;
      assert x in fixed;
      var i :| 0 <= i < |fixed| && fixed[i] == x;
      assert top[i] in top;
    }
  }

  /** Ties keep their order: the suggestions of each score in the shown
      list are, in order, the displayable image-fixed forms of a leading
      run of that score's enriched suggestions, as a stable sort and
      order-keeping filters give. */
  lemma SmartTiesKeepOrder(enriched: seq<Suggestion>, k: int)
    ensures exists m :: (0 <= m <= |WithScore(enriched, k)|
      && WithScore(SmartSuggestions(enriched), k) <= ShownSuggestions(MapSeq(WithScore(enriched, k)[..m], FixSuggestion)))
  {
    var sorted := SortByScore(enriched);
    SortIsStable(enriched, k);
    var w := WithScore(enriched, k);
    var top := Take(sorted, MaxShown);
    WithScoreTake(sorted, MaxShown, k);
    var m := |WithScore(top, k)|;
    assert WithScore(top, k) == w[..m];
    var fixed := MapSeq(top, FixSuggestion);
    WithScoreFixed(top, k);
    WithScoreShown(fixed, k);
    var shown := ShownSuggestions(fixed);
    WithScoreTake(shown, MaxShown, k);
    assert SmartSuggestions(enriched) == Take(shown, MaxShown);
  }

  /** The best six are enriched suggestions. */
  lemma TopFromEnriched(enriched: seq<Suggestion>)
    ensures forall y :: y in Take(SortByScore(enriched), MaxShown) ==> y in enriched
  {
    var sorted := SortByScore(enriched);
    SortSortsAndPermutes(enriched);
    forall y | y in Take(sorted, MaxShown) ensures y in enriched {
      assert y in sorted;
      assert y in multiset(sorted);
    }
  }

  // ---------------------------------------------------------------------
  // General search results
  // ---------------------------------------------------------------------

  function FixRecipe(r: Recipe): Recipe
  {
    r.(image := Some(EnsureWorkingImage(r.image, r.id)))
  }

  /** Results whose image is present and displayable. */
  function ShownRecipes(rs: seq<Recipe>): (r: seq<Recipe>)
    ensures forall x :: x in r <==> x in rs && x.image.Some? && Displayable(x.image.value)
  {
    if rs == [] then []
    else (if rs[0].image.Some? && Displayable(rs[0].image.value) then [rs[0]] else []) + ShownRecipes(rs[1..])
  }

  /** The result filter keeps the order and every repeat of what it keeps:
      it works result by result. */
  lemma {:induction false} ShownRecipesAppend(a: seq<Recipe>, b: seq<Recipe>)
    ensures ShownRecipes(a + b) == ShownRecipes(a) + ShownRecipes(b)
  {
    if a == [] {
      assert a + b == b;
    } else {
      assert (a + b)[1..] == a[1..] + b;
      ShownRecipesAppend(a[1..], b);
    }
  }

  lemma ShownRecipesOne(x: Recipe)
    ensures ShownRecipes([x]) == if x.image.Some? && Displayable(x.image.value) then [x] else []
  {
    assert [x][1..] == [];
  }

  /** The general result list: images fixed, undisplayable results
      dropped, at most six kept. */
  function GeneralShown(results: seq<Recipe>): seq<Recipe>
  {
    Take(ShownRecipes(MapSeq(results, FixRecipe)), MaxShown)
  }

  /** The general pass over the search results. */
  method GeneralPipeline(results: seq<Recipe>) returns (shown: seq<Recipe>)
    ensures shown == GeneralShown(results)
  {
    var fixed := UpdateEach(results, FixRecipe);
    assert fixed == MapSeq(results, FixRecipe);
    shown := Take(ShownRecipes(fixed), MaxShown);
  }

  /** The general list has at most six entries, each displayable and the
      image-fixed form of a search result. */
  lemma GeneralShownShape(results: seq<Recipe>)
    ensures var shown := GeneralShown(results);
      && |shown| <= MaxShown
      && (forall x :: x in shown ==> x.image.Some? && Displayable(x.image.value))
      && (forall x :: x in shown ==> exists y :: y in results && x == FixRecipe(y))
  {
    var fixed := MapSeq(results, FixRecipe);
    var shown := Take(ShownRecipes(fixed), MaxShown);
    assert GeneralShown(results) == shown;
    forall x | x in shown ensures exists y :: y in results && x == FixRecipe(y)
    {
      assert x in fixed;
      var k :| 0 <= k < |fixed| && fixed[k] == x;
      assert results[k] in results;
    }
  }

  /** The shown results are the first displayable ones in the order the
      search returned them: later results only fill remaining places, and
      once six earlier results are displayable, later ones change nothing. */
  lemma GeneralShownInApiOrder(a: seq<Recipe>, b: seq<Recipe>)
    ensures GeneralShown(a) <= GeneralShown(a + b)
    ensures |ShownRecipes(MapSeq(a, FixRecipe))| >= MaxShown ==> GeneralShown(a + b) == GeneralShown(a)
  {
    MapSeqAppend(a, b, FixRecipe);
    ShownRecipesAppend(MapSeq(a, FixRecipe), MapSeq(b, FixRecipe));
    var sa := ShownRecipes(MapSeq(a, FixRecipe));
    var sab := ShownRecipes(MapSeq(a + b, FixRecipe));
    assert sa <= sab;
  }

  /** Up to six results whose own images are not marked "noimage" are all
      shown. */
  lemma GeneralShownKeepsAll(results: seq<Recipe>)
    requires |results| <= MaxShown
    requires forall y :: y in results ==> !(y.image.Some? && Strip(y.image.value) != [] && Contains(y.image.value, "noimage"))
    ensures |GeneralShown(results)| == |results|
  {
    var fixed := MapSeq(results, FixRecipe);
    forall k | 0 <= k < |fixed| ensures fixed[k].image.Some? && Displayable(fixed[k].image.value)
    {
      WorkingImageDisplayable(results[k].image, results[k].id);
      assert results[k] in results;
    }
    AllShown(fixed);
  }

  lemma {:induction false} AllShown(rs: seq<Recipe>)
    requires forall k :: 0 <= k < |rs| ==> rs[k].image.Some? && Displayable(rs[k].image.value)
    ensures ShownRecipes(rs) == rs
  {
    if rs != [] {
      AllShown(rs[1..]);
    }
  }
}
