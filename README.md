# NourishMate tracker logic in Dafny

NourishMate is a Django application for logging food, supplements, a pantry,
a grocery list and saved recipes. This project models the logic under its
views, its food-log form, its two template filters and its record types,
and proves what that logic promises.

The database is a `Store` class. It holds one sequence per table in
insertion order, a counter that hands out primary keys, and a logical clock
that stands for the `auto_now_add` timestamps. Every view the model covers
that reads or changes the database is a method of that class; the views
left out are listed under "## Left out". The food-log
list's category filter and ordering are functions over a sequence of logs
in `FoodLogViews`. Each method's `ensures` gives its result and its whole
new state, table by table, in terms of reference functions. Lemmas prove
the promised properties about those functions.

The inputs are handled as follows:

- **Request values** are parameters. A missing query value is `None`.
- **Today** and its day of the month are parameters. Dates are integer day
  numbers, and the `%Y-%m-%d` parser is a function parameter.
- **Spoonacular replies** are inputs. A recipe-information or
  ingredient-nutrition reply that did not come back with status 200 is
  `None`. A failed `complexSearch` is an empty `general` result list, as the
  view then leaves its result list empty.
- **Nutrient amounts** are exact `real`s. The thresholds are exactly 0.8 and
  1.2 times the target.
- **Python's `round`** is modelled as round-half-to-even.

The model keeps the application's own scoping as written:

- Food logs belong to no user, so every user's logs are summed.
- The grocery list, its purchased toggle and its category update work on all
  items, not only the user's own.

The modules are:

- `common.dfy` (`Common`): Option, ASCII case mapping, strip over
  Python's whitespace set, split and
  join, decimal rendering, round-half-to-even, filtering and first-index
  search.
- `records.dfy` (`Records`): the five record kinds, their defaults and
  string forms.
- `nutrition.dfy` (`Nutrition`): the target table, supplement boosts, the
  totals loops, low list, averages, badges and deficiency table.
- `daterange.dfy` (`DateRange`): the summary's date range.
- `grocery.dfy` (`Grocery`): grouping by category.
- `apidata.dfy` (`ApiData`): payload shapes, nutrient-name normalisation,
  the ingredient-nutrition reply, and the recipe-details fetch.
- `recipes.dfy` (`Recipes`): ingredient parsing, search parameters, image
  fallback, score, enrichment, the stable sort, and the final filter and
  cut.
- `forms.py`'s logic in `forms.dfy` (`Forms`).
- The template filters in `filters.dfy` (`Filters`).
- The food-log list's ordering and the class views' success URLs in
  `foodlog.dfy` (`FoodLogViews`).
- The store and the views in `store.dfy` (`Store`).

Two documented promises hold only in part, and the model follows the code:

- **Pantry floor.** `decrease_quantity` subtracts 1 only when the quantity is
  above 1. So a quantity of at least 1 stays at least 1 only when it is a
  whole number: 1.5 becomes 0.5.
- **`percent` range.** The doc comment promises a result between 0 and 100.
  That holds only for a part of a positive total, because nothing clamps the
  result.

## Model

| member | source | states |
|---|---|---|
| Nutrition.TargetKeys | nourishmate/nourishmate/tracker/views.py:96-107 | the ten listed nutrients are exactly those with a daily target |
| Nutrition.TargetRank | nourishmate/nourishmate/tracker/views.py:96-107 | each target nutrient sits at its rank in the daily-target table |
| Nutrition.TargetNutrientsInOrder | nourishmate/nourishmate/tracker/views.py:96-107 | the daily-target table is in its own order, each nutrient once |
| Nutrition.ZeroTargets | nourishmate/nourishmate/tracker/views.py:109 | the totals start with exactly the target nutrients, each at 0 |
| Nutrition.AddLog | nourishmate/nourishmate/tracker/views.py:112-113 | one log adds its amount to every nutrient key and adds no key |
| Nutrition.AddFoodLogs | nourishmate/nourishmate/tracker/views.py:111-113 | after the loop each key holds its start value plus the nutrient's sum over the logs |
| Nutrition.AddSlotBoosts | nourishmate/nourishmate/tracker/views.py:120-122 | one marker adds its slot's boost to the keys already present and adds no key |
| Nutrition.AddBoosts | nourishmate/nourishmate/tracker/views.py:118-122 | after the loop each key holds its start value plus the nutrient's boost sum over the markers |
| Nutrition.DayTotals | nourishmate/nourishmate/tracker/views.py:109-122 | today's totals are keyed by the target nutrients, each the food sum plus the boost sum |
| Nutrition.BoostsAreTargets | nourishmate/nourishmate/tracker/views.py:45-60 | every boosted nutrient has a daily target, and every boost is positive |
| Nutrition.BoostTotalOnlyTargets | nourishmate/nourishmate/tracker/views.py:120-122 | a nutrient without a target never receives a boost |
| Nutrition.BoostTotalNonNegative | nourishmate/nourishmate/tracker/views.py:45-60 | boost sums are never negative |
| Nutrition.FoodTotalNonNegative | nourishmate/nourishmate/tracker/forms.py:120-123 | logs that passed the non-negative check sum to a non-negative total |
| Nutrition.LowAmong | nourishmate/nourishmate/tracker/views.py:124-127 | a nutrient is listed exactly when it is among the given ones and below 80% of its target (order and repeats: LowAmongAppend, LowAmongOne) |
| Nutrition.LowAmongAppend | nourishmate/nourishmate/tracker/views.py:124-127 | the low list of a + b is that of a followed by that of b, so the given order is kept |
| Nutrition.LowAmongOne | nourishmate/nourishmate/tracker/views.py:124-127 | one nutrient is listed exactly when its total is below 80% of its target |
| Nutrition.LowAmongInTargetOrder | nourishmate/nourishmate/tracker/views.py:124-127 | a list in table order gives a low list in table order |
| Nutrition.LowAmongNoRepeats | nourishmate/nourishmate/tracker/views.py:124-127 | a list without repeats gives a low list without repeats |
| Nutrition.LowNutrients | nourishmate/nourishmate/tracker/views.py:124-127 | a nutrient is low exactly when it has a target and its total is below 0.8 times that target, and the list is in DAILY_TARGETS order with each nutrient once |
| Nutrition.LowNutrientsNoRepeats | nourishmate/nourishmate/tracker/views.py:124-127 | each target nutrient is listed at most once |
| Nutrition.SumNutrients | nourishmate/nourishmate/tracker/views.py:701-721 | all eighteen nutrients are keyed, each with its sum over the logs |
| Nutrition.Averages | nourishmate/nourishmate/tracker/views.py:758-763 | averages are keyed by the target nutrients, each the total (0 when absent) spread over the days |
| Nutrition.PerDayTimesDays | nourishmate/nourishmate/tracker/views.py:761 | multiplying a per-day average by the day count gives the total back |
| Nutrition.BadgeFor | nourishmate/nourishmate/tracker/views.py:771-776 | Low exactly below 0.8t, High exactly above 1.2t, Good exactly in between |
| Nutrition.Badges | nourishmate/nourishmate/tracker/views.py:766-776 | every target nutrient present in the totals gets its one badge, and no other nutrient gets one |
| Nutrition.RoundTenth | nourishmate/nourishmate/tracker/views.py:784 | the result is a whole number of tenths within half a tenth of the average, the even number of tenths on a tie |
| Nutrition.RoundTenthUnique | nourishmate/nourishmate/tracker/views.py:784 | any whole number of tenths meeting those conditions is the result, so `round(avg, 1)` is fixed |
| Nutrition.Deficiencies | nourishmate/nourishmate/tracker/views.py:779-786 | exactly the target nutrients averaging below 80% are listed, with rounded average and target |
| DateRange.CustomRange | nourishmate/nourishmate/tracker/views.py:656-664 | a custom range exists exactly when both dates are given and both parse |
| DateRange.PresetRange | nourishmate/nourishmate/tracker/views.py:666-677 | every preset ends today with start no later than end; the day counts are 1, 30, the day of the month, and 7 |
| DateRange.SelectRange | nourishmate/nourishmate/tracker/views.py:656-677 | a parsed custom pair wins; otherwise the preset applies and spans 1 to 31 days ending today |
| DateRange.ReversedCustomRangeHasNoDays | nourishmate/nourishmate/tracker/views.py:758 | a custom end one day before the start gives a day count of 0 |
| DateRange.HalfCustomUsesPreset | nourishmate/nourishmate/tracker/views.py:659-671 | a single given date falls back to the preset |
| Grocery.CategoryOrderDistinct | nourishmate/nourishmate/tracker/views.py:30-42 | the category order has no repeated category |
| Grocery.Bucketed | nourishmate/nourishmate/tracker/views.py:298-300 | each category with items maps to its items in list order, and no other category is keyed |
| Grocery.InOrder | nourishmate/nourishmate/tracker/views.py:302-305 | the buckets are emitted along the given order, skipping categories without items |
| Grocery.GroupByCategory | nourishmate/nourishmate/tracker/views.py:297-305 | the grouping equals the reference grouping over the category order |
| Grocery.GroupsAreBuckets | nourishmate/nourishmate/tracker/views.py:298-305 | each group is the non-empty list of its own category's items, for a listed category |
| Grocery.GroupsInOrder | nourishmate/nourishmate/tracker/views.py:302-305 | groups appear in the order of the category list |
| Grocery.GroupingKeepsListedItems | nourishmate/nourishmate/tracker/views.py:298-305 | as a multiset, the groups hold exactly the items whose category is listed |
| Grocery.BucketKeepsAddedOrder | nourishmate/nourishmate/tracker/views.py:297-300 | items sorted by added-on stay sorted inside their group |
| ApiData.NormaliseName | nourishmate/nourishmate/tracker/views.py:878 | the name is lower-cased with spaces turned into underscores, character by character |
| ApiData.NormaliseIdempotent | nourishmate/nourishmate/tracker/views.py:878 | normalising twice is the same as normalising once |
| ApiData.FieldNamesAreNormalised | nourishmate/nourishmate/tracker/views.py:880-899 | every model field name is already normalised |
| ApiData.CarbohydratesNormalises | nourishmate/nourishmate/tracker/views.py:883 | "Carbohydrates" normalises to the key read for carbs |
| ApiData.VitaminB12Normalises | nourishmate/nourishmate/tracker/views.py:895 | "Vitamin B12" normalises to "vitamin_b12" |
| ApiData.LastEntryWins | nourishmate/nourishmate/tracker/views.py:878 | in the name table, the last entry with a given normalised name decides its amount |
| ApiData.MissingNameIsZero | nourishmate/nourishmate/tracker/views.py:880-899 | a name no entry carries reads as 0 |
| ApiData.IngredientNutrition | nourishmate/nourishmate/tracker/views.py:858-901 | 400 exactly when id, amount or unit is blank; otherwise 500 exactly when the call failed; otherwise all eighteen fields, each read from the table under its API name |
| ApiData.IngredientNutritionFields | nourishmate/nourishmate/tracker/views.py:880-899 | each field is the last matching entry's amount, or 0 when none matches |
| ApiData.CarbohydratesFillCarbs | nourishmate/nourishmate/tracker/views.py:883 | an entry named "Carbohydrates" fills the carbs field |
| ApiData.FetchRecipeDetails | nourishmate/nourishmate/tracker/views.py:903-915 | the payload's title (default "Unknown"), image and link, or "Unknown" with two empty links when the call failed |
| Common.FilterConcat | nourishmate/nourishmate/tracker/views.py:124-127 | filtering a + b is filtering a then b |
| Common.FilterKeepsRankOrder | nourishmate/nourishmate/tracker/views.py:124-127 | a filter keeps the relative order of what it keeps |
| Common.FilterKeepsDistinct | nourishmate/nourishmate/tracker/views.py:124-127 | a filter of a list without repeats has none |
| Common.MapSeqAppend | nourishmate/nourishmate/tracker/views.py:454 | mapping a + b is mapping a then b, element for element |
| Common.Strip | nourishmate/nourishmate/tracker/views.py:454 | a slice of the input with only whitespace cut from either end, empty exactly for all-whitespace input, otherwise starting and ending with a non-space |
| Recipes.NonBlank | nourishmate/nourishmate/tracker/views.py:454 | exactly the non-empty strings are kept (order and repeats: NonBlankAppend) |
| Recipes.NonBlankAppend | nourishmate/nourishmate/tracker/views.py:454 | the filter works string by string: filtering a + b is filtering a then b, so order and repeats are kept |
| Recipes.CleanParts | nourishmate/nourishmate/tracker/views.py:454 | every kept entry is a non-empty stripped part, and every non-empty stripped part is kept (order and repeats: CleanPartsAppend, CleanPartsOne) |
| Recipes.CleanPartsAppend | nourishmate/nourishmate/tracker/views.py:454 | the parts of a + b give the entries of a followed by those of b |
| Recipes.CleanPartsOne | nourishmate/nourishmate/tracker/views.py:454 | one part gives its stripped form once, or nothing when that is empty |
| Recipes.RepeatedEntriesKept | nourishmate/nourishmate/tracker/views.py:454 | two parts that strip to the same non-empty text give that text twice |
| Recipes.RepeatedEggKept | nourishmate/nourishmate/tracker/views.py:454 | the query parts "egg" and " egg" give the entries "egg", "egg" |
| Recipes.IngredientsList | nourishmate/nourishmate/tracker/views.py:452-457 | an empty query gives the pantry names; otherwise the entries are non-empty, trimmed and hold no comma |
| Recipes.CleanPartsExclude | nourishmate/nourishmate/tracker/views.py:454 | stripping introduces no character a part lacks |
| Recipes.IngredientsRoundTrip | nourishmate/nourishmate/tracker/views.py:454-459 | splitting the joined parameter on commas gives back exactly the parsed entries |
| Recipes.QueryEntriesKept | nourishmate/nourishmate/tracker/views.py:454 | every non-blank query entry reaches the list, stripped |
| Recipes.NonEmptyParams | nourishmate/nourishmate/tracker/views.py:438 | exactly the parameters with a non-empty value are kept |
| Recipes.SearchParamsSent | nourishmate/nourishmate/tracker/views.py:430-438 | the result count is always sent; query and diet are sent exactly when non-empty |
| Recipes.FallbackImage | nourishmate/nourishmate/tracker/views.py:494 | the fallback link is a non-blank address |
| Recipes.FallbackHasNoMarker | nourishmate/nourishmate/tracker/views.py:494 | the fallback link never contains "noimage" |
| Recipes.EnsureWorkingImage | nourishmate/nourishmate/tracker/views.py:490-495 | a non-blank own image is kept; otherwise the fallback is used; the result is never blank |
| Recipes.WorkingImageDisplayable | nourishmate/nourishmate/tracker/views.py:572-579 | after the fallback, a result is dropped exactly when its own non-blank image contains "noimage" |
| Recipes.Score | nourishmate/nourishmate/tracker/views.py:561-566 | 0 without low nutrients; otherwise the integer within 0.5 of 100 times the mean coverage, the even one on a tie |
| Recipes.CoverageBounds | nourishmate/nourishmate/tracker/views.py:561-564 | amounts between 0 and their targets give a coverage between 0 and the count of low nutrients |
| Recipes.ScoreBounds | nourishmate/nourishmate/tracker/views.py:561-566 | such amounts give a score from 0 to 100 |
| Recipes.CoverageOfNothing | nourishmate/nourishmate/tracker/views.py:561-564 | missing amounts count as 0, so a recipe with none of them has coverage 0 |
| Recipes.NothingCoveredScoresZero | nourishmate/nourishmate/tracker/views.py:556-566 | a recipe carrying none of the low nutrients scores 0 |
| Recipes.CoverageOfAll | nourishmate/nourishmate/tracker/views.py:561-564 | meeting each target exactly gives a coverage equal to the count |
| Recipes.FullCoverageScoresHundred | nourishmate/nourishmate/tracker/views.py:561-566 | meeting each target exactly scores 100 |
| Recipes.DietOkMeans | nourishmate/nourishmate/tracker/views.py:544 | a candidate's diets pass exactly when no diet was chosen or one listed diet equals it once both are lower-cased |
| Recipes.Enrich | nourishmate/nourishmate/tracker/views.py:547-566 | an enriched entry keeps its id, has a non-empty image, and carries the nutrient score of its details |
| Recipes.EnrichAll | nourishmate/nourishmate/tracker/views.py:532-568 | the loop's output is the reference enrichment of the candidates |
| Recipes.EnrichedMembers | nourishmate/nourishmate/tracker/views.py:534-568 | exactly the candidates with details and a matching diet are enriched, and no more of them than candidates |
| Recipes.SortSortsAndPermutes | nourishmate/nourishmate/tracker/views.py:570 | the sort yields descending scores and is a permutation |
| Recipes.SortIsStable | nourishmate/nourishmate/tracker/views.py:570 | entries with equal scores keep their input order |
| Recipes.Take | nourishmate/nourishmate/tracker/views.py:581-582 | the cut is the prefix of exactly min(n, length) entries |
| Recipes.ShownSuggestions | nourishmate/nourishmate/tracker/views.py:579 | exactly the suggestions with a displayable image are kept (order and repeats: ShownSuggestionsAppend, ShownSuggestionsOne) |
| Recipes.ShownSuggestionsAppend | nourishmate/nourishmate/tracker/views.py:579 | the filter works suggestion by suggestion: filtering a + b is filtering a then b |
| Recipes.ShownSuggestionsOne | nourishmate/nourishmate/tracker/views.py:579 | one suggestion is kept exactly when its image is displayable |
| Recipes.SmartPipeline | nourishmate/nourishmate/tracker/views.py:532-581 | the smart list is the reference list of the enriched candidates |
| Recipes.ShownKeepsSorted | nourishmate/nourishmate/tracker/views.py:579 | the image filter keeps descending order |
| Recipes.SmartSuggestionsShape | nourishmate/nourishmate/tracker/views.py:570-581 | at most six entries, all displayable, in descending score order (tie order: SmartTiesKeepOrder) |
| Recipes.SmartTiesKeepOrder | nourishmate/nourishmate/tracker/views.py:570-581 | for each score, the shown suggestions of that score are, in order, a prefix of the displayable image-fixed forms of a leading run of the enriched suggestions of that score: ties keep their input order |
| Recipes.SmartSuggestionsFromEnriched | nourishmate/nourishmate/tracker/views.py:570-581 | every shown entry is the image-fixed form of an enriched one |
| Recipes.TopFromEnriched | nourishmate/nourishmate/tracker/views.py:570 | the best six are enriched entries |
| Recipes.ShownRecipes | nourishmate/nourishmate/tracker/views.py:578 | exactly the results with a present, displayable image are kept (order and repeats: ShownRecipesAppend, ShownRecipesOne) |
| Recipes.ShownRecipesAppend | nourishmate/nourishmate/tracker/views.py:578 | the filter works result by result: filtering a + b is filtering a then b |
| Recipes.ShownRecipesOne | nourishmate/nourishmate/tracker/views.py:578 | one result is kept exactly when it has an image and that image is displayable |
| Recipes.GeneralPipeline | nourishmate/nourishmate/tracker/views.py:572-582 | the general list is the reference list of the search results |
| Recipes.GeneralShownShape | nourishmate/nourishmate/tracker/views.py:572-582 | at most six entries, each displayable and the image-fixed form of a search result (API order: GeneralShownInApiOrder) |
| Recipes.GeneralShownInApiOrder | nourishmate/nourishmate/tracker/views.py:572-582 | the shown list for results a is a prefix of the one for a + b, and equals it once a alone has six displayable fixed results: the first six displayable results in API order |
| Recipes.GeneralShownKeepsAll | nourishmate/nourishmate/tracker/views.py:572-582 | up to six results whose own images lack "noimage" are all shown |
| Recipes.AllShown | nourishmate/nourishmate/tracker/views.py:578 | a list whose images are all displayable passes the filter unchanged |
| Forms.OptionalAreNutrientFields | nourishmate/nourishmate/tracker/forms.py:81-86 | the optional fields are exactly the eighteen nutrient fields, in model order |
| Forms.NumericAreQuantityAndOptional | nourishmate/nourishmate/tracker/forms.py:114-118 | the checked fields are the quantity followed by the nutrient fields |
| Forms.OptionalAreFormFields | nourishmate/nourishmate/tracker/forms.py:23-47 | every optional field is a form field; they are the fields after the fifth |
| Forms.FutureDateMessageMentionsFuture | nourishmate/nourishmate/tracker/forms.py:106 | the rejection message mentions a future date |
| Forms.CleanDateLogged | nourishmate/nourishmate/tracker/forms.py:100-107 | rejected exactly for a date after today, with the future-date message; otherwise the date is kept |
| Forms.NegativeMessage | nourishmate/nourishmate/tracker/forms.py:123 | the field name with each underscore turned into a space, its first character upper-cased and the rest lower-cased, then " cannot be negative." |
| Forms.NegativeMessageExample | nourishmate/nourishmate/tracker/forms.py:123 | "saturated_fat" gives "Saturated fat cannot be negative." |
| Forms.SpacedExample | nourishmate/nourishmate/tracker/forms.py:123 | the underscore of "saturated_fat" becomes a space |
| Forms.CapitalizedExample | nourishmate/nourishmate/tracker/forms.py:123 | "saturated fat" capitalises to "Saturated fat" |
| Forms.FirstNegative | nourishmate/nourishmate/tracker/forms.py:120-123 | none exactly when no field is negative; otherwise the first negative field's position |
| Forms.FirstNegativeAt | nourishmate/nourishmate/tracker/forms.py:120-123 | a negative field preceded by none is the first |
| Forms.Clean | nourishmate/nourishmate/tracker/forms.py:109-125 | the data is accepted unchanged without a negative field; otherwise the first negative field is rejected with its message |
| Forms.ZeroAndMissingPass | nourishmate/nourishmate/tracker/forms.py:121-122 | zero and missing values pass |
| Forms.OnlyNegativeReported | nourishmate/nourishmate/tracker/forms.py:120-123 | a single negative field is the one reported |
| Forms.ModelRequired | nourishmate/nourishmate/tracker/models.py:36-61 | requiredness is given for exactly the form fields |
| Forms.MakeOptional | nourishmate/nourishmate/tracker/forms.py:87-88 | the listed fields become optional; every other field keeps its requiredness |
| Forms.FoodLogForm.constructor | nourishmate/nourishmate/tracker/forms.py:79-97 | the nutrient fields become optional; the unit choices are "--- Select Unit ---", then the field's own blank "---------" choice, then the seven units; and the initial date is today for a new record and the stored date otherwise |
| Forms.RequiredFields | nourishmate/nourishmate/tracker/forms.py:81-88 | only the food name, category and date stay required |
| Filters.GetItem | nourishmate/nourishmate/tracker/templatetags/custom_filters.py:10-17 | the stored value for a present key; 0 for a missing key or a non-dictionary |
| Filters.Percent | nourishmate/nourishmate/tracker/templatetags/custom_filters.py:20-33 | 0 for a failed conversion or a zero total; otherwise the integer within 0.5 of value/total×100, the even one on a tie |
| Filters.PercentOfPart | nourishmate/nourishmate/tracker/templatetags/custom_filters.py:23-31 | a part of a positive total gives 0 to 100 |
| Filters.PercentNotClamped | nourishmate/nourishmate/tracker/templatetags/custom_filters.py:31 | twice the total gives 200 |
| Filters.PercentRoundsHalfToEven | nourishmate/nourishmate/tracker/templatetags/custom_filters.py:31 | 12.5 rounds to 12 and 37.5 to 38 |
| Filters.PercentOfNegative | nourishmate/nourishmate/tracker/templatetags/custom_filters.py:28-31 | negative inputs are not guarded: -1 of 4 gives -25 |
| FoodLogViews.Ordering | nourishmate/nourishmate/tracker/views.py:160-172 | a known sort key selects its ordering; an unknown one falls back to newest first; none means date_desc |
| FoodLogViews.OrderingIsKnown | nourishmate/nourishmate/tracker/views.py:163-172 | every parameter yields one of the six orderings |
| FoodLogViews.FilterCategory | nourishmate/nourishmate/tracker/views.py:174-175 | an empty category keeps all logs; otherwise exactly those of that category |
| FoodLogViews.SuccessUrl | nourishmate/nourishmate/tracker/views.py:209-212 | the list path alone exactly for an empty query; otherwise the path, '?', and the query |
| FoodLogViews.SuccessUrlKeepsQuery | nourishmate/nourishmate/tracker/views.py:238-244 | distinct query strings give distinct addresses |
| Records.NewFoodLog | nourishmate/nourishmate/tracker/models.py:36-61 | every nutrient is 0, the category is "other", the date is today, and quantity and unit are empty |
| Records.FoodLog.Describe | nourishmate/nourishmate/tracker/models.py:63-64 | the string form starts with the food name and contains the unit |
| Records.GroceryItem.Describe | nourishmate/nourishmate/tracker/models.py:82-83 | the string form starts with the name and contains the quantity |
| Records.NewGroceryItem | nourishmate/nourishmate/tracker/models.py:71-80 | the category is "other" and the item is not purchased |
| Records.NewPantryItem | nourishmate/nourishmate/tracker/models.py:90-104 | the quantity is 1 and the unit is blank |
| Store.PantryNames | nourishmate/nourishmate/tracker/views.py:449-450 | exactly the names of the user's pantry items (order and repeats: PantryNamesAppend, PantryNamesOne) |
| Store.PantryNamesAppend | nourishmate/nourishmate/tracker/views.py:449-450 | the names for items a + b are those for a followed by those for b |
| Store.PantryNamesOne | nourishmate/nourishmate/tracker/views.py:449-450 | one item gives its name when it belongs to the user, and nothing otherwise |
| Store.PantryNamesKeepsRepeats | nourishmate/nourishmate/tracker/views.py:449-450 | two items of the user with one name give that name twice |
| Store.TakenSlots | nourishmate/nourishmate/tracker/views.py:115-119 | every slot is keyed, and a slot is taken exactly when some marker names it |
| Store.Remove | nourishmate/nourishmate/tracker/views.py:144-147 | the first marker equal to m is removed, as a multiset; without one nothing changes |
| Store.ToggledAt | nourishmate/nourishmate/tracker/views.py:144-149 | the toggle deletes at the lookup's index, or appends when the lookup finds nothing |
| Store.ToggleOthersUnchanged | nourishmate/nourishmate/tracker/views.py:138-151 | no other marker changes |
| Store.ToggleFlips | nourishmate/nourishmate/tracker/views.py:144-149 | the marker is present afterwards exactly when it was absent, and there stays at most one of each |
| Store.ToggleTwice | nourishmate/nourishmate/tracker/views.py:138-151 | two toggles give back the same markers, as a multiset |
| Store.Increased | nourishmate/nourishmate/tracker/views.py:394 | quantity plus exactly 1, nothing else changed |
| Store.Decreased | nourishmate/nourishmate/tracker/views.py:404-406 | quantity minus 1 only when above 1, otherwise unchanged; nothing else changed |
| Store.DecreaseUndoesIncrease | nourishmate/nourishmate/tracker/views.py:391-407 | decreasing undoes an increase of a positive quantity |
| Store.WholeQuantityStaysAtLeastOne | nourishmate/nourishmate/tracker/views.py:404-406 | a whole quantity of at least 1 never drops below 1 |
| Store.FractionalQuantityDropsBelowOne | nourishmate/nourishmate/tracker/views.py:404-406 | 1.5 drops to 0.5 |
| Store.DecreaseStaysPositive | nourishmate/nourishmate/tracker/views.py:404-406 | a positive quantity stays positive |
| Store.Flipped | nourishmate/nourishmate/tracker/views.py:317 | the purchased flag is inverted and nothing else changed |
| Store.Batch | nourishmate/nourishmate/tracker/views.py:270-276 | one record per index up to the shortest list, with its name, quantity and user; an empty category becomes "other"; ids and stamps are consecutive |
| Store.BatchCategoriesFilled | nourishmate/nourishmate/tracker/views.py:275 | no created record has an empty category |
| Store.BatchOfTwo | nourishmate/nourishmate/tracker/views.py:270-276 | two items, the second with an empty category, give "dairy" and "other" |
| Store.AppendNewest | nourishmate/nourishmate/tracker/models.py:79 | appending a record stamped with the next id and time keeps ids and stamps increasing |
| Store.SummaryTables | nourishmate/nourishmate/tracker/views.py:758-786 | the averages, badges and deficiency tables hold what their loops define |
| Store.Store.constructor | nourishmate/nourishmate/tracker/models.py:138-139 | the database starts with every table empty and satisfies the table invariants |
| Store.Store.Home | nourishmate/nourishmate/tracker/views.py:88-134 | today's target totals are food plus boosts, and the low list is exactly the targets under 80%; the keys of `taken` are the three slots and every slot named by one of today's markers, and a key is True exactly when some marker of today names it |
| Store.Store.ToggleSupplement | nourishmate/nourishmate/tracker/views.py:138-151 | an unknown slot changes nothing; otherwise the user's marker for today is toggled; no other table changes |
| Store.Store.ToggleSupplementTwice | nourishmate/nourishmate/tracker/views.py:138-151 | two toggles give back the same markers, as a multiset, and no other table, key counter or clock changes |
| Store.Store.IncreaseQuantity | nourishmate/nourishmate/tracker/views.py:391-396 | the user's item with that key gains 1, or a 404 for a missing or foreign item; nothing else changes |
| Store.Store.DecreaseQuantity | nourishmate/nourishmate/tracker/views.py:401-407 | the user's item loses 1 only when above 1, or a 404; nothing else changes |
| Store.Store.GroceryList | nourishmate/nourishmate/tracker/views.py:293-310 | the items grouped along the category order, each group in added-on order |
| Store.Store.TogglePurchased | nourishmate/nourishmate/tracker/views.py:314-319 | the item with that id is flipped, or a 404; nothing else changes |
| Store.Store.TogglePurchasedTwice | nourishmate/nourishmate/tracker/views.py:314-319 | two toggles restore the grocery list, and no other table, key counter or clock changes |
| Store.Store.UpdateGroceryCategory | nourishmate/nourishmate/tracker/views.py:331-339 | on a POST with a non-empty category the item takes it; otherwise nothing changes |
| Store.Store.AddToGroceryList | nourishmate/nourishmate/tracker/views.py:249-284 | a POST appends exactly the batch, then answers with JSON or a redirect to next (default "/grocery/"); any other method is a bad request with no change |
| Store.Store.SaveRecipe | nourishmate/nourishmate/tracker/views.py:919-934 | an existing (user, id) is left as it is; missing image or link is an integrity error with no change; otherwise one record is appended and the id and clock counters advance by one |
| Store.Store.SaveRecipeTwice | nourishmate/nourishmate/tracker/views.py:926-934 | the second save answers AlreadySaved; the recipes table is only what the first save made it (unchanged, or one record appended), the counters advance only on a first save, and the other tables do not change |
| Store.TargetTotalsUnique | nourishmate/nourishmate/tracker/views.py:474-486 | today's target totals are fixed by the logs and markers they sum |
| Store.Store.RangeTotals | nourishmate/nourishmate/tracker/views.py:679-754 | all eighteen range totals, each the food sum plus the boost sum over the range |
| Store.Store.TodayTotals | nourishmate/nourishmate/tracker/views.py:726-741 | today's target totals are food plus boosts |
| Store.Store.NutritionSummary | nourishmate/nourishmate/tracker/views.py:647-822 | division by zero exactly for a range of no day; otherwise the range's totals, today's totals and lows, averages, badges and deficiencies as their loops define |
| Store.Store.RecipePageFor | nourishmate/nourishmate/tracker/views.py:412-596 | the ingredient parameter, the low list exactly as the dashboard computes it from today's totals, the general list only outside smart mode with a query, and the smart list only in smart mode |
| Store.RangeTotalSplits | nourishmate/nourishmate/tracker/views.py:679 | a range's food total is the total without its last day plus that day's total |
| Store.OneDayDeficientIsLow | nourishmate/nourishmate/tracker/views.py:758-786 | on a one-day range, deficient exactly when the badge is Low |

## Left out

- HTTP, rendering and routing: `render`, `redirect`, the login and POST-only decorators (a 405 is not modelled), `urls.py` and `admin.py`. Each view is a method called with the signed-in user's id.
- The Spoonacular calls themselves: their replies are inputs. In smart mode the first `findByIngredients` request is duplicated by a second one. The model takes whichever result list reaches the enrichment loop as the `cands` input.
- `recipe_search`: it calls `os.getenv` without importing `os`, so its search path cannot run.
- `ingredient_autocomplete`: it only reshapes the reply.
- JSON decoding, and the exception branch of `add_to_grocery_list`. The content type is the `isJson` input.
- The food-log list's pagination, the ORM's sorting by the selected ordering, and its POST branch that saves a new log. The model covers the ordering name and the category filter.
- Deleting food logs, grocery items, pantry items and saved recipes; the pantry list, add and edit views; the saved-recipe list; registration and logout: each is a single ORM call or form save with no logic of its own.
- The string forms of `PantryItem`, `SupplementLog` and `SavedRecipe`: plain formatting. The textual forms of a float and of a date inside `FoodLog.__str__` are parameters.
- Widgets, labels, the nutrient display names and the diet list sent to the template: presentation only.
- IEEE floating point: amounts are exact reals, so NaN, infinities and rounding error are outside the model.
- Filters.Percent: Python's `float()` conversion is the `Option<real>` input, so which strings convert is not modelled.
- Case mapping covers ASCII only: `lower` and `capitalize` change only the letters A to Z and a to z. `strip` uses Python's full `str.isspace` set.
- Time: `localdate()`, `date.today()` and `timezone.now` are the `today` parameter. `auto_now_add` stamps are ticks of a logical clock. `strptime` is the `parse` parameter.
- Store.Store.UpdateGroceryCategory: the new category is not checked against the choices, as in the code.
- Store.Store.SaveRecipe: a missing image or source link stands for the database's NOT NULL failure (`IntegrityError`). Other database errors are not modelled.
- Access control: food logs and grocery items are not scoped by user, as in the code.
