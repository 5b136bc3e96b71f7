/** The database as an in-memory store, and the views that read or change
    it: the dashboard, the supplement toggle, the pantry quantity buttons,
    the grocery list and its updates, saving a recipe, the nutrition
    summary and the recipe page. Tables are sequences in insertion order;
    `nextId` hands out primary keys and `clock` stands for the
    `auto_now_add` timestamps. */
module Store {
  import opened Common
  import opened Records
  import opened Nutrition
  import opened Grocery
  import opened Recipes
  import DateRange
  import ApiData

  // ---------------------------------------------------------------------
  // Queries
  // ---------------------------------------------------------------------

  /** `FoodLog.objects.filter(date_logged__range=[start, end])`; food logs
      belong to nobody, so every user's logs are read. */
  function LogsIn(logs: seq<FoodLog>, r: DateRange.Range): seq<FoodLog>
  {
    Filter(logs, (l: FoodLog) => r.Contains(l.dateLogged))
  }

  /** `SupplementLog.objects.filter(user=user, date__range=[start, end])`. */
  function MarkersIn(sups: seq<SupplementLog>, user: UserId, r: DateRange.Range): seq<SupplementLog>
  {
    Filter(sups, (m: SupplementLog) => m.user == user && r.Contains(m.date))
  }

  function OneDay(d: Day): DateRange.Range { DateRange.Range(d, d) }

  /** `[item.name for item in PantryItem.objects.filter(user=user)]`. */
  function PantryNames(items: seq<PantryItem>, user: UserId): (names: seq<string>)
    ensures forall i :: 0 <= i < |items| && items[i].user == user ==> items[i].name in names
    ensures forall x :: x in names ==> exists i :: 0 <= i < |items| && items[i].user == user && items[i].name == x
  {
    if items == [] then []
    else
      var rest := PantryNames(items[..|items| - 1], user);
      var last := items[|items| - 1];
      assert forall i :: 0 <= i < |items| - 1 ==> items[..|items| - 1][i] == items[i];
      rest + (if last.user == user then [last.name] else [])
  }

  /** The names follow the items' order and keep every repeat: the list
      is built item by item. */
  lemma {:induction false} PantryNamesAppend(a: seq<PantryItem>, b: seq<PantryItem>, user: UserId)
    ensures PantryNames(a + b, user) == PantryNames(a, user) + PantryNames(b, user)
  {
    if b == [] {
      assert a + b == a;
    } else {
      var front := b[..|b| - 1];
      assert (a + b)[..|a + b| - 1] == a + front;
      assert (a + b)[|a + b| - 1] == b[|b| - 1];
      PantryNamesAppend(a, front, user);
    }
  }

  lemma PantryNamesOne(item: PantryItem, user: UserId)
    ensures PantryNames([item], user) == if item.user == user then [item.name] else []
  {
    assert [item][..0] == [];
  }

  /** Two pantry items with one name give that name twice. */
  lemma PantryNamesKeepsRepeats(p: PantryItem, q: PantryItem)
    requires p.user == q.user && p.name == q.name
    ensures PantryNames([p, q], p.user) == [p.name, p.name]
  {
    assert [p, q] == [p] + [q];
    PantryNamesAppend([p], [q], p.user);
    PantryNamesOne(p, p.user);
    PantryNamesOne(q, p.user);
  }

  /** The `taken` dictionary of the dashboard: every slot starts untaken and
      each of today's markers sets its own slot. */
  method TakenSlots(marks: seq<SupplementLog>) returns (taken: map<string, bool>)
    ensures forall s :: s in taken <==> s in TimeSlots || exists i :: 0 <= i < |marks| && marks[i].timeOfDay == s
    ensures forall s :: s in taken ==> (taken[s] <==> exists i :: 0 <= i < |marks| && marks[i].timeOfDay == s)
  {
    taken := map s | s in TimeSlots :: false;
    var i := 0;
    while i < |marks|
      invariant 0 <= i <= |marks|
      invariant forall s :: s in taken <==> s in TimeSlots || exists k :: 0 <= k < i && marks[k].timeOfDay == s
      invariant forall s :: s in taken ==> (taken[s] <==> exists k :: 0 <= k < i && marks[k].timeOfDay == s)
    {
      taken := taken[marks[i].timeOfDay := true];
      i := i + 1;
    }
  }

  // ---------------------------------------------------------------------
  // Supplement markers
  // ---------------------------------------------------------------------

  function IsMarker(m: SupplementLog): SupplementLog -> bool
  {
    (x: SupplementLog) => x == m
  }

  /** `logs` without the first occurrence of `m`. */
  function Remove(logs: seq<SupplementLog>, m: SupplementLog): (r: seq<SupplementLog>)
    ensures multiset(r) == multiset(logs) - multiset{m}
    ensures m !in logs ==> r == logs
  {
    var i := FirstIndex(logs, IsMarker(m));
    if i < 0 then
      assert m !in logs by {
        forall j | 0 <= j < |logs| ensures logs[j] != m { assert !IsMarker(m)(logs[j]); }
      }
      logs
    else
      assert IsMarker(m)(logs[i]);
      assert logs == logs[..i] + [logs[i]] + logs[i + 1..];
      logs[..i] + logs[i + 1..]
  }

  /** The marker table after toggling `m`: deleted when present, added
      when absent. */
  function Toggled(logs: seq<SupplementLog>, m: SupplementLog): seq<SupplementLog>
  {
    if m in logs then Remove(logs, m) else logs + [m]
  }

  /** Removing cuts the marker out at the lookup's index. */
  lemma RemoveAt(logs: seq<SupplementLog>, m: SupplementLog, i: int)
    requires 0 <= i && i == FirstIndex(logs, IsMarker(m))
    ensures Remove(logs, m) == logs[..i] + logs[i + 1..]
  {
  }

  /** The toggle in terms of the lookup's index. */
  lemma ToggledAt(logs: seq<SupplementLog>, m: SupplementLog, i: int)
    requires i == FirstIndex(logs, IsMarker(m))
    ensures 0 <= i ==> i < |logs| && Toggled(logs, m) == logs[..i] + logs[i + 1..]
    ensures i < 0 ==> Toggled(logs, m) == logs + [m]
  {
    if i >= 0 {
      assert IsMarker(m)(logs[i]);
      assert m in logs;
      RemoveAt(logs, m, i);
    } else {
      assert m !in logs by {
        forall j | 0 <= j < |logs| ensures logs[j] != m { assert !IsMarker(m)(logs[j]); }
      }
    }
  }

  /** At most one marker per (user, day, slot). */
  ghost predicate NoDuplicates(logs: seq<SupplementLog>)
  {
    forall x :: multiset(logs)[x] <= 1
  }

  /** No other marker changes. */
  lemma ToggleOthersUnchanged(logs: seq<SupplementLog>, m: SupplementLog, x: SupplementLog)
    requires x != m
    ensures multiset(Toggled(logs, m))[x] == multiset(logs)[x]
  {
  }

  /** A toggle flips whether the marker is present. */
  lemma ToggleFlips(logs: seq<SupplementLog>, m: SupplementLog)
    requires NoDuplicates(logs)
    ensures m in Toggled(logs, m) <==> m !in logs
    ensures NoDuplicates(Toggled(logs, m))
  {
    if m in logs {
      assert multiset(Toggled(logs, m))[m] == 0;
    } else {
      assert multiset(logs + [m]) == multiset(logs) + multiset{m};
    }
  }

  /** Two toggles restore the original set of markers. */
  lemma ToggleTwice(logs: seq<SupplementLog>, m: SupplementLog)
    requires NoDuplicates(logs)
    ensures multiset(Toggled(Toggled(logs, m), m)) == multiset(logs)
  {
    ToggleFlips(logs, m);
    if m in logs {
      var t := Remove(logs, m);
      assert multiset(t + [m]) == multiset(t) + multiset{m};
    } else {
      assert multiset(logs + [m]) == multiset(logs) + multiset{m};
    }
  }

  // ---------------------------------------------------------------------
  // Pantry and grocery records
  // ---------------------------------------------------------------------

  /** `get_object_or_404(PantryItem, pk=pk, user=user)`'s condition. */
  function OwnedBy(pk: nat, user: UserId): PantryItem -> bool
  {
    (p: PantryItem) => p.id == pk && p.user == user
  }

  /** `item.quantity += 1`. */
  function Increased(p: PantryItem): (q: PantryItem)
    ensures q.quantity == p.quantity + 1.0
    ensures q.(quantity := p.quantity) == p
  {
    p.(quantity := p.quantity + 1.0)
  }

  /** `if item.quantity > 1: item.quantity -= 1`. */
  function Decreased(p: PantryItem): (q: PantryItem)
    ensures p.quantity > 1.0 ==> q.quantity == p.quantity - 1.0
    ensures p.quantity <= 1.0 ==> q == p
    ensures q.(quantity := p.quantity) == p
  {
    if p.quantity > 1.0 then p.(quantity := p.quantity - 1.0) else p
  }

  /** Decreasing undoes an increase of a positive quantity. */
  lemma DecreaseUndoesIncrease(p: PantryItem)
    requires p.quantity > 0.0
    ensures Decreased(Increased(p)) == p
  {
  }

  /** A whole quantity of at least 1 never drops below 1. */
  lemma WholeQuantityStaysAtLeastOne(p: PantryItem)
    requires p.quantity >= 1.0 && p.quantity == p.quantity.Floor as real
    ensures Decreased(p).quantity >= 1.0
  {
    if p.quantity > 1.0 {
      assert p.quantity.Floor >= 2;
    }
  }

  /** A fractional quantity above 1 does drop below 1. */
  lemma FractionalQuantityDropsBelowOne(p: PantryItem)
    requires p.quantity == 1.5
    ensures Decreased(p).quantity == 0.5
  {
  }

  /** A positive quantity stays positive. */
  lemma DecreaseStaysPositive(p: PantryItem)
    requires p.quantity > 0.0
    ensures Decreased(p).quantity > 0.0
  {
  }

  /** `get_object_or_404(GroceryItem, id=item_id)`'s condition. */
  function HasId(id: nat): GroceryItem -> bool
  {
    (g: GroceryItem) => g.id == id
  }

  /** `item.purchased = not item.purchased`. */
  function Flipped(g: GroceryItem): (h: GroceryItem)
    ensures h.purchased != g.purchased
    ensures h.(purchased := g.purchased) == g
  {
    g.(purchased := !g.purchased)
  }

  /** The records `add_to_grocery_list` creates: one per index up to the
      shortest of the three lists, an empty category becoming "other". */
  function Batch(user: UserId, names: seq<string>, qtys: seq<string>, cats: seq<string>,
                 firstId: nat, firstTick: int): (r: seq<GroceryItem>)
    ensures |r| == Min(Min(|names|, |qtys|), |cats|)
    ensures forall i :: 0 <= i < |r| ==>
      r[i].name == names[i] && r[i].quantity == qtys[i] && r[i].user == Some(user) && !r[i].purchased
      && r[i].category == (if cats[i] == "" then DefaultCategory else cats[i])
      && r[i].id == firstId + i && r[i].addedOn == firstTick + i
  {
    var n := Min(Min(|names|, |qtys|), |cats|);
    seq(n, i requires 0 <= i < n =>
      GroceryItem(firstId + i, Some(user), names[i], qtys[i],
                  if cats[i] == "" then DefaultCategory else cats[i], firstTick + i, false))
  }

  /** No created record has an empty category. */
  lemma BatchCategoriesFilled(user: UserId, names: seq<string>, qtys: seq<string>, cats: seq<string>, firstId: nat, firstTick: int)
    ensures forall x :: x in Batch(user, names, qtys, cats, firstId, firstTick) ==> x.category != ""
  {
  }

  /** Two names, two quantities and two categories, the second empty. */
  lemma BatchOfTwo(user: UserId, firstId: nat, firstTick: int)
    ensures var r := Batch(user, ["Eggs", "Milk"], ["12", "1L"], ["dairy", ""], firstId, firstTick);
      |r| == 2 && r[0].category == "dairy" && r[1].category == "other"
  {
  }

  /** Grocery ids and `added_on` stamps grow along the list and stay
      below the next id and the current time. */
  ghost predicate GroceriesInOrder(items: seq<GroceryItem>, nextId: nat, clock: int)
  {
    (forall i :: 0 <= i < |items| ==> items[i].id < nextId && items[i].addedOn < clock)
    && (forall i, j :: 0 <= i < j < |items| ==> items[i].id < items[j].id && items[i].addedOn < items[j].addedOn)
  }

  /** Appending an item stamped with the next id and the current time keeps
      the order. */
  lemma AppendNewest(items: seq<GroceryItem>, item: GroceryItem, nextId: nat, clock: int)
    requires GroceriesInOrder(items, nextId, clock)
    requires item.id == nextId && item.addedOn == clock
    ensures GroceriesInOrder(items + [item], nextId + 1, clock + 1)
  {
  }

  /** A recipe with the same owner and Spoonacular id. */
  function SameRecipe(user: UserId, sid: string): SavedRecipe -> bool
  {
    (s: SavedRecipe) => s.user == user && s.spoonacularId == sid
  }

  // ---------------------------------------------------------------------
  // What the summary tables hold
  // ---------------------------------------------------------------------

  /** All eighteen totals: food logs plus supplement boosts. */
  ghost predicate IsTotals(totals: map<Nutrient, real>, logs: seq<FoodLog>, sups: seq<SupplementLog>)
  {
    forall n :: n in totals && totals[n] == FoodTotal(logs, n) + BoostTotal(sups, n)
  }

  /** The target nutrients' totals, and no other nutrient. */
  ghost predicate IsTargetTotals(totals: map<Nutrient, real>, logs: seq<FoodLog>, sups: seq<SupplementLog>)
  {
    (forall n :: n in totals <==> IsTarget(n))
    && forall n :: n in totals ==> totals[n] == FoodTotal(logs, n) + BoostTotal(sups, n)
  }

  /** Today's target totals as a value: each target nutrient's food sum
      plus its boost sum. */
  function TargetTotals(logs: seq<FoodLog>, sups: seq<SupplementLog>): (t: map<Nutrient, real>)
    ensures IsTargetTotals(t, logs, sups) && HasAllTargets(t)
  {
    TargetKeys();
    map n | n in TargetNutrients :: FoodTotal(logs, n) + BoostTotal(sups, n)
  }

  /** Target totals are fixed by the logs and markers they sum. */
  lemma TargetTotalsUnique(t: map<Nutrient, real>, logs: seq<FoodLog>, sups: seq<SupplementLog>)
    requires IsTargetTotals(t, logs, sups)
    ensures t == TargetTotals(logs, sups)
  {
    var u := TargetTotals(logs, sups);
    assert IsTargetTotals(u, logs, sups);
    assert t.Keys == u.Keys by {
      forall n ensures n in t <==> n in u { assert n in t <==> IsTarget(n); }
    }
    forall n | n in t ensures t[n] == u[n] {
      assert t[n] == FoodTotal(logs, n) + BoostTotal(sups, n);
    }
  }

  /** The per-day averages of the target nutrients. */
  ghost predicate IsAverages(avg: map<Nutrient, real>, totals: map<Nutrient, real>, days: int)
  {
    (forall n :: n in avg <==> IsTarget(n))
    && forall n :: n in avg ==> n in totals && days != 0 && avg[n] == PerDay(totals[n], days)
  }

  /** One badge per target nutrient. */
  ghost predicate IsBadges(badges: map<Nutrient, Badge>, totals: map<Nutrient, real>)
  {
    (forall n :: n in badges <==> IsTarget(n))
    && forall n :: n in badges ==> n in totals && badges[n] == BadgeFor(n, totals[n])
  }

  /** The target nutrients whose average is low, with rounded average and
      target. */
  ghost predicate IsDeficiencies(d: map<Nutrient, Deficiency>, avg: map<Nutrient, real>)
  {
    (forall n :: n in d <==> IsTarget(n) && n in avg && avg[n] < LowLine(n))
    && forall n :: n in d ==> n in avg && d[n] == Deficiency(RoundTenth(avg[n]), Target(n))
  }

  /** The averages, badges and deficiency loops of the summary. */
  method SummaryTables(totals: map<Nutrient, real>, days: int)
    returns (averages: map<Nutrient, real>, badges: map<Nutrient, Badge>, deficient: map<Nutrient, Deficiency>)
    requires days != 0
    requires forall n :: n in totals
    ensures IsAverages(averages, totals, days)
    ensures IsBadges(badges, totals)
    ensures IsDeficiencies(deficient, averages)
  {
    averages := Averages(totals, days);
    badges := Badges(totals);
    deficient := Deficiencies(averages);
  }

  // ---------------------------------------------------------------------
  // Results of the views
  // ---------------------------------------------------------------------

  datatype Outcome = Redirected | NotFound

  datatype GroceryReply = RedirectTo(url: string) | JsonOk | BadRequest(message: string)

  datatype SaveOutcome = AlreadySaved | Saved | IntegrityError

  /** What the nutrition summary renders. */
  datatype Summary = Summary(
    range: DateRange.Range,
    totals: map<Nutrient, real>,
    todayTotals: map<Nutrient, real>,
    todayLows: seq<Nutrient>,
    averages: map<Nutrient, real>,
    badges: map<Nutrient, Badge>,
    deficient: map<Nutrient, Deficiency>)

  /** The summary page, or the division by zero of a range with no day. */
  datatype SummaryPage = Page(summary: Summary) | DivisionByZero(range: DateRange.Range)

  /** What the recipe page renders, and the ingredient list it sends. */
  datatype RecipePage = RecipePage(
    ingredients: string,
    low: seq<Nutrient>,
    results: seq<ApiData.Recipe>,
    smart: seq<Suggestion>)

  const GroceryPath: string := "/grocery/"

  // ---------------------------------------------------------------------
  // The store
  // ---------------------------------------------------------------------

  class Store {
    var foodLogs: seq<FoodLog>
    var groceryItems: seq<GroceryItem>
    var pantryItems: seq<PantryItem>
    var supplementLogs: seq<SupplementLog>
    var savedRecipes: seq<SavedRecipe>
    var nextId: nat
    var clock: int

    /** The invariants every view method keeps. One saved recipe per (user,
        Spoonacular id) is the table's unique constraint. One marker per
        (user, day, slot) is no rule of the table: it holds because the
        toggle looks for a marker before creating one and nothing else
        creates markers. Grocery items stay in creation order with keys and
        timestamps below the counters, and pantry keys are distinct. */
    ghost predicate Valid()
      reads this
    {
      NoDuplicates(supplementLogs)
      && UniquePerUser(savedRecipes)
      && (forall i :: 0 <= i < |savedRecipes| ==> savedRecipes[i].id < nextId)
      && GroceriesInOrder(groceryItems, nextId, clock)
      && (forall i, j :: 0 <= i < j < |pantryItems| ==> pantryItems[i].id != pantryItems[j].id)
    }

    /** An empty database. */
    constructor ()
      ensures Valid()
      ensures foodLogs == [] && groceryItems == [] && pantryItems == [] && supplementLogs == [] && savedRecipes == []
    {
      foodLogs, groceryItems, pantryItems, supplementLogs, savedRecipes := [], [], [], [], [];
      nextId, clock := 1, 0;
    }

    // -------------------------------------------------------------------
    // Dashboard
    // -------------------------------------------------------------------

    /** `home`: today's target totals, the low list and the taken slots. */
    method Home(user: UserId, today: Day) returns (totals: map<Nutrient, real>, low: seq<Nutrient>, taken: map<string, bool>)
      ensures IsTargetTotals(totals, LogsIn(foodLogs, OneDay(today)), MarkersIn(supplementLogs, user, OneDay(today)))
      ensures HasAllTargets(totals) && low == LowNutrients(totals)
      ensures forall n :: n in low <==> IsTarget(n) && totals[n] < LowLine(n)
      ensures var marks := MarkersIn(supplementLogs, user, OneDay(today));
        forall s :: s in taken <==> s in TimeSlots || exists i :: 0 <= i < |marks| && marks[i].timeOfDay == s
      ensures var marks := MarkersIn(supplementLogs, user, OneDay(today));
        forall s :: s in taken ==> (taken[s] <==> exists i :: 0 <= i < |marks| && marks[i].timeOfDay == s)
      ensures forall s :: s in TimeSlots ==> s in taken
    {
      var marks := MarkersIn(supplementLogs, user, OneDay(today));
      totals := TodayTotals(user, today);
      taken := TakenSlots(marks);
      low := LowNutrients(totals);
    }

    /** `toggle_supplement`: an unknown slot changes nothing; otherwise
        today's marker for the slot is deleted or created. */
    method ToggleSupplement(user: UserId, today: Day, slot: string)
      requires Valid()
      modifies this
      ensures Valid()
      ensures slot !in TimeSlots ==> supplementLogs == old(supplementLogs)
      ensures slot in TimeSlots ==> supplementLogs == Toggled(old(supplementLogs), SupplementLog(user, today, slot))
      ensures foodLogs == old(foodLogs) && groceryItems == old(groceryItems) && pantryItems == old(pantryItems)
      ensures savedRecipes == old(savedRecipes) && nextId == old(nextId) && clock == old(clock)
    {
      if slot !in TimeSlots {
        return;
      }
      var marker := SupplementLog(user, today, slot);
      var i := FindFirst(supplementLogs, IsMarker(marker));
      ToggleFlips(supplementLogs, marker);
      ToggledAt(supplementLogs, marker, i);
      if i >= 0 {
        supplementLogs := supplementLogs[..i] + supplementLogs[i + 1..];
      } else {
        supplementLogs := supplementLogs + [marker];
      }
    }

    /** Toggling the same slot twice on one day restores the markers. */
    method ToggleSupplementTwice(user: UserId, today: Day, slot: string)
      requires Valid()
      modifies this
      ensures Valid()
      ensures multiset(supplementLogs) == multiset(old(supplementLogs))
      ensures foodLogs == old(foodLogs) && groceryItems == old(groceryItems) && pantryItems == old(pantryItems)
      ensures savedRecipes == old(savedRecipes) && nextId == old(nextId) && clock == old(clock)
    {
      ToggleSupplement(user, today, slot);
      ToggleSupplement(user, today, slot);
      if slot in TimeSlots {
        ToggleTwice(old(supplementLogs), SupplementLog(user, today, slot));
      }
    }

    // -------------------------------------------------------------------
    // Pantry
    // -------------------------------------------------------------------

    /** `increase_quantity`: the user's item with key `pk` gains 1; `false`
        is the 404 for a missing or foreign item. */
    method IncreaseQuantity(user: UserId, pk: nat) returns (found: bool)
      requires Valid()
      modifies this
      ensures Valid()
      ensures var k := FirstIndex(old(pantryItems), OwnedBy(pk, user));
        found == (k >= 0)
        && pantryItems == if k >= 0 then old(pantryItems)[k := Increased(old(pantryItems)[k])] else old(pantryItems)
      ensures foodLogs == old(foodLogs) && groceryItems == old(groceryItems) && supplementLogs == old(supplementLogs)
      ensures savedRecipes == old(savedRecipes) && nextId == old(nextId) && clock == old(clock)
    {
      var k := FindFirst(pantryItems, OwnedBy(pk, user));
      found := k >= 0;
      if found {
        pantryItems := pantryItems[k := Increased(pantryItems[k])];
      }
    }

    /** `decrease_quantity`: the user's item loses 1 when its quantity is
        above 1 and is otherwise left as it is. */
    method DecreaseQuantity(user: UserId, pk: nat) returns (found: bool)
      requires Valid()
      modifies this
      ensures Valid()
      ensures var k := FirstIndex(old(pantryItems), OwnedBy(pk, user));
        found == (k >= 0)
        && pantryItems == if k >= 0 then old(pantryItems)[k := Decreased(old(pantryItems)[k])] else old(pantryItems)
      ensures foodLogs == old(foodLogs) && groceryItems == old(groceryItems) && supplementLogs == old(supplementLogs)
      ensures savedRecipes == old(savedRecipes) && nextId == old(nextId) && clock == old(clock)
    {
      var k := FindFirst(pantryItems, OwnedBy(pk, user));
      found := k >= 0;
      if found && pantryItems[k].quantity > 1.0 {
        pantryItems := pantryItems[k := pantryItems[k].(quantity := pantryItems[k].quantity - 1.0)];
      }
    }

    // -------------------------------------------------------------------
    // Grocery list
    // -------------------------------------------------------------------

    /** `grocery_list`: the items grouped in the category order; each group
        lists its items in `added_on` order. */
    method GroceryList() returns (groups: Groups)
      requires Valid()
      ensures groups == Grouped(groceryItems, CategoryOrder)
      ensures forall a :: 0 <= a < |groups| ==> ByAddedOn(groups[a].1)
    {
      groups := GroupByCategory(groceryItems);
      GroupsAreBuckets(groceryItems, CategoryOrder);
      forall a | 0 <= a < |groups| ensures ByAddedOn(groups[a].1)
      {
        BucketKeepsAddedOrder(groceryItems, groups[a].0);
      }
    }

    /** `toggle_purchased`: flips the flag of the item with that id. The
        lookup is not restricted to the user's own items. */
    method TogglePurchased(id: nat) returns (outcome: Outcome)
      requires Valid()
      modifies this
      ensures Valid()
      ensures var k := FirstIndex(old(groceryItems), HasId(id));
        (outcome == NotFound <==> k < 0)
        && groceryItems == if k >= 0 then old(groceryItems)[k := Flipped(old(groceryItems)[k])] else old(groceryItems)
      ensures foodLogs == old(foodLogs) && pantryItems == old(pantryItems) && supplementLogs == old(supplementLogs)
      ensures savedRecipes == old(savedRecipes) && nextId == old(nextId) && clock == old(clock)
    {
      var k := FindFirst(groceryItems, HasId(id));
      if k < 0 {
        return NotFound;
      }
      groceryItems := groceryItems[k := groceryItems[k].(purchased := !groceryItems[k].purchased)];
      outcome := Redirected;
    }

    /** Two toggles of one item restore the grocery list. */
    method TogglePurchasedTwice(id: nat)
      requires Valid()
      modifies this
      ensures Valid()
      ensures groceryItems == old(groceryItems)
      ensures foodLogs == old(foodLogs) && pantryItems == old(pantryItems) && supplementLogs == old(supplementLogs)
      ensures savedRecipes == old(savedRecipes) && nextId == old(nextId) && clock == old(clock)
    {
      var _ := TogglePurchased(id);
      var _ := TogglePurchased(id);
    }

    /** `update_grocery_category`: on a POST the item gets the new category
        when one is given; the category is not checked against the
        choices. */
    method UpdateGroceryCategory(isPost: bool, id: nat, newCategory: Option<string>) returns (outcome: Outcome)
      requires Valid()
      modifies this
      ensures Valid()
      ensures !isPost ==> outcome == Redirected && groceryItems == old(groceryItems)
      ensures isPost ==> var k := FirstIndex(old(groceryItems), HasId(id));
        (outcome == NotFound <==> k < 0)
        && groceryItems ==
             if k >= 0 && newCategory.Some? && newCategory.value != ""
             then old(groceryItems)[k := old(groceryItems)[k].(category := newCategory.value)]
             else old(groceryItems)
      ensures foodLogs == old(foodLogs) && pantryItems == old(pantryItems) && supplementLogs == old(supplementLogs)
      ensures savedRecipes == old(savedRecipes) && nextId == old(nextId) && clock == old(clock)
    {
      if !isPost {
        return Redirected;
      }
      var k := FindFirst(groceryItems, HasId(id));
      if k < 0 {
        return NotFound;
      }
      if newCategory.Some? && newCategory.value != "" {
        groceryItems := groceryItems[k := groceryItems[k].(category := newCategory.value)];
      }
      outcome := Redirected;
    }

    /** `add_to_grocery_list`: on a POST one record per index of the three
        lists (see `Batch`), then a JSON acknowledgement or a redirect to
        `next` (default "/grocery/"); anything else is a bad request. */
    method AddToGroceryList(user: UserId, isPost: bool, isJson: bool,
                            names: seq<string>, qtys: seq<string>, cats: seq<string>,
                            next: Option<string>) returns (reply: GroceryReply)
      requires Valid()
      modifies this
      ensures Valid()
      ensures !isPost ==> (reply == BadRequest("Only POST requests are allowed.")
                           && groceryItems == old(groceryItems) && nextId == old(nextId) && clock == old(clock))
      ensures isPost ==>
        var batch := Batch(user, names, qtys, cats, old(nextId), old(clock));
        groceryItems == old(groceryItems) + batch
        && nextId == old(nextId) + |batch| && clock == old(clock) + |batch|
        && reply == if isJson then JsonOk else RedirectTo(next.GetOr(GroceryPath))
      ensures foodLogs == old(foodLogs) && pantryItems == old(pantryItems) && supplementLogs == old(supplementLogs)
      ensures savedRecipes == old(savedRecipes)
    {
      if !isPost {
        return BadRequest("Only POST requests are allowed.");
      }
      ghost var batch := Batch(user, names, qtys, cats, nextId, clock);
      ghost var before := groceryItems;
      var n := Min(Min(|names|, |qtys|), |cats|);
      var i := 0;
      while i < n
        invariant 0 <= i <= n && n == |batch|
        invariant groceryItems == before + batch[..i]
        invariant nextId == old(nextId) + i && clock == old(clock) + i
        invariant Valid()
        invariant foodLogs == old(foodLogs) && pantryItems == old(pantryItems)
        invariant supplementLogs == old(supplementLogs) && savedRecipes == old(savedRecipes)
      {
        var cat := if cats[i] == "" then DefaultCategory else cats[i];
        var item := GroceryItem(nextId, Some(user), names[i], qtys[i], cat, clock, false);
        assert item == batch[i];
        assert batch[..i + 1] == batch[..i] + [item];
        AppendNewest(groceryItems, item, nextId, clock);
        groceryItems := groceryItems + [item];
        nextId := nextId + 1;
        clock := clock + 1;
        i := i + 1;
      }
      assert batch[..i] == batch;
      reply := if isJson then JsonOk else RedirectTo(next.GetOr(GroceryPath));
    }

    // -------------------------------------------------------------------
    // Saved recipes
    // -------------------------------------------------------------------

    /** `save_recipe`'s `get_or_create`: an existing (user, id) pair is left
        as it is; otherwise a record is created with the fetched details,
        which fails when the image or source link is missing, since both
        columns are NOT NULL. */
    method SaveRecipe(user: UserId, recipeId: int, details: ApiData.Details) returns (outcome: SaveOutcome)
      requires Valid()
      modifies this
      ensures Valid()
      ensures var sid := IntToString(recipeId);
        var k := FirstIndex(old(savedRecipes), SameRecipe(user, sid));
        (k >= 0 ==> outcome == AlreadySaved && savedRecipes == old(savedRecipes))
        && (k < 0 && (details.image.None? || details.sourceUrl.None?) ==>
              outcome == IntegrityError && savedRecipes == old(savedRecipes))
        && (k < 0 && details.image.Some? && details.sourceUrl.Some? ==>
              outcome == Saved
              && savedRecipes == old(savedRecipes) + [SavedRecipe(old(nextId), user, sid, details.title,
                                                                  details.image.value, details.sourceUrl.value, old(clock))])
      ensures outcome != Saved ==> nextId == old(nextId) && clock == old(clock)
      ensures outcome == Saved ==> nextId == old(nextId) + 1 && clock == old(clock) + 1
      ensures foodLogs == old(foodLogs) && groceryItems == old(groceryItems) && pantryItems == old(pantryItems)
      ensures supplementLogs == old(supplementLogs)
    {
      var sid := IntToString(recipeId);
      var k := FindFirst(savedRecipes, SameRecipe(user, sid));
      if k >= 0 {
        return AlreadySaved;
      }
      if details.image.None? || details.sourceUrl.None? {
        return IntegrityError;
      }
      var r := SavedRecipe(nextId, user, sid, details.title, details.image.value, details.sourceUrl.value, clock);
      savedRecipes := savedRecipes + [r];
      nextId := nextId + 1;
      clock := clock + 1;
      outcome := Saved;
    }

    /** Saving a recipe a second time, whatever the details, keeps the
        first record. */
    method SaveRecipeTwice(user: UserId, recipeId: int, first: ApiData.Details, second: ApiData.Details)
      returns (again: SaveOutcome)
      requires Valid()
      requires first.image.Some? && first.sourceUrl.Some?
      modifies this
      ensures Valid()
      ensures again == AlreadySaved
      ensures exists k :: (0 <= k < |savedRecipes| && savedRecipes[k].user == user
                           && savedRecipes[k].spoonacularId == IntToString(recipeId))
      ensures var sid := IntToString(recipeId);
        savedRecipes == if FirstIndex(old(savedRecipes), SameRecipe(user, sid)) >= 0 then old(savedRecipes)
                        else old(savedRecipes) + [SavedRecipe(old(nextId), user, sid, first.title,
                                                              first.image.value, first.sourceUrl.value, old(clock))]
      ensures FirstIndex(old(savedRecipes), SameRecipe(user, IntToString(recipeId))) >= 0 ==>
        nextId == old(nextId) && clock == old(clock)
      ensures FirstIndex(old(savedRecipes), SameRecipe(user, IntToString(recipeId))) < 0 ==>
        nextId == old(nextId) + 1 && clock == old(clock) + 1
      ensures foodLogs == old(foodLogs) && groceryItems == old(groceryItems) && pantryItems == old(pantryItems)
      ensures supplementLogs == old(supplementLogs)
    {
      var _ := SaveRecipe(user, recipeId, first);
      ghost var sid := IntToString(recipeId);
      ghost var j := FirstIndex(old(savedRecipes), SameRecipe(user, sid));
      if j >= 0 {
        assert SameRecipe(user, sid)(savedRecipes[j]);
      } else {
        assert SameRecipe(user, sid)(savedRecipes[|savedRecipes| - 1]);
      }
      ghost var saved := savedRecipes;
      again := SaveRecipe(user, recipeId, second);
      assert savedRecipes == saved;
    }

    // -------------------------------------------------------------------
    // Nutrition summary
    // -------------------------------------------------------------------

    /** `sum_nutrients` over the range's logs, then the range's boosts. */
    method RangeTotals(user: UserId, rg: DateRange.Range) returns (totals: map<Nutrient, real>)
      ensures IsTotals(totals, LogsIn(foodLogs, rg), MarkersIn(supplementLogs, user, rg))
    {
      var foodOnly := SumNutrients(LogsIn(foodLogs, rg));
      totals := AddBoosts(foodOnly, MarkersIn(supplementLogs, user, rg));
    }

    /** Today's target totals, as the dashboard, the summary and the recipe
        page each compute them. */
    method TodayTotals(user: UserId, today: Day) returns (totals: map<Nutrient, real>)
      ensures IsTargetTotals(totals, LogsIn(foodLogs, OneDay(today)), MarkersIn(supplementLogs, user, OneDay(today)))
      ensures HasAllTargets(totals)
    {
      totals := DayTotals(LogsIn(foodLogs, OneDay(today)), MarkersIn(supplementLogs, user, OneDay(today)));
    }

    /** `nutrition_summary`: the range's eighteen totals plus the range's
        supplement boosts, today's totals and lows, the per-day averages,
        the badges and the deficiency table; a range of no day divides by
        zero. */
    method NutritionSummary(user: UserId, preset: Option<string>, startStr: Option<string>, endStr: Option<string>,
                            parse: string -> Option<Day>, today: Day, dayOfMonth: int) returns (page: SummaryPage)
      requires 1 <= dayOfMonth <= 31
      ensures var rg := DateRange.SelectRange(preset, startStr, endStr, parse, today, dayOfMonth);
        (page.DivisionByZero? <==> rg.Days() == 0) && (page.DivisionByZero? ==> page.range == rg)
      ensures page.Page? ==>
        var s := page.summary;
        s.range == DateRange.SelectRange(preset, startStr, endStr, parse, today, dayOfMonth)
        && IsTotals(s.totals, LogsIn(foodLogs, s.range), MarkersIn(supplementLogs, user, s.range))
        && IsTargetTotals(s.todayTotals, LogsIn(foodLogs, OneDay(today)), MarkersIn(supplementLogs, user, OneDay(today)))
        && HasAllTargets(s.todayTotals) && s.todayLows == LowNutrients(s.todayTotals)
        && IsAverages(s.averages, s.totals, s.range.Days())
        && IsBadges(s.badges, s.totals)
        && IsDeficiencies(s.deficient, s.averages)
    {
      var rg := DateRange.SelectRange(preset, startStr, endStr, parse, today, dayOfMonth);
      var totals := RangeTotals(user, rg);
      var todayTotals := TodayTotals(user, today);
      var todayLows := LowNutrients(todayTotals);
      var days := rg.Days();
      if days == 0 {
        return DivisionByZero(rg);
      }
      var averages, badges, deficient := SummaryTables(totals, days);
      page := Page(Summary(rg, totals, todayTotals, todayLows, averages, badges, deficient));
    }

    // -------------------------------------------------------------------
    // Recipe page
    // -------------------------------------------------------------------

    /** `combined_recipe_view`. `general` is the `complexSearch` result
        list (empty when the call failed); `cands` pairs each
        `findByIngredients` result with its information payload. */
    method RecipePageFor(user: UserId, mode: Option<string>, query: string, diet: string, today: Day,
                         general: seq<ApiData.Recipe>, cands: seq<(ApiData.Recipe, Option<ApiData.RecipeInfo>)>)
      returns (page: RecipePage)
      ensures page.ingredients == IngredientsParam(query, PantryNames(pantryItems, user))
      ensures page.low == LowNutrients(TargetTotals(LogsIn(foodLogs, OneDay(today)), MarkersIn(supplementLogs, user, OneDay(today))))
      ensures forall n :: n in page.low <==> (IsTarget(n) &&
        FoodTotal(LogsIn(foodLogs, OneDay(today)), n) + BoostTotal(MarkersIn(supplementLogs, user, OneDay(today)), n) < LowLine(n))
      ensures page.results == if GeneralSearchRuns(mode, query) then GeneralShown(general) else []
      ensures page.smart == if mode == Some("smart") then SmartSuggestions(Enriched(cands, diet, page.low)) else []
    {
      var results: seq<ApiData.Recipe> := [];
      if GeneralSearchRuns(mode, query) {
        results := GeneralPipeline(general);
      }
      var ingredients := IngredientsParam(query, PantryNames(pantryItems, user));
      var totals := TodayTotals(user, today);
      TargetTotalsUnique(totals, LogsIn(foodLogs, OneDay(today)), MarkersIn(supplementLogs, user, OneDay(today)));
      var low := LowNutrients(totals);
      var smart: seq<Suggestion> := [];
      if mode == Some("smart") {
        smart := SmartPipeline(cands, diet, low);
      }
      page := RecipePage(ingredients, low, results, smart);
    }
  }

  // ---------------------------------------------------------------------
  // Properties of the summary
  // ---------------------------------------------------------------------

  /** The summary's range totals split over the days: the range's food
      total is the total of the range without its last day plus that
      day's total. */
  lemma {:induction false} RangeTotalSplits(logs: seq<FoodLog>, start: Day, end: Day, n: Nutrient)
    requires start <= end
    ensures FoodTotal(LogsIn(logs, DateRange.Range(start, end)), n)
         == FoodTotal(LogsIn(logs, DateRange.Range(start, end - 1)), n) + FoodTotal(LogsIn(logs, OneDay(end)), n)
  {
    if logs != [] {
      var prefix := logs[..|logs| - 1];
      var x := logs[|logs| - 1];
      RangeTotalSplits(prefix, start, end, n);
      var inAll := LogsIn(prefix, DateRange.Range(start, end));
      var inHead := LogsIn(prefix, DateRange.Range(start, end - 1));
      var inDay := LogsIn(prefix, OneDay(end));
      assert LogsIn(logs, DateRange.Range(start, end)) == inAll + (if start <= x.dateLogged <= end then [x] else []);
      assert LogsIn(logs, DateRange.Range(start, end - 1)) == inHead + (if start <= x.dateLogged <= end - 1 then [x] else []);
      assert LogsIn(logs, OneDay(end)) == inDay + (if x.dateLogged == end then [x] else []);
      FoodTotalAppend(inAll, if start <= x.dateLogged <= end then [x] else [], n);
      FoodTotalAppend(inHead, if start <= x.dateLogged <= end - 1 then [x] else [], n);
      FoodTotalAppend(inDay, if x.dateLogged == end then [x] else [], n);
    }
  }

  /** On a one-day range the average is the total, so the deficient
      nutrients are exactly those with a Low badge. */
  lemma OneDayDeficientIsLow(s: Summary, n: Nutrient)
    requires s.range.Days() == 1 && IsTarget(n)
    requires n in s.averages && n in s.totals && n in s.badges
    requires s.averages[n] == PerDay(s.totals[n], s.range.Days())
    requires s.badges[n] == BadgeFor(n, s.totals[n])
    requires forall m :: m in s.deficient <==> IsTarget(m) && m in s.averages && s.averages[m] < LowLine(m)
    ensures n in s.deficient <==> s.badges[n] == Low
  {
  }
}
