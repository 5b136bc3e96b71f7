/** Nutrient aggregation and classification: the daily-target table, the
    supplement boosts per time slot, the totals loops shared by the home
    page, the recipe page and the nutrition summary, the low-nutrient list,
    per-day averages, Low/Good/High badges and the deficiency table. */
module Nutrition {
  import opened Common
  import opened Records

  // ---------------------------------------------------------------------
  // Tables
  // ---------------------------------------------------------------------

  /** The keys of the daily-target table, in table order. */
  const TargetNutrients: seq<Nutrient> :=
    [Calories, Protein, Fiber, VitaminC, Iron, VitaminD, VitaminB12, Calcium, Magnesium, Zinc]

  /** `DAILY_TARGETS.get(n)`. */
  function DailyTarget(n: Nutrient): Option<real>
  {
    match n
    case Calories => Some(2000.0)
    case Protein => Some(50.0)
    case Fiber => Some(25.0)
    case VitaminC => Some(75.0)
    case Iron => Some(18.0)
    case VitaminD => Some(20.0)
    case VitaminB12 => Some(2.4)
    case Calcium => Some(1000.0)
    case Magnesium => Some(400.0)
    case Zinc => Some(11.0)
    case _ => None
  }

  predicate IsTarget(n: Nutrient) { DailyTarget(n).Some? }

  function Target(n: Nutrient): (t: real)
    requires IsTarget(n)
    ensures t > 0.0
  {
    DailyTarget(n).value
  }

  lemma TargetNutrientsAreTheKeys(n: Nutrient)
    ensures n in TargetNutrients <==> IsTarget(n)
  {
  }

  lemma TargetKeys()
    ensures forall n :: n in TargetNutrients <==> IsTarget(n)
  {
    forall n ensures n in TargetNutrients <==> IsTarget(n) { TargetNutrientsAreTheKeys(n); }
  }

  /** Low threshold (80% of target) and high threshold (120% of target). */
  function LowLine(n: Nutrient): real
    requires IsTarget(n)
  {
    Target(n) * 0.8
  }

  function HighLine(n: Nutrient): real
    requires IsTarget(n)
  {
    Target(n) * 1.2
  }

  /** `SUPPLEMENT_NUTRIENTS.get(slot, {})`. */
  function SupplementNutrients(slot: string): map<Nutrient, real>
  {
    if slot == "morning" then map[VitaminD := 30.0, VitaminB12 := 3.0, Calcium := 1200.0]
    else if slot == "afternoon" then map[Iron := 25.0, VitaminC := 120.0]
    else if slot == "evening" then map[Fiber := 35.0, Magnesium := 500.0, Zinc := 15.0]
    else map[]
  }

  /** What one supplement marker of `slot` adds to nutrient `n`. */
  function SlotBoost(slot: string, n: Nutrient): real
  {
    var boosts := SupplementNutrients(slot);
    if n in boosts then boosts[n] else 0.0
  }

  /** Every boosted nutrient has a daily target, and boosts are positive. */
  lemma BoostsAreTargets(slot: string, n: Nutrient)
    ensures n in SupplementNutrients(slot) ==> IsTarget(n) && SupplementNutrients(slot)[n] > 0.0
  {
    if slot == "morning" {
      assert SupplementNutrients(slot) == map[VitaminD := 30.0, VitaminB12 := 3.0, Calcium := 1200.0];
    } else if slot == "afternoon" {
      assert SupplementNutrients(slot) == map[Iron := 25.0, VitaminC := 120.0];
    } else if slot == "evening" {
      assert SupplementNutrients(slot) == map[Fiber := 35.0, Magnesium := 500.0, Zinc := 15.0];
    } else {
      assert SupplementNutrients(slot) == map[];
    }
  }

  // ---------------------------------------------------------------------
  // Reference sums
  // ---------------------------------------------------------------------

  /** Sum of nutrient `n` over the food logs. */
  function FoodTotal(logs: seq<FoodLog>, n: Nutrient): real
  {
    if logs == [] then 0.0 else FoodTotal(logs[..|logs| - 1], n) + logs[|logs| - 1].Amount(n)
  }

  /** Sum of the boosts of nutrient `n` over the supplement markers. */
  function BoostTotal(sups: seq<SupplementLog>, n: Nutrient): real
  {
    if sups == [] then 0.0 else BoostTotal(sups[..|sups| - 1], n) + SlotBoost(sups[|sups| - 1].timeOfDay, n)
  }

  lemma {:induction false} FoodTotalAppend(a: seq<FoodLog>, b: seq<FoodLog>, n: Nutrient)
    ensures FoodTotal(a + b, n) == FoodTotal(a, n) + FoodTotal(b, n)
    decreases |b|
  {
    if b == [] {
      assert a + b == a;
    } else {
      assert (a + b)[..|a + b| - 1] == a + b[..|b| - 1];
      FoodTotalAppend(a, b[..|b| - 1], n);
    }
  }

  lemma {:induction false} BoostTotalAppend(a: seq<SupplementLog>, b: seq<SupplementLog>, n: Nutrient)
    ensures BoostTotal(a + b, n) == BoostTotal(a, n) + BoostTotal(b, n)
    decreases |b|
  {
    if b == [] {
      assert a + b == a;
    } else {
      assert (a + b)[..|a + b| - 1] == a + b[..|b| - 1];
      BoostTotalAppend(a, b[..|b| - 1], n);
    }
  }

  /** Nutrients without a daily target never receive a boost. */
  lemma {:induction false} BoostTotalOnlyTargets(sups: seq<SupplementLog>, n: Nutrient)
    requires !IsTarget(n)
    ensures BoostTotal(sups, n) == 0.0
  {
    if sups != [] {
      BoostTotalOnlyTargets(sups[..|sups| - 1], n);
      BoostsAreTargets(sups[|sups| - 1].timeOfDay, n);
    }
  }

  /** Food logs whose values passed the form's non-negativity check give a
      non-negative total. */
  lemma {:induction false} FoodTotalNonNegative(logs: seq<FoodLog>, n: Nutrient)
    requires forall k :: 0 <= k < |logs| ==> logs[k].Amount(n) >= 0.0
    ensures FoodTotal(logs, n) >= 0.0
  {
    if logs != [] {
      FoodTotalNonNegative(logs[..|logs| - 1], n);
    }
  }

  lemma {:induction false} BoostTotalNonNegative(sups: seq<SupplementLog>, n: Nutrient)
    ensures BoostTotal(sups, n) >= 0.0
  {
    if sups != [] {
      BoostTotalNonNegative(sups[..|sups| - 1], n);
      BoostsAreTargets(sups[|sups| - 1].timeOfDay, n);
    }
  }

  // ---------------------------------------------------------------------
  // The totals loops
  // ---------------------------------------------------------------------

  /** `for nutrient in totals: totals[nutrient] += getattr(log, nutrient, 0)`. */
  method AddLog(totals: map<Nutrient, real>, log: FoodLog) returns (r: map<Nutrient, real>)
    ensures r.Keys == totals.Keys
    ensures forall n :: n in r ==> r[n] == totals[n] + log.Amount(n)
  {
    r := totals;
    var todo := totals.Keys;
    while todo != {}
      invariant todo <= totals.Keys
      invariant r.Keys == totals.Keys
      invariant forall n :: n in r ==> r[n] == totals[n] + (if n in todo then 0.0 else log.Amount(n))
      decreases todo
    {
      var n :| n in todo;
      r := r[n := r[n] + log.Amount(n)];
      todo := todo - {n};
    }
  }

  /** The outer loop over the food logs. */
  method AddFoodLogs(totals: map<Nutrient, real>, logs: seq<FoodLog>) returns (r: map<Nutrient, real>)
    ensures r.Keys == totals.Keys
    ensures forall n :: n in r ==> r[n] == totals[n] + FoodTotal(logs, n)
  {
    r := totals;
    var i := 0;
    while i < |logs|
      invariant 0 <= i <= |logs|
      invariant r.Keys == totals.Keys
      invariant forall n :: n in r ==> r[n] == totals[n] + FoodTotal(logs[..i], n)
    {
      assert logs[..i + 1][..i] == logs[..i];
      r := AddLog(r, logs[i]);
      i := i + 1;
    }
    assert logs[..i] == logs;
  }

  /** `for k, v in SUPPLEMENT_NUTRIENTS.get(slot, {}).items(): if k in totals: totals[k] += v`. */
  method AddSlotBoosts(totals: map<Nutrient, real>, slot: string) returns (r: map<Nutrient, real>)
    ensures r.Keys == totals.Keys
    ensures forall n :: n in r ==> r[n] == totals[n] + SlotBoost(slot, n)
  {
    var boosts := SupplementNutrients(slot);
    r := totals;
    var todo := boosts.Keys;
    while todo != {}
      invariant todo <= boosts.Keys
      invariant r.Keys == totals.Keys
      invariant forall n :: n in r ==> r[n] == totals[n] + (if n in boosts && n !in todo then boosts[n] else 0.0)
      decreases todo
    {
      var k :| k in todo;
      if k in r {
        r := r[k := r[k] + boosts[k]];
      }
      todo := todo - {k};
    }
  }

  /** The outer loop over the supplement markers. */
  method AddBoosts(totals: map<Nutrient, real>, sups: seq<SupplementLog>) returns (r: map<Nutrient, real>)
    ensures r.Keys == totals.Keys
    ensures forall n :: n in r ==> r[n] == totals[n] + BoostTotal(sups, n)
  {
    r := totals;
    var i := 0;
    while i < |sups|
      invariant 0 <= i <= |sups|
      invariant r.Keys == totals.Keys
      invariant forall n :: n in r ==> r[n] == totals[n] + BoostTotal(sups[..i], n)
    {
      assert sups[..i + 1][..i] == sups[..i];
      r := AddSlotBoosts(r, sups[i].timeOfDay);
      i := i + 1;
    }
    assert sups[..i] == sups;
  }

  /** `{nutrient: 0 for nutrient in DAILY_TARGETS}`. */
  function ZeroTargets(): (z: map<Nutrient, real>)
    ensures forall n :: n in z <==> IsTarget(n)
    ensures forall n :: n in z ==> z[n] == 0.0
  {
    TargetKeys();
    map n | n in TargetNutrients :: 0.0
  }

  /** Today's target-nutrient totals: food logs, then supplement boosts. */
  method DayTotals(foods: seq<FoodLog>, sups: seq<SupplementLog>) returns (totals: map<Nutrient, real>)
    ensures forall n :: n in totals <==> IsTarget(n)
    ensures forall n :: n in totals ==> totals[n] == FoodTotal(foods, n) + BoostTotal(sups, n)
  {
    totals := ZeroTargets();
    totals := AddFoodLogs(totals, foods);
    totals := AddBoosts(totals, sups);
  }

  // ---------------------------------------------------------------------
  // Classification
  // ---------------------------------------------------------------------

  predicate HasAllTargets(totals: map<Nutrient, real>)
  {
    forall n :: IsTarget(n) ==> n in totals
  }

  /** A target nutrient whose total is below 80% of its target. */
  function IsLow(totals: map<Nutrient, real>): Nutrient -> bool
  {
    (n: Nutrient) => IsTarget(n) && n in totals && totals[n] < LowLine(n)
  }

  /** The nutrients of `ns` whose total is below 80% of their target, in the
      order of `ns`. */
  function LowAmong(totals: map<Nutrient, real>, ns: seq<Nutrient>): (low: seq<Nutrient>)
    requires forall n :: n in ns ==> IsTarget(n) && n in totals
    ensures forall n :: n in low <==> n in ns && totals[n] < LowLine(n)
    ensures |low| <= |ns|
  {
    Filter(ns, IsLow(totals))
  }

  /** The position of a nutrient in the daily-target table; nutrients
      without a target come after all of it. */
  function TargetRank(n: Nutrient): (k: nat)
    ensures IsTarget(n) ==> k < |TargetNutrients| && TargetNutrients[k] == n
  {
    match n
    case Calories => 0
    case Protein => 1
    case Fiber => 2
    case VitaminC => 3
    case Iron => 4
    case VitaminD => 5
    case VitaminB12 => 6
    case Calcium => 7
    case Magnesium => 8
    case Zinc => 9
    case _ => |TargetNutrients|
  }

  /** A list in table order, each nutrient at most once. */
  predicate InTargetOrder(ns: seq<Nutrient>)
  {
    forall i, j :: 0 <= i < j < |ns| ==> TargetRank(ns[i]) < TargetRank(ns[j])
  }

  /** The table lists each target at its own rank. */
  lemma TargetNutrientsInOrder()
    ensures InTargetOrder(TargetNutrients)
  {
    assert forall i :: 0 <= i < |TargetNutrients| ==> TargetRank(TargetNutrients[i]) == i;
  }

  /** Filtering keeps table order. */
  lemma LowAmongInTargetOrder(totals: map<Nutrient, real>, ns: seq<Nutrient>)
    requires forall n :: n in ns ==> IsTarget(n) && n in totals
    requires InTargetOrder(ns)
    ensures InTargetOrder(LowAmong(totals, ns))
  {
    var rank := (n: Nutrient) => TargetRank(n) as int;
    assert forall i, j :: 0 <= i < j < |ns| ==> rank(ns[i]) < rank(ns[j]) by {
      forall i, j | 0 <= i < j < |ns| ensures rank(ns[i]) < rank(ns[j]) {
        assert TargetRank(ns[i]) < TargetRank(ns[j]);
      }
    }
    FilterKeepsRankOrder(ns, IsLow(totals), rank);
    var low := LowAmong(totals, ns);
    forall i, j | 0 <= i < j < |low| ensures TargetRank(low[i]) < TargetRank(low[j]) {
      assert rank(low[i]) < rank(low[j]);
    }
  }

  /** The low-nutrient list: target nutrients under 80% of their target,
      in the order of the daily-target table, each once. */
  function LowNutrients(totals: map<Nutrient, real>): (low: seq<Nutrient>)
    requires HasAllTargets(totals)
    ensures forall n :: n in low <==> IsTarget(n) && totals[n] < LowLine(n)
    ensures InTargetOrder(low)
  {
    TargetKeys();
    TargetNutrientsInOrder();
    LowAmongInTargetOrder(totals, TargetNutrients);
    LowAmong(totals, TargetNutrients)
  }

  /** `LowAmong` works nutrient by nutrient: the low nutrients of `a` come
      first, in the order of `a` ... */
  lemma LowAmongAppend(totals: map<Nutrient, real>, a: seq<Nutrient>, b: seq<Nutrient>)
    requires forall n :: n in a + b ==> IsTarget(n) && n in totals
    ensures LowAmong(totals, a + b) == LowAmong(totals, a) + LowAmong(totals, b)
  {
    FilterConcat(a, b, IsLow(totals));
  }

  /** ... and one nutrient is listed exactly when it is low. */
  lemma LowAmongOne(totals: map<Nutrient, real>, n: Nutrient)
    requires IsTarget(n) && n in totals
    ensures LowAmong(totals, [n]) == if totals[n] < LowLine(n) then [n] else []
  {
    assert [n][1..] == [];
  }

  /** No nutrient listed twice. */
  ghost predicate NoRepeats(ns: seq<Nutrient>)
  {
    forall i, j :: 0 <= i < j < |ns| ==> ns[i] != ns[j]
  }

  /** Filtering a list without repeats gives a list without repeats. */
  lemma LowAmongNoRepeats(totals: map<Nutrient, real>, ns: seq<Nutrient>)
    requires forall n :: n in ns ==> IsTarget(n) && n in totals
    requires NoRepeats(ns)
    ensures NoRepeats(LowAmong(totals, ns))
  {
    FilterKeepsDistinct(ns, IsLow(totals));
  }

  /** `low_nutrients` names each target nutrient at most once. */
  lemma LowNutrientsNoRepeats(totals: map<Nutrient, real>)
    requires HasAllTargets(totals)
    ensures NoRepeats(LowNutrients(totals))
  {
    var low := LowNutrients(totals);
    forall i, j | 0 <= i < j < |low| ensures low[i] != low[j] {
      assert TargetRank(low[i]) < TargetRank(low[j]);
    }
  }

  /** `sum_nutrients`: the eighteen per-nutrient sums over the logs. */
  function SumNutrients(logs: seq<FoodLog>): (totals: map<Nutrient, real>)
    ensures forall n :: n in totals && totals[n] == FoodTotal(logs, n)
  {
    var m := map n | n in AllNutrients :: FoodTotal(logs, n);
    assert forall n :: n in m by {
      forall n ensures n in m { AllNutrientsComplete(n); }
    }
    m
  }

  /** `totals.get(n, 0)`. */
  function TotalOr0(totals: map<Nutrient, real>, n: Nutrient): real
  {
    if n in totals then totals[n] else 0.0
  }

  /** A range total spread over its days. */
  function PerDay(total: real, days: int): real
    requires days != 0
  {
    total / days as real
  }

  /** Spreading a total over the days and multiplying back gives the total. */
  lemma PerDayTimesDays(total: real, days: int)
    requires days != 0
    ensures PerDay(total, days) * days as real == total
  {
  }

  /** Per-day averages of the target nutrients. */
  function Averages(totals: map<Nutrient, real>, days: int): (avg: map<Nutrient, real>)
    requires days != 0
    ensures forall n :: n in avg <==> IsTarget(n)
    ensures forall n :: n in avg ==> avg[n] == PerDay(TotalOr0(totals, n), days)
  {
    TargetKeys();
    map n | n in TargetNutrients :: PerDay(TotalOr0(totals, n), days)
  }

  datatype Badge = Low | Good | High

  /** The badge of one target nutrient: exactly one of Low, High and Good. */
  function BadgeFor(n: Nutrient, total: real): (b: Badge)
    requires IsTarget(n)
    ensures b == Low <==> total < LowLine(n)
    ensures b == High <==> total > HighLine(n)
    ensures b == Good <==> LowLine(n) <= total <= HighLine(n)
  {
    if total < LowLine(n) then Low
    else if total > HighLine(n) then High
    else Good
  }

  /** The badge loop: every target nutrient present in the totals gets its
      badge. */
  method Badges(totals: map<Nutrient, real>) returns (badges: map<Nutrient, Badge>)
    ensures forall n :: n in badges <==> IsTarget(n) && n in totals
    ensures forall n :: n in badges ==> badges[n] == BadgeFor(n, totals[n])
  {
    TargetKeys();
    badges := map[];
    var j := 0;
    while j < |TargetNutrients|
      invariant 0 <= j <= |TargetNutrients|
      invariant forall n :: n in badges <==> n in TargetNutrients[..j] && n in totals
      invariant forall n :: n in badges ==> IsTarget(n) && badges[n] == BadgeFor(n, totals[n])
    {
      var n := TargetNutrients[j];
      assert TargetNutrients[..j + 1] == TargetNutrients[..j] + [n];
      assert IsTarget(n);
      if n in totals {
        var total := totals[n];
        if total < LowLine(n) {
          assert BadgeFor(n, total) == Low;
          badges := badges[n := Low];
        } else if total > HighLine(n) {
          assert BadgeFor(n, total) == High;
          badges := badges[n := High];
        } else {
          assert BadgeFor(n, total) == Good;
          badges := badges[n := Good];
        }
      }
      j := j + 1;
    }
    assert TargetNutrients[..j] == TargetNutrients;
  }

  /** `round(x, 1)`: the nearest multiple of 0.1, a tie going to the even
      number of tenths. */
  function RoundTenth(x: real): (r: real)
    ensures (r * 10.0).Floor as real == r * 10.0
    ensures x * 10.0 - 0.5 <= r * 10.0 <= x * 10.0 + 0.5
    ensures (r * 10.0 == x * 10.0 - 0.5 || r * 10.0 == x * 10.0 + 0.5) ==> (r * 10.0).Floor % 2 == 0
    ensures x - 0.05 <= r <= x + 0.05
  {
    RoundHalfEven(x * 10.0) as real / 10.0
  }

  /** Those properties leave only one result: a multiple of 0.1 within
      half a tenth of `x`, the even one on a tie. */
  lemma RoundTenthUnique(x: real, k: int)
    requires x * 10.0 - 0.5 <= k as real <= x * 10.0 + 0.5
    requires (k as real == x * 10.0 - 0.5 || k as real == x * 10.0 + 0.5) ==> k % 2 == 0
    ensures RoundTenth(x) == k as real / 10.0
  {
    RoundHalfEvenUnique(x * 10.0, k);
  }

  datatype Deficiency = Deficiency(average: real, target: real)

  /** The deficiency loop: exactly the target nutrients whose average is
      under 80% of target, each with its rounded average and its target. */
  method Deficiencies(averages: map<Nutrient, real>) returns (d: map<Nutrient, Deficiency>)
    requires HasAllTargets(averages)
    ensures forall n :: n in d <==> IsTarget(n) && averages[n] < LowLine(n)
    ensures forall n :: n in d ==> d[n] == Deficiency(RoundTenth(averages[n]), Target(n))
  {
    TargetKeys();
    d := map[];
    var j := 0;
    while j < |TargetNutrients|
      invariant 0 <= j <= |TargetNutrients|
      invariant forall n :: n in d <==> IsTarget(n) && n in TargetNutrients[..j] && averages[n] < LowLine(n)
      invariant forall n :: n in d ==> IsTarget(n) && d[n] == Deficiency(RoundTenth(averages[n]), Target(n))
    {
      var n := TargetNutrients[j];
      assert TargetNutrients[..j + 1] == TargetNutrients[..j] + [n];
      assert IsTarget(n);
      var avg := averages[n];
      if avg < LowLine(n) {
        d := d[n := Deficiency(RoundTenth(avg), Target(n))];
      }
      j := j + 1;
    }
    assert TargetNutrients[..j] == TargetNutrients;
  }
}
