/** Grouping the grocery list by category for display: items are bucketed by
    category in list order, then the buckets are emitted in the fixed
    category order; buckets for categories outside that order are dropped. */
module Grocery {
  import opened Common
  import opened Records

  /** The display order of categories; "meat" is listed although it is not
      one of the model's choices. */
  const CategoryOrder: seq<string> :=
    ["fruit", "vegetable", "meat", "protein", "grain", "dairy", "fish",
     "frozen", "dessert", "wine", "other"]

  type Groups = seq<(string, seq<GroceryItem>)>

  ghost predicate Distinct(s: seq<string>)
  {
    forall i, j :: 0 <= i < j < |s| ==> s[i] != s[j]
  }

  lemma CategoryOrderDistinct()
    ensures Distinct(CategoryOrder)
  {
  }

  /** The items of category `c`, in list order. */
  function InCategory(items: seq<GroceryItem>, c: string): (r: seq<GroceryItem>)
    ensures forall x :: x in r ==> x in items && x.category == c
  {
    if items == [] then []
    else
      var x := items[|items| - 1];
      InCategory(items[..|items| - 1], c) + (if x.category == c then [x] else [])
  }

  /** The items whose category is one of `cats`, in list order. */
  function InCategories(items: seq<GroceryItem>, cats: seq<string>): (r: seq<GroceryItem>)
    ensures forall x :: x in r ==> x in items && x.category in cats
  {
    if items == [] then []
    else
      var x := items[|items| - 1];
      InCategories(items[..|items| - 1], cats) + (if x.category in cats then [x] else [])
  }

  /** Reference grouping: one non-empty group per category of `order`, in
      that order. */
  function Grouped(items: seq<GroceryItem>, order: seq<string>): Groups
  {
    if order == [] then []
    else
      var c := order[|order| - 1];
      var bucket := InCategory(items, c);
      Grouped(items, order[..|order| - 1]) + (if bucket != [] then [(c, bucket)] else [])
  }

  /** All grouped items, group after group. */
  function Flatten(g: Groups): seq<GroceryItem>
  {
    if g == [] then [] else Flatten(g[..|g| - 1]) + g[|g| - 1].1
  }

  /** The two loops of the grocery list page: `grouped[item.category].append(item)`
      over the items, then `ordered_grouped[category] = grouped[category]` over
      the category order. */
  method GroupByCategory(items: seq<GroceryItem>) returns (groups: Groups)
    ensures groups == Grouped(items, CategoryOrder)
  {
    var grouped := Bucketed(items);
    groups := InOrder(items, grouped, CategoryOrder);
  }

  /** `grouped[item.category].append(item)` over the items. */
  method Bucketed(items: seq<GroceryItem>) returns (grouped: map<string, seq<GroceryItem>>)
    ensures forall c :: c in grouped <==> InCategory(items, c) != []
    ensures forall c :: c in grouped ==> grouped[c] == InCategory(items, c)
  {
    grouped := map[];
    var i := 0;
    while i < |items|
      invariant 0 <= i <= |items|
      invariant forall c :: c in grouped <==> InCategory(items[..i], c) != []
      invariant forall c :: c in grouped ==> grouped[c] == InCategory(items[..i], c)
    {
      var item := items[i];
      assert items[..i + 1][..i] == items[..i];
      assert items[..i + 1][i] == item;
      var bucket := if item.category in grouped then grouped[item.category] else [];
      grouped := grouped[item.category := bucket + [item]];
      i := i + 1;
    }
    assert items[..i] == items;
  }

  /** `ordered_grouped[category] = grouped[category]` over the category
      order, for the categories that have items. */
  method InOrder(items: seq<GroceryItem>, grouped: map<string, seq<GroceryItem>>, order: seq<string>) returns (groups: Groups)
    requires forall c :: c in grouped <==> InCategory(items, c) != []
    requires forall c :: c in grouped ==> grouped[c] == InCategory(items, c)
    ensures groups == Grouped(items, order)
  {
    groups := [];
    var j := 0;
    while j < |order|
      invariant 0 <= j <= |order|
      invariant groups == Grouped(items, order[..j])
    {
      var c := order[j];
      assert order[..j + 1][..j] == order[..j];
      assert order[..j + 1][j] == c;
      if c in grouped {
        groups := groups + [(c, grouped[c])];
      }
      j := j + 1;
    }
    assert order[..j] == order;
  }

  // ---------------------------------------------------------------------
  // Properties of the grouping
  // ---------------------------------------------------------------------

  /** Every group is the non-empty list of the items of its own category,
      and its category is one of `order`. */
  lemma {:induction false} GroupsAreBuckets(items: seq<GroceryItem>, order: seq<string>)
    ensures forall a :: 0 <= a < |Grouped(items, order)| ==>
      var (c, bucket) := Grouped(items, order)[a];
      c in order && bucket != [] && bucket == InCategory(items, c)
  {
    if order != [] {
      var order' := order[..|order| - 1];
      GroupsAreBuckets(items, order');
      forall c | c in order' ensures c in order { }
    }
  }

  /** Position of `c` in `s` (or |s| when absent). */
  function IndexOf(s: seq<string>, c: string): (k: nat)
    ensures k <= |s|
    ensures k < |s| ==> s[k] == c
    ensures k == |s| <==> c !in s
    ensures forall i :: 0 <= i < k ==> s[i] != c
  {
    if s == [] then 0
    else if s[0] == c then 0
    else 1 + IndexOf(s[1..], c)
  }

  lemma IndexOfPrefix(s: seq<string>, c: string, j: nat)
    requires j <= |s| && c in s[..j]
    ensures IndexOf(s[..j], c) == IndexOf(s, c)
  {
    var k := IndexOf(s[..j], c);
    assert s[..j][k] == c;
    assert s[k] == c;
  }

  /** The groups come out in the order of `order`. */
  lemma {:induction false} GroupsInOrder(items: seq<GroceryItem>, order: seq<string>)
    requires Distinct(order)
    ensures forall a, b :: 0 <= a < b < |Grouped(items, order)| ==>
      IndexOf(order, Grouped(items, order)[a].0) < IndexOf(order, Grouped(items, order)[b].0)
  {
    if order != [] {
      var n := |order| - 1;
      var order' := order[..n];
      var c := order[n];
      var g' := Grouped(items, order');
      assert Distinct(order');
      GroupsInOrder(items, order');
      GroupsAreBuckets(items, order');
      var g := Grouped(items, order);
      forall a | 0 <= a < |g'|
        ensures IndexOf(order, g'[a].0) == IndexOf(order', g'[a].0) < n
      {
        IndexOfPrefix(order, g'[a].0, n);
      }
      assert c !in order';
      assert IndexOf(order, c) == n by {
        assert order[n] == c;
        assert forall i :: 0 <= i < n ==> order[i] == order'[i];
      }
      forall a, b | 0 <= a < b < |g|
        ensures IndexOf(order, g[a].0) < IndexOf(order, g[b].0)
      {
        if b < |g'| {
          assert g[a] == g'[a] && g[b] == g'[b];
          IndexOfPrefix(order, g'[a].0, n);
          IndexOfPrefix(order, g'[b].0, n);
        } else {
          assert g[a] == g'[a] && g[b].0 == c;
        }
      }
    }
  }

  lemma {:induction false} InCategoriesSplit(items: seq<GroceryItem>, cats: seq<string>, c: string)
    requires c !in cats
    ensures multiset(InCategories(items, cats + [c])) == multiset(InCategories(items, cats)) + multiset(InCategory(items, c))
  {
    if items != [] {
      var prefix, x := items[..|items| - 1], items[|items| - 1];
      InCategoriesSplit(prefix, cats, c);
      var both := if x.category in cats + [c] then [x] else [];
      var inCats := if x.category in cats then [x] else [];
      var inC := if x.category == c then [x] else [];
      assert InCategories(items, cats + [c]) == InCategories(prefix, cats + [c]) + both;
      assert InCategories(items, cats) == InCategories(prefix, cats) + inCats;
      assert InCategory(items, c) == InCategory(prefix, c) + inC;
      assert multiset(both) == multiset(inCats) + multiset(inC);
    }
  }

  /** Grouping neither loses nor duplicates an item of a listed category, and
      holds no item of any other category. */
  lemma {:induction false} GroupingKeepsListedItems(items: seq<GroceryItem>, order: seq<string>)
    requires Distinct(order)
    ensures multiset(Flatten(Grouped(items, order))) == multiset(InCategories(items, order))
  {
    if order == [] {
      assert InCategories(items, []) == [] by { NoneInNoCategory(items); }
    } else {
      var n := |order| - 1;
      var order' := order[..n];
      var c := order[n];
      assert Distinct(order');
      assert order == order' + [c];
      GroupingKeepsListedItems(items, order');
      assert c !in order';
      InCategoriesSplit(items, order', c);
      var g' := Grouped(items, order');
      var bucket := InCategory(items, c);
      if bucket != [] {
        var g := g' + [(c, bucket)];
        assert Grouped(items, order) == g;
        assert g[..|g| - 1] == g';
        assert Flatten(g) == Flatten(g') + bucket;
        assert multiset(Flatten(g)) == multiset(Flatten(g')) + multiset(bucket);
      } else {
        assert Grouped(items, order) == g';
      }
    }
  }

  lemma {:induction false} NoneInNoCategory(items: seq<GroceryItem>)
    ensures InCategories(items, []) == []
  {
    if items != [] {
      NoneInNoCategory(items[..|items| - 1]);
    }
  }

  /** Items listed in `added_on` order. */
  ghost predicate ByAddedOn(s: seq<GroceryItem>)
  {
    forall i, j :: 0 <= i < j < |s| ==> s[i].addedOn <= s[j].addedOn
  }

  /** Items listed in `added_on` order stay in that order inside each group. */
  lemma {:induction false} BucketKeepsAddedOrder(items: seq<GroceryItem>, c: string)
    requires ByAddedOn(items)
    ensures ByAddedOn(InCategory(items, c))
  {
    if items != [] {
      var x := items[|items| - 1];
      var prefix := items[..|items| - 1];
      BucketKeepsAddedOrder(prefix, c);
      var b' := InCategory(prefix, c);
      var b := InCategory(items, c);
      if x.category == c {
        assert b == b' + [x];
        forall i, j | 0 <= i < j < |b| ensures b[i].addedOn <= b[j].addedOn {
          if j == |b| - 1 {
            assert b[i] == b'[i];
            assert b[i] in prefix;
            var k :| 0 <= k < |prefix| && prefix[k] == b[i];
            assert items[k] == b[i] && items[|items| - 1] == x;
          } else {
            assert b[i] == b'[i] && b[j] == b'[j];
          }
        }
      } else {
        assert b == b';
      }
    }
  }
}
