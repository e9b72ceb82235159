/**
 * The aggregation fold of `show_shopping_list`: every ingredient of every fetched
 * recipe is converted to its base unit and folded into a dictionary keyed by the
 * ingredient id.  An unseen id is inserted with its converted quantity, unit and
 * name; a seen id only has its quantity increased.  Units are never compared.
 */
module Aggregation {
  import opened Wrappers

  /** One element of a recipe's `extendedIngredients` list. */
  datatype ExtendedIngredient = ExtendedIngredient(id: int, name: string, amount: real, unitLong: string)

  type Recipe = seq<ExtendedIngredient>

  /** `convert_to_base_unit(amount, unitLong)`, which returns (converted amount, base unit). */
  type Converter = (real, string) -> (real, string)

  /** The value stored for one id: {quantity, unit, name}. */
  datatype Entry = Entry(quantity: real, unit: string, name: string)

  /**
   * The `aggregated_ingredients` dictionary: its entries, and its keys in insertion
   * order (the order in which a dictionary iterates over its keys).
   */
  datatype Aggregated = Aggregated(order: seq<int>, entries: map<int, Entry>)

  /** The keys are listed once each, and they are exactly the keys of the entries. */
  ghost predicate WellFormed(agg: Aggregated) {
    && (forall i, j :: 0 <= i < j < |agg.order| ==> agg.order[i] != agg.order[j])
    && (forall i :: 0 <= i < |agg.order| ==> agg.order[i] in agg.entries)
    && (forall id :: id in agg.entries ==> id in agg.order)
  }

  function Converted(item: ExtendedIngredient, convert: Converter): real {
    convert(item.amount, item.unitLong).0
  }

  function BaseUnit(item: ExtendedIngredient, convert: Converter): string {
    convert(item.amount, item.unitLong).1
  }

  /** One step of the fold: the body of the loop over a recipe's ingredients. */
  function Add(acc: Aggregated, item: ExtendedIngredient, convert: Converter): Aggregated {
    if item.id !in acc.entries then
      Aggregated(acc.order + [item.id],
                 acc.entries[item.id := Entry(Converted(item, convert), BaseUnit(item, convert), item.name)])
    else
      var e := acc.entries[item.id];
      Aggregated(acc.order, acc.entries[item.id := e.(quantity := e.quantity + Converted(item, convert))])
  }

  /**
   * An id already present keeps its unit and name, whatever unit the new occurrence
   * converts to, and only its quantity grows; a new id is appended to the iteration
   * order.  No other key changes.
   */
  lemma AddSpec(acc: Aggregated, item: ExtendedIngredient, convert: Converter)
    ensures var r := Add(acc, item, convert);
      && r.entries.Keys == acc.entries.Keys + {item.id}
      && (forall id :: id in acc.entries && id != item.id ==> r.entries[id] == acc.entries[id])
      && (item.id in acc.entries ==>
            && r.order == acc.order
            && r.entries[item.id].unit == acc.entries[item.id].unit
            && r.entries[item.id].name == acc.entries[item.id].name
            && r.entries[item.id].quantity == acc.entries[item.id].quantity + Converted(item, convert))
      && (item.id !in acc.entries ==>
            && r.order == acc.order + [item.id]
            && r.entries[item.id] == Entry(Converted(item, convert), BaseUnit(item, convert), item.name))
  {
  }

  /** The dictionary after folding `items` in order, starting from an empty one. */
  function Fold(items: seq<ExtendedIngredient>, convert: Converter): Aggregated {
    if |items| == 0 then Aggregated([], map[])
    else Add(Fold(items[..|items| - 1], convert), items[|items| - 1], convert)
  }

  /** The ingredients of all recipes, recipe after recipe. */
  function Flatten(recipes: seq<Recipe>): seq<ExtendedIngredient> {
    if |recipes| == 0 then []
    else Flatten(recipes[..|recipes| - 1]) + recipes[|recipes| - 1]
  }

  /** Looks up every recipe id in turn; fails as soon as one lookup fails. */
  function Fetch(recipeIds: seq<int>, lookup: int -> Option<Recipe>): Option<seq<Recipe>>
  {
    if |recipeIds| == 0 then Some([])
    else
      var prefix := Fetch(recipeIds[..|recipeIds| - 1], lookup);
      var last := lookup(recipeIds[|recipeIds| - 1]);
      if prefix.None? || last.None? then None
      else Some(prefix.value + [last.value])
  }

  /** Fetching succeeds exactly when every lookup does, and then yields the looked-up recipes in order. */
  lemma {:induction false} FetchSpec(recipeIds: seq<int>, lookup: int -> Option<Recipe>)
    ensures Fetch(recipeIds, lookup).Some? <==> forall i :: 0 <= i < |recipeIds| ==> lookup(recipeIds[i]).Some?
    ensures Fetch(recipeIds, lookup).Some? ==>
              && |Fetch(recipeIds, lookup).value| == |recipeIds|
              && forall i :: 0 <= i < |recipeIds| ==> Fetch(recipeIds, lookup).value[i] == lookup(recipeIds[i]).value
  {
    if |recipeIds| > 0 {
      var p := recipeIds[..|recipeIds| - 1];
      FetchSpec(p, lookup);
      assert forall i :: 0 <= i < |p| ==> recipeIds[i] == p[i];
    }
  }

  /** The dictionary built from the recipes with the given ids, or None when a lookup fails. */
  function Aggregate(recipeIds: seq<int>, lookup: int -> Option<Recipe>, convert: Converter): Option<Aggregated> {
    match Fetch(recipeIds, lookup)
    case None => None
    case Some(recipes) => Some(Fold(Flatten(recipes), convert))
  }

  /**
   * The outer loop: fetches each recipe in turn and folds its ingredients into the
   * dictionary; a failed lookup aborts the whole aggregation.
   */
  method AggregateIngredients(recipeIds: seq<int>, lookup: int -> Option<Recipe>, convert: Converter)
    returns (r: Option<Aggregated>)
    ensures r == Aggregate(recipeIds, lookup, convert)
  {
    var order: seq<int> := [];
    var entries: map<int, Entry> := map[];
    ghost var fetched: seq<Recipe> := [];
    for i := 0 to |recipeIds|
      invariant Fetch(recipeIds[..i], lookup) == Some(fetched)
      invariant Aggregated(order, entries) == Fold(Flatten(fetched), convert)
    {
      var info := lookup(recipeIds[i]);
      if info.None? {
        FetchSpec(recipeIds, lookup);
        return None;
      }
      var recipe := info.value;
      order, entries := AddRecipeIngredients(order, entries, recipe, convert, Flatten(fetched));
      FlattenSnoc(fetched, recipe);
      FetchSnoc(recipeIds, i, lookup);
      fetched := fetched + [recipe];
    }
    assert recipeIds[..|recipeIds|] == recipeIds;
    r := Some(Aggregated(order, entries));
  }

  /**
   * The inner loop: folds the ingredients of one recipe into the dictionary, inserting
   * unseen ids and increasing the quantity of seen ones.
   */
  method AddRecipeIngredients(order0: seq<int>, entries0: map<int, Entry>, recipe: Recipe, convert: Converter,
                              ghost before: seq<ExtendedIngredient>)
    returns (order: seq<int>, entries: map<int, Entry>)
    requires Aggregated(order0, entries0) == Fold(before, convert)
    ensures Aggregated(order, entries) == Fold(before + recipe, convert)
  {
    order, entries := order0, entries0;
    assert before + recipe[..0] == before;
    for j := 0 to |recipe|
      invariant Aggregated(order, entries) == Fold(before + recipe[..j], convert)
    {
      var item := recipe[j];
      ghost var acc := Aggregated(order, entries);
      var (amount, unit) := convert(item.amount, item.unitLong);
      if item.id !in entries {
        entries := entries[item.id := Entry(amount, unit, item.name)];
        order := order + [item.id];
        assert Aggregated(order, entries) == Add(acc, item, convert);
      } else {
        entries := entries[item.id := entries[item.id].(quantity := entries[item.id].quantity + amount)];
        assert Aggregated(order, entries) == Add(acc, item, convert);
      }
      FoldStep(before, recipe, j, convert);
    }
    assert recipe[..|recipe|] == recipe;
  }

  lemma FoldStep(before: seq<ExtendedIngredient>, recipe: Recipe, j: int, convert: Converter)
    requires 0 <= j < |recipe|
    ensures Fold(before + recipe[..j + 1], convert) == Add(Fold(before + recipe[..j], convert), recipe[j], convert)
  {
    var items := before + recipe[..j + 1];
    assert items[..|items| - 1] == before + recipe[..j];
  }

  lemma FlattenSnoc(recipes: seq<Recipe>, r: Recipe)
    ensures Flatten(recipes + [r]) == Flatten(recipes) + r
  {
    assert (recipes + [r])[..|recipes|] == recipes;
  }

  lemma FetchSnoc(recipeIds: seq<int>, i: int, lookup: int -> Option<Recipe>)
    requires 0 <= i < |recipeIds|
    requires Fetch(recipeIds[..i], lookup).Some? && lookup(recipeIds[i]).Some?
    ensures Fetch(recipeIds[..i + 1], lookup) == Some(Fetch(recipeIds[..i], lookup).value + [lookup(recipeIds[i]).value])
  {
    assert recipeIds[..i + 1][..i] == recipeIds[..i];
  }

  // ---------------------------------------------------------------------------
  // Reference definitions, independent of the fold.

  /** The ids that occur in `items`. */
  function Ids(items: seq<ExtendedIngredient>): set<int> {
    set i | 0 <= i < |items| :: items[i].id
  }

  /** The sum of the converted amounts of all occurrences of `id`. */
  function Total(items: seq<ExtendedIngredient>, id: int, convert: Converter): real {
    if |items| == 0 then 0.0
    else Total(items[..|items| - 1], id, convert) + Share(items[|items| - 1], id, convert)
  }

  function Share(item: ExtendedIngredient, id: int, convert: Converter): real {
    if item.id == id then Converted(item, convert) else 0.0
  }

  /** The position of the first occurrence of `id`, or |items| when it does not occur. */
  function FirstIndex(items: seq<ExtendedIngredient>, id: int): (k: nat)
    ensures k <= |items|
    ensures k < |items| ==> items[k].id == id
    ensures forall j :: 0 <= j < k ==> items[j].id != id
  {
    if |items| == 0 then 0
    else if items[0].id == id then 0
    else 1 + FirstIndex(items[1..], id)
  }

  // ---------------------------------------------------------------------------
  // What the fold computes.

  lemma IdsSnoc(items: seq<ExtendedIngredient>)
    requires |items| > 0
    ensures Ids(items) == Ids(items[..|items| - 1]) + {items[|items| - 1].id}
  {
    var a := items[..|items| - 1];
    forall id | id in Ids(items) ensures id in Ids(a) + {items[|items| - 1].id} {
      var i :| 0 <= i < |items| && items[i].id == id;
      if i < |a| { assert a[i] == items[i]; }
    }
    forall id | id in Ids(a) ensures id in Ids(items) {
      var i :| 0 <= i < |a| && a[i].id == id;
      assert items[i] == a[i];
    }
  }

  /** The dictionary's keys are exactly the ids that occur in the fetched ingredients. */
  lemma {:induction false} FoldKeys(items: seq<ExtendedIngredient>, convert: Converter)
    ensures Fold(items, convert).entries.Keys == Ids(items)
  {
    if |items| > 0 {
      FoldKeys(items[..|items| - 1], convert);
      IdsSnoc(items);
    }
  }

  lemma {:induction false} TotalAbsent(items: seq<ExtendedIngredient>, id: int, convert: Converter)
    requires id !in Ids(items)
    ensures Total(items, id, convert) == 0.0
  {
    if |items| > 0 {
      IdsSnoc(items);
      TotalAbsent(items[..|items| - 1], id, convert);
    }
  }

  /** The stored quantity of an id is the sum of the converted amounts of all its occurrences. */
  lemma {:induction false} FoldQuantity(items: seq<ExtendedIngredient>, convert: Converter)
    ensures forall id :: id in Fold(items, convert).entries ==>
              Fold(items, convert).entries[id].quantity == Total(items, id, convert)
  {
    if |items| > 0 {
      var a := items[..|items| - 1];
      var x := items[|items| - 1];
      FoldQuantity(a, convert);
      FoldKeys(a, convert);
      if x.id !in Fold(a, convert).entries {
        TotalAbsent(a, x.id, convert);
      }
    }
  }

  /** Appending an item moves the first occurrence of an id only if the id did not occur before. */
  lemma FirstIndexSnoc(a: seq<ExtendedIngredient>, x: ExtendedIngredient, id: int)
    ensures FirstIndex(a + [x], id) ==
              if FirstIndex(a, id) < |a| then FirstIndex(a, id)
              else if x.id == id then |a|
              else |a| + 1
  {
    var k := FirstIndex(a, id);
    var k' := FirstIndex(a + [x], id);
    assert forall j :: 0 <= j < |a| ==> (a + [x])[j] == a[j];
    assert (a + [x])[|a|] == x;
    assert k < |a| ==> a[k].id == id;
  }

  lemma FirstIndexAbsent(items: seq<ExtendedIngredient>, id: int)
    requires id !in Ids(items)
    ensures FirstIndex(items, id) == |items|
  {
    assert forall j :: 0 <= j < |items| ==> items[j].id != id;
  }

  /** The unit and name stored for an id are those of its first occurrence. */
  lemma {:induction false} FoldFirstOccurrence(items: seq<ExtendedIngredient>, convert: Converter)
    ensures forall id :: id in Fold(items, convert).entries ==>
              && FirstIndex(items, id) < |items|
              && Fold(items, convert).entries[id].unit == BaseUnit(items[FirstIndex(items, id)], convert)
              && Fold(items, convert).entries[id].name == items[FirstIndex(items, id)].name
  {
    if |items| > 0 {
      var a := items[..|items| - 1];
      var x := items[|items| - 1];
      assert items == a + [x];
      FoldFirstOccurrence(a, convert);
      FoldKeys(a, convert);
      FoldKeys(items, convert);
      forall id | id in Fold(items, convert).entries
        ensures FirstIndex(items, id) < |items|
        ensures Fold(items, convert).entries[id].unit == BaseUnit(items[FirstIndex(items, id)], convert)
        ensures Fold(items, convert).entries[id].name == items[FirstIndex(items, id)].name
      {
        FirstIndexSnoc(a, x, id);
        if id in Fold(a, convert).entries {
          assert items[FirstIndex(items, id)] == a[FirstIndex(a, id)];
        } else {
          FirstIndexAbsent(a, id);
        }
      }
    }
  }

  /** One step of the fold keeps every key listed once and only the keys listed. */
  lemma AddWellFormed(acc: Aggregated, x: ExtendedIngredient, convert: Converter)
    requires WellFormed(acc)
    ensures WellFormed(Add(acc, x, convert))
  {
    if x.id !in acc.entries {
      var order := acc.order + [x.id];
      assert forall i :: 0 <= i < |acc.order| ==> order[i] == acc.order[i];
    }
  }

  /** The dictionary lists each of its keys once, and lists only its keys. */
  lemma {:induction false} FoldWellFormed(items: seq<ExtendedIngredient>, convert: Converter)
    ensures WellFormed(Fold(items, convert))
  {
    if |items| > 0 {
      FoldWellFormed(items[..|items| - 1], convert);
      AddWellFormed(Fold(items[..|items| - 1], convert), items[|items| - 1], convert);
    }
  }

  /** Ids listed in the order of their first occurrence in `items`. */
  ghost predicate InFirstOccurrenceOrder(ids: seq<int>, items: seq<ExtendedIngredient>) {
    && (forall i :: 0 <= i < |ids| ==> FirstIndex(items, ids[i]) < |items|)
    && (forall i, j :: 0 <= i < j < |ids| ==> FirstIndex(items, ids[i]) < FirstIndex(items, ids[j]))
  }

  lemma FirstOccurrenceOrderSnoc(ids: seq<int>, a: seq<ExtendedIngredient>, x: ExtendedIngredient, appended: bool)
    requires InFirstOccurrenceOrder(ids, a)
    requires appended ==> FirstIndex(a, x.id) == |a|
    ensures InFirstOccurrenceOrder(if appended then ids + [x.id] else ids, a + [x])
  {
    forall i | 0 <= i < |ids| ensures FirstIndex(a + [x], ids[i]) == FirstIndex(a, ids[i]) {
      FirstIndexSnoc(a, x, ids[i]);
    }
    if appended {
      FirstIndexSnoc(a, x, x.id);
      var after := ids + [x.id];
      assert forall i :: 0 <= i < |ids| ==> after[i] == ids[i];
    }
  }

  /** The dictionary's keys are listed in the order of their first occurrence. */
  lemma {:induction false} FoldOrder(items: seq<ExtendedIngredient>, convert: Converter)
    ensures InFirstOccurrenceOrder(Fold(items, convert).order, items)
  {
    if |items| > 0 {
      var a := items[..|items| - 1];
      var x := items[|items| - 1];
      assert items == a + [x];
      FoldOrder(a, convert);
      FoldKeys(a, convert);
      var acc := Fold(a, convert);
      var appended := x.id !in acc.entries;
      if appended {
        FirstIndexAbsent(a, x.id);
      }
      FirstOccurrenceOrderSnoc(acc.order, a, x, appended);
    }
  }

  // ---------------------------------------------------------------------------
  // Order independence of the quantities.

  lemma {:induction false} TotalRemove(s: seq<ExtendedIngredient>, k: int, id: int, convert: Converter)
    requires 0 <= k < |s|
    ensures Total(s, id, convert) == Total(s[..k] + s[k + 1..], id, convert) + Share(s[k], id, convert)
  {
    var p := s[..|s| - 1];
    var y := s[|s| - 1];
    if k == |s| - 1 {
      assert s[..k] + s[k + 1..] == p;
    } else {
      TotalRemove(p, k, id, convert);
      var rest := p[..k] + p[k + 1..];
      assert s[..k] + s[k + 1..] == rest + [y];
      assert (rest + [y])[..|rest|] == rest;
      assert p[k] == s[k];
    }
  }

  /** Reordering the ingredients does not change any id's sum. */
  lemma {:induction false} TotalPermutation(a: seq<ExtendedIngredient>, b: seq<ExtendedIngredient>, id: int, convert: Converter)
    requires multiset(a) == multiset(b)
    ensures Total(a, id, convert) == Total(b, id, convert)
    decreases |a|
  {
    if |a| > 0 {
      var x := a[|a| - 1];
      var a' := a[..|a| - 1];
      assert a == a' + [x];
      assert x in multiset(b);
      var k :| 0 <= k < |b| && b[k] == x;
      var b' := b[..k] + b[k + 1..];
      assert b == b[..k] + [x] + b[k + 1..];
      assert multiset(b) == multiset(b[..k]) + multiset{x} + multiset(b[k + 1..]);
      assert multiset(a) == multiset(a') + multiset{x};
      assert multiset(b') == multiset(b[..k]) + multiset(b[k + 1..]);
      assert multiset(a') == multiset(a) - multiset{x};
      assert multiset(b') == multiset(b) - multiset{x};
      TotalPermutation(a', b', id, convert);
      TotalRemove(b, k, id, convert);
    } else {
      assert |b| == 0;
    }
  }

  lemma IdsPermutation(a: seq<ExtendedIngredient>, b: seq<ExtendedIngredient>)
    requires multiset(a) == multiset(b)
    ensures Ids(a) == Ids(b)
  {
    forall id | id in Ids(a) ensures id in Ids(b) {
      var i :| 0 <= i < |a| && a[i].id == id;
      assert a[i] in multiset(b);
      var j :| 0 <= j < |b| && b[j] == a[i];
    }
    forall id | id in Ids(b) ensures id in Ids(a) {
      var j :| 0 <= j < |b| && b[j].id == id;
      assert b[j] in multiset(a);
      var i :| 0 <= i < |a| && a[i] == b[j];
    }
  }

  /**
   * The keys and the quantities of the dictionary do not depend on the order of the
   * ingredients (only the stored unit and name, and the key order, do).
   */
  lemma OrderIndependent(a: seq<ExtendedIngredient>, b: seq<ExtendedIngredient>, convert: Converter)
    requires multiset(a) == multiset(b)
    ensures Fold(a, convert).entries.Keys == Fold(b, convert).entries.Keys
    ensures forall id :: id in Fold(a, convert).entries ==>
              Fold(a, convert).entries[id].quantity == Fold(b, convert).entries[id].quantity
  {
    FoldKeys(a, convert);
    FoldKeys(b, convert);
    IdsPermutation(a, b);
    FoldQuantity(a, convert);
    FoldQuantity(b, convert);
    forall id | id in Fold(a, convert).entries
      ensures Fold(a, convert).entries[id].quantity == Fold(b, convert).entries[id].quantity
    {
      TotalPermutation(a, b, id, convert);
    }
  }

  lemma {:induction false} FlattenRemove(rs: seq<Recipe>, k: int)
    requires 0 <= k < |rs|
    ensures multiset(Flatten(rs)) == multiset(Flatten(rs[..k] + rs[k + 1..])) + multiset(rs[k])
  {
    var p := rs[..|rs| - 1];
    var y := rs[|rs| - 1];
    if k == |rs| - 1 {
      assert rs[..k] + rs[k + 1..] == p;
    } else {
      FlattenRemove(p, k);
      var rest := p[..k] + p[k + 1..];
      assert rs[..k] + rs[k + 1..] == rest + [y];
      assert (rest + [y])[..|rest|] == rest;
      assert p[k] == rs[k];
    }
  }

  /** Reordering the recipes reorders their ingredients and nothing else. */
  lemma {:induction false} FlattenPermutation(a: seq<Recipe>, b: seq<Recipe>)
    requires multiset(a) == multiset(b)
    ensures multiset(Flatten(a)) == multiset(Flatten(b))
    decreases |a|
  {
    if |a| > 0 {
      var x := a[|a| - 1];
      var a' := a[..|a| - 1];
      assert a == a' + [x];
      assert x in multiset(b);
      var k :| 0 <= k < |b| && b[k] == x;
      var b' := b[..k] + b[k + 1..];
      assert b == b[..k] + [x] + b[k + 1..];
      assert multiset(b) == multiset(b[..k]) + multiset{x} + multiset(b[k + 1..]);
      assert multiset(a) == multiset(a') + multiset{x};
      assert multiset(b') == multiset(b[..k]) + multiset(b[k + 1..]);
      assert multiset(a') == multiset(a) - multiset{x};
      assert multiset(b') == multiset(b) - multiset{x};
      FlattenPermutation(a', b');
      FlattenRemove(b, k);
    } else {
      assert |b| == 0;
    }
  }

  /** The keys and quantities do not depend on the order in which the recipes are fetched. */
  lemma RecipeOrderIndependent(a: seq<Recipe>, b: seq<Recipe>, convert: Converter)
    requires multiset(a) == multiset(b)
    ensures Fold(Flatten(a), convert).entries.Keys == Fold(Flatten(b), convert).entries.Keys
    ensures forall id :: id in Fold(Flatten(a), convert).entries ==>
              Fold(Flatten(a), convert).entries[id].quantity == Fold(Flatten(b), convert).entries[id].quantity
  {
    FlattenPermutation(a, b);
    OrderIndependent(Flatten(a), Flatten(b), convert);
  }

  // ---------------------------------------------------------------------------
  // Sums across recipes.

  lemma {:induction false} TotalConcat(a: seq<ExtendedIngredient>, b: seq<ExtendedIngredient>, id: int, convert: Converter)
    ensures Total(a + b, id, convert) == Total(a, id, convert) + Total(b, id, convert)
    decreases |b|
  {
    if |b| == 0 {
      assert a + b == a;
    } else {
      var b' := b[..|b| - 1];
      TotalConcat(a, b', id, convert);
      assert (a + b)[..|a + b| - 1] == a + b';
    }
  }

  /** The sum, recipe by recipe, of the converted amounts of `id` in each recipe. */
  function RecipeTotals(recipes: seq<Recipe>, id: int, convert: Converter): real {
    if |recipes| == 0 then 0.0
    else RecipeTotals(recipes[..|recipes| - 1], id, convert) + Total(recipes[|recipes| - 1], id, convert)
  }

  /** The quantity of an id sums its occurrences within each recipe and across recipes. */
  lemma {:induction false} TotalAcrossRecipes(recipes: seq<Recipe>, id: int, convert: Converter)
    ensures Total(Flatten(recipes), id, convert) == RecipeTotals(recipes, id, convert)
  {
    if |recipes| > 0 {
      TotalAcrossRecipes(recipes[..|recipes| - 1], id, convert);
      TotalConcat(Flatten(recipes[..|recipes| - 1]), recipes[|recipes| - 1], id, convert);
    }
  }

  /**
   * Units are not compared: two cups of flour and 500 grams of flour become one
   * entry whose quantity adds millilitres to grams, under the first unit.
   */
  lemma MixedUnitsAreAdded()
    ensures
      var convert := (amount: real, unit: string) =>
        if unit == "cups" then (amount * 240.0, "milliliters") else (amount, unit);
      var items := [ExtendedIngredient(20081, "flour", 2.0, "cups"),
                    ExtendedIngredient(20081, "flour", 500.0, "grams")];
      Fold(items, convert).entries == map[20081 := Entry(980.0, "milliliters", "flour")]
  {
  }
}
