/**
 * The tables that `show_shopping_list` and `confirm_purchases` read and write, and the
 * two operations themselves.  The signed-in user is an explicit parameter; the
 * recipe provider (`recipe_info_by_id`) and `convert_to_base_unit` are parameters too.
 */
module Server {
  import opened Wrappers
  import opened Aggregation
  import opened Listing

  /** A row of `ingredients`: the master record of one ingredient id. */
  datatype IngredientRow = IngredientRow(ingredientName: string, baseUnit: string)

  /** A row of `shopping_lists`. */
  datatype ShoppingListRow = ShoppingListRow(userId: int, hasShopped: bool)

  /** A row of `list_ingredients`: one line item of one shopping list. */
  datatype ListIngredientRow = ListIngredientRow(shoppingListId: int, ingredientId: int, aggregateQuantity: real)

  /** A row of `user_recipes`. */
  datatype UserRecipeRow = UserRecipeRow(userId: int, recipeId: int, status: string)

  /** The recipe ids of all of the user's `UserRecipe` rows, whatever their status, in table order. */
  function RecipeIdsOf(rows: seq<UserRecipeRow>, userId: int): (ids: seq<int>)
    ensures forall k :: 0 <= k < |rows| && rows[k].userId == userId ==> rows[k].recipeId in ids
    ensures forall x :: x in ids ==> exists k :: 0 <= k < |rows| && rows[k].userId == userId && rows[k].recipeId == x
  {
    if |rows| == 0 then []
    else
      var last := rows[|rows| - 1];
      RecipeIdsOf(rows[..|rows| - 1], userId) + (if last.userId == userId then [last.recipeId] else [])
  }

  /** The line items written for the keys `ids` of an aggregation, in that order. */
  function LineItems(listId: int, ids: seq<int>, entries: map<int, Entry>): (rows: seq<ListIngredientRow>)
    requires forall k :: 0 <= k < |ids| ==> ids[k] in entries
    ensures |rows| == |ids|
    ensures forall k :: 0 <= k < |ids| ==>
              rows[k] == ListIngredientRow(listId, ids[k], entries[ids[k]].quantity)
  {
    if |ids| == 0 then []
    else LineItems(listId, ids[..|ids| - 1], entries) + [ListIngredientRow(listId, ids[|ids| - 1], entries[ids[|ids| - 1]].quantity)]
  }

  /** The line items of one shopping list, in table order: `ListIngredient.query.filter(...).all()`. */
  function ItemsOf(rows: seq<ListIngredientRow>, listId: int): (items: seq<ListIngredientRow>)
    ensures |items| <= |rows|
    ensures forall k :: 0 <= k < |items| ==> items[k].shoppingListId == listId
    ensures forall k :: 0 <= k < |rows| && rows[k].shoppingListId == listId ==> rows[k] in items
  {
    if |rows| == 0 then []
    else
      var last := rows[|rows| - 1];
      ItemsOf(rows[..|rows| - 1], listId) + (if last.shoppingListId == listId then [last] else [])
  }

  /** A line item joined with its master row: (aggregate_quantity, base_unit, ingredient_name). */
  function ToLine(row: ListIngredientRow, masters: map<int, IngredientRow>): Line
    requires row.ingredientId in masters
  {
    (row.aggregateQuantity, masters[row.ingredientId].baseUnit, masters[row.ingredientId].ingredientName)
  }

  function Lines(items: seq<ListIngredientRow>, masters: map<int, IngredientRow>): seq<Line>
    requires forall k :: 0 <= k < |items| ==> items[k].ingredientId in masters
  {
    seq(|items|, k requires 0 <= k < |items| => ToLine(items[k], masters))
  }

  /**
   * The listing query before its ORDER BY: the line items of `listId` joined with their
   * `Ingredient` and `ShoppingList` rows, kept when the list belongs to `userId`.
   */
  function Joined(rows: seq<ListIngredientRow>, masters: map<int, IngredientRow>,
                  lists: map<int, ShoppingListRow>, listId: int, userId: int): (lines: seq<Line>)
    ensures |lines| <= |ItemsOf(rows, listId)|
    ensures listId !in lists || lists[listId].userId != userId ==> lines == []
  {
    if |rows| == 0 then []
    else
      var r := rows[|rows| - 1];
      Joined(rows[..|rows| - 1], masters, lists, listId, userId) +
      (if r.shoppingListId == listId && r.ingredientId in masters &&
          r.shoppingListId in lists && lists[r.shoppingListId].userId == userId
       then [ToLine(r, masters)] else [])
  }

  // ---------------------------------------------------------------------------
  // Lemmas about the tables.

  /** Exactly one line item per aggregated id, pointing at the list, carrying the aggregated quantity. */
  lemma OneLineItemPerId(listId: int, agg: Aggregated)
    requires WellFormed(agg)
    ensures var rows := LineItems(listId, agg.order, agg.entries);
      && (forall k :: 0 <= k < |rows| ==>
            && rows[k].shoppingListId == listId
            && rows[k].ingredientId in agg.entries
            && rows[k].aggregateQuantity == agg.entries[rows[k].ingredientId].quantity)
      && (forall id :: id in agg.entries ==> exists k :: 0 <= k < |rows| && rows[k].ingredientId == id)
      && (forall k, m :: 0 <= k < m < |rows| ==> rows[k].ingredientId != rows[m].ingredientId)
  {
    var rows := LineItems(listId, agg.order, agg.entries);
    forall k | 0 <= k < |rows|
      ensures rows[k].ingredientId == agg.order[k] && rows[k].shoppingListId == listId
      ensures rows[k].ingredientId in agg.entries
      ensures rows[k].aggregateQuantity == agg.entries[rows[k].ingredientId].quantity
    {
    }
    forall id | id in agg.entries
      ensures exists k :: 0 <= k < |rows| && rows[k].ingredientId == id
    {
      var k :| 0 <= k < |agg.order| && agg.order[k] == id;
      assert rows[k].ingredientId == id;
    }
  }

  /** `ItemsOf` is an exact filter: each row of the list is kept as often as it occurs, and no other row. */
  lemma {:induction false} ItemsOfMultiset(rows: seq<ListIngredientRow>, listId: int)
    ensures forall r :: multiset(ItemsOf(rows, listId))[r] ==
                        if r.shoppingListId == listId then multiset(rows)[r] else 0
  {
    if |rows| > 0 {
      var init, last := rows[..|rows| - 1], rows[|rows| - 1];
      ItemsOfMultiset(init, listId);
      assert rows == init + [last];
      assert multiset(rows) == multiset(init) + multiset{last};
    }
  }

  lemma {:induction false} ItemsOfAppend(a: seq<ListIngredientRow>, b: seq<ListIngredientRow>, listId: int)
    ensures ItemsOf(a + b, listId) == ItemsOf(a, listId) + ItemsOf(b, listId)
    decreases |b|
  {
    if |b| == 0 {
      assert a + b == a;
    } else {
      ItemsOfAppend(a, b[..|b| - 1], listId);
      assert (a + b)[..|a + b| - 1] == a + b[..|b| - 1];
    }
  }

  lemma {:induction false} ItemsOfNone(rows: seq<ListIngredientRow>, listId: int)
    requires forall k :: 0 <= k < |rows| ==> rows[k].shoppingListId != listId
    ensures ItemsOf(rows, listId) == []
  {
    if |rows| > 0 {
      ItemsOfNone(rows[..|rows| - 1], listId);
    }
  }

  lemma {:induction false} ItemsOfAll(rows: seq<ListIngredientRow>, listId: int)
    requires forall k :: 0 <= k < |rows| ==> rows[k].shoppingListId == listId
    ensures ItemsOf(rows, listId) == rows
  {
    if |rows| > 0 {
      ItemsOfAll(rows[..|rows| - 1], listId);
    }
  }

  /**
   * When no earlier row belongs to the list, the list's line items are exactly the
   * rows written by the build, in the order they were written.
   */
  lemma FreshListItems(oldRows: seq<ListIngredientRow>, listId: int, agg: Aggregated)
    requires WellFormed(agg)
    requires forall k :: 0 <= k < |oldRows| ==> oldRows[k].shoppingListId != listId
    ensures ItemsOf(oldRows + LineItems(listId, agg.order, agg.entries), listId) == LineItems(listId, agg.order, agg.entries)
  {
    var built := LineItems(listId, agg.order, agg.entries);
    ItemsOfAppend(oldRows, built, listId);
    ItemsOfNone(oldRows, listId);
    ItemsOfAll(built, listId);
    assert [] + built == built;
  }

  lemma LinesSnoc(items: seq<ListIngredientRow>, r: ListIngredientRow, masters: map<int, IngredientRow>)
    requires forall k :: 0 <= k < |items| ==> items[k].ingredientId in masters
    requires r.ingredientId in masters
    ensures Lines(items + [r], masters) == Lines(items, masters) + [ToLine(r, masters)]
  {
  }

  /**
   * When every line item has its master row and the list belongs to the user, the
   * join keeps every line item of the list: it is the confirmation listing.
   */
  lemma {:induction false} JoinedIsLines(rows: seq<ListIngredientRow>, masters: map<int, IngredientRow>,
                                         lists: map<int, ShoppingListRow>, listId: int, userId: int)
    requires forall k :: 0 <= k < |rows| ==> rows[k].ingredientId in masters
    requires listId in lists && lists[listId].userId == userId
    ensures forall k :: 0 <= k < |ItemsOf(rows, listId)| ==> ItemsOf(rows, listId)[k].ingredientId in masters
    ensures Joined(rows, masters, lists, listId, userId) == Lines(ItemsOf(rows, listId), masters)
  {
    if |rows| > 0 {
      var p := rows[..|rows| - 1];
      var r := rows[|rows| - 1];
      JoinedIsLines(p, masters, lists, listId, userId);
      if r.shoppingListId == listId {
        LinesSnoc(ItemsOf(p, listId), r, masters);
      }
    }
  }

  /**
   * The listing of a freshly built list shows one line per aggregated id (it is a
   * permutation of the per-id lines), ordered by name, with the aggregated quantity and the unit and name of the MASTER row, which
   * may predate the build.
   */
  lemma ListingShowsMasterRows(listId: int, agg: Aggregated, masters: map<int, IngredientRow>)
    requires WellFormed(agg)
    requires forall id :: id in agg.entries ==> id in masters
    ensures var listing := SortByName(Lines(LineItems(listId, agg.order, agg.entries), masters));
      && SortedByName(listing)
      && |listing| == |agg.order|
      && (forall id :: id in agg.entries ==>
            (agg.entries[id].quantity, masters[id].baseUnit, masters[id].ingredientName) in listing)
      && multiset(listing) == multiset(seq(|agg.order|, k requires 0 <= k < |agg.order| =>
            (agg.entries[agg.order[k]].quantity, masters[agg.order[k]].baseUnit, masters[agg.order[k]].ingredientName)))
  {
    var rows := LineItems(listId, agg.order, agg.entries);
    var lines := Lines(rows, masters);
    SortByNameCorrect(lines);
    assert lines == seq(|agg.order|, k requires 0 <= k < |agg.order| =>
      (agg.entries[agg.order[k]].quantity, masters[agg.order[k]].baseUnit, masters[agg.order[k]].ingredientName));
    var listing := SortByName(lines);
    assert |listing| == |multiset(listing)| == |multiset(lines)| == |lines|;
    forall id | id in agg.entries
      ensures (agg.entries[id].quantity, masters[id].baseUnit, masters[id].ingredientName) in listing
    {
      var k :| 0 <= k < |agg.order| && agg.order[k] == id;
      assert lines[k] == (agg.entries[id].quantity, masters[id].baseUnit, masters[id].ingredientName);
      assert lines[k] in multiset(lines);
    }
  }

  // ---------------------------------------------------------------------------
  // The database.

  /**
   * Every list id was handed out by the sequence; every line item points at an
   * existing list and an existing master row; no list has two line items for one
   * ingredient.
   */
  ghost predicate TablesValid(lists: map<int, ShoppingListRow>, masters: map<int, IngredientRow>,
                              rows: seq<ListIngredientRow>, nextListId: int)
  {
    && (forall id :: id in lists ==> id < nextListId)
    && (forall k :: 0 <= k < |rows| ==> rows[k].shoppingListId in lists && rows[k].ingredientId in masters)
    && (forall i, j :: 0 <= i < j < |rows| && rows[i].shoppingListId == rows[j].shoppingListId ==>
          rows[i].ingredientId != rows[j].ingredientId)
  }

  /** Appending a line item that repeats no ingredient of its list, with its list and master row present. */
  lemma AddRowKeepsValid(lists: map<int, ShoppingListRow>, masters: map<int, IngredientRow>, masters': map<int, IngredientRow>,
                         rows: seq<ListIngredientRow>, nextListId: int, row: ListIngredientRow)
    requires TablesValid(lists, masters, rows, nextListId)
    requires masters.Keys <= masters'.Keys
    requires row.shoppingListId in lists && row.ingredientId in masters'
    requires forall i :: 0 <= i < |rows| && rows[i].shoppingListId == row.shoppingListId ==>
               rows[i].ingredientId != row.ingredientId
    ensures TablesValid(lists, masters', rows + [row], nextListId)
  {
    var rows' := rows + [row];
    assert forall i :: 0 <= i < |rows| ==> rows'[i] == rows[i];
  }

  /** The master rows after inserting, for each id of `ids` in turn, a row when none exists. */
  function InsertMissing(masters: map<int, IngredientRow>, ids: seq<int>, entries: map<int, Entry>): map<int, IngredientRow>
    requires forall k :: 0 <= k < |ids| ==> ids[k] in entries
  {
    if |ids| == 0 then masters
    else
      var m := InsertMissing(masters, ids[..|ids| - 1], entries);
      var id := ids[|ids| - 1];
      if id in m then m else m[id := IngredientRow(entries[id].name, entries[id].unit)]
  }

  /**
   * First write wins: existing master rows are kept, and each id without one gets the
   * name and unit of its aggregated entry.
   */
  lemma {:induction false} InsertMissingSpec(masters: map<int, IngredientRow>, ids: seq<int>, entries: map<int, Entry>)
    requires forall k :: 0 <= k < |ids| ==> ids[k] in entries
    ensures forall id :: id in InsertMissing(masters, ids, entries) <==> id in masters || id in ids
    ensures forall id :: id in masters ==> InsertMissing(masters, ids, entries)[id] == masters[id]
    ensures forall id :: id in ids && id !in masters ==>
              InsertMissing(masters, ids, entries)[id] == IngredientRow(entries[id].name, entries[id].unit)
  {
    if |ids| > 0 {
      var p := ids[..|ids| - 1];
      InsertMissingSpec(masters, p, entries);
      assert ids == p + [ids[|ids| - 1]];
    }
  }

  /** Master rows after a build: one per previously known or aggregated id, first write wins. */
  lemma MastersAfterBuild(masters: map<int, IngredientRow>, agg: Aggregated)
    requires WellFormed(agg)
    ensures InsertMissing(masters, agg.order, agg.entries).Keys == masters.Keys + agg.entries.Keys
    ensures forall id :: id in masters ==> InsertMissing(masters, agg.order, agg.entries)[id] == masters[id]
    ensures forall id :: id in agg.entries && id !in masters ==>
              InsertMissing(masters, agg.order, agg.entries)[id] == IngredientRow(agg.entries[id].name, agg.entries[id].unit)
  {
    InsertMissingSpec(masters, agg.order, agg.entries);
    forall id | id in agg.order ensures id in agg.entries {
      var i :| 0 <= i < |agg.order| && agg.order[i] == id;
    }
    var r := InsertMissing(masters, agg.order, agg.entries);
    assert forall id :: id in r.Keys <==> id in masters.Keys + agg.entries.Keys;
  }

  /** One turn of the loop over the aggregated ids keeps the tables valid and extends both folds by one id. */
  lemma WriteStep(lists: map<int, ShoppingListRow>, masters: map<int, IngredientRow>, rows: seq<ListIngredientRow>,
                  nextListId: int, listId: int, agg: Aggregated, k: int)
    requires WellFormed(agg) && 0 <= k < |agg.order|
    requires listId in lists
    requires forall j :: 0 <= j < |rows| ==> rows[j].shoppingListId != listId
    requires TablesValid(lists, InsertMissing(masters, agg.order[..k], agg.entries),
                         rows + LineItems(listId, agg.order[..k], agg.entries), nextListId)
    ensures var m := InsertMissing(masters, agg.order[..k], agg.entries);
            var id := agg.order[k];
            var m' := if id in m then m else m[id := IngredientRow(agg.entries[id].name, agg.entries[id].unit)];
            var rows' := rows + LineItems(listId, agg.order[..k], agg.entries) + [ListIngredientRow(listId, id, agg.entries[id].quantity)];
            && m' == InsertMissing(masters, agg.order[..k + 1], agg.entries)
            && rows' == rows + LineItems(listId, agg.order[..k + 1], agg.entries)
            && TablesValid(lists, m', rows', nextListId)
  {
    var m := InsertMissing(masters, agg.order[..k], agg.entries);
    var id := agg.order[k];
    var m' := if id in m then m else m[id := IngredientRow(agg.entries[id].name, agg.entries[id].unit)];
    var written := LineItems(listId, agg.order[..k], agg.entries);
    var row := ListIngredientRow(listId, id, agg.entries[id].quantity);
    InsertMissingSnoc(masters, agg.order, k, agg.entries);
    LineItemsSnoc(listId, agg.order, k, agg.entries);
    NewItemIsUnique(rows, written, listId, agg, k);
    AddRowKeepsValid(lists, m, m', rows + written, nextListId, row);
  }

  lemma InsertMissingSnoc(masters: map<int, IngredientRow>, ids: seq<int>, k: int, entries: map<int, Entry>)
    requires 0 <= k < |ids|
    requires forall j :: 0 <= j < |ids| ==> ids[j] in entries
    ensures var m := InsertMissing(masters, ids[..k], entries);
            InsertMissing(masters, ids[..k + 1], entries)
            == if ids[k] in m then m else m[ids[k] := IngredientRow(entries[ids[k]].name, entries[ids[k]].unit)]
  {
    assert ids[..k + 1][..k] == ids[..k];
  }

  lemma LineItemsSnoc(listId: int, ids: seq<int>, k: int, entries: map<int, Entry>)
    requires 0 <= k < |ids|
    requires forall j :: 0 <= j < |ids| ==> ids[j] in entries
    ensures LineItems(listId, ids[..k + 1], entries)
            == LineItems(listId, ids[..k], entries) + [ListIngredientRow(listId, ids[k], entries[ids[k]].quantity)]
  {
    assert ids[..k + 1][..k] == ids[..k];
  }

  class Database {
    var userRecipes: seq<UserRecipeRow>
    var ingredients: map<int, IngredientRow>
    var shoppingLists: map<int, ShoppingListRow>
    var listIngredients: seq<ListIngredientRow>
    /** The next value of the `shopping_lists.list_id` sequence. */
    var nextListId: int

    /**
     * Every list id was handed out by the sequence; every line item points at an
     * existing list and an existing master row; no list has two line items for one
     * ingredient.
     */
    ghost predicate Valid()
      reads this
    {
      TablesValid(shoppingLists, ingredients, listIngredients, nextListId)
    }

    constructor (userRecipes: seq<UserRecipeRow>, ingredients: map<int, IngredientRow>)
      ensures Valid()
      ensures this.userRecipes == userRecipes && this.ingredients == ingredients
      ensures shoppingLists == map[] && listIngredients == [] && nextListId == 1
    {
      this.userRecipes := userRecipes;
      this.ingredients := ingredients;
      shoppingLists := map[];
      listIngredients := [];
      nextListId := 1;
    }

    /** Adds and commits a new, not yet shopped, shopping list for the user. */
    method CreateShoppingList(userId: int) returns (listId: int)
      requires Valid()
      modifies this
      ensures Valid()
      ensures listId == old(nextListId) && listId !in old(shoppingLists)
      ensures shoppingLists == old(shoppingLists)[listId := ShoppingListRow(userId, false)]
      ensures nextListId == listId + 1
      ensures userRecipes == old(userRecipes) && ingredients == old(ingredients)
      ensures listIngredients == old(listIngredients)
      ensures forall k :: 0 <= k < |listIngredients| ==> listIngredients[k].shoppingListId != listId
    {
      listId := nextListId;
      shoppingLists := shoppingLists[listId := ShoppingListRow(userId, false)];
      nextListId := nextListId + 1;
    }

    /**
     * The loop over the aggregated ids: adds a master row for each id that has none,
     * and one line item for every id.
     */
    method AddListIngredients(listId: int, agg: Aggregated)
      requires Valid() && WellFormed(agg)
      requires listId in shoppingLists
      requires forall k :: 0 <= k < |listIngredients| ==> listIngredients[k].shoppingListId != listId
      modifies this
      ensures Valid()
      ensures userRecipes == old(userRecipes) && shoppingLists == old(shoppingLists) && nextListId == old(nextListId)
      ensures ingredients.Keys == old(ingredients).Keys + agg.entries.Keys
      ensures forall id :: id in old(ingredients) ==> ingredients[id] == old(ingredients)[id]
      ensures forall id :: id in agg.entries && id !in old(ingredients) ==>
                ingredients[id] == IngredientRow(agg.entries[id].name, agg.entries[id].unit)
      ensures listIngredients == old(listIngredients) + LineItems(listId, agg.order, agg.entries)
    {
      for k := 0 to |agg.order|
        invariant userRecipes == old(userRecipes) && shoppingLists == old(shoppingLists) && nextListId == old(nextListId)
        invariant ingredients == InsertMissing(old(ingredients), agg.order[..k], agg.entries)
        invariant listIngredients == old(listIngredients) + LineItems(listId, agg.order[..k], agg.entries)
        invariant TablesValid(shoppingLists, ingredients, listIngredients, nextListId)
      {
        var ingredientId := agg.order[k];
        WriteStep(shoppingLists, old(ingredients), old(listIngredients), nextListId, listId, agg, k);
        if ingredientId !in ingredients {
          ingredients := ingredients[ingredientId := IngredientRow(agg.entries[ingredientId].name, agg.entries[ingredientId].unit)];
        }
        listIngredients := listIngredients + [ListIngredientRow(listId, ingredientId, agg.entries[ingredientId].quantity)];
      }
      assert agg.order[..|agg.order|] == agg.order;
      MastersAfterBuild(old(ingredients), agg);
    }

    /** The listing query: this list's line items with the master unit and name, ordered by name. */
    function DisplayListing(listId: int, userId: int): (listing: seq<Line>)
      reads this
      ensures SortedByName(listing)
      ensures multiset(listing) == multiset(Joined(listIngredients, ingredients, shoppingLists, listId, userId))
    {
      var joined := Joined(listIngredients, ingredients, shoppingLists, listId, userId);
      SortByNameCorrect(joined);
      SortByName(joined)
    }

    /**
     * `show_shopping_list`: creates and commits the list, aggregates the user's recipes,
     * writes master rows and line items, and returns the listing.  A failed recipe lookup
     * aborts after the list was committed: the list stays, with no line items.
     */
    method ShowShoppingList(userId: int, lookup: int -> Option<Recipe>, convert: Converter)
      returns (listing: Option<seq<Line>>, listId: int)
      requires Valid()
      modifies this
      ensures Valid()
      ensures listId == old(nextListId) && listId !in old(shoppingLists)
      ensures nextListId == listId + 1
      ensures shoppingLists == old(shoppingLists)[listId := ShoppingListRow(userId, false)]
      ensures userRecipes == old(userRecipes)
      ensures var built := Aggregate(RecipeIdsOf(userRecipes, userId), lookup, convert);
                built.None? ==>
                  listing.None? && ingredients == old(ingredients) && listIngredients == old(listIngredients)
      ensures var built := Aggregate(RecipeIdsOf(userRecipes, userId), lookup, convert);
                built.Some? ==>
                  && WellFormed(built.value)
                  && ingredients.Keys == old(ingredients).Keys + built.value.entries.Keys
                  && (forall id :: id in old(ingredients) ==> ingredients[id] == old(ingredients)[id])
                  && (forall id :: id in built.value.entries && id !in old(ingredients) ==>
                        ingredients[id] == IngredientRow(built.value.entries[id].name, built.value.entries[id].unit))
                  && listIngredients == old(listIngredients) + LineItems(listId, built.value.order, built.value.entries)
                  && ItemsOf(listIngredients, listId) == LineItems(listId, built.value.order, built.value.entries)
                  && listing == Some(DisplayListing(listId, userId))
                  && listing == Some(SortByName(Lines(LineItems(listId, built.value.order, built.value.entries), ingredients)))
    {
      var recipeIds := RecipeIdsOf(userRecipes, userId);
      listId := CreateShoppingList(userId);
      var built := AggregateIngredients(recipeIds, lookup, convert);
      if built.None? {
        listing := None;
        return;
      }
      var agg := built.value;
      ghost var recipes := Fetch(recipeIds, lookup).value;
      FoldWellFormed(Flatten(recipes), convert);
      ghost var rowsBefore := listIngredients;
      AddListIngredients(listId, agg);
      FreshListItems(rowsBefore, listId, agg);
      JoinedIsLines(listIngredients, ingredients, shoppingLists, listId, userId);
      listing := Some(DisplayListing(listId, userId));
    }

    /**
     * `confirm_purchases`: one (quantity, base unit, name) tuple per line item of the
     * list, in the order the line items are retrieved.
     */
    method ConfirmPurchases(listId: int) returns (all: seq<Line>)
      requires Valid()
      ensures |all| == |ItemsOf(listIngredients, listId)|
      ensures forall k :: 0 <= k < |all| ==>
                ItemsOf(listIngredients, listId)[k].ingredientId in ingredients &&
                all[k] == ToLine(ItemsOf(listIngredients, listId)[k], ingredients)
    {
      var items := ItemsOf(listIngredients, listId);
      ItemsOfValid(listIngredients, ingredients, listId);
      all := [];
      for k := 0 to |items|
        invariant |all| == k
        invariant forall m :: 0 <= m < k ==> all[m] == ToLine(items[m], ingredients)
      {
        var quantity := items[k].aggregateQuantity;
        var unit := ingredients[items[k].ingredientId].baseUnit;
        var name := ingredients[items[k].ingredientId].ingredientName;
        all := all + [(quantity, unit, name)];
      }
    }
  }

  /** The line item about to be written does not repeat an ingredient of its list. */
  lemma NewItemIsUnique(oldRows: seq<ListIngredientRow>, written: seq<ListIngredientRow>, listId: int, agg: Aggregated, k: int)
    requires WellFormed(agg) && 0 <= k < |agg.order|
    requires forall j :: 0 <= j < |oldRows| ==> oldRows[j].shoppingListId != listId
    requires written == LineItems(listId, agg.order[..k], agg.entries)
    ensures forall i :: 0 <= i < |oldRows + written| && (oldRows + written)[i].shoppingListId == listId ==>
              (oldRows + written)[i].ingredientId != agg.order[k]
  {
    var all := oldRows + written;
    assert forall i :: 0 <= i < |oldRows| ==> all[i] == oldRows[i];
    assert forall i :: |oldRows| <= i < |all| ==> all[i] == written[i - |oldRows|];
  }

  /** Every line item of a list has its master row when every line item does. */
  lemma {:induction false} ItemsOfValid(rows: seq<ListIngredientRow>, masters: map<int, IngredientRow>, listId: int)
    requires forall k :: 0 <= k < |rows| ==> rows[k].ingredientId in masters
    ensures forall k :: 0 <= k < |ItemsOf(rows, listId)| ==> ItemsOf(rows, listId)[k].ingredientId in masters
  {
    if |rows| > 0 {
      ItemsOfValid(rows[..|rows| - 1], masters, listId);
    }
  }
}
