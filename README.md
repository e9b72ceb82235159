# Shopping-list aggregation of a recipe-planning web app, in Dafny

This project models the shopping-list logic of a Flask recipe-planning application (`server.py`).

When a signed-in user asks for a shopping list (`show_shopping_list`), the app does the following:

- It reads the user's `UserRecipe` rows.
- It creates and commits a new `ShoppingList` with `has_shopped = False`.
- It fetches each recipe's `extendedIngredients` from the recipe provider.
- It converts every ingredient to a base unit with `convert_to_base_unit`.
- It folds the results into a dictionary keyed by ingredient id. An unseen id is inserted with `{quantity, unit, name}`. A seen id only has its quantity increased, and its unit is never compared.
- It adds an `Ingredient` master row for each id that has none, so the first write wins.
- It adds one `ListIngredient` line item per id.
- It returns the list's line items joined with their master rows, ordered by ingredient name.

`confirm_purchases` maps the line items of a list to `(quantity, base_unit, name)` tuples.

The model has four modules:

- `Wrappers` (wrappers.dfy): `Option`.
- `Listing` (listing.dfy): the display tuples and the ordering by name.
- `Aggregation` (aggregation.dfy): the fold, as spec functions, and the nested loops that compute it. It also holds the independent reference definitions (`Ids`, `Total`, `FirstIndex`) and the lemmas that connect the two.
- `Server` (server.dfy): the tables as a `Database` class. The class has `seq` and `map` fields, and its methods update them in loops.

The signed-in user is a parameter. `recipe_info_by_id` is a parameter `lookup: int -> Option<Recipe>`, where `None` is a failed lookup. `convert_to_base_unit` is a parameter `convert: (real, string) -> (real, string)` and is otherwise uninterpreted.

The model follows the code, including these behaviours:

- When occurrences of one ingredient use different units, the quantities are added without comparing the units, and no error is raised (`Aggregation.MixedUnitsAreAdded`).
- All of the user's `UserRecipe` rows are read, whatever their status (line 156).
- The new shopping list is committed before any recipe lookup. A failed lookup therefore leaves an empty list behind.
- Building and confirming a list never updates any inventory.

## Model

| member | source | states |
|---|---|---|
| `Server.RecipeIdsOf` | server.py:156 | every `UserRecipe` row of the user contributes its recipe id whatever its status, and only the user's rows contribute |
| `Server.Database.CreateShoppingList` | server.py:157-161 | adds exactly one new list row, with a never-used id, owned by the user and with `has_shopped = False`; nothing else changes |
| `Aggregation.FetchSpec` | server.py:165-166 | fetching the recipes succeeds exactly when every lookup succeeds, and then yields the looked-up recipes in id order |
| `Aggregation.AggregateIngredients` | server.py:163-174 | the nested loops return the fold of all fetched ingredients, or None as soon as a lookup fails |
| `Aggregation.AddSpec` | server.py:171-174 | one step of the fold (`Add`): an id already present keeps its unit and name, whatever the new occurrence converts to, and only its quantity grows by the converted amount; a new id is appended to the iteration order with its converted amount, base unit and name; no other key changes |
| `Aggregation.AddRecipeIngredients` | server.py:168-174 | the inner loop extends the dictionary by exactly the fold of one recipe's ingredients |
| `Aggregation.FoldKeys` | server.py:165-172 | the dictionary's key set is exactly the set of ingredient ids that occur in the fetched recipes |
| `Aggregation.FoldQuantity` | server.py:169-174 | each id's quantity is the sum of the converted amounts of all its occurrences |
| `Aggregation.TotalAcrossRecipes` | server.py:165-174 | that sum adds up the occurrences within each recipe and then across recipes |
| `Aggregation.FoldFirstOccurrence` | server.py:171-174 | the unit and name stored for an id are the converted unit and the name of its first occurrence; later occurrences change only the quantity |
| `Aggregation.MixedUnitsAreAdded` | server.py:169-174 | 2 cups and 500 grams of one ingredient yield one entry of 980 under the first unit: units are never compared |
| `Aggregation.FoldWellFormed` | server.py:171-174 | the dictionary's iteration order lists each key once and only its keys |
| `Aggregation.FoldOrder` | server.py:171-172 | keys are iterated in the order of their first occurrence |
| `Aggregation.OrderIndependent` | server.py:171-174 | permuting the ingredient records changes neither the key set nor any quantity |
| `Aggregation.RecipeOrderIndependent` | server.py:165-174 | permuting the recipes changes neither the key set nor any quantity |
| `Server.LineItems` | server.py:186-189 | the line items written for the aggregated ids are, position by position, (new list id, the id, its aggregated quantity) |
| `Server.OneLineItemPerId` | server.py:176-190 | exactly one line item per aggregated id; each points at the new list and carries that id's aggregated quantity |
| `Server.InsertMissingSpec` | server.py:177-184 | inserting missing master rows keeps every existing row and gives each new id the name and unit of its aggregated entry |
| `Server.MastersAfterBuild` | server.py:176-184 | after a build, master rows exist for exactly the old ids plus the aggregated ids; existing rows keep their name and base unit |
| `Server.Database.AddListIngredients` | server.py:176-190 | the second loop writes those master rows and appends those line items, keeping the tables referentially sound with one line item per (list, ingredient) |
| `Server.ItemsOf` | server.py:210 | the line-item query of one list: at most as many rows as the table, every row belongs to the list, and every row of the list is included |
| `Server.ItemsOfMultiset` | server.py:210 | the query is an exact filter: each row of the list is returned as often as it occurs in the table, and no other row is returned |
| `Server.FreshListItems` | server.py:186-190 | the new list's line items are exactly the rows this build wrote, in the order written |
| `Server.JoinedIsLines` | server.py:194-201 | when every line item has a master row and the list is the user's, the listing join keeps every line item of the list, with the master row's unit and name |
| `Server.Joined` | server.py:194-201 | the join keeps at most one line per line item of the list; a list that is missing or belongs to another user yields no lines |
| `Server.Database.DisplayListing` | server.py:194-202 | the listing query's result is ordered by name and is a permutation of the joined lines |
| `Listing.SortByNameCorrect` | server.py:202 | the listing is ordered by name and is a permutation of the joined rows |
| `Server.ListingShowsMasterRows` | server.py:194-202 | a fresh list's listing is sorted by name and is a permutation of the per-id lines, so it has exactly one line per aggregated id, with the aggregated quantity and the unit and name of the `Ingredient` row, which may predate the build |
| `Server.Database.ShowShoppingList` | server.py:153-204 | whole operation: the list row is committed first with the next list id, and the id counter advances; a failed lookup leaves only that row; otherwise master rows are inserted if absent, one line item is added per aggregated id, and the returned listing is the listing query's result |
| `Server.Database.ConfirmPurchases` | server.py:208-220 | one (quantity, base unit, name) tuple per line item of the given list, in retrieval order; nothing changes |

## Left out

- Flask routing, templates, `flash`/`redirect` and session handling: they are request plumbing. The signed-in user is an explicit parameter.
- Registration, login and password hashing: these are foreign calls into `model.py`, which is not part of this model.
- `search_recipes` and the body of `recipe_info_by_id`: they are calls to an external recipe API. The lookup is a parameter, and `None` stands for a failed call, which raises in the source.
- The body of `convert_to_base_unit`: `model.py` is not part of this model. It is a total parameter, so a converter that raises on an unknown unit is not modelled.
- SQLAlchemy sessions, transactions and database errors: only the commit order is modelled. The list row is written before any lookup. Master rows and line items are written only after the fold completes.
- Floating-point rounding: quantities are `real`, so sums are exact and addition is associative. In the source, float sums can differ slightly with order.
- `ORDER BY ingredient_name`: it is modelled as lexicographic order on character codes, without a database collation. Ties are unspecified in SQL. The model's insertion sort keeps input order among ties, but the lemmas state only "sorted and a permutation".
- `has_shopped` is never set to true and inventory is never updated, because `server.py` has neither. `confirm_purchases` only builds the tuple list. It does not check who owns the list, and its URL parameter is modelled as an integer id.
- Row order of the queries at lines 156 and 210: they have no ORDER BY. The model returns their rows in insertion order, which fixes the recipe fetch order and the order `ConfirmPurchases` returns. A database may return the rows in another order.
- The recipe-selection route and the JSON listing of selected recipes (lines 120-149) are not part of the shopping-list build.
- Server.RecipeIdsOf: its contract states which ids appear, not their order or multiplicity. The body keeps table order and one entry per row.
- Aggregation.OrderIndependent: it states order independence of keys and quantities only. The stored unit and name, and the key order, depend on which occurrence comes first (`FoldFirstOccurrence`, `FoldOrder`).
- Server.Database.AddListIngredients: the model's validity invariant allows at most one line item per (list, ingredient). The database schema is in `model.py` and is not part of this model. The invariant holds because every build writes distinct ids to a list id that has never been used.
