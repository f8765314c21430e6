/** The records the application stores for a group: catalogue ingredients,
    recipes with their ingredient listings, standalone shopping-list entries
    and price rows, with the catalogue lookups the pages perform. */
module Domain {
  import opened Wrappers

  /** A catalogue ingredient (`IIngredient`). */
  datatype Ingredient = Ingredient(id: string, name: string)

  /** One listing of an ingredient in a recipe: the ingredient's id and a
      free-text quantity, possibly empty. */
  datatype RecipeIngredient = RecipeIngredient(ingredient: string, quantity: string)

  /** `IRecipe`. */
  datatype Recipe = Recipe(id: string, name: string, ingredients: seq<RecipeIngredient>)

  /** A standalone shopping-list entry (`currentIngredients` element): an
      ingredient id `i` and a free-text quantity `q`. */
  datatype ListEntry = ListEntry(i: string, q: string)

  /** One stored price row of an ingredient: quantity `q` at unit price `u`. */
  datatype Price = Price(q: real, u: real)

  /** The stored prices of one ingredient: one entry of the group's
      `ingredientsPrices` record, in `Object.entries` order. */
  datatype PriceEntry = PriceEntry(ingredient: string, rows: seq<Price>)

  /** A price row as the price form edits it: two text fields. */
  datatype PriceInput = PriceInput(quantity: string, unitPrice: string)

  /** The translated phrases the shopping list uses, as functions of their
      interpolated values (`t("list.quantityForRecipe", {quantity, recipe})`,
      `t("list.ingredientFor", {name})`, `t("list.alsoNeededFor", {recipes})`
      and `t("list.withoutRecipes")`). */
  datatype Phrases = Phrases(
    quantityForRecipe: (string, string) -> string,
    ingredientFor: string -> string,
    alsoNeededFor: string -> string,
    withoutRecipes: string)

  /** `catalog.find(({id}) => id === key)`: the first ingredient with that id. */
  function FindIngredient(catalog: seq<Ingredient>, key: string): (r: Option<Ingredient>)
    ensures r.Some? ==> r.value.id == key && r.value in catalog
    ensures r.None? <==> forall k :: 0 <= k < |catalog| ==> catalog[k].id != key
  {
    if |catalog| == 0 then None
    else if catalog[0].id == key then Some(catalog[0])
    else FindIngredient(catalog[1..], key)
  }

  /** `find` returns the first match, not just any match. */
  lemma {:induction false} FindIngredientFirst(catalog: seq<Ingredient>, key: string, k: nat)
    requires k < |catalog| && catalog[k].id == key
    requires forall j :: 0 <= j < k ==> catalog[j].id != key
    ensures FindIngredient(catalog, key) == Some(catalog[k])
  {
    if k > 0 {
      FindIngredientFirst(catalog[1..], key, k - 1);
    }
  }

  /** The id names a catalogue ingredient. */
  predicate Resolves(catalog: seq<Ingredient>, key: string) {
    FindIngredient(catalog, key).Some?
  }

  /** `recipe.ingredients.some(i => i.ingredient === key)`. */
  predicate Lists(recipe: Recipe, key: string) {
    exists k :: 0 <= k < |recipe.ingredients| && recipe.ingredients[k].ingredient == key
  }

  /** `recipe.ingredients.find(i => i.ingredient === key)`: the first listing. */
  function FindListing(listings: seq<RecipeIngredient>, key: string): (r: Option<RecipeIngredient>)
    ensures r.Some? ==> r.value.ingredient == key && r.value in listings
    ensures r.None? <==> forall k :: 0 <= k < |listings| ==> listings[k].ingredient != key
  {
    if |listings| == 0 then None
    else if listings[0].ingredient == key then Some(listings[0])
    else FindListing(listings[1..], key)
  }

  /** `rows.reduce((prev, row) => prev + row.q * row.u, 0)`, folded from the left. */
  function Subtotal(rows: seq<Price>): real {
    if |rows| == 0 then 0.0
    else Subtotal(rows[..|rows| - 1]) + rows[|rows| - 1].q * rows[|rows| - 1].u
  }

  /** The fold distributes over concatenation, so the subtotal is the plain
      sum of the row products whatever the grouping. */
  lemma {:induction false} SubtotalAppend(a: seq<Price>, b: seq<Price>)
    ensures Subtotal(a + b) == Subtotal(a) + Subtotal(b)
    decreases |b|
  {
    if |b| == 0 {
      assert a + b == a;
    } else {
      var b0 := b[..|b| - 1];
      SubtotalAppend(a, b0);
      assert (a + b)[..|a + b| - 1] == a + b0;
    }
  }

  /** No ingredient has two entries, as in a JavaScript record. */
  predicate DistinctKeys(entries: seq<PriceEntry>) {
    forall i, j :: 0 <= i < j < |entries| ==> entries[i].ingredient != entries[j].ingredient
  }

  /** `ingredientsPrices[key]`: the rows stored for the ingredient, if any. */
  function PricesOf(entries: seq<PriceEntry>, key: string): (r: Option<seq<Price>>)
    ensures r.Some? ==> PriceEntry(key, r.value) in entries
    ensures r.None? <==> forall k :: 0 <= k < |entries| ==> entries[k].ingredient != key
  {
    if |entries| == 0 then None
    else if entries[0].ingredient == key then Some(entries[0].rows)
    else PricesOf(entries[1..], key)
  }

  /** With distinct keys the lookup finds the one entry of the ingredient. */
  lemma {:induction false} PricesOfEntry(entries: seq<PriceEntry>, k: nat)
    requires DistinctKeys(entries) && k < |entries|
    ensures PricesOf(entries, entries[k].ingredient) == Some(entries[k].rows)
  {
    if k > 0 {
      assert entries[0].ingredient != entries[k].ingredient;
      assert entries[1..][k - 1] == entries[k];
      PricesOfEntry(entries[1..], k - 1);
    }
  }
}
