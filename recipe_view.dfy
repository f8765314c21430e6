/** The by-recipe view of the shopping list, and the per-ingredient price cell
    and budget line shared by both views: one group per selected recipe,
    sorted by name, then a trailing group of the standalone entries; each
    ingredient row names the other selected recipes that also need it. */
module RecipeView {
  import opened Wrappers
  import opened Seqs
  import opened Sorting
  import opened Domain
  import opened ShoppingList

  /** `a.name.localeCompare(b.name) <= 0`, with the default locale. */
  function RecipeNameLe(le: (string, string) -> bool): (Recipe, Recipe) -> bool {
    (a: Recipe, b: Recipe) => le(a.name, b.name)
  }

  /** The `sortedRecies` memo: a sorted copy of the selected recipes. */
  function SortedRecipes(recipes: seq<Recipe>, le: (string, string) -> bool): (r: seq<Recipe>)
    ensures multiset(r) == multiset(recipes)
  {
    SortBy(recipes, RecipeNameLe(le))
  }

  /** The id of the trailing group. */
  const OthersId := "others"

  /** The trailing group: the standalone entries as listings, in list order. */
  function OthersGroup(items: seq<Standalone>, t: Phrases): (g: Recipe)
    ensures g.id == OthersId && g.name == t.withoutRecipes
    ensures |g.ingredients| == |items|
    ensures forall k :: 0 <= k < |items| ==>
      g.ingredients[k] == RecipeIngredient(items[k].ingredient.id, items[k].quantityDescription)
  {
    Recipe(OthersId, t.withoutRecipes,
      seq(|items|, k requires 0 <= k < |items| =>
        RecipeIngredient(items[k].ingredient.id, items[k].quantityDescription)))
  }

  /** The groups of the by-recipe view, in display order. */
  function Groups(recipes: seq<Recipe>, items: seq<Standalone>, le: (string, string) -> bool, t: Phrases): seq<Recipe> {
    SortedRecipes(recipes, le) + [OthersGroup(items, t)]
  }

  lemma RecipeNameOrderIsTotalPreorder(le: (string, string) -> bool)
    requires TotalPreorder(le)
    ensures TotalPreorder(RecipeNameLe(le))
  {
    forall a: Recipe, b: Recipe ensures RecipeNameLe(le)(a, b) || RecipeNameLe(le)(b, a) {
      assert le(a.name, b.name) || le(b.name, a.name);
    }
    forall a: Recipe, b: Recipe, c: Recipe | RecipeNameLe(le)(a, b) && RecipeNameLe(le)(b, c)
      ensures RecipeNameLe(le)(a, c)
    {
      assert le(a.name, b.name) && le(b.name, c.name);
    }
  }

  /** There is one group per selected recipe, as a permutation sorted by name,
      followed by exactly one trailing group that holds the standalone
      entries: each entry's ingredient id with the entry's own text as its
      quantity. */
  lemma GroupsShape(catalog: seq<Ingredient>, recipes: seq<Recipe>, listIngredients: seq<ListEntry>,
                    le: (string, string) -> bool, t: Phrases)
    requires TotalPreorder(le)
    requires EntriesResolve(catalog, listIngredients)
    ensures var gs := Groups(recipes, StandaloneItems(catalog, listIngredients), le, t);
      && |gs| == |recipes| + 1
      && multiset(gs[..|recipes|]) == multiset(recipes)
      && SortedBy(RecipeNameLe(le), gs[..|recipes|])
      && gs[|recipes|].id == OthersId
      && gs[|recipes|].name == t.withoutRecipes
      && |gs[|recipes|].ingredients| == |listIngredients|
      && forall k :: 0 <= k < |listIngredients| ==>
           gs[|recipes|].ingredients[k] == RecipeIngredient(listIngredients[k].i, listIngredients[k].q)
  {
    var gs := Groups(recipes, StandaloneItems(catalog, listIngredients), le, t);
    assert gs[..|recipes|] == SortedRecipes(recipes, le);
    RecipeNameOrderIsTotalPreorder(le);
    SortBySorted(recipes, RecipeNameLe(le));
  }

  // ---------------------------------------------------------------------------
  // "Also needed for"

  function UsedElsewhere(groupId: string, key: string): Recipe -> bool {
    (r: Recipe) => r.id != groupId && Lists(r, key)
  }

  /** `anotherRecipesThatUsesThisIngredient`: the selected recipes other than
      the group's own (by id) that list the ingredient, in selection order. */
  function OtherRecipesUsing(recipes: seq<Recipe>, group: Recipe, key: string): (rs: seq<Recipe>)
    ensures forall r :: r in rs <==> r in recipes && r.id != group.id && Lists(r, key)
  {
    Filter(UsedElsewhere(group.id, key), recipes)
  }

  /** The text for one other recipe: its first listing's quantity for the
      recipe, or just "for the recipe" when that quantity is empty. */
  function AlsoNeededText(r: Recipe, key: string, t: Phrases): string {
    match FindListing(r.ingredients, key)
    case Some(ri) =>
      if ri.quantity == "" then t.ingredientFor(r.name) else t.quantityForRecipe(ri.quantity, r.name)
    case None => t.ingredientFor(r.name)
  }

  function AlsoNeededTexts(rs: seq<Recipe>, key: string, t: Phrases): (texts: seq<string>)
    ensures |texts| == |rs|
    ensures forall k :: 0 <= k < |rs| ==> texts[k] == AlsoNeededText(rs[k], key, t)
  {
    seq(|rs|, k requires 0 <= k < |rs| => AlsoNeededText(rs[k], key, t))
  }

  /** The secondary text of an ingredient row: absent when no other recipe
      needs the ingredient, else the joined texts inside "also needed for". */
  function SecondaryText(recipes: seq<Recipe>, group: Recipe, key: string, t: Phrases): Option<string> {
    var others := OtherRecipesUsing(recipes, group, key);
    if |others| == 0 then None
    else Some(t.alsoNeededFor(Join(AlsoNeededTexts(others, key, t), ", ")))
  }

  /** No secondary text appears exactly when no other selected recipe lists
      the ingredient. */
  lemma SecondaryTextAbsent(recipes: seq<Recipe>, group: Recipe, key: string, t: Phrases)
    ensures SecondaryText(recipes, group, key, t).None?
        <==> forall r :: r in recipes && r.id != group.id ==> !Lists(r, key)
  {
    var others := OtherRecipesUsing(recipes, group, key);
    if |others| > 0 {
      assert others[0] in others;
    }
  }

  /** Each other recipe is described by `ingredientFor` when its first listing
      of the ingredient has an empty quantity, by `quantityForRecipe` with that
      quantity otherwise. */
  lemma AlsoNeededTextChoice(recipes: seq<Recipe>, group: Recipe, key: string, t: Phrases)
    ensures var others := OtherRecipesUsing(recipes, group, key);
      forall k :: 0 <= k < |others| ==>
        FindListing(others[k].ingredients, key).Some?
        && var q := FindListing(others[k].ingredients, key).value.quantity;
           AlsoNeededTexts(others, key, t)[k]
             == if q == "" then t.ingredientFor(others[k].name) else t.quantityForRecipe(q, others[k].name)
  {
    var others := OtherRecipesUsing(recipes, group, key);
    forall k | 0 <= k < |others|
      ensures FindListing(others[k].ingredients, key).Some?
    {
      assert others[k] in others;
      assert Lists(others[k], key);
    }
  }

  /** The primary text of an ingredient row: the listing's quantity, a space,
      and the ingredient's name, which reads "undefined" when the id is not in
      the catalogue. */
  function PrimaryText(listing: RecipeIngredient, catalog: seq<Ingredient>): string {
    listing.quantity + " " +
      match FindIngredient(catalog, listing.ingredient)
      case Some(i) => i.name
      case None => "undefined"
  }

  /** The name shown is that of the first catalogue ingredient with the
      listing's id. */
  lemma PrimaryTextNames(listing: RecipeIngredient, catalog: seq<Ingredient>, k: nat)
    requires k < |catalog| && catalog[k].id == listing.ingredient
    requires forall j :: 0 <= j < k ==> catalog[j].id != listing.ingredient
    ensures PrimaryText(listing, catalog) == listing.quantity + " " + catalog[k].name
  {
    FindIngredientFirst(catalog, listing.ingredient, k);
  }

  /** An id missing from the catalogue would show as "undefined". The text is
      never rendered: such an id already makes the merged list fail in the
      same render (src/components/ListsPage.tsx:376-378, 398), so this states
      only what the template itself does. */
  lemma PrimaryTextUnknown(listing: RecipeIngredient, catalog: seq<Ingredient>)
    requires forall j :: 0 <= j < |catalog| ==> catalog[j].id != listing.ingredient
    ensures PrimaryText(listing, catalog) == listing.quantity + " undefined"
  {
  }

  // ---------------------------------------------------------------------------
  // Price cell and budget

  /** What the right-hand side of an ingredient row shows: the price block with
      its subtotal, and the edit icon. */
  datatype PriceCell = PriceCell(block: Option<real>, editIcon: bool)

  /** The price cell for an ingredient with stored prices `prices`
      (`ingredientsPrices[id]`) that is or is not checked. An empty list of
      rows is still a stored value. */
  function PriceCellOf(prices: Option<seq<Price>>, checked: bool): (c: PriceCell)
    ensures c.block.Some? <==> prices.Some? && checked
    ensures c.editIcon <==> prices.None? && checked
    ensures !(c.block.Some? && c.editIcon)
    ensures c.block.Some? ==> c.block.value == Subtotal(prices.value)
  {
    var block := if prices.None? || !checked then None else Some(Subtotal(prices.value));
    PriceCell(block, prices.None? && checked)
  }

  /** The available-budget line: the difference, not clamped at zero, and its
      colour. */
  datatype BudgetColor = Success | Error

  function AvailableBudget(budget: real, currentListPrice: real): (r: (real, BudgetColor))
    ensures r.0 + currentListPrice == budget
    ensures r.1 == Success <==> budget - currentListPrice >= 9.0
  {
    var available := budget - currentListPrice;
    (available, if available >= 9.0 then Success else Error)
  }

  /** Over-spending shows a negative amount, in the error colour. */
  lemma OverspentIsNegative(budget: real, currentListPrice: real)
    requires budget < currentListPrice
    ensures AvailableBudget(budget, currentListPrice).0 < 0.0
    ensures AvailableBudget(budget, currentListPrice).1 == Error
  {
  }

  /** The rows handed to the price form: the stored rows, or one row of
      quantity 1 at price 0, each field shown with `String(...)` (`str`). */
  function PriceFormData(prices: Option<seq<Price>>, str: real -> string): (d: seq<PriceInput>)
    ensures |d| == if prices.Some? then |prices.value| else 1
  {
    var rows := if prices.Some? then prices.value else [Price(1.0, 0.0)];
    seq(|rows|, k requires 0 <= k < |rows| => PriceInput(str(rows[k].q), str(rows[k].u)))
  }
}
