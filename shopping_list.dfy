/** The shopping-list derivation of the list page: the selected recipes, the
    standalone entries resolved against the catalogue, and their merge into
    one row per ingredient.

    The merge is specified by `Aggregate`, a function of the sequence of
    ingredient *uses* the merge visits in order: every listing of every
    selected recipe, then every standalone entry. `IngredientsFormatted` is
    the loop the page runs and is proved to compute `Aggregate`. */
module ShoppingList {
  import opened Wrappers
  import opened Seqs
  import opened Domain

  /** The `recipes` memo: catalogue recipes whose id is on the list, in
      catalogue order. */
  function SelectedRecipes(dataRecipes: seq<Recipe>, listRecipes: seq<string>): (r: seq<Recipe>)
    ensures forall x :: x in r <==> x in dataRecipes && x.id in listRecipes
    ensures forall k :: 0 <= k < |r| ==> r[k].id in listRecipes
  {
    Filter(OnList(listRecipes), dataRecipes)
  }

  function OnList(listRecipes: seq<string>): Recipe -> bool {
    (r: Recipe) => r.id in listRecipes
  }

  /** Selection keeps catalogue order: selecting from a concatenation of
      catalogues is concatenating the selections. */
  lemma SelectedRecipesOrder(a: seq<Recipe>, b: seq<Recipe>, listRecipes: seq<string>)
    ensures SelectedRecipes(a + b, listRecipes) == SelectedRecipes(a, listRecipes) + SelectedRecipes(b, listRecipes)
  {
    FilterAppend(OnList(listRecipes), a, b);
  }

  /** A standalone entry with its catalogue ingredient. */
  datatype Standalone = Standalone(ingredient: Ingredient, quantityDescription: string)

  /** Every standalone entry names a catalogue ingredient; the page
      dereferences the lookup without a check. */
  predicate EntriesResolve(catalog: seq<Ingredient>, listIngredients: seq<ListEntry>) {
    forall k :: 0 <= k < |listIngredients| ==> Resolves(catalog, listIngredients[k].i)
  }

  /** The `ingredients` memo: each standalone entry with its ingredient. */
  function StandaloneItems(catalog: seq<Ingredient>, listIngredients: seq<ListEntry>): (r: seq<Standalone>)
    requires EntriesResolve(catalog, listIngredients)
    ensures |r| == |listIngredients|
    ensures forall k :: 0 <= k < |r| ==>
      && r[k].ingredient.id == listIngredients[k].i
      && r[k].ingredient in catalog
      && r[k].quantityDescription == listIngredients[k].q
  {
    seq(|listIngredients|, k requires 0 <= k < |listIngredients| =>
      Standalone(FindIngredient(catalog, listIngredients[k].i).value, listIngredients[k].q))
  }

  // ---------------------------------------------------------------------------
  // Specification of the merge

  /** Where a use of an ingredient comes from. */
  datatype Origin = FromRecipe(recipe: Recipe) | FromList(text: string)

  /** One visit of the merge: an ingredient id and where it comes from. */
  datatype Use = Use(id: string, origin: Origin)

  /** The listings of one recipe, in order. */
  function RecipeUses(r: Recipe): (us: seq<Use>)
    ensures |us| == |r.ingredients|
    ensures forall k :: 0 <= k < |us| ==> us[k] == Use(r.ingredients[k].ingredient, FromRecipe(r))
  {
    seq(|r.ingredients|, k requires 0 <= k < |r.ingredients| => Use(r.ingredients[k].ingredient, FromRecipe(r)))
  }

  /** The listings of the recipes, recipe after recipe. */
  function RecipesUses(rs: seq<Recipe>): seq<Use> {
    if |rs| == 0 then [] else RecipesUses(rs[..|rs| - 1]) + RecipeUses(rs[|rs| - 1])
  }

  /** The standalone entries, in order. */
  function ItemUses(items: seq<Standalone>): (us: seq<Use>)
    ensures |us| == |items|
    ensures forall k :: 0 <= k < |us| ==> us[k] == Use(items[k].ingredient.id, FromList(items[k].quantityDescription))
  {
    seq(|items|, k requires 0 <= k < |items| => Use(items[k].ingredient.id, FromList(items[k].quantityDescription)))
  }

  /** Everything the merge visits, in visiting order. */
  function Uses(recipes: seq<Recipe>, items: seq<Standalone>): seq<Use> {
    RecipesUses(recipes) + ItemUses(items)
  }

  function Ids(us: seq<Use>): (ids: seq<string>)
    ensures |ids| == |us|
    ensures forall k :: 0 <= k < |us| ==> ids[k] == us[k].id
  {
    seq(|us|, k requires 0 <= k < |us| => us[k].id)
  }

  /** Every visited id names a catalogue ingredient. */
  predicate Resolved(catalog: seq<Ingredient>, us: seq<Use>) {
    forall key :: key in Ids(us) ==> Resolves(catalog, key)
  }

  /** The recipes the uses of `key` come from, one per listing. */
  function RecipesOf(us: seq<Use>, key: string): seq<Recipe> {
    if |us| == 0 then []
    else
      var u := us[|us| - 1];
      RecipesOf(us[..|us| - 1], key) + (if u.id == key && u.origin.FromRecipe? then [u.origin.recipe] else [])
  }

  /** The non-empty standalone quantity texts of `key`. */
  function TextsOf(us: seq<Use>, key: string): seq<string> {
    if |us| == 0 then []
    else
      var u := us[|us| - 1];
      TextsOf(us[..|us| - 1], key) + (if u.id == key && u.origin.FromList? && u.origin.text != "" then [u.origin.text] else [])
  }

  /** One merged list row (`listOfIngredients` element). */
  datatype Row = Row(ingredient: Ingredient, recipes: seq<Recipe>, texts: seq<string>)

  /** The merged list: one row per distinct id, in first-visit order, with the
      recipes and the texts collected for it. */
  function Aggregate(us: seq<Use>, catalog: seq<Ingredient>): (rows: seq<Row>)
    requires Resolved(catalog, us)
    ensures |rows| == |Dedup(Ids(us))|
    ensures forall k :: 0 <= k < |rows| ==> rows[k].ingredient.id == Dedup(Ids(us))[k]
    ensures forall k :: 0 <= k < |rows| ==> rows[k].ingredient in catalog
    ensures forall i, j :: 0 <= i < j < |rows| ==> rows[i].ingredient.id != rows[j].ingredient.id
    ensures forall key :: key in Ids(us) <==> exists k :: 0 <= k < |rows| && rows[k].ingredient.id == key
  {
    var keys := Dedup(Ids(us));
    assert forall k :: 0 <= k < |keys| ==> Resolves(catalog, keys[k]) by {
      forall k | 0 <= k < |keys| ensures Resolves(catalog, keys[k]) {
        assert keys[k] in Ids(us);
      }
    }
    seq(|keys|, k requires 0 <= k < |keys| =>
      Row(FindIngredient(catalog, keys[k]).value, RecipesOf(us, keys[k]), TextsOf(us, keys[k])))
  }

  // ---------------------------------------------------------------------------
  // The merge loop

  /** `list.findIndex(row => row.ingredient.id === key)`. */
  function FindRowIndex(list: seq<Row>, key: string): (k: int)
    ensures -1 <= k < |list|
    ensures k >= 0 ==> list[k].ingredient.id == key
    ensures k >= 0 ==> forall j :: 0 <= j < k ==> list[j].ingredient.id != key
    ensures k < 0 <==> forall j :: 0 <= j < |list| ==> list[j].ingredient.id != key
  {
    if |list| == 0 then -1
    else if list[0].ingredient.id == key then 0
    else
      var k := FindRowIndex(list[1..], key);
      if k < 0 then -1 else k + 1
  }

  /** The row a first use creates. */
  function NewRow(u: Use, catalog: seq<Ingredient>): Row
    requires Resolves(catalog, u.id)
  {
    Row(FindIngredient(catalog, u.id).value,
        if u.origin.FromRecipe? then [u.origin.recipe] else [],
        if u.origin.FromList? && u.origin.text != "" then [u.origin.text] else [])
  }

  /** The row after a further use of its ingredient. */
  function Absorb(row: Row, u: Use): Row {
    match u.origin
    case FromRecipe(r) => row.(recipes := row.recipes + [r])
    case FromList(t) => if t != "" then row.(texts := row.texts + [t]) else row
  }

  lemma IdsAppend(us: seq<Use>, u: Use)
    ensures Ids(us + [u]) == Ids(us) + [u.id]
  {
  }

  lemma RecipesOfAppend(us: seq<Use>, u: Use, key: string)
    ensures RecipesOf(us + [u], key) == RecipesOf(us, key) + (if u.id == key && u.origin.FromRecipe? then [u.origin.recipe] else [])
  {
    assert (us + [u])[..|us|] == us;
  }

  lemma TextsOfAppend(us: seq<Use>, u: Use, key: string)
    ensures TextsOf(us + [u], key) == TextsOf(us, key) + (if u.id == key && u.origin.FromList? && u.origin.text != "" then [u.origin.text] else [])
  {
    assert (us + [u])[..|us|] == us;
  }

  lemma DedupAppend(us: seq<Use>, u: Use)
    ensures Dedup(Ids(us + [u])) == if u.id in Ids(us) then Dedup(Ids(us)) else Dedup(Ids(us)) + [u.id]
  {
    IdsAppend(us, u);
    var ids' := Ids(us + [u]);
    assert ids'[..|ids'| - 1] == Ids(us);
  }

  /** One more use either appends a new row (first visit of its id) or updates
      the row that `findIndex` finds; this is the step of the merge loop. */
  lemma AggregateAppend(us: seq<Use>, u: Use, catalog: seq<Ingredient>)
    requires Resolved(catalog, us) && Resolves(catalog, u.id)
    ensures Resolved(catalog, us + [u])
    ensures var rows := Aggregate(us, catalog);
            var i := FindRowIndex(rows, u.id);
            Aggregate(us + [u], catalog) == if i < 0 then rows + [NewRow(u, catalog)] else rows[i := Absorb(rows[i], u)]
  {
    IdsAppend(us, u);
    DedupAppend(us, u);
    if u.id in Ids(us) {
      AggregateAppendSeen(us, u, catalog);
    } else {
      AggregateAppendFresh(us, u, catalog);
    }
  }

  lemma AggregateAppendSeen(us: seq<Use>, u: Use, catalog: seq<Ingredient>)
    requires Resolved(catalog, us) && Resolves(catalog, u.id)
    requires Resolved(catalog, us + [u])
    requires u.id in Ids(us)
    ensures var rows := Aggregate(us, catalog);
            var i := FindRowIndex(rows, u.id);
            0 <= i && Aggregate(us + [u], catalog) == rows[i := Absorb(rows[i], u)]
  {
    DedupAppend(us, u);
    var rows, rows' := Aggregate(us, catalog), Aggregate(us + [u], catalog);
    var i := FindRowIndex(rows, u.id);
    assert 0 <= i && Dedup(Ids(us))[i] == u.id;
    forall j | 0 <= j < |rows'|
      ensures rows'[j] == rows[i := Absorb(rows[i], u)][j]
    {
      AggregateSeenRow(us, u, catalog, i, j);
    }
  }

  /** Row `j` after a further use of the ingredient of row `i`. */
  lemma AggregateSeenRow(us: seq<Use>, u: Use, catalog: seq<Ingredient>, i: nat, j: nat)
    requires Resolved(catalog, us) && Resolved(catalog, us + [u])
    requires Dedup(Ids(us + [u])) == Dedup(Ids(us))
    requires i < |Dedup(Ids(us))| && Dedup(Ids(us))[i] == u.id
    requires j < |Dedup(Ids(us))|
    ensures Aggregate(us + [u], catalog)[j]
         == if j == i then Absorb(Aggregate(us, catalog)[i], u) else Aggregate(us, catalog)[j]
  {
    var key := Dedup(Ids(us))[j];
    AggregateAt(us, catalog, j);
    AggregateAt(us + [u], catalog, j);
    RecipesOfAppend(us, u, key);
    TextsOfAppend(us, u, key);
    if j != i {
      assert Aggregate(us, catalog)[j].ingredient.id != Aggregate(us, catalog)[i].ingredient.id;
    }
  }

  /** Row `j` of the merge, field by field. */
  lemma AggregateAt(us: seq<Use>, catalog: seq<Ingredient>, j: nat)
    requires Resolved(catalog, us) && j < |Dedup(Ids(us))|
    ensures var key := Dedup(Ids(us))[j];
      && Resolves(catalog, key)
      && Aggregate(us, catalog)[j] == Row(FindIngredient(catalog, key).value, RecipesOf(us, key), TextsOf(us, key))
  {
    assert Dedup(Ids(us))[j] in Ids(us);
  }

  lemma AggregateAppendFresh(us: seq<Use>, u: Use, catalog: seq<Ingredient>)
    requires Resolved(catalog, us) && Resolves(catalog, u.id)
    requires Resolved(catalog, us + [u])
    requires u.id !in Ids(us)
    ensures var rows := Aggregate(us, catalog);
            FindRowIndex(rows, u.id) < 0 && Aggregate(us + [u], catalog) == rows + [NewRow(u, catalog)]
  {
    DedupAppend(us, u);
    var rows, rows' := Aggregate(us, catalog), Aggregate(us + [u], catalog);
    forall j | 0 <= j < |rows'|
      ensures rows'[j] == (rows + [NewRow(u, catalog)])[j]
    {
      AggregateFreshRow(us, u, catalog, j);
    }
  }

  /** Row `j` after a first use of a new ingredient. */
  lemma AggregateFreshRow(us: seq<Use>, u: Use, catalog: seq<Ingredient>, j: nat)
    requires Resolved(catalog, us) && Resolved(catalog, us + [u]) && Resolves(catalog, u.id)
    requires u.id !in Ids(us)
    requires Dedup(Ids(us + [u])) == Dedup(Ids(us)) + [u.id]
    requires j <= |Dedup(Ids(us))|
    ensures Aggregate(us + [u], catalog)[j]
         == if j == |Dedup(Ids(us))| then NewRow(u, catalog) else Aggregate(us, catalog)[j]
  {
    var key := Dedup(Ids(us + [u]))[j];
    AggregateAt(us + [u], catalog, j);
    RecipesOfAppend(us, u, key);
    TextsOfAppend(us, u, key);
    if j == |Dedup(Ids(us))| {
      RecipesOfAbsent(us, u.id);
      TextsOfAbsent(us, u.id);
    } else {
      AggregateAt(us, catalog, j);
    }
  }

  lemma {:induction false} RecipesOfAbsent(us: seq<Use>, key: string)
    requires key !in Ids(us)
    ensures RecipesOf(us, key) == []
  {
    if |us| > 0 {
      var init := us[..|us| - 1];
      assert Ids(init) == Ids(us)[..|us| - 1];
      RecipesOfAbsent(init, key);
    }
  }

  lemma {:induction false} TextsOfAbsent(us: seq<Use>, key: string)
    requires key !in Ids(us)
    ensures TextsOf(us, key) == []
  {
    if |us| > 0 {
      var init := us[..|us| - 1];
      assert Ids(init) == Ids(us)[..|us| - 1];
      TextsOfAbsent(init, key);
    }
  }

  /** Every ingredient a selected recipe lists, and every standalone entry's
      ingredient, is in the catalogue. The page dereferences the result of
      `find` without a check, so the derivation fails otherwise. */
  predicate AllResolve(catalog: seq<Ingredient>, recipes: seq<Recipe>, items: seq<Standalone>) {
    && (forall r, ri :: r in recipes && ri in r.ingredients ==> Resolves(catalog, ri.ingredient))
    && (forall it :: it in items ==> Resolves(catalog, it.ingredient.id))
  }

  /** The `ingredientsFormated` memo: the listings of the selected recipes and
      then the standalone entries, merged by ingredient id. */
  method IngredientsFormatted(recipes: seq<Recipe>, items: seq<Standalone>, catalog: seq<Ingredient>)
    returns (list: seq<Row>)
    requires AllResolve(catalog, recipes, items)
    ensures Resolved(catalog, Uses(recipes, items))
    ensures list == Aggregate(Uses(recipes, items), catalog)
  {
    list := MergeRecipes(recipes, catalog);
    list := MergeItems(list, RecipesUses(recipes), items, catalog);
  }

  /** `recipes.forEach(recipe => recipe.ingredients.forEach(...))`: the
      listings of each selected recipe in turn. */
  method MergeRecipes(recipes: seq<Recipe>, catalog: seq<Ingredient>) returns (list: seq<Row>)
    requires forall r, ri :: r in recipes && ri in r.ingredients ==> Resolves(catalog, ri.ingredient)
    ensures Resolved(catalog, RecipesUses(recipes))
    ensures list == Aggregate(RecipesUses(recipes), catalog)
  {
    list := [];
    for r := 0 to |recipes|
      invariant Resolved(catalog, RecipesUses(recipes[..r]))
      invariant list == Aggregate(RecipesUses(recipes[..r]), catalog)
    {
      assert recipes[..r + 1][..r] == recipes[..r];
      list := MergeListings(list, RecipesUses(recipes[..r]), recipes[r], catalog);
    }
    assert recipes[..|recipes|] == recipes;
  }

  /** `recipe.ingredients.forEach(...)`, continuing the merge of the uses
      `before`: a listing whose ingredient has no row yet pushes a new row
      with the recipe; otherwise the recipe is pushed onto the row
      `findIndex` finds. */
  method MergeListings(list0: seq<Row>, ghost before: seq<Use>, recipe: Recipe, catalog: seq<Ingredient>)
    returns (list: seq<Row>)
    requires Resolved(catalog, before) && list0 == Aggregate(before, catalog)
    requires forall ri :: ri in recipe.ingredients ==> Resolves(catalog, ri.ingredient)
    ensures Resolved(catalog, before + RecipeUses(recipe))
    ensures list == Aggregate(before + RecipeUses(recipe), catalog)
  {
    list := list0;
    ghost var done := before;
    for j := 0 to |recipe.ingredients|
      invariant done == before + RecipeUses(recipe)[..j]
      invariant Resolved(catalog, done)
      invariant list == Aggregate(done, catalog)
    {
      var listing := recipe.ingredients[j];
      assert listing in recipe.ingredients;
      var u := Use(listing.ingredient, FromRecipe(recipe));
      assert RecipeUses(recipe)[j] == u;
      AggregateAppend(done, u, catalog);
      var index := FindRowIndex(list, listing.ingredient);
      if index < 0 {
        list := list + [NewRow(u, catalog)];
      } else {
        list := list[index := Absorb(list[index], u)];
      }
      TakeSnoc(RecipeUses(recipe), j);
      ConcatSnoc(before, RecipeUses(recipe)[..j], u);
      done := done + [u];
    }
    assert RecipeUses(recipe)[..|recipe.ingredients|] == RecipeUses(recipe);
  }

  /** `ingredients.forEach(...)` over the standalone entries, continuing the
      merge of the uses `before`: an entry whose ingredient has no row yet
      pushes a new row holding its quantity when that is non-empty; otherwise
      a non-empty quantity is pushed onto the found row's texts. */
  method MergeItems(list0: seq<Row>, ghost before: seq<Use>, items: seq<Standalone>, catalog: seq<Ingredient>)
    returns (list: seq<Row>)
    requires Resolved(catalog, before) && list0 == Aggregate(before, catalog)
    requires forall it :: it in items ==> Resolves(catalog, it.ingredient.id)
    ensures Resolved(catalog, before + ItemUses(items))
    ensures list == Aggregate(before + ItemUses(items), catalog)
  {
    list := list0;
    ghost var done := before;
    for k := 0 to |items|
      invariant done == before + ItemUses(items)[..k]
      invariant Resolved(catalog, done)
      invariant list == Aggregate(done, catalog)
    {
      var item := items[k];
      assert item in items;
      var u := Use(item.ingredient.id, FromList(item.quantityDescription));
      assert ItemUses(items)[k] == u;
      AggregateAppend(done, u, catalog);
      var index := FindRowIndex(list, item.ingredient.id);
      if index < 0 {
        list := list + [NewRow(u, catalog)];
      } else if item.quantityDescription != "" {
        list := list[index := Absorb(list[index], u)];
      } else {
        assert list[index := Absorb(list[index], u)] == list;
      }
      TakeSnoc(ItemUses(items), k);
      ConcatSnoc(before, ItemUses(items)[..k], u);
      done := done + [u];
    }
    assert ItemUses(items)[..|items|] == ItemUses(items);
  }

  // ---------------------------------------------------------------------------
  // What the merged list holds

  /** How many listings of `key` the recipe has. */
  function CountListings(listings: seq<RecipeIngredient>, key: string): nat {
    if |listings| == 0 then 0
    else CountListings(listings[..|listings| - 1], key) + (if listings[|listings| - 1].ingredient == key then 1 else 0)
  }

  /** Each recipe once per listing of `key`, in recipe order. */
  function ListingsOf(recipes: seq<Recipe>, key: string): seq<Recipe> {
    if |recipes| == 0 then []
    else
      var r := recipes[|recipes| - 1];
      ListingsOf(recipes[..|recipes| - 1], key) + Repeat(r, CountListings(r.ingredients, key))
  }

  /** The non-empty quantities of the standalone entries for `key`, in order. */
  function StandaloneTexts(items: seq<Standalone>, key: string): seq<string> {
    if |items| == 0 then []
    else
      var it := items[|items| - 1];
      StandaloneTexts(items[..|items| - 1], key)
        + (if it.ingredient.id == key && it.quantityDescription != "" then [it.quantityDescription] else [])
  }

  lemma {:induction false} CountListingsPositive(listings: seq<RecipeIngredient>, key: string)
    ensures CountListings(listings, key) > 0 <==> exists k :: 0 <= k < |listings| && listings[k].ingredient == key
  {
    if |listings| > 0 {
      var init := listings[..|listings| - 1];
      CountListingsPositive(init, key);
      if exists k :: 0 <= k < |init| && init[k].ingredient == key {
        var k :| 0 <= k < |init| && init[k].ingredient == key;
        assert listings[k] == init[k];
      }
      if exists k :: 0 <= k < |listings| && listings[k].ingredient == key {
        var k :| 0 <= k < |listings| && listings[k].ingredient == key;
        if k < |init| {
          assert init[k] == listings[k];
        }
      }
    }
  }

  lemma {:induction false} RecipesOfConcat(a: seq<Use>, b: seq<Use>, key: string)
    ensures RecipesOf(a + b, key) == RecipesOf(a, key) + RecipesOf(b, key)
    ensures TextsOf(a + b, key) == TextsOf(a, key) + TextsOf(b, key)
  {
    RecipesOfConcatOnly(a, b, key);
    TextsOfConcat(a, b, key);
  }

  lemma {:induction false} RecipesOfConcatOnly(a: seq<Use>, b: seq<Use>, key: string)
    ensures RecipesOf(a + b, key) == RecipesOf(a, key) + RecipesOf(b, key)
    decreases |b|
  {
    if |b| == 0 {
      assert a + b == a;
    } else {
      var b0, u := b[..|b| - 1], b[|b| - 1];
      RecipesOfConcatOnly(a, b0, key);
      assert a + b == (a + b0) + [u];
      assert b == b0 + [u];
      RecipesOfAppend(a + b0, u, key);
      RecipesOfAppend(b0, u, key);
    }
  }

  lemma {:induction false} TextsOfConcat(a: seq<Use>, b: seq<Use>, key: string)
    ensures TextsOf(a + b, key) == TextsOf(a, key) + TextsOf(b, key)
    decreases |b|
  {
    if |b| == 0 {
      assert a + b == a;
    } else {
      var b0, u := b[..|b| - 1], b[|b| - 1];
      TextsOfConcat(a, b0, key);
      assert a + b == (a + b0) + [u];
      assert b == b0 + [u];
      TextsOfAppend(a + b0, u, key);
      TextsOfAppend(b0, u, key);
    }
  }

  lemma {:induction false} RecipesOfRecipeUses(r: Recipe, key: string, j: nat)
    requires j <= |r.ingredients|
    ensures RecipesOf(RecipeUses(r)[..j], key) == Repeat(r, CountListings(r.ingredients[..j], key))
    ensures TextsOf(RecipeUses(r)[..j], key) == []
  {
    if j > 0 {
      RecipesOfRecipeUses(r, key, j - 1);
      var us := RecipeUses(r);
      TakeSnoc(us, j - 1);
      RecipesOfAppend(us[..j - 1], us[j - 1], key);
      TextsOfAppend(us[..j - 1], us[j - 1], key);
      assert r.ingredients[..j][..j - 1] == r.ingredients[..j - 1];
      RepeatSnoc(r, CountListings(r.ingredients[..j - 1], key));
    }
  }

  lemma {:induction false} RecipesOfRecipesUses(recipes: seq<Recipe>, key: string)
    ensures RecipesOf(RecipesUses(recipes), key) == ListingsOf(recipes, key)
    ensures TextsOf(RecipesUses(recipes), key) == []
  {
    if |recipes| > 0 {
      var r := recipes[|recipes| - 1];
      RecipesOfRecipesUses(recipes[..|recipes| - 1], key);
      RecipesOfConcat(RecipesUses(recipes[..|recipes| - 1]), RecipeUses(r), key);
      RecipesOfRecipeUses(r, key, |r.ingredients|);
      assert RecipeUses(r)[..|r.ingredients|] == RecipeUses(r);
      assert r.ingredients[..|r.ingredients|] == r.ingredients;
    }
  }

  lemma {:induction false} RecipesOfItemUses(items: seq<Standalone>, key: string)
    ensures RecipesOf(ItemUses(items), key) == []
    ensures TextsOf(ItemUses(items), key) == StandaloneTexts(items, key)
  {
    if |items| > 0 {
      var init := items[..|items| - 1];
      RecipesOfItemUses(init, key);
      var us := ItemUses(items);
      assert us == ItemUses(init) + [us[|items| - 1]];
      RecipesOfAppend(ItemUses(init), us[|items| - 1], key);
      TextsOfAppend(ItemUses(init), us[|items| - 1], key);
    }
  }

  /** The row of each ingredient holds every selected recipe once per listing
      of the ingredient, in selection order, and exactly the non-empty
      quantities of the standalone entries for it, in list order. */
  lemma AggregateRows(recipes: seq<Recipe>, items: seq<Standalone>, catalog: seq<Ingredient>)
    requires Resolved(catalog, Uses(recipes, items))
    ensures var rows := Aggregate(Uses(recipes, items), catalog);
      forall k :: 0 <= k < |rows| ==>
        && rows[k].ingredient == FindIngredient(catalog, rows[k].ingredient.id).value
        && rows[k].recipes == ListingsOf(recipes, rows[k].ingredient.id)
        && rows[k].texts == StandaloneTexts(items, rows[k].ingredient.id)
  {
    var rows := Aggregate(Uses(recipes, items), catalog);
    forall k | 0 <= k < |rows|
      ensures rows[k].recipes == ListingsOf(recipes, rows[k].ingredient.id)
      ensures rows[k].texts == StandaloneTexts(items, rows[k].ingredient.id)
    {
      var key := rows[k].ingredient.id;
      RecipesOfConcat(RecipesUses(recipes), ItemUses(items), key);
      RecipesOfRecipesUses(recipes, key);
      RecipesOfItemUses(items, key);
    }
  }

  /** A recipe appears in a row only when it is selected and lists the row's
      ingredient. */
  lemma {:induction false} ListingsOfMembers(recipes: seq<Recipe>, key: string)
    ensures forall r :: r in ListingsOf(recipes, key) ==> r in recipes && Lists(r, key)
  {
    if |recipes| > 0 {
      var init, last := recipes[..|recipes| - 1], recipes[|recipes| - 1];
      ListingsOfMembers(init, key);
      CountListingsPositive(last.ingredients, key);
      assert recipes == init + [last];
    }
  }

  /** Rows appear in the order in which their ingredient is first visited. */
  lemma AggregateFirstVisitOrder(us: seq<Use>, catalog: seq<Ingredient>)
    requires Resolved(catalog, us)
    ensures var rows := Aggregate(us, catalog);
      forall i, j :: 0 <= i < j < |rows| ==>
        FirstIndex(Ids(us), rows[i].ingredient.id) < FirstIndex(Ids(us), rows[j].ingredient.id)
  {
    DedupFirstOccurrenceOrder(Ids(us));
  }

  /** The ingredients of the selected recipes come first, in the order in which
      the recipes list them, and only then the ingredients that appear only as
      standalone entries. */
  lemma RecipeIngredientsFirst(recipes: seq<Recipe>, items: seq<Standalone>, catalog: seq<Ingredient>)
    requires Resolved(catalog, Uses(recipes, items))
    ensures var rows := Aggregate(Uses(recipes, items), catalog);
      var fromRecipes := Dedup(Ids(RecipesUses(recipes)));
      && |fromRecipes| <= |rows|
      && (forall k :: 0 <= k < |fromRecipes| ==> rows[k].ingredient.id == fromRecipes[k])
      && (forall k :: |fromRecipes| <= k < |rows| ==>
            rows[k].ingredient.id !in Ids(RecipesUses(recipes)) && rows[k].ingredient.id in Ids(ItemUses(items)))
  {
    var a, b := Ids(RecipesUses(recipes)), Ids(ItemUses(items));
    assert Ids(Uses(recipes, items)) == a + b;
    DedupPrefix(a, b);
    DedupSuffix(a, b);
  }
}
