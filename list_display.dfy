/** The ingredient view of the shopping list (`actualTextsToDisplays`): each
    merged row becomes an item with its sorted description strings, and the
    items are sorted by name and, when the group asks for it, with checked
    items first. */
module ListDisplay {
  import opened Seqs
  import opened Sorting
  import opened Domain
  import opened ShoppingList

  /** One displayed item: the ingredient and its description strings. */
  datatype DisplayItem = DisplayItem(ingredient: Ingredient, descriptions: seq<string>)

  /** The "quantity for recipe" phrase of each recipe of a row that lists the
      ingredient, with the quantity of its first listing; a recipe that does
      not list it adds nothing. */
  function RecipeDescriptions(recipes: seq<Recipe>, key: string, t: Phrases): seq<string> {
    if |recipes| == 0 then []
    else
      var r := recipes[|recipes| - 1];
      RecipeDescriptions(recipes[..|recipes| - 1], key, t)
        + match FindListing(r.ingredients, key)
          case Some(ri) => [t.quantityForRecipe(ri.quantity, r.name)]
          case None => []
  }

  /** The item of one row: its texts and its recipe phrases, sorted by UTF-16
      code units (the bare `descriptions.sort()`). */
  function Describe(row: Row, t: Phrases): DisplayItem {
    DisplayItem(row.ingredient,
      SortBy(row.texts + RecipeDescriptions(row.recipes, row.ingredient.id, t), CodeUnitLe))
  }

  function Described(rows: seq<Row>, t: Phrases): (items: seq<DisplayItem>)
    ensures |items| == |rows|
    ensures forall k :: 0 <= k < |rows| ==> items[k] == Describe(rows[k], t)
  {
    seq(|rows|, k requires 0 <= k < |rows| => Describe(rows[k], t))
  }

  /** `itemA.ingredient.name.localeCompare(itemB.ingredient.name, language) <= 0`. */
  function NameLe(le: (string, string) -> bool): (DisplayItem, DisplayItem) -> bool {
    (a: DisplayItem, b: DisplayItem) => le(a.ingredient.name, b.ingredient.name)
  }

  /** `checkedIngredients.includes(item.ingredient.id)`. */
  function IsChecked(checked: seq<string>): DisplayItem -> bool {
    (a: DisplayItem) => a.ingredient.id in checked
  }

  /** The checked-first comparator: -1 when only `a` is checked, 1 when only
      `b` is, 0 otherwise. */
  function CompareChecked(checked: seq<string>, a: DisplayItem, b: DisplayItem): int {
    var aChecked := a.ingredient.id in checked;
    var bChecked := b.ingredient.id in checked;
    if aChecked && !bChecked then -1
    else if bChecked && !aChecked then 1
    else 0
  }

  function CheckedLe(checked: seq<string>): (DisplayItem, DisplayItem) -> bool {
    (a: DisplayItem, b: DisplayItem) => CompareChecked(checked, a, b) <= 0
  }

  /** The order of the items: by name, then (stably) checked ones first. */
  function Arrange(items: seq<DisplayItem>, le: (string, string) -> bool, showCheckedsFirst: bool, checked: seq<string>)
    : seq<DisplayItem>
  {
    var byName := SortBy(items, NameLe(le));
    if showCheckedsFirst then SortBy(byName, CheckedLe(checked)) else byName
  }

  /** `actualTextsToDisplays`: maps each row to its item, then sorts the
      items in place by name and, if asked, with checked items first. */
  method TextsToDisplay(rows: seq<Row>, t: Phrases, le: (string, string) -> bool,
                        showCheckedsFirst: bool, checked: seq<string>)
    returns (items: seq<DisplayItem>)
    ensures items == Arrange(Described(rows, t), le, showCheckedsFirst, checked)
  {
    items := [];
    for k := 0 to |rows|
      invariant |items| == k
      invariant forall j :: 0 <= j < k ==> items[j] == Describe(rows[j], t)
    {
      var descriptions := Descriptions(rows[k], t);
      items := items + [DisplayItem(rows[k].ingredient, descriptions)];
    }
    assert items == Described(rows, t);
    items := SortBy(items, NameLe(le));
    if showCheckedsFirst {
      items := SortBy(items, CheckedLe(checked));
    }
  }

  /** The descriptions of one row: a copy of its texts, a phrase pushed for
      each of its recipes that lists the ingredient, then sorted. */
  method Descriptions(row: Row, t: Phrases) returns (descriptions: seq<string>)
    ensures descriptions == Describe(row, t).descriptions
  {
    descriptions := row.texts;
    for m := 0 to |row.recipes|
      invariant descriptions == row.texts + RecipeDescriptions(row.recipes[..m], row.ingredient.id, t)
    {
      var recipe := row.recipes[m];
      var found := FindListing(recipe.ingredients, row.ingredient.id);
      assert row.recipes[..m + 1][..m] == row.recipes[..m];
      if found.Some? {
        descriptions := descriptions + [t.quantityForRecipe(found.value.quantity, recipe.name)];
      }
    }
    assert row.recipes[..|row.recipes|] == row.recipes;
    descriptions := SortBy(descriptions, CodeUnitLe);
  }

  // ---------------------------------------------------------------------------
  // Properties

  /** A recipe adds exactly one phrase when it lists the ingredient. */
  lemma {:induction false} RecipeDescriptionsCount(recipes: seq<Recipe>, key: string, t: Phrases)
    requires forall r :: r in recipes ==> Lists(r, key)
    ensures |RecipeDescriptions(recipes, key, t)| == |recipes|
  {
    if |recipes| > 0 {
      var init, r := recipes[..|recipes| - 1], recipes[|recipes| - 1];
      assert forall x :: x in init ==> x in recipes;
      RecipeDescriptionsCount(init, key, t);
      assert Lists(r, key);
      var k :| 0 <= k < |r.ingredients| && r.ingredients[k].ingredient == key;
      assert FindListing(r.ingredients, key).Some?;
    }
  }

  /** An item's descriptions are a permutation of its texts and its recipe
      phrases, and are sorted by code units. */
  lemma DescriptionsSorted(row: Row, t: Phrases)
    ensures multiset(Describe(row, t).descriptions)
         == multiset(row.texts + RecipeDescriptions(row.recipes, row.ingredient.id, t))
    ensures SortedBy(CodeUnitLe, Describe(row, t).descriptions)
  {
    CodeUnitOrderIsTotalPreorder();
    SortBySorted(row.texts + RecipeDescriptions(row.recipes, row.ingredient.id, t), CodeUnitLe);
  }

  /** On the merged list every item has one description per text and one per
      recipe, since each recipe of a row lists the row's ingredient. */
  lemma DescriptionCount(recipes: seq<Recipe>, items: seq<Standalone>, catalog: seq<Ingredient>, t: Phrases)
    requires Resolved(catalog, Uses(recipes, items))
    ensures var rows := Aggregate(Uses(recipes, items), catalog);
      forall k :: 0 <= k < |rows| ==>
        |Describe(rows[k], t).descriptions| == |rows[k].texts| + |rows[k].recipes|
  {
    var rows := Aggregate(Uses(recipes, items), catalog);
    AggregateRows(recipes, items, catalog);
    forall k | 0 <= k < |rows|
      ensures |Describe(rows[k], t).descriptions| == |rows[k].texts| + |rows[k].recipes|
    {
      ListingsOfMembers(recipes, rows[k].ingredient.id);
      RecipeDescriptionsCount(rows[k].recipes, rows[k].ingredient.id, t);
    }
  }

  lemma NameOrderIsTotalPreorder(le: (string, string) -> bool)
    requires TotalPreorder(le)
    ensures TotalPreorder(NameLe(le))
  {
    forall a: DisplayItem, b: DisplayItem ensures NameLe(le)(a, b) || NameLe(le)(b, a) {
      assert le(a.ingredient.name, b.ingredient.name) || le(b.ingredient.name, a.ingredient.name);
    }
    forall a: DisplayItem, b: DisplayItem, c: DisplayItem | NameLe(le)(a, b) && NameLe(le)(b, c)
      ensures NameLe(le)(a, c)
    {
      assert le(a.ingredient.name, b.ingredient.name) && le(b.ingredient.name, c.ingredient.name);
    }
  }

  /** Without the checked-first filter the items are a permutation of the
      described rows, non-decreasing by name. */
  lemma ArrangeByName(items: seq<DisplayItem>, le: (string, string) -> bool, checked: seq<string>)
    requires TotalPreorder(le)
    ensures multiset(Arrange(items, le, false, checked)) == multiset(items)
    ensures SortedBy(NameLe(le), Arrange(items, le, false, checked))
  {
    NameOrderIsTotalPreorder(le);
    SortBySorted(items, NameLe(le));
  }

  lemma CheckedLeMeansCheckedFirst(checked: seq<string>)
    ensures forall a, b :: CheckedLe(checked)(a, b) <==> IsChecked(checked)(a) || !IsChecked(checked)(b)
  {
  }

  /** With the checked-first filter the items are a permutation of the
      described rows; every checked item precedes every unchecked one, and
      within each class the items are in name order: each class is exactly
      its subsequence of the by-name arrangement, so items of equal name keep
      their relative order. */
  lemma ArrangeCheckedFirst(items: seq<DisplayItem>, le: (string, string) -> bool, checked: seq<string>)
    requires TotalPreorder(le)
    ensures var r := Arrange(items, le, true, checked);
      && multiset(r) == multiset(items)
      && (forall i, j :: 0 <= i < j < |r| && IsChecked(checked)(r[j]) ==> IsChecked(checked)(r[i]))
      && SortedBy(NameLe(le), Filter(IsChecked(checked), r))
      && SortedBy(NameLe(le), Filter(Not(IsChecked(checked)), r))
      && Filter(IsChecked(checked), r) == Filter(IsChecked(checked), Arrange(items, le, false, checked))
      && Filter(Not(IsChecked(checked)), r) == Filter(Not(IsChecked(checked)), Arrange(items, le, false, checked))
  {
    var c := IsChecked(checked);
    var byName := SortBy(items, NameLe(le));
    var r := Arrange(items, le, true, checked);
    NameOrderIsTotalPreorder(le);
    SortBySorted(items, NameLe(le));
    CheckedLeMeansCheckedFirst(checked);
    SortByTwoClasses(byName, CheckedLe(checked), c);
    var a, b := Filter(c, byName), Filter(Not(c), byName);
    assert r == a + b;
    ClassesConcat(c, byName);
    FilterSorted(c, byName, NameLe(le));
    FilterSorted(Not(c), byName, NameLe(le));
  }
}
