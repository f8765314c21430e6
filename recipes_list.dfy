/** The recipe list: clicking a recipe toggles it in the selection when
    selection is enabled; each row shows the recipe's ingredient names and,
    outside selection, an "on list" chip for recipes on the shopping list. */
module RecipesList {
  import opened Wrappers
  import opened Seqs
  import opened Domain

  /** The ids other than `id`. */
  function Other(id: string): string -> bool {
    (x: string) => x != id
  }

  /** The selection a click reports (the handler's body): the id pushed onto
      a copy when `indexOf` finds no occurrence, otherwise the copy with every
      occurrence filtered out. */
  function Toggled(checkeds: seq<string>, id: string): seq<string> {
    if id !in checkeds then checkeds + [id] else Filter(Other(id), checkeds)
  }

  /** The click handler of `handleOnClick(id)`: none while selection is
      disabled; otherwise the list it passes to `onChangeCheckeds`. */
  function ClickHandler(enableSelection: bool, checkeds: seq<string>, id: string): (r: Option<seq<string>>)
    ensures r.None? <==> !enableSelection
    ensures r.Some? ==> r.value == Toggled(checkeds, id)
  {
    if !enableSelection then None else Some(Toggled(checkeds, id))
  }

  /** Toggling an absent id appends it at the end and keeps the rest. */
  lemma ToggleAbsent(checkeds: seq<string>, id: string)
    requires id !in checkeds
    ensures |Toggled(checkeds, id)| == |checkeds| + 1
    ensures Toggled(checkeds, id)[..|checkeds|] == checkeds
    ensures Toggled(checkeds, id)[|checkeds|] == id
  {
  }

  /** Removing an id drops exactly its occurrences. */
  lemma {:induction false} FilterOtherMultiset(s: seq<string>, id: string)
    ensures multiset(Filter(Other(id), s)) == multiset(s)[id := 0]
  {
    if |s| > 0 {
      FilterOtherMultiset(s[1..], id);
      assert s == [s[0]] + s[1..];
    }
  }

  /** Toggling a present id removes every occurrence of it and keeps the other
      ids, with their multiplicities and in their order. */
  lemma TogglePresent(checkeds: seq<string>, id: string)
    requires id in checkeds
    ensures id !in Toggled(checkeds, id)
    ensures multiset(Toggled(checkeds, id)) == multiset(checkeds)[id := 0]
    ensures Toggled(checkeds, id) == Filter(Other(id), checkeds)
  {
    FilterOtherMultiset(checkeds, id);
  }

  /** Toggling an absent id twice restores the selection. */
  lemma ToggleTwice(checkeds: seq<string>, id: string)
    requires id !in checkeds
    ensures Toggled(Toggled(checkeds, id), id) == checkeds
  {
    assert id in checkeds + [id];
    FilterAppend(Other(id), checkeds, [id]);
    FilterAll(Other(id), checkeds);
    FilterSingleton(Other(id), id);
    assert checkeds + [] == checkeds;
  }

  /** The name an ingredient listing shows: the catalogue name, or "" for an
      id the catalogue lacks (`join` prints `undefined` as nothing). */
  function ListingName(catalog: seq<Ingredient>, listing: RecipeIngredient): string {
    match FindIngredient(catalog, listing.ingredient)
    case Some(i) => i.name
    case None => ""
  }

  function ListingNames(catalog: seq<Ingredient>, recipe: Recipe): (names: seq<string>)
    ensures |names| == |recipe.ingredients|
    ensures forall k :: 0 <= k < |names| ==> names[k] == ListingName(catalog, recipe.ingredients[k])
  {
    seq(|recipe.ingredients|, k requires 0 <= k < |recipe.ingredients| => ListingName(catalog, recipe.ingredients[k]))
  }

  /** The secondary text of a recipe row: its ingredients' names, in listing
      order, joined by ", ". */
  function SecondaryText(catalog: seq<Ingredient>, recipe: Recipe): string {
    Join(ListingNames(catalog, recipe), ", ")
  }

  /** Adding a listing at the end adds ", " and its name, or only its name to
      a recipe without listings. */
  lemma {:induction false} SecondaryTextSnoc(catalog: seq<Ingredient>, recipe: Recipe, listing: RecipeIngredient)
    ensures var longer := recipe.(ingredients := recipe.ingredients + [listing]);
      SecondaryText(catalog, longer)
        == if |recipe.ingredients| == 0 then ListingName(catalog, listing)
           else SecondaryText(catalog, recipe) + ", " + ListingName(catalog, listing)
  {
    var longer := recipe.(ingredients := recipe.ingredients + [listing]);
    assert ListingNames(catalog, longer) == ListingNames(catalog, recipe) + [ListingName(catalog, listing)];
    JoinSnoc(ListingNames(catalog, recipe), ListingName(catalog, listing), ", ");
  }

  /** The controls of a recipe row: a checkbox (with its state) while
      selecting, the "on list" chip and the edit button otherwise. */
  datatype RowControls = RowControls(checkbox: Option<bool>, onListChip: bool, editButton: bool)

  function Controls(enableSelection: bool, showIsInList: bool, checkeds: seq<string>,
                    listRecipes: seq<string>, id: string): (c: RowControls)
    ensures c.checkbox.Some? <==> enableSelection
    ensures c.checkbox.Some? ==> (c.checkbox.value <==> id in checkeds)
    ensures c.onListChip <==> showIsInList && !enableSelection && id in listRecipes
    ensures c.editButton <==> !enableSelection
    ensures !(c.onListChip && c.checkbox.Some?)
  {
    RowControls(if enableSelection then Some(id in checkeds) else None,
                showIsInList && !enableSelection && id in listRecipes,
                !enableSelection)
  }
}
