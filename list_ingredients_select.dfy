/** The dialog that edits the standalone entries of the shopping list: the
    selected ingredient ids, a quantity record kept in line with them, the
    entries it saves and the summary label of the current entries. */
module ListIngredientsSelect {
  import opened Seqs
  import opened Domain
  import opened RecipeHelpers

  function EntryId(e: ListEntry): string { e.i }
  function EntryQuantity(e: ListEntry): string { e.q }

  /** `getQuantityObject`: each entry's quantity under its ingredient id; a
      later entry with the same id overwrites an earlier one. */
  function QuantityObject(list: seq<ListEntry>): (m: map<string, string>)
    ensures m.Keys == set k | 0 <= k < |list| :: list[k].i
  {
    Assigned(list, EntryId, EntryQuantity)
  }

  /** The `forEach` loop that fills the record. */
  method GetQuantityObject(list: seq<ListEntry>) returns (quantities: map<string, string>)
    ensures quantities == QuantityObject(list)
  {
    quantities := map[];
    for k := 0 to |list|
      invariant quantities == QuantityObject(list[..k])
    {
      assert list[..k + 1][..k] == list[..k];
      quantities := quantities[list[k].i := list[k].q];
    }
    assert list[..|list|] == list;
  }

  /** A later entry with the same id wins. */
  lemma QuantityObjectLastWins(list: seq<ListEntry>, k: nat)
    requires k < |list|
    requires forall j :: k < j < |list| ==> list[j].i != list[k].i
    ensures list[k].i in QuantityObject(list) && QuantityObject(list)[list[k].i] == list[k].q
  {
    AssignedLastWins(list, EntryId, EntryQuantity, k);
  }

  /** `listIngredients.map(({ i }) => i)`. */
  function EntryIds(list: seq<ListEntry>): (ids: seq<string>)
    ensures |ids| == |list|
    ensures forall k :: 0 <= k < |list| ==> ids[k] == list[k].i
  {
    seq(|list|, k requires 0 <= k < |list| => list[k].i)
  }

  /** `currentIngredientsWithQuantity`: one entry per selected id, in
      selection order, with the recorded quantity or "". */
  function WithQuantities(selected: seq<string>, quantities: map<string, string>): (r: seq<ListEntry>)
    ensures |r| == |selected|
    ensures forall k :: 0 <= k < |selected| ==> r[k] == ListEntry(selected[k], QuantityOr(quantities, selected[k]))
  {
    seq(|selected|, k requires 0 <= k < |selected| => ListEntry(selected[k], QuantityOr(quantities, selected[k])))
  }

  /** The dialog's state. */
  class QuantityDialog {
    var currentSelecteds: seq<string>
    var ingredientsQuantity: map<string, string>

    /** The state starts from the list's entries. */
    constructor (listIngredients: seq<ListEntry>)
      ensures currentSelecteds == EntryIds(listIngredients)
      ensures ingredientsQuantity == QuantityObject(listIngredients)
    {
      var quantities := GetQuantityObject(listIngredients);
      currentSelecteds := EntryIds(listIngredients);
      ingredientsQuantity := quantities;
    }

    /** The effect that resets both fields when the list's entries change. */
    method Reset(listIngredients: seq<ListEntry>)
      modifies this
      ensures currentSelecteds == EntryIds(listIngredients)
      ensures ingredientsQuantity == QuantityObject(listIngredients)
    {
      currentSelecteds := EntryIds(listIngredients);
      ingredientsQuantity := GetQuantityObject(listIngredients);
    }

    /** The ingredient picker replaces the selection. */
    method SetCurrentSelecteds(ids: seq<string>)
      modifies this
      ensures currentSelecteds == ids && ingredientsQuantity == old(ingredientsQuantity)
    {
      currentSelecteds := ids;
    }

    /** A quantity field overwrites its ingredient's value. */
    method SetQuantity(ingredientId: string, value: string)
      modifies this
      ensures ingredientsQuantity == old(ingredientsQuantity)[ingredientId := value]
      ensures currentSelecteds == old(currentSelecteds)
    {
      ingredientsQuantity := ingredientsQuantity[ingredientId := value];
    }

    /** The effect that rebuilds the record when the selection changes. */
    method ReconcileQuantities()
      modifies this
      ensures ingredientsQuantity == Reconciled(old(currentSelecteds), old(ingredientsQuantity))
      ensures currentSelecteds == old(currentSelecteds)
    {
      ingredientsQuantity := Reconcile(currentSelecteds, ingredientsQuantity);
    }

    /** What saving the dialog hands to `onChange`. */
    function CurrentIngredientsWithQuantity(): seq<ListEntry>
      reads this
    {
      WithQuantities(currentSelecteds, ingredientsQuantity)
    }
  }

  /** Opening the dialog on entries with distinct ids and saving it unedited
      gives back the same entries, whether or not the reconcile effect ran in
      between. */
  lemma UneditedRoundTrip(list: seq<ListEntry>)
    requires forall i, j :: 0 <= i < j < |list| ==> list[i].i != list[j].i
    ensures WithQuantities(EntryIds(list), QuantityObject(list)) == list
    ensures WithQuantities(EntryIds(list), Reconciled(EntryIds(list), QuantityObject(list))) == list
  {
    UneditedSave(list);
    QuantityObjectCoversIds(list);
    ReconcileMatchingRecord(EntryIds(list), QuantityObject(list));
  }

  lemma UneditedSave(list: seq<ListEntry>)
    requires forall i, j :: 0 <= i < j < |list| ==> list[i].i != list[j].i
    ensures WithQuantities(EntryIds(list), QuantityObject(list)) == list
  {
    AssignedDistinct(list, EntryId, EntryQuantity);
    var r := WithQuantities(EntryIds(list), QuantityObject(list));
    assert forall k :: 0 <= k < |list| ==> r[k] == list[k];
  }

  /** The record has a key for each entry's id and no other. */
  lemma QuantityObjectCoversIds(list: seq<ListEntry>)
    ensures QuantityObject(list).Keys == set id | id in EntryIds(list)
  {
    var ids, m := EntryIds(list), QuantityObject(list);
    forall x | x in set id | id in ids ensures x in m {
      var k :| 0 <= k < |ids| && ids[k] == x;
      assert list[k].i == x;
    }
  }

  /** After the user types a quantity for a selected ingredient, the saved
      entry of that ingredient carries it. */
  lemma EditedQuantityIsSaved(selected: seq<string>, quantities: map<string, string>, k: nat, value: string)
    requires k < |selected|
    ensures WithQuantities(selected, quantities[selected[k] := value])[k] == ListEntry(selected[k], value)
  {
  }

  // ---------------------------------------------------------------------------
  // The summary label

  /** The catalogue ingredient has an entry on the list
      (`listIngredients.find(({ i }) => i === id)` gives an object, which is
      truthy). */
  function OnList(list: seq<ListEntry>): Ingredient -> bool {
    (x: Ingredient) => exists k :: 0 <= k < |list| && list[k].i == x.id
  }

  /** The catalogue ingredients that the list's entries name, in catalogue
      order. */
  function LabelledIngredients(catalog: seq<Ingredient>, list: seq<ListEntry>): (r: seq<Ingredient>)
    ensures forall x :: x in r <==> x in catalog && exists k :: 0 <= k < |list| && list[k].i == x.id
  {
    Filter(OnList(list), catalog)
  }

  function Names(xs: seq<Ingredient>): (names: seq<string>)
    ensures |names| == |xs|
    ensures forall k :: 0 <= k < |xs| ==> names[k] == xs[k].name
  {
    seq(|xs|, k requires 0 <= k < |xs| => xs[k].name)
  }

  /** `labels`: their names joined by ", ". */
  function Labels(catalog: seq<Ingredient>, list: seq<ListEntry>): string {
    Join(Names(LabelledIngredients(catalog, list)), ", ")
  }

  /** The label follows the catalogue's order, not the list's: splitting the
      catalogue splits the labelled ingredients the same way. */
  lemma LabelledInCatalogueOrder(a: seq<Ingredient>, b: seq<Ingredient>, list: seq<ListEntry>)
    ensures LabelledIngredients(a + b, list) == LabelledIngredients(a, list) + LabelledIngredients(b, list)
  {
    FilterAppend(OnList(list), a, b);
  }

  /** An empty list has an empty label, and a single named ingredient is
      labelled by its name alone. */
  lemma LabelsOfFew(catalog: seq<Ingredient>, list: seq<ListEntry>)
    ensures |list| == 0 ==> Labels(catalog, list) == ""
    ensures |LabelledIngredients(catalog, list)| == 1 ==>
      Labels(catalog, list) == LabelledIngredients(catalog, list)[0].name
  {
    if |list| == 0 {
      FilterNone(OnList(list), catalog);
    }
  }
}
