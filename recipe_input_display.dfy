/** The recipe editor: its state is the recipe's name, the selected
    ingredient ids and a quantity record kept in line with them; saving
    builds the recipe to store and deleting names the recipe to remove, both
    refused without the ids they need. */
module RecipeInputDisplay {
  import opened Wrappers
  import opened Domain
  import opened RecipeHelpers
  import opened GroupContext

  /** The recipe the editor opens (`Partial<IRecipe>`): a new recipe has no
      id. */
  datatype RecipeData = RecipeData(id: Option<string>, name: Option<string>, ingredients: Option<seq<RecipeIngredient>>)

  /** JavaScript truthiness of an optional string. */
  predicate Present(s: Option<string>) {
    s.Some? && s.value != ""
  }

  /** `ingredients.map(({ ingredient }) => ingredient)`. */
  function ListingIds(listings: seq<RecipeIngredient>): (ids: seq<string>)
    ensures |ids| == |listings|
    ensures forall k :: 0 <= k < |listings| ==> ids[k] == listings[k].ingredient
  {
    seq(|listings|, k requires 0 <= k < |listings| => listings[k].ingredient)
  }

  /** The listings the save stores: one per selected id, in order, with the
      entered quantity or "". */
  function SavedIngredients(selected: seq<string>, quantityValues: map<string, string>): (r: seq<RecipeIngredient>)
    ensures |r| == |selected|
    ensures forall k :: 0 <= k < |selected| ==>
      r[k] == RecipeIngredient(selected[k], QuantityOr(quantityValues, selected[k]))
  {
    seq(|selected|, k requires 0 <= k < |selected| =>
      RecipeIngredient(selected[k], QuantityOr(quantityValues, selected[k])))
  }

  /** What the editor hands to `editOrCreateRecipe`: the group and the recipe
      with its (possibly missing) id. */
  datatype SaveCall = SaveCall(groupId: string, id: Option<string>, name: string, ingredients: seq<RecipeIngredient>)

  /** `handleOnSaveClick`: refused with "missing groupId" when the group id is
      not truthy, the store call otherwise. */
  function SaveRequest(groupId: GroupId, id: Option<string>, inputName: string,
                       selected: seq<string>, quantityValues: map<string, string>): (r: Result<SaveCall>)
    ensures r.Err? <==> !groupId.Truthy()
    ensures r.Err? ==> r.message == "missing groupId"
    ensures r.Ok? ==> r.value.groupId == groupId.id && r.value.id == id && r.value.name == inputName
    ensures r.Ok? ==> r.value.ingredients == SavedIngredients(selected, quantityValues)
  {
    if !groupId.Truthy() then Err("missing groupId")
    else Ok(SaveCall(groupId.id, id, inputName, SavedIngredients(selected, quantityValues)))
  }

  /** `handleOnDeleteClick`: the recipe id is checked first, then the group
      id; the store call names both. */
  function DeleteRequest(groupId: GroupId, id: Option<string>): (r: Result<(string, string)>)
    ensures !Present(id) ==> r == Err("missing id")
    ensures Present(id) && !groupId.Truthy() ==> r == Err("missing groupId")
    ensures r.Ok? <==> Present(id) && groupId.Truthy()
    ensures r.Ok? ==> r.value == (groupId.id, id.value)
  {
    if !Present(id) then Err("missing id")
    else if !groupId.Truthy() then Err("missing groupId")
    else Ok((groupId.id, id.value))
  }

  /** A new recipe (without id) can never be deleted, whatever the group. */
  lemma NewRecipeIsNotDeleted(groupId: GroupId, data: RecipeData)
    requires data.id.None?
    ensures DeleteRequest(groupId, data.id) == Err("missing id")
  {
  }

  /** The editor's state. */
  class RecipeEditor {
    var inputName: string
    var quantityValues: map<string, string>
    var selectedIngredients: seq<string>

    /** The initial state: the name or "", the recipe's quantities or an
        empty record, and its ingredient ids in listing order or none. An
        empty ingredient list is an array, hence truthy, and is taken as
        it is. */
    constructor (data: RecipeData)
      ensures inputName == data.name.GetOr("")
      ensures quantityValues == if data.ingredients.Some? then QuantitiesFromArray(data.ingredients.value) else map[]
      ensures selectedIngredients == if data.ingredients.Some? then ListingIds(data.ingredients.value) else []
    {
      var quantities: map<string, string> := map[];
      if data.ingredients.Some? {
        quantities := GetQuantitiesFromArray(data.ingredients.value);
      }
      inputName := if data.name.Some? && data.name.value != "" then data.name.value else "";
      quantityValues := quantities;
      selectedIngredients := if data.ingredients.Some? then ListingIds(data.ingredients.value) else [];
    }

    method SetInputName(name: string)
      modifies this
      ensures inputName == name
      ensures quantityValues == old(quantityValues) && selectedIngredients == old(selectedIngredients)
    {
      inputName := name;
    }

    /** The ingredient picker replaces the selection. */
    method SetSelectedIngredients(ids: seq<string>)
      modifies this
      ensures selectedIngredients == ids
      ensures inputName == old(inputName) && quantityValues == old(quantityValues)
    {
      selectedIngredients := ids;
    }

    /** A quantity field overwrites its ingredient's value. */
    method SetQuantity(ingredientId: string, value: string)
      modifies this
      ensures quantityValues == old(quantityValues)[ingredientId := value]
      ensures inputName == old(inputName) && selectedIngredients == old(selectedIngredients)
    {
      quantityValues := quantityValues[ingredientId := value];
    }

    /** The effect that rebuilds the record when the selection changes. */
    method ReconcileQuantities()
      modifies this
      ensures quantityValues == Reconciled(old(selectedIngredients), old(quantityValues))
      ensures inputName == old(inputName) && selectedIngredients == old(selectedIngredients)
    {
      quantityValues := Reconcile(selectedIngredients, quantityValues);
    }

    /** The save this state would request. */
    function Save(groupId: GroupId, id: Option<string>): Result<SaveCall>
      reads this
    {
      SaveRequest(groupId, id, inputName, selectedIngredients, quantityValues)
    }
  }

  /** Opening a recipe whose ingredient ids are distinct and saving it
      unedited stores the same listings, whether or not the reconcile effect
      ran in between. */
  lemma UneditedSaveRoundTrip(listings: seq<RecipeIngredient>)
    requires forall i, j :: 0 <= i < j < |listings| ==> listings[i].ingredient != listings[j].ingredient
    ensures SavedIngredients(ListingIds(listings), QuantitiesFromArray(listings)) == listings
    ensures SavedIngredients(ListingIds(listings), Reconciled(ListingIds(listings), QuantitiesFromArray(listings))) == listings
  {
    UneditedSave(listings);
    QuantitiesCoverIds(listings);
    ReconcileMatchingRecord(ListingIds(listings), QuantitiesFromArray(listings));
  }

  lemma UneditedSave(listings: seq<RecipeIngredient>)
    requires forall i, j :: 0 <= i < j < |listings| ==> listings[i].ingredient != listings[j].ingredient
    ensures SavedIngredients(ListingIds(listings), QuantitiesFromArray(listings)) == listings
  {
    QuantitiesDistinct(listings);
    var r := SavedIngredients(ListingIds(listings), QuantitiesFromArray(listings));
    assert forall k :: 0 <= k < |listings| ==> r[k] == listings[k];
  }

  /** The record has a key for each listing's ingredient id and no other. */
  lemma QuantitiesCoverIds(listings: seq<RecipeIngredient>)
    ensures QuantitiesFromArray(listings).Keys == set id | id in ListingIds(listings)
  {
    var ids, m := ListingIds(listings), QuantitiesFromArray(listings);
    forall x | x in set id | id in ids ensures x in m {
      var k :| 0 <= k < |ids| && ids[k] == x;
      assert listings[k].ingredient == x;
    }
  }

  /** With a repeated ingredient id every listing of that id is saved with
      the quantity of its last listing `j`: for `[a: "1", a: "2"]` both are
      saved as `a: "2"`. */
  lemma RepeatedIngredientTakesLastQuantity(listings: seq<RecipeIngredient>, k: nat, j: nat)
    requires k <= j < |listings| && listings[j].ingredient == listings[k].ingredient
    requires forall m :: j < m < |listings| ==> listings[m].ingredient != listings[j].ingredient
    ensures SavedIngredients(ListingIds(listings), QuantitiesFromArray(listings))[k]
         == RecipeIngredient(listings[k].ingredient, listings[j].quantity)
  {
    QuantitiesLastWins(listings, j);
  }
}
