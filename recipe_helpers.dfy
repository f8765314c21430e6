/** The id → quantity records that the recipe editor and the list-ingredients
    dialog keep (`Record<string, string>`), how they are filled from a list of
    listings, and the rule that brings such a record in line with a new
    selection of ids. */
module RecipeHelpers {
  import opened Domain

  /** The record filled by `record[key(e)] = value(e)` for each entry in turn:
      a later entry with the same key overwrites an earlier one. */
  function Assigned<T>(entries: seq<T>, key: T -> string, value: T -> string): (m: map<string, string>)
    ensures m.Keys == set k | 0 <= k < |entries| :: key(entries[k])
  {
    if |entries| == 0 then map[]
    else
      var init := entries[..|entries| - 1];
      var last := entries[|entries| - 1];
      var all := set k | 0 <= k < |entries| :: key(entries[k]);
      var before := set k | 0 <= k < |init| :: key(init[k]);
      assert all == before + {key(last)} by {
        forall x | x in all ensures x in before + {key(last)} {
          var k :| 0 <= k < |entries| && key(entries[k]) == x;
          if k < |init| {
            assert init[k] == entries[k];
          }
        }
        forall x | x in before ensures x in all {
          var k :| 0 <= k < |init| && key(init[k]) == x;
          assert entries[k] == init[k];
        }
        assert key(entries[|entries| - 1]) == key(last);
      }
      Assigned(init, key, value)[key(last) := value(last)]
  }

  /** The entry at `k` decides its key's value when no later entry has the
      same key. */
  lemma {:induction false} AssignedLastWins<T>(entries: seq<T>, key: T -> string, value: T -> string, k: nat)
    requires k < |entries|
    requires forall j :: k < j < |entries| ==> key(entries[j]) != key(entries[k])
    ensures key(entries[k]) in Assigned(entries, key, value)
    ensures Assigned(entries, key, value)[key(entries[k])] == value(entries[k])
  {
    var init := entries[..|entries| - 1];
    if k < |init| {
      assert forall j :: k < j < |init| ==> init[j] == entries[j];
      AssignedLastWins(init, key, value, k);
      assert init[k] == entries[k];
    }
  }

  /** With pairwise different keys every entry keeps its own value. */
  lemma AssignedDistinct<T>(entries: seq<T>, key: T -> string, value: T -> string)
    requires forall i, j :: 0 <= i < j < |entries| ==> key(entries[i]) != key(entries[j])
    ensures forall k :: 0 <= k < |entries| ==>
      key(entries[k]) in Assigned(entries, key, value) && Assigned(entries, key, value)[key(entries[k])] == value(entries[k])
  {
    forall k | 0 <= k < |entries|
      ensures key(entries[k]) in Assigned(entries, key, value)
      ensures Assigned(entries, key, value)[key(entries[k])] == value(entries[k])
    {
      AssignedLastWins(entries, key, value, k);
    }
  }

  function ListingIngredient(l: RecipeIngredient): string { l.ingredient }
  function ListingQuantity(l: RecipeIngredient): string { l.quantity }

  /** `getQuantitiesFromArray`: each listing's quantity under its ingredient
      id; an empty list gives an empty record. */
  function QuantitiesFromArray(listings: seq<RecipeIngredient>): (m: map<string, string>)
    ensures m.Keys == set k | 0 <= k < |listings| :: listings[k].ingredient
    ensures |listings| == 0 ==> m == map[]
  {
    Assigned(listings, ListingIngredient, ListingQuantity)
  }

  /** The `forEach` loop that writes each quantity into a fresh record. */
  method GetQuantitiesFromArray(listings: seq<RecipeIngredient>) returns (quantities: map<string, string>)
    ensures quantities == QuantitiesFromArray(listings)
  {
    quantities := map[];
    for k := 0 to |listings|
      invariant quantities == QuantitiesFromArray(listings[..k])
    {
      assert listings[..k + 1][..k] == listings[..k];
      quantities := quantities[listings[k].ingredient := listings[k].quantity];
    }
    assert listings[..|listings|] == listings;
  }

  /** With duplicate ingredient ids the last listing's quantity wins. */
  lemma QuantitiesLastWins(listings: seq<RecipeIngredient>, k: nat)
    requires k < |listings|
    requires forall j :: k < j < |listings| ==> listings[j].ingredient != listings[k].ingredient
    ensures listings[k].ingredient in QuantitiesFromArray(listings)
    ensures QuantitiesFromArray(listings)[listings[k].ingredient] == listings[k].quantity
  {
    AssignedLastWins(listings, ListingIngredient, ListingQuantity, k);
  }

  /** With distinct ingredient ids each id maps to its own quantity. */
  lemma QuantitiesDistinct(listings: seq<RecipeIngredient>)
    requires forall i, j :: 0 <= i < j < |listings| ==> listings[i].ingredient != listings[j].ingredient
    ensures forall k :: 0 <= k < |listings| ==>
      listings[k].ingredient in QuantitiesFromArray(listings)
      && QuantitiesFromArray(listings)[listings[k].ingredient] == listings[k].quantity
  {
    AssignedDistinct(listings, ListingIngredient, ListingQuantity);
  }

  // ---------------------------------------------------------------------------
  // Reconciling a record with a selection

  /** The value a record holds for `id`, or "" when it holds none. For records
      of strings this is both `typeof r[id] !== "undefined" ? r[id] : ""` and
      `r[id] || ""`, since the only falsy string is "" itself. */
  function QuantityOr(m: map<string, string>, id: string): string {
    if id in m then m[id] else ""
  }

  /** The record the reconcile effect builds: one key per selected id, in
      selection order, holding the current value or "". */
  function Reconciled(selected: seq<string>, current: map<string, string>): (m: map<string, string>)
    ensures m.Keys == set id | id in selected
    ensures forall id :: id in m ==> m[id] == QuantityOr(current, id)
  {
    if |selected| == 0 then map[]
    else
      var init := selected[..|selected| - 1];
      assert forall id :: id in selected <==> id in init || id == selected[|selected| - 1] by {
        assert selected == init + [selected[|selected| - 1]];
      }
      Reconciled(init, current)[selected[|selected| - 1] := QuantityOr(current, selected[|selected| - 1])]
  }

  /** The reconcile effect's loop over the selected ids. */
  method Reconcile(selected: seq<string>, currentValues: map<string, string>) returns (newValue: map<string, string>)
    ensures newValue == Reconciled(selected, currentValues)
  {
    newValue := map[];
    for k := 0 to |selected|
      invariant newValue == Reconciled(selected[..k], currentValues)
    {
      var id := selected[k];
      assert selected[..k + 1][..k] == selected[..k];
      if id in currentValues {
        newValue := newValue[id := currentValues[id]];
      } else {
        newValue := newValue[id := ""];
      }
    }
    assert selected[..|selected|] == selected;
  }

  /** A record whose keys already are the selection is left as it is, so
      reconciling twice is reconciling once. */
  lemma ReconcileMatchingRecord(selected: seq<string>, current: map<string, string>)
    requires current.Keys == set id | id in selected
    ensures Reconciled(selected, current) == current
    ensures Reconciled(selected, Reconciled(selected, current)) == Reconciled(selected, current)
  {
    var m := Reconciled(selected, current);
    assert m.Keys == current.Keys;
    assert forall id :: id in m ==> m[id] == current[id];
  }

  /** A record entry survives the reconcile exactly when its id is still
      selected, and a newly selected id starts empty. */
  lemma ReconcileKeepsOrBlanks(selected: seq<string>, current: map<string, string>, id: string)
    ensures id in Reconciled(selected, current) <==> id in selected
    ensures id in selected && id in current ==> Reconciled(selected, current)[id] == current[id]
    ensures id in selected && id !in current ==> Reconciled(selected, current)[id] == ""
  {
  }
}
