/** The group data the pages read: the stored group document with every field
    optional, the defaults the provider fills in, and the running price of the
    checked ingredients. */
module DataContext {
  import opened Wrappers
  import opened Seqs
  import opened Domain
  import opened RecipeView

  datatype Filters = Filters(showCheckedsFirst: bool)

  /** The stored group document as read (`Partial<IGroup>`): any field may be
      missing. The fields the model does not use are left out. */
  datatype StoredGroup = StoredGroup(
    currentRecipes: Option<seq<string>>,
    currentIngredients: Option<seq<ListEntry>>,
    checkedIngredients: Option<seq<string>>,
    ingredientsPrices: Option<seq<PriceEntry>>,
    filters: Option<Filters>,
    currency: Option<string>,
    budget: Option<real>)

  /** What the context hands to the pages. */
  datatype Value = Value(
    listRecipes: seq<string>,
    listIngredients: seq<ListEntry>,
    checkedIngredients: seq<string>,
    ingredientsPrices: seq<PriceEntry>,
    filters: Filters,
    currency: string,
    budget: real,
    recipes: seq<Recipe>,
    ingredients: seq<Ingredient>,
    currentListPrice: real)

  /** The value the context is created with, before any provider. */
  const InitialValue := Value([], [], [], [], Filters(false), "BRL", 0.0, [], [], 0.0)

  // ---------------------------------------------------------------------------
  // The checked-items price

  /** The price of one entry: its rows' subtotal when it is checked. */
  function Contribution(entry: PriceEntry, checked: Option<seq<string>>): real {
    if checked.Some? && entry.ingredient in checked.value then Subtotal(entry.rows) else 0.0
  }

  /** The sum of the contributions, folded in entry order. */
  function CheckedTotal(entries: seq<PriceEntry>, checked: Option<seq<string>>): real {
    if |entries| == 0 then 0.0
    else CheckedTotal(entries[..|entries| - 1], checked) + Contribution(entries[|entries| - 1], checked)
  }

  /** `currentListPrice`: 0 while the group is not loaded; otherwise the loop
      over the entries of `ingredientsPrices` (none when it is missing) adds
      the subtotal of every entry whose id is checked. */
  method CurrentListPrice(group: Option<StoredGroup>) returns (value: real)
    ensures group.None? ==> value == 0.0
    ensures group.Some? ==>
      value == CheckedTotal(group.value.ingredientsPrices.GetOr([]), group.value.checkedIngredients)
  {
    value := 0.0;
    if group.None? {
      return;
    }
    var g := group.value;
    var entries := g.ingredientsPrices.GetOr([]);
    for k := 0 to |entries|
      invariant value == CheckedTotal(entries[..k], g.checkedIngredients)
    {
      var entry := entries[k];
      if g.checkedIngredients.Some? && entry.ingredient in g.checkedIngredients.value {
        var subtotal := 0.0;
        for m := 0 to |entry.rows|
          invariant subtotal == Subtotal(entry.rows[..m])
        {
          assert entry.rows[..m + 1][..m] == entry.rows[..m];
          subtotal := subtotal + entry.rows[m].q * entry.rows[m].u;
        }
        assert entry.rows[..|entry.rows|] == entry.rows;
        value := value + subtotal;
      }
      assert entries[..k + 1][..k] == entries[..k];
    }
    assert entries[..|entries|] == entries;
  }

  /** The entries that are checked. */
  function CheckedIn(checked: Option<seq<string>>): PriceEntry -> bool {
    (e: PriceEntry) => checked.Some? && e.ingredient in checked.value
  }

  /** The plain sum of the subtotals. */
  function SumOfSubtotals(entries: seq<PriceEntry>): real {
    if |entries| == 0 then 0.0 else Subtotal(entries[0].rows) + SumOfSubtotals(entries[1..])
  }

  lemma {:induction false} SumOfSubtotalsSnoc(entries: seq<PriceEntry>, e: PriceEntry)
    ensures SumOfSubtotals(entries + [e]) == SumOfSubtotals(entries) + Subtotal(e.rows)
  {
    if |entries| > 0 {
      assert (entries + [e])[1..] == entries[1..] + [e];
      SumOfSubtotalsSnoc(entries[1..], e);
    }
  }

  /** The checked price is the sum of the subtotals of exactly the entries
      whose ingredient is checked. */
  lemma {:induction false} CheckedTotalIsSumOfChecked(entries: seq<PriceEntry>, checked: Option<seq<string>>)
    ensures CheckedTotal(entries, checked) == SumOfSubtotals(Filter(CheckedIn(checked), entries))
  {
    if |entries| > 0 {
      var init, last := entries[..|entries| - 1], entries[|entries| - 1];
      assert entries == init + [last];
      CheckedTotalIsSumOfChecked(init, checked);
      SumOfCheckedSnoc(init, last, checked);
    }
  }

  /** One more entry adds its contribution to the sum over the checked ones. */
  lemma SumOfCheckedSnoc(init: seq<PriceEntry>, last: PriceEntry, checked: Option<seq<string>>)
    ensures SumOfSubtotals(Filter(CheckedIn(checked), init + [last]))
         == SumOfSubtotals(Filter(CheckedIn(checked), init)) + Contribution(last, checked)
  {
    FilterSnoc(CheckedIn(checked), init, last);
    if CheckedIn(checked)(last) {
      SumOfSubtotalsSnoc(Filter(CheckedIn(checked), init), last);
    } else {
      assert Contribution(last, checked) == 0.0;
    }
  }

  /** Without stored prices, or without checked ingredients, the price is 0. */
  lemma NothingCheckedCostsNothing(entries: seq<PriceEntry>)
    ensures CheckedTotal(entries, None) == 0.0
    ensures CheckedTotal(entries, Some([])) == 0.0
    ensures CheckedTotal([], Some([])) == 0.0
  {
    CheckedTotalIsSumOfChecked(entries, None);
    CheckedTotalIsSumOfChecked(entries, Some([]));
    FilterNone(CheckedIn(None), entries);
    FilterNone(CheckedIn(Some([])), entries);
  }

  /** `arrayRemove(id)` on the checked list: every occurrence goes. */
  function Unchecked(checked: seq<string>, key: string): seq<string> {
    Filter((x: string) => x != key, checked)
  }

  /** Checking an ingredient that has no stored prices changes nothing. */
  lemma {:induction false} UnpricedContributesNothing(entries: seq<PriceEntry>, checked: seq<string>, key: string)
    requires PricesOf(entries, key).None?
    ensures CheckedTotal(entries, Some(checked + [key])) == CheckedTotal(entries, Some(checked))
  {
    if |entries| > 0 {
      var init := entries[..|entries| - 1];
      assert PricesOf(init, key).None? by {
        forall k | 0 <= k < |init| ensures init[k].ingredient != key {
          assert init[k] == entries[k];
        }
      }
      UnpricedContributesNothing(init, checked, key);
      assert entries[|entries| - 1].ingredient != key;
    }
  }

  /** Appending an id that is already checked leaves the total unchanged, so
      modelling `arrayUnion` as an append loses nothing. */
  lemma {:induction false} RecheckChangesNothing(entries: seq<PriceEntry>, checked: seq<string>, key: string)
    requires key in checked
    ensures CheckedTotal(entries, Some(checked + [key])) == CheckedTotal(entries, Some(checked))
  {
    if |entries| > 0 {
      RecheckChangesNothing(entries[..|entries| - 1], checked, key);
      assert entries[|entries| - 1].ingredient in checked + [key]
        <==> entries[|entries| - 1].ingredient in checked;
    }
  }

  /** An entry of another ingredient is not affected by unchecking `key`. */
  lemma {:induction false} UncheckOthers(entries: seq<PriceEntry>, checked: seq<string>, key: string)
    requires forall k :: 0 <= k < |entries| ==> entries[k].ingredient != key
    ensures CheckedTotal(entries, Some(Unchecked(checked, key))) == CheckedTotal(entries, Some(checked))
  {
    if |entries| > 0 {
      var init := entries[..|entries| - 1];
      assert forall k :: 0 <= k < |init| ==> init[k] == entries[k];
      UncheckOthers(init, checked, key);
      var e := entries[|entries| - 1];
      assert e.ingredient in Unchecked(checked, key) <==> e.ingredient in checked;
    }
  }

  /** Unchecking an ingredient removes exactly its contribution: the subtotal
      its row shows in the list when it is checked and priced, and nothing
      otherwise. */
  lemma {:induction false} UncheckRemovesContribution(entries: seq<PriceEntry>, checked: seq<string>, key: string)
    requires DistinctKeys(entries)
    ensures var shown := PriceCellOf(PricesOf(entries, key), key in checked).block;
      CheckedTotal(entries, Some(checked))
        == CheckedTotal(entries, Some(Unchecked(checked, key))) + (if shown.Some? then shown.value else 0.0)
  {
    if |entries| > 0 {
      var init, e := entries[..|entries| - 1], entries[|entries| - 1];
      assert entries == init + [e];
      assert DistinctKeys(init) by {
        forall i, j | 0 <= i < j < |init| ensures init[i].ingredient != init[j].ingredient {
          assert init[i] == entries[i] && init[j] == entries[j];
        }
      }
      if e.ingredient == key {
        assert forall k :: 0 <= k < |init| ==> init[k].ingredient != key by {
          forall k | 0 <= k < |init| ensures init[k].ingredient != key {
            assert init[k] == entries[k];
          }
        }
        UncheckOthers(init, checked, key);
        PricesOfEntry(entries, |entries| - 1);
      } else {
        UncheckRemovesContribution(init, checked, key);
        PricesOfOther(init, e, key);
        assert e.ingredient in Unchecked(checked, key) <==> e.ingredient in checked;
      }
    }
  }

  lemma {:induction false} PricesOfOther(entries: seq<PriceEntry>, e: PriceEntry, key: string)
    requires e.ingredient != key
    ensures PricesOf(entries + [e], key) == PricesOf(entries, key)
  {
    if |entries| > 0 {
      assert (entries + [e])[1..] == entries[1..] + [e];
      PricesOfOther(entries[1..], e, key);
    }
  }

  // ---------------------------------------------------------------------------
  // Defaults

  /** The context value for the loaded group, or the defaults. */
  function ContextValue(group: Option<StoredGroup>, recipes: seq<Recipe>, ingredients: seq<Ingredient>,
                        currentListPrice: real): (v: Value)
    ensures group.None? ==> v == InitialValue.(recipes := recipes, ingredients := ingredients, currentListPrice := currentListPrice)
    ensures v.currency != ""
    ensures group.Some? ==>
      var g := group.value;
      && v.listRecipes == g.currentRecipes.GetOr([])
      && v.listIngredients == g.currentIngredients.GetOr([])
      && v.checkedIngredients == g.checkedIngredients.GetOr([])
      && v.ingredientsPrices == g.ingredientsPrices.GetOr([])
      && v.filters == g.filters.GetOr(Filters(false))
      && (g.currency.Some? && g.currency.value != "" ==> v.currency == g.currency.value)
      && (!(g.currency.Some? && g.currency.value != "") ==> v.currency == "BRL")
      && v.budget == g.budget.GetOr(0.0)
  {
    match group
    case None =>
      Value([], [], [], [], Filters(false), "BRL", 0.0, recipes, ingredients, currentListPrice)
    case Some(g) =>
      Value(
        g.currentRecipes.GetOr([]),
        g.currentIngredients.GetOr([]),
        g.checkedIngredients.GetOr([]),
        g.ingredientsPrices.GetOr([]),
        g.filters.GetOr(Filters(false)),
        if g.currency.Some? && g.currency.value != "" then g.currency.value else "BRL",
        g.budget.GetOr(0.0),
        recipes, ingredients, currentListPrice)
  }

  /** A loaded group with no fields at all reads like no group. */
  lemma EmptyGroupReadsAsDefaults(recipes: seq<Recipe>, ingredients: seq<Ingredient>, currentListPrice: real)
    ensures ContextValue(Some(StoredGroup(None, None, None, None, None, None, None)), recipes, ingredients, currentListPrice)
         == ContextValue(None, recipes, ingredients, currentListPrice)
  {
  }
}
