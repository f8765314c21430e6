/** The price form of one ingredient: an editable list of price rows, each
    with a quantity and a unit price typed as text, its running total and the
    numeric rows it submits. Text-to-number conversion (`Number(...)`) is a
    parameter `num`. */
module IngredientPriceForm {
  import opened Wrappers
  import opened Domain
  import opened RecipeView

  /** A partial row (`Partial<itemValue>`): the fields to overwrite. */
  datatype PriceInputPatch = PriceInputPatch(quantity: Option<string>, unitPrice: Option<string>)

  /** `Object.assign({}, row, patch)`: the patch's fields win. */
  function Patched(row: PriceInput, patch: PriceInputPatch): (r: PriceInput)
    ensures patch.quantity.Some? ==> r.quantity == patch.quantity.value
    ensures patch.quantity.None? ==> r.quantity == row.quantity
    ensures patch.unitPrice.Some? ==> r.unitPrice == patch.unitPrice.value
    ensures patch.unitPrice.None? ==> r.unitPrice == row.unitPrice
  {
    PriceInput(patch.quantity.GetOr(row.quantity), patch.unitPrice.GetOr(row.unitPrice))
  }

  /** The rows after `setItemValue(index, patch)`. */
  function WithItemValue(items: seq<PriceInput>, index: nat, patch: PriceInputPatch): (r: seq<PriceInput>)
    requires index < |items|
    ensures |r| == |items|
    ensures r[index] == Patched(items[index], patch)
    ensures forall k :: 0 <= k < |items| && k != index ==> r[k] == items[k]
  {
    items[index := Patched(items[index], patch)]
  }

  /** The row a new price starts with. */
  const NewRow := PriceInput("1", "0")

  /** Where `splice(index, 1)` starts: a negative index counts from the end,
      and both ends are clamped. */
  function SpliceStart(length: nat, index: int): (start: nat)
    ensures start <= length
  {
    if index < 0 then (if length + index < 0 then 0 else length + index)
    else if index > length then length
    else index
  }

  /** The rows after `removeItem(index)`. */
  function WithoutItem(items: seq<PriceInput>, index: int): (r: seq<PriceInput>)
    ensures 0 <= index < |items| ==>
      && |r| == |items| - 1
      && r[..index] == items[..index]
      && (forall k :: index <= k < |r| ==> r[k] == items[k + 1])
    ensures index >= |items| ==> r == items
    ensures -|items| <= index < 0 ==> r == items[..|items| + index] + items[|items| + index + 1..]
    ensures index < -|items| && |items| > 0 ==> r == items[1..]
  {
    var start := SpliceStart(|items|, index);
    if start < |items| then items[..start] + items[start + 1..] else items
  }

  /** `useIngredientPriceValues`: the price rows under edit. */
  class PriceValues {
    var items: seq<PriceInput>

    constructor (initialValue: seq<PriceInput>)
      ensures items == initialValue
    {
      items := initialValue;
    }

    /** Copies the rows and replaces row `index` by its merge with `value`. */
    method SetItemValue(index: nat, value: PriceInputPatch)
      requires index < |items|
      modifies this
      ensures items == WithItemValue(old(items), index, value)
    {
      var newValues := items;
      var originalValue := items[index];
      newValues := newValues[index := PriceInput(value.quantity.GetOr(originalValue.quantity),
                                                 value.unitPrice.GetOr(originalValue.unitPrice))];
      items := newValues;
    }

    /** Appends a fresh row. */
    method AddItem()
      modifies this
      ensures items == old(items) + [NewRow]
    {
      items := items + [PriceInput("1", "0")];
    }

    /** Copies the rows and splices one out at `index`. */
    method RemoveItem(index: int)
      modifies this
      ensures items == WithoutItem(old(items), index)
    {
      var newItems := items;
      var start := SpliceStart(|newItems|, index);
      if start < |newItems| {
        newItems := newItems[..start] + newItems[start + 1..];
      }
      items := newItems;
    }
  }

  /** The delete control is drawn for every row but the first. */
  predicate DeleteOffered(index: nat) {
    index > 0
  }

  /** Deleting through the offered control never removes the first row. */
  lemma OfferedDeleteKeepsFirstRow(items: seq<PriceInput>, index: nat)
    requires DeleteOffered(index) && index < |items|
    ensures |WithoutItem(items, index)| >= 1
    ensures WithoutItem(items, index)[0] == items[0]
  {
    assert WithoutItem(items, index)[..index][0] == items[..index][0];
  }

  /** `totalValue`: Σ Number(quantity) × Number(unitPrice), folded from 0. */
  function TotalValue(items: seq<PriceInput>, num: string -> real): real {
    if |items| == 0 then 0.0
    else TotalValue(items[..|items| - 1], num) + num(items[|items| - 1].quantity) * num(items[|items| - 1].unitPrice)
  }

  /** What `handleOnSubmit` hands to `onSubmit`: every row as numbers. */
  function Submitted(items: seq<PriceInput>, num: string -> real): (r: seq<Price>)
    ensures |r| == |items|
    ensures forall k :: 0 <= k < |items| ==> r[k] == Price(num(items[k].quantity), num(items[k].unitPrice))
  {
    seq(|items|, k requires 0 <= k < |items| => Price(num(items[k].quantity), num(items[k].unitPrice)))
  }

  /** The total the form shows is the subtotal the list shows for the rows it
      submits. */
  lemma {:induction false} SubmittedTotal(items: seq<PriceInput>, num: string -> real)
    ensures Subtotal(Submitted(items, num)) == TotalValue(items, num)
  {
    if |items| > 0 {
      var init := items[..|items| - 1];
      SubmittedTotal(init, num);
      assert Submitted(items, num)[..|items| - 1] == Submitted(init, num);
    }
  }

  /** An empty form totals 0, and adding the fresh row (worth 1 × 0) leaves the
      total unchanged. */
  lemma AddItemKeepsTotal(items: seq<PriceInput>, num: string -> real)
    requires num("1") == 1.0 && num("0") == 0.0
    ensures TotalValue([], num) == 0.0
    ensures TotalValue(items + [NewRow], num) == TotalValue(items, num)
  {
    assert (items + [NewRow])[..|items|] == items;
  }

  /** Opening the form on stored rows and submitting without edits stores the
      same rows, provided `Number(String(x)) == x`; opening it without stored
      rows and submitting stores one row of 1 at 0. */
  lemma UneditedSubmitRoundTrip(prices: Option<seq<Price>>, str: real -> string, num: string -> real)
    requires forall x :: num(str(x)) == x
    ensures Submitted(PriceFormData(prices, str), num) == if prices.Some? then prices.value else [Price(1.0, 0.0)]
  {
    var rows := if prices.Some? then prices.value else [Price(1.0, 0.0)];
    var d := PriceFormData(prices, str);
    assert forall k :: 0 <= k < |d| ==> d[k] == PriceInput(str(rows[k].q), str(rows[k].u));
    var s := Submitted(d, num);
    assert forall k :: 0 <= k < |s| ==> s[k] == Price(num(str(rows[k].q)), num(str(rows[k].u))) == rows[k];
  }
}
