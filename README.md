# Felicette cooking: a Dafny model of the shopping-list core

Felicette cooking is a household grocery-list and recipe web application. Each
group of users keeps:

- a catalogue of ingredients;
- recipes built from those ingredients;
- a current shopping list made of selected recipes and standalone entries;
- the set of ingredients already checked off;
- a record of price rows per ingredient;
- a budget.

This project models the in-memory logic of the application in Dafny and
proves properties of it. Each source file has its own module:

- `ShoppingList`, `ListDisplay`, `RecipeView` (src/components/ListsPage.tsx)
  cover the derivation of the shopping list:
  - the selected recipes and the standalone entries;
  - the merge by ingredient id;
  - the sorted descriptions and the item order by name, optionally with
    checked items first (a stable sort);
  - the by-recipe view with its "also needed for" annotation;
  - the price cell and the available-budget line.
- `DataContext` covers the running price of the checked ingredients and the
  defaults for missing group fields.
- `IngredientPriceForm` covers the editor for price rows: its items state, its
  total, and the numeric rows it submits.
- `RecipeHelpers` covers `getQuantitiesFromArray` and the quantity-record
  reconcile step that both quantity dialogs share.
- `ListIngredientsSelect` covers the dialog for the list's standalone
  entries: its state, the entries it saves, and its summary label.
- `RecipeInputDisplay` covers the recipe editor: its initial state, the save
  payload, and the save and delete guards.
- `RecipesList` covers the selection toggle, the row's secondary text and
  its controls.
- `GroupContext` covers the choice of group id from the token's claims, the
  render gate, and the current-group lookup.
- `AppStateContext` covers the app-bar state, its setters and its partial
  `clearState`.
- `LoggedPage` covers the parsing of the path's first segment, the tab lookup
  and the root redirect.
- `Translate` covers the merge of locale files in scripts/translate.js.

Four shared modules support them:

- `Wrappers` has `Option` for `undefined` and `Result` for a thrown error.
- `Seqs` has the filter, join, dedup and first-index helpers.
- `Sorting` models `Array.prototype.sort`. Since ECMAScript 2019 the sort is
  stable, so for a total-preorder comparator it has exactly one outcome. The
  module computes that outcome with a stable insertion sort, and orders bare
  `.sort()` by UTF-16 code units.
- `Domain` has the ingredient, recipe, list-entry and price records, and the
  catalogue lookups.

Conventions:

- The collator behind `localeCompare` is a parameter `le`, and the lemmas
  require it to be a total preorder.
- The i18next phrases are a `Phrases` value whose functions are not
  interpreted.
- Prices are `real`. `Number(...)` and `String(...)` are function parameters.
- Where the source states a component's state with React `useState`, the
  model is a class: the state variables are fields, and each setter or effect
  is a method.

Ingredient ids that are not in the catalogue are not dropped from the merged
list. The code looks the id up with `find(...) as IIngredient` and then reads
`.id` from the result, which fails on `undefined`
(src/components/ListsPage.tsx:362, 376-378, 398). The merge therefore
*requires* every id to resolve (`ShoppingList.Resolved`,
`ShoppingList.EntriesResolve`).

Two more details of the merge:

- A standalone entry whose quantity text is empty adds no quantity
  description (src/components/ListsPage.tsx:402-404, 413-417).
- A recipe may list the same ingredient more than once, and then the recipe
  is pushed onto that row once per listing (src/components/ListsPage.tsx:389-391).

## Model

| member | source | states |
|---|---|---|
| Sorting.SortBy | src/components/ListsPage.tsx:452-457 | `Array.prototype.sort` under a comparator: a permutation of its input; SortBySorted and SortByStable state the order |
| Sorting.SortBySorted | src/components/ListsPage.tsx:452-457 | under a consistent comparator the result is sorted |
| Sorting.SortByStable | src/components/ListsPage.tsx:452-472 | elements the comparator ranks equal keep their relative order, as the stable sort of ECMAScript 2019 requires |
| Sorting.SortByTwoClasses | src/components/ListsPage.tsx:460-471 | under a comparator that only puts class members first, the result is the members in their order followed by the others in theirs |
| Sorting.CodeUnitOrderIsTotalPreorder | src/components/ListsPage.tsx:444 | the order of the bare `sort()` on strings, by UTF-16 code units, is a total preorder |
| Domain.FindIngredient | src/components/ListsPage.tsx:383-385 | `find` by id: a hit has that id and is a catalogue ingredient; a miss means no catalogue ingredient has the id |
| Domain.FindListing | src/components/ListsPage.tsx:428-431 | `find` over a recipe's listings: a hit lists that ingredient and is one of the listings; a miss means no listing names it |
| Domain.PricesOf | src/components/ListsPage.tsx:721 | `ingredientsPrices[id]`: a hit is a stored entry of that id; none exactly when no entry has the id |
| Domain.FindIngredientFirst | src/components/ListsPage.tsx:383-385 | the hit is the first catalogue ingredient with the id |
| Domain.Subtotal | src/components/ListsPage.tsx:643-647 | the `reduce` of q × u from 0; SumOfCheckedSnoc, SubmittedTotal and PriceCellOf relate it to the list price, the form total and the price block |
| ShoppingList.SelectedRecipes | src/components/ListsPage.tsx:353-357 | a recipe is selected exactly when it is in the catalogue and its id is on the list |
| ShoppingList.SelectedRecipesOrder | src/components/ListsPage.tsx:353-357 | selection keeps catalogue order: selecting from two concatenated catalogues concatenates the two selections |
| ShoppingList.StandaloneItems | src/components/ListsPage.tsx:359-366 | one item per list entry, in order; each item holds the catalogue ingredient with the entry's id and the entry's own quantity text |
| ShoppingList.Aggregate | src/components/ListsPage.tsx:368-421 | one row per distinct visited id, in first-visit order, with ids distinct across rows; each row's ingredient is from the catalogue; every visited id has a row |
| ShoppingList.FindRowIndex | src/components/ListsPage.tsx:376-379 | the first row with the id, or -1 exactly when no row has it |
| ShoppingList.AggregateAppend | src/components/ListsPage.tsx:376-418 | one more visit appends a new row when `findIndex` fails and otherwise updates only the found row: this is the step of both merge loops |
| ShoppingList.AggregateSeenRow | src/components/ListsPage.tsx:389-391 | a visit of an ingredient already merged adds to that ingredient's row and leaves every other row as it was |
| ShoppingList.AggregateFreshRow | src/components/ListsPage.tsx:381-388 | a visit of a new ingredient keeps every existing row and adds one row for it at the end |
| ShoppingList.NewRow | src/components/ListsPage.tsx:381-388 | the row a first use creates: the catalogue ingredient, the recipe for a recipe use, and the text for a non-empty standalone quantity; AggregateFreshRow states where it lands |
| ShoppingList.Absorb | src/components/ListsPage.tsx:401-418 | a further use appends its recipe or its non-empty text to the row; AggregateSeenRow states that only that row changes |
| ShoppingList.IngredientsFormatted | src/components/ListsPage.tsx:368-421 | the two nested loops compute the merge of the recipe listings followed by the standalone entries |
| ShoppingList.MergeRecipes | src/components/ListsPage.tsx:374-393 | the recipe loop computes the merge of all listings of the selected recipes, recipe after recipe |
| ShoppingList.MergeListings | src/components/ListsPage.tsx:375-392 | the inner loop over one recipe's listings extends the merge by exactly that recipe's visits, in listing order |
| ShoppingList.MergeItems | src/components/ListsPage.tsx:395-419 | the entry loop continues the merge with the standalone entries |
| ShoppingList.AggregateRows | src/components/ListsPage.tsx:374-419 | a row's recipes are the selected recipes, each once per listing of the row's ingredient and in selection order; its texts are exactly the non-empty standalone quantities for that ingredient, in list order |
| ShoppingList.ListingsOfMembers | src/components/ListsPage.tsx:386-390 | a recipe appears in a row only when it is selected and lists the row's ingredient |
| ShoppingList.AggregateFirstVisitOrder | src/components/ListsPage.tsx:368-421 | rows are ordered by the first visit of their ingredient id |
| ShoppingList.RecipeIngredientsFirst | src/components/ListsPage.tsx:374-419 | the ingredients of the selected recipes come first, in listing order; after them come only the ids that appear nowhere but in standalone entries |
| ListDisplay.Described | src/components/ListsPage.tsx:424-450 | one displayed item per merged row, in row order |
| ListDisplay.Describe | src/components/ListsPage.tsx:424-449 | the item of one row; DescriptionsSorted and DescriptionCount state its descriptions |
| ListDisplay.Descriptions | src/components/ListsPage.tsx:425-444 | the copy-push-sort loop yields the row's descriptions |
| ListDisplay.RecipeDescriptionsCount | src/components/ListsPage.tsx:427-441 | each recipe that lists the ingredient adds exactly one `quantityForRecipe` phrase |
| ListDisplay.RecipeDescriptions | src/components/ListsPage.tsx:427-441 | one `quantityForRecipe` phrase per recipe that lists the ingredient, with its first listing's quantity; RecipeDescriptionsCount states the count |
| ListDisplay.DescriptionsSorted | src/components/ListsPage.tsx:425-444 | the descriptions are a permutation of the row's texts plus its recipe phrases, sorted by UTF-16 code units |
| ListDisplay.DescriptionCount | src/components/ListsPage.tsx:423-450 | on the merged list every item has exactly one description per text plus one per recipe |
| ListDisplay.TextsToDisplay | src/components/ListsPage.tsx:423-474 | the in-place map and sorts yield the items ordered by name, then stably with checked items first when asked |
| ListDisplay.NameOrderIsTotalPreorder | src/components/ListsPage.tsx:452-457 | comparing items by name is a total preorder whenever the collator is |
| ListDisplay.NameLe | src/components/ListsPage.tsx:452-457 | the by-name comparator; NameOrderIsTotalPreorder states it is a total preorder |
| ListDisplay.ArrangeByName | src/components/ListsPage.tsx:452-457 | without the checked-first filter the items are a permutation of the rows, non-decreasing by name |
| ListDisplay.CheckedLeMeansCheckedFirst | src/components/ListsPage.tsx:460-471 | the comparator puts a before b exactly when a is checked or b is not |
| ListDisplay.CompareChecked | src/components/ListsPage.tsx:460-471 | -1 when only the first item is checked, 1 when only the second is, 0 otherwise; CheckedLeMeansCheckedFirst states the order it induces |
| ListDisplay.CheckedLe | src/components/ListsPage.tsx:460-471 | the checked-first comparator as an order; CheckedLeMeansCheckedFirst states it |
| ListDisplay.Arrange | src/components/ListsPage.tsx:452-472 | the item order; ArrangeByName and ArrangeCheckedFirst state it, and TextsToDisplay proves the in-place sorts equal to it |
| ListDisplay.ArrangeCheckedFirst | src/components/ListsPage.tsx:459-472 | with the filter the result is a permutation; every checked item precedes every unchecked one; each class is exactly its subsequence of the by-name order, so it is sorted by name and items of equal name keep their order |
| RecipeView.SortedRecipes | src/components/ListsPage.tsx:483-487 | the sorted copy is a permutation of the selected recipes |
| RecipeView.RecipeNameOrderIsTotalPreorder | src/components/ListsPage.tsx:486 | comparing recipes by name is a total preorder whenever the collator is |
| RecipeView.RecipeNameLe | src/components/ListsPage.tsx:486 | the by-name recipe comparator; RecipeNameOrderIsTotalPreorder states it is a total preorder |
| RecipeView.OthersGroup | src/components/ListsPage.tsx:523-530 | the trailing group has id "others" and the `withoutRecipes` name; it holds one listing per standalone entry, in order |
| RecipeView.Groups | src/components/ListsPage.tsx:519-531 | the groups of the by-recipe view; GroupsShape states them |
| RecipeView.GroupsShape | src/components/ListsPage.tsx:519-531 | the groups are the selected recipes as a permutation sorted by name, then exactly one trailing group; that group holds each entry's id with the entry's own quantity text |
| RecipeView.OtherRecipesUsing | src/components/ListsPage.tsx:544-550 | exactly the selected recipes, other than the group's own by id, that list the ingredient |
| RecipeView.UsedElsewhere | src/components/ListsPage.tsx:544-550 | the filter's test; OtherRecipesUsing states what it selects |
| RecipeView.AlsoNeededText | src/components/ListsPage.tsx:552-563 | the text for one other recipe; AlsoNeededTextChoice states which phrase it is |
| RecipeView.AlsoNeededTexts | src/components/ListsPage.tsx:552-564 | one text per other recipe, in order |
| RecipeView.AlsoNeededTextChoice | src/components/ListsPage.tsx:552-564 | each other recipe lists the ingredient; its text is `ingredientFor` when its first listing's quantity is empty, else `quantityForRecipe` with that quantity |
| RecipeView.SecondaryText | src/components/ListsPage.tsx:612-618 | the row's secondary text; SecondaryTextAbsent states when it is missing |
| RecipeView.PrimaryText | src/components/ListsPage.tsx:607-611 | the row's primary text; PrimaryTextNames and PrimaryTextUnknown state it |
| RecipeView.SecondaryTextAbsent | src/components/ListsPage.tsx:612-618 | no secondary text exactly when no other selected recipe lists the ingredient |
| RecipeView.PrimaryTextNames | src/components/ListsPage.tsx:607-611 | the row shows the listing's quantity, a space, and the name of the first catalogue ingredient with the id |
| RecipeView.PrimaryTextUnknown | src/components/ListsPage.tsx:607-611 | the template would print "undefined" for an id missing from the catalogue; the merged list already fails on such an id in the same render (lines 376-378, 398), so the text is never shown |
| RecipeView.PriceCellOf | src/components/ListsPage.tsx:624-697 | the price block shows exactly when the ingredient has prices and is checked, and then carries the Σ q×u subtotal; the edit icon shows exactly when it has no prices and is checked; never both |
| RecipeView.AvailableBudget | src/components/ListsPage.tsx:290-300 | the amount plus the list price is the budget, with no clamping; the colour is success exactly when the amount is at least 9 |
| RecipeView.OverspentIsNegative | src/components/ListsPage.tsx:290-300 | over-spending shows a negative amount in the error colour |
| RecipeView.PriceFormData | src/components/ListsPage.tsx:864-869 | the form gets one row per stored price row, or a single row when there are no stored prices |
| DataContext.CheckedTotal | src/context/DataContext.tsx:84-95 | the price folded over the entries; CheckedTotalIsSumOfChecked and UncheckRemovesContribution state it, and CurrentListPrice proves the loops equal to it |
| DataContext.CurrentListPrice | src/context/DataContext.tsx:77-98 | 0 when the group is not loaded; otherwise the loop's value is the checked total over the price entries |
| DataContext.CheckedTotalIsSumOfChecked | src/context/DataContext.tsx:84-95 | the total is the sum of the subtotals of exactly the price entries whose id is checked |
| DataContext.SumOfCheckedSnoc | src/context/DataContext.tsx:84-95 | one more price entry adds its subtotal to the sum over the checked entries exactly when its id is checked |
| DataContext.NothingCheckedCostsNothing | src/context/DataContext.tsx:86-89 | with no checked list, or an empty one, the total is 0 |
| DataContext.UnpricedContributesNothing | src/context/DataContext.tsx:84-95 | checking an ingredient without prices leaves the total unchanged |
| DataContext.Unchecked | src/components/ListsPage.tsx:600 | `arrayRemove` on the checked list removes every occurrence of the id; UncheckRemovesContribution states its effect on the total |
| DataContext.RecheckChangesNothing | src/components/ListsPage.tsx:591 | checking an id that is already checked leaves the total unchanged, so `arrayUnion` and an append agree on it |
| DataContext.UncheckRemovesContribution | src/context/DataContext.tsx:84-95 | unchecking an id lowers the total by exactly the subtotal its price block shows in the list, or by 0 when no block shows |
| DataContext.ContextValue | src/context/DataContext.tsx:100-115 | with no group: the defaults, meaning empty lists, no prices, checked-first off, "BRL" and budget 0; otherwise each missing field falls back to its default, a missing or empty currency to "BRL", and the currency is never empty |
| DataContext.EmptyGroupReadsAsDefaults | src/context/DataContext.tsx:100-115 | a loaded group with every field missing reads exactly like no group |
| IngredientPriceForm.Patched | src/components/IngredientPriceForm.tsx:35 | each field given in the patch replaces the row's field; each field not given keeps its value |
| IngredientPriceForm.WithItemValue | src/components/IngredientPriceForm.tsx:30-40 | the length is kept; row i is patched; every other row is unchanged |
| IngredientPriceForm.WithoutItem | src/components/IngredientPriceForm.tsx:48-54 | in range: one row shorter, the rows before i kept, later rows shifted left by one; past the end: unchanged; a negative index counts from the end, and one before the start is clamped to 0 so the first row goes, as `splice` does |
| IngredientPriceForm.PriceValues.constructor | src/components/IngredientPriceForm.tsx:27-28 | the items start as the initial rows |
| IngredientPriceForm.PriceValues.SetItemValue | src/components/IngredientPriceForm.tsx:30-40 | the items become the patched list |
| IngredientPriceForm.PriceValues.AddItem | src/components/IngredientPriceForm.tsx:42-46 | exactly one row of quantity "1" at price "0" is appended |
| IngredientPriceForm.PriceValues.RemoveItem | src/components/IngredientPriceForm.tsx:48-54 | the items become the list without row i |
| IngredientPriceForm.OfferedDeleteKeepsFirstRow | src/components/IngredientPriceForm.tsx:192-203 | a delete the form offers never removes the first row |
| IngredientPriceForm.DeleteOffered | src/components/IngredientPriceForm.tsx:192 | the delete control is drawn for every row but the first; OfferedDeleteKeepsFirstRow states what that protects |
| IngredientPriceForm.Submitted | src/components/IngredientPriceForm.tsx:94-101 | one numeric row per input row, same length and order, each field parsed |
| IngredientPriceForm.TotalValue | src/components/IngredientPriceForm.tsx:86-92 | the form's running total; SubmittedTotal and AddItemKeepsTotal state it |
| IngredientPriceForm.SubmittedTotal | src/components/IngredientPriceForm.tsx:86-101 | the total shown is the subtotal of the rows submitted |
| IngredientPriceForm.AddItemKeepsTotal | src/components/IngredientPriceForm.tsx:86-92 | an empty form totals 0, and an added row leaves the total unchanged |
| IngredientPriceForm.UneditedSubmitRoundTrip | src/components/ListsPage.tsx:864-869 | opening the form on stored rows and submitting unedited stores the same rows, provided parsing inverts printing; without stored rows it stores one row of 1 at 0 |
| RecipeHelpers.Assigned | src/helpers/recipes.ts:6-8 | the keys of a record filled by assignment in a loop are exactly the keys assigned |
| RecipeHelpers.AssignedLastWins | src/helpers/recipes.ts:6-8 | an entry that no later entry with the same key overwrites sets its key's value |
| RecipeHelpers.AssignedDistinct | src/helpers/recipes.ts:6-8 | with distinct keys, every key maps to its own entry's value |
| RecipeHelpers.QuantitiesFromArray | src/helpers/recipes.ts:3-11 | the keys are exactly the listed ingredient ids; empty input gives an empty record |
| RecipeHelpers.GetQuantitiesFromArray | src/helpers/recipes.ts:3-11 | the loop yields that record |
| RecipeHelpers.QuantitiesLastWins | src/helpers/recipes.ts:6-8 | with repeated ids, the last listing's quantity wins |
| RecipeHelpers.QuantitiesDistinct | src/helpers/recipes.ts:6-8 | with distinct ids, each id maps to its own quantity |
| RecipeHelpers.Reconciled | src/components/RecipeInputDisplay.tsx:76-91 | the keys are exactly the selected ids; each holds its current value, or "" when it had none |
| RecipeHelpers.Reconcile | src/components/ListIngredientsSelect.tsx:83-98 | the loop yields the reconciled record |
| RecipeHelpers.ReconcileMatchingRecord | src/components/ListIngredientsSelect.tsx:83-98 | a record whose keys already equal the selection is unchanged, and reconciling twice is reconciling once |
| RecipeHelpers.ReconcileKeepsOrBlanks | src/components/RecipeInputDisplay.tsx:80-87 | an id is kept exactly when selected; a retained id keeps its value and a new one gets "" |
| ListIngredientsSelect.QuantityObject | src/components/ListIngredientsSelect.tsx:24-32 | the keys are exactly the entries' ids |
| ListIngredientsSelect.GetQuantityObject | src/components/ListIngredientsSelect.tsx:24-32 | the loop yields that record |
| ListIngredientsSelect.QuantityObjectLastWins | src/components/ListIngredientsSelect.tsx:27-29 | a later entry with the same id overwrites an earlier one |
| ListIngredientsSelect.QuantityObjectCoversIds | src/components/ListIngredientsSelect.tsx:24-32 | the record built from the entries has a key for each selected id and no other |
| ListIngredientsSelect.EntryIds | src/components/ListIngredientsSelect.tsx:46-48 | the entries' ids, in order |
| ListIngredientsSelect.WithQuantities | src/components/ListIngredientsSelect.tsx:64-71 | one entry per selected id, same length and order, with the stored quantity or "" |
| ListIngredientsSelect.QuantityDialog.constructor | src/components/ListIngredientsSelect.tsx:46-59 | the selection starts as the list's ids and the quantities as its quantity record |
| ListIngredientsSelect.QuantityDialog.Reset | src/components/ListIngredientsSelect.tsx:78-81 | a new list resets both state variables in the same way |
| ListIngredientsSelect.QuantityDialog.SetCurrentSelecteds | src/components/ListIngredientsSelect.tsx:144 | the picker replaces the selection and nothing else |
| ListIngredientsSelect.QuantityDialog.SetQuantity | src/components/ListIngredientsSelect.tsx:169-177 | a quantity field overwrites only its ingredient's value |
| ListIngredientsSelect.QuantityDialog.ReconcileQuantities | src/components/ListIngredientsSelect.tsx:83-98 | the quantities are rebuilt from the selection |
| ListIngredientsSelect.QuantityDialog.CurrentIngredientsWithQuantity | src/components/ListIngredientsSelect.tsx:64-76 | the entries a save hands on; WithQuantities, UneditedRoundTrip and EditedQuantityIsSaved state them |
| ListIngredientsSelect.UneditedRoundTrip | src/components/ListIngredientsSelect.tsx:24-81 | with distinct ids, resetting from a list and rebuilding the entries gives the list back, whether or not the reconcile ran |
| ListIngredientsSelect.UneditedSave | src/components/ListIngredientsSelect.tsx:24-81 | with distinct ids, saving straight after a reset from a list gives the list back |
| ListIngredientsSelect.EditedQuantityIsSaved | src/components/ListIngredientsSelect.tsx:64-71 | after a quantity edit, the saved entry for that ingredient carries the new value |
| ListIngredientsSelect.LabelledIngredients | src/components/ListIngredientsSelect.tsx:51-52 | exactly the catalogue ingredients referenced by an entry |
| ListIngredientsSelect.Names | src/components/ListIngredientsSelect.tsx:53 | the names, in order |
| ListIngredientsSelect.LabelledInCatalogueOrder | src/components/ListIngredientsSelect.tsx:51-52 | the labelled ingredients keep catalogue order |
| ListIngredientsSelect.LabelsOfFew | src/components/ListIngredientsSelect.tsx:50-55 | an empty list has an empty label, and a single labelled ingredient is labelled by its name alone |
| ListIngredientsSelect.Labels | src/components/ListIngredientsSelect.tsx:50-55 | the names of the catalogue ingredients on the list, in catalogue order, joined by ", "; LabelsOfFew and LabelledInCatalogueOrder state it |
| RecipeInputDisplay.ListingIds | src/components/RecipeInputDisplay.tsx:39-41 | the listings' ingredient ids, in order |
| RecipeInputDisplay.SavedIngredients | src/components/RecipeInputDisplay.tsx:55-60 | one listing per selected id, in order, with the entered quantity or "" |
| RecipeInputDisplay.SaveRequest | src/components/RecipeInputDisplay.tsx:48-62 | refused with "missing groupId" exactly when the group id is not truthy; otherwise the call carries the group, the id, the name and those listings |
| RecipeInputDisplay.DeleteRequest | src/components/RecipeInputDisplay.tsx:64-74 | "missing id" when there is no id, checked first; then "missing groupId"; the call names both ids exactly when both are present |
| RecipeInputDisplay.NewRecipeIsNotDeleted | src/components/RecipeInputDisplay.tsx:64-67 | a recipe without an id can never be deleted |
| RecipeInputDisplay.RecipeEditor.constructor | src/components/RecipeInputDisplay.tsx:35-41 | the name or ""; the recipe's quantity record or an empty one; its ids in listing order or none |
| RecipeInputDisplay.RecipeEditor.SetInputName | src/components/RecipeInputDisplay.tsx:112 | only the name changes |
| RecipeInputDisplay.RecipeEditor.SetSelectedIngredients | src/components/RecipeInputDisplay.tsx:120 | only the selection changes |
| RecipeInputDisplay.RecipeEditor.SetQuantity | src/components/RecipeInputDisplay.tsx:154-161 | only that ingredient's quantity changes |
| RecipeInputDisplay.RecipeEditor.ReconcileQuantities | src/components/RecipeInputDisplay.tsx:76-91 | the quantities are rebuilt from the selection |
| RecipeInputDisplay.RecipeEditor.Save | src/components/RecipeInputDisplay.tsx:48-62 | the save the state would request; SaveRequest and UneditedSaveRoundTrip state it |
| RecipeInputDisplay.UneditedSaveRoundTrip | src/components/RecipeInputDisplay.tsx:35-60 | with distinct ids, saving an unedited recipe stores the same listings, whether or not the reconcile ran |
| RecipeInputDisplay.UneditedSave | src/components/RecipeInputDisplay.tsx:35-60 | with distinct ids, saving a recipe straight after opening it stores its own listings |
| RecipeInputDisplay.QuantitiesCoverIds | src/helpers/recipes.ts:3-11 | the quantity record of a recipe has a key for each listed id and no other |
| RecipeInputDisplay.RepeatedIngredientTakesLastQuantity | src/components/RecipeInputDisplay.tsx:36-60 | with a repeated id, every listing of it is saved with the quantity of its last listing |
| RecipesList.ClickHandler | src/components/RecipesList.tsx:34-53 | no handler exactly when selection is disabled; otherwise the handler reports the toggled selection |
| RecipesList.Toggled | src/components/RecipesList.tsx:39-48 | the selection a click reports; its laws are ToggleAbsent, TogglePresent and ToggleTwice |
| RecipesList.ToggleAbsent | src/components/RecipesList.tsx:42-45 | an absent id is appended at the end and the rest is unchanged |
| RecipesList.FilterOtherMultiset | src/components/RecipesList.tsx:47 | the filter removes exactly the id's occurrences |
| RecipesList.TogglePresent | src/components/RecipesList.tsx:40-47 | a present id loses all its occurrences; the other ids keep their multiplicities and their order |
| RecipesList.ToggleTwice | src/components/RecipesList.tsx:40-47 | toggling an absent id twice restores the selection |
| RecipesList.ListingNames | src/components/RecipesList.tsx:73-80 | one name per listing, in recipe order; "" for an id without a catalogue ingredient |
| RecipesList.ListingName | src/components/RecipesList.tsx:76-79 | `find(...)?.name`, printed as "" when missing; ListingNames states it per listing |
| RecipesList.SecondaryTextSnoc | src/components/RecipesList.tsx:73-81 | the secondary text is the names joined by ", ": a further listing adds ", " and its name |
| RecipesList.SecondaryText | src/components/RecipesList.tsx:73-81 | the names of the recipe's listings, in listing order, joined by ", "; SecondaryTextSnoc states the join |
| RecipesList.Controls | src/components/RecipesList.tsx:65-100 | a checkbox, showing whether the recipe is selected, exactly while selecting; the "on list" chip exactly when asked, not selecting, and the recipe is on the list; the edit button exactly when not selecting |
| GroupContext.ClaimedGroups | src/context/GroupContext.tsx:78 | claims default to none when the token has no groups |
| GroupContext.NextGroupId | src/context/GroupContext.tsx:85-98 | without claims: null with a user, false without; with claims: the current id when it is truthy and claimed, else the first claim |
| GroupContext.ChosenGroupIsClaimed | src/context/GroupContext.tsx:89-95 | with claims, the chosen id is always one of them |
| GroupContext.NextGroupIdIsStable | src/context/GroupContext.tsx:85-98 | running the selection again with the same claims keeps the id it chose |
| GroupContext.Gate | src/context/GroupContext.tsx:114-124 | the spinner exactly when loading, processing, claims not fetched, no user, or the two ids disagree; the register page exactly when settled with a null id |
| GroupContext.SettledGate | src/context/GroupContext.tsx:85-124 | once settled, a user without claims is sent to register a group; a user with claims gets the application under a claimed group |
| GroupContext.GroupState.constructor | src/context/GroupContext.tsx:49-61 | both ids start false, processing, with no claims fetched |
| GroupContext.GroupState.ReceiveClaims | src/context/GroupContext.tsx:75-83 | the claims are stored, defaulted, and marked fetched; nothing else changes |
| GroupContext.GroupState.SelectGroup | src/context/GroupContext.tsx:85-98 | the id becomes the selection rule's choice and processing ends |
| GroupContext.GroupState.SyncUpdatedGroupId | src/context/GroupContext.tsx:100-102 | the updated id catches up with the id |
| GroupContext.GroupState.ChangeGroup | src/context/GroupContext.tsx:110 | the id becomes the given group and nothing else changes |
| GroupContext.GroupState.Rendered | src/context/GroupContext.tsx:114-124 | the screen the provider draws in the current state, as Gate decides it |
| GroupContext.CurrentGroup | src/context/GroupContext.tsx:109 | an available group with the chosen id, or none exactly when the id is not a string or no group has it |
| GroupContext.CurrentGroupFirst | src/context/GroupContext.tsx:109 | the lookup returns the first available group with the id |
| AppStateContext.Cleared | src/context/AppStateContext.tsx:61-66 | title, colour, action and the menu flag return to their initial values; the back button and the bottom-navigation flag are kept |
| AppStateContext.ClearIsIdempotent | src/context/AppStateContext.tsx:61-66 | clearing twice is clearing once, and clearing the initial state changes nothing |
| AppStateContext.ClearForgets | src/context/AppStateContext.tsx:61-66 | two states that agree on the kept fields clear to the same state |
| AppStateContext.AppState.constructor | src/context/AppStateContext.tsx:49-59 | the initial state: "Felicette cooking", "default", no action or back button, both flags false |
| AppStateContext.AppState.SetTitle | src/context/AppStateContext.tsx:50 | only the title changes |
| AppStateContext.AppState.SetColor | src/context/AppStateContext.tsx:51 | only the colour changes |
| AppStateContext.AppState.SetAction | src/context/AppStateContext.tsx:52 | only the action changes |
| AppStateContext.AppState.SetDisableMenu | src/context/AppStateContext.tsx:53 | only the menu flag changes |
| AppStateContext.AppState.SetDisableBottomNavigation | src/context/AppStateContext.tsx:54-56 | only the bottom-navigation flag changes |
| AppStateContext.AppState.SetBackButton | src/context/AppStateContext.tsx:57-59 | only the back button changes |
| AppStateContext.AppState.ClearState | src/context/AppStateContext.tsx:61-66 | the state becomes the cleared state |
| LoggedPage.Split | src/components/LoggedPage.tsx:39 | at least one piece; no piece contains the separator; joining the pieces with it gives the string back |
| LoggedPage.SplitNoSeparator | src/components/LoggedPage.tsx:39 | a string without separators splits to itself |
| LoggedPage.SplitFirstPiece | src/components/LoggedPage.tsx:39 | a leading piece without separators comes off as the first part |
| LoggedPage.ParsedPathName | src/components/LoggedPage.tsx:38-40 | the parsed path; ParsedFirstSegment, ParsedHasOneSlash and ParsedExamples state it |
| LoggedPage.ParsedFirstSegment | src/components/LoggedPage.tsx:38-40 | the parsed name is "/" and the first segment, whatever follows it |
| LoggedPage.ParsedHasOneSlash | src/components/LoggedPage.tsx:38-40 | for a path starting with "/", the parsed name has exactly one "/", at position 0 |
| LoggedPage.ParsedExamples | src/components/LoggedPage.tsx:38-40 | "/recipes/edit/x" parses to "/recipes", and "/" to "/" |
| LoggedPage.TabFor | src/components/LoggedPage.tsx:42-47 | each of the three tab paths, and only it, shows its page; anything else shows the empty component |
| LoggedPage.Redirect | src/components/LoggedPage.tsx:32-36 | a navigation to "/list" happens exactly for the path "/" |
| LoggedPage.RootIsRedirected | src/components/LoggedPage.tsx:32-47 | the root shows the empty component and is redirected to the list |
| LoggedPage.ListPathShowsList | src/components/LoggedPage.tsx:22-47 | the redirect's target shows the list tab |
| Translate.OrEmpty | scripts/translate.js:37 | a truthy value is kept; anything else becomes an empty object |
| Translate.Comparison | scripts/translate.js:33-43 | exactly obj's keys, in obj's order |
| Translate.Filled | scripts/translate.js:45-55 | exactly obj's keys, in obj's order |
| Translate.GetKeysComparison | scripts/translate.js:33-43 | the per-level loop with recursion yields the comparison |
| Translate.FillObject | scripts/translate.js:45-55 | the per-level loop with recursion yields the fill |
| Translate.Merged | scripts/translate.js:57-65 | one language's result; MergedHasEnglishShape and MergedAt state it |
| Translate.ComparisonShaped | scripts/translate.js:33-43 | the comparison has obj's keys at every nested object |
| Translate.FilledShaped | scripts/translate.js:45-55 | the fill has obj's keys at every nested object |
| Translate.MergedHasEnglishShape | scripts/translate.js:57-65 | at every object of the English file, the language's file has exactly that object's keys, in the same order; under an English string it may hold an object (MergedKeepsCurrentObject) |
| Translate.MergedKeepsCurrentObject | scripts/translate.js:36-51 | where the English file has a string and the current file an object, the comparison copies that object and the fill recurses into it, filling it from the machine translation |
| Translate.MergedKeepsCurrentObjectExample | scripts/translate.js:57-65 | `{a: "x"}` against a current `{a: {b: "y"}}` writes `{a: {b: "y"}}`, a key the English file lacks |
| Translate.AtOrEmpty | scripts/translate.js:37 | looking through `|| {}` finds the same values |
| Translate.ComparisonAt | scripts/translate.js:36-40 | at each string of obj, the comparison holds other's value there, or nothing when other lacks it |
| Translate.FilledAt | scripts/translate.js:48-52 | at each string of obj, the fill holds obj's value when it is truthy, else other's |
| Translate.MergedAt | scripts/translate.js:57-65 | at each English string, where the current file holds no object, an existing non-empty translation is kept and a gap is filled from the machine translation |
| Translate.ComparisonWithItself | scripts/translate.js:33-43 | comparing a file with itself gives it back |
| Translate.FilledWithItself | scripts/translate.js:45-55 | filling a file from itself gives it back |

## Left out

- Firestore reads and writes are not modelled. This covers the snapshot listeners, `updateGroup`, `deleteField` and the clear-all-checks write (src/components/ListsPage.tsx:90-96). The group, recipes and catalogue come in as values.
- `arrayUnion`/`arrayRemove` on `checkedIngredients` (src/components/ListsPage.tsx:591, 600) are not modelled as writes. The model takes `arrayRemove` to remove every occurrence of the id (DataContext.Unchecked). It takes `arrayUnion` as an append (`checked + [key]`); a union that skips an id already present gives the same total, because CheckedTotal tests only membership (DataContext.RecheckChangesNothing).
- Dafny's `char` is a Unicode scalar value, so JavaScript strings holding lone surrogates are outside the model, and so is their order under the bare `.sort()` (src/components/ListsPage.tsx:444); CodeUnitLe orders strings of scalar values only.
- `getAvailableGroups`, `useCreate` and `useDelete` are promise plumbing and are not modelled. The available groups are a parameter of `GroupContext.CurrentGroup`. Save and delete are modelled only up to the call they would make.
- Authentication is not modelled: `user` and `loading` become the booleans `hasUser` and `loading`. The token's claims are the argument of `ReceiveClaims`.
- React scheduling is not modelled. Each effect is a method that the caller invokes. Only the final value of a state variable an effect sets more than once is modelled: the two `setProcessing` calls in the group-selection effect leave `processing` false.
- Rendering is not modelled. JSX elements are opaque (`AppStateContext.Element`). The AppBar colour is a string. Dialogs, menus, the checkbox handlers that write to the store, and the ingredient view's name and joined descriptions are plain display and are left out.
- i18next is not modelled: `t`, `Trans` and the phrases are uninterpreted (`Phrases`). `Intl.NumberFormat` currency formatting is left out, so displayed amounts are numbers. The locale collator is a parameter that the sorting lemmas require to be a total preorder.
- Floating point is not modelled: prices are `real`, so rounding is not reproduced. `Number(...)` and `String(...)` are parameters. A `NaN` budget, which `budget || 0` would turn into 0, cannot occur.
- IngredientPriceForm.PriceValues.SetItemValue: requires an index inside the rows. Out of range, the source writes past the end and leaves holes; the form only calls it for a shown row.
- IngredientPriceForm.WithItemValue: requires an index inside the rows, for the same reason.
- `ingredientsPrices` is modelled as a sequence of entries with distinct ids, in the order `Object.entries` would give them. Quantity records are Dafny maps, because only their lookups and keys matter.
- The translation trees hold only objects and strings. Arrays, numbers, booleans and `null` in a locale file are not modelled.
- Keys inherited from `Object.prototype` (such as `{}["constructor"]`) are not modelled, and neither is indexing a string by a numeric key. A key missing from an object is `Missing`, and any key of a string is `Missing`.
- scripts/translate.js: the file reads and their fall-back to `{}`, the machine translation call and the writes are not modelled. The current and machine-translated files are parameters. So is the `JSON.stringify` of the result, which would drop `undefined` values.
- Ingredient ids that are not in the catalogue make the source fail. The merge requires every id it dereferences to resolve, and promises nothing for ids that do not.
