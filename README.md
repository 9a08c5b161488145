# Recipe management screen — a Dafny model

This project models the logic of the recipe management screen of a restaurant
back office (`client/src/pages/recipes-new.tsx`). The screen lists recipes,
lets staff create and edit them, attach inventory ingredients to a recipe, and
shows a stock-health badge per ingredient and a cost estimate per recipe. The
model covers the four pieces of that file that carry behaviour:

- **Stock health** (`StockHealth`, `stock_status.dfy`): the badge for an
  ingredient is Critical, Low or Good depending on the ratio of current to
  ideal quantity.
- **Cost estimate** (`CostEstimate`, `cost_estimate.dfy`, with the number
  reader in `NumberParsing`, `number_parsing.dfy`): a fold over the recipe's
  ingredients that strips each unit price down to digits and dots, reads price
  and quantity the way JavaScript's `parseFloat` does, adds price × quantity
  when both are numbers and skips the ingredient otherwise. `parseFloat` is
  modelled as ECMAScript defines it: leading white space, an optional sign, the
  longest prefix that is a decimal literal (digits, an optional fraction, an
  optional exponent), NaN (`None`) when no such prefix exists.
- **Form schemas** (`Forms`, `forms.dfy`): the recipe schema and the
  ingredient schema as functions that accept a form's values (filling in
  defaults) or reject them with one issue per failing field, carrying the
  schema's own messages; the forms' starting values; the loading of a recipe
  into the edit form.
- **Screen state** (`Page`, `recipes_page.dfy`, with the cache keys in
  `QueryKeys`, `query_keys.dfy`, and the list tabs in `RecipeList`,
  `recipe_list.dfy`): the class `RecipesPage` holds the four state slots
  (add dialog open, recipe being edited, selected recipe, add-ingredient dialog
  open) and the three forms' current values, with one method per handler. The
  requests sent to the data API and the cache keys invalidated are kept as
  ghost logs. A cache key is a list of parts. Invalidating with a key marks
  stale every cached key that starts with it. So invalidating the recipe list
  also marks every recipe's ingredient list stale, while invalidating one
  recipe's ingredient list touches nothing else.

`Entities` (`entities.dfy`) holds the records the screen receives and
`Wrappers` (`wrappers.dfy`) the `Option` type (`None` is JavaScript's null).

Where the screen's intended behaviour and the code differ, the model follows
the code:

- The tab filter has no state slot: the tabs are uncontrolled and start on
  "all", so a tab is a parameter of the pure function `TabRecipes`.
- The ingredient selection is checked only as a number of at least 1, not as an
  integer. The model keeps it an integer because the selection comes from
  `parseInt` of an inventory id.
- Invalidating the recipe list after a create or an update also marks every
  recipe's ingredient list stale, because the cache matches keys by prefix.

## Model

| member | source | states |
|---|---|---|
| StockHealth.Classify | client/src/pages/recipes-new.tsx:131-155 | for a positive ideal, the badge is Critical exactly when current/ideal ≤ 0.25, Low exactly when 0.25 < ratio ≤ 0.5, Good exactly when ratio > 0.5 |
| StockHealth.BandsPartition | client/src/pages/recipes-new.tsx:134-154 | every ratio lies in exactly one of the three bands |
| StockHealth.ClassifyByCrossMultiplication | client/src/pages/recipes-new.tsx:132-154 | the bands without division: Critical iff 4·current ≤ ideal, Low iff ideal < 4·current and 2·current ≤ ideal, Good iff ideal < 2·current |
| StockHealth.ClassifyMonotone | client/src/pages/recipes-new.tsx:131-155 | more stock against the same ideal never gives a worse badge |
| StockHealth.ClassifyScaleInvariant | client/src/pages/recipes-new.tsx:132 | only the ratio matters: scaling current and ideal by the same positive factor keeps the badge |
| StockHealth.BoundaryCases | client/src/pages/recipes-new.tsx:134-141 | a ratio of exactly 0.25 is Critical, exactly 0.5 is Low, 0.51 is Good, no stock is Critical |
| NumberParsing.ParseFloat | client/src/pages/recipes-new.tsx:162-163 | `parseFloat`: skip the leading white space, read the longest prefix that is a signed decimal literal and return its exact value, or `None` (NaN) when no literal starts there |
| NumberParsing.ParseFloatFailsIff | client/src/pages/recipes-new.tsx:162-163 | `parseFloat` gives NaN exactly when, after the leading white space, the text starts neither with a digit nor with '.' and a digit, signed or not |
| NumberParsing.ParseFloatIgnoresTrailing | client/src/pages/recipes-new.tsx:163 | digits followed by text that starts with neither a digit, '.', 'e' nor 'E' read as the digits' value, whatever follows |
| NumberParsing.ParseFloatOfDigits | client/src/pages/recipes-new.tsx:163 | a string of decimal digits reads as its decimal value |
| NumberParsing.ParseFloatNatRoundTrip | client/src/pages/recipes-new.tsx:163 | the decimal rendering of any natural number reads back as that number |
| NumberParsing.ParseFloatOfDecimal | client/src/pages/recipes-new.tsx:162 | `int.frac` followed by text that starts with neither a digit, 'e' nor 'E' reads as the digits of int and frac over 10 to the number of fraction digits |
| NumberParsing.ParseFloatDecimalExample | client/src/pages/recipes-new.tsx:162 | "12.50" reads as 12.5 |
| NumberParsing.ParseFloatExponentExample | client/src/pages/recipes-new.tsx:163 | "1e3" reads as 1000 |
| NumberParsing.ParseFloatSignExample | client/src/pages/recipes-new.tsx:163 | "  -2" reads as -2: white space skipped, sign applied |
| NumberParsing.ParseFloatFailureExamples | client/src/pages/recipes-new.tsx:163 | "abc" and "." are NaN |
| CostEstimate.Sanitize | client/src/pages/recipes-new.tsx:162 | the stripped price holds only digits and '.', and is never longer than the input |
| CostEstimate.SanitizeSplitAt | client/src/pages/recipes-new.tsx:162 | every character stays in its place: a digit or '.' at position i appears between what the text before and after it yields, anything else is dropped |
| CostEstimate.SanitizeCounts | client/src/pages/recipes-new.tsx:162 | each digit and '.' occurs in the output as often as in the input, and no other character occurs |
| CostEstimate.SanitizeAppend | client/src/pages/recipes-new.tsx:162 | stripping a concatenation strips each part |
| CostEstimate.SanitizeKeepsClean | client/src/pages/recipes-new.tsx:162 | text made only of digits and '.' is left as it is |
| CostEstimate.SanitizeIdempotent | client/src/pages/recipes-new.tsx:162 | stripping twice is stripping once |
| CostEstimate.SanitizeDollarExample | client/src/pages/recipes-new.tsx:162 | "$12.50" is stripped to "12.50" |
| CostEstimate.ParsePrice | client/src/pages/recipes-new.tsx:162 | the unit price as the estimate reads it: `parseFloat` of the price with every character other than 0-9 and '.' removed |
| CostEstimate.ParsePriceNonNegative | client/src/pages/recipes-new.tsx:162 | a price that can be read is never negative, since the sign is stripped |
| CostEstimate.ParsePriceFailsIff | client/src/pages/recipes-new.tsx:162 | a price is NaN exactly when its stripped text starts neither with a digit nor with '.' and a digit |
| CostEstimate.ItemCost | client/src/pages/recipes-new.tsx:162-167 | the reducer's step for one ingredient: price × quantity when both parses give numbers, 0 otherwise |
| CostEstimate.ItemCostCases | client/src/pages/recipes-new.tsx:162-167 | an ingredient adds price × quantity when both read as numbers, and exactly 0 when either is NaN |
| CostEstimate.ItemCostReadable | client/src/pages/recipes-new.tsx:164-165 | an ingredient whose price reads as p and quantity as q adds p·q |
| CostEstimate.Cost | client/src/pages/recipes-new.tsx:160-169 | `calculateCost`: the left fold of ItemCost over the items from 0, in list order |
| CostEstimate.SumPermutation | client/src/pages/recipes-new.tsx:161-168 | the fold `total + share` started from 0 gives the same total for any reordering of the list |
| CostEstimate.CostBase | client/src/pages/recipes-new.tsx:161-168 | no ingredients cost 0; one ingredient costs its own share |
| CostEstimate.CostAppend | client/src/pages/recipes-new.tsx:161-168 | the cost of two lists joined is the sum of their costs |
| CostEstimate.CostPermutation | client/src/pages/recipes-new.tsx:161-168 | the cost does not depend on the order of the ingredients |
| CostEstimate.CostSkipsUnreadable | client/src/pages/recipes-new.tsx:164-167 | an ingredient with an unreadable price or quantity leaves the estimate as if it were absent |
| CostEstimate.CostAddsReadable | client/src/pages/recipes-new.tsx:164-165 | inserting an ingredient whose price reads as p and quantity as q anywhere adds exactly p·q |
| CostEstimate.CostExample | client/src/pages/recipes-new.tsx:160-169 | "$12.50" × "2" together with "abc" × "3" costs 25 |
| Forms.ValidateRecipe | client/src/pages/recipes-new.tsx:111-118 | a rejected recipe form always carries at least one issue |
| Forms.ValidateRecipeAcceptsIff | client/src/pages/recipes-new.tsx:111-118 | the recipe schema accepts exactly when the dish name has at least 2 characters and the order type at least 1 |
| Forms.RecipeRejectionIssues | client/src/pages/recipes-new.tsx:112-113 | a rejection holds the dish-name message exactly when the name is too short, the order-type message exactly when the order type is empty, no other issue, and one issue per failing field |
| Forms.RecipeAcceptedValues | client/src/pages/recipes-new.tsx:112-117 | accepted values keep every field as entered; description, price and category may be missing or null; a missing active flag becomes true |
| Forms.RecipeOptionalFieldsIrrelevant | client/src/pages/recipes-new.tsx:114-117 | the optional fields and the active flag never change whether the form is accepted |
| Forms.ValidateRecipeIdempotent | client/src/pages/recipes-new.tsx:111-118 | validating the schema's own output accepts it unchanged |
| Forms.AddRecipeDefaultsRejected | client/src/pages/recipes-new.tsx:418-428 | the add-recipe form as it starts is rejected with the dish-name issue only |
| Forms.RecipeExamples | client/src/pages/recipes-new.tsx:112 | a one-letter dish name is rejected; "Ravioli" with the default order type is accepted and active |
| Forms.SeedEditForm | client/src/pages/recipes-new.tsx:452-463 | the edit form copies name, order type and active flag, and shows a null description, selling price or category as '' |
| Forms.SeededEditFormValidates | client/src/pages/recipes-new.tsx:452-463 | a recipe loaded into the edit form is accepted unchanged exactly when its own name and order type meet the schema, and keeps its active flag |
| Forms.ValidateIngredient | client/src/pages/recipes-new.tsx:121-125 | a rejected ingredient form always carries at least one issue |
| Forms.ValidateIngredientAcceptsIff | client/src/pages/recipes-new.tsx:121-125 | the ingredient schema accepts exactly when the ingredient is a number of at least 1 and quantity and unit are non-empty, keeping the values as entered |
| Forms.IngredientRejectionIssues | client/src/pages/recipes-new.tsx:122-124 | a rejection holds exactly the issues of the failing fields (below 1, not a number, empty quantity, empty unit), one per failing field, and no other issue |
| Forms.AddIngredientDefaultsRejected | client/src/pages/recipes-new.tsx:442-449 | the add-ingredient form as it starts (0, '', '') fails on all three fields |
| Forms.IngredientExample | client/src/pages/recipes-new.tsx:121-125 | ingredient 7, quantity "0.5", unit "kg" is accepted as entered |
| RecipeList.FilterByOrderType | client/src/pages/recipes-new.tsx:945 | a filtered tab lists only recipes of that order type, and every recipe of that type |
| RecipeList.FilterCounts | client/src/pages/recipes-new.tsx:945 | a recipe of the tab's order type is listed as often as it occurs, any other recipe not at all |
| RecipeList.FilterAppend | client/src/pages/recipes-new.tsx:955 | filtering two lists joined filters each list in order |
| RecipeList.FilterIdempotent | client/src/pages/recipes-new.tsx:955 | filtering a filtered list changes nothing |
| RecipeList.TabRecipes | client/src/pages/recipes-new.tsx:933-961 | the recipes each tab lists: all of them, those with order type dine_in, or those with order type both |
| RecipeList.TabsDisjoint | client/src/pages/recipes-new.tsx:926-962 | no recipe is in both the dine-in and the versatile tab, and a takeaway recipe is in neither |
| RecipeList.OrderTypeLabel | client/src/pages/recipes-new.tsx:253-265 | the badge is "Dine In" exactly for dine_in, "Versatile" exactly for both, and "Takeaway" for every other value |
| RecipeList.TabLabelsAgree | client/src/pages/recipes-new.tsx:926-962 | every recipe in the dine-in tab shows the "Dine In" badge and every recipe in the versatile tab the "Versatile" badge |
| QueryKeys.SelectedItemsKey | client/src/pages/recipes-new.tsx:330-331 | the ingredient query's key is the selected recipe's ingredient-list key, and no recipe's key when none is selected |
| QueryKeys.ItemsKeyMatchesIff | client/src/pages/recipes-new.tsx:402-406 | invalidating one recipe's ingredient list reaches another recipe's list exactly when the ids are equal |
| QueryKeys.ItemsKeyMissesLists | client/src/pages/recipes-new.tsx:402-406 | invalidating one recipe's ingredient list reaches neither the recipe list nor the inventory |
| QueryKeys.RecipesKeyCoversItems | client/src/pages/recipes-new.tsx:348 | invalidating the recipe list reaches every recipe's ingredient list but not the inventory |
| QueryKeys.InvalidateItemsOnly | client/src/pages/recipes-new.tsx:402-406 | after invalidating one recipe's ingredient list, the recipe list, the inventory and every other recipe's list are stale exactly when they were before |
| Page.RecipesPage.ItemsQueryEnabled | client/src/pages/recipes-new.tsx:331 | the ingredient query is enabled exactly while a recipe is selected; the add and remove handlers invalidate the key it reads |
| Page.RecipesPage.EditDialogOpen | client/src/pages/recipes-new.tsx:674 | the edit dialog is open exactly while a recipe is being edited |
| Page.RecipesPage.ItemsQueryKey | client/src/pages/recipes-new.tsx:327-332 | the page's ingredient query reads the selected recipe's ingredient-list key |
| Page.RecipesPage.constructor | client/src/pages/recipes-new.tsx:300-304 | the screen starts with no dialog open, nothing selected or edited, the forms at their defaults and empty logs |
| Page.RecipesPage.SelectRecipe | client/src/pages/recipes-new.tsx:248 | clicking a row makes that recipe the selection |
| Page.RecipesPage.SyncEditForm | client/src/pages/recipes-new.tsx:452-463 | while a recipe is being edited the edit form holds that recipe's loaded values; otherwise the form is left alone |
| Page.RecipesPage.StartEdit | client/src/pages/recipes-new.tsx:283 | the settings button opens the edit dialog on the row's recipe with the form loaded from it |
| Page.RecipesPage.EditDialogOpenChange | client/src/pages/recipes-new.tsx:674 | closing the edit dialog clears the recipe being edited; an open notification changes nothing |
| Page.RecipesPage.SetAddDialogOpen | client/src/pages/recipes-new.tsx:515 | the add-recipe dialog is open exactly as last set |
| Page.RecipesPage.SetAddIngredientDialogOpen | client/src/pages/recipes-new.tsx:825 | the add-ingredient dialog is open exactly as last set, and opens only while a recipe is selected |
| Page.RecipesPage.EnterAddRecipe | client/src/pages/recipes-new.tsx:530 | the add-recipe form holds what was entered |
| Page.RecipesPage.EnterEditRecipe | client/src/pages/recipes-new.tsx:684 | the edit form holds what was entered |
| Page.RecipesPage.EnterIngredient | client/src/pages/recipes-new.tsx:835 | the add-ingredient form holds what was entered |
| Page.RecipesPage.SubmitAddRecipe | client/src/pages/recipes-new.tsx:466-468 | a valid form sends one create request with the parsed values; an invalid one sends nothing and reports the schema's issues |
| Page.RecipesPage.SubmitEditRecipe | client/src/pages/recipes-new.tsx:470-474 | a valid form sends an update for the recipe being edited, and nothing when there is none; an invalid one reports its issues |
| Page.RecipesPage.SubmitAddIngredient | client/src/pages/recipes-new.tsx:476-480 | a valid form sends the ingredient for the selected recipe, and nothing when none is selected; with the dialog open a valid form always goes out |
| Page.RecipesPage.CreateSucceeded | client/src/pages/recipes-new.tsx:341-351 | after a create: the add dialog is closed, the recipe list invalidated, and the created recipe selected |
| Page.RecipesPage.UpdateSucceeded | client/src/pages/recipes-new.tsx:367-379 | after an update: the edit dialog is closed, the recipe list invalidated, and the selection replaced only when its id equals the stored recipe's id |
| Page.RecipesPage.AddIngredientSucceeded | client/src/pages/recipes-new.tsx:395-407 | after adding an ingredient: the dialog is closed, the selection kept, and only the selected recipe's ingredient list invalidated |
| Page.RecipesPage.MutationFailed | client/src/pages/recipes-new.tsx:352-358 | a failed create (and likewise a failed update, lines 380-386, or ingredient add, lines 408-414) changes no state |
| Page.RecipesPage.RemoveIngredientOf | client/src/pages/recipes-new.tsx:1033-1047 | removing an ingredient sends the removal for the selected recipe; on success only that recipe's ingredient list is invalidated, on failure nothing |
| Page.RecipesPage.RetryRecipes | client/src/pages/recipes-new.tsx:498 | the retry button invalidates the recipe list |

## Left out

- StockHealth.Classify: requires a positive ideal quantity. With an ideal of 0 the screen divides by zero, and for a non-negative current (inventory quantities are never negative) the resulting Infinity or NaN ratio falls through to Good; that case is not modelled.
- Floating point: prices, quantities and the running total are exact reals. IEEE-754 rounding of `parseFloat` results and of the sum, negative zero, and the display of the total with two decimals are not modelled.
- NumberParsing: `parseFloat`'s "Infinity" literal (with or without a sign) reads as NaN in the model, not as infinity.
- Forms: string lengths count characters. JavaScript counts UTF-16 code units, so a character outside the Basic Multilingual Plane counts once here and twice in the schema.
- Forms: the ingredient selection is an integer or NaN; a fractional number, which the schema would accept when at least 1, cannot be entered through the select and is not modelled.
- Page.UnseededEditForm: before any recipe is loaded, the edit form's values are undefined, which the schema would reject with its own "Required" messages. The model uses empty values instead. The edit dialog is only open once a recipe has been loaded into the form, so this form is never submitted.
- Asynchrony: the success and failure handlers and the removal handler are modelled as taking effect on the current state. They actually read the selection as it was when the handler was created, and responses can arrive after the selection has changed.
- Page.RecipesPage.RemoveIngredientOf: the network outcome of the removal is a parameter.
- The data API, the query cache's fetching, caching and retry, and the loading and error views are not modelled. The only exception is the retry button's invalidation.
- Toast notifications, the disabling of submit buttons while a request is pending, and all markup are not modelled. This includes the table caption, the 'Uncategorized' and 'Not set' fallbacks, the active badge and the highlighted selected row.
- Record timestamps and inventory dates, which the screen never reads.
