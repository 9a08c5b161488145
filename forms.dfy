/**
 * The two form schemas of the recipe screen and the values the forms start
 * from. A schema either accepts the form's values, producing the parsed record
 * (with defaults filled in), or rejects them with one issue per failing field,
 * in field order, each carrying the field's path and the schema's message.
 */
module Forms {
  import opened Wrappers
  import opened Entities

  /** A field declared `nullable().optional()`: it may be missing, null, or hold a value. */
  datatype Nullable<T> = Absent | Null | Present(value: T)

  /** One validation failure: the field it belongs to and the message shown under it. */
  datatype Issue = Issue(path: string, message: string)

  /** The outcome of running a schema over a form's values. */
  datatype Validation<T> = Accepted(value: T) | Rejected(issues: seq<Issue>)

  const DishNameMessage: string := "Dish name must be at least 2 characters"
  const OrderTypeMessage: string := "Order type is required"
  const IngredientMessage: string := "You must select an ingredient"
  const NotANumberMessage: string := "Expected number, received nan"
  const QuantityMessage: string := "Quantity is required"
  const UnitMessage: string := "Unit is required"

  // ---------------------------------------------------------------------
  // The recipe form

  /** What the add-recipe and edit-recipe forms hold; `isActive` may be missing. */
  datatype RecipeFormInput = RecipeFormInput(
    dishName: string,
    orderType: string,
    description: Nullable<string>,
    sellingPrice: Nullable<string>,
    category: Nullable<string>,
    isActive: Option<bool>)

  /** What the recipe schema produces: `isActive` is always present. */
  datatype RecipeFormValues = RecipeFormValues(
    dishName: string,
    orderType: string,
    description: Nullable<string>,
    sellingPrice: Nullable<string>,
    category: Nullable<string>,
    isActive: bool)

  /** The issues of the two constrained recipe fields, dish name first. */
  function RecipeIssues(input: RecipeFormInput): seq<Issue> {
    (if |input.dishName| < 2 then [Issue("dishName", DishNameMessage)] else [])
    + (if |input.orderType| < 1 then [Issue("orderType", OrderTypeMessage)] else [])
  }

  /** The recipe schema: two minimum lengths, three optional nullable texts, and `isActive` defaulting to true. */
  function ValidateRecipe(input: RecipeFormInput): (r: Validation<RecipeFormValues>)
    ensures r.Rejected? ==> |r.issues| > 0
  {
    var issues := RecipeIssues(input);
    if issues == [] then
      Accepted(RecipeFormValues(input.dishName, input.orderType, input.description,
                                input.sellingPrice, input.category, input.isActive.GetOr(true)))
    else Rejected(issues)
  }

  /** The recipe schema accepts exactly when the dish name has at least 2 characters and the order type at least 1. */
  lemma ValidateRecipeAcceptsIff(input: RecipeFormInput)
    ensures ValidateRecipe(input).Accepted? <==> |input.dishName| >= 2 && |input.orderType| >= 1
  {
  }

  /**
   * A rejection names exactly the failing fields: the dish-name issue is there
   * exactly when the name is too short, the order-type issue exactly when the
   * order type is empty, there is no other issue, and none is repeated.
   */
  lemma RecipeRejectionIssues(input: RecipeFormInput)
    requires ValidateRecipe(input).Rejected?
    ensures var issues := ValidateRecipe(input).issues;
      && (Issue("dishName", DishNameMessage) in issues <==> |input.dishName| < 2)
      && (Issue("orderType", OrderTypeMessage) in issues <==> |input.orderType| < 1)
      && (forall i :: 0 <= i < |issues| ==> issues[i].path in {"dishName", "orderType"})
      && (forall x :: x in issues <==>
            || (x == Issue("dishName", DishNameMessage) && |input.dishName| < 2)
            || (x == Issue("orderType", OrderTypeMessage) && |input.orderType| < 1))
      && |issues| == (if |input.dishName| < 2 then 1 else 0) + (if |input.orderType| < 1 then 1 else 0)
  {
  }

  /**
   * An accepted recipe keeps every field as entered; the optional texts may be
   * missing or null, and a missing `isActive` becomes true.
   */
  lemma RecipeAcceptedValues(input: RecipeFormInput)
    requires ValidateRecipe(input).Accepted?
    ensures var v := ValidateRecipe(input).value;
      && v.dishName == input.dishName && v.orderType == input.orderType
      && v.description == input.description && v.sellingPrice == input.sellingPrice
      && v.category == input.category
      && (input.isActive.None? ==> v.isActive)
      && (input.isActive.Some? ==> v.isActive == input.isActive.value)
  {
  }

  /** The optional fields never decide acceptance: changing them leaves the verdict as it was. */
  lemma RecipeOptionalFieldsIrrelevant(input: RecipeFormInput, description: Nullable<string>,
                                       sellingPrice: Nullable<string>, category: Nullable<string>,
                                       isActive: Option<bool>)
    ensures ValidateRecipe(input).Accepted?
        == ValidateRecipe(input.(description := description, sellingPrice := sellingPrice,
                                 category := category, isActive := isActive)).Accepted?
  {
  }

  /** The form values a parsed record corresponds to. */
  function RecipeInputOf(v: RecipeFormValues): RecipeFormInput {
    RecipeFormInput(v.dishName, v.orderType, v.description, v.sellingPrice, v.category, Some(v.isActive))
  }

  /** Validating what the schema produced yields it again. */
  lemma ValidateRecipeIdempotent(input: RecipeFormInput)
    requires ValidateRecipe(input).Accepted?
    ensures ValidateRecipe(RecipeInputOf(ValidateRecipe(input).value)) == ValidateRecipe(input)
  {
  }

  /** The values the add-recipe form starts from. */
  const AddRecipeDefaults: RecipeFormInput :=
    RecipeFormInput("", DineIn, Present(""), Present(""), Present(""), Some(true))

  /** The add-recipe form as it starts is rejected, and only because of the empty dish name. */
  lemma AddRecipeDefaultsRejected()
    ensures ValidateRecipe(AddRecipeDefaults) == Rejected([Issue("dishName", DishNameMessage)])
  {
  }

  /** One character is too short a dish name; "Ravioli" with the default order type is accepted, active. */
  lemma RecipeExamples()
    ensures ValidateRecipe(AddRecipeDefaults.(dishName := "A")).Rejected?
    ensures ValidateRecipe(AddRecipeDefaults.(dishName := "Ravioli"))
         == Accepted(RecipeFormValues("Ravioli", DineIn, Present(""), Present(""), Present(""), true))
  {
  }

  /**
   * The edit form's values for a recipe: the name, order type and active flag
   * copied, and a null (or empty) description, selling price or category shown
   * as the empty text.
   */
  function SeedEditForm(recipe: Recipe): (input: RecipeFormInput)
    ensures input.dishName == recipe.dishName && input.orderType == recipe.orderType
    ensures input.isActive == Some(recipe.isActive)
    ensures recipe.description.None? ==> input.description == Present("")
    ensures recipe.description.Some? ==> input.description == Present(recipe.description.value)
    ensures recipe.sellingPrice.None? ==> input.sellingPrice == Present("")
    ensures recipe.sellingPrice.Some? ==> input.sellingPrice == Present(recipe.sellingPrice.value)
    ensures recipe.category.None? ==> input.category == Present("")
    ensures recipe.category.Some? ==> input.category == Present(recipe.category.value)
  {
    RecipeFormInput(recipe.dishName, recipe.orderType, Present(recipe.description.GetOr("")),
                    Present(recipe.sellingPrice.GetOr("")), Present(recipe.category.GetOr("")),
                    Some(recipe.isActive))
  }

  /**
   * A recipe seeded into the edit form can be saved unchanged exactly when its
   * own name and order type meet the schema, and saving it keeps its active flag.
   */
  lemma SeededEditFormValidates(recipe: Recipe)
    ensures ValidateRecipe(SeedEditForm(recipe)).Accepted?
        <==> |recipe.dishName| >= 2 && |recipe.orderType| >= 1
    ensures ValidateRecipe(SeedEditForm(recipe)).Accepted? ==>
      ValidateRecipe(SeedEditForm(recipe)).value.isActive == recipe.isActive
  {
  }

  // ---------------------------------------------------------------------
  // The ingredient form

  /**
   * What the add-ingredient form holds. The ingredient is the number the
   * schema coerces the selection to; `None` is a selection that coerces to NaN.
   */
  datatype IngredientFormInput = IngredientFormInput(
    inventoryId: Option<int>,
    quantityRequired: string,
    unit: string)

  /** What the ingredient schema produces. */
  datatype RecipeItemFormValues = RecipeItemFormValues(
    inventoryId: int,
    quantityRequired: string,
    unit: string)

  /** The issue of the ingredient selection, if any: not a number, or below 1. */
  function InventoryIdIssues(inventoryId: Option<int>): seq<Issue> {
    match inventoryId
    case None => [Issue("inventoryId", NotANumberMessage)]
    case Some(id) => if id < 1 then [Issue("inventoryId", IngredientMessage)] else []
  }

  /** The issues of the three ingredient fields, in field order. */
  function IngredientIssues(input: IngredientFormInput): seq<Issue> {
    InventoryIdIssues(input.inventoryId)
    + (if |input.quantityRequired| < 1 then [Issue("quantityRequired", QuantityMessage)] else [])
    + (if |input.unit| < 1 then [Issue("unit", UnitMessage)] else [])
  }

  /** The ingredient schema: a selected ingredient (at least 1), a non-empty quantity and a non-empty unit. */
  function ValidateIngredient(input: IngredientFormInput): (r: Validation<RecipeItemFormValues>)
    ensures r.Rejected? ==> |r.issues| > 0
  {
    var issues := IngredientIssues(input);
    if issues == [] then
      Accepted(RecipeItemFormValues(input.inventoryId.value, input.quantityRequired, input.unit))
    else Rejected(issues)
  }

  /** The ingredient schema accepts exactly when the ingredient is a number of at least 1 and quantity and unit are non-empty. */
  lemma ValidateIngredientAcceptsIff(input: IngredientFormInput)
    ensures ValidateIngredient(input).Accepted?
        <==> && input.inventoryId.Some? && input.inventoryId.value >= 1
             && |input.quantityRequired| >= 1 && |input.unit| >= 1
    ensures ValidateIngredient(input).Accepted? ==>
      ValidateIngredient(input).value
        == RecipeItemFormValues(input.inventoryId.value, input.quantityRequired, input.unit)
  {
  }

  /** A rejection carries exactly one issue for each failing field and none for the others. */
  lemma IngredientRejectionIssues(input: IngredientFormInput)
    requires ValidateIngredient(input).Rejected?
    ensures var issues := ValidateIngredient(input).issues;
      && (Issue("inventoryId", IngredientMessage) in issues
          <==> input.inventoryId.Some? && input.inventoryId.value < 1)
      && (Issue("inventoryId", NotANumberMessage) in issues <==> input.inventoryId.None?)
      && (Issue("quantityRequired", QuantityMessage) in issues <==> |input.quantityRequired| < 1)
      && (Issue("unit", UnitMessage) in issues <==> |input.unit| < 1)
      && (forall x :: x in issues <==>
            || (x == Issue("inventoryId", IngredientMessage)
                && input.inventoryId.Some? && input.inventoryId.value < 1)
            || (x == Issue("inventoryId", NotANumberMessage) && input.inventoryId.None?)
            || (x == Issue("quantityRequired", QuantityMessage) && |input.quantityRequired| < 1)
            || (x == Issue("unit", UnitMessage) && |input.unit| < 1))
      && |issues| == (if input.inventoryId.None? || input.inventoryId.value < 1 then 1 else 0)
                     + (if |input.quantityRequired| < 1 then 1 else 0)
                     + (if |input.unit| < 1 then 1 else 0)
  {
  }

  /** The values the add-ingredient form starts from: no ingredient chosen (0), no quantity, no unit. */
  const AddIngredientDefaults: IngredientFormInput := IngredientFormInput(Some(0), "", "")

  /** The add-ingredient form as it starts fails on all three fields. */
  lemma AddIngredientDefaultsRejected()
    ensures ValidateIngredient(AddIngredientDefaults)
         == Rejected([Issue("inventoryId", IngredientMessage),
                      Issue("quantityRequired", QuantityMessage),
                      Issue("unit", UnitMessage)])
  {
  }

  /** Choosing ingredient 7, quantity "0.5" and unit "kg" is accepted as entered. */
  lemma IngredientExample()
    ensures ValidateIngredient(IngredientFormInput(Some(7), "0.5", "kg"))
         == Accepted(RecipeItemFormValues(7, "0.5", "kg"))
  {
  }
}
