/**
 * The recipe screen's own state and the rules by which its handlers change it:
 * the four state slots (add dialog open, recipe being edited, selected recipe,
 * add-ingredient dialog open), the three forms' current values, and, as ghost
 * logs, the requests sent to the data API and the cache keys invalidated.
 */
module Page {
  import opened Wrappers
  import opened Entities
  import opened Forms
  import opened QueryKeys

  /** A mutation the screen sends to the data API. */
  datatype Request =
    | CreateRecipe(values: RecipeFormValues)
    | UpdateRecipe(id: int, values: RecipeFormValues)
    | AddIngredient(recipeId: int, item: RecipeItemFormValues)
    | RemoveIngredient(recipeId: int, itemId: int)

  /** The edit form before any recipe is loaded into it: nothing entered. */
  const UnseededEditForm: RecipeFormInput := RecipeFormInput("", "", Absent, Absent, Absent, None)

  class RecipesPage {
    var addDialogOpen: bool
    var editRecipe: Option<Recipe>
    var selectedRecipe: Option<Recipe>
    var addIngredientDialogOpen: bool

    var addRecipeForm: RecipeFormInput
    var editRecipeForm: RecipeFormInput
    var addIngredientForm: IngredientFormInput

    /** The mutations sent so far, oldest first. */
    ghost var requests: seq<Request>
    /** The keys passed to cache invalidation so far, oldest first. */
    ghost var invalidated: seq<QueryKey>

    /** The add-ingredient dialog is only ever open while a recipe is selected. */
    ghost predicate Valid()
      reads this
    {
      addIngredientDialogOpen ==> selectedRecipe.Some?
    }

    /** The edit dialog is open exactly while there is a recipe being edited. */
    predicate EditDialogOpen()
      reads this
    {
      editRecipe.Some?
    }

    /** The ingredient query runs only while a recipe is selected. */
    predicate ItemsQueryEnabled()
      reads this
    {
      selectedRecipe.Some?
    }

    /** The key of the ingredient query: the selected recipe's ingredient list, and no recipe's list while the query is off. */
    function ItemsQueryKey(): (key: QueryKey)
      reads this
      ensures ItemsQueryEnabled() ==> key == ItemsKey(selectedRecipe.value.id)
      ensures !ItemsQueryEnabled() ==> forall id :: key != ItemsKey(id)
    {
      SelectedItemsKey(if selectedRecipe.Some? then Some(selectedRecipe.value.id) else None)
    }

    /** The screen as it first renders: no dialog open, nothing selected, forms at their defaults. */
    constructor ()
      ensures Valid()
      ensures !addDialogOpen && editRecipe.None? && selectedRecipe.None? && !addIngredientDialogOpen
      ensures addRecipeForm == AddRecipeDefaults && editRecipeForm == UnseededEditForm
      ensures addIngredientForm == AddIngredientDefaults
      ensures requests == [] && invalidated == []
    {
      addDialogOpen := false;
      editRecipe := None;
      selectedRecipe := None;
      addIngredientDialogOpen := false;
      addRecipeForm := AddRecipeDefaults;
      editRecipeForm := UnseededEditForm;
      addIngredientForm := AddIngredientDefaults;
      requests := [];
      invalidated := [];
    }

    /** Clicking a row of the recipe table selects that recipe. */
    method SelectRecipe(recipe: Recipe)
      requires Valid()
      modifies this`selectedRecipe
      ensures Valid()
      ensures selectedRecipe == Some(recipe)
    {
      selectedRecipe := Some(recipe);
    }

    /** The edit form follows the recipe being edited: loading it copies the recipe's values in. */
    method SyncEditForm()
      modifies this`editRecipeForm
      ensures editRecipe.Some? ==> editRecipeForm == SeedEditForm(editRecipe.value)
      ensures editRecipe.None? ==> editRecipeForm == old(editRecipeForm)
    {
      if editRecipe.Some? {
        editRecipeForm := SeedEditForm(editRecipe.value);
      }
    }

    /** The settings button of a row opens the edit dialog on that recipe, and the form is loaded with it. */
    method StartEdit(recipe: Recipe)
      requires Valid()
      modifies this`editRecipe, this`editRecipeForm
      ensures Valid()
      ensures editRecipe == Some(recipe) && EditDialogOpen()
      ensures editRecipeForm == SeedEditForm(recipe)
    {
      editRecipe := Some(recipe);
      SyncEditForm();
    }

    /** The edit dialog reporting a change of its open state: closing it clears the recipe being edited; opening it changes nothing. */
    method EditDialogOpenChange(open: bool)
      requires Valid()
      modifies this`editRecipe
      ensures Valid()
      ensures editRecipe == if open then old(editRecipe) else None
      ensures !open ==> !EditDialogOpen()
    {
      if !open {
        editRecipe := None;
      }
    }

    /** The add-recipe dialog opened (by its trigger or the empty table's button) or closed. */
    method SetAddDialogOpen(open: bool)
      requires Valid()
      modifies this`addDialogOpen
      ensures Valid()
      ensures addDialogOpen == open
    {
      addDialogOpen := open;
    }

    /** The add-ingredient dialog opened (its buttons exist only while a recipe is selected) or closed. */
    method SetAddIngredientDialogOpen(open: bool)
      requires Valid()
      requires open ==> selectedRecipe.Some?
      modifies this`addIngredientDialogOpen
      ensures Valid()
      ensures addIngredientDialogOpen == open
    {
      addIngredientDialogOpen := open;
    }

    /** The user typing into the add-recipe form. */
    method EnterAddRecipe(input: RecipeFormInput)
      modifies this`addRecipeForm
      ensures addRecipeForm == input
    {
      addRecipeForm := input;
    }

    /** The user typing into the edit-recipe form. */
    method EnterEditRecipe(input: RecipeFormInput)
      modifies this`editRecipeForm
      ensures editRecipeForm == input
    {
      editRecipeForm := input;
    }

    /** The user filling in the add-ingredient form. */
    method EnterIngredient(input: IngredientFormInput)
      modifies this`addIngredientForm
      ensures addIngredientForm == input
    {
      addIngredientForm := input;
    }

    /**
     * Submitting the add-recipe form: a valid form sends a create request with
     * the parsed values; an invalid one sends nothing and yields its issues.
     */
    method SubmitAddRecipe() returns (issues: seq<Issue>)
      modifies this`requests
      ensures issues == [] <==> ValidateRecipe(addRecipeForm).Accepted?
      ensures ValidateRecipe(addRecipeForm).Rejected? ==> issues == ValidateRecipe(addRecipeForm).issues
      ensures requests == old(requests) + match ValidateRecipe(addRecipeForm)
        case Accepted(values) => [CreateRecipe(values)]
        case Rejected(_) => []
    {
      match ValidateRecipe(addRecipeForm)
      case Accepted(values) =>
        requests := requests + [CreateRecipe(values)];
        issues := [];
      case Rejected(found) =>
        issues := found;
    }

    /**
     * Submitting the edit form: a valid form sends an update of the recipe
     * being edited, and nothing when no recipe is being edited.
     */
    method SubmitEditRecipe() returns (issues: seq<Issue>)
      modifies this`requests
      ensures issues == [] <==> ValidateRecipe(editRecipeForm).Accepted?
      ensures ValidateRecipe(editRecipeForm).Rejected? ==> issues == ValidateRecipe(editRecipeForm).issues
      ensures requests == old(requests) + match ValidateRecipe(editRecipeForm)
        case Accepted(values) => if editRecipe.Some? then [UpdateRecipe(editRecipe.value.id, values)] else []
        case Rejected(_) => []
    {
      match ValidateRecipe(editRecipeForm)
      case Accepted(values) =>
        if editRecipe.Some? {
          requests := requests + [UpdateRecipe(editRecipe.value.id, values)];
        }
        issues := [];
      case Rejected(found) =>
        issues := found;
    }

    /**
     * Submitting the add-ingredient form: a valid form sends the ingredient
     * for the selected recipe, and nothing when no recipe is selected; while
     * the dialog is open a recipe is always selected, so a valid form always
     * goes out.
     */
    method SubmitAddIngredient() returns (issues: seq<Issue>)
      requires Valid()
      modifies this`requests
      ensures issues == [] <==> ValidateIngredient(addIngredientForm).Accepted?
      ensures ValidateIngredient(addIngredientForm).Rejected? ==> issues == ValidateIngredient(addIngredientForm).issues
      ensures requests == old(requests) + match ValidateIngredient(addIngredientForm)
        case Accepted(item) => if selectedRecipe.Some? then [AddIngredient(selectedRecipe.value.id, item)] else []
        case Rejected(_) => []
      ensures addIngredientDialogOpen && issues == [] ==> |requests| == |old(requests)| + 1
    {
      match ValidateIngredient(addIngredientForm)
      case Accepted(item) =>
        if selectedRecipe.Some? {
          requests := requests + [AddIngredient(selectedRecipe.value.id, item)];
        }
        issues := [];
      case Rejected(found) =>
        issues := found;
    }

    /**
     * A create request succeeded with the stored recipe: the dialog closes,
     * the recipe list is invalidated and the new recipe becomes the selection.
     */
    method CreateSucceeded(created: Recipe)
      requires Valid()
      modifies this`addDialogOpen, this`selectedRecipe, this`invalidated
      ensures Valid()
      ensures !addDialogOpen
      ensures selectedRecipe == Some(created)
      ensures invalidated == old(invalidated) + [RecipesKey]
    {
      addDialogOpen := false;
      invalidated := invalidated + [RecipesKey];
      selectedRecipe := Some(created);
    }

    /**
     * An update request succeeded with the stored recipe: the edit dialog
     * closes, the recipe list is invalidated, and the selection is replaced by
     * the stored recipe only when it has the same id.
     */
    method UpdateSucceeded(updated: Recipe)
      requires Valid()
      modifies this`editRecipe, this`selectedRecipe, this`invalidated
      ensures Valid()
      ensures editRecipe.None? && !EditDialogOpen()
      ensures invalidated == old(invalidated) + [RecipesKey]
      ensures old(selectedRecipe).Some? && old(selectedRecipe).value.id == updated.id ==> selectedRecipe == Some(updated)
      ensures !(old(selectedRecipe).Some? && old(selectedRecipe).value.id == updated.id) ==> selectedRecipe == old(selectedRecipe)
    {
      editRecipe := None;
      invalidated := invalidated + [RecipesKey];
      if selectedRecipe.Some? && selectedRecipe.value.id == updated.id {
        selectedRecipe := Some(updated);
      }
    }

    /**
     * An add-ingredient request succeeded: the dialog closes, the selection
     * stays, and only the selected recipe's ingredient list is invalidated.
     */
    method AddIngredientSucceeded()
      requires Valid()
      modifies this`addIngredientDialogOpen, this`invalidated
      ensures Valid()
      ensures !addIngredientDialogOpen
      ensures invalidated == old(invalidated)
        + if selectedRecipe.Some? then [ItemsKey(selectedRecipe.value.id)] else []
      ensures invalidated == old(invalidated) + if ItemsQueryEnabled() then [ItemsQueryKey()] else []
    {
      addIngredientDialogOpen := false;
      if selectedRecipe.Some? {
        invalidated := invalidated + [ItemsKey(selectedRecipe.value.id)];
      }
    }

    /** A create, update or add-ingredient request failed: only a notice is shown, no state changes. */
    method MutationFailed()
      ensures unchanged(this)
    {
    }

    /**
     * Removing an ingredient of the selected recipe (its button exists only
     * while one is selected): the removal is sent, and when it succeeds only
     * that recipe's ingredient list is invalidated; a failure changes nothing
     * else.
     */
    method RemoveIngredientOf(itemId: int, succeeded: bool)
      requires Valid()
      requires selectedRecipe.Some?
      modifies this`requests, this`invalidated
      ensures Valid()
      ensures requests == old(requests) + [RemoveIngredient(selectedRecipe.value.id, itemId)]
      ensures invalidated == old(invalidated) + if succeeded then [ItemsKey(selectedRecipe.value.id)] else []
      ensures ItemsQueryEnabled() && (succeeded ==> invalidated == old(invalidated) + [ItemsQueryKey()])
    {
      requests := requests + [RemoveIngredient(selectedRecipe.value.id, itemId)];
      if succeeded {
        invalidated := invalidated + [ItemsKey(selectedRecipe.value.id)];
      }
    }

    /** The retry button of the loading-error view invalidates the recipe list. */
    method RetryRecipes()
      modifies this`invalidated
      ensures invalidated == old(invalidated) + [RecipesKey]
    {
      invalidated := invalidated + [RecipesKey];
    }
  }
}
