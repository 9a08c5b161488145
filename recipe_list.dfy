/**
 * The recipe list: the three tabs over the fetched recipes and the label the
 * table shows for a recipe's order type.
 */
module RecipeList {
  import opened Entities

  /** The recipes whose order type is exactly `orderType`, in their original order. */
  function FilterByOrderType(recipes: seq<Recipe>, orderType: string): (shown: seq<Recipe>)
    ensures |shown| <= |recipes|
    ensures forall r :: r in shown ==> r in recipes && r.orderType == orderType
    ensures forall r :: r in recipes && r.orderType == orderType ==> r in shown
  {
    if recipes == [] then []
    else
      (if recipes[0].orderType == orderType then [recipes[0]] else [])
      + FilterByOrderType(recipes[1..], orderType)
  }

  /** Filtering a concatenation filters each part. */
  lemma {:induction false} FilterAppend(xs: seq<Recipe>, ys: seq<Recipe>, orderType: string)
    ensures FilterByOrderType(xs + ys, orderType)
         == FilterByOrderType(xs, orderType) + FilterByOrderType(ys, orderType)
  {
    if xs == [] {
      assert xs + ys == ys;
    } else {
      assert (xs + ys)[0] == xs[0];
      assert (xs + ys)[1..] == xs[1..] + ys;
      FilterAppend(xs[1..], ys, orderType);
    }
  }

  /** Each recipe is shown as many times as it occurs with that order type, and no other recipe is shown. */
  lemma {:induction false} FilterCounts(recipes: seq<Recipe>, orderType: string, r: Recipe)
    ensures multiset(FilterByOrderType(recipes, orderType))[r]
         == if r.orderType == orderType then multiset(recipes)[r] else 0
  {
    if recipes != [] {
      FilterCounts(recipes[1..], orderType, r);
      assert recipes == [recipes[0]] + recipes[1..];
    }
  }

  /** Filtering what is already filtered changes nothing. */
  lemma {:induction false} FilterIdempotent(recipes: seq<Recipe>, orderType: string)
    ensures FilterByOrderType(FilterByOrderType(recipes, orderType), orderType)
         == FilterByOrderType(recipes, orderType)
  {
    if recipes != [] {
      FilterIdempotent(recipes[1..], orderType);
      var head := if recipes[0].orderType == orderType then [recipes[0]] else [];
      FilterAppend(head, FilterByOrderType(recipes[1..], orderType), orderType);
      if head != [] {
        assert head[1..] == [];
      }
    }
  }

  /** The tabs of the recipe list. */
  datatype Tab = AllRecipes | DineInTab | VersatileTab

  /** The recipes a tab lists: all of them, the dine-in ones, or those offered both ways. */
  function TabRecipes(tab: Tab, recipes: seq<Recipe>): seq<Recipe> {
    match tab
    case AllRecipes => recipes
    case DineInTab => FilterByOrderType(recipes, DineIn)
    case VersatileTab => FilterByOrderType(recipes, Both)
  }

  /**
   * No recipe is listed in both the dine-in and the versatile tab, and a
   * takeaway recipe is listed in neither: it appears only under all recipes.
   */
  lemma TabsDisjoint(recipes: seq<Recipe>, r: Recipe)
    ensures !(r in TabRecipes(DineInTab, recipes) && r in TabRecipes(VersatileTab, recipes))
    ensures r.orderType == Takeaway ==>
      r !in TabRecipes(DineInTab, recipes) && r !in TabRecipes(VersatileTab, recipes)
  {
  }

  /** The badge text for an order type: dine-in, both ("Versatile"), and everything else shown as takeaway. */
  function OrderTypeLabel(orderType: string): (badge: string)
    ensures badge == "Dine In" <==> orderType == DineIn
    ensures badge == "Versatile" <==> orderType == Both
    ensures badge == "Takeaway" <==> orderType != DineIn && orderType != Both
  {
    if orderType == DineIn then "Dine In"
    else if orderType == Both then "Versatile"
    else "Takeaway"
  }

  /** Every recipe a filtered tab lists carries the badge that matches the tab's own title. */
  lemma {:induction false} TabLabelsAgree(recipes: seq<Recipe>, i: nat)
    ensures i < |TabRecipes(DineInTab, recipes)| ==>
      OrderTypeLabel(TabRecipes(DineInTab, recipes)[i].orderType) == "Dine In"
    ensures i < |TabRecipes(VersatileTab, recipes)| ==>
      OrderTypeLabel(TabRecipes(VersatileTab, recipes)[i].orderType) == "Versatile"
  {
    var d := TabRecipes(DineInTab, recipes);
    if i < |d| {
      assert d[i] in d;
    }
    var v := TabRecipes(VersatileTab, recipes);
    if i < |v| {
      assert v[i] in v;
    }
  }
}
