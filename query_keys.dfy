/**
 * The cache keys the recipe screen reads through and invalidates. A key is a
 * list of parts; invalidating with a key marks stale every cached key that
 * starts with it, so invalidating the recipe list also marks every recipe's
 * ingredient list stale.
 */
module QueryKeys {
  import opened Wrappers

  /** One part of a key: a path, a recipe id, or `undefined` (no recipe selected). */
  datatype KeyPart = Text(text: string) | Id(id: int) | Undefined

  type QueryKey = seq<KeyPart>

  const RecipesPath: string := "/api/recipes"
  const InventoryPath: string := "/api/inventory"

  /** The key of the recipe list. */
  const RecipesKey: QueryKey := [Text(RecipesPath)]

  /** The key of the inventory catalog. */
  const InventoryKey: QueryKey := [Text(InventoryPath)]

  /** The key of one recipe's ingredient list. */
  function ItemsKey(recipeId: int): QueryKey {
    [Text(RecipesPath), Id(recipeId), Text("items")]
  }

  /** Whether invalidating with `filter` reaches the cached key `key`: the filter is a prefix of the key. */
  predicate Matches(filter: QueryKey, key: QueryKey) {
    |filter| <= |key| && key[..|filter|] == filter
  }

  /** Whether a key is stale after the given invalidations. */
  predicate Stale(invalidated: seq<QueryKey>, key: QueryKey) {
    exists i :: 0 <= i < |invalidated| && Matches(invalidated[i], key)
  }

  /** Invalidating one recipe's ingredients reaches exactly that recipe's ingredient list. */
  lemma ItemsKeyMatchesIff(a: int, b: int)
    ensures Matches(ItemsKey(a), ItemsKey(b)) <==> a == b
  {
    if Matches(ItemsKey(a), ItemsKey(b)) {
      assert ItemsKey(b)[..3][1] == Id(a);
    }
  }

  /** Invalidating one recipe's ingredients leaves the recipe list and the inventory as they were. */
  lemma ItemsKeyMissesLists(a: int)
    ensures !Matches(ItemsKey(a), RecipesKey)
    ensures !Matches(ItemsKey(a), InventoryKey)
  {
  }

  /** Invalidating the recipe list reaches every recipe's ingredient list but not the inventory. */
  lemma RecipesKeyCoversItems(id: int)
    ensures Matches(RecipesKey, ItemsKey(id))
    ensures !Matches(RecipesKey, InventoryKey)
  {
    assert ItemsKey(id)[..1] == RecipesKey;
    assert RecipesPath[5] != InventoryPath[5];
    assert InventoryKey[..1] == InventoryKey && InventoryKey[0] != RecipesKey[0];
  }

  /** A key that was stale stays stale when more keys are invalidated. */
  lemma {:induction false} StaleGrows(invalidated: seq<QueryKey>, more: seq<QueryKey>, key: QueryKey)
    requires Stale(invalidated, key)
    ensures Stale(invalidated + more, key)
  {
    var i :| 0 <= i < |invalidated| && Matches(invalidated[i], key);
    assert (invalidated + more)[i] == invalidated[i];
  }

  /**
   * Adding one recipe's ingredient-list key makes stale that list and nothing
   * else that was fresh: another recipe's list, the recipe list and the
   * inventory stay as they were.
   */
  lemma {:induction false} InvalidateItemsOnly(invalidated: seq<QueryKey>, a: int, key: QueryKey)
    requires key == RecipesKey || key == InventoryKey || exists b :: b != a && key == ItemsKey(b)
    ensures Stale(invalidated + [ItemsKey(a)], key) <==> Stale(invalidated, key)
  {
    var after := invalidated + [ItemsKey(a)];
    if key == RecipesKey || key == InventoryKey {
      ItemsKeyMissesLists(a);
    } else {
      var b :| b != a && key == ItemsKey(b);
      ItemsKeyMatchesIff(a, b);
    }
    assert !Matches(ItemsKey(a), key);
    if Stale(after, key) {
      var i :| 0 <= i < |after| && Matches(after[i], key);
      assert i < |invalidated|;
      assert after[i] == invalidated[i];
    }
    if Stale(invalidated, key) {
      StaleGrows(invalidated, [ItemsKey(a)], key);
    }
  }

  /** The key the ingredient query reads: the selected recipe's id, or `undefined` when none is selected. */
  function SelectedItemsKey(selectedId: Option<int>): (key: QueryKey)
    ensures selectedId.Some? ==> key == ItemsKey(selectedId.value)
    ensures selectedId.None? ==> forall id :: key != ItemsKey(id)
  {
    [Text(RecipesPath), if selectedId.Some? then Id(selectedId.value) else Undefined, Text("items")]
  }
}
