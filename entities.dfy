/**
 * The records the recipe screen receives from the data API. The creation and
 * update timestamps and the inventory `lastUpdated` date are carried by the API
 * but never read by the screen, so they are not part of these records.
 */
module Entities {
  import opened Wrappers

  /** A recipe; `None` in an optional field is the API's null. */
  datatype Recipe = Recipe(
    id: int,
    dishName: string,
    orderType: string,
    description: Option<string>,
    sellingPrice: Option<string>,
    category: Option<string>,
    isActive: bool)

  /** An inventory catalog entry; prices are decimals transmitted as text. */
  datatype InventoryItem = InventoryItem(
    id: int,
    itemName: string,
    unitOfMeasurement: string,
    boxOrPackageQty: real,
    unitPrice: string,
    totalPrice: string,
    idealQty: real,
    currentQty: real,
    shelfLifeDays: Option<int>,
    category: Option<string>)

  /** A recipe ingredient joined with the inventory entry it refers to. */
  datatype RecipeItemWithDetails = RecipeItemWithDetails(
    id: int,
    recipeId: int,
    inventoryId: int,
    quantityRequired: string,
    unit: string,
    inventoryItem: InventoryItem)

  /** The order types the screen offers. */
  const DineIn: string := "dine_in"
  const Takeaway: string := "takeaway"
  const Both: string := "both"
}
