/**
 * The purchase records that the `get_purchase_history` tool of every
 * variant returns. Prices and totals are floats in the source; no
 * arithmetic is done on them there, and they are kept here as integer cents.
 */
module Purchases {

  datatype Item = Item(productName: string, quantity: nat, priceCents: nat)

  datatype Purchase = Purchase(
    purchaseId: string,
    purchasedDate: string,
    items: seq<Item>,
    shippingMethod: string,
    totalCents: nat)

  /** Alexis's only order (every variant). */
  const AlexisJD001 := Purchase(
    "JD001-20250415", "2025-04-15",
    [Item("Assorted Taffy 1lb Box", 1, 1500), Item("Watermelon Taffy 0.5lb Bag", 1, 800)],
    "STANDARD", 2300)

  /** David's insured order (every variant). */
  const DavidSG001 := Purchase(
    "SG001-20250501", "2025-05-01",
    [Item("Assorted Taffy 1lb Box", 2, 1500)],
    "INSURED", 3000)

  /** David's second order (only the single-agent and multi-agent variants). */
  const DavidSG002 := Purchase(
    "SG002-20250610", "2025-06-03",
    [Item("Peanut Butter Taffy 0.5lb Bag", 1, 800), Item("Sour Apple Taffy 0.5lb Bag", 1, 800)],
    "STANDARD", 1600)
}
