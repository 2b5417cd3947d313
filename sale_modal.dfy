/** The sale dialog: its two form fields, the figures it shows, the guard on
    its Confirm button and the request it submits. A sale is checked against
    one bucket only, the one its unit names. */
module SaleModal {
  import opened Wrappers
  import opened InventoryTypes

  /** The stock of the bucket the sale type names (`maxQuantity`); absent
      when no item is selected. */
  function AvailableQuantity(item: Option<InventoryItem>, t: SaleType): (r: Option<int>)
    ensures r.Some? <==> item.Some?
    ensures item.Some? && t == Pack ==> r.value == item.value.packsInStock
    ensures item.Some? && t == Piece ==> r.value == item.value.piecesInStock
  {
    match item
    case None => None
    case Some(it) => Some(if t == Pack then it.packsInStock else it.piecesInStock)
  }

  /** The unit selling price for the sale type (`price`). */
  function UnitPrice(item: Option<InventoryItem>, t: SaleType): (r: Option<int>)
    ensures r.Some? <==> item.Some?
    ensures item.Some? && t == Pack ==> r.value == item.value.sellingPricePack
    ensures item.Some? && t == Piece ==> r.value == item.value.sellingPricePiece
  {
    match item
    case None => None
    case Some(it) => Some(if t == Pack then it.sellingPricePack else it.sellingPricePiece)
  }

  /** The displayed total (`totalPrice`): a missing price counts as 0. */
  function TotalPrice(item: Option<InventoryItem>, t: SaleType, quantity: int): (r: int)
    ensures item.None? ==> r == 0
    ensures quantity == 0 ==> r == 0
    ensures item.Some? && t == Pack ==> r == item.value.sellingPricePack * quantity
    ensures item.Some? && t == Piece ==> r == item.value.sellingPricePiece * quantity
  {
    UnitPrice(item, t).GetOr(0) * quantity
  }

  /** Confirm is disabled while the request is pending or when the quantity
      is above the chosen bucket, a missing bucket counting as 0. */
  predicate ConfirmDisabled(isLoading: bool, quantity: int, item: Option<InventoryItem>, t: SaleType) {
    isLoading || quantity > AvailableQuantity(item, t).GetOr(0)
  }

  const SaleFailureText: string := "Failed to process sale"

  /** Cancel is disabled while the request is pending. */
  predicate CancelDisabled(isLoading: bool) {
    isLoading
  }

  /** The footer's two buttons together. When nothing is pending Cancel is
      usable and Confirm is usable exactly when the quantity fits the chosen
      bucket; while pending both are disabled. */
  lemma FooterGuards(isLoading: bool, quantity: int, item: Option<InventoryItem>, t: SaleType)
    ensures isLoading ==> CancelDisabled(isLoading) && ConfirmDisabled(isLoading, quantity, item, t)
    ensures !isLoading ==> !CancelDisabled(isLoading)
    ensures !isLoading && item.Some? && t == Pack
        ==> (ConfirmDisabled(isLoading, quantity, item, t) <==> quantity > item.value.packsInStock)
    ensures !isLoading && item.Some? && t == Piece
        ==> (ConfirmDisabled(isLoading, quantity, item, t) <==> quantity > item.value.piecesInStock)
    ensures !isLoading && item.None? ==> (ConfirmDisabled(isLoading, quantity, item, t) <==> quantity > 0)
  {
  }

  /** Bucket isolation: the availability, the price and the guard of a sale
      do not depend on the bucket (and prices) of the other unit. */
  lemma OtherBucketIgnored(a: InventoryItem, b: InventoryItem, t: SaleType, isLoading: bool, quantity: int)
    requires t == Pack ==> a.packsInStock == b.packsInStock && a.sellingPricePack == b.sellingPricePack
    requires t == Piece ==> a.piecesInStock == b.piecesInStock && a.sellingPricePiece == b.sellingPricePiece
    ensures AvailableQuantity(Some(a), t) == AvailableQuantity(Some(b), t)
    ensures TotalPrice(Some(a), t, quantity) == TotalPrice(Some(b), t, quantity)
    ensures ConfirmDisabled(isLoading, quantity, Some(a), t) == ConfirmDisabled(isLoading, quantity, Some(b), t)
  {
  }

  /** A piece sale of an item whose loose-piece bucket is empty cannot be
      confirmed for any positive quantity, however many packs are stocked:
      packs are never broken to serve a piece sale. */
  lemma NoPackBreaking(item: InventoryItem, quantity: int)
    requires item.piecesInStock == 0 && quantity >= 1
    ensures ConfirmDisabled(false, quantity, Some(item), Piece)
  {
  }

  /** The quantity field's `parseInt(value) || 1`: an unparsable entry
      (`None`) or 0 becomes 1, any other integer is kept, negatives included. */
  function QuantityFromEntry(parsed: Option<int>): (r: int)
    ensures r != 0
    ensures parsed.Some? && parsed.value != 0 ==> r == parsed.value
    ensures parsed.None? || parsed.value == 0 ==> r == 1
  {
    match parsed
    case Some(v) => if v != 0 then v else 1
    case None => 1
  }

  /** `handleSubmit`: nothing without an item, otherwise exactly the item's
      id with the form's type and quantity, unclamped. */
  function SubmitPayload(item: Option<InventoryItem>, t: SaleType, quantity: int): (r: Option<SaleInput>)
    ensures r.None? <==> item.None?
    ensures r.Some? ==> r.value.inventoryId == item.value.id && r.value.saleType == t && r.value.quantity == quantity
  {
    match item
    case None => None
    case Some(it) => Some(SaleInput(it.id, t, quantity))
  }

  /** The guard is the only check before submitting: a request that gets past
      an enabled Confirm never asks for more than the chosen bucket holds... */
  lemma EnabledConfirmFitsBucket(quantity: int, item: InventoryItem, t: SaleType)
    requires !ConfirmDisabled(false, quantity, Some(item), t)
    ensures SubmitPayload(Some(item), t, quantity).Some?
    ensures SubmitPayload(Some(item), t, quantity).value.quantity <= AvailableQuantity(Some(item), t).value
  {
  }

  /** ...but it has no lower bound: a typed negative quantity is kept by the
      field, passes the guard and is submitted as it is. */
  lemma NegativeQuantityReachesPayload(item: InventoryItem)
    requires item.piecesInStock >= 0
    ensures QuantityFromEntry(Some(-3)) == -3
    ensures !ConfirmDisabled(false, QuantityFromEntry(Some(-3)), Some(item), Piece)
    ensures SubmitPayload(Some(item), Piece, QuantityFromEntry(Some(-3))) == Some(SaleInput(item.id, Piece, -3))
  {
  }

  /** The dialog's own form state. The quantity is never 0. */
  class SaleForm {
    var saleType: SaleType
    var quantity: int

    ghost predicate Valid()
      reads this
    {
      quantity != 0
    }

    /** The form starts as a one-piece sale. */
    constructor ()
      ensures Valid()
      ensures saleType == Piece && quantity == 1
    {
      saleType := Piece;
      quantity := 1;
    }

    method SelectSaleType(t: SaleType)
      requires Valid()
      modifies this
      ensures Valid()
      ensures saleType == t && quantity == old(quantity)
    {
      saleType := t;
    }

    method EnterQuantity(parsed: Option<int>)
      requires Valid()
      modifies this
      ensures Valid()
      ensures quantity == QuantityFromEntry(parsed) && saleType == old(saleType)
    {
      quantity := QuantityFromEntry(parsed);
    }

    /** Confirm pressed with the given selected item. */
    method Submit(item: Option<InventoryItem>) returns (r: Option<SaleInput>)
      ensures r.None? <==> item.None?
      ensures r.Some? ==> r.value == SaleInput(item.value.id, saleType, quantity)
    {
      r := SubmitPayload(item, saleType, quantity);
    }
  }
}
