/** The restock dialog: four form fields and the request built from them.
    Zero counts and empty price fields are left out of the request. Turning a
    price string into money is the browser's `parseFloat`; it is a parameter. */
module RestockModal {
  import opened Wrappers
  import opened InventoryTypes

  /** A count field's `parseInt(value) || 0`: an unparsable entry becomes 0. */
  function CountFromEntry(parsed: Option<int>): (r: int)
    ensures parsed.None? ==> r == 0
    ensures parsed.Some? ==> r == parsed.value
  {
    parsed.GetOr(0)
  }

  /** `count || undefined`: a zero count is omitted, any other is sent. */
  function OmitZero(count: int): (r: Option<int>)
    ensures r.None? <==> count == 0
    ensures r.Some? ==> r.value == count
  {
    if count == 0 then None else Some(count)
  }

  /** `text ? parseFloat(text) : undefined`: an empty field is omitted, any
      other is sent as parsed. */
  function PriceOverride(text: string, parse: string -> int): (r: Option<int>)
    ensures r.None? <==> text == ""
    ensures r.Some? ==> r.value == parse(text)
  {
    if text == "" then None else Some(parse(text))
  }

  /** `handleSubmit`'s payload. No count has to be non-zero: an all-zero,
      price-less form still sends a request carrying only the id. */
  function RestockPayload(item: Option<InventoryItem>, packs: int, pieces: int,
                          purchasePrice: string, sellingPrice: string,
                          parse: string -> int): (r: Option<RestockInput>)
    ensures r.None? <==> item.None?
    ensures r.Some? ==> r.value.inventoryId == item.value.id
    ensures r.Some? ==> (r.value.packsAdded.None? <==> packs == 0)
    ensures r.Some? ==> (r.value.piecesAdded.None? <==> pieces == 0)
    ensures r.Some? && r.value.packsAdded.Some? ==> r.value.packsAdded.value == packs
    ensures r.Some? && r.value.piecesAdded.Some? ==> r.value.piecesAdded.value == pieces
    ensures r.Some? ==> r.value.purchasePricePack == PriceOverride(purchasePrice, parse)
    ensures r.Some? ==> r.value.sellingPricePack == PriceOverride(sellingPrice, parse)
  {
    match item
    case None => None
    case Some(it) =>
      Some(RestockInput(it.id, OmitZero(packs), OmitZero(pieces),
                        PriceOverride(purchasePrice, parse), PriceOverride(sellingPrice, parse)))
  }

  lemma AllZeroFormSendsOnlyId(item: InventoryItem, parse: string -> int)
    ensures RestockPayload(Some(item), 0, 0, "", "", parse) == Some(RestockInput(item.id, None, None, None, None))
  {
  }

  const RestockFailureText: string := "Failed to restock"

  /** Both footer buttons are disabled exactly while the request is pending. */
  predicate FooterDisabled(isLoading: bool) {
    isLoading
  }

  /** The dialog's own form state. */
  class RestockForm {
    var packsAdded: int
    var piecesAdded: int
    var purchasePrice: string
    var sellingPrice: string

    /** The form starts with no packs, no pieces and empty price fields. */
    constructor ()
      ensures packsAdded == 0 && piecesAdded == 0 && purchasePrice == "" && sellingPrice == ""
    {
      packsAdded, piecesAdded := 0, 0;
      purchasePrice, sellingPrice := "", "";
    }

    method EnterPacks(parsed: Option<int>)
      modifies this
      ensures packsAdded == CountFromEntry(parsed)
      ensures piecesAdded == old(piecesAdded) && purchasePrice == old(purchasePrice) && sellingPrice == old(sellingPrice)
    {
      packsAdded := CountFromEntry(parsed);
    }

    method EnterPieces(parsed: Option<int>)
      modifies this
      ensures piecesAdded == CountFromEntry(parsed)
      ensures packsAdded == old(packsAdded) && purchasePrice == old(purchasePrice) && sellingPrice == old(sellingPrice)
    {
      piecesAdded := CountFromEntry(parsed);
    }

    method EnterPurchasePrice(text: string)
      modifies this
      ensures purchasePrice == text
      ensures packsAdded == old(packsAdded) && piecesAdded == old(piecesAdded) && sellingPrice == old(sellingPrice)
    {
      purchasePrice := text;
    }

    method EnterSellingPrice(text: string)
      modifies this
      ensures sellingPrice == text
      ensures packsAdded == old(packsAdded) && piecesAdded == old(piecesAdded) && purchasePrice == old(purchasePrice)
    {
      sellingPrice := text;
    }

    /** Confirm pressed with the given selected item. */
    method Submit(item: Option<InventoryItem>, parse: string -> int) returns (r: Option<RestockInput>)
      ensures r.None? <==> item.None?
      ensures r.Some? ==> r.value.inventoryId == item.value.id
      ensures r.Some? ==> r.value.packsAdded == OmitZero(packsAdded) && r.value.piecesAdded == OmitZero(piecesAdded)
      ensures r.Some? ==> r.value.purchasePricePack == PriceOverride(purchasePrice, parse)
      ensures r.Some? ==> r.value.sellingPricePack == PriceOverride(sellingPrice, parse)
    {
      r := RestockPayload(item, packsAdded, piecesAdded, purchasePrice, sellingPrice, parse);
    }
  }
}
