/** The older, single-file inventory page. It keeps the sale and restock
    forms in its own state, resets them after a success or a cancel, puts no
    stock guard on its Confirm button, and sends zero restock counts as 0. */
module LegacyInventory {
  import opened Wrappers
  import opened InventoryTypes
  import opened QueryClient
  import InventoryHooks
  import SaleModal
  import RestockModal
  import InventoryManagement

  type ModalState = InventoryManagement.ModalState

  datatype SaleFormState = SaleFormState(saleType: SaleType, quantity: int)

  datatype RestockFormState = RestockFormState(
    packsAdded: int, piecesAdded: int, purchasePricePack: string, sellingPricePack: string)

  const InitialSaleForm: SaleFormState := SaleFormState(Piece, 1)
  const InitialRestockForm: RestockFormState := RestockFormState(0, 0, "", "")

  /** `handleRestock`'s payload: counts are always sent, 0 included; empty
      price fields are left out. */
  function LegacyRestockPayload(item: InventoryItem, form: RestockFormState, parse: string -> int): (r: RestockInput)
    ensures r.inventoryId == item.id
    ensures r.packsAdded == Some(form.packsAdded) && r.piecesAdded == Some(form.piecesAdded)
    ensures r.purchasePricePack.None? <==> form.purchasePricePack == ""
    ensures r.sellingPricePack.None? <==> form.sellingPricePack == ""
  {
    RestockInput(item.id, Some(form.packsAdded), Some(form.piecesAdded),
                 RestockModal.PriceOverride(form.purchasePricePack, parse),
                 RestockModal.PriceOverride(form.sellingPricePack, parse))
  }

  /** Drops counts of 0 from a payload. */
  function DropZeroCounts(r: RestockInput): RestockInput {
    r.(packsAdded := if r.packsAdded == Some(0) then None else r.packsAdded,
       piecesAdded := if r.piecesAdded == Some(0) then None else r.piecesAdded)
  }

  /** The two pages send the same restock for the same form, except that the
      newer dialog omits the zero counts the older page sends as 0. */
  lemma RestockVariantsAgree(item: InventoryItem, form: RestockFormState, parse: string -> int)
    ensures RestockModal.RestockPayload(Some(item), form.packsAdded, form.piecesAdded,
                                         form.purchasePricePack, form.sellingPricePack, parse)
         == Some(DropZeroCounts(LegacyRestockPayload(item, form, parse)))
  {
  }

  /** The "Available Stock" hint: the bucket of the chosen unit, with that
      unit's plural name. */
  function AvailableHint(item: Option<InventoryItem>, t: SaleType): (r: (Option<int>, string))
    ensures r.0 == SaleModal.AvailableQuantity(item, t)
    ensures r.1 == if t == Pack then "packs" else "pieces"
  {
    match item
    case None => (None, if t == Pack then "packs" else "pieces")
    case Some(it) =>
      if t == Pack then (Some(it.packsInStock), "packs") else (Some(it.piecesInStock), "pieces")
  }

  /** The "Total Stock Value" card: the same fold as the newer dashboard. */
  function TotalStockValue(items: seq<InventoryItem>): (r: int)
    ensures r == InventoryManagement.Total(items, InventoryManagement.StockValue)
    decreases |items|
  {
    if items == [] then 0 else TotalStockValue(items[..|items| - 1]) + items[|items| - 1].stockValue
  }

  class LegacyInventoryPage {
    var saleModal: ModalState
    var restockModal: ModalState
    var saleForm: SaleFormState
    var restockForm: RestockFormState
    var saleMutation: MutationState
    var restockMutation: MutationState
    var saleRequests: seq<SaleInput>
    var restockRequests: seq<RestockInput>

    /** The sale form's quantity is never 0. */
    ghost predicate Valid()
      reads this
    {
      saleForm.quantity != 0
    }

    constructor ()
      ensures Valid()
      ensures saleModal == InventoryManagement.Closed && restockModal == InventoryManagement.Closed
      ensures saleForm == InitialSaleForm && restockForm == InitialRestockForm
      ensures saleMutation == Idle && restockMutation == Idle
      ensures saleRequests == [] && restockRequests == []
    {
      saleModal, restockModal := InventoryManagement.Closed, InventoryManagement.Closed;
      saleForm, restockForm := InitialSaleForm, InitialRestockForm;
      saleMutation, restockMutation := Idle, Idle;
      saleRequests, restockRequests := [], [];
    }

    /** A row's Sell button; this page never disables it. */
    method OpenSale(item: InventoryItem)
      requires Valid()
      modifies this
      ensures Valid()
      ensures saleModal == InventoryManagement.ModalState(true, Some(item))
      ensures restockModal == old(restockModal) && saleForm == old(saleForm) && restockForm == old(restockForm)
      ensures saleMutation == old(saleMutation) && restockMutation == old(restockMutation)
      ensures saleRequests == old(saleRequests) && restockRequests == old(restockRequests)
    {
      saleModal := InventoryManagement.ModalState(true, Some(item));
    }

    method OpenRestock(item: InventoryItem)
      requires Valid()
      modifies this
      ensures Valid()
      ensures restockModal == InventoryManagement.ModalState(true, Some(item))
      ensures saleModal == old(saleModal) && saleForm == old(saleForm) && restockForm == old(restockForm)
      ensures saleMutation == old(saleMutation) && restockMutation == old(restockMutation)
      ensures saleRequests == old(saleRequests) && restockRequests == old(restockRequests)
    {
      restockModal := InventoryManagement.ModalState(true, Some(item));
    }

    method EditSaleType(t: SaleType)
      requires Valid()
      modifies this`saleForm
      ensures Valid()
      ensures saleForm == old(saleForm).(saleType := t)
    {
      saleForm := saleForm.(saleType := t);
    }

    /** The quantity field, with the same `|| 1` fallback as the dialog. */
    method EditQuantity(parsed: Option<int>)
      requires Valid()
      modifies this`saleForm
      ensures Valid()
      ensures saleForm == old(saleForm).(quantity := SaleModal.QuantityFromEntry(parsed))
    {
      saleForm := saleForm.(quantity := SaleModal.QuantityFromEntry(parsed));
    }

    method EditPacks(parsed: Option<int>)
      requires Valid()
      modifies this`restockForm
      ensures Valid()
      ensures restockForm == old(restockForm).(packsAdded := RestockModal.CountFromEntry(parsed))
    {
      restockForm := restockForm.(packsAdded := RestockModal.CountFromEntry(parsed));
    }

    method EditPieces(parsed: Option<int>)
      requires Valid()
      modifies this`restockForm
      ensures Valid()
      ensures restockForm == old(restockForm).(piecesAdded := RestockModal.CountFromEntry(parsed))
    {
      restockForm := restockForm.(piecesAdded := RestockModal.CountFromEntry(parsed));
    }

    method EditPurchasePrice(text: string)
      requires Valid()
      modifies this`restockForm
      ensures Valid()
      ensures restockForm == old(restockForm).(purchasePricePack := text)
    {
      restockForm := restockForm.(purchasePricePack := text);
    }

    method EditSellingPrice(text: string)
      requires Valid()
      modifies this`restockForm
      ensures Valid()
      ensures restockForm == old(restockForm).(sellingPricePack := text)
    {
      restockForm := restockForm.(sellingPricePack := text);
    }

    /** `handleSale`: nothing without a selected item; otherwise the form is
      sent as it stands, with no check against the stock. */
    method HandleSale()
      requires Valid()
      modifies this`saleRequests, this`saleMutation
      ensures Valid()
      ensures saleModal.item.None? ==> saleRequests == old(saleRequests) && saleMutation == old(saleMutation)
      ensures saleModal.item.Some? ==>
        saleRequests == old(saleRequests) + [SaleInput(saleModal.item.value.id, saleForm.saleType, saleForm.quantity)]
        && saleMutation == Pending
    {
      if saleModal.item.Some? {
        saleRequests := saleRequests + [SaleInput(saleModal.item.value.id, saleForm.saleType, saleForm.quantity)];
        saleMutation := Pending;
      }
    }

    /** `handleRestock`: nothing without a selected item. */
    method HandleRestock(parse: string -> int)
      modifies this`restockRequests, this`restockMutation
      ensures restockModal.item.None? ==> restockRequests == old(restockRequests) && restockMutation == old(restockMutation)
      ensures restockModal.item.Some? ==>
        restockRequests == old(restockRequests) + [LegacyRestockPayload(restockModal.item.value, restockForm, parse)]
        && restockMutation == Pending
    {
      if restockModal.item.Some? {
        restockRequests := restockRequests + [LegacyRestockPayload(restockModal.item.value, restockForm, parse)];
        restockMutation := Pending;
      }
    }

    /** The sale mutation settles. On success the three inventory entries
      are invalidated, the dialog closes and the form goes back to one piece;
      on failure only the error is recorded. */
    method SaleSettled(s: Settlement, cache: QueryCache)
      requires Valid()
      modifies this, cache
      ensures Valid()
      ensures cache.entries == if s.Ok? then InvalidateAll(old(cache.entries), InventoryHooks.SaleInvalidations) else old(cache.entries)
      ensures saleMutation == Settle(s)
      ensures s.Ok? ==> saleModal == InventoryManagement.Closed && saleForm == InitialSaleForm
      ensures s.Rejected? ==> saleModal == old(saleModal) && saleForm == old(saleForm)
      ensures restockModal == old(restockModal) && restockForm == old(restockForm) && restockMutation == old(restockMutation)
      ensures saleRequests == old(saleRequests) && restockRequests == old(restockRequests)
    {
      InventoryHooks.SaleSettled(cache, s);
      saleMutation := Settle(s);
      if s.Ok? {
        saleModal := InventoryManagement.Closed;
        saleForm := InitialSaleForm;
      }
    }

    /** The restock mutation settles. Only the inventory entry is
      invalidated; the dialog closes and the form is emptied. */
    method RestockSettled(s: Settlement, cache: QueryCache)
      requires Valid()
      modifies this, cache
      ensures Valid()
      ensures cache.entries == if s.Ok? then InvalidateAll(old(cache.entries), InventoryHooks.RestockInvalidations) else old(cache.entries)
      ensures restockMutation == Settle(s)
      ensures s.Ok? ==> restockModal == InventoryManagement.Closed && restockForm == InitialRestockForm
      ensures s.Rejected? ==> restockModal == old(restockModal) && restockForm == old(restockForm)
      ensures saleModal == old(saleModal) && saleForm == old(saleForm) && saleMutation == old(saleMutation)
      ensures saleRequests == old(saleRequests) && restockRequests == old(restockRequests)
    {
      InventoryHooks.RestockSettled(cache, s);
      restockMutation := Settle(s);
      if s.Ok? {
        restockModal := InventoryManagement.Closed;
        restockForm := InitialRestockForm;
      }
    }

    /** Cancel on the sale dialog: closed, form reset, mutation reset. */
    method CancelSale()
      requires Valid()
      modifies this
      ensures Valid()
      ensures saleModal == InventoryManagement.Closed && saleForm == InitialSaleForm && saleMutation == Idle
      ensures restockModal == old(restockModal) && restockForm == old(restockForm) && restockMutation == old(restockMutation)
      ensures saleRequests == old(saleRequests) && restockRequests == old(restockRequests)
    {
      saleModal := InventoryManagement.Closed;
      saleForm := InitialSaleForm;
      saleMutation := Idle;
    }

    /** Cancel on the restock dialog. */
    method CancelRestock()
      requires Valid()
      modifies this
      ensures Valid()
      ensures restockModal == InventoryManagement.Closed && restockForm == InitialRestockForm && restockMutation == Idle
      ensures saleModal == old(saleModal) && saleForm == old(saleForm) && saleMutation == old(saleMutation)
      ensures saleRequests == old(saleRequests) && restockRequests == old(restockRequests)
    {
      restockModal := InventoryManagement.Closed;
      restockForm := InitialRestockForm;
      restockMutation := Idle;
    }
  }

  /** Unlike the newer dialog, this page lets a sale larger than the chosen
      bucket through: whatever the item, the unit and the quantity typed
      beyond that bucket, Confirm sends it, while the newer dialog's guard
      keeps its own Confirm disabled for the same figures. */
  method OverStockSaleIsSent(item: InventoryItem, t: SaleType, q: int) returns (sent: seq<SaleInput>)
    requires q != 0 && q > SaleModal.AvailableQuantity(Some(item), t).value
    ensures sent == [SaleInput(item.id, t, q)]
    ensures SaleModal.ConfirmDisabled(false, q, Some(item), t)
  {
    var page := new LegacyInventoryPage();
    page.OpenSale(item);
    page.EditSaleType(t);
    page.EditQuantity(Some(q));
    page.HandleSale();
    sent := page.saleRequests;
  }
}
