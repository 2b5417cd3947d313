/** The inventory page: the dashboard figures folded over the item list, and
    the open/close state of the sale and restock dialogs as the two mutations
    start and settle. */
module InventoryManagement {
  import opened Wrappers
  import opened InventoryTypes
  import opened QueryClient
  import InventoryHooks
  import SaleModal
  import RestockModal

  /** The three per-item figures the page adds up. */
  datatype Figure = StockValue | StockCost | PotentialProfit

  function FigureOf(item: InventoryItem, f: Figure): int {
    match f
    case StockValue => item.stockValue
    case StockCost => item.stockCost
    case PotentialProfit => item.potentialProfit
  }

  /** `items.reduce((sum, item) => sum + item.<figure>, 0)`. */
  function Total(items: seq<InventoryItem>, f: Figure): int
    decreases |items|
  {
    if items == [] then 0 else Total(items[..|items| - 1], f) + FigureOf(items[|items| - 1], f)
  }

  /** The fold adds up over a split list; in particular a list of one item
      totals to that item's figure, and the empty list to 0. */
  lemma {:induction false} TotalAppend(a: seq<InventoryItem>, b: seq<InventoryItem>, f: Figure)
    ensures Total(a + b, f) == Total(a, f) + Total(b, f)
    decreases |b|
  {
    if b != [] {
      assert (a + b)[..|a + b| - 1] == a + b[..|b| - 1];
      TotalAppend(a, b[..|b| - 1], f);
    } else {
      assert a + b == a;
    }
  }

  /** Every item contributes: the total is the sum of the item figures
      counted from the front, in the order a reader adds them up. */
  lemma {:induction false} TotalFromFront(items: seq<InventoryItem>, f: Figure)
    requires items != []
    ensures Total(items, f) == FigureOf(items[0], f) + Total(items[1..], f)
  {
    assert items == [items[0]] + items[1..];
    TotalAppend([items[0]], items[1..], f);
    assert [items[0]][..0] == [];
  }

  /** When the server keeps every item consistent, the potential-profit card
      equals the stock-value card minus the stock-cost card. */
  lemma {:induction false} ProfitCardIsValueMinusCost(items: seq<InventoryItem>)
    requires forall i :: 0 <= i < |items| ==> ServerConsistent(items[i])
    ensures Total(items, PotentialProfit) == Total(items, StockValue) - Total(items, StockCost)
    decreases |items|
  {
    if items != [] {
      ProfitCardIsValueMinusCost(items[..|items| - 1]);
      assert ServerConsistent(items[|items| - 1]);
    }
  }

  /** The four dashboard cards. */
  datatype Cards = Cards(stockCost: int, todayProfit: int, stockValue: int, potentialProfit: int)

  /** The cards computed from the two queries' data: before the inventory
      loads the list is empty and every stock card shows 0; before today's
      profit loads it shows 0. */
  function DashboardCards(inventory: Option<seq<InventoryItem>>, today: Option<TodayProfit>): (c: Cards)
    ensures inventory.None? ==> c.stockCost == 0 && c.stockValue == 0 && c.potentialProfit == 0
    ensures today.None? ==> c.todayProfit == 0
    ensures today.Some? ==> c.todayProfit == today.value.totalProfit
    ensures inventory.Some? ==> c.stockCost == Total(inventory.value, StockCost)
                                && c.stockValue == Total(inventory.value, StockValue)
                                && c.potentialProfit == Total(inventory.value, PotentialProfit)
  {
    var items := if inventory.Some? then inventory.value else [];
    Cards(Total(items, StockCost), if today.Some? then today.value.totalProfit else 0,
          Total(items, StockValue), Total(items, PotentialProfit))
  }

  /** Whether a dialog is shown and for which item. */
  datatype ModalState = ModalState(open: bool, item: Option<InventoryItem>)

  const Closed: ModalState := ModalState(false, None)

  /** Each dialog's footer is driven by its mutation's pending flag. While
      a request runs, Cancel, Confirm and both restock buttons are disabled;
      once it settles, whatever the outcome, Cancel and the restock buttons
      are usable again and Confirm is held back only by the stock guard. */
  lemma FooterUnlockedOnceSettled(s: Settlement, quantity: int, item: Option<InventoryItem>, t: SaleType)
    ensures SaleModal.CancelDisabled(Pending.IsPending())
    ensures SaleModal.ConfirmDisabled(Pending.IsPending(), quantity, item, t)
    ensures RestockModal.FooterDisabled(Pending.IsPending())
    ensures !SaleModal.CancelDisabled(Settle(s).IsPending())
    ensures SaleModal.ConfirmDisabled(Settle(s).IsPending(), quantity, item, t)
            <==> quantity > SaleModal.AvailableQuantity(item, t).GetOr(0)
    ensures !RestockModal.FooterDisabled(Settle(s).IsPending())
  {
  }

  /** A settled request shows an error line in its dialog exactly when it
      failed, the dialog's fallback standing in for an empty message. */
  lemma SettledErrorLine(s: Settlement)
    ensures ErrorLine(Settle(s), SaleModal.SaleFailureText).Some? <==> s.Rejected?
    ensures s == Rejected("") ==> ErrorLine(Settle(s), SaleModal.SaleFailureText) == Some("Failed to process sale")
    ensures s == Rejected("") ==> ErrorLine(Settle(s), RestockModal.RestockFailureText) == Some("Failed to restock")
    ensures ErrorLine(Idle, SaleModal.SaleFailureText).None?
  {
  }

  class InventoryPage {
    var saleModal: ModalState
    var restockModal: ModalState
    var saleMutation: MutationState
    var restockMutation: MutationState
    /** The requests handed to each mutation, oldest first. */
    var saleRequests: seq<SaleInput>
    var restockRequests: seq<RestockInput>

    /** A dialog that is open shows an item. */
    ghost predicate Valid()
      reads this
    {
      && (saleModal.open ==> saleModal.item.Some?)
      && (restockModal.open ==> restockModal.item.Some?)
      && (!saleModal.open ==> saleModal.item.None?)
      && (!restockModal.open ==> restockModal.item.None?)
    }

    /** Both dialogs start closed with no item; nothing has been sent. */
    constructor ()
      ensures Valid()
      ensures saleModal == Closed && restockModal == Closed
      ensures saleMutation == Idle && restockMutation == Idle
      ensures saleRequests == [] && restockRequests == []
    {
      saleModal, restockModal := Closed, Closed;
      saleMutation, restockMutation := Idle, Idle;
      saleRequests, restockRequests := [], [];
    }

    /** A row's Sell action. */
    method OpenSale(item: InventoryItem)
      requires Valid()
      modifies this
      ensures Valid()
      ensures saleModal == ModalState(true, Some(item))
      ensures restockModal == old(restockModal) && saleMutation == old(saleMutation) && restockMutation == old(restockMutation)
      ensures saleRequests == old(saleRequests) && restockRequests == old(restockRequests)
    {
      saleModal := ModalState(true, Some(item));
    }

    /** A row's Restock action. */
    method OpenRestock(item: InventoryItem)
      requires Valid()
      modifies this
      ensures Valid()
      ensures restockModal == ModalState(true, Some(item))
      ensures saleModal == old(saleModal) && saleMutation == old(saleMutation) && restockMutation == old(restockMutation)
      ensures saleRequests == old(saleRequests) && restockRequests == old(restockRequests)
    {
      restockModal := ModalState(true, Some(item));
    }

    /** `handleSaleSubmit`: the request goes out and the mutation is pending. */
    method SubmitSale(data: SaleInput)
      requires Valid()
      modifies this
      ensures Valid()
      ensures saleRequests == old(saleRequests) + [data] && saleMutation == Pending
      ensures saleModal == old(saleModal) && restockModal == old(restockModal)
      ensures restockMutation == old(restockMutation) && restockRequests == old(restockRequests)
    {
      saleRequests := saleRequests + [data];
      saleMutation := Pending;
    }

    /** `handleRestockSubmit`. */
    method SubmitRestock(data: RestockInput)
      requires Valid()
      modifies this
      ensures Valid()
      ensures restockRequests == old(restockRequests) + [data] && restockMutation == Pending
      ensures saleModal == old(saleModal) && restockModal == old(restockModal)
      ensures saleMutation == old(saleMutation) && saleRequests == old(saleRequests)
    {
      restockRequests := restockRequests + [data];
      restockMutation := Pending;
    }

    /** The sale request settles: the hook's invalidation runs on success,
      then the page closes the sale dialog; a failure keeps it open and
      shows the error. The restock dialog is never touched. */
    method SaleSettled(s: Settlement, cache: QueryCache)
      requires Valid()
      modifies this, cache
      ensures Valid()
      ensures cache.entries == if s.Ok? then InvalidateAll(old(cache.entries), InventoryHooks.SaleInvalidations) else old(cache.entries)
      ensures saleMutation == Settle(s)
      ensures saleModal == if s.Ok? then Closed else old(saleModal)
      ensures restockModal == old(restockModal) && restockMutation == old(restockMutation)
      ensures saleRequests == old(saleRequests) && restockRequests == old(restockRequests)
    {
      InventoryHooks.SaleSettled(cache, s);
      saleMutation := Settle(s);
      if s.Ok? {
        saleModal := Closed;
      }
    }

    /** The restock request settles; only the restock dialog is closed. */
    method RestockSettled(s: Settlement, cache: QueryCache)
      requires Valid()
      modifies this, cache
      ensures Valid()
      ensures cache.entries == if s.Ok? then InvalidateAll(old(cache.entries), InventoryHooks.RestockInvalidations) else old(cache.entries)
      ensures restockMutation == Settle(s)
      ensures restockModal == if s.Ok? then Closed else old(restockModal)
      ensures saleModal == old(saleModal) && saleMutation == old(saleMutation)
      ensures saleRequests == old(saleRequests) && restockRequests == old(restockRequests)
    {
      InventoryHooks.RestockSettled(cache, s);
      restockMutation := Settle(s);
      if s.Ok? {
        restockModal := Closed;
      }
    }

    /** Closing the sale dialog clears its item and resets its mutation. */
    method CloseSale()
      requires Valid()
      modifies this
      ensures Valid()
      ensures saleModal == Closed && saleMutation == Idle
      ensures restockModal == old(restockModal) && restockMutation == old(restockMutation)
      ensures saleRequests == old(saleRequests) && restockRequests == old(restockRequests)
    {
      saleModal := Closed;
      saleMutation := Idle;
    }

    /** Closing the restock dialog clears its item and resets its mutation. */
    method CloseRestock()
      requires Valid()
      modifies this
      ensures Valid()
      ensures restockModal == Closed && restockMutation == Idle
      ensures saleModal == old(saleModal) && saleMutation == old(saleMutation)
      ensures saleRequests == old(saleRequests) && restockRequests == old(restockRequests)
    {
      restockModal := Closed;
      restockMutation := Idle;
    }
  }
}
