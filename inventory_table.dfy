/** The inventory table: one row per item with its stock badge, its profit
    margin and its Sell / Restock actions. */
module InventoryTable {
  import opened Wrappers
  import opened InventoryTypes

  datatype StockBadge = OutOfStock | LowStock | InStock

  const LowStockThreshold: int := 50

  /** `getStockBadge`: out of stock at 0 pieces, low below 50, in stock
      otherwise. The three cases partition the integers. */
  function StockBadgeFor(totalPieces: int): (b: StockBadge)
    ensures b == OutOfStock <==> totalPieces == 0
    ensures b == LowStock <==> totalPieces != 0 && totalPieces < LowStockThreshold
    ensures b == InStock <==> totalPieces >= LowStockThreshold
  {
    if totalPieces == 0 then OutOfStock
    else if totalPieces < LowStockThreshold then LowStock
    else InStock
  }

  /** `getProfitMargin` before rounding: 0 when nothing was invested,
      otherwise potential profit as a percentage of stock cost. */
  function ProfitMargin(item: InventoryItem): (r: real)
    ensures item.stockCost == 0 ==> r == 0.0
    ensures item.stockCost != 0 ==> r * (item.stockCost as real) == 100.0 * (item.potentialProfit as real)
  {
    if item.stockCost == 0 then 0.0
    else (item.potentialProfit as real) / (item.stockCost as real) * 100.0
  }

  /** For an item the server keeps consistent and that has cost, the margin
      is positive exactly when selling a piece earns more than buying it. */
  lemma MarginSign(item: InventoryItem)
    requires ServerConsistent(item) && item.stockCost > 0
    ensures ProfitMargin(item) > 0.0 <==> item.sellingPricePiece > item.purchasePricePiece
  {
  }

  /** What one row offers. */
  datatype Row =
    | EmptyRow
    | ItemRow(item: InventoryItem, badge: StockBadge, margin: real, sellDisabled: bool, restockDisabled: bool)

  /** The modal a row's action asks to open, with that row's item. */
  datatype RowEvent = OpenSale(item: InventoryItem) | OpenRestock(item: InventoryItem)

  /** Sell is disabled exactly when the item has no pieces in total; it does
      not look at the buckets. Restock is never disabled. */
  function RowFor(item: InventoryItem): (r: Row)
    ensures r.ItemRow? && r.item == item
    ensures r.badge == StockBadgeFor(item.totalPieces) && r.margin == ProfitMargin(item)
    ensures r.sellDisabled <==> item.totalPieces == 0
    ensures !r.restockDisabled
  {
    ItemRow(item, StockBadgeFor(item.totalPieces), ProfitMargin(item), item.totalPieces == 0, false)
  }

  /** The table body: a single "No inventory items found" row for an empty
      list, otherwise one row per item, in order. */
  function Rows(items: seq<InventoryItem>): (r: seq<Row>)
    ensures |items| == 0 ==> r == [EmptyRow]
    ensures |items| > 0 ==> |r| == |items| && forall i :: 0 <= i < |items| ==> r[i] == RowFor(items[i])
  {
    if |items| == 0 then [EmptyRow] else seq(|items|, i requires 0 <= i < |items| => RowFor(items[i]))
  }

  /** Clicking Sell: nothing when disabled, otherwise the row's own item. */
  function ClickSell(row: Row): (r: Option<RowEvent>)
    ensures row.ItemRow? && !row.sellDisabled ==> r == Some(OpenSale(row.item))
    ensures !row.ItemRow? || row.sellDisabled ==> r.None?
  {
    if row.ItemRow? && !row.sellDisabled then Some(OpenSale(row.item)) else None
  }

  /** Clicking Restock: the row's own item whenever the row shows an item. */
  function ClickRestock(row: Row): (r: Option<RowEvent>)
    ensures row.ItemRow? && !row.restockDisabled ==> r == Some(OpenRestock(row.item))
    ensures !row.ItemRow? ==> r.None?
  {
    if row.ItemRow? && !row.restockDisabled then Some(OpenRestock(row.item)) else None
  }

  /** Row i's actions carry item i: Restock always, Sell whenever the item
      has any stock at all. */
  lemma RowActionsCarryOwnItem(items: seq<InventoryItem>, i: int)
    requires 0 <= i < |items|
    ensures ClickRestock(Rows(items)[i]) == Some(OpenRestock(items[i]))
    ensures items[i].totalPieces != 0 <==> ClickSell(Rows(items)[i]) == Some(OpenSale(items[i]))
  {
  }

  /** For an item the server keeps consistent, Sell is enabled as soon as
      either bucket holds stock, even if the bucket a sale then picks is
      empty; the sale dialog's guard is what checks the bucket. */
  lemma SellEnabledIffAnyBucket(item: InventoryItem)
    requires ServerConsistent(item)
    ensures !RowFor(item).sellDisabled <==> item.packsInStock > 0 || item.piecesInStock > 0
  {
  }
}
