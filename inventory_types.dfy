/** The inventory entities exchanged with the stock server. Money is an
    integer count of the smallest currency unit. */
module InventoryTypes {
  import opened Wrappers

  /** The unit a sale is counted in: whole packs or loose pieces. */
  datatype SaleType = Pack | Piece

  /** One stocked product as the server reports it. `packsInStock` and
      `piecesInStock` are two separate buckets; the last four fields are
      computed by the server and only displayed here. */
  datatype InventoryItem = InventoryItem(
    id: int,
    name: string,
    packSize: int,
    packsInStock: int,
    piecesInStock: int,
    sellingPricePack: int,
    sellingPricePiece: int,
    purchasePricePack: int,
    purchasePricePiece: int,
    totalPieces: int,
    stockValue: int,
    stockCost: int,
    potentialProfit: int)

  datatype TodayProfit = TodayProfit(totalProfit: int)

  datatype ProductProfit = ProductProfit(name: string, totalProfit: int, totalUnitsSold: int)

  /** Body of a sale request. */
  datatype SaleInput = SaleInput(inventoryId: int, saleType: SaleType, quantity: int)

  /** Body of a restock request; an absent field is left out of the JSON. */
  datatype RestockInput = RestockInput(
    inventoryId: int,
    packsAdded: Option<int>,
    piecesAdded: Option<int>,
    purchasePricePack: Option<int>,
    sellingPricePack: Option<int>)

  /** The relations the server keeps between the stored and the derived
      fields. The client never establishes them; lemmas that use them take
      them as a hypothesis about what the server sent. */
  ghost predicate ServerConsistent(item: InventoryItem) {
    && item.packSize >= 1
    && item.packsInStock >= 0
    && item.piecesInStock >= 0
    && item.totalPieces == item.packsInStock * item.packSize + item.piecesInStock
    && item.stockCost == item.totalPieces * item.purchasePricePiece
    && item.stockValue == item.totalPieces * item.sellingPricePiece
    && item.potentialProfit == item.stockValue - item.stockCost
  }

  /** For a consistent item, no pieces in total means both buckets are empty,
      and any stock in either bucket makes the total positive. */
  lemma EmptyTotalMeansEmptyBuckets(item: InventoryItem)
    requires ServerConsistent(item)
    ensures item.totalPieces == 0 <==> item.packsInStock == 0 && item.piecesInStock == 0
  {
  }
}
