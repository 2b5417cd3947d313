/** The inventory queries (keys, refresh intervals) and the cache entries each
    successful inventory mutation marks stale. */
module InventoryHooks {
  import opened Wrappers
  import opened QueryClient

  const InventoryKey: QueryKey := [Str("inventory")]
  const TodayProfitKey: QueryKey := [Str("todayProfit")]
  const ProductProfitsKey: QueryKey := [Str("productProfits")]

  const InventoryRefreshMs: nat := 30000
  const TodayProfitRefreshMs: nat := 10000

  /** `useInventory`, `useTodayProfit`, `useProductProfits`. */
  function InventoryOptions(): (o: QueryOptions)
    ensures o.key == InventoryKey && o.enabled && o.refetchIntervalMs == Some(30000)
  {
    QueryOptions(InventoryKey, true, DefaultRetry, DefaultStaleTimeMs, Some(InventoryRefreshMs))
  }

  function TodayProfitOptions(): (o: QueryOptions)
    ensures o.key == TodayProfitKey && o.enabled && o.refetchIntervalMs == Some(10000)
  {
    QueryOptions(TodayProfitKey, true, DefaultRetry, DefaultStaleTimeMs, Some(TodayProfitRefreshMs))
  }

  /** The product-profit list has no timer: only invalidation refreshes it. */
  function ProductProfitsOptions(): (o: QueryOptions)
    ensures o.key == ProductProfitsKey && o.enabled && o.refetchIntervalMs.None?
  {
    QueryOptions(ProductProfitsKey, true, DefaultRetry, DefaultStaleTimeMs, None)
  }

  /** The invalidations of a successful sale, in call order. */
  const SaleInvalidations: seq<QueryKey> := [InventoryKey, TodayProfitKey, ProductProfitsKey]

  /** The invalidation of a successful restock. */
  const RestockInvalidations: seq<QueryKey> := [InventoryKey]

  /** The three keys are one-element keys none of which is a prefix of
      another, so invalidating one never reaches the others. */
  lemma InventoryKeysIndependent()
    ensures !Matches(InventoryKey, TodayProfitKey) && !Matches(InventoryKey, ProductProfitsKey)
    ensures !Matches(TodayProfitKey, InventoryKey) && !Matches(TodayProfitKey, ProductProfitsKey)
    ensures !Matches(ProductProfitsKey, InventoryKey) && !Matches(ProductProfitsKey, TodayProfitKey)
  {
    assert InventoryKey[0] != TodayProfitKey[0] && InventoryKey[0] != ProductProfitsKey[0];
    assert TodayProfitKey[0] != ProductProfitsKey[0];
  }

  /** After a successful sale an entry is stale exactly when it was stale or
      its key starts with inventory, todayProfit or productProfits; entries
      under any other key are unchanged. */
  lemma SaleInvalidationExact(m: Cache, k: QueryKey)
    requires k in m
    ensures k in InvalidateAll(m, SaleInvalidations)
    ensures InvalidateAll(m, SaleInvalidations)[k].stale
        <==> m[k].stale || Matches(InventoryKey, k) || Matches(TodayProfitKey, k) || Matches(ProductProfitsKey, k)
    ensures !Matches(InventoryKey, k) && !Matches(TodayProfitKey, k) && !Matches(ProductProfitsKey, k)
        ==> InvalidateAll(m, SaleInvalidations)[k] == m[k]
  {
    InvalidateAllEffect(m, SaleInvalidations, k);
    if Matches(InventoryKey, k) { assert Matches(SaleInvalidations[0], k); }
    if Matches(TodayProfitKey, k) { assert Matches(SaleInvalidations[1], k); }
    if Matches(ProductProfitsKey, k) { assert Matches(SaleInvalidations[2], k); }
  }

  /** After a successful restock only entries under the inventory key become
      stale; today's profit and the product profits are left as they were. */
  lemma RestockInvalidationExact(m: Cache, k: QueryKey)
    requires k in m
    ensures k in InvalidateAll(m, RestockInvalidations)
    ensures InvalidateAll(m, RestockInvalidations)[k].stale <==> m[k].stale || Matches(InventoryKey, k)
    ensures !Matches(InventoryKey, k) ==> InvalidateAll(m, RestockInvalidations)[k] == m[k]
    ensures TodayProfitKey in m ==> InvalidateAll(m, RestockInvalidations)[TodayProfitKey] == m[TodayProfitKey]
    ensures ProductProfitsKey in m ==> InvalidateAll(m, RestockInvalidations)[ProductProfitsKey] == m[ProductProfitsKey]
  {
    InvalidateAllEffect(m, RestockInvalidations, k);
    if Matches(InventoryKey, k) { assert Matches(RestockInvalidations[0], k); }
    InventoryKeysIndependent();
    if TodayProfitKey in m { InvalidateAllEffect(m, RestockInvalidations, TodayProfitKey); }
    if ProductProfitsKey in m { InvalidateAllEffect(m, RestockInvalidations, ProductProfitsKey); }
  }

  /** `useSaleMutation`'s `onSuccess`: runs only when the request succeeded,
      so a failed sale leaves every entry as it was. */
  method SaleSettled(cache: QueryCache, s: Settlement)
    modifies cache
    ensures cache.entries == if s.Ok? then InvalidateAll(old(cache.entries), SaleInvalidations) else old(cache.entries)
  {
    if s.Ok? {
      ghost var m0 := cache.entries;
      cache.InvalidateQueries(InventoryKey);
      ghost var m1 := cache.entries;
      cache.InvalidateQueries(TodayProfitKey);
      ghost var m2 := cache.entries;
      cache.InvalidateQueries(ProductProfitsKey);
      assert SaleInvalidations[1..] == [TodayProfitKey, ProductProfitsKey];
      assert SaleInvalidations[1..][1..] == [ProductProfitsKey];
      assert InvalidateAll(m2, [ProductProfitsKey]) == cache.entries;
      assert InvalidateAll(m1, [TodayProfitKey, ProductProfitsKey]) == cache.entries;
    }
  }

  /** `useRestockMutation`'s `onSuccess`. */
  method RestockSettled(cache: QueryCache, s: Settlement)
    modifies cache
    ensures cache.entries == if s.Ok? then InvalidateAll(old(cache.entries), RestockInvalidations) else old(cache.entries)
  {
    if s.Ok? {
      cache.InvalidateQueries(InventoryKey);
    }
  }
}
