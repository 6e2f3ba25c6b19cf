/** Walking the purchase records and their items (src/main.js:48-62).
    CountItem, CountRecord and Tally say what one step of the source's loops
    does to a seller's record; ItemsProfit, SalesCount, SellerProfit and the
    other sums say, as counts and sums over the input sequences, what the
    record holds in the end, and TallySums proves that the two agree. The
    two methods are the source's loops, proved to compute Tally. */
module Accumulation {
  import opened Wrappers
  import opened SalesData
  import Indexing

  /** The quantity recorded for a SKU, 0 when it has no entry. */
  function Get0(sold: map<Sku, int>, sku: Sku): int
  {
    if sku in sold then sold[sku] else 0
  }

  /** Sum of the revenue strategy over the items whose SKU is known. */
  function ItemsProfit(items: seq<Item>, catalog: map<Sku, Product>, revenue: RevenueStrategy): real
  {
    if items == [] then 0.0
    else
      var last := items[|items| - 1];
      ItemsProfit(items[..|items| - 1], catalog, revenue)
        + (if last.sku in catalog then revenue(last, catalog[last.sku]) else 0.0)
  }

  /** Sum of the quantities of the items with a given known SKU. */
  function ItemsQuantity(items: seq<Item>, catalog: map<Sku, Product>, sku: Sku): int
  {
    if items == [] then 0
    else
      var last := items[|items| - 1];
      ItemsQuantity(items[..|items| - 1], catalog, sku)
        + (if last.sku == sku && sku in catalog then last.quantity else 0)
  }

  /** The known SKUs that occur among the items. */
  function ItemsSkus(items: seq<Item>, catalog: map<Sku, Product>): set<Sku>
  {
    if items == [] then {}
    else
      var last := items[|items| - 1];
      ItemsSkus(items[..|items| - 1], catalog) + (if last.sku in catalog then {last.sku} else {})
  }

  /** The number of records attributed to a seller. */
  function SalesCount(records: seq<PurchaseRecord>, id: SellerId): nat
  {
    if records == [] then 0
    else
      SalesCount(records[..|records| - 1], id) + (if records[|records| - 1].seller_id == id then 1 else 0)
  }

  /** Sum of the item profits over the records attributed to a seller. */
  function SellerProfit(records: seq<PurchaseRecord>, id: SellerId, catalog: map<Sku, Product>,
                        revenue: RevenueStrategy): real
  {
    if records == [] then 0.0
    else
      var last := records[|records| - 1];
      SellerProfit(records[..|records| - 1], id, catalog, revenue)
        + (if last.seller_id == id then ItemsProfit(last.items, catalog, revenue) else 0.0)
  }

  /** Sum of the quantities sold of a SKU over the records attributed to a seller. */
  function SellerQuantity(records: seq<PurchaseRecord>, id: SellerId, catalog: map<Sku, Product>, sku: Sku): int
  {
    if records == [] then 0
    else
      var last := records[|records| - 1];
      SellerQuantity(records[..|records| - 1], id, catalog, sku)
        + (if last.seller_id == id then ItemsQuantity(last.items, catalog, sku) else 0)
  }

  /** The known SKUs sold in the records attributed to a seller. */
  function SellerSkus(records: seq<PurchaseRecord>, id: SellerId, catalog: map<Sku, Product>): set<Sku>
  {
    if records == [] then {}
    else
      var last := records[|records| - 1];
      SellerSkus(records[..|records| - 1], id, catalog)
        + (if last.seller_id == id then ItemsSkus(last.items, catalog) else {})
  }

  /** One item (src/main.js:53-60). An item whose SKU is not in the product
      index leaves the record as it is. Otherwise the revenue strategy's
      result is added to the profit and the quantity to the SKU's entry,
      which starts at 0. */
  function CountItem(s: SellerStats, item: Item, catalog: map<Sku, Product>, revenue: RevenueStrategy): SellerStats
  {
    if item.sku !in catalog then s
    else
      s.(profit := s.profit + revenue(item, catalog[item.sku]),
         products_sold := s.products_sold[item.sku := Get0(s.products_sold, item.sku) + item.quantity])
  }

  /** The items of one record, in order. */
  function CountItems(s: SellerStats, items: seq<Item>, catalog: map<Sku, Product>,
                      revenue: RevenueStrategy): SellerStats
  {
    if items == [] then s
    else CountItem(CountItems(s, items[..|items| - 1], catalog, revenue), items[|items| - 1], catalog, revenue)
  }

  /** One record of a known seller (src/main.js:51-61): the sales count goes
      up by 1 whatever the items, then the items are counted. */
  function CountRecord(s: SellerStats, record: PurchaseRecord, catalog: map<Sku, Product>,
                       revenue: RevenueStrategy): SellerStats
  {
    CountItems(s.(sales_count := s.sales_count + 1), record.items, catalog, revenue)
  }

  /** A seller's record after the purchase records, in order; records of
      other sellers pass it by. */
  function Tally(id: SellerId, init: SellerStats, records: seq<PurchaseRecord>,
                 catalog: map<Sku, Product>, revenue: RevenueStrategy): SellerStats
  {
    if records == [] then init
    else
      var before := Tally(id, init, records[..|records| - 1], catalog, revenue);
      var last := records[|records| - 1];
      if last.seller_id == id then CountRecord(before, last, catalog, revenue) else before
  }

  lemma {:induction false} ItemsQuantityOutsideSkus(items: seq<Item>, catalog: map<Sku, Product>, sku: Sku)
    requires sku !in ItemsSkus(items, catalog)
    ensures ItemsQuantity(items, catalog, sku) == 0
  {
    if items != [] {
      ItemsQuantityOutsideSkus(items[..|items| - 1], catalog, sku);
    }
  }

  lemma {:induction false} SellerQuantityOutsideSkus(records: seq<PurchaseRecord>, id: SellerId,
                                                     catalog: map<Sku, Product>, sku: Sku)
    requires sku !in SellerSkus(records, id, catalog)
    ensures SellerQuantity(records, id, catalog, sku) == 0
  {
    if records != [] {
      SellerQuantityOutsideSkus(records[..|records| - 1], id, catalog, sku);
      var last := records[|records| - 1];
      if last.seller_id == id {
        ItemsQuantityOutsideSkus(last.items, catalog, sku);
      }
    }
  }

  /** After a run of items, the profit has grown by the profit of the known
      items, and `products_sold` has gained an entry for each known SKU among
      them, holding what it held before (0 if nothing) plus the quantities sold
      under that SKU. Nothing else changes. */
  lemma {:induction false} CountItemsSums(s: SellerStats, items: seq<Item>, catalog: map<Sku, Product>,
                                          revenue: RevenueStrategy)
    ensures var r := CountItems(s, items, catalog, revenue);
            && r.id == s.id && r.name == s.name && r.sales_count == s.sales_count && r.bonus == s.bonus
            && r.profit == s.profit + ItemsProfit(items, catalog, revenue)
            && r.products_sold.Keys == s.products_sold.Keys + ItemsSkus(items, catalog)
            && (forall sku :: sku in r.products_sold ==>
                  r.products_sold[sku] == Get0(s.products_sold, sku) + ItemsQuantity(items, catalog, sku))
  {
    if items != [] {
      var init := items[..|items| - 1];
      var item := items[|items| - 1];
      CountItemsSums(s, init, catalog, revenue);
      var before := CountItems(s, init, catalog, revenue);
      if item.sku in catalog && item.sku !in before.products_sold {
        ItemsQuantityOutsideSkus(init, catalog, item.sku);
      }
    }
  }

  /** A seller's record after the purchase records: its sales count has grown
      by the number of its records, its profit by the profit of their known
      items, and `products_sold` has an entry for each known SKU it sold, that
      grew by the quantity sold. Id, name and bonus do not change. */
  lemma {:induction false} TallySums(id: SellerId, init: SellerStats, records: seq<PurchaseRecord>,
                                     catalog: map<Sku, Product>, revenue: RevenueStrategy)
    ensures var t := Tally(id, init, records, catalog, revenue);
            && t.id == init.id && t.name == init.name && t.bonus == init.bonus
            && t.sales_count == init.sales_count + SalesCount(records, id)
            && t.profit == init.profit + SellerProfit(records, id, catalog, revenue)
            && t.products_sold.Keys == init.products_sold.Keys + SellerSkus(records, id, catalog)
            && (forall sku :: sku in t.products_sold ==>
                  t.products_sold[sku] == Get0(init.products_sold, sku) + SellerQuantity(records, id, catalog, sku))
  {
    if records != [] {
      var init' := records[..|records| - 1];
      var last := records[|records| - 1];
      TallySums(id, init, init', catalog, revenue);
      var before := Tally(id, init, init', catalog, revenue);
      if last.seller_id == id {
        CountItemsSums(before.(sales_count := before.sales_count + 1), last.items, catalog, revenue);
        forall sku | sku !in before.products_sold
          ensures SellerQuantity(init', id, catalog, sku) == 0
        {
          SellerQuantityOutsideSkus(init', id, catalog, sku);
        }
      }
    }
  }

  /** A seller's record starting from zero: its sales count is the number of
      its records, its profit the sum over their known items, and its
      `products_sold` has an entry exactly for each known SKU it sold, holding
      the total quantity. */
  lemma TallyFromZero(id: SellerId, init: SellerStats, records: seq<PurchaseRecord>,
                      catalog: map<Sku, Product>, revenue: RevenueStrategy)
    requires init.profit == 0.0 && init.sales_count == 0 && init.products_sold == map[]
    ensures var t := Tally(id, init, records, catalog, revenue);
            && t.id == init.id && t.name == init.name && t.bonus == init.bonus
            && t.sales_count == SalesCount(records, id)
            && t.profit == SellerProfit(records, id, catalog, revenue)
            && t.products_sold.Keys == SellerSkus(records, id, catalog)
            && (forall sku :: sku in t.products_sold ==> t.products_sold[sku] == SellerQuantity(records, id, catalog, sku))
  {
    TallySums(id, init, records, catalog, revenue);
  }

  /** Item sums over two runs of items add up. */
  lemma {:induction false} ItemsConcat(a: seq<Item>, b: seq<Item>, catalog: map<Sku, Product>,
                                       revenue: RevenueStrategy)
    ensures ItemsProfit(a + b, catalog, revenue) == ItemsProfit(a, catalog, revenue) + ItemsProfit(b, catalog, revenue)
    ensures ItemsSkus(a + b, catalog) == ItemsSkus(a, catalog) + ItemsSkus(b, catalog)
    ensures forall sku :: ItemsQuantity(a + b, catalog, sku)
                          == ItemsQuantity(a, catalog, sku) + ItemsQuantity(b, catalog, sku)
  {
    if b == [] {
      assert a + b == a;
    } else {
      var init := b[..|b| - 1];
      ItemsConcat(a, init, catalog, revenue);
      assert (a + b)[..|a + b| - 1] == a + init;
    }
  }

  /** An item whose SKU is not in the product index contributes nothing,
      and the items around it in the same record are still counted. */
  lemma {:induction false} UnknownSkuSkipped(before: seq<Item>, item: Item, after: seq<Item>, catalog: map<Sku, Product>,
                          revenue: RevenueStrategy)
    requires item.sku !in catalog
    ensures ItemsProfit(before + [item] + after, catalog, revenue)
            == ItemsProfit(before, catalog, revenue) + ItemsProfit(after, catalog, revenue)
    ensures ItemsSkus(before + [item] + after, catalog) == ItemsSkus(before, catalog) + ItemsSkus(after, catalog)
    ensures forall sku :: ItemsQuantity(before + [item] + after, catalog, sku)
                          == ItemsQuantity(before, catalog, sku) + ItemsQuantity(after, catalog, sku)
  {
    ItemsConcat(before, [item], catalog, revenue);
    ItemsConcat(before + [item], after, catalog, revenue);
    assert [item][..0] == [];
  }

  /** A record attributed to another seller, or to no known seller, changes
      nothing in a seller's record, wherever it stands among the records. */
  lemma {:induction false} ForeignRecordIgnored(id: SellerId, init: SellerStats, before: seq<PurchaseRecord>,
                                                record: PurchaseRecord, after: seq<PurchaseRecord>,
                                                catalog: map<Sku, Product>, revenue: RevenueStrategy)
    requires record.seller_id != id
    ensures Tally(id, init, before + [record] + after, catalog, revenue)
            == Tally(id, init, before + after, catalog, revenue)
  {
    if after == [] {
      assert before + [record] + after == before + [record];
      assert before + after == before;
      assert (before + [record])[..|before|] == before;
    } else {
      var init' := after[..|after| - 1];
      ForeignRecordIgnored(id, init, before, record, init', catalog, revenue);
      assert (before + [record] + after)[..|before + [record] + after| - 1] == before + [record] + init';
      assert (before + after)[..|before + after| - 1] == before + init';
    }
  }

  /** An item whose SKU is not in the product index changes nothing in the
      record, wherever it stands among the items. */
  lemma {:induction false} UnknownItemIgnored(s: SellerStats, before: seq<Item>, item: Item, after: seq<Item>,
                                              catalog: map<Sku, Product>, revenue: RevenueStrategy)
    requires item.sku !in catalog
    ensures CountItems(s, before + [item] + after, catalog, revenue) == CountItems(s, before + after, catalog, revenue)
  {
    if after == [] {
      assert before + [item] + after == before + [item];
      assert before + after == before;
      assert (before + [item])[..|before|] == before;
    } else {
      var init' := after[..|after| - 1];
      UnknownItemIgnored(s, before, item, init', catalog, revenue);
      assert (before + [item] + after)[..|before + [item] + after| - 1] == before + [item] + init';
      assert (before + after)[..|before + after| - 1] == before + init';
    }
  }

  /** The number of records attributed to any seller in a set of ids. */
  function KnownRecords(records: seq<PurchaseRecord>, ids: set<SellerId>): nat
  {
    if records == [] then 0
    else KnownRecords(records[..|records| - 1], ids) + (if records[|records| - 1].seller_id in ids then 1 else 0)
  }

  /** The sum of the sales counts of a list of sellers. */
  function SalesCounts(records: seq<PurchaseRecord>, ids: seq<SellerId>): nat
  {
    if ids == [] then 0 else SalesCount(records, ids[0]) + SalesCounts(records, ids[1..])
  }

  lemma {:induction false} KnownRecordsAddSeller(records: seq<PurchaseRecord>, ids: set<SellerId>, id: SellerId)
    requires id !in ids
    ensures KnownRecords(records, ids + {id}) == KnownRecords(records, ids) + SalesCount(records, id)
  {
    if records != [] {
      KnownRecordsAddSeller(records[..|records| - 1], ids, id);
    }
  }

  /** Summed over distinct sellers, the sales counts equal the number of
      records attributed to one of them: each such record is counted once. */
  lemma {:induction false} SalesCountsAddUp(records: seq<PurchaseRecord>, ids: seq<SellerId>)
    requires Indexing.Distinct(ids)
    ensures SalesCounts(records, ids) == KnownRecords(records, set id | id in ids)
  {
    if ids == [] {
      assert (set id | id in ids) == {};
      KnownRecordsNone(records);
    } else {
      var rest := ids[1..];
      SalesCountsAddUp(records, rest);
      assert ids == [ids[0]] + rest;
      assert (set x | x in ids) == (set x | x in rest) + {ids[0]};
      KnownRecordsAddSeller(records, (set x | x in rest), ids[0]);
    }
  }

  /** A seller without records keeps a zero sales count, a zero profit and
      no sold SKU. */
  lemma {:induction false} SellerWithoutRecords(records: seq<PurchaseRecord>, id: SellerId,
                                                catalog: map<Sku, Product>, revenue: RevenueStrategy)
    requires forall k :: 0 <= k < |records| ==> records[k].seller_id != id
    ensures SalesCount(records, id) == 0
    ensures SellerProfit(records, id, catalog, revenue) == 0.0
    ensures SellerSkus(records, id, catalog) == {}
  {
    if records != [] {
      SellerWithoutRecords(records[..|records| - 1], id, catalog, revenue);
    }
  }

  lemma {:induction false} KnownRecordsNone(records: seq<PurchaseRecord>)
    ensures KnownRecords(records, {}) == 0
  {
    if records != [] {
      KnownRecordsNone(records[..|records| - 1]);
    }
  }

  /** The inner loop over one record's items (src/main.js:52-61). */
  method AccumulateItems(seller: SellerStats, items: seq<Item>, catalog: map<Sku, Product>,
                         revenue: RevenueStrategy) returns (updated: SellerStats)
    ensures updated == CountItems(seller, items, catalog, revenue)
  {
    updated := seller;
    for j := 0 to |items|
      invariant updated == CountItems(seller, items[..j], catalog, revenue)
    {
      assert items[..j + 1][..j] == items[..j];
      var item := items[j];
      if item.sku in catalog {
        var product := catalog[item.sku];
        var profit := revenue(item, product);
        var sold := updated.products_sold;
        if item.sku !in sold || sold[item.sku] == 0 {
          sold := sold[item.sku := 0];
        }
        sold := sold[item.sku := sold[item.sku] + item.quantity];
        updated := updated.(profit := updated.profit + profit, products_sold := sold);
      }
    }
    assert items[..|items|] == items;
  }

  /** The outer loop over the purchase records (src/main.js:48-62). A record
      whose seller is not in the index is skipped. Every seller ends with its
      records tallied, and no seller is added or removed. */
  method AccumulateRecords(index: map<SellerId, SellerStats>, catalog: map<Sku, Product>,
                           records: seq<PurchaseRecord>, revenue: RevenueStrategy)
    returns (updated: map<SellerId, SellerStats>)
    ensures updated.Keys == index.Keys
    ensures forall id :: id in index ==> updated[id] == Tally(id, index[id], records, catalog, revenue)
  {
    updated := index;
    for i := 0 to |records|
      invariant updated.Keys == index.Keys
      invariant forall id :: id in index ==> updated[id] == Tally(id, index[id], records[..i], catalog, revenue)
    {
      assert records[..i + 1][..i] == records[..i];
      var record := records[i];
      if record.seller_id in updated {
        var seller := updated[record.seller_id];
        seller := seller.(sales_count := seller.sales_count + 1);
        seller := AccumulateItems(seller, record.items, catalog, revenue);
        updated := updated[record.seller_id := seller];
      }
    }
    assert records[..|records|] == records;
  }
}
