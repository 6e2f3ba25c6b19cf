/** The analysis as a whole (src/main.js:19-69): validate the two bundles,
    index the sellers and the products, count the purchase records, rank the
    sellers by profit and write their bonuses. */
module Analysis {
  import opened Wrappers
  import opened SalesData
  import opened Indexing
  import opened Accumulation
  import opened Ranking

  /** The data bundle is present and its three arrays are present and non-empty. */
  predicate ValidData(data: Option<Dataset>)
  {
    && data.Some?
    && data.value.sellers.Some?
    && data.value.products.Some?
    && data.value.purchase_records.Some?
    && |data.value.sellers.value| > 0
    && |data.value.products.value| > 0
    && |data.value.purchase_records.value| > 0
  }

  /** The options bundle is present and carries both strategies. */
  predicate ValidOptions(options: Option<Options>)
  {
    && options.Some?
    && options.value.calculateSimpleRevenue.Some?
    && options.value.calculateBonusByProfit.Some?
  }

  /** The seller records of the index, in key order. */
  function ValuesInOrder(order: seq<SellerId>, index: map<SellerId, SellerStats>): seq<SellerStats>
    requires forall k :: 0 <= k < |order| ==> order[k] in index
  {
    seq(|order|, k requires 0 <= k < |order| => index[order[k]])
  }

  /** Every seller's tallied record, one per distinct id in order of first
      occurrence: what the sort receives. */
  function SellerTotals(sellers: seq<Seller>, products: seq<Product>, records: seq<PurchaseRecord>,
                        revenue: RevenueStrategy): seq<SellerStats>
  {
    SellerIndexShape(sellers);
    var ids := Ids(sellers);
    var index := SellerIndex(sellers);
    seq(|ids|, k requires 0 <= k < |ids| => Tally(ids[k], index[ids[k]], records, ProductIndex(products), revenue))
  }

  /** The records with their bonus field cleared. */
  function Unranked(s: seq<SellerStats>): seq<SellerStats>
  {
    seq(|s|, i requires 0 <= i < |s| => s[i].(bonus := None))
  }

  predicate DistinctIds(s: seq<SellerStats>)
  {
    forall i, j :: 0 <= i < j < |s| ==> s[i].id != s[j].id
  }

  lemma CountOfUnique(a: seq<SellerStats>, k: nat)
    requires k < |a| && DistinctIds(a)
    ensures multiset(a)[a[k]] == 1
  {
    assert a == a[..k] + [a[k]] + a[k + 1..];
    assert a[k] !in a[..k];
    assert a[k] !in a[k + 1..];
  }

  lemma CountOfRepeated(b: seq<SellerStats>, i: nat, j: nat)
    requires i < j < |b| && b[i] == b[j]
    ensures multiset(b)[b[i]] >= 2
  {
    assert b == b[..j] + b[j..];
    assert b[i] in b[..j];
    assert b[j] in b[j..];
  }

  /** Reordering records whose ids are distinct keeps the ids distinct. */
  lemma DistinctIdsPermutation(a: seq<SellerStats>, b: seq<SellerStats>)
    requires multiset(a) == multiset(b) && DistinctIds(a)
    ensures DistinctIds(b)
  {
    forall i, j | 0 <= i < j < |b| ensures b[i].id != b[j].id {
      assert b[i] in multiset(a) && b[j] in multiset(a);
      var k :| 0 <= k < |a| && a[k] == b[i];
      var l :| 0 <= l < |a| && a[l] == b[j];
      CountOfUnique(a, k);
      if b[i] == b[j] {
        CountOfRepeated(b, i, j);
        assert false;
      }
    }
  }

  lemma {:induction false} SumSalesCountOfTotals(t: seq<SellerStats>, ids: seq<SellerId>, records: seq<PurchaseRecord>)
    requires |t| == |ids|
    requires forall k :: 0 <= k < |t| ==> t[k].sales_count == SalesCount(records, ids[k])
    ensures SumSalesCount(t) == SalesCounts(records, ids)
  {
    if t != [] {
      SumSalesCountOfTotals(t[1..], ids[1..], records);
    }
  }

  lemma {:induction false} SumSalesCountPointwise(a: seq<SellerStats>, b: seq<SellerStats>)
    requires |a| == |b|
    requires forall k :: 0 <= k < |a| ==> a[k].sales_count == b[k].sales_count
    ensures SumSalesCount(a) == SumSalesCount(b)
  {
    if a != [] {
      SumSalesCountPointwise(a[1..], b[1..]);
    }
  }

  /** A returned record holds the name of the last seller with its id, the
      number of that seller's purchase records, the profit over their items
      with a known SKU, and one `products_sold` entry per known SKU sold,
      holding the total quantity. */
  ghost predicate CountedFromRecords(s: SellerStats, sellers: seq<Seller>, products: seq<Product>,
                                     records: seq<PurchaseRecord>, revenue: RevenueStrategy)
  {
    var catalog := ProductIndex(products);
    && s.id in SellerIndex(sellers)
    && s.name == SellerIndex(sellers)[s.id].name
    && s.sales_count == SalesCount(records, s.id)
    && s.profit == SellerProfit(records, s.id, catalog, revenue)
    && s.products_sold.Keys == SellerSkus(records, s.id, catalog)
    && (forall sku :: sku in s.products_sold ==> s.products_sold[sku] == SellerQuantity(records, s.id, catalog, sku))
  }

  /** What a successful analysis returns. */
  ghost predicate Analyzed(sellers: seq<Seller>, products: seq<Product>, records: seq<PurchaseRecord>,
                     revenue: RevenueStrategy, bonusFor: BonusStrategy, out: seq<SellerStats>)
  {
    var totals := SellerTotals(sellers, products, records, revenue);
    var index := SellerIndex(sellers);
    // one record per distinct seller id, no other
    && |out| == |Ids(sellers)|
    && DistinctIds(out)
    && (forall id :: HasSeller(sellers, id) <==> exists i :: 0 <= i < |out| && out[i].id == id)
    // each record holds its seller's name and the counts and sums over its purchase records
    && (forall i :: 0 <= i < |out| ==> CountedFromRecords(out[i], sellers, products, records, revenue))
    // ordered by profit, descending; a stable reordering of the tallied records
    && SortedByProfit(out)
    && multiset(Unranked(out)) == multiset(totals)
    && (forall p :: WithProfit(Unranked(out), p) == WithProfit(totals, p))
    && Unranked(out) == SortByProfit(totals)
    // the bonus at rank i is the strategy's result for (i, profit, record)
    && (forall i :: 0 <= i < |out| ==>
          out[i].bonus == Some(bonusFor(i, out[i].profit, out[i].(bonus := None))))
    // each record with a known seller is counted exactly once
    && SumSalesCount(out) == KnownRecords(records, set s | s in sellers :: s.id)
  }

  /** The whole analysis (src/main.js:19-69). */
  method AnalyzeSalesData(data: Option<Dataset>, options: Option<Options>)
    returns (result: Result<seq<SellerStats>, AnalysisError>)
    ensures !ValidData(data) ==> result == Failure(InvalidInput)
    ensures ValidData(data) && !ValidOptions(options) ==> result == Failure(MissingStrategies)
    ensures ValidData(data) && ValidOptions(options) ==>
              && result.Success?
              && Analyzed(data.value.sellers.value, data.value.products.value, data.value.purchase_records.value,
                          options.value.calculateSimpleRevenue.value, options.value.calculateBonusByProfit.value,
                          result.value)
  {
    if || data.None?
       || data.value.sellers.None?
       || data.value.products.None?
       || data.value.purchase_records.None?
       || |data.value.sellers.value| == 0
       || |data.value.products.value| == 0
       || |data.value.purchase_records.value| == 0
    {
      return Failure(InvalidInput);
    }
    if options.None? || options.value.calculateSimpleRevenue.None? || options.value.calculateBonusByProfit.None? {
      return Failure(MissingStrategies);
    }
    var revenue := options.value.calculateSimpleRevenue.value;
    var bonusFor := options.value.calculateBonusByProfit.value;
    var sellers := data.value.sellers.value;
    var products := data.value.products.value;
    var records := data.value.purchase_records.value;

    var order, sellerIndex := IndexSellers(sellers);
    var productIndex := IndexProducts(products);
    var tallied := AccumulateRecords(sellerIndex, productIndex, records, revenue);

    SellerIndexShape(sellers);
    var list := ValuesInOrder(order, tallied);
    ghost var totals := SellerTotals(sellers, products, records, revenue);
    assert list == totals;

    var sorted := SortByProfit(list);
    SortByProfitCorrect(list);

    var ranked := AssignBonuses(sorted, bonusFor);
    result := Success(ranked);

    RankedFacts(sellers, products, records, revenue, bonusFor, totals, sorted, ranked);
  }

  /** The tallied records carry the ids in key order, have no bonus yet, and
      count each seller's records. */
  lemma TotalsFacts(sellers: seq<Seller>, products: seq<Product>, records: seq<PurchaseRecord>,
                    revenue: RevenueStrategy)
    ensures var totals := SellerTotals(sellers, products, records, revenue);
            && |totals| == |Ids(sellers)|
            && DistinctIds(totals)
            && (forall k :: 0 <= k < |totals| ==>
                  && totals[k].id == Ids(sellers)[k]
                  && totals[k].id in SellerIndex(sellers)
                  && totals[k].bonus == None
                  && totals[k] == Tally(totals[k].id, SellerIndex(sellers)[totals[k].id], records,
                                        ProductIndex(products), revenue))
            && SumSalesCount(totals) == KnownRecords(records, set s | s in sellers :: s.id)
  {
    SellerIndexShape(sellers);
    var totals := SellerTotals(sellers, products, records, revenue);
    var ids := Ids(sellers);
    var index := SellerIndex(sellers);
    var catalog := ProductIndex(products);
    forall k | 0 <= k < |totals|
      ensures totals[k].id == ids[k] && totals[k].bonus == None
      ensures totals[k].sales_count == SalesCount(records, ids[k])
    {
      TallyFromZero(ids[k], index[ids[k]], records, catalog, revenue);
    }
    SumSalesCountOfTotals(totals, ids, records);
    SalesCountsAddUp(records, ids);
    assert (set id | id in ids) == (set s | s in sellers :: s.id) by {
      forall s | s in sellers ensures s.id in ids {
        var i :| 0 <= i < |sellers| && sellers[i] == s;
        assert HasSeller(sellers, s.id);
      }
      forall id | id in ids ensures id in (set s | s in sellers :: s.id) {
        assert HasSeller(sellers, id);
        var i :| 0 <= i < |sellers| && sellers[i].id == id;
        assert sellers[i] in sellers;
      }
    }
  }

  /** A reordering of the tallied records still holds one record per seller
      id, each its seller's tally without a bonus. */
  lemma ReorderedTotalsFacts(sellers: seq<Seller>, products: seq<Product>, records: seq<PurchaseRecord>,
                             revenue: RevenueStrategy, sorted: seq<SellerStats>)
    requires multiset(sorted) == multiset(SellerTotals(sellers, products, records, revenue))
    ensures DistinctIds(sorted)
    ensures forall i :: 0 <= i < |sorted| ==>
              && sorted[i].bonus == None
              && sorted[i].id in SellerIndex(sellers)
              && sorted[i] == Tally(sorted[i].id, SellerIndex(sellers)[sorted[i].id], records,
                                    ProductIndex(products), revenue)
              && CountedFromRecords(sorted[i], sellers, products, records, revenue)
    ensures forall id :: HasSeller(sellers, id) <==> exists i :: 0 <= i < |sorted| && sorted[i].id == id
  {
    var totals := SellerTotals(sellers, products, records, revenue);
    TotalsFacts(sellers, products, records, revenue);
    SellerIndexShape(sellers);
    DistinctIdsPermutation(totals, sorted);
    forall i | 0 <= i < |sorted|
      ensures exists k :: 0 <= k < |totals| && totals[k] == sorted[i]
      ensures CountedFromRecords(sorted[i], sellers, products, records, revenue)
    {
      assert sorted[i] in multiset(totals);
      var id := sorted[i].id;
      TallyFromZero(id, SellerIndex(sellers)[id], records, ProductIndex(products), revenue);
    }
    forall id ensures HasSeller(sellers, id) <==> exists i :: 0 <= i < |sorted| && sorted[i].id == id {
      if HasSeller(sellers, id) {
        var k :| 0 <= k < |Ids(sellers)| && Ids(sellers)[k] == id;
        assert totals[k] in multiset(sorted);
        var i :| 0 <= i < |sorted| && sorted[i] == totals[k];
      }
    }
  }

  /** Writing the bonuses keeps every other field of the sorted records. */
  lemma BonusesKeepTallies(sellers: seq<Seller>, products: seq<Product>, records: seq<PurchaseRecord>,
                           revenue: RevenueStrategy, bonusFor: BonusStrategy,
                           sorted: seq<SellerStats>, ranked: seq<SellerStats>)
    requires DistinctIds(sorted)
    requires forall i :: 0 <= i < |sorted| ==>
               sorted[i].bonus == None && CountedFromRecords(sorted[i], sellers, products, records, revenue)
    requires forall id :: HasSeller(sellers, id) <==> exists i :: 0 <= i < |sorted| && sorted[i].id == id
    requires |ranked| == |sorted|
    requires forall i :: 0 <= i < |sorted| ==>
               ranked[i] == sorted[i].(bonus := Some(bonusFor(i, sorted[i].profit, sorted[i])))
    ensures Unranked(ranked) == sorted
    ensures DistinctIds(ranked)
    ensures forall id :: HasSeller(sellers, id) <==> exists i :: 0 <= i < |ranked| && ranked[i].id == id
    ensures forall i :: 0 <= i < |ranked| ==> CountedFromRecords(ranked[i], sellers, products, records, revenue)
    ensures forall i :: 0 <= i < |ranked| ==>
              ranked[i].bonus == Some(bonusFor(i, ranked[i].profit, ranked[i].(bonus := None)))
    ensures SumSalesCount(ranked) == SumSalesCount(sorted)
  {
    forall i | 0 <= i < |ranked|
      ensures ranked[i].(bonus := None) == sorted[i]
      ensures ranked[i].id == sorted[i].id
      ensures CountedFromRecords(ranked[i], sellers, products, records, revenue)
    {
      assert ranked[i] == sorted[i].(bonus := ranked[i].bonus);
    }
    SumSalesCountPointwise(ranked, sorted);
  }

  /** The facts that tie the ranked output to the tallied records. */
  lemma RankedFacts(sellers: seq<Seller>, products: seq<Product>, records: seq<PurchaseRecord>,
                    revenue: RevenueStrategy, bonusFor: BonusStrategy,
                    totals: seq<SellerStats>, sorted: seq<SellerStats>, ranked: seq<SellerStats>)
    requires totals == SellerTotals(sellers, products, records, revenue)
    requires sorted == SortByProfit(totals)
    requires |ranked| == |sorted|
    requires forall i :: 0 <= i < |sorted| ==>
               ranked[i] == sorted[i].(bonus := Some(bonusFor(i, sorted[i].profit, sorted[i])))
    ensures Analyzed(sellers, products, records, revenue, bonusFor, ranked)
  {
    SortByProfitCorrect(totals);
    TotalsFacts(sellers, products, records, revenue);
    ReorderedTotalsFacts(sellers, products, records, revenue, sorted);
    BonusesKeepTallies(sellers, products, records, revenue, bonusFor, sorted, ranked);
  }
}
