/** The two reference strategies defined next to the analysis
    (src/main.js:7-17). The analysis itself only calls the strategies it is
    handed in its options bundle. */
module Strategies {
  import opened Wrappers
  import opened SalesData

  /** The discount of an item as a fraction; an absent discount counts as 0. */
  function DiscountOf(item: Item): real
  {
    match item.discount
    case None => 0.0
    case Some(d) => d
  }

  /** Profit on one item: the discounted retail value of the quantity sold
      minus its purchase cost. */
  function CalculateSimpleRevenue(purchase: Item, product: Product): real
  {
    var revenue := product.retail_price * purchase.quantity as real * (1.0 - DiscountOf(purchase));
    var cost := product.purchase_price * purchase.quantity as real;
    revenue - cost
  }

  /** The reference bonus: 10% of the profit for rank 0, 5% for rank 1 and
      2% for every later rank. */
  function CalculateBonusByProfit(index: nat, totalProfit: real, seller: SellerStats): real
  {
    if index == 0 then totalProfit * 0.1
    else if index == 1 then totalProfit * 0.05
    else totalProfit * 0.02
  }

  /** The reference revenue is the quantity times the unit margin: the
      discounted retail price minus the purchase price. Without a discount
      the unit margin is retail price minus purchase price. */
  lemma SimpleRevenueIsUnitMarginTimesQuantity(purchase: Item, product: Product)
    ensures CalculateSimpleRevenue(purchase, product)
      == purchase.quantity as real
         * (product.retail_price * (1.0 - DiscountOf(purchase)) - product.purchase_price)
    ensures purchase.discount == None
      ==> CalculateSimpleRevenue(purchase, product)
          == purchase.quantity as real * (product.retail_price - product.purchase_price)
  {
  }

  /** Selling a quantity a + b in one item earns the same as selling a and b
      in two items with the same price and discount. */
  lemma SimpleRevenueSplits(purchase: Item, product: Product, a: int, b: int)
    ensures CalculateSimpleRevenue(purchase.(quantity := a + b), product)
      == CalculateSimpleRevenue(purchase.(quantity := a), product)
         + CalculateSimpleRevenue(purchase.(quantity := b), product)
  {
  }

  /** With non-negative profits, a better rank and a larger profit never earn
      a smaller reference bonus. */
  lemma BonusByProfitOrdered(i: nat, j: nat, p: real, q: real, s: SellerStats, t: SellerStats)
    requires i <= j && p >= q >= 0.0
    ensures CalculateBonusByProfit(i, p, s) >= CalculateBonusByProfit(j, q, t)
  {
  }

  /** The reference bonus is between 2% and 10% of a non-negative profit,
      and it does not depend on the seller record. */
  lemma BonusByProfitBounds(index: nat, p: real, s: SellerStats, t: SellerStats)
    requires p >= 0.0
    ensures p * 0.02 <= CalculateBonusByProfit(index, p, s) <= p * 0.1
    ensures CalculateBonusByProfit(index, p, s) == CalculateBonusByProfit(index, p, t)
  {
  }
}
