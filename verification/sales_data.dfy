/** The records the analysis reads and the per-seller statistics it builds.
    Amounts are exact reals and quantities unbounded integers. */
module SalesData {
  import opened Wrappers

  type SellerId = string
  type Sku = string

  /** An input seller. */
  datatype Seller = Seller(id: SellerId, first_name: string, last_name: string)

  /** An input product card: its cost and its list price. */
  datatype Product = Product(sku: Sku, purchase_price: real, retail_price: real)

  /** One line of a purchase; `discount` is None when the field is absent. */
  datatype Item = Item(sku: Sku, quantity: int, sale_price: real, discount: Option<real>)

  /** A purchase record: who sold, and the items sold. */
  datatype PurchaseRecord = PurchaseRecord(seller_id: SellerId, items: seq<Item>)

  /** The input bundle; a None field is a field that is missing or is not an array. */
  datatype Dataset = Dataset(
    sellers: Option<seq<Seller>>,
    products: Option<seq<Product>>,
    purchase_records: Option<seq<PurchaseRecord>>)

  /** The record the analysis keeps per seller and returns; `bonus` is None
      until the ranking step writes it. */
  datatype SellerStats = SellerStats(
    id: SellerId,
    name: string,
    profit: real,
    sales_count: nat,
    products_sold: map<Sku, int>,
    bonus: Option<real>)

  /** The revenue strategy: the profit of one item, given its product card. */
  type RevenueStrategy = (Item, Product) -> real

  /** The bonus strategy: rank index, the seller's profit, and the seller. */
  type BonusStrategy = (nat, real, SellerStats) -> real

  /** The options bundle; a None field is a strategy that is missing or is not a function. */
  datatype Options = Options(
    calculateSimpleRevenue: Option<RevenueStrategy>,
    calculateBonusByProfit: Option<BonusStrategy>)

  /** The two errors the analysis throws. */
  datatype AnalysisError =
    | InvalidInput        // the data bundle is missing or malformed
    | MissingStrategies   // the options bundle lacks a strategy
}
