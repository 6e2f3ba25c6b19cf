# Sales analysis: a Dafny model of `analyzeSalesData`

This project models the sales-bonus analysis of `src/main.js`. The function
`analyzeSalesData(data, options)` does five things:

- It checks the data bundle (sellers, products, purchase records) and the options bundle.
- It indexes the sellers by id and the products by SKU.
- It walks every purchase record and its items, adding to each known seller's
  `sales_count`, `profit` and `products_sold`.
- It sorts the sellers by profit, descending.
- It writes each seller's `bonus` from its rank.

The file also defines two reference strategies: `calculateSimpleRevenue`,
the profit on one item, and `calculateBonusByProfit`, 10%, 5% or 2% of the
profit by rank.

Modules, in the order of the analysis:

- `SalesData` (sales_data.dfy): the input records, the per-seller `SellerStats`
  record and the two strategy types.
- `Strategies` (strategies.dfy): the two reference strategies and their properties.
- `Indexing` (indexing.dfy): the seller index and the product index. A JavaScript
  `Map` keeps each key at the place where it was first set, and a later `set` of
  the same key replaces the value. The seller index is therefore modelled as a
  key order plus a map.
- `Accumulation` (accumulation.dfy): the two nested loops over records and items.
  They are proved to compute `Tally`, a step-by-step definition. `TallySums` then
  proves that `Tally` gives the counts and sums over the input sequences.
- `Ranking` (ranking.dfy): the stable sort by profit and the bonus loop.
- `Analysis` (analysis.dfy): the whole function and its contract.

What `src/main.js` computes, in short:

- Each returned record has `id`, `name`, `profit`, `sales_count`,
  `products_sold` and `bonus`. There is no revenue field, no top-products list,
  and no rounding of any amount.
- The reference revenue strategy is `retail_price * quantity * (1 - (discount || 0))`
  minus `purchase_price * quantity` (src/main.js:8-10). The discount is a fraction of 1.
- The reference bonus strategy pays 10% of the profit at rank 0, 5% at rank 1
  and 2% at every later rank (src/main.js:14-16).
- The revenue strategy's result is added to `profit` as it is. The analysis
  subtracts no cost of its own.
- The bonus strategy is called with `(rank, the seller's profit, the seller's record)`
  (src/main.js:66).
- The analysis uses only the strategies from its options bundle, never the
  reference definitions.

Amounts are exact `real` numbers and quantities are unbounded `int`s. A
field that is missing, or that is not an array or not a function, is a
`None` of an `Option`. The two errors the source throws are the values
`InvalidInput` and `MissingStrategies` of a `Result`.

## Model

| member | source | states |
|---|---|---|
| `Strategies.SimpleRevenueIsUnitMarginTimesQuantity` | src/main.js:7-11 | The reference revenue is the quantity times the unit margin: retail price times (1 - discount) minus purchase price. An absent discount counts as 0. |
| `Strategies.SimpleRevenueSplits` | src/main.js:7-11 | The reference revenue is additive in the quantity: one item of quantity a + b earns what two items of a and b earn. |
| `Strategies.BonusByProfitOrdered` | src/main.js:13-17 | For non-negative profits, a better-or-equal rank with a larger-or-equal profit never gets a smaller reference bonus. |
| `Strategies.BonusByProfitBounds` | src/main.js:13-17 | The reference bonus lies between 2% and 10% of a non-negative profit and ignores the seller argument. |
| `Indexing.SellerIndexShape` | src/main.js:34-43 | The key order lists each distinct seller id exactly once. The index holds exactly the input's seller ids. Each id maps to a fresh record with that id, zero profit and sales, an empty `products_sold` and no bonus. |
| `Indexing.SellerIndexLastWins` | src/main.js:35-43 | A duplicate id is overwritten: the index holds the fresh record of the last seller with that id. Its name is first name, a space, last name. |
| `Indexing.IdsGrowByPrefix` | src/main.js:34-36 | An id takes its place in the key order when first seen: the key order of any prefix of the sellers is a prefix of the final key order. |
| `Indexing.ProductIndexLastWins` | src/main.js:44-47 | The product index maps a SKU to the last product with that SKU. |
| `Indexing.ProductIndexKeys` | src/main.js:44-47 | The product index holds exactly the input's SKUs, each mapped to a product with that SKU. |
| `Indexing.IndexSellers` | src/main.js:34-43 | The seller-index loop builds exactly the key order and the index that the lemmas above describe. |
| `Indexing.IndexProducts` | src/main.js:44-47 | The product-index loop builds exactly the product index that the lemmas above describe. |
| `Accumulation.CountItemsSums` | src/main.js:52-61 | After a run of items, profit has grown by the strategy's results over the known-SKU items. `products_sold` has gained an entry for each known SKU among them, grown by that SKU's quantities. Nothing else changes. |
| `Accumulation.TallySums` | src/main.js:48-62 | After all records, a seller's `sales_count` has grown by the number of its records. Its profit has grown by the sum over their known-SKU items. Its `products_sold` has an entry per known SKU it sold, grown by the quantity sold. Id, name and bonus do not change. |
| `Accumulation.TallyFromZero` | src/main.js:48-62 | From the fresh record, the counters are exactly those counts and sums. In particular the `products_sold` keys are exactly the known SKUs the seller sold. |
| `Accumulation.SellerWithoutRecords` | src/main.js:48-51 | A seller with no purchase records keeps sales count 0, profit 0 and no sold SKU. |
| `Accumulation.ForeignRecordIgnored` | src/main.js:49-50 | A record whose `seller_id` is another seller's, or unknown, changes nothing in a seller's record, wherever it stands. |
| `Accumulation.UnknownItemIgnored` | src/main.js:53-54 | An item with an unknown SKU changes nothing in the seller's record, wherever it stands among the items. |
| `Accumulation.UnknownSkuSkipped` | src/main.js:52-56 | An item with an unknown SKU adds nothing to the item sums. The items before and after it in the same record are still counted. |
| `Accumulation.SalesCountsAddUp` | src/main.js:48-51 | Summed over distinct sellers, the sales counts equal the number of records attributed to one of them. |
| `Accumulation.AccumulateItems` | src/main.js:52-61 | The item loop computes exactly `CountItems`, which includes the reset of a missing or zero entry to 0 before the quantity is added. |
| `Accumulation.AccumulateRecords` | src/main.js:48-62 | The record loop skips records of unknown sellers, adds no seller and removes none. It leaves every seller with its `Tally` over all records. |
| `Ranking.SortByProfitCorrect` | src/main.js:63-64 | The sort returns a permutation of its input, ordered by profit descending. Records of equal profit keep their input order. The sum of the sales counts does not change. |
| `Ranking.AssignBonuses` | src/main.js:65-67 | The record at rank i gets `bonus = strategy(i, its profit, itself)`. No other field changes. |
| `Ranking.ReferenceBonusesNonIncreasing` | src/main.js:13-17 | With the reference bonus strategy and no negative profit, bonuses never increase down a profit ranking. |
| `Analysis.AnalyzeSalesData` | src/main.js:19-69 | A missing or non-array data field, or an empty array, gives `InvalidInput`. Otherwise a missing options bundle or strategy gives `MissingStrategies`. Otherwise it returns one record per distinct seller id, with distinct ids. Each record holds its seller's name, record count, profit sum and per-SKU quantities. The records are a stable sort by profit descending of the tallied records in first-seen id order. Rank i's bonus is the strategy's result for (i, profit, record). The sales counts add up to the number of records with a known seller. |

## Left out

- JavaScript number semantics: floating-point rounding in `+=` and `*`, and NaN. A NaN profit would make the comparator `b.profit - a.profit` inconsistent; that is not modelled. Amounts are exact reals.
- The text of the two thrown errors: only which of the two errors is thrown is modelled.
- Dynamic typing: `Array.isArray` and `typeof ... === 'function'` become `Option` values. A `purchase_records` entry of a known seller without an `items` array, which throws a `TypeError` in the source, is not modelled: items are always a sequence.
- `discount || 0`: only an absent discount becomes 0. Other falsy values (NaN, the empty string) do not exist in the typed model.
- `products_sold` is a plain JavaScript object. Keys are coerced to strings, and SKUs that name `Object.prototype` members (such as `constructor`) behave differently. Neither is modelled: SKUs are strings and the map is a plain map.
- Map keys compared by SameValueZero across types (`1` versus `"1"`): ids and SKUs are strings.
- Object identity: in the source, the seller index and the returned array share the same mutable objects. The model keeps values: each seller's record is reassigned in a map, and the sorted array is a new sequence. Only the returned array is observable, so nothing visible is lost.
- `Array.prototype.sort` is the engine's own stable sort. It is modelled by a stable insertion sort on a sequence, which gives the same result, not by the engine's algorithm or an in-place array.
- Strategies are modelled as total, pure functions. Exceptions or side effects raised by a caller's strategy are not modelled.
- Input fields that the analysis never reads. The source passes the whole item and product objects to the revenue strategy (src/main.js:55). The model keeps only `sku`, `quantity`, `sale_price` and `discount` on items, and only `sku`, `purchase_price` and `retail_price` on products. A caller's strategy that reads any other field is not modelled. The other fields of records and sellers are omitted as well.
- The key order of the returned `products_sold` object: JavaScript lists integer-like keys first, in ascending order, and then the other keys in insertion order. The model's map has no key order.
