/** Building the seller index and the product index (src/main.js:34-47).
    A JavaScript Map keeps its keys in the order they were first set and
    lets a later `set` of the same key replace the value in place; the seller
    index is therefore modelled as the key order plus a map. */
module Indexing {
  import opened Wrappers
  import opened SalesData

  /** The record built for a seller before any purchase is counted. */
  function FreshStats(seller: Seller): SellerStats
  {
    SellerStats(seller.id, seller.first_name + " " + seller.last_name, 0.0, 0, map[], None)
  }

  /** The distinct seller ids in the order of their first occurrence. */
  function Ids(sellers: seq<Seller>): seq<SellerId>
  {
    if sellers == [] then []
    else
      var ids := Ids(sellers[..|sellers| - 1]);
      var id := sellers[|sellers| - 1].id;
      if id in ids then ids else ids + [id]
  }

  /** The seller index after every seller has been set, in input order. */
  function SellerIndex(sellers: seq<Seller>): map<SellerId, SellerStats>
  {
    if sellers == [] then map[]
    else
      var last := sellers[|sellers| - 1];
      SellerIndex(sellers[..|sellers| - 1])[last.id := FreshStats(last)]
  }

  /** The product index after every product has been set, in input order. */
  function ProductIndex(products: seq<Product>): map<Sku, Product>
  {
    if products == [] then map[]
    else
      var last := products[|products| - 1];
      ProductIndex(products[..|products| - 1])[last.sku := last]
  }

  predicate Distinct(ids: seq<SellerId>)
  {
    forall k, l :: 0 <= k < l < |ids| ==> ids[k] != ids[l]
  }

  predicate HasSeller(sellers: seq<Seller>, id: SellerId)
  {
    exists i :: 0 <= i < |sellers| && sellers[i].id == id
  }

  /** The key order lists every seller id exactly once, and the index holds
      exactly those ids, each mapped to a fresh record carrying the same id:
      zero profit, zero sales, nothing sold and no bonus. */
  lemma {:induction false} SellerIndexShape(sellers: seq<Seller>)
    ensures Distinct(Ids(sellers))
    ensures forall id :: id in Ids(sellers) <==> HasSeller(sellers, id)
    ensures forall id :: id in SellerIndex(sellers) <==> HasSeller(sellers, id)
    ensures forall id :: id in SellerIndex(sellers) ==>
              var stats := SellerIndex(sellers)[id];
              && stats.id == id && stats.profit == 0.0 && stats.sales_count == 0
              && stats.products_sold == map[] && stats.bonus == None
  {
    if sellers != [] {
      var init := sellers[..|sellers| - 1];
      SellerIndexShape(init);
      forall id
        ensures HasSeller(sellers, id) <==> HasSeller(init, id) || id == sellers[|sellers| - 1].id
      {
        if HasSeller(init, id) {
          var i :| 0 <= i < |init| && init[i].id == id;
          assert sellers[i].id == id;
        }
        if HasSeller(sellers, id) {
          var i :| 0 <= i < |sellers| && sellers[i].id == id;
          if i < |init| { assert init[i].id == id; }
        }
      }
    }
  }

  /** Last write wins: the index holds, for an id, the fresh record of the
      last seller with that id. Every seller that has no matching purchase
      keeps this record, with its name built as first name, a space, and the
      last name. */
  lemma {:induction false} SellerIndexLastWins(sellers: seq<Seller>, i: nat)
    requires i < |sellers|
    requires forall j :: i < j < |sellers| ==> sellers[j].id != sellers[i].id
    ensures sellers[i].id in SellerIndex(sellers)
    ensures SellerIndex(sellers)[sellers[i].id] == FreshStats(sellers[i])
    ensures SellerIndex(sellers)[sellers[i].id].name == sellers[i].first_name + " " + sellers[i].last_name
  {
    if i < |sellers| - 1 {
      SellerIndexLastWins(sellers[..|sellers| - 1], i);
    }
  }

  /** An id takes its place in the key order when it is first seen: the order
      for a prefix of the sellers is a prefix of the order for all of them. */
  lemma {:induction false} IdsGrowByPrefix(sellers: seq<Seller>, n: nat)
    requires n <= |sellers|
    ensures Ids(sellers[..n]) <= Ids(sellers)
  {
    if n < |sellers| {
      var init := sellers[..|sellers| - 1];
      IdsGrowByPrefix(init, n);
      assert init[..n] == sellers[..n];
    } else {
      assert sellers[..n] == sellers;
    }
  }

  /** Last write wins for products: the index maps a SKU to the last product
      with that SKU. */
  lemma {:induction false} ProductIndexLastWins(products: seq<Product>, i: nat)
    requires i < |products|
    requires forall j :: i < j < |products| ==> products[j].sku != products[i].sku
    ensures products[i].sku in ProductIndex(products)
    ensures ProductIndex(products)[products[i].sku] == products[i]
  {
    if i < |products| - 1 {
      ProductIndexLastWins(products[..|products| - 1], i);
    }
  }

  /** The product index holds exactly the SKUs of the products, each mapped
      to a product with that SKU. */
  lemma {:induction false} ProductIndexKeys(products: seq<Product>, sku: Sku)
    ensures sku in ProductIndex(products) <==> exists i :: 0 <= i < |products| && products[i].sku == sku
    ensures sku in ProductIndex(products) ==> ProductIndex(products)[sku].sku == sku
  {
    if products != [] {
      var init := products[..|products| - 1];
      ProductIndexKeys(init, sku);
      if exists i :: 0 <= i < |init| && init[i].sku == sku {
        var i :| 0 <= i < |init| && init[i].sku == sku;
        assert products[i].sku == sku;
      }
      if exists i :: 0 <= i < |products| && products[i].sku == sku {
        var i :| 0 <= i < |products| && products[i].sku == sku;
        if i < |init| { assert init[i].sku == sku; }
      }
    }
  }

  /** The seller index is filled one seller at a time (src/main.js:34-43). */
  method IndexSellers(sellers: seq<Seller>) returns (order: seq<SellerId>, index: map<SellerId, SellerStats>)
    ensures order == Ids(sellers)
    ensures index == SellerIndex(sellers)
  {
    order, index := [], map[];
    for i := 0 to |sellers|
      invariant order == Ids(sellers[..i])
      invariant index == SellerIndex(sellers[..i])
      invariant forall id :: id in order <==> id in index
    {
      assert sellers[..i + 1][..i] == sellers[..i];
      var seller := sellers[i];
      if seller.id !in index {
        order := order + [seller.id];
      }
      index := index[seller.id := FreshStats(seller)];
    }
    assert sellers[..|sellers|] == sellers;
  }

  /** The product index is filled one product at a time (src/main.js:44-47). */
  method IndexProducts(products: seq<Product>) returns (catalog: map<Sku, Product>)
    ensures catalog == ProductIndex(products)
  {
    catalog := map[];
    for i := 0 to |products|
      invariant catalog == ProductIndex(products[..i])
    {
      assert products[..i + 1][..i] == products[..i];
      catalog := catalog[products[i].sku := products[i]];
    }
    assert products[..|products|] == products;
  }
}
