/** Ranking the sellers and writing their bonuses (src/main.js:63-67).
    `Array.prototype.sort` is stable, so `sellers.sort((a, b) => b.profit -
    a.profit)` is modelled by a stable insertion sort on profit, descending. */
module Ranking {
  import opened Wrappers
  import opened SalesData
  import opened Strategies

  /** Profits never increase along the sequence. */
  predicate SortedByProfit(s: seq<SellerStats>)
  {
    forall i, j :: 0 <= i < j < |s| ==> s[i].profit >= s[j].profit
  }

  /** Places a record in front of the first record whose profit is not larger. */
  function InsertByProfit(x: SellerStats, s: seq<SellerStats>): seq<SellerStats>
  {
    if s == [] || x.profit >= s[0].profit then [x] + s
    else [s[0]] + InsertByProfit(x, s[1..])
  }

  /** The records ordered by profit, descending, records of equal profit
      keeping their relative order. */
  function SortByProfit(s: seq<SellerStats>): seq<SellerStats>
  {
    if s == [] then [] else InsertByProfit(s[0], SortByProfit(s[1..]))
  }

  /** The records with a given profit, in their order. */
  function WithProfit(s: seq<SellerStats>, p: real): seq<SellerStats>
  {
    if s == [] then []
    else (if s[0].profit == p then [s[0]] else []) + WithProfit(s[1..], p)
  }

  /** The sum of the sales counts of the records. */
  function SumSalesCount(s: seq<SellerStats>): nat
  {
    if s == [] then 0 else s[0].sales_count + SumSalesCount(s[1..])
  }

  lemma {:induction false} InsertByProfitPermutes(x: SellerStats, s: seq<SellerStats>)
    ensures multiset(InsertByProfit(x, s)) == multiset([x] + s)
    ensures SumSalesCount(InsertByProfit(x, s)) == x.sales_count + SumSalesCount(s)
  {
    if s != [] && x.profit < s[0].profit {
      InsertByProfitPermutes(x, s[1..]);
      assert s == [s[0]] + s[1..];
      assert ([x] + s)[1..] == s;
      assert ([x] + s[1..])[1..] == s[1..];
      assert ([s[0]] + InsertByProfit(x, s[1..]))[1..] == InsertByProfit(x, s[1..]);
    } else {
      assert ([x] + s)[1..] == s;
    }
  }

  lemma {:induction false} InsertByProfitBounded(x: SellerStats, s: seq<SellerStats>, bound: real)
    requires x.profit <= bound
    requires forall k :: 0 <= k < |s| ==> s[k].profit <= bound
    ensures forall k :: 0 <= k < |InsertByProfit(x, s)| ==> InsertByProfit(x, s)[k].profit <= bound
  {
    if s != [] && x.profit < s[0].profit {
      InsertByProfitBounded(x, s[1..], bound);
    }
  }

  lemma {:induction false} InsertByProfitSorted(x: SellerStats, s: seq<SellerStats>)
    requires SortedByProfit(s)
    ensures SortedByProfit(InsertByProfit(x, s))
  {
    if s != [] && x.profit < s[0].profit {
      var t := InsertByProfit(x, s[1..]);
      InsertByProfitSorted(x, s[1..]);
      InsertByProfitBounded(x, s[1..], s[0].profit);
      assert InsertByProfit(x, s) == [s[0]] + t;
    }
  }

  lemma {:induction false} InsertByProfitStable(x: SellerStats, s: seq<SellerStats>, p: real)
    ensures WithProfit(InsertByProfit(x, s), p) == WithProfit([x] + s, p)
  {
    if s != [] && x.profit < s[0].profit {
      var t := InsertByProfit(x, s[1..]);
      InsertByProfitStable(x, s[1..], p);
      assert ([s[0]] + t)[1..] == t;
      assert ([x] + s)[1..] == s;
      assert ([x] + s[1..])[1..] == s[1..];
    }
  }

  lemma {:induction false} SortByProfitPermutes(s: seq<SellerStats>)
    ensures multiset(SortByProfit(s)) == multiset(s)
    ensures |SortByProfit(s)| == |s|
    ensures SumSalesCount(SortByProfit(s)) == SumSalesCount(s)
  {
    if s != [] {
      var t := SortByProfit(s[1..]);
      SortByProfitPermutes(s[1..]);
      InsertByProfitPermutes(s[0], t);
      assert s == [s[0]] + s[1..];
      assert |SortByProfit(s)| == |multiset(SortByProfit(s))|;
    }
  }

  lemma {:induction false} SortByProfitSorted(s: seq<SellerStats>)
    ensures SortedByProfit(SortByProfit(s))
  {
    if s != [] {
      SortByProfitSorted(s[1..]);
      InsertByProfitSorted(s[0], SortByProfit(s[1..]));
    }
  }

  lemma {:induction false} SortByProfitStable(s: seq<SellerStats>, p: real)
    ensures WithProfit(SortByProfit(s), p) == WithProfit(s, p)
  {
    if s != [] {
      var t := SortByProfit(s[1..]);
      SortByProfitStable(s[1..], p);
      InsertByProfitStable(s[0], t, p);
      assert ([s[0]] + t)[1..] == t;
    }
  }

  /** The sorted records are a permutation of the input, ordered by profit
      descending, with records of equal profit in their input order; sales
      counts add up to the same total. */
  lemma SortByProfitCorrect(s: seq<SellerStats>)
    ensures multiset(SortByProfit(s)) == multiset(s)
    ensures |SortByProfit(s)| == |s|
    ensures SortedByProfit(SortByProfit(s))
    ensures forall p :: WithProfit(SortByProfit(s), p) == WithProfit(s, p)
    ensures SumSalesCount(SortByProfit(s)) == SumSalesCount(s)
  {
    SortByProfitPermutes(s);
    SortByProfitSorted(s);
    forall p ensures WithProfit(SortByProfit(s), p) == WithProfit(s, p) {
      SortByProfitStable(s, p);
    }
  }

  /** The bonus loop: the record at position idx receives the strategy's
      result for (idx, its profit, itself); nothing else changes. */
  method AssignBonuses(sellers: seq<SellerStats>, bonusFor: BonusStrategy) returns (ranked: seq<SellerStats>)
    ensures |ranked| == |sellers|
    ensures forall i :: 0 <= i < |sellers| ==>
              ranked[i] == sellers[i].(bonus := Some(bonusFor(i, sellers[i].profit, sellers[i])))
  {
    ranked := sellers;
    for idx := 0 to |ranked|
      invariant |ranked| == |sellers|
      invariant forall i :: 0 <= i < idx ==>
                  ranked[i] == sellers[i].(bonus := Some(bonusFor(i, sellers[i].profit, sellers[i])))
      invariant forall i :: idx <= i < |sellers| ==> ranked[i] == sellers[i]
    {
      var seller := ranked[idx];
      ranked := ranked[idx := seller.(bonus := Some(bonusFor(idx, seller.profit, seller)))];
    }
  }

  /** With the reference bonus strategy, a ranking by profit in which no
      profit is negative pays bonuses that never increase down the ranking. */
  lemma ReferenceBonusesNonIncreasing(ranked: seq<SellerStats>)
    requires SortedByProfit(ranked)
    requires forall i :: 0 <= i < |ranked| ==> ranked[i].profit >= 0.0
    requires forall i :: 0 <= i < |ranked| ==>
               ranked[i].bonus == Some(CalculateBonusByProfit(i, ranked[i].profit, ranked[i].(bonus := None)))
    ensures forall i, j :: 0 <= i < j < |ranked| ==> ranked[i].bonus.value >= ranked[j].bonus.value
  {
  }
}
