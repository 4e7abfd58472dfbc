/**
 * The fuel comparison of `handlePredict`: every catalog entry priced on
 * the selected date, sorted by ascending price with `Array.prototype.sort`,
 * which is stable, so entries of equal price keep catalog order.
 */
module Ranking {
  import opened Calendar
  import opened Catalog
  import opened Pricing

  /** A catalog entry with its price on one date (`{...f, price}`). */
  datatype FuelComparison = FuelComparison(fuel: FuelType, price: int)

  /** `FUEL_TYPES.map(f => ({...f, price: generatePrice(f.basePrice, f.variance, date)}))`. */
  function PricedCatalog(sine: SineOffset, date: int): seq<FuelComparison> {
    seq(|FuelTypes|, i requires 0 <= i < |FuelTypes| =>
      FuelComparison(FuelTypes[i], GeneratePrice(sine, FuelTypes[i].basePrice, FuelTypes[i].variance, date)))
  }

  predicate SortedByPrice(s: seq<FuelComparison>) {
    forall i, j :: 0 <= i < j < |s| ==> s[i].price <= s[j].price
  }

  /** The entries of `s` whose price is `p`, in their order in `s`. */
  function WithPrice(s: seq<FuelComparison>, p: int): seq<FuelComparison> {
    if s == [] then []
    else (if s[0].price == p then [s[0]] else []) + WithPrice(s[1..], p)
  }

  /** The catalog entries of `s`, in order. */
  function Fuels(s: seq<FuelComparison>): seq<FuelType> {
    if s == [] then [] else [s[0].fuel] + Fuels(s[1..])
  }

  /** Insert `x` into `s` before the first entry that is not cheaper than `x`. */
  function Insert(x: FuelComparison, s: seq<FuelComparison>): seq<FuelComparison> {
    if s == [] then [x]
    else if x.price <= s[0].price then [x] + s
    else [s[0]] + Insert(x, s[1..])
  }

  /**
   * A stable sort by ascending price (comparator `a.price - b.price`): each
   * entry goes in front of the later entries of the same price.
   */
  function SortByPrice(s: seq<FuelComparison>): seq<FuelComparison> {
    if s == [] then [] else Insert(s[0], SortByPrice(s[1..]))
  }

  /** The `fuelComparisons` of a prediction. */
  function FuelComparisons(sine: SineOffset, date: int): seq<FuelComparison> {
    SortByPrice(PricedCatalog(sine, date))
  }

  /** The cheapest card reads the first entry. */
  function Cheapest(c: seq<FuelComparison>): FuelComparison
    requires c != []
  {
    c[0]
  }

  /** The most-expensive card reads the last entry. */
  function MostExpensive(c: seq<FuelComparison>): FuelComparison
    requires c != []
  {
    c[|c| - 1]
  }

  /** The rank shown beside entry `i` (`index + 1`). */
  function Rank(i: nat): nat {
    i + 1
  }

  lemma {:induction false} InsertSorted(x: FuelComparison, s: seq<FuelComparison>)
    requires SortedByPrice(s)
    ensures SortedByPrice(Insert(x, s))
    ensures |Insert(x, s)| == |s| + 1
    ensures Insert(x, s) != [] && (Insert(x, s)[0] == x || Insert(x, s)[0] == s[0])
  {
    if s != [] && x.price > s[0].price {
      InsertSorted(x, s[1..]);
    }
  }

  lemma WithPriceCons(x: FuelComparison, s: seq<FuelComparison>, p: int)
    ensures WithPrice([x] + s, p) == (if x.price == p then [x] else []) + WithPrice(s, p)
  {
    assert ([x] + s)[1..] == s;
  }

  lemma {:induction false} InsertPermutes(x: FuelComparison, s: seq<FuelComparison>)
    ensures multiset(Insert(x, s)) == multiset(s) + multiset{x}
  {
    if s != [] && x.price > s[0].price {
      InsertPermutes(x, s[1..]);
      assert s == [s[0]] + s[1..];
    }
  }

  /** Inserting `x` adds it in front of the entries of its own price and leaves the other prices alone. */
  lemma {:induction false} InsertWithPrice(x: FuelComparison, s: seq<FuelComparison>, p: int)
    ensures WithPrice(Insert(x, s), p) == (if x.price == p then [x] else []) + WithPrice(s, p)
  {
    if s == [] {
    } else if x.price <= s[0].price {
      WithPriceCons(x, s, p);
    } else {
      var mine := if x.price == p then [x] else [];
      var here := if s[0].price == p then [s[0]] else [];
      calc {
        WithPrice(Insert(x, s), p);
        WithPrice([s[0]] + Insert(x, s[1..]), p);
        { WithPriceCons(s[0], Insert(x, s[1..]), p); }
        here + WithPrice(Insert(x, s[1..]), p);
        { InsertWithPrice(x, s[1..], p); }
        here + (mine + WithPrice(s[1..], p));
        mine + (here + WithPrice(s[1..], p));
        mine + WithPrice(s, p);
      }
    }
  }

  /** `SortByPrice` returns its input sorted by ascending price. */
  lemma {:induction false} SortByPriceSorted(s: seq<FuelComparison>)
    ensures SortedByPrice(SortByPrice(s)) && |SortByPrice(s)| == |s|
  {
    if s != [] {
      SortByPriceSorted(s[1..]);
      InsertSorted(s[0], SortByPrice(s[1..]));
    }
  }

  /** `SortByPrice` permutes its input. */
  lemma {:induction false} SortByPricePermutes(s: seq<FuelComparison>)
    ensures multiset(SortByPrice(s)) == multiset(s)
  {
    if s != [] {
      SortByPricePermutes(s[1..]);
      InsertPermutes(s[0], SortByPrice(s[1..]));
      assert s == [s[0]] + s[1..];
    }
  }

  /** `SortByPrice` is stable: for every price, the entries of that price keep their input order. */
  lemma {:induction false} SortByPriceStable(s: seq<FuelComparison>, p: int)
    ensures WithPrice(SortByPrice(s), p) == WithPrice(s, p)
  {
    if s != [] {
      SortByPriceStable(s[1..], p);
      InsertWithPrice(s[0], SortByPrice(s[1..]), p);
    }
  }

  lemma WithPriceOfHead(s: seq<FuelComparison>)
    ensures s != [] ==> WithPrice(s, s[0].price) != [] && WithPrice(s, s[0].price)[0] == s[0]
  {
  }

  /** A sorted sequence with an entry of price `p` starts at or below `p`. */
  lemma {:induction false} WithPriceBound(s: seq<FuelComparison>, p: int)
    requires SortedByPrice(s) && WithPrice(s, p) != []
    ensures s != [] && s[0].price <= p
  {
    if s != [] && s[0].price != p {
      WithPriceBound(s[1..], p);
    }
  }

  /**
   * A stable sort by price has only one possible result: two sorted
   * sequences that agree, price by price, on which entries they hold and
   * in what order, are equal. So any stable sort of the priced catalog,
   * whatever its algorithm, returns `FuelComparisons`.
   */
  lemma {:induction false} StableSortUnique(a: seq<FuelComparison>, b: seq<FuelComparison>)
    requires SortedByPrice(a) && SortedByPrice(b)
    requires forall p :: WithPrice(a, p) == WithPrice(b, p)
    ensures a == b
    decreases |a|
  {
    WithPriceOfHead(a);
    WithPriceOfHead(b);
    if a == [] || b == [] {
    } else {
      var pa, pb := a[0].price, b[0].price;
      assert WithPrice(a, pa) != [];
      WithPriceBound(b, pa);
      assert WithPrice(b, pb) != [];
      WithPriceBound(a, pb);
      assert WithPrice(a, pa)[0] == a[0] && WithPrice(b, pa)[0] == b[0];
      forall p ensures WithPrice(a[1..], p) == WithPrice(b[1..], p) {
        var head := if pa == p then [a[0]] else [];
        assert WithPrice(a, p) == head + WithPrice(a[1..], p);
        assert WithPrice(b, p) == head + WithPrice(b[1..], p);
        assert WithPrice(a[1..], p) == (head + WithPrice(a[1..], p))[|head|..];
        assert WithPrice(b[1..], p) == (head + WithPrice(b[1..], p))[|head|..];
      }
      StableSortUnique(a[1..], b[1..]);
      assert a == [a[0]] + a[1..] && b == [b[0]] + b[1..];
    }
  }

  lemma {:induction false} FuelsAt(s: seq<FuelComparison>)
    ensures |Fuels(s)| == |s| && forall i :: 0 <= i < |s| ==> Fuels(s)[i] == s[i].fuel
  {
    if s != [] {
      FuelsAt(s[1..]);
    }
  }

  /**
   * The fuel comparison is a stable sort of the priced catalog: sorted by
   * ascending price, a permutation of the priced catalog (so every catalog
   * entry appears with its `generatePrice` on the date, and nothing else
   * does), and in catalog order within each price.
   */
  lemma FuelComparisonsAreRanked(sine: SineOffset, date: int)
    ensures var c := FuelComparisons(sine, date);
      && |c| == |FuelTypes|
      && SortedByPrice(c)
      && multiset(c) == multiset(PricedCatalog(sine, date))
      && (forall f :: f in FuelTypes ==> FuelComparison(f, GeneratePrice(sine, f.basePrice, f.variance, date)) in c)
      && (forall e :: e in c ==> e.fuel in FuelTypes && e.price == GeneratePrice(sine, e.fuel.basePrice, e.fuel.variance, date))
      && (forall p :: WithPrice(c, p) == WithPrice(PricedCatalog(sine, date), p))
  {
    var s := PricedCatalog(sine, date);
    var c := FuelComparisons(sine, date);
    SortByPriceSorted(s);
    SortByPricePermutes(s);
    forall p ensures WithPrice(c, p) == WithPrice(s, p) {
      SortByPriceStable(s, p);
    }
    forall f | f in FuelTypes
      ensures FuelComparison(f, GeneratePrice(sine, f.basePrice, f.variance, date)) in c
    {
      var i :| 0 <= i < |FuelTypes| && FuelTypes[i] == f;
      assert s[i] in multiset(c);
    }
    forall e | e in c
      ensures e.fuel in FuelTypes && e.price == GeneratePrice(sine, e.fuel.basePrice, e.fuel.variance, date)
    {
      assert e in multiset(s);
    }
  }

  /**
   * Whatever algorithm `Array.prototype.sort` uses, a stable sort of the
   * priced catalog by ascending price equals `FuelComparisons`.
   */
  lemma FuelComparisonsUnique(sine: SineOffset, date: int, r: seq<FuelComparison>)
    requires SortedByPrice(r)
    requires forall p :: WithPrice(r, p) == WithPrice(PricedCatalog(sine, date), p)
    ensures r == FuelComparisons(sine, date)
  {
    FuelComparisonsAreRanked(sine, date);
    StableSortUnique(r, FuelComparisons(sine, date));
  }

  /**
   * The cheapest card shows a catalog entry priced at most every catalog
   * price on the date, and the most-expensive card one priced at least
   * every catalog price.
   */
  lemma CheapestAndMostExpensive(sine: SineOffset, date: int)
    ensures var c := FuelComparisons(sine, date);
      && c != []
      && Cheapest(c).fuel in FuelTypes && MostExpensive(c).fuel in FuelTypes
      && forall f :: f in FuelTypes ==>
           Cheapest(c).price <= GeneratePrice(sine, f.basePrice, f.variance, date) <= MostExpensive(c).price
  {
    FuelComparisonsAreRanked(sine, date);
    SortedExtremes(FuelComparisons(sine, date), sine, date);
  }

  /** The ends of a sorted, priced permutation of the catalog bound every catalog price. */
  lemma SortedExtremes(c: seq<FuelComparison>, sine: SineOffset, date: int)
    requires |c| == |FuelTypes| && SortedByPrice(c)
    requires forall f :: f in FuelTypes ==> FuelComparison(f, GeneratePrice(sine, f.basePrice, f.variance, date)) in c
    requires forall e :: e in c ==> e.fuel in FuelTypes
    ensures c != [] && Cheapest(c).fuel in FuelTypes && MostExpensive(c).fuel in FuelTypes
    ensures forall f :: f in FuelTypes ==>
      Cheapest(c).price <= GeneratePrice(sine, f.basePrice, f.variance, date) <= MostExpensive(c).price
  {
    assert c[0] in c && c[|c| - 1] in c;
    forall f | f in FuelTypes
      ensures Cheapest(c).price <= GeneratePrice(sine, f.basePrice, f.variance, date) <= MostExpensive(c).price
    {
      var e := FuelComparison(f, GeneratePrice(sine, f.basePrice, f.variance, date));
      var k :| 0 <= k < |c| && c[k] == e;
    }
  }

  /** Ranks run 1..4 down the list, and a smaller rank never has a higher price. */
  lemma RanksFollowPrice(sine: SineOffset, date: int)
    ensures var c := FuelComparisons(sine, date);
      && Rank(0) == 1 && Rank(|c| - 1) == |FuelTypes|
      && forall i, j :: 0 <= i < |c| && 0 <= j < |c| && Rank(i) < Rank(j) ==> c[i].price <= c[j].price
  {
    FuelComparisonsAreRanked(sine, date);
  }

  /**
   * In January the sine term vanishes, so the ranking follows the base
   * prices: E10 (1.91), Unleaded 91 (1.95), Special Diesel (2.10),
   * Premium 98 (2.25).
   */
  lemma JanuaryRanking(sine: SineOffset, date: int)
    requires MonthIndex(date) == 0
    ensures Fuels(FuelComparisons(sine, date)) == [FuelTypes[3], FuelTypes[0], FuelTypes[2], FuelTypes[1]]
  {
    var t := TrendOffset(DayOfMonth(date));
    var e0 := FuelComparison(FuelTypes[0], 1950 + t);
    var e1 := FuelComparison(FuelTypes[1], 2250 + t);
    var e2 := FuelComparison(FuelTypes[2], 2100 + t);
    var e3 := FuelComparison(FuelTypes[3], 1910 + t);
    var s := PricedCatalog(sine, date);
    assert s == [e0, e1, e2, e3];
    assert s[3..] == [e3] && s[2..] == [e2, e3] && s[1..] == [e1, e2, e3];
    assert SortByPrice([e3]) == [e3] by {
      assert [e3][1..] == [];
    }
    assert SortByPrice([e2, e3]) == [e3, e2] by {
      assert [e2, e3][1..] == [e3];
      assert Insert(e2, [e3]) == [e3] + Insert(e2, []);
    }
    assert SortByPrice([e1, e2, e3]) == [e3, e2, e1] by {
      assert [e1, e2, e3][1..] == [e2, e3];
      assert [e3, e2][1..] == [e2];
      assert Insert(e1, [e2]) == [e2] + Insert(e1, []);
      assert Insert(e1, [e3, e2]) == [e3] + Insert(e1, [e2]);
    }
    assert SortByPrice(s) == [e3, e0, e2, e1] by {
      assert [e3, e2, e1][1..] == [e2, e1];
      assert Insert(e0, [e2, e1]) == [e0, e2, e1];
      assert Insert(e0, [e3, e2, e1]) == [e3] + Insert(e0, [e2, e1]);
    }
    FuelsAt([e3, e0, e2, e1]);
  }
}
