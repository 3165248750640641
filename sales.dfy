/**
 * The sales aggregator of computeSales.py: one left-to-right pass over the
 * sale records `{Product, Quantity}`, joining each to the price catalogue by
 * product name. A known product adds `price * quantity` to the running total
 * (a negative quantity is a return) and counts as a valid item; an unknown
 * product is skipped with a warning and the pass goes on.
 */
module SalesTotal {
  import opened PriceCatalogue

  /** One record of the sales input; `quantity` may be zero or negative. */
  datatype Sale = Sale(product: string, quantity: real)

  // Specification of the pass, by recursion on the last record, so that the
  // value after a prefix extends to the value after one more record.

  /** What one sale adds to the total: its cost if its product is known, else nothing. */
  function LineCost(sale: Sale, catalogue: Catalogue): real
  {
    if sale.product in catalogue then catalogue[sale.product] * sale.quantity else 0.0
  }

  /** The signed sum of `price * quantity` over the sales whose product is known, in input order. */
  function SumValid(sales: seq<Sale>, catalogue: Catalogue): real
  {
    if sales == [] then 0.0
    else SumValid(sales[..|sales| - 1], catalogue) + LineCost(sales[|sales| - 1], catalogue)
  }

  /** The number of sales whose product is a key of the catalogue. */
  function CountValid(sales: seq<Sale>, catalogue: Catalogue): (n: nat)
    ensures n <= |sales|
  {
    if sales == [] then 0
    else
      var last := sales[|sales| - 1];
      CountValid(sales[..|sales| - 1], catalogue) + (if last.product in catalogue then 1 else 0)
  }

  /** The names of the skipped (unknown) products, one per skipped sale, in input order. */
  function Skipped(sales: seq<Sale>, catalogue: Catalogue): seq<string>
  {
    if sales == [] then []
    else
      var last := sales[|sales| - 1];
      Skipped(sales[..|sales| - 1], catalogue) + (if last.product in catalogue then [] else [last.product])
  }

  /** Positions of the sales whose product is one of `names`. */
  function KnownIndices(sales: seq<Sale>, names: set<string>): set<int>
  {
    set i | 0 <= i < |sales| && sales[i].product in names
  }

  /** The product names of `sales`, in order. */
  function SaleProductNames(sales: seq<Sale>): seq<string>
  {
    seq(|sales|, i requires 0 <= i < |sales| => sales[i].product)
  }

  /** Every sale is either counted or warned about, never both: valid + warnings = all. */
  lemma {:induction false} CountAndSkippedPartition(sales: seq<Sale>, catalogue: Catalogue)
    ensures CountValid(sales, catalogue) + |Skipped(sales, catalogue)| == |sales|
  {
    if sales != [] {
      CountAndSkippedPartition(sales[..|sales| - 1], catalogue);
    }
  }

  /** The valid-item count is the number of positions whose product is known. */
  lemma {:induction false} CountValidIsKnownIndices(sales: seq<Sale>, catalogue: Catalogue)
    ensures CountValid(sales, catalogue) == |KnownIndices(sales, catalogue.Keys)|
  {
    if sales != [] {
      var n := |sales|;
      var init := sales[..n - 1];
      CountValidIsKnownIndices(init, catalogue);
      var tail := if sales[n - 1].product in catalogue then {n - 1} else {};
      assert KnownIndices(sales, catalogue.Keys) == KnownIndices(init, catalogue.Keys) + tail by {
        forall i | 0 <= i < n - 1 ensures init[i] == sales[i] { }
      }
      assert n - 1 !in KnownIndices(init, catalogue.Keys);
    }
  }

  /** The warnings name exactly the products of the skipped sales, and nothing else. */
  lemma {:induction false} SkippedAreUnknown(sales: seq<Sale>, catalogue: Catalogue)
    ensures forall w :: w in Skipped(sales, catalogue) ==> w !in catalogue && w in SaleProductNames(sales)
    ensures forall i :: 0 <= i < |sales| && sales[i].product !in catalogue ==>
              sales[i].product in Skipped(sales, catalogue)
  {
    if sales != [] {
      var n := |sales|;
      var init := sales[..n - 1];
      SkippedAreUnknown(init, catalogue);
      forall w | w in SaleProductNames(init) ensures w in SaleProductNames(sales) {
        var i :| 0 <= i < n - 1 && SaleProductNames(init)[i] == w;
        assert SaleProductNames(sales)[i] == w;
      }
      assert SaleProductNames(sales)[n - 1] == sales[n - 1].product;
      forall i | 0 <= i < n - 1 && sales[i].product !in catalogue
        ensures sales[i].product in Skipped(sales, catalogue)
      {
        assert init[i] == sales[i];
      }
    }
  }

  /** Splitting the input anywhere splits the total, the count and the warnings. */
  lemma {:induction false} Additive(a: seq<Sale>, b: seq<Sale>, catalogue: Catalogue)
    ensures SumValid(a + b, catalogue) == SumValid(a, catalogue) + SumValid(b, catalogue)
    ensures CountValid(a + b, catalogue) == CountValid(a, catalogue) + CountValid(b, catalogue)
    ensures Skipped(a + b, catalogue) == Skipped(a, catalogue) + Skipped(b, catalogue)
  {
    if b == [] {
      assert a + b == a;
    } else {
      var m := |b|;
      Additive(a, b[..m - 1], catalogue);
      assert (a + b)[..|a + b| - 1] == a + b[..m - 1];
      assert (a + b)[|a + b| - 1] == b[m - 1];
    }
  }

  /**
   * A sale of an unknown product, wherever it stands, changes neither the total
   * nor the count; it adds one warning naming its product, and the sales after it
   * are still processed.
   */
  lemma UnknownSaleIsSkipped(a: seq<Sale>, x: Sale, b: seq<Sale>, catalogue: Catalogue)
    requires x.product !in catalogue
    ensures SumValid(a + [x] + b, catalogue) == SumValid(a + b, catalogue)
    ensures CountValid(a + [x] + b, catalogue) == CountValid(a + b, catalogue)
    ensures Skipped(a + [x] + b, catalogue) == Skipped(a, catalogue) + [x.product] + Skipped(b, catalogue)
  {
    Additive(a, [x], catalogue);
    Additive(a + [x], b, catalogue);
    Additive(a, b, catalogue);
    assert [x][..0] == [];
  }

  /**
   * A sale of a known product, wherever it stands, adds `price * quantity` to the
   * total and one to the count; a return (negative quantity) lowers the total by
   * `price * |quantity|`.
   */
  lemma KnownSaleContributes(a: seq<Sale>, x: Sale, b: seq<Sale>, catalogue: Catalogue)
    requires x.product in catalogue
    ensures SumValid(a + [x] + b, catalogue)
            == SumValid(a + b, catalogue) + catalogue[x.product] * x.quantity
    ensures x.quantity < 0.0 ==>
              SumValid(a + [x] + b, catalogue)
              == SumValid(a + b, catalogue) - catalogue[x.product] * (-x.quantity)
    ensures CountValid(a + [x] + b, catalogue) == CountValid(a + b, catalogue) + 1
    ensures Skipped(a + [x] + b, catalogue) == Skipped(a + b, catalogue)
  {
    Additive(a, [x], catalogue);
    Additive(a + [x], b, catalogue);
    Additive(a, b, catalogue);
    assert [x][..0] == [];
  }

  /**
   * No sales give a zero total and no valid items; an empty catalogue makes every
   * sale a skipped one, so the total and the count are zero and there is one
   * warning per sale.
   */
  lemma {:induction false} EmptyInputs(sales: seq<Sale>, catalogue: Catalogue)
    ensures SumValid([], catalogue) == 0.0 && CountValid([], catalogue) == 0
    ensures catalogue == map[] ==>
              && SumValid(sales, catalogue) == 0.0
              && CountValid(sales, catalogue) == 0
              && Skipped(sales, catalogue) == SaleProductNames(sales)
  {
    if sales != [] && catalogue == map[] {
      var init := sales[..|sales| - 1];
      EmptyInputs(init, catalogue);
      assert SaleProductNames(sales) == SaleProductNames(init) + [sales[|sales| - 1].product];
    }
  }

  /**
   * Joined with a catalogue built from `products`, a sale is valid exactly when its
   * product is the title of some product record.
   */
  lemma JoinWithBuiltCatalogue(products: seq<Product>, sales: seq<Sale>)
    ensures KnownIndices(sales, CatalogueOf(products).Keys) == KnownIndices(sales, Titles(products))
    ensures CountValid(sales, CatalogueOf(products)) == |KnownIndices(sales, Titles(products))|
  {
    CatalogueKeys(products);
    CountValidIsKnownIndices(sales, CatalogueOf(products));
  }

  /**
   * compute_sales_total: the running total and valid-item count after one pass,
   * with the names of the skipped products in place of the printed warnings.
   */
  method ComputeSalesTotal(sales: seq<Sale>, catalogue: Catalogue)
    returns (total: real, validItems: nat, warnings: seq<string>)
    ensures total == SumValid(sales, catalogue)
    ensures validItems == CountValid(sales, catalogue)
    ensures warnings == Skipped(sales, catalogue)
    ensures validItems + |warnings| == |sales|
  {
    total := 0.0;
    validItems := 0;
    warnings := [];
    for k := 0 to |sales|
      invariant total == SumValid(sales[..k], catalogue)
      invariant validItems == CountValid(sales[..k], catalogue)
      invariant warnings == Skipped(sales[..k], catalogue)
    {
      assert sales[..k + 1][..k] == sales[..k];
      var sale := sales[k];
      if sale.product !in catalogue {
        warnings := warnings + [sale.product];
        continue;
      }
      var price := catalogue[sale.product];
      var saleCost := price * sale.quantity;
      total := total + saleCost;
      validItems := validItems + 1;
    }
    assert sales[..|sales|] == sales;
    CountAndSkippedPartition(sales, catalogue);
  }

  /**
   * The two steps chained as the program chains them: build the catalogue from
   * the product records, then total the sales against it.
   */
  method ComputeSales(products: seq<Product>, sales: seq<Sale>)
    returns (total: real, validItems: nat, warnings: seq<string>)
    ensures total == SumValid(sales, CatalogueOf(products))
    ensures validItems == |KnownIndices(sales, Titles(products))|
    ensures warnings == Skipped(sales, CatalogueOf(products))
    ensures forall w :: w in warnings ==> w !in Titles(products)
    ensures validItems + |warnings| == |sales|
  {
    var catalogue := BuildPriceCatalogue(products);
    total, validItems, warnings := ComputeSalesTotal(sales, catalogue);
    JoinWithBuiltCatalogue(products, sales);
    SkippedAreUnknown(sales, catalogue);
  }
}
