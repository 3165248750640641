/**
 * The catalogue builder of computeSales.py: a sequence of product records
 * `{title, price}` becomes a title -> price dictionary. Records are inserted in
 * input order, so when a title occurs several times the last record wins.
 */
module PriceCatalogue {

  /** One record of the product catalogue input. */
  datatype Product = Product(title: string, price: real)

  /** Exact, case-sensitive product title -> unit price. */
  type Catalogue = map<string, real>

  /** The set of titles that occur in `products`. */
  function Titles(products: seq<Product>): set<string>
  {
    set i | 0 <= i < |products| :: products[i].title
  }

  /** Record `i` is the last record of `products` that carries its title. */
  predicate IsLastOccurrence(products: seq<Product>, i: int)
  {
    && 0 <= i < |products|
    && forall j :: i < j < |products| ==> products[j].title != products[i].title
  }

  /**
   * The dictionary that inserting every record of `products`, first to last,
   * into an empty dictionary leaves behind.
   */
  function CatalogueOf(products: seq<Product>): Catalogue
  {
    if products == [] then map[]
    else
      var last := products[|products| - 1];
      CatalogueOf(products[..|products| - 1])[last.title := last.price]
  }

  /** The catalogue has exactly one key per distinct title; no products, no keys. */
  lemma {:induction false} CatalogueKeys(products: seq<Product>)
    ensures CatalogueOf(products).Keys == Titles(products)
    ensures products == [] ==> CatalogueOf(products) == map[]
  {
    if products != [] {
      var init, last := products[..|products| - 1], products[|products| - 1];
      CatalogueKeys(init);
      assert products == init + [last];
      assert Titles(products) == Titles(init) + {last.title} by {
        forall t | t in Titles(products) ensures t in Titles(init) + {last.title} {
          var i :| 0 <= i < |products| && products[i].title == t;
          if i < |init| {
            assert init[i] == products[i];
          }
        }
        forall t | t in Titles(init) ensures t in Titles(products) {
          var i :| 0 <= i < |init| && init[i].title == t;
          assert products[i] == init[i];
        }
      }
    }
  }

  /** Last write wins: a title maps to the price of its last record. */
  lemma {:induction false} CatalogueLastWins(products: seq<Product>, i: int)
    requires IsLastOccurrence(products, i)
    ensures products[i].title in CatalogueOf(products)
    ensures CatalogueOf(products)[products[i].title] == products[i].price
  {
    var n := |products|;
    var init, last := products[..n - 1], products[n - 1];
    if i < n - 1 {
      assert last.title != products[i].title;
      assert init[i] == products[i];
      assert IsLastOccurrence(init, i) by {
        forall j | i < j < |init| ensures init[j].title != init[i].title {
          assert init[j] == products[j];
        }
      }
      CatalogueLastWins(init, i);
    }
  }

  /**
   * Every key of the catalogue comes from a record: the last record that carries
   * that title, whose price is the value stored for it.
   */
  lemma {:induction false} CatalogueValueFromRecord(products: seq<Product>, t: string)
    requires t in CatalogueOf(products)
    ensures exists i :: IsLastOccurrence(products, i) && products[i].title == t
                        && CatalogueOf(products)[t] == products[i].price
  {
    var n := |products|;
    var init, last := products[..n - 1], products[n - 1];
    if last.title == t {
      assert IsLastOccurrence(products, n - 1);
    } else {
      CatalogueValueFromRecord(init, t);
      var i :| IsLastOccurrence(init, i) && init[i].title == t
               && CatalogueOf(init)[t] == init[i].price;
      assert products[i] == init[i];
      assert IsLastOccurrence(products, i) by {
        forall j | i < j < n ensures products[j].title != products[i].title {
          if j < n - 1 {
            assert products[j] == init[j];
          }
        }
      }
    }
  }

  /**
   * build_price_catalogue: one pass over the records, each one stored under its
   * title, overwriting whatever an earlier record stored there.
   */
  method BuildPriceCatalogue(products: seq<Product>) returns (catalogue: Catalogue)
    ensures catalogue == CatalogueOf(products)
    ensures catalogue.Keys == Titles(products)
    ensures forall i :: IsLastOccurrence(products, i) ==>
              products[i].title in catalogue && catalogue[products[i].title] == products[i].price
  {
    catalogue := map[];
    for k := 0 to |products|
      invariant catalogue == CatalogueOf(products[..k])
    {
      var product := products[k];
      catalogue := catalogue[product.title := product.price];
      assert products[..k + 1][..k] == products[..k];
    }
    assert products[..|products|] == products;
    CatalogueKeys(products);
    forall i | IsLastOccurrence(products, i)
      ensures products[i].title in catalogue && catalogue[products[i].title] == products[i].price
    {
      CatalogueLastWins(products, i);
    }
  }
}
