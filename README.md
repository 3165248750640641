# computeSales: catalogue join and sales total

A Dafny model of the two-step core of `computeSales.py`, a sales calculator:

1. **Catalogue builder** (`build_price_catalogue`). It turns a list of product
   records `{title, price}` into a title -> price dictionary. Records are inserted
   in input order, so a later record with the same title overwrites an earlier one.
2. **Sales aggregator** (`compute_sales_total`). It makes one left-to-right pass
   over the sale records `{Product, Quantity}`.
   - A sale whose product is in the catalogue adds `price * quantity` to the
     running total and counts as a valid item. A negative quantity is a return.
   - A sale whose product is unknown is skipped with a warning, and the pass
     continues with the next sale.
   - The pass returns the total and the valid-item count.

Both loops are Dafny methods with loop invariants over the prefix already
processed. Each is proved equal to a pure specification function:

- `PriceCatalogue.CatalogueOf` is the dictionary after inserting a prefix of records.
- `SalesTotal.SumValid`, `SalesTotal.CountValid` and `SalesTotal.Skipped` are the
  total, the count and the warnings after a prefix of sales.

The lemmas then state what the program promises about those functions.

Files:

- `catalogue.dfy`: module `PriceCatalogue`, the product record and the builder.
- `sales.dfy`: module `SalesTotal`, the sale record, the aggregator and the two
  steps chained.

Modelling choices:

- Prices and quantities are `real`, so the arithmetic is exact. The program
  accumulates in double precision; no rounding behaviour is claimed here.
- Records are datatypes with their required fields. A record without a field
  therefore cannot be written down.
- The warning printed for a skipped sale (line 63) becomes an output. It is the
  sequence of skipped product names, one per skipped sale, in input order.

## Model

| member | source | states |
|---|---|---|
| `PriceCatalogue.BuildPriceCatalogue` | computeSales.py:23-38 | The loop's dictionary equals `CatalogueOf(products)`. Its keys are exactly the titles of the records. Every title maps to the price of its last record. |
| `PriceCatalogue.CatalogueKeys` | computeSales.py:33-38 | The catalogue's key set is exactly the set of titles in the input. An empty product list gives the empty catalogue. |
| `PriceCatalogue.CatalogueLastWins` | computeSales.py:34-37 | If record `i` is the last one carrying its title, the catalogue maps that title to record `i`'s price (last write wins). |
| `PriceCatalogue.CatalogueValueFromRecord` | computeSales.py:34-37 | Every key has a last record carrying it, and the stored value is that record's price. Nothing in the catalogue comes from elsewhere. |
| `SalesTotal.ComputeSalesTotal` | computeSales.py:41-72 | The loop's total, valid count and warnings equal `SumValid`, `CountValid` and `Skipped` of the whole input. Warnings plus valid items equal the number of sales. |
| `SalesTotal.CountValid` | computeSales.py:55-70 | The valid-item count never exceeds the number of sales. |
| `SalesTotal.CountAndSkippedPartition` | computeSales.py:57-70 | Each sale is either counted or warned about, never both: valid count plus number of warnings equals the number of sales. |
| `SalesTotal.CountValidIsKnownIndices` | computeSales.py:55-70 | The valid count equals the number of positions whose product is a key of the catalogue. |
| `SalesTotal.SkippedAreUnknown` | computeSales.py:61-64 | Every warning names a product that occurs in the sales and is not in the catalogue. Every sale with an unknown product has its name among the warnings. |
| `SalesTotal.Additive` | computeSales.py:57-72 | Total, count and warnings over `a + b` are those over `a` combined with those over `b`. |
| `SalesTotal.UnknownSaleIsSkipped` | computeSales.py:61-64 | An unknown-product sale anywhere in the input leaves total and count unchanged. It adds exactly one warning naming it. The sales after it still contribute. |
| `SalesTotal.KnownSaleContributes` | computeSales.py:66-70 | A known-product sale anywhere in the input adds `price * quantity` to the total and one to the count. A return lowers the total by price times the magnitude of the quantity. |
| `SalesTotal.EmptyInputs` | computeSales.py:54-55 | No sales give total 0 and count 0. An empty catalogue gives total 0 and count 0 for any sales, with one warning per sale naming its product, in order. |
| `SalesTotal.JoinWithBuiltCatalogue` | computeSales.py:131-135 | With the catalogue built from the product records, a sale's product is in the catalogue exactly when it is the title of some record, so the valid count equals the number of sales whose product is some record's title. |
| `SalesTotal.ComputeSales` | computeSales.py:131-135 | Building then totalling gives the specified total. The valid count is the number of sales whose product is some record's title. The warnings are the products of the skipped sales, in input order, and each is no record's title. Warnings plus valid items equal the number of sales. |

## Left out

- `load_json_file` (computeSales.py:17-20): file reading and JSON parsing. The
  model starts from already-decoded record sequences.
- `print_results` (computeSales.py:75-107): console output, writing
  `SalesResults.txt`, and number formatting. This is presentation only.
- `main` (computeSales.py:110-145): command-line arguments, console banners and
  wall-clock timing with `time.time()`. Only its two core calls (lines 131 and
  135) are modelled, in `SalesTotal.ComputeSales`. The call at line 141 passes
  four arguments to the two-parameter `print_results`. That call is not modelled.
- The wording of the printed warning line is not
  modelled. Only the product name it carries is kept.
- Double-precision floating-point accumulation (`total = 0.0`, `total += sale_cost`)
  is not modelled. The model uses exact `real` arithmetic.
- A `KeyError` for a record missing `title`, `price`, `Product` or `Quantity`
  (lines 35-36, 58-59) cannot arise, because the records are typed. Python's
  acceptance of non-numeric prices or quantities is not modelled either.
