# Invoice pricing and ledger, in Dafny

A model of the pricing core of the `java-invoice` system (package
`pl.edu.agh.mwo.invoice`). The model has three parts:

- **Products** (`products.dfy`, module `Products`). Every product class becomes one
  `Product` datatype with a `Kind` tag: tax-free (rate 0), dairy (0.08), other (0.23),
  bottle of wine and fuel canister. Wine and fuel both use rate 0.23 and add an excise of
  5.56 on top of the tax-inclusive price. Prices are exact `real`s, standing in for
  `BigDecimal`.
- **Ledger** (`ledger.dfy`, module `Ledger`). The invoice's map from product to quantity
  has these parts:
  - `addProduct` validates its input, then inserts or increments.
  - The ledger invariant says every stored quantity is at least 1.
  - A ghost sum `Total` over the map is the reference definition of the net and gross
    totals. Lemmas prove that the sum does not depend on the order the keys are visited.
    They also prove that an addition raises each total by exactly one line.
  - `SumLedger` is the for-each loop that the totals run, proved equal to `Total`.
- **Invoice** (`invoice.dfy`, module `Invoices`). The invoice wraps the ledger with its
  number and its issue date. It provides the three totals (the tax total is gross minus
  net), `setIssueDate`, and `carrierDayPriceChange`. That rule prices a fuel canister
  without its rate-derived tax, but with its excise, on 26 April of any year.

`java_int.dfy` (module `JavaInt`) models the 32-bit Java `int` arithmetic that two
findings below rely on.

Java `null` for a product is `Option.None`. The `IllegalArgumentException` of
`addProduct` is the `IllegalArgument` case of `Ledger.Result`. The random draw behind
the invoice number and the current date behind the default issue date are parameters of
`NewInvoice`.

## Model

| member | source | states |
|---|---|---|
| JavaInt.Wrap | src/main/java/pl/edu/agh/mwo/invoice/Invoice.java:29 | the result is a Java `int`, congruent to the exact value modulo 2^32, and equal to it when it already fits |
| JavaInt.Abs | src/main/java/pl/edu/agh/mwo/invoice/Invoice.java:14 | `Math.abs` gives a non-negative result equal to `x` or `-x` for every `int` except the most negative, which it returns unchanged |
| Products.TaxPercent | src/main/java/pl/edu/agh/mwo/invoice/Invoice.java:86-87 | the rate is a fraction in [0, 1); it is 0 exactly for tax-free products and 0.23 for wine and fuel |
| Products.Excise | src/main/java/pl/edu/agh/mwo/invoice/product/FuelCanister.java:18-20 | the excise of wine and fuel is always 5.56 and is exactly the part of the price with tax beyond net + net × rate |
| Products.PriceWithTax | src/main/java/pl/edu/agh/mwo/invoice/product/BottleOfWine.java:14-16 | removing net × rate from the price with tax leaves net plus any excise; for a non-negative net price the price with tax is at least the net price, and strictly more for wine and fuel; for a positive net price it equals the net price if and only if the product is tax-free |
| Products.NewTaxFreeProduct | src/test/java/pl/edu/agh/mwo/invoice/InvoiceTest.java:40-45 | a tax-free product keeps its name and net price, has rate 0 and no excise, and its price with tax equals its net price |
| Products.NewDairyProduct | src/test/java/pl/edu/agh/mwo/invoice/InvoiceTest.java:59-60 | a dairy product keeps its name and net price, has rate 0.08, and costs net × 1.08 with tax |
| Products.NewOtherProduct | src/test/java/pl/edu/agh/mwo/invoice/InvoiceTest.java:61-62 | an "other" product keeps its name and net price, has rate 0.23, and costs net × 1.23 with tax |
| Products.NewBottleOfWine | src/main/java/pl/edu/agh/mwo/invoice/product/BottleOfWine.java:9-20 | wine keeps the given name and net price, has rate 0.23 and excise 5.56, costs net + net × 0.23 + 5.56 with tax, and for a non-negative net price that is strictly more than the net price |
| Products.NewFuelCanister | src/main/java/pl/edu/agh/mwo/invoice/product/FuelCanister.java:9-20 | fuel keeps the given name and net price, has rate 0.23 and excise 5.56, and costs net + net × 0.23 + 5.56 with tax; removing net × rate leaves net + excise; for a positive net price the full price differs from net + excise |
| Products.FuelPricedLikeWine | src/main/java/pl/edu/agh/mwo/invoice/product/FuelCanister.java:14-16 | fuel and wine with equal net prices have equal prices with tax |
| Ledger.Add | src/main/java/pl/edu/agh/mwo/invoice/Invoice.java:22-31 | rejected exactly when the product is missing or the quantity is ≤ 0; otherwise the key set gains the product, the product's quantity becomes its old count plus `q`, every other quantity is unchanged, and the ≥ 1 invariant is preserved |
| Ledger.Accumulation | src/main/java/pl/edu/agh/mwo/invoice/Invoice.java:26-30 | adding `q1` and then `q2` of a product gives the same ledger as adding `q1 + q2` at once |
| Ledger.AddAsWritten | src/main/java/pl/edu/agh/mwo/invoice/Invoice.java:22-31 | the source's `addProduct` with a 32-bit increment: rejected under the same conditions; otherwise the product is keyed with the 32-bit wrap of its old count plus `q`, and every other quantity is unchanged |
| Ledger.AddAsWrittenAgreesInRange | src/main/java/pl/edu/agh/mwo/invoice/Invoice.java:29 | when the increased quantity fits in an `int`, the source's addition equals the exact one |
| Ledger.AddAsWrittenBreaksPositivity | src/main/java/pl/edu/agh/mwo/invoice/Invoice.java:29 | a valid ledger holding 2147483647 of a product, added once more, stores -2147483648 and is no longer valid |
| Ledger.TotalRemove | src/main/java/pl/edu/agh/mwo/invoice/Invoice.java:33-40 | any key may be summed first: the total is that key's line plus the total of the rest |
| Ledger.AddRaisesTotal | src/main/java/pl/edu/agh/mwo/invoice/Invoice.java:33-53 | a valid addition of `q` of `p` raises the net or gross total by exactly unit price × `q` |
| Ledger.TotalAnyOrder | src/main/java/pl/edu/agh/mwo/invoice/Invoice.java:35-38 | summing the lines in any duplicate-free order that lists every key gives the same total |
| Ledger.UntaxedLedgerHasEqualTotals | src/main/java/pl/edu/agh/mwo/invoice/Invoice.java:42-53 | when every product's price with tax equals its net price, the gross total equals the net total |
| Ledger.GrossAtLeastNet | src/main/java/pl/edu/agh/mwo/invoice/Invoice.java:42-44 | on a valid ledger with non-negative net prices, the gross total is at least the net total |
| Ledger.SumLedger | src/main/java/pl/edu/agh/mwo/invoice/Invoice.java:33-40 | the loop over the key set returns the reference total, which is 0 for an empty ledger |
| Invoices.InvoiceNumberAsWritten | src/main/java/pl/edu/agh/mwo/invoice/Invoice.java:14 | the number is a Java `int`, and non-negative for every draw except -2147483648 |
| Invoices.NegativeInvoiceNumber | src/main/java/pl/edu/agh/mwo/invoice/Invoice.java:14 | the draw -2147483648 gives a negative invoice number |
| Invoices.InvoiceNumber | src/main/java/pl/edu/agh/mwo/invoice/Invoice.java:14 | the number is an `int` between 0 and 2147483647 that equals `Math.abs(draw)` for every draw except -2147483648, which gives 0 |
| Invoices.NewInvoice | src/main/java/pl/edu/agh/mwo/invoice/Invoice.java:13-16 | a new invoice is well formed, has an empty ledger, the given issue date and the corrected number of the draw, and its net and gross totals are 0 |
| Invoices.AddProduct | src/main/java/pl/edu/agh/mwo/invoice/Invoice.java:22-31 | rejected exactly for a missing product or a quantity ≤ 0; otherwise the product's count grows by `q`, other entries, number and date are kept, well-formedness is preserved, and each total rises by one line |
| Invoices.AddOneProduct | src/main/java/pl/edu/agh/mwo/invoice/Invoice.java:18-20 | rejected exactly for a missing product; otherwise the count grows by 1, nothing else changes, and the net and gross totals rise by the net price and the price with tax |
| Invoices.ThreeSingleAdds | src/test/java/pl/edu/agh/mwo/invoice/InvoiceTest.java:122-131 | three single additions of the same product raise its quantity by 3 |
| Invoices.SetIssueDate | src/main/java/pl/edu/agh/mwo/invoice/Invoice.java:78-80 | the issue date becomes the given triple; the ledger and the number are unchanged |
| Invoices.NetTotal | src/main/java/pl/edu/agh/mwo/invoice/Invoice.java:33-40 | the net total is the sum of net price × quantity, and 0 for an empty invoice |
| Invoices.GrossTotal | src/main/java/pl/edu/agh/mwo/invoice/Invoice.java:46-53 | the gross total is the sum of price with tax × quantity, and 0 for an empty invoice |
| Invoices.TaxTotal | src/main/java/pl/edu/agh/mwo/invoice/Invoice.java:42-44 | the tax total is gross − net; it is 0 for an empty invoice and when no product carries tax, and never negative for non-negative net prices |
| Invoices.CarrierDayPriceChange | src/main/java/pl/edu/agh/mwo/invoice/Invoice.java:82-91 | a fuel canister on day 26 of month 4 costs net + excise; every other product, and fuel on any other date, costs its price with tax |
| Invoices.CarrierDayReadsOnlyDayAndMonth | src/main/java/pl/edu/agh/mwo/invoice/Invoice.java:83-85 | two invoices whose issue dates share day and month give every product the same effective price, whatever the year, ledger or number |
| Invoices.FuelFullPriceOffCarrierDay | src/test/java/pl/edu/agh/mwo/invoice/InvoiceTest.java:162-169 | off the holiday, fuel with a positive net price costs strictly more than net + excise |
| Invoices.MixedRatesExample | src/test/java/pl/edu/agh/mwo/invoice/InvoiceTest.java:47-75 | tax-free 200, dairy 100 and other 10 give net 310, tax 10.30 and gross 320.30 |
| Invoices.QuantitiesExample | src/test/java/pl/edu/agh/mwo/invoice/InvoiceTest.java:77-97 | 2 × 5 tax-free, 3 × 10 dairy and 1000 × 0.01 other give net 50 and gross 54.70 |
| Invoices.CarrierDayExamples | src/test/java/pl/edu/agh/mwo/invoice/InvoiceTest.java:153-187 | fuel at 80 on 26 April costs 85.56; fuel at 70 on 22 June costs 91.66, not 75.56; wine at 50 and another product at 6 keep 67.06 and 7.38 |

## Left out

- `printInvoice` writes to standard output. Console I/O is not modelled.
- `getProducts` and `getIssueDate` are plain field reads of the `Invoice` datatype. The
  aliasing of the mutable internal map that `getProducts` hands out is not modelled.
- The invoice number's randomness is a parameter (`draw`) of `NewInvoice`. That two
  invoices get different numbers is only probabilistic, so it is not stated.
- `LocalDate.now()` is a parameter (`today`) of `NewInvoice`.
- `LocalDate.of` calendar validation is reduced to the precondition `1 ≤ month ≤ 12`,
  `1 ≤ day ≤ 31`. Dates such as 30 February, and the `DateTimeException` they raise,
  are not modelled.
- `Product.java`, `TaxFreeProduct.java`, `DairyProduct.java` and `OtherProduct.java` are
  not part of this model. Their rates and the base rule "net + net × rate" come from the
  test comments.
- Any validation done by the `Product` constructor (of the name or the price) is not
  modelled. Prices are arbitrary `real`s.
- Product equality, which decides ledger keys, is structural equality of the datatype,
  which includes the variant tag. `Product.equals` and `hashCode` are not part of this
  model; it assumes they compare only name and price. Under that assumption a tax-free
  product and a dairy product with the same name and price are one key in the system but
  two keys here. `hashCode` is not modelled.
- `BigDecimal` scale is not modelled, for example `equals` versus `compareTo` on 10.3
  and 10.30. Arithmetic is exact `real` arithmetic.
- A `null` `Integer` quantity makes `addProduct` throw `NullPointerException` while
  unboxing. That path is not modelled; quantities are plain integers.
- Invoices.InvoiceNumber: the test expects a strictly positive number, but a draw of 0
  gives 0 both here and in the source, so only non-negativity is stated.

## Findings

| source | as written | input that shows it | evidently intended | confidence | as-written member | corrected member |
|---|---|---|---|---|---|---|
| src/main/java/pl/edu/agh/mwo/invoice/Invoice.java:29 | `products.get(product) + quantity` is 32-bit `Integer` arithmetic and wraps around | a product stored with quantity 2147483647, added once more with quantity 1, is stored with -2147483648 | the stored quantity is the exact sum, so it stays ≥ 1 | high; not executed | Ledger.AddAsWrittenBreaksPositivity | Ledger.Add |
| src/main/java/pl/edu/agh/mwo/invoice/Invoice.java:14 | `Math.abs(new Random().nextInt())` returns `Integer.MIN_VALUE` unchanged | the draw -2147483648 gives invoice number -2147483648 | the invoice number is non-negative | high; not executed | Invoices.NegativeInvoiceNumber | Invoices.InvoiceNumber |

The rest of the model uses the corrected members. `Invoices.AddProduct` is built on
`Ledger.Add`, and `Invoices.NewInvoice` is built on `Invoices.InvoiceNumber`.
