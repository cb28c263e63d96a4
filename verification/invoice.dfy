/** An invoice: its ledger of products, its number and its issue date; the
    validated additions, the three totals, and the carrier-day price rule. */
module Invoices {
  import opened JavaInt
  import opened Products
  import opened Ledger

  /** An issue date as a (year, month, day) triple. */
  datatype Date = Date(year: int, month: int, day: int)

  /** The range checks a date must pass; calendar validity beyond them is not modelled. */
  predicate ValidDate(d: Date) {
    1 <= d.month <= 12 && 1 <= d.day <= 31
  }

  /** The reference date of the carrier-day rule; only its day and month are used. */
  const CarrierDayHoliday: Date := Date(2021, 4, 26)

  datatype Invoice = Invoice(products: Quantities, number: int, issueDate: Date)

  /** What every reachable invoice satisfies. */
  predicate WellFormed(inv: Invoice) {
    Ledger.Valid(inv.products) && ValidDate(inv.issueDate) && 0 <= inv.number <= MaxInt
  }

  // ---------------------------------------------------------------------------
  // Invoice number.

  /** The invoice number as the source draws it: `Math.abs` of a random `int`. */
  function InvoiceNumberAsWritten(draw: int): (n: int)
    requires IsInt(draw)
    ensures IsInt(n)
    ensures draw != MinInt ==> n >= 0
  {
    Abs(draw)
  }

  /** A counterexample: the draw -2147483648 gives a negative invoice number. */
  lemma NegativeInvoiceNumber()
    ensures IsInt(MinInt)
    ensures InvoiceNumberAsWritten(MinInt) < 0
  {
  }

  /** The invoice number with the one wrapping draw mapped to zero: it is always
      a non-negative `int`, and equals the source's number for every other draw. */
  function InvoiceNumber(draw: int): (n: int)
    requires IsInt(draw)
    ensures 0 <= n <= MaxInt
    ensures draw != MinInt ==> n == InvoiceNumberAsWritten(draw)
    ensures draw == MinInt ==> n == 0
  {
    if draw == MinInt then 0 else Abs(draw)
  }

  // ---------------------------------------------------------------------------
  // Construction and mutation.

  /** `new Invoice()`: an empty ledger, a number from the random draw, and the
      current date `today` as the issue date. */
  function NewInvoice(draw: int, today: Date): (inv: Invoice)
    requires IsInt(draw) && ValidDate(today)
    ensures WellFormed(inv)
    ensures inv.products == map[] && inv.issueDate == today
    ensures inv.number == InvoiceNumber(draw)
    ensures Total(inv.products, Net) == 0.0 && Total(inv.products, Gross) == 0.0
  {
    Invoice(map[], InvoiceNumber(draw), today)
  }

  /** `addProduct(product, quantity)`: rejected without any change when the
      product is missing or the quantity is not positive; otherwise the product's
      quantity grows by `quantity`, every other entry, the number and the date are
      kept, and each total grows by one line of the added product. */
  function AddProduct(inv: Invoice, p: Option<Product>, q: int): (r: Result<Invoice>)
    ensures r.IllegalArgument? <==> p.None? || q <= 0
    ensures r.Ok? ==> r.value.number == inv.number && r.value.issueDate == inv.issueDate
    ensures r.Ok? ==> r.value.products.Keys == inv.products.Keys + {p.value}
    ensures r.Ok? ==> Count(r.value.products, p.value) == Count(inv.products, p.value) + q
    ensures r.Ok? ==> forall x :: x in inv.products && x != p.value ==> r.value.products[x] == inv.products[x]
    ensures r.Ok? && WellFormed(inv) ==> WellFormed(r.value)
    ensures r.Ok? ==> Total(r.value.products, Net) == Total(inv.products, Net) + Line(p.value, q, Net)
    ensures r.Ok? ==> Total(r.value.products, Gross) == Total(inv.products, Gross) + Line(p.value, q, Gross)
  {
    match Add(inv.products, p, q)
    case IllegalArgument => IllegalArgument
    case Ok(m) =>
      AddRaisesTotal(inv.products, p.value, q, Net);
      AddRaisesTotal(inv.products, p.value, q, Gross);
      Ok(inv.(products := m))
  }

  /** `addProduct(product)`: adding with a quantity of one. */
  function AddOneProduct(inv: Invoice, p: Option<Product>): (r: Result<Invoice>)
    ensures r.IllegalArgument? <==> p.None?
    ensures r.Ok? ==> r.value.number == inv.number && r.value.issueDate == inv.issueDate
    ensures r.Ok? ==> r.value.products.Keys == inv.products.Keys + {p.value}
    ensures r.Ok? ==> Count(r.value.products, p.value) == Count(inv.products, p.value) + 1
    ensures r.Ok? ==> forall x :: x in inv.products && x != p.value ==> r.value.products[x] == inv.products[x]
    ensures r.Ok? && WellFormed(inv) ==> WellFormed(r.value)
    ensures r.Ok? ==> Total(r.value.products, Net) == Total(inv.products, Net) + p.value.price
    ensures r.Ok? ==> Total(r.value.products, Gross) == Total(inv.products, Gross) + PriceWithTax(p.value)
  {
    AddProduct(inv, p, 1)
  }

  /** Adding the same product three times, one at a time, raises its quantity by three. */
  lemma ThreeSingleAdds(inv: Invoice, p: Product)
    ensures AddOneProduct(inv, Some(p)).Ok?
    ensures AddOneProduct(AddOneProduct(inv, Some(p)).value, Some(p)).Ok?
    ensures var r := AddOneProduct(AddOneProduct(AddOneProduct(inv, Some(p)).value, Some(p)).value, Some(p));
            r.Ok? && Count(r.value.products, p) == Count(inv.products, p) + 3
  {
  }

  /** `setIssueDate(year, month, day)`: replaces the date and nothing else. */
  function SetIssueDate(inv: Invoice, year: int, month: int, day: int): (r: Invoice)
    requires 1 <= month <= 12 && 1 <= day <= 31
    ensures r.issueDate.year == year && r.issueDate.month == month && r.issueDate.day == day
    ensures r.products == inv.products && r.number == inv.number
    ensures WellFormed(inv) ==> WellFormed(r)
  {
    inv.(issueDate := Date(year, month, day))
  }

  // ---------------------------------------------------------------------------
  // Totals.

  /** `getNetTotal()`: the sum of net price times quantity over the ledger. */
  method NetTotal(inv: Invoice) returns (total: real)
    ensures total == Total(inv.products, Net)
    ensures inv.products == map[] ==> total == 0.0
  {
    total := SumLedger(inv.products, Net);
  }

  /** `getGrossTotal()`: the sum of price with tax times quantity over the ledger. */
  method GrossTotal(inv: Invoice) returns (total: real)
    ensures total == Total(inv.products, Gross)
    ensures inv.products == map[] ==> total == 0.0
  {
    total := SumLedger(inv.products, Gross);
  }

  /** `getTaxTotal()`: gross minus net. It is zero when no product on the invoice
      carries tax, and never negative when the net prices are not. */
  method TaxTotal(inv: Invoice) returns (tax: real)
    ensures tax == Total(inv.products, Gross) - Total(inv.products, Net)
    ensures inv.products == map[] ==> tax == 0.0
    ensures (forall p :: p in inv.products ==> PriceWithTax(p) == p.price) ==> tax == 0.0
    ensures WellFormed(inv) && (forall p :: p in inv.products ==> p.price >= 0.0) ==> tax >= 0.0
  {
    var gross := GrossTotal(inv);
    var net := NetTotal(inv);
    tax := gross - net;
    ghost var untaxed := forall p :: p in inv.products ==> PriceWithTax(p) == p.price;
    if untaxed {
      UntaxedLedgerHasEqualTotals(inv.products);
    }
    ghost var nonNegative := WellFormed(inv) && forall p :: p in inv.products ==> p.price >= 0.0;
    if nonNegative {
      GrossAtLeastNet(inv.products);
    }
  }

  // ---------------------------------------------------------------------------
  // Carrier-day rule.

  /** True iff `d` falls on the day and month of the carrier-day holiday, in any year. */
  predicate IsCarrierDay(d: Date) {
    d.day == CarrierDayHoliday.day && d.month == CarrierDayHoliday.month
  }

  /** `carrierDayPriceChange(product)`: on 26 April of any year a fuel canister is
      priced without its rate-derived tax but with its excise; every other product,
      and fuel on every other day, keeps its price with tax. */
  function CarrierDayPriceChange(inv: Invoice, p: Product): (r: real)
    ensures p.kind == Fuel && inv.issueDate.day == 26 && inv.issueDate.month == 4
            ==> r == p.price + Excise(p)
    ensures !(p.kind == Fuel && inv.issueDate.day == 26 && inv.issueDate.month == 4)
            ==> r == PriceWithTax(p)
  {
    if p.kind == Fuel && IsCarrierDay(inv.issueDate) then
      PriceWithTax(p) - p.price * TaxPercent(p)
    else
      PriceWithTax(p)
  }

  /** The rule reads only the day and month of the issue date: neither the year,
      the ledger nor the number change its result. */
  lemma CarrierDayReadsOnlyDayAndMonth(inv1: Invoice, inv2: Invoice, p: Product)
    requires inv1.issueDate.day == inv2.issueDate.day
    requires inv1.issueDate.month == inv2.issueDate.month
    ensures CarrierDayPriceChange(inv1, p) == CarrierDayPriceChange(inv2, p)
  {
  }

  /** On any day other than the holiday, a fuel canister with a positive net price
      costs more than the carrier-day price. */
  lemma FuelFullPriceOffCarrierDay(inv: Invoice, p: Product)
    requires p.kind == Fuel && p.price > 0.0
    requires !IsCarrierDay(inv.issueDate)
    ensures CarrierDayPriceChange(inv, p) != p.price + Excise(p)
    ensures CarrierDayPriceChange(inv, p) > p.price + Excise(p)
  {
  }

  // ---------------------------------------------------------------------------
  // Worked examples.

  /** Three products at rates 0, 0.08 and 0.23 with net prices 200, 100 and 10:
      net 310, tax 10.30, gross 320.30. */
  method MixedRatesExample(draw: int, today: Date) returns (net: real, tax: real, gross: real)
    requires IsInt(draw) && ValidDate(today)
    ensures net == 310.0 && tax == 10.30 && gross == 320.30
  {
    var inv := NewInvoice(draw, today);
    var r := AddOneProduct(inv, Some(NewTaxFreeProduct("Owoce", 200.0)));
    inv := r.value;
    r := AddOneProduct(inv, Some(NewDairyProduct("Maslanka", 100.0)));
    inv := r.value;
    r := AddOneProduct(inv, Some(NewOtherProduct("Wino", 10.0)));
    inv := r.value;
    net := NetTotal(inv);
    tax := TaxTotal(inv);
    gross := GrossTotal(inv);
  }

  /** Quantities above one: 2 x 5 tax-free, 3 x 10 dairy and 1000 x 0.01 at 0.23
      give net 50 and gross 54.70. */
  method QuantitiesExample(draw: int, today: Date) returns (net: real, gross: real)
    requires IsInt(draw) && ValidDate(today)
    ensures net == 50.0 && gross == 54.70
  {
    var inv := NewInvoice(draw, today);
    var r := AddProduct(inv, Some(NewTaxFreeProduct("Chleb", 5.0)), 2);
    inv := r.value;
    r := AddProduct(inv, Some(NewDairyProduct("Chedar", 10.0)), 3);
    inv := r.value;
    r := AddProduct(inv, Some(NewOtherProduct("Pinezka", 0.01)), 1000);
    inv := r.value;
    net := NetTotal(inv);
    gross := GrossTotal(inv);
  }

  /** The carrier-day cases: fuel at 80 on 26 April 2021 costs 85.56; fuel at 70 on
      22 June 2021 costs 91.66, not 75.56; wine at 50 and another product at 6 keep
      their prices with tax, 67.06 and 7.38, on 26 April. */
  method CarrierDayExamples(draw: int, today: Date) returns (fuelOnHoliday: real, fuelOtherDay: real, wine: real, other: real)
    requires IsInt(draw) && ValidDate(today)
    ensures fuelOnHoliday == 85.56
    ensures fuelOtherDay == 91.66 && fuelOtherDay != 70.0 + ExciseTax
    ensures wine == 67.06 && other == 7.38
  {
    var inv := NewInvoice(draw, today);
    var holiday := SetIssueDate(inv, 2021, 4, 26);
    var june := SetIssueDate(inv, 2021, 6, 22);
    fuelOnHoliday := CarrierDayPriceChange(holiday, NewFuelCanister("Fuel Canister", 80.0));
    fuelOtherDay := CarrierDayPriceChange(june, NewFuelCanister("Fuel canister", 70.0));
    wine := CarrierDayPriceChange(holiday, NewBottleOfWine("Bottle of Wine", 50.0));
    other := CarrierDayPriceChange(holiday, NewOtherProduct("Bagietka", 6.0));
  }
}
