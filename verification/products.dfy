/** Products of the invoice system: a value with a name, a net price and a
    variant tag. The variant fixes the tax rate and, for the two excise-bearing
    variants (wine and fuel), a flat surcharge added after tax. */
module Products {

  /** The product classes of the system, as a tag instead of subclasses. */
  datatype Kind = TaxFree | Dairy | Other | Wine | Fuel

  /** A product; two products are the same ledger key iff they are equal values. */
  datatype Product = Product(name: string, price: real, kind: Kind)

  /** The excise carried by wine and fuel. */
  const ExciseTax: real := 5.56

  /** `getTaxPercent()`: the rate as a fraction (0.23 means 23%). Only the
      tax-free variant is untaxed, and both excise-bearing variants use 0.23. */
  function TaxPercent(p: Product): (rate: real)
    ensures 0.0 <= rate < 1.0
    ensures rate == 0.0 <==> p.kind == TaxFree
    ensures HasExcise(p) ==> rate == 0.23
  {
    match p.kind
    case TaxFree => 0.0
    case Dairy => 0.08
    case Other => 0.23
    case Wine => 0.23
    case Fuel => 0.23
  }

  /** True for the variants that define `getExcise()`. */
  predicate HasExcise(p: Product) {
    p.kind == Wine || p.kind == Fuel
  }

  /** `getExcise()`, defined only on wine and fuel: always 5.56, and exactly the
      part of the price with tax that the rate does not account for. */
  function Excise(p: Product): (e: real)
    requires HasExcise(p)
    ensures e == 5.56
    ensures e == PriceWithTax(p) - p.price - p.price * TaxPercent(p)
  {
    ExciseTax
  }

  /** The base class rule: net price plus net price times the rate. */
  function BasePriceWithTax(p: Product): real {
    p.price + p.price * TaxPercent(p)
  }

  /** `getPriceWithTax()`: wine and fuel override the base rule and add their
      excise. Removing the rate-derived tax leaves the net price plus any excise;
      for a non-negative net price the result is never below it, strictly above it
      for wine and fuel, and for a positive net price equal to it only when the
      product is tax-free. */
  function PriceWithTax(p: Product): (r: real)
    ensures r - p.price * TaxPercent(p) == p.price + (if HasExcise(p) then ExciseTax else 0.0)
    ensures p.price >= 0.0 ==> r >= p.price
    ensures p.price >= 0.0 && HasExcise(p) ==> r > p.price
    ensures p.price > 0.0 ==> (r == p.price <==> p.kind == TaxFree)
  {
    match p.kind
    case Wine => BasePriceWithTax(p) + ExciseTax
    case Fuel => BasePriceWithTax(p) + ExciseTax
    case _ => BasePriceWithTax(p)
  }

  /** `new TaxFreeProduct(name, price)`. */
  function NewTaxFreeProduct(name: string, price: real): (p: Product)
    ensures p.name == name && p.price == price
    ensures TaxPercent(p) == 0.0 && !HasExcise(p)
    ensures PriceWithTax(p) == price
  {
    Product(name, price, TaxFree)
  }

  /** `new DairyProduct(name, price)`. */
  function NewDairyProduct(name: string, price: real): (p: Product)
    ensures p.name == name && p.price == price
    ensures TaxPercent(p) == 0.08 && !HasExcise(p)
    ensures PriceWithTax(p) == price * 1.08
  {
    Product(name, price, Dairy)
  }

  /** `new OtherProduct(name, price)`. */
  function NewOtherProduct(name: string, price: real): (p: Product)
    ensures p.name == name && p.price == price
    ensures TaxPercent(p) == 0.23 && !HasExcise(p)
    ensures PriceWithTax(p) == price * 1.23
  {
    Product(name, price, Other)
  }

  /** `new BottleOfWine(name, price)`: rate 0.23 and excise 5.56 on top. */
  function NewBottleOfWine(name: string, price: real): (p: Product)
    ensures p.name == name && p.price == price
    ensures TaxPercent(p) == 0.23
    ensures HasExcise(p) && Excise(p) == 5.56
    ensures PriceWithTax(p) == price + price * 0.23 + 5.56
    ensures price >= 0.0 ==> PriceWithTax(p) > price
  {
    Product(name, price, Wine)
  }

  /** `new FuelCanister(name, price)`: priced exactly like wine; stripping the
      rate-derived tax leaves the net price plus the excise. */
  function NewFuelCanister(name: string, price: real): (p: Product)
    ensures p.name == name && p.price == price
    ensures TaxPercent(p) == 0.23
    ensures HasExcise(p) && Excise(p) == 5.56
    ensures PriceWithTax(p) == price + price * 0.23 + 5.56
    ensures PriceWithTax(p) - price * TaxPercent(p) == price + Excise(p)
    ensures price > 0.0 ==> PriceWithTax(p) != price + Excise(p)
  {
    Product(name, price, Fuel)
  }

  /** Fuel and wine with the same net price cost the same with tax. */
  lemma FuelPricedLikeWine(fuelName: string, wineName: string, price: real)
    ensures PriceWithTax(NewFuelCanister(fuelName, price)) == PriceWithTax(NewBottleOfWine(wineName, price))
  {
  }
}
