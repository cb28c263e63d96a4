/** The invoice ledger: a map from product to the quantity bought, the
    validated insert-or-increment that fills it, and the net and gross totals
    summed over it. */
module Ledger {
  import opened Products
  import opened JavaInt

  /** The single error the ledger raises: `IllegalArgumentException`. */
  datatype Result<T> = Ok(value: T) | IllegalArgument

  /** An optional product; `None` stands for a Java `null` reference. */
  datatype Option<T> = None | Some(value: T)

  type Quantities = map<Product, int>

  /** The ledger invariant: every stored quantity is at least one. */
  predicate Valid(m: Quantities) {
    forall p :: p in m ==> m[p] >= 1
  }

  /** The quantity of `p` on the ledger, zero when it is absent. */
  function Count(m: Quantities, p: Product): int {
    if p in m then m[p] else 0
  }

  /** `addProduct(product, quantity)` with exact summation: a missing product or a
      non-positive quantity is rejected, otherwise the product is inserted with
      `q` or its quantity is increased by `q`, and nothing else changes. */
  function Add(m: Quantities, p: Option<Product>, q: int): (r: Result<Quantities>)
    ensures r.IllegalArgument? <==> p.None? || q <= 0
    ensures r.Ok? ==> r.value.Keys == m.Keys + {p.value}
    ensures r.Ok? ==> r.value[p.value] == Count(m, p.value) + q
    ensures r.Ok? ==> forall x :: x in m && x != p.value ==> r.value[x] == m[x]
    ensures r.Ok? && Valid(m) ==> Valid(r.value)
  {
    if p.None? || q <= 0 then IllegalArgument
    else if p.value !in m then Ok(m[p.value := q])
    else Ok(m[p.value := m[p.value] + q])
  }

  /** Adding `q1` and then `q2` of one product is adding `q1 + q2` at once. */
  lemma Accumulation(m: Quantities, p: Product, q1: int, q2: int)
    requires q1 > 0 && q2 > 0
    ensures Add(m, Some(p), q1).Ok?
    ensures Add(Add(m, Some(p), q1).value, Some(p), q2) == Add(m, Some(p), q1 + q2)
  {
    var m1 := Add(m, Some(p), q1).value;
    var m2 := Add(m1, Some(p), q2).value;
    var m3 := Add(m, Some(p), q1 + q2).value;
    assert m2 == m3;
  }

  // ---------------------------------------------------------------------------
  // The source's increment in 32-bit arithmetic.

  /** `addProduct` as the source computes it: `Integer` quantities, and the
      increment `old + quantity` wraps around at 2^31. */
  function AddAsWritten(m: Quantities, p: Option<Product>, q: int): (r: Result<Quantities>)
    requires IsInt(q)
    ensures r.IllegalArgument? <==> p.None? || q <= 0
    ensures r.Ok? ==> r.value.Keys == m.Keys + {p.value}
    ensures r.Ok? ==> IsInt(r.value[p.value])
    ensures r.Ok? ==> r.value[p.value] == Wrap(Count(m, p.value) + q)
    ensures r.Ok? ==> forall x :: x in m && x != p.value ==> r.value[x] == m[x]
  {
    if p.None? || q <= 0 then IllegalArgument
    else if p.value !in m then Ok(m[p.value := q])
    else Ok(m[p.value := Wrap(m[p.value] + q)])
  }

  /** While the sum fits in an `int`, the source's increment is the exact one. */
  lemma AddAsWrittenAgreesInRange(m: Quantities, p: Option<Product>, q: int)
    requires IsInt(q)
    requires p.Some? ==> IsInt(Count(m, p.value) + q)
    ensures AddAsWritten(m, p, q) == Add(m, p, q)
  {
  }

  /** A counterexample: a product already stored with quantity 2147483647 and
      added once more is stored with quantity -2147483648, breaking the invariant. */
  lemma AddAsWrittenBreaksPositivity(p: Product)
    ensures Valid(map[p := MaxInt])
    ensures AddAsWritten(map[p := MaxInt], Some(p), 1).Ok?
    ensures AddAsWritten(map[p := MaxInt], Some(p), 1).value[p] == MinInt
    ensures !Valid(AddAsWritten(map[p := MaxInt], Some(p), 1).value)
  {
  }

  // ---------------------------------------------------------------------------
  // Totals.

  /** Which unit price a total multiplies: the net price or the price with tax. */
  datatype Basis = Net | Gross

  function UnitPrice(p: Product, b: Basis): real {
    match b
    case Net => p.price
    case Gross => PriceWithTax(p)
  }

  /** One ledger line: unit price times quantity. */
  function Line(p: Product, q: int, b: Basis): real {
    UnitPrice(p, b) * (q as real)
  }

  /** The sum of all lines of the ledger, taking the keys in an unspecified order. */
  ghost function Total(m: Quantities, b: Basis): real
    decreases |m|
  {
    if m == map[] then 0.0
    else
      var p :| p in m;
      Line(p, m[p], b) + Total(m - {p}, b)
  }

  /** Any key may be taken first: the total is the line of `p` plus the total of the rest. */
  lemma {:induction false} TotalRemove(m: Quantities, p: Product, b: Basis)
    requires p in m
    ensures Total(m, b) == Line(p, m[p], b) + Total(m - {p}, b)
    decreases |m|
  {
    var x :| x in m && Total(m, b) == Line(x, m[x], b) + Total(m - {x}, b);
    if x != p {
      TotalRemove(m - {x}, p, b);
      TotalRemove(m - {p}, x, b);
      assert m - {x} - {p} == m - {p} - {x};
    }
  }

  /** Lines are additive in the quantity. */
  lemma LineAdditive(p: Product, a: int, q: int, b: Basis)
    ensures Line(p, a + q, b) == Line(p, a, b) + Line(p, q, b)
  {
  }

  /** Adding `q` of `p` raises the total by exactly one line of `p` with quantity `q`. */
  lemma {:induction false} AddRaisesTotal(m: Quantities, p: Product, q: int, b: Basis)
    requires q > 0
    ensures Add(m, Some(p), q).Ok?
    ensures Total(Add(m, Some(p), q).value, b) == Total(m, b) + Line(p, q, b)
  {
    if p in m {
      var m' := m[p := m[p] + q];
      assert Add(m, Some(p), q).value == m';
      TotalRemove(m', p, b);
      TotalRemove(m, p, b);
      assert m' - {p} == m - {p};
      LineAdditive(p, m[p], q, b);
    } else {
      var m' := m[p := q];
      assert Add(m, Some(p), q).value == m';
      TotalRemove(m', p, b);
      assert m' - {p} == m;
    }
  }

  /** The sum of lines visiting the keys in the order `ks`. */
  function TotalInOrder(m: Quantities, ks: seq<Product>, b: Basis): real {
    if ks == [] then 0.0 else Line(ks[0], Count(m, ks[0]), b) + TotalInOrder(m, ks[1..], b)
  }

  /** `ks` lists every key of `m` exactly once. */
  predicate Enumerates(m: Quantities, ks: seq<Product>) {
    && (forall i, j :: 0 <= i < j < |ks| ==> ks[i] != ks[j])
    && (forall p :: p in m ==> p in ks)
    && (forall i :: 0 <= i < |ks| ==> ks[i] in m)
  }

  /** Dropping a key that the order never visits does not change the sum. */
  lemma {:induction false} TotalInOrderIgnoresUnvisited(m: Quantities, ks: seq<Product>, x: Product, b: Basis)
    requires x !in ks
    ensures TotalInOrder(m - {x}, ks, b) == TotalInOrder(m, ks, b)
  {
    if ks != [] {
      TotalInOrderIgnoresUnvisited(m, ks[1..], x, b);
    }
  }

  /** The totals do not depend on the order the keys are visited in. */
  lemma {:induction false} TotalAnyOrder(m: Quantities, ks: seq<Product>, b: Basis)
    requires Enumerates(m, ks)
    ensures TotalInOrder(m, ks, b) == Total(m, b)
    decreases |ks|
  {
    if ks == [] {
      assert m == map[];
    } else {
      var p := ks[0];
      assert p !in ks[1..] by {
        forall i | 0 <= i < |ks[1..]| ensures ks[1..][i] != p {
          assert ks[1..][i] == ks[i + 1];
        }
      }
      assert Enumerates(m - {p}, ks[1..]) by {
        forall x ensures x in m - {p} <==> x in ks[1..] {
          if x in ks[1..] {
            var i :| 0 <= i < |ks[1..]| && ks[1..][i] == x;
            assert ks[i + 1] == x;
          }
          if x in ks && x != p {
            var i :| 0 <= i < |ks| && ks[i] == x;
            assert ks[1..][i - 1] == x;
          }
        }
      }
      TotalAnyOrder(m - {p}, ks[1..], b);
      TotalInOrderIgnoresUnvisited(m, ks[1..], p, b);
      TotalRemove(m, p, b);
    }
  }

  /** When no product on the ledger carries any tax, gross and net totals coincide. */
  lemma {:induction false} UntaxedLedgerHasEqualTotals(m: Quantities)
    requires forall p :: p in m ==> PriceWithTax(p) == p.price
    ensures Total(m, Gross) == Total(m, Net)
    decreases |m|
  {
    if m != map[] {
      var p :| p in m;
      var rest := m - {p};
      assert forall x :: x in rest ==> x in m;
      UntaxedLedgerHasEqualTotals(rest);
      TotalRemove(m, p, Gross);
      TotalRemove(m, p, Net);
      UntaxedLineEqual(p, m[p]);
    }
  }

  /** A line of an untaxed product costs the same gross as net. */
  lemma UntaxedLineEqual(p: Product, q: int)
    requires PriceWithTax(p) == p.price
    ensures Line(p, q, Gross) == Line(p, q, Net)
  {
  }

  /** With non-negative prices and a valid ledger, the gross total is at least
      the net total, so the tax total is never negative. */
  lemma {:induction false} GrossAtLeastNet(m: Quantities)
    requires Valid(m)
    requires forall p :: p in m ==> p.price >= 0.0
    ensures Total(m, Gross) >= Total(m, Net)
    decreases |m|
  {
    if m != map[] {
      var p :| p in m;
      var rest := m - {p};
      assert forall x :: x in rest ==> x in m;
      GrossAtLeastNet(rest);
      TotalRemove(m, p, Gross);
      TotalRemove(m, p, Net);
      GrossLineAtLeastNet(p, m[p]);
    }
  }

  /** One line with a non-negative price and a positive quantity costs at least
      as much gross as net. */
  lemma GrossLineAtLeastNet(p: Product, q: int)
    requires q >= 1 && p.price >= 0.0
    ensures Line(p, q, Gross) >= Line(p, q, Net)
  {
  }

  /** The for-each loop over the key set that accumulates the total. */
  method SumLedger(m: Quantities, b: Basis) returns (total: real)
    ensures total == Total(m, b)
    ensures m == map[] ==> total == 0.0
  {
    total := 0.0;
    var rest := m;
    while rest != map[]
      invariant total + Total(rest, b) == Total(m, b)
      decreases |rest|
    {
      var p :| p in rest;
      TotalRemove(rest, p, b);
      total := total + Line(p, rest[p], b);
      rest := rest - {p};
    }
  }
}
