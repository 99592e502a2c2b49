/** The split of an amount into net, tax and gross.  Rates are exact rationals; amounts are integers of cents. */
module Vat {
  import opened Wrappers

  datatype Basis = Net | Gross

  /** A regime: a rate in percent, and what the amounts are; either may be unknown. */
  datatype Regime = Regime(rate: Option<real>, basis: Option<Basis>)

  datatype Split = Unknown | Known(rate: real, net: int, tax: int, gross: int)

  /** `Math.round`: to the nearest integer, a half upwards. */
  function Round(x: real): (n: int)
    ensures n as real - 0.5 <= x < n as real + 0.5
  {
    (x + 0.5).Floor
  }

  lemma RoundIs(x: real, n: int)
    requires n as real - 0.5 <= x < n as real + 0.5
    ensures Round(x) == n
  {
  }

  /** `invoiceVat`. */
  function SplitOf(amount: int, r: Regime): Split {
    if r.rate.None? || r.rate.value < 0.0 then Unknown
    else if r.rate.value == 0.0 then Known(0.0, amount, 0, amount)
    else if r.basis.None? then Unknown
    else if r.basis.value.Net? then
      var tax := Round(amount as real * r.rate.value / 100.0);
      Known(r.rate.value, amount, tax, amount + tax)
    else
      var net := Round(amount as real / (1.0 + r.rate.value / 100.0));
      Known(r.rate.value, net, amount - net, amount)
  }

  const LEGACY := Regime(Some(20.0), Some(Net))

  /** `invoiceVatOf`: a half-marked piece is read under the legacy regime. */
  function RegimeOf(stored: Regime): Regime {
    if stored.basis.Some? && stored.rate.Some? && stored.rate.value >= 0.0 then stored else LEGACY
  }

  datatype Totals = Totals(basis: Basis, rate: real, net: int, tax: int, gross: int)

  /** `invoiceTotals`. */
  function TotalsOf(amount: int, stored: Regime): Totals {
    var r := RegimeOf(stored);
    var s := SplitOf(amount, r);
    Totals(r.basis.GetOr(Net), r.rate.GetOr(0.0),
           if s.Known? then s.net else amount, if s.Known? then s.tax else 0, if s.Known? then s.gross else amount)
  }

  /** A piece that carries a rate and a basis keeps them; any other is read at 20 % on a net amount. */
  lemma MarkedPieceKeepsItsRegime(amount: int, stored: Regime)
    ensures var t := TotalsOf(amount, stored);
            if stored.rate.Some? && stored.basis.Some? && 0.0 <= stored.rate.value
            then t.rate == stored.rate.value && t.basis == stored.basis.value
            else t.rate == 20.0 && t.basis == Net
  {
  }

  /** The figure that is computed is the nearest cent to the exact one: the tax on a net basis, the net on a gross one. */
  lemma SplitIsNearest(amount: int, rate: real)
    requires 0.0 <= rate
    ensures var s := SplitOf(amount, Regime(Some(rate), Some(Net)));
            s.Known? && s.net == amount && s.gross == amount + s.tax
            && -0.5 <= amount as real * rate / 100.0 - s.tax as real < 0.5
    ensures var s := SplitOf(amount, Regime(Some(rate), Some(Gross)));
            s.Known? && s.gross == amount && s.tax == amount - s.net
            && -0.5 <= amount as real / (1.0 + rate / 100.0) - s.net as real < 0.5
    ensures SplitOf(amount, Regime(Some(0.0), None)) == Known(0.0, amount, 0, amount)
    ensures SplitOf(amount, Regime(None, Some(Net))).Unknown? && (0.0 < rate ==> SplitOf(amount, Regime(Some(rate), None)).Unknown?)
  {
    if rate == 0.0 {
      assert amount as real * rate == 0.0 && amount as real / 1.0 == amount as real;
    }
  }

  /** On every known regime net and tax make the gross, and the stored amount is the one its basis says. */
  lemma NetPlusTaxIsGross(amount: int, stored: Regime)
    ensures var t := TotalsOf(amount, stored);
            && t.net + t.tax == t.gross
            && (t.basis.Net? ==> t.net == amount) && (t.basis.Gross? ==> t.gross == amount)
  {
  }

  /** The split printed on the document, recomputed from the totals of the piece, is the split of the totals:
    * marked, half-marked or not marked at all. */
  lemma DocumentAgreesWithTotals(amount: int, stored: Regime)
    ensures var t := TotalsOf(amount, stored);
            SplitOf(amount, Regime(Some(t.rate), Some(t.basis))) == Known(t.rate, t.net, t.tax, t.gross)
  {
  }

  /** How far the gross of a net amount is from exact. */
  lemma GrossOfNet(amount: int, rate: real)
    requires 0.0 < rate
    ensures var gross := SplitOf(amount, Regime(Some(rate), Some(Net))).gross;
            var factor := 1.0 + rate / 100.0;
            -0.5 < gross as real - amount as real * factor <= 0.5
  {
    var tax := Round(amount as real * rate / 100.0);
    assert amount as real * (1.0 + rate / 100.0) == amount as real + amount as real * rate / 100.0;
  }

  /** A remainder of at most half a cent is less than half a cent once divided by more than one. */
  lemma ShrinksUnderHalf(e: real, factor: real)
    requires 1.0 < factor && -0.5 < e <= 0.5
    ensures -0.5 < e / factor < 0.5
  {
    var q := e / factor;
    assert q * factor == e;
    assert q >= 0.5 ==> q * factor >= 0.5 * factor;
    assert q <= -0.5 ==> q * factor <= -0.5 * factor;
  }

  /** Net to gross to net gives back every amount, negative ones included, at every positive rate. */
  lemma NetGrossNet(amount: int, rate: real)
    requires 0.0 < rate
    ensures var gross := SplitOf(amount, Regime(Some(rate), Some(Net))).gross;
            SplitOf(gross, Regime(Some(rate), Some(Gross))).net == amount
  {
    var gross := SplitOf(amount, Regime(Some(rate), Some(Net))).gross;
    var factor := 1.0 + rate / 100.0;
    var e := gross as real - amount as real * factor;
    GrossOfNet(amount, rate);
    ShrinksUnderHalf(e, factor);
    Quotient(amount as real, e, factor);
    assert gross as real == amount as real * factor + e;
    RoundIs(gross as real / factor, amount);
  }

  lemma Quotient(a: real, e: real, factor: real)
    requires factor > 0.0
    ensures (a * factor + e) / factor == a + e / factor
  {
    assert (a + e / factor) * factor == a * factor + e;
  }

  /** The gross of a net amount, and the net of a gross one. */
  function GrossOf(net: int, rate: real): int
    requires 0.0 < rate
  {
    SplitOf(net, Regime(Some(rate), Some(Net))).gross
  }

  function NetOf(gross: int, rate: real): int
    requires 0.0 < rate
  {
    SplitOf(gross, Regime(Some(rate), Some(Gross))).net
  }

  /** The other way round a gross amount comes back if and only if it is the gross of some net amount. */
  lemma GrossNetGrossIff(gross: int, rate: real)
    requires 0.0 < rate
    ensures GrossOf(NetOf(gross, rate), rate) == gross <==> exists net :: GrossOf(net, rate) == gross
  {
    if net :| GrossOf(net, rate) == gross {
      NetGrossNet(net, rate);
    }
  }

  /** At 20 % every sixth amount is not: it comes back one cent higher, and all the others come back. */
  lemma GrossNetGrossAtTwenty(gross: int)
    ensures GrossOf(NetOf(gross, 20.0), 20.0) == gross + if gross % 6 == 3 then 1 else 0
    ensures GrossOf(NetOf(gross, 20.0), 20.0) == gross <==> gross % 6 != 3
  {
    var q, r := gross / 6, gross % 6;
    var n := if r <= 3 then r else r - 1;
    RoundIs(gross as real / (1.0 + 20.0 / 100.0), 5 * q + n);
    RoundIs((5 * q + n) as real * 20.0 / 100.0, q + if n < 3 then 0 else 1);
  }

  /** The tax of an amount lands exactly between two cents. */
  predicate HalfCent(amount: int, rate: real) {
    var x := amount as real * rate / 100.0 + 0.5;
    x == x.Floor as real
  }

  /** On a net basis, a credit note of the negated amount negates all three figures to the cent if and only if the
    * tax does not fall exactly on a half cent. */
  lemma NegationIff(amount: int, rate: real)
    requires 0.0 < rate
    ensures var s, c := SplitOf(amount, Regime(Some(rate), Some(Net))), SplitOf(-amount, Regime(Some(rate), Some(Net)));
            c.net == -s.net && (c.tax == -s.tax && c.gross == -s.gross <==> !HalfCent(amount, rate))
  {
    var x := amount as real * rate / 100.0;
    assert (-amount) as real * rate / 100.0 == -x;
    var n := Round(x);
    if HalfCent(amount, rate) {
      assert x + 0.5 == n as real;
      RoundIs(-x, 1 - n);
      assert SplitOf(amount, Regime(Some(rate), Some(Net))).tax == n;
      assert SplitOf(-amount, Regime(Some(rate), Some(Net))).tax == 1 - n;
    } else {
      assert x + 0.5 != n as real;
      RoundIs(-x, -n);
    }
  }

  /** At the rate in force it never does. */
  lemma NoHalfCentAtTwenty(amount: int)
    ensures !HalfCent(amount, 20.0)
  {
    var n := (amount as real * 20.0 / 100.0 + 0.5).Floor;
    assert 10 * n != 2 * amount + 5;
    assert (10 * n) as real != (2 * amount + 5) as real;
  }
}
