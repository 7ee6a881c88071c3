/** A tax table evaluated the way calculatePayroll's if/else-if chain does:
    brackets are tried from the first (highest threshold) onward, and the
    first one the taxable income exceeds sets a single flat rate on the
    WHOLE income, not on the slice of income inside the band. */
module TaxTable {

  datatype Bracket = Bracket(threshold: real, rate: real)

  function TableTax(brackets: seq<Bracket>, taxable: real): real
  {
    if |brackets| == 0 then 0.0
    else if taxable > brackets[0].threshold then taxable * brackets[0].rate
    else TableTax(brackets[1..], taxable)
  }

  /** Thresholds and rates are non-negative, and rates never rise further
      down the table. */
  ghost predicate RatesDescend(brackets: seq<Bracket>) {
    && (forall i :: 0 <= i < |brackets| ==> brackets[i].threshold >= 0.0 && brackets[i].rate >= 0.0)
    && (forall i, j :: 0 <= i < j < |brackets| ==> brackets[j].rate <= brackets[i].rate)
  }

  /** The first bracket exceeded decides the tax, applied to all the income. */
  lemma {:induction false} FirstMatchDecides(brackets: seq<Bracket>, taxable: real, k: nat)
    requires k < |brackets|
    requires taxable > brackets[k].threshold
    requires forall i :: 0 <= i < k ==> taxable <= brackets[i].threshold
    ensures TableTax(brackets, taxable) == taxable * brackets[k].rate
    decreases k
  {
    if k > 0 {
      FirstMatchDecides(brackets[1..], taxable, k - 1);
    }
  }

  /** Income at or below every threshold is not taxed. */
  lemma {:induction false} NoMatchNoTax(brackets: seq<Bracket>, taxable: real)
    requires forall i :: 0 <= i < |brackets| ==> taxable <= brackets[i].threshold
    ensures TableTax(brackets, taxable) == 0.0
    decreases |brackets|
  {
    if |brackets| > 0 {
      NoMatchNoTax(brackets[1..], taxable);
    }
  }

  /** With non-negative thresholds and every rate at most `top`, the tax is
      between 0 and `top` times the (positive part of the) income. */
  lemma {:induction false} TaxBounded(brackets: seq<Bracket>, taxable: real, top: real)
    requires top >= 0.0
    requires forall i :: 0 <= i < |brackets| ==> brackets[i].threshold >= 0.0 && 0.0 <= brackets[i].rate <= top
    ensures 0.0 <= TableTax(brackets, taxable)
    ensures TableTax(brackets, taxable) <= if taxable > 0.0 then taxable * top else 0.0
    decreases |brackets|
  {
    if |brackets| > 0 {
      if taxable > brackets[0].threshold {
        MulMonotone(brackets[0].rate, top, taxable);
      } else {
        TaxBounded(brackets[1..], taxable, top);
      }
    }
  }

  lemma MulMonotone(a: real, b: real, x: real)
    requires 0.0 <= a <= b
    requires x >= 0.0
    ensures 0.0 <= x * a <= x * b
  {
  }

  /** More taxable income never means less tax, although the tax jumps
      upward at each threshold. */
  lemma {:induction false} TableTaxMonotone(brackets: seq<Bracket>, lo: real, hi: real)
    requires RatesDescend(brackets)
    requires lo <= hi
    ensures TableTax(brackets, lo) <= TableTax(brackets, hi)
    decreases |brackets|
  {
    if |brackets| > 0 {
      var top := brackets[0];
      var rest := brackets[1..];
      if lo > top.threshold {
        assert lo * top.rate <= hi * top.rate;
      } else if hi > top.threshold {
        forall i | 0 <= i < |rest|
          ensures rest[i].threshold >= 0.0 && 0.0 <= rest[i].rate <= top.rate
        {
          assert rest[i] == brackets[i + 1];
        }
        TaxBounded(rest, lo, top.rate);
        if lo > 0.0 {
          assert lo * top.rate <= hi * top.rate;
        }
      } else {
        assert RatesDescend(rest) by {
          forall i, j | 0 <= i < j < |rest| ensures rest[j].rate <= rest[i].rate {
            assert rest[i] == brackets[i + 1] && rest[j] == brackets[j + 1];
          }
        }
        TableTaxMonotone(rest, lo, hi);
      }
    }
  }
}
