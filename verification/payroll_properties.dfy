/** What calculatePayroll promises: overtime and gross pay, contributions that
    depend on the basic salary alone and are capped for SOCSO and EIS, the
    bracket lookup of the tax estimate, and the deduction identities. */
module PayrollProperties {
  import opened Payroll
  import opened TaxTable

  /** The chain of `if (taxableIncome > …)` tests, highest threshold first. */
  const TaxBrackets: seq<Bracket> := [
    Bracket(100000.0, 0.21),
    Bracket(50000.0, 0.13),
    Bracket(35000.0, 0.08)
  ]

  // ---------------------------------------------------------------------------
  // Tax estimate
  // ---------------------------------------------------------------------------

  /** The if/else-if chain is the table lookup over `TaxBrackets`. */
  lemma AnnualTaxIsTableTax(taxable: real)
    ensures AnnualTax(taxable) == TableTax(TaxBrackets, taxable)
  {
    if taxable > 100000.0 {
      FirstMatchDecides(TaxBrackets, taxable, 0);
    } else if taxable > 50000.0 {
      FirstMatchDecides(TaxBrackets, taxable, 1);
    } else if taxable > 35000.0 {
      FirstMatchDecides(TaxBrackets, taxable, 2);
    } else {
      NoMatchNoTax(TaxBrackets, taxable);
    }
  }

  /** Annual tax never decreases as taxable income rises. */
  lemma AnnualTaxMonotone(lo: real, hi: real)
    requires lo <= hi
    ensures AnnualTax(lo) <= AnnualTax(hi)
  {
    AnnualTaxIsTableTax(lo);
    AnnualTaxIsTableTax(hi);
    TableTaxMonotone(TaxBrackets, lo, hi);
  }

  /** ... but it is not continuous: it jumps at each threshold, because the
      rate applies to the whole income. */
  lemma AnnualTaxJumps(taxable: real)
    ensures AnnualTax(35000.0) == 0.0
    ensures taxable > 35000.0 ==> AnnualTax(taxable) > 2800.0
    ensures AnnualTax(50000.0) == 4000.0
    ensures taxable > 50000.0 ==> AnnualTax(taxable) > 6500.0
    ensures AnnualTax(100000.0) == 13000.0
    ensures taxable > 100000.0 ==> AnnualTax(taxable) > 21000.0
  {
  }

  /** The monthly deduction is the annual estimate spread over twelve months
      and is never negative; incomes at or below 35000 are not taxed. */
  lemma PayslipTax(basic: real, otHours: real, bonus: real, allowance: real)
    ensures var p := CalculatePayroll(basic, otHours, bonus, allowance);
      var relief := if 12.0 * p.kwspEmployee <= 4000.0 then 12.0 * p.kwspEmployee else 4000.0;
      var taxable := 12.0 * p.grossSalary - relief - 9000.0;
      && p.taxDeduction >= 0.0
      && 12.0 * p.taxDeduction == TableTax(TaxBrackets, taxable)
      && (taxable <= 35000.0 <==> p.taxDeduction == 0.0)
  {
    var p := CalculatePayroll(basic, otHours, bonus, allowance);
    AnnualTaxIsTableTax(TaxableIncome(p.grossSalary, p.kwspEmployee));
  }

  // ---------------------------------------------------------------------------
  // Overtime and gross pay
  // ---------------------------------------------------------------------------

  /** Hourly rate is basic / 26 / 8, paid at 1.5 times per overtime hour. */
  lemma OvertimeFormula(basic: real, otHours: real, bonus: real, allowance: real)
    ensures var p := CalculatePayroll(basic, otHours, bonus, allowance);
      && 208.0 * p.otAmount == 1.5 * basic * otHours
      && p.grossSalary == basic + allowance + p.otAmount + bonus
  {
  }

  /** For a positive basic salary, more overtime hours mean strictly more
      overtime pay and strictly more gross pay. */
  lemma OvertimeMonotone(basic: real, fewer: real, more: real, bonus: real, allowance: real)
    requires basic > 0.0
    requires fewer < more
    ensures CalculatePayroll(basic, fewer, bonus, allowance).otAmount
          < CalculatePayroll(basic, more, bonus, allowance).otAmount
    ensures CalculatePayroll(basic, fewer, bonus, allowance).grossSalary
          < CalculatePayroll(basic, more, bonus, allowance).grossSalary
  {
    OvertimePayIncreasing(basic, fewer, more);
  }

  lemma OvertimePayIncreasing(basic: real, fewer: real, more: real)
    requires basic > 0.0
    requires fewer < more
    ensures OvertimePay(basic, fewer) < OvertimePay(basic, more)
  {
    var rate := HourlyRate(basic) * OtMultiplier;
    assert rate > 0.0;
    ScaleStrict(rate, fewer, more);
  }

  lemma ScaleStrict(rate: real, fewer: real, more: real)
    requires rate > 0.0
    requires fewer < more
    ensures rate * fewer < rate * more
  {
    var gap := more - fewer;
    assert rate * more == rate * fewer + rate * gap;
    assert rate * gap > 0.0;
  }

  /** With the defaults for bonus and allowance and no overtime, gross pay is
      the basic salary. */
  lemma GrossWithoutAdjustments(basic: real)
    ensures CalculatePayrollDefaults(basic, 0.0).otAmount == 0.0
    ensures CalculatePayrollDefaults(basic, 0.0).grossSalary == basic
  {
  }

  // ---------------------------------------------------------------------------
  // Statutory contributions
  // ---------------------------------------------------------------------------

  /** KWSP is 11% (employee) and 13% (employer) of the basic salary. */
  lemma KwspOfBasic(basic: real, otHours: real, bonus: real, allowance: real)
    ensures CalculatePayroll(basic, otHours, bonus, allowance).kwspEmployee == 0.11 * basic
    ensures CalculatePayroll(basic, otHours, bonus, allowance).kwspEmployer == 0.13 * basic
  {
  }

  /** Overtime, bonus and allowance do not change any contribution: all six
      depend on the basic salary alone. */
  lemma ContributionsIgnoreAdjustments(basic: real,
                                       otHours: real, bonus: real, allowance: real,
                                       otHours': real, bonus': real, allowance': real)
    ensures var p := CalculatePayroll(basic, otHours, bonus, allowance);
      var q := CalculatePayroll(basic, otHours', bonus', allowance');
      && p.kwspEmployee == q.kwspEmployee && p.kwspEmployer == q.kwspEmployer
      && p.socsoEmployee == q.socsoEmployee && p.socsoEmployer == q.socsoEmployer
      && p.eisEmployee == q.eisEmployee && p.eisEmployer == q.eisEmployer
  {
  }

  /** At or above the 5000 wage cap SOCSO and EIS are fixed amounts, however
      large the basic salary. */
  lemma ContributionsAtCap(basic: real, otHours: real, bonus: real, allowance: real)
    requires basic >= 5000.0
    ensures var p := CalculatePayroll(basic, otHours, bonus, allowance);
      && p.socsoEmployee == 25.0 && p.socsoEmployer == 87.5
      && p.eisEmployee == 10.0 && p.eisEmployer == 10.0
  {
  }

  /** Below the cap SOCSO and EIS are plain percentages of the basic salary. */
  lemma ContributionsBelowCap(basic: real, otHours: real, bonus: real, allowance: real)
    requires basic <= 5000.0
    ensures var p := CalculatePayroll(basic, otHours, bonus, allowance);
      && p.socsoEmployee == 0.005 * basic && p.socsoEmployer == 0.0175 * basic
      && p.eisEmployee == 0.002 * basic && p.eisEmployer == 0.002 * basic
  {
  }

  // ---------------------------------------------------------------------------
  // Totals
  // ---------------------------------------------------------------------------

  /** Net pay is gross pay less the four employee-side deductions; the
      employer contributions are not deducted. */
  lemma NetPay(basic: real, otHours: real, bonus: real, allowance: real)
    ensures var p := CalculatePayroll(basic, otHours, bonus, allowance);
      p.netSalary == p.grossSalary - p.kwspEmployee - p.socsoEmployee - p.eisEmployee - p.taxDeduction
  {
  }

  /** For non-negative inputs every field but the net salary is non-negative,
      and net pay never exceeds gross pay. */
  lemma NonNegativeFields(basic: real, otHours: real, bonus: real, allowance: real)
    requires basic >= 0.0 && otHours >= 0.0 && bonus >= 0.0 && allowance >= 0.0
    ensures var p := CalculatePayroll(basic, otHours, bonus, allowance);
      && p.grossSalary >= basic && p.otAmount >= 0.0
      && p.kwspEmployee >= 0.0 && p.kwspEmployer >= 0.0
      && p.socsoEmployee >= 0.0 && p.socsoEmployer >= 0.0
      && p.eisEmployee >= 0.0 && p.eisEmployer >= 0.0
      && p.taxDeduction >= 0.0 && p.totalDeductions >= 0.0
      && p.netSalary <= p.grossSalary
  {
  }

  // ---------------------------------------------------------------------------
  // The seeded employees as test vectors
  // ---------------------------------------------------------------------------

  /** EMP001 (basic 6500) with 10 overtime hours and an allowance of 500:
      taxable income is 76625, so the 13% bracket applies. */
  lemma SeedEmployeeOne()
    ensures var p := CalculatePayroll(6500.0, 10.0, 0.0, 500.0);
      && p.otAmount == 468.75 && p.grossSalary == 7468.75
      && p.kwspEmployee == 715.0 && p.kwspEmployer == 845.0
      && p.socsoEmployee == 25.0 && p.socsoEmployer == 87.5
      && p.eisEmployee == 10.0 && p.eisEmployer == 10.0
      && p.taxDeduction == 9961.25 / 12.0
      && p.totalDeductions == 750.0 + 9961.25 / 12.0
      && p.netSalary == 6718.75 - 9961.25 / 12.0
  {
    assert TaxableIncome(7468.75, 715.0) == 76625.0;
  }

  /** EMP002 (basic 4200) with no adjustments: below the wage cap, and taxable
      income 37400 falls in the 8% bracket. */
  lemma SeedEmployeeTwo()
    ensures var p := CalculatePayrollDefaults(4200.0, 0.0);
      && p.grossSalary == 4200.0
      && p.kwspEmployee == 462.0
      && p.socsoEmployee == 21.0 && p.eisEmployee == 8.4
      && p.taxDeduction == 2992.0 / 12.0
      && p.netSalary == 4200.0 - 491.4 - 2992.0 / 12.0
  {
    assert TaxableIncome(4200.0, 462.0) == 37400.0;
  }
}
