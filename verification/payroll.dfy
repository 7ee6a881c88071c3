/** The payroll calculator `calculatePayroll` of services/store.ts: from a
    basic monthly salary, overtime hours, a bonus and an allowance it derives
    overtime pay, gross pay, employee and employer KWSP, SOCSO and EIS
    contributions, an estimated monthly income tax (PCB), total deductions and
    net pay. All amounts are exact reals; the source's final rounding of each
    field to two decimals is not modelled. */
module Payroll {

  // Rates and limits written as literals inside calculatePayroll.
  const WorkingDaysPerMonth: real := 26.0
  const WorkingHoursPerDay: real := 8.0
  const OtMultiplier: real := 1.5
  const KwspEmployeeRate: real := 0.11
  const KwspEmployerRate: real := 0.13
  const SocsoEmployeeRate: real := 0.005
  const SocsoEmployerRate: real := 0.0175
  const EisEmployeeRate: real := 0.002
  const EisEmployerRate: real := 0.002
  /** Wage ceiling for both SOCSO and EIS. */
  const WageCap: real := 5000.0
  /** Ceiling on the annual KWSP contribution deductible before tax. */
  const KwspReliefCap: real := 4000.0
  const PersonalRelief: real := 9000.0

  /** The object calculatePayroll returns, before rounding. */
  datatype Payslip = Payslip(
    grossSalary: real,
    otAmount: real,
    kwspEmployee: real,
    kwspEmployer: real,
    socsoEmployee: real,
    socsoEmployer: real,
    eisEmployee: real,
    eisEmployer: real,
    taxDeduction: real,
    netSalary: real,
    totalDeductions: real)

  // ---------------------------------------------------------------------------
  // Steps of the calculation
  // ---------------------------------------------------------------------------

  function HourlyRate(basic: real): real {
    (basic / WorkingDaysPerMonth) / WorkingHoursPerDay
  }

  /** Overtime pay: one and a half times the hourly rate per overtime hour. */
  function OvertimePay(basic: real, otHours: real): (ot: real)
    ensures otHours == 0.0 ==> ot == 0.0
    ensures basic >= 0.0 && otHours >= 0.0 ==> ot >= 0.0
  {
    HourlyRate(basic) * OtMultiplier * otHours
  }

  /** The wage SOCSO and EIS are charged on: `Math.min(basic, 5000)`. */
  function CappedWage(basic: real): (w: real)
    ensures w <= basic && w <= WageCap
    ensures w == basic || w == WageCap
  {
    if basic <= WageCap then basic else WageCap
  }

  /** Annualised taxable income after the capped KWSP relief and the
      personal relief. */
  function TaxableIncome(gross: real, kwspEmp: real): (t: real)
    // The KWSP relief taken off is the smaller of the annual contribution and the cap.
    ensures var relief := 12.0 * gross - PersonalRelief - t;
      && relief <= KwspReliefCap
      && relief <= 12.0 * kwspEmp
      && (relief == KwspReliefCap || relief == 12.0 * kwspEmp)
  {
    var relief := if kwspEmp * 12.0 <= KwspReliefCap then kwspEmp * 12.0 else KwspReliefCap;
    gross * 12.0 - relief - PersonalRelief
  }

  /** The if/else-if chain: the first bracket whose threshold the taxable
      income exceeds sets a flat rate on the whole income. */
  function AnnualTax(taxable: real): (tax: real)
    ensures tax >= 0.0
    ensures tax == 0.0 <==> taxable <= 35000.0
  {
    if taxable > 100000.0 then taxable * 0.21
    else if taxable > 50000.0 then taxable * 0.13
    else if taxable > 35000.0 then taxable * 0.08
    else 0.0
  }

  /** `Math.max(0, annualTax / 12)`. */
  function MonthlyTax(annualTax: real): (m: real)
    ensures m >= 0.0
    ensures annualTax >= 0.0 ==> 12.0 * m == annualTax
    ensures annualTax < 0.0 ==> m == 0.0
  {
    if annualTax / 12.0 >= 0.0 then annualTax / 12.0 else 0.0
  }

  /** calculatePayroll(basic, otHours, bonus, allowance) without the final
      rounding. Statutory contributions are charged on `basic` alone. */
  function CalculatePayroll(basic: real, otHours: real, bonus: real, allowance: real): (p: Payslip)
    ensures p.totalDeductions == p.kwspEmployee + p.socsoEmployee + p.eisEmployee + p.taxDeduction
    ensures p.netSalary == p.grossSalary - p.totalDeductions
    ensures p.socsoEmployee <= 25.0 && p.socsoEmployer <= 87.5
    ensures p.eisEmployee <= 10.0 && p.eisEmployer <= 10.0
    ensures p.taxDeduction >= 0.0
  {
    var otAmount := OvertimePay(basic, otHours);
    var grossIncome := basic + allowance + otAmount + bonus;
    var kwspEmp := basic * KwspEmployeeRate;
    var kwspEmplr := basic * KwspEmployerRate;
    var socsoWage := CappedWage(basic);
    var eisWage := CappedWage(basic);
    var monthlyTax := MonthlyTax(AnnualTax(TaxableIncome(grossIncome, kwspEmp)));
    var socsoEmp := socsoWage * SocsoEmployeeRate;
    var eisEmp := eisWage * EisEmployeeRate;
    var totalDeductions := kwspEmp + socsoEmp + eisEmp + monthlyTax;
    Payslip(
      grossSalary := grossIncome,
      otAmount := otAmount,
      kwspEmployee := kwspEmp,
      kwspEmployer := kwspEmplr,
      socsoEmployee := socsoEmp,
      socsoEmployer := socsoWage * SocsoEmployerRate,
      eisEmployee := eisEmp,
      eisEmployer := eisWage * EisEmployerRate,
      taxDeduction := monthlyTax,
      netSalary := grossIncome - totalDeductions,
      totalDeductions := totalDeductions)
  }

  /** The call with `bonus` and `allowance` left to their defaults of 0. */
  function CalculatePayrollDefaults(basic: real, otHours: real): (p: Payslip)
    ensures p.grossSalary == basic + p.otAmount
    ensures otHours == 0.0 ==> p.grossSalary == basic
  {
    CalculatePayroll(basic, otHours, 0.0, 0.0)
  }
}
