# HR-Payroll-Pro core, modelled in Dafny

HR-Payroll-Pro is a small HR administration web application. Its one piece of
real domain logic is the payroll calculator `calculatePayroll`
(services/store.ts). It takes a basic monthly salary, overtime hours, a bonus
and an allowance, and produces a payslip:

- overtime pay and gross pay;
- employee and employer KWSP (retirement fund), SOCSO (social security) and
  EIS (employment insurance) contributions, with the SOCSO and EIS wage capped
  at 5000;
- a monthly income-tax estimate from a flat-rate-per-bracket table;
- total deductions and net pay.

Two smaller pieces of logic sit inside page components. They are lifted out
here as pure functions:

- the clock-in/out button of the attendance page (a two-state toggle that
  prepends a log entry);
- the new-hire submission and the search filter of the employee page.

Files:

- `payroll.dfy` (module `Payroll`): the calculator over exact reals, one
  function per step.
- `tax_table.dfy` (module `TaxTable`): an independent table-driven definition
  of the tax lookup ("first bracket exceeded sets one flat rate on the whole
  income"), with its monotonicity proof.
- `payroll_properties.dfy` (module `PayrollProperties`): the properties of the
  payslip, and the two seeded employees as worked examples.
- `attendance.dfy` (module `Attendance`): the clock toggle, and what any run
  of presses does.
- `employees.dfy` (module `Employees`): id generation, appending a hire, and
  the search filter.
- `text.dfy` (module `Text`): the JavaScript string functions the pages use,
  each with a reference definition: `String(n)` with its round trip back to a
  number, `padStart`, ASCII `toLowerCase`, and `includes`.
- `options.dfy` (module `Options`): the result of a parser that may fail.

Three facts about the code shape the model:

- KWSP, SOCSO and EIS are charged on the basic salary only, so overtime,
  bonus and allowance do not change them.
- The calculator has no unpaid-leave deduction, no claims reimbursement, and
  no leave-entitlement or medical-limit calculation. Net pay is gross pay
  minus the employee-side deductions.
- The rates are literals inside `calculatePayroll`. They equal the constants
  in constants.ts, but that file is not used for them.

## Model

| member | source | states |
|---|---|---|
| Payroll.CalculatePayroll | services/store.ts:85-134 | total deductions are the four employee-side amounts (employer contributions excluded); net pay is gross less total deductions; SOCSO and EIS never exceed the amounts at the 5000 cap (25, 87.5, 10, 10); the tax deduction is never negative |
| Payroll.CalculatePayrollDefaults | services/store.ts:85-90 | omitting bonus and allowance makes gross pay the basic salary plus overtime pay, and the basic salary alone when there is no overtime |
| Payroll.OvertimePay | services/store.ts:88-89 | zero overtime hours give zero overtime pay; non-negative salary and hours give non-negative pay |
| Payroll.CappedWage | services/store.ts:99-103 | the SOCSO/EIS wage is the smaller of the basic salary and 5000 |
| Payroll.TaxableIncome | services/store.ts:109 | annual taxable income is 12 x gross less the 9000 personal relief less a KWSP relief that is the smaller of 12 x employee KWSP and 4000 |
| Payroll.AnnualTax | services/store.ts:110-113 | annual tax is never negative, and is zero exactly when taxable income is at most 35000 |
| Payroll.MonthlyTax | services/store.ts:115 | the monthly deduction is never negative, and is one twelfth of a non-negative annual tax |
| TaxTable.FirstMatchDecides | services/store.ts:110-113 | in a bracket table read from the top, the first threshold exceeded sets one flat rate on the whole income |
| TaxTable.NoMatchNoTax | services/store.ts:110 | income at or below every threshold pays no tax |
| TaxTable.TableTaxMonotone | services/store.ts:110-113 | when rates do not rise down the table, more income never means less tax |
| PayrollProperties.AnnualTaxIsTableTax | services/store.ts:110-113 | the if/else-if chain equals the table lookup over (100000, 21%), (50000, 13%), (35000, 8%) |
| PayrollProperties.AnnualTaxMonotone | services/store.ts:110-113 | annual tax never decreases as taxable income rises |
| PayrollProperties.AnnualTaxJumps | services/store.ts:111-113 | tax jumps at each threshold: 0 at 35000 but above 2800 just past it, 4000 at 50000 but above 6500 past it, 13000 at 100000 but above 21000 past it |
| PayrollProperties.PayslipTax | services/store.ts:109-115 | 12 x the payslip's tax deduction is the table tax of the taxable income; the deduction is zero exactly when taxable income is at most 35000 |
| PayrollProperties.OvertimeFormula | services/store.ts:88-90 | overtime pay is 1.5 x basic / 208 per hour, and gross is basic + allowance + overtime + bonus |
| PayrollProperties.OvertimeMonotone | services/store.ts:88-90 | for a positive basic salary, more overtime hours give strictly more overtime pay and gross pay |
| PayrollProperties.GrossWithoutAdjustments | services/store.ts:85-90 | with defaults and no overtime, overtime pay is 0 and gross pay equals basic |
| PayrollProperties.KwspOfBasic | services/store.ts:94-95 | employee and employer KWSP are 11% and 13% of the basic salary |
| PayrollProperties.ContributionsIgnoreAdjustments | services/store.ts:94-105 | overtime, bonus and allowance change none of the six contribution amounts |
| PayrollProperties.ContributionsAtCap | services/store.ts:99-105 | for basic of 5000 or more, SOCSO is 25 and 87.5 and EIS is 10 and 10, however large the salary |
| PayrollProperties.ContributionsBelowCap | services/store.ts:99-105 | up to 5000, SOCSO and EIS are 0.5%, 1.75%, 0.2% and 0.2% of basic |
| PayrollProperties.NetPay | services/store.ts:118-119 | net pay is gross less employee KWSP, SOCSO, EIS and tax; employer contributions are not deducted |
| PayrollProperties.NonNegativeFields | services/store.ts:85-119 | for non-negative inputs every field except net pay is non-negative, gross is at least basic, and net never exceeds gross |
| PayrollProperties.SeedEmployeeOne | services/store.ts:36 | EMP001 (basic 6500) with 10 OT hours and allowance 500: OT 468.75, gross 7468.75, KWSP 715, SOCSO 25, EIS 10, taxable 76625 taxed at 13%, tax 9961.25/12 a month |
| PayrollProperties.SeedEmployeeTwo | services/store.ts:60 | EMP002 (basic 4200), no adjustments: KWSP 462, SOCSO 21, EIS 8.4, taxable 37400 taxed at 8% |
| Attendance.ClockAction | pages/Attendance.tsx:22-32 | a press adds exactly one log at the head and keeps the earlier logs in order; from 'Clocked Out' it logs In and clocks in, from 'Clocked In' it logs Out and clocks out |
| Attendance.TwoActionsRestoreStatus | pages/Attendance.tsx:31 | two presses in a row restore the status |
| Attendance.RunShape | pages/Attendance.tsx:22-32 | after n presses the n new logs come first, newest first, with alternating kinds; the old logs are unchanged behind them; the status has toggled n times |
| Attendance.FromInitialState | pages/Attendance.tsx:15-32 | from the initial 'Clocked Out' state the new logs read In, Out, In, ... and the status is 'Clocked In' exactly when the number of presses is odd |
| Employees.NewId | pages/Employees.tsx:29 | a new id is "EMP" then count + 1 in decimal, at least three digits, with a leading zero only when padded to exactly three; reading its digits back gives count + 1 |
| Employees.NewIdInjective | pages/Employees.tsx:29 | different counts give different ids |
| Employees.NewIdExamples | pages/Employees.tsx:29 | counts 0, 1, 2, 999 give EMP001, EMP002, EMP003, EMP1000 |
| Employees.AppendHire | pages/Employees.tsx:25-33 | submitting appends exactly one record at the end, earlier records unchanged; the record has the generated id, the typed name, e-mail, department and job title, the chosen status or else the form's, the form's medical claim fields, and the parsed age and salary, each 0 when missing or unparseable |
| Employees.SecondHireLosesMedicalDefaults | pages/Employees.tsx:12-35 | as written, the first hire from a fresh page gets a medical balance of 1000 and the second gets none |
| Employees.EveryHireGetsMedicalDefaults | pages/Employees.tsx:12-18 | with the corrected reset, each hire gets balance 1000 and 0 used, and the form is ready for the next hire |
| Employees.SeedWellNumbered | services/store.ts:17-66 | the seeded records carry the ids a sequence of submissions would have given them |
| Employees.SubmitKeepsNumbering | pages/Employees.tsx:29-33 | appending a hire, as both versions of the submit handler do, keeps every record's id equal to the id of its position |
| Employees.SubmitAsWrittenKeepsNumbering | pages/Employees.tsx:25-36 | the submit handler as written keeps every record's id equal to the id of its position |
| Employees.WellNumberedIdsDistinct | pages/Employees.tsx:29-33 | in a list built this way, no two records share an id |
| Employees.Filter | pages/Employees.tsx:38-42 | a record is in the result exactly when it is in the list and the lower-cased term occurs in its lower-cased name, e-mail or department; each matching record appears as many times as in the list |
| Employees.FilterIsSubList | pages/Employees.tsx:38 | the filtered list is the employee list with some records removed and the rest in order |
| Employees.FilterEmptyTerm | pages/Employees.tsx:38-42 | an empty search term keeps every record |
| Employees.MatchesIgnoresTermCase | pages/Employees.tsx:39-41 | lower-casing the term first does not change which records match |

## Left out

- Payroll.CalculatePayroll: the `parseFloat(x.toFixed(2))` rounding of every returned field is left out, because it is IEEE-double and string behaviour. The fields are exact reals. The rounded fields need not satisfy the sum identities to the cent.
- Payroll.CalculatePayroll: JavaScript numbers are doubles. The model computes over exact reals, so it has no rounding error in products such as `basic * 0.11`.
- Payroll.CalculatePayroll: negative inputs are not rejected by the source and are not excluded here; the non-negativity lemmas assume non-negative inputs. Non-finite inputs (NaN, ±Infinity) have no counterpart among the reals and are not modelled.
- Text.Lower: lower-cases ASCII letters only. JavaScript's `toLowerCase` also maps other Unicode letters.
- Text.ToDecimal: gives plain digits for every natural number. JavaScript's `String(n)` switches to exponent notation from 10^21.
- Employees.AppendHire: `parseInt` and `parseFloat` are parameters returning `None` for NaN. Their parsing rules (whitespace, signs, hex prefixes, trailing text) are not modelled.
- Employees.Employee carries only the fields the page's logic reads or writes. The other text fields the form copies through unchanged (phone, IC number, address, bank and statutory numbers, dates, gender, employment type) are not modelled.
- Attendance: the log id (`Date.now()`) and the formatted time and date are an input `Stamp`. The live clock (`setInterval`) and locale formatting are not modelled.
- The employee selector of the attendance page does not affect the toggle, and is left out.
- JSX rendering, React hooks, tab switching other than the tab set by a submission, and routing are user interface and are left out.
- The staff-profile, payroll, dashboard and administration pages are form plumbing or display, and are left out. The staff-profile page also uses names that services/store.ts and types.ts do not define (`addClaim`, `mockClaimRecords`, `salaryPackage`, `leaveBalance`, `accumulatedOvertimeHours`).
- `PayrollRecord` in types.ts is never produced by the modelled code, and is left out.
- The mock asset, task and leave arrays of services/store.ts are data only, and are left out.

## Findings

| source | as written | input that shows it | evidently intended | confidence | as-written member | corrected member |
|---|---|---|---|---|---|---|
| pages/Employees.tsx:35 | after a submission the form is reset to gender, employment type and status only, dropping the `medicalClaimBalance: 1000` and `medicalClaimUsed: 0` defaults of lines 15-16 | open the page and submit two hires: the first has balance 1000, the second has the balance undefined | every new hire starts with a medical claim balance of 1000 and nothing used | medium, not executed | Employees.SecondHireLosesMedicalDefaults | Employees.EveryHireGetsMedicalDefaults |
