/** The employee list page of pages/Employees.tsx, lifted out of the UI:
    submitting the new-hire form appends a record with a generated id, and
    the search box filters the list by name, e-mail or department.
    `parseInt` and `parseFloat` come in as parsers returning `None` for NaN. */
module Employees {
  import opened Options
  import opened Text

  datatype EmployeeStatus = Active | Resigned | Interviewing

  /** The fields of an employee record this page reads or writes. The medical
      claim fields are optional because a record built from a form that lacks
      them leaves them undefined. */
  datatype Employee = Employee(
    id: string,
    fullName: string,
    email: string,
    department: string,
    jobTitle: string,
    status: EmployeeStatus,
    age: int,
    basicSalary: real,
    medicalClaimBalance: Option<real>,
    medicalClaimUsed: Option<real>)

  /** The defaults the page puts into the new-hire form in code. */
  datatype HireForm = HireForm(
    status: EmployeeStatus,
    medicalClaimBalance: Option<real>,
    medicalClaimUsed: Option<real>)

  /** What the user typed into the form before submitting. Name, e-mail, job
      title, department and basic salary are required inputs; there is no
      input for age; `status` is `None` unless the select was changed. */
  datatype Entry = Entry(
    fullName: string,
    email: string,
    department: string,
    jobTitle: string,
    basicSalary: string,
    age: Option<string>,
    status: Option<EmployeeStatus>)

  datatype Tab = ListTab | NewTab

  datatype Page = Page(employees: seq<Employee>, form: HireForm, tab: Tab)

  /** The form as the page first creates it. */
  const InitialForm: HireForm := HireForm(Interviewing, Some(1000.0), Some(0.0))

  /** The two seeded records of services/store.ts. */
  const SeedEmployees: seq<Employee> := [
    Employee("EMP001", "Ali bin Abu", "ali@company.com", "IT Support", "Senior Developer",
             Active, 34, 6500.0, Some(850.0), Some(150.0)),
    Employee("EMP002", "Siti Sarah", "siti@company.com", "Human Resources", "HR Executive",
             Active, 29, 4200.0, Some(1000.0), Some(0.0))
  ]

  const InitialPage: Page := Page(SeedEmployees, InitialForm, ListTab)

  // ---------------------------------------------------------------------------
  // Employee ids
  // ---------------------------------------------------------------------------

  /** The id of the hire submitted when the list holds `count` records:
      "EMP" and count + 1 in decimal, zero-padded to at least three digits. */
  function NewId(count: nat): (id: string)
    ensures |id| >= 6
    ensures id[..3] == "EMP"
    ensures AllDigits(id[3..]) && DigitsValue(id[3..]) == count + 1
    ensures |id| == 6 || id[3] != '0'
  {
    var decimal := ToDecimal(count + 1);
    var digits := PadStart(decimal, 3, '0');
    var id := "EMP" + digits;
    assert id[3..] == digits;
    PaddedDecimalValue(count + 1, 3);
    assert |decimal| >= 3 ==> digits == decimal && id[3] == decimal[0];
    id
  }

  lemma NewIdInjective(a: nat, b: nat)
    ensures NewId(a) == NewId(b) ==> a == b
  {
  }

  lemma NewIdExamples()
    ensures NewId(0) == "EMP001"
    ensures NewId(1) == "EMP002"
    ensures NewId(2) == "EMP003"
    ensures NewId(999) == "EMP1000"
  {
    ShortIdExample(0, '1');
    assert "EMP00" + ['1'] == "EMP001";
    ShortIdExample(1, '2');
    assert "EMP00" + ['2'] == "EMP002";
    ShortIdExample(2, '3');
    assert "EMP00" + ['3'] == "EMP003";
    FourDigitIdExample();
  }

  lemma ShortIdExample(count: nat, digit: char)
    requires count < 9
    requires digit as int == '0' as int + count + 1
    ensures NewId(count) == "EMP00" + [digit]
  {
    assert ToDecimal(count + 1) == [digit];
    assert PadStart([digit], 3, '0') == "00" + [digit];
  }

  lemma FourDigitIdExample()
    ensures NewId(999) == "EMP1000"
  {
    var d := ToDecimal(1000);
    DecimalStep(1000);
    DecimalStep(100);
    DecimalStep(10);
    assert ToDecimal(1) == "1";
    assert d == "1000";
    assert PadStart(d, 3, '0') == d;
  }

  lemma DecimalStep(n: nat)
    requires n >= 10
    ensures ToDecimal(n) == ToDecimal(n / 10) + [DigitChar(n % 10)]
  {
  }

  // ---------------------------------------------------------------------------
  // Submitting a new hire
  // ---------------------------------------------------------------------------

  /** `parseX(raw) || 0`: NaN, and a missing field, become 0. */
  function NumberOrZero<N>(raw: Option<string>, parse: string -> Option<N>, zero: N): (n: N)
    ensures raw.None? ==> n == zero
    ensures raw.Some? && parse(raw.value).None? ==> n == zero
    ensures raw.Some? && parse(raw.value).Some? ==> n == parse(raw.value).value
  {
    match raw
    case None => zero
    case Some(s) => parse(s).GetOr(zero)
  }

  /** The record handleSubmit builds from the form and the typed entry. */
  function NewHire(count: nat, form: HireForm, entry: Entry,
                   parseInt: string -> Option<int>, parseFloat: string -> Option<real>): Employee
  {
    Employee(
      id := NewId(count),
      fullName := entry.fullName,
      email := entry.email,
      department := entry.department,
      jobTitle := entry.jobTitle,
      status := entry.status.GetOr(form.status),
      age := NumberOrZero(entry.age, parseInt, 0),
      basicSalary := NumberOrZero(Some(entry.basicSalary), parseFloat, 0.0),
      medicalClaimBalance := form.medicalClaimBalance,
      medicalClaimUsed := form.medicalClaimUsed)
  }

  /** `setEmployees([...employees, employee])`. */
  function AppendHire(employees: seq<Employee>, form: HireForm, entry: Entry,
                      parseInt: string -> Option<int>, parseFloat: string -> Option<real>)
    : (r: seq<Employee>)
    ensures |r| == |employees| + 1
    ensures r[..|employees|] == employees
    ensures r[|employees|].id == NewId(|employees|)
    ensures r[|employees|].fullName == entry.fullName
    ensures r[|employees|].email == entry.email
    ensures r[|employees|].department == entry.department
    ensures r[|employees|].jobTitle == entry.jobTitle
    ensures r[|employees|].status == (if entry.status.Some? then entry.status.value else form.status)
    ensures r[|employees|].medicalClaimBalance == form.medicalClaimBalance
    ensures r[|employees|].medicalClaimUsed == form.medicalClaimUsed
    ensures entry.age.None? ==> r[|employees|].age == 0
    ensures entry.age.Some? && parseInt(entry.age.value).None? ==> r[|employees|].age == 0
    ensures entry.age.Some? && parseInt(entry.age.value).Some? ==>
              r[|employees|].age == parseInt(entry.age.value).value
    ensures parseFloat(entry.basicSalary).None? ==> r[|employees|].basicSalary == 0.0
    ensures parseFloat(entry.basicSalary).Some? ==>
              r[|employees|].basicSalary == parseFloat(entry.basicSalary).value
  {
    employees + [NewHire(|employees|, form, entry, parseInt, parseFloat)]
  }

  /** The form handleSubmit resets to: it omits the medical claim defaults the
      page started with. */
  const ResetFormAsWritten: HireForm := HireForm(Interviewing, None, None)

  /** handleSubmit as written: append, show the list, reset the form to
      `ResetFormAsWritten`. */
  function HandleSubmitAsWritten(page: Page, entry: Entry,
                                 parseInt: string -> Option<int>, parseFloat: string -> Option<real>)
    : (next: Page)
    ensures next.employees == AppendHire(page.employees, page.form, entry, parseInt, parseFloat)
    ensures next.tab == ListTab
    ensures next.form.medicalClaimBalance.None?
  {
    Page(AppendHire(page.employees, page.form, entry, parseInt, parseFloat), ResetFormAsWritten, ListTab)
  }

  /** handleSubmit with the form reset to the page's initial defaults. */
  function HandleSubmit(page: Page, entry: Entry,
                        parseInt: string -> Option<int>, parseFloat: string -> Option<real>)
    : (next: Page)
    ensures next.employees == AppendHire(page.employees, page.form, entry, parseInt, parseFloat)
    ensures next.tab == ListTab
    ensures next.form.medicalClaimBalance == Some(1000.0)
  {
    Page(AppendHire(page.employees, page.form, entry, parseInt, parseFloat), InitialForm, ListTab)
  }

  /** As written, the second hire submitted from a fresh page gets no medical
      claim balance, while the first gets 1000. */
  lemma SecondHireLosesMedicalDefaults(employees: seq<Employee>, first: Entry, second: Entry,
                                       parseInt: string -> Option<int>,
                                       parseFloat: string -> Option<real>)
    ensures var p1 := HandleSubmitAsWritten(Page(employees, InitialForm, NewTab), first, parseInt, parseFloat);
      var p2 := HandleSubmitAsWritten(p1, second, parseInt, parseFloat);
      && p1.employees[|employees|].medicalClaimBalance == Some(1000.0)
      && p2.employees[|employees| + 1].medicalClaimBalance.None?
      && p2.employees[|employees| + 1].medicalClaimUsed.None?
  {
  }

  /** With the corrected reset, every hire submitted from the initial form
      starts with a balance of 1000 and nothing used, and the form comes back
      unchanged for the next hire. */
  lemma EveryHireGetsMedicalDefaults(page: Page, entry: Entry,
                                     parseInt: string -> Option<int>,
                                     parseFloat: string -> Option<real>)
    requires page.form == InitialForm
    ensures var next := HandleSubmit(page, entry, parseInt, parseFloat);
      && next.form == InitialForm
      && next.employees[|page.employees|].medicalClaimBalance == Some(1000.0)
      && next.employees[|page.employees|].medicalClaimUsed == Some(0.0)
  {
  }

  /** Every record's id is the one `NewId` gives its position, as for a list
      built by submissions only. */
  ghost predicate WellNumbered(employees: seq<Employee>) {
    forall i :: 0 <= i < |employees| ==> employees[i].id == NewId(i)
  }

  /** The page opens on the seeded list, numbered as submissions would number it. */
  lemma SeedWellNumbered()
    ensures WellNumbered(InitialPage.employees)
  {
    NewIdExamples();
  }

  /** Appending a hire keeps every record's id equal to the id of its
      position; both versions of handleSubmit append this way. */
  lemma SubmitKeepsNumbering(employees: seq<Employee>, form: HireForm, entry: Entry,
                             parseInt: string -> Option<int>, parseFloat: string -> Option<real>)
    requires WellNumbered(employees)
    ensures WellNumbered(AppendHire(employees, form, entry, parseInt, parseFloat))
  {
    var next := AppendHire(employees, form, entry, parseInt, parseFloat);
    forall i | 0 <= i < |next| ensures next[i].id == NewId(i) {
      if i < |employees| {
        assert next[i] == next[..|employees|][i];
      }
    }
  }

  lemma SubmitAsWrittenKeepsNumbering(page: Page, entry: Entry,
                                      parseInt: string -> Option<int>,
                                      parseFloat: string -> Option<real>)
    requires WellNumbered(page.employees)
    ensures WellNumbered(HandleSubmitAsWritten(page, entry, parseInt, parseFloat).employees)
  {
    SubmitKeepsNumbering(page.employees, page.form, entry, parseInt, parseFloat);
  }

  /** In a list built by submissions, no two records share an id. */
  lemma WellNumberedIdsDistinct(employees: seq<Employee>, i: nat, j: nat)
    requires WellNumbered(employees)
    requires i < j < |employees|
    ensures employees[i].id != employees[j].id
  {
    NewIdInjective(i, j);
  }

  // ---------------------------------------------------------------------------
  // Search
  // ---------------------------------------------------------------------------

  /** The search predicate: the lower-cased term occurs in the lower-cased
      full name, e-mail or department. */
  predicate Matches(e: Employee, term: string) {
    var needle := Lower(term);
    || Includes(Lower(e.fullName), needle)
    || Includes(Lower(e.email), needle)
    || Includes(Lower(e.department), needle)
  }

  /** `employees.filter(...)`. */
  function Filter(employees: seq<Employee>, term: string): (r: seq<Employee>)
    ensures |r| <= |employees|
    ensures forall e :: e in r <==> e in employees && Matches(e, term)
    ensures forall e :: multiset(r)[e] == if Matches(e, term) then multiset(employees)[e] else 0
    decreases |employees|
  {
    if |employees| == 0 then []
    else
      var rest := Filter(employees[1..], term);
      assert employees == [employees[0]] + employees[1..];
      assert multiset(employees) == multiset{employees[0]} + multiset(employees[1..]);
      if Matches(employees[0], term) then
        assert multiset([employees[0]] + rest) == multiset{employees[0]} + multiset(rest);
        [employees[0]] + rest
      else rest
  }

  /** `a` is `b` with some elements removed, the rest in their order. */
  ghost predicate SubList<T>(a: seq<T>, b: seq<T>)
    decreases |b|
  {
    if |a| == 0 then true
    else if |b| == 0 then false
    else (a[0] == b[0] && SubList(a[1..], b[1..])) || SubList(a, b[1..])
  }

  lemma {:induction false} FilterIsSubList(employees: seq<Employee>, term: string)
    ensures SubList(Filter(employees, term), employees)
    decreases |employees|
  {
    if |employees| > 0 {
      FilterIsSubList(employees[1..], term);
      var r := Filter(employees, term);
      var rest := Filter(employees[1..], term);
      if Matches(employees[0], term) {
        assert r[1..] == rest;
      } else if |r| > 0 {
        assert r == rest;
      }
    }
  }

  /** An empty search term keeps every record. */
  lemma {:induction false} FilterEmptyTerm(employees: seq<Employee>)
    ensures Filter(employees, "") == employees
    decreases |employees|
  {
    if |employees| > 0 {
      var e := employees[0];
      assert Lower("") == "";
      IncludesEmpty(Lower(e.fullName));
      FilterEmptyTerm(employees[1..]);
      assert employees == [e] + employees[1..];
    }
  }

  /** The search ignores ASCII case in the term. */
  lemma MatchesIgnoresTermCase(e: Employee, term: string)
    ensures Matches(e, Lower(term)) == Matches(e, term)
  {
    LowerIdempotent(term);
  }
}
