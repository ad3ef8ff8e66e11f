/** The four-step document form: the e-mail and name checks, the error map
    each step's validation fills, the clause toggle, the step index and the
    field updates.  Dates are time values (milliseconds) compared as
    numbers, "today" (local midnight) is an input, and the salary check
    (`parseFloat`) is an input verdict. */
module DocumentForm {
  import opened Js
  import opened DocumentStatus
  import EnvConfig
  import PreviewHeader
  import PdfGenerator

  // ------------------------------------------------------------- e-mail

  /** `/^\S+@\S+\.\S+$/.test(email)`: no whitespace anywhere, and some `@`
      after at least one character, followed by at least one character, a
      `.`, and at least one more character. */
  predicate EmailMatches(s: string)
  {
    (forall k :: 0 <= k < |s| ==> !IsSpace(s[k]))
    && exists i, j :: 1 <= i && i + 2 <= j <= |s| - 2 && s[i] == '@' && s[j] == '.'
  }

  /** The least index at or after `k` holding `c`, or |s|. */
  function FindFrom(s: string, c: char, k: nat): (r: nat)
    requires k <= |s|
    ensures k <= r <= |s|
    ensures r < |s| ==> s[r] == c
    ensures forall m :: k <= m < r ==> s[m] != c
    decreases |s| - k
  {
    if k == |s| then k else if s[k] == c then k else FindFrom(s, c, k + 1)
  }

  /** The greatest index at or before `k` holding `c`, or -1. */
  function FindBack(s: string, c: char, k: int): (r: int)
    requires -1 <= k < |s|
    ensures -1 <= r <= k
    ensures r >= 0 ==> s[r] == c
    ensures forall m :: r < m <= k ==> s[m] != c
    decreases k + 1
  {
    if k < 0 then -1 else if s[k] == c then k else FindBack(s, c, k - 1)
  }

  /** `validateEmail`, computed with one forward scan for the first `@`
      past the start and one backward scan for the last `.` before the
      end. */
  function ValidateEmail(s: string): bool
  {
    if |s| < 5 then false
    else
      var i := FindFrom(s, '@', 1);
      var j := FindBack(s, '.', |s| - 2);
      (forall k :: 0 <= k < |s| ==> !IsSpace(s[k])) && i < |s| && i + 2 <= j
  }

  /** The scans decide the regex exactly. */
  lemma ValidateEmailMatches(s: string)
    ensures ValidateEmail(s) <==> EmailMatches(s)
  {
    if EmailMatches(s) {
      var i, j :| 1 <= i && i + 2 <= j <= |s| - 2 && s[i] == '@' && s[j] == '.';
      var i0 := FindFrom(s, '@', 1);
      var j0 := FindBack(s, '.', |s| - 2);
      assert i0 <= i;
      assert j <= j0;
    }
    if ValidateEmail(s) {
      var i0 := FindFrom(s, '@', 1);
      var j0 := FindBack(s, '.', |s| - 2);
      assert 1 <= i0 && i0 + 2 <= j0 <= |s| - 2 && s[i0] == '@' && s[j0] == '.';
    }
  }

  /** Characters the name pattern `[a-zA-Z\s'-]` accepts. */
  predicate NameChar(c: char)
  {
    IsLetterAscii(c) || IsSpace(c) || c == '\'' || c == '-'
  }

  /** `validateName`: not blank, and only letters, whitespace, apostrophes
      and hyphens. */
  predicate ValidateName(name: string)
  {
    !Blank(name) && forall i :: 0 <= i < |name| ==> NameChar(name[i])
  }

  /** A valid name holds a letter, an apostrophe or a hyphen; a name with a
      digit or a full stop (so also a company name such as "Acme Inc.") is
      refused. */
  lemma ValidNameShape(name: string)
    ensures ValidateName(name) ==> exists i :: 0 <= i < |name| && (IsLetterAscii(name[i]) || name[i] == '\'' || name[i] == '-')
    ensures (exists i :: 0 <= i < |name| && (IsDigitAscii(name[i]) || name[i] == '.')) ==> !ValidateName(name)
  {
    if ValidateName(name) {
      var k :| 0 <= k < |name| && !IsSpace(name[k]);
      assert NameChar(name[k]);
    }
  }

  // -------------------------------------------------------------- clauses

  datatype Clause = Clause(id: string, required: bool)

  /** The clause catalogue, in order. */
  const AvailableClauses := [
    Clause("confidentiality", true),
    Clause("non-compete", false),
    Clause("intellectual-property", true),
    Clause("termination", true),
    Clause("dispute-resolution", false)]

  /** The preselected clauses. */
  const InitialClauses := ["confidentiality", "intellectual-property", "termination"]

  /** `availableClauses.find(c => c.id === id)?.required`: false also for an
      id that is not in the catalogue. */
  predicate IsRequired(id: string)
  {
    exists i :: 0 <= i < |AvailableClauses| && AvailableClauses[i].id == id && AvailableClauses[i].required
  }

  /** Every required clause of the catalogue is selected. */
  predicate AllRequired(selected: seq<string>)
  {
    forall i :: 0 <= i < |AvailableClauses| && AvailableClauses[i].required ==> AvailableClauses[i].id in selected
  }

  /** The required clauses are exactly the three preselected ones. */
  lemma RequiredClauses(id: string)
    ensures IsRequired(id) <==> id in InitialClauses
  {
    if id in InitialClauses {
      var k :| 0 <= k < 3 && InitialClauses[k] == id;
      if k == 0 { assert AvailableClauses[0].id == id; }
      else if k == 1 { assert AvailableClauses[2].id == id; }
      else { assert AvailableClauses[3].id == id; }
    }
  }

  /** `selected.filter(x => x !== id)`. */
  function Remove(selected: seq<string>, id: string): (r: seq<string>)
    ensures forall x :: x in r <==> x in selected && x != id
    ensures |r| <= |selected|
  {
    if selected == [] then []
    else if selected[0] == id then Remove(selected[1..], id)
    else [selected[0]] + Remove(selected[1..], id)
  }

  /** `toggleClause`: a required clause is never toggled; another one is
      removed (every occurrence) when selected, and appended otherwise. */
  function Toggle(selected: seq<string>, id: string): seq<string>
  {
    if IsRequired(id) then selected
    else if id in selected then Remove(selected, id)
    else selected + [id]
  }

  /** A required clause's toggle changes nothing; another clause changes
      membership of that id only; toggling twice restores every
      membership. */
  lemma ToggleMembership(selected: seq<string>, id: string)
    ensures IsRequired(id) ==> Toggle(selected, id) == selected
    ensures !IsRequired(id) ==> (id in Toggle(selected, id) <==> id !in selected)
    ensures forall x | x != id :: x in Toggle(selected, id) <==> x in selected
    ensures forall x :: x in Toggle(Toggle(selected, id), id) <==> x in selected
  {
  }

  /** Step 3 holds exactly when every required clause is selected; the
      preselection meets it, and no toggle breaks it. */
  lemma ClauseSelectionValid(selected: seq<string>, id: string)
    ensures AllRequired(InitialClauses)
    ensures AllRequired(selected) ==> AllRequired(Toggle(selected, id))
  {
    assert AvailableClauses[0].id == InitialClauses[0];
    assert AvailableClauses[2].id == InitialClauses[1];
    assert AvailableClauses[3].id == InitialClauses[2];
    if AllRequired(selected) && !IsRequired(id) {
      forall i | 0 <= i < |AvailableClauses| && AvailableClauses[i].required
        ensures AvailableClauses[i].id in Toggle(selected, id)
      {
        assert AvailableClauses[i].id != id;
      }
    }
  }

  // ------------------------------------------------------------ the data

  /** The form's fields, by the names the form's state and its error map
      use. */
  datatype Field =
    | CompanyName | CompanyEmail | CompanyAddress
    | EmployeeName | EmployeeEmail | EmployeeAddress
    | Salary | PaymentFrequency | Position | Department | CustomClause
    | StartDate | EndDate | SelectedClauses

  /** The form's data: its text fields by name, the two dates, and the
      selected clauses. */
  datatype FormData = FormData(
    text: map<Field, string>,
    startDate: Option<int>,
    endDate: Option<int>,
    selectedClauses: seq<string>)

  /** The fields typed as text (the others are the two dates and the
      clause list). */
  predicate TextField(f: Field)
  {
    !f.StartDate? && !f.EndDate? && !f.SelectedClauses?
  }

  /** A text field, "" when not set. */
  function TextOf(d: FormData, field: Field): string
  {
    if field in d.text then d.text[field] else ""
  }

  /** The empty form with the preselected clauses. */
  function InitialData(): FormData
  {
    FormData(map[CompanyName := "", CompanyEmail := "", CompanyAddress := "",
                 EmployeeName := "", EmployeeEmail := "", EmployeeAddress := "",
                 Salary := "", PaymentFrequency := "", Position := "", Department := "",
                 CustomClause := ""],
             None, None, InitialClauses)
  }

  // ------------------------------------------------------------ the errors

  const InvalidEmail := "Please enter a valid email address"

  /** The error for a name field: required first, then the pattern. */
  function NameError(value: string, required: string, invalid: string): Option<string>
  {
    if Blank(value) then Some(required) else if !ValidateName(value) then Some(invalid) else None
  }

  /** A name field has no error exactly when the name is valid; a blank one
      gets the "required" message and any other invalid one the pattern
      message. */
  lemma NameErrorCases(value: string, required: string, invalid: string)
    ensures NameError(value, required, invalid).None? <==> ValidateName(value)
    ensures Blank(value) ==> NameError(value, required, invalid) == Some(required)
    ensures !Blank(value) && !ValidateName(value) ==> NameError(value, required, invalid) == Some(invalid)
  {
  }

  /** The error for an e-mail field: required, then format, then the
      testing allow-list; one message at most. */
  function EmailError(value: string, required: string, testing: bool): Option<string>
  {
    if Blank(value) then Some(required)
    else if !ValidateEmail(value) then Some(InvalidEmail)
    else if !EnvConfig.ValidateTestingEmail(testing, value) then Some(EnvConfig.TestingMessage(EnvConfig.AllowedEmail))
    else None
  }

  /** The precedence, and acceptance exactly of a non-blank matching address
      the allow-list admits. */
  lemma EmailErrorPrecedence(value: string, required: string, testing: bool)
    ensures EmailError(value, required, testing).None? <==>
      !Blank(value) && EmailMatches(value) && EnvConfig.ValidateTestingEmail(testing, value)
    ensures Blank(value) ==> EmailError(value, required, testing) == Some(required)
    ensures !Blank(value) && !EmailMatches(value) ==> EmailError(value, required, testing) == Some(InvalidEmail)
    ensures !Blank(value) && EmailMatches(value) && !EnvConfig.ValidateTestingEmail(testing, value)
            ==> EmailError(value, required, testing) == Some(EnvConfig.TestingMessage(EnvConfig.AllowedEmail))
  {
    ValidateEmailMatches(value);
  }

  /** The error map with a field's error recorded when there is one. */
  function Record(m: map<Field, string>, field: Field, e: Option<string>): map<Field, string>
  {
    if e.Some? then m[field := e.value] else m
  }

  /** Recording leaves the map empty exactly when it was empty and there
      was no error. */
  lemma RecordEmpty(m: map<Field, string>, field: Field, e: Option<string>)
    ensures Record(m, field, e) == map[] <==> m == map[] && e.None?
  {
    if e.Some? {
      assert field in Record(m, field, e);
    }
  }

  /** A recorded error is the field's entry, and other fields keep theirs. */
  lemma RecordLookup(m: map<Field, string>, field: Field, e: Option<string>, other: Field)
    ensures e.Some? ==> field in Record(m, field, e) && Record(m, field, e)[field] == e.value
    ensures other != field ==> (other in Record(m, field, e) <==> other in m)
    ensures other != field && other in m ==> Record(m, field, e)[other] == m[other]
  {
  }

  /** The company name's error. */
  function CompanyNameError(d: FormData): Option<string>
  {
    NameError(TextOf(d, CompanyName), "Company name is required", "Please enter a valid company name")
  }

  /** The company e-mail's error. */
  function CompanyEmailError(d: FormData, testing: bool): Option<string>
  {
    EmailError(TextOf(d, CompanyEmail), "Company email is required", testing)
  }

  /** The employee name's error. */
  function EmployeeNameError(d: FormData): Option<string>
  {
    NameError(TextOf(d, EmployeeName), "Employee name is required",
              "Please enter a valid name (letters, spaces, hyphens, apostrophes only)")
  }

  /** The employee e-mail's error. */
  function EmployeeEmailError(d: FormData, testing: bool): Option<string>
  {
    EmailError(TextOf(d, EmployeeEmail), "Employee email is required", testing)
  }

  /** Step 1: the company and employee names and e-mails, in that order. */
  function Step1Errors(d: FormData, testing: bool): map<Field, string>
  {
    var m := Record(map[], CompanyName, CompanyNameError(d));
    var m := Record(m, CompanyEmail, CompanyEmailError(d, testing));
    var m := Record(m, EmployeeName, EmployeeNameError(d));
    Record(m, EmployeeEmail, EmployeeEmailError(d, testing))
  }

  /** The position: required. */
  function PositionError(d: FormData): Option<string>
  {
    if Blank(TextOf(d, Position)) then Some("Position title is required") else None
  }

  const PastStart := "Start date cannot be in the past"
  const EndNotAfterStart := "End date must be after start date"

  /** The start date: required, then not before today. */
  function StartDateError(start: Option<int>, today: int): Option<string>
  {
    if start.None? then Some("Start date is required")
    else if start.value < today then Some(PastStart)
    else None
  }

  /** The salary: required, then a number. */
  function SalaryError(d: FormData, salaryValid: bool): Option<string>
  {
    if Blank(TextOf(d, Salary)) then Some("Salary is required")
    else if !salaryValid then Some("Please enter a valid salary amount (numbers only)")
    else None
  }

  /** The payment frequency: required (not trimmed). */
  function FrequencyError(d: FormData): Option<string>
  {
    if TextOf(d, PaymentFrequency) == "" then Some("Payment frequency is required") else None
  }

  /** The end date: when both dates are set, strictly after the start. */
  function EndDateError(d: FormData): Option<string>
  {
    if d.endDate.Some? && d.startDate.Some? && d.endDate.value <= d.startDate.value
    then Some(EndNotAfterStart) else None
  }

  /** Step 2: position, start date, salary, payment frequency, end date. */
  function Step2Errors(d: FormData, today: int, salaryValid: bool): map<Field, string>
  {
    var m := Record(map[], Position, PositionError(d));
    var m := Record(m, StartDate, StartDateError(d.startDate, today));
    var m := Record(m, Salary, SalaryError(d, salaryValid));
    var m := Record(m, PaymentFrequency, FrequencyError(d));
    Record(m, EndDate, EndDateError(d))
  }

  /** The clause selection: every required clause. */
  function ClausesError(d: FormData): Option<string>
  {
    if AllRequired(d.selectedClauses) then None else Some("All required clauses must be selected")
  }

  /** Step 3: the required clauses. */
  function Step3Errors(d: FormData): map<Field, string>
  {
    Record(map[], SelectedClauses, ClausesError(d))
  }

  /** The errors `validateStep(step)` records; the review step (and any
      other) has no checks. */
  function StepErrors(d: FormData, step: int, testing: bool, today: int, salaryValid: bool): map<Field, string>
  {
    if step == 1 then Step1Errors(d, testing)
    else if step == 2 then Step2Errors(d, today, salaryValid)
    else if step == 3 then Step3Errors(d)
    else map[]
  }

  /** Step 1 passes exactly when both names and both e-mails are
      acceptable. */
  lemma Step1Valid(d: FormData, testing: bool)
    ensures Step1Errors(d, testing) == map[] <==>
      && ValidateName(TextOf(d, CompanyName)) && ValidateName(TextOf(d, EmployeeName))
      && CompanyEmailError(d, testing).None? && EmployeeEmailError(d, testing).None?
  {
    var m0 := Record(map[], CompanyName, CompanyNameError(d));
    var m1 := Record(m0, CompanyEmail, CompanyEmailError(d, testing));
    var m2 := Record(m1, EmployeeName, EmployeeNameError(d));
    RecordEmpty(map[], CompanyName, CompanyNameError(d));
    RecordEmpty(m0, CompanyEmail, CompanyEmailError(d, testing));
    RecordEmpty(m1, EmployeeName, EmployeeNameError(d));
    RecordEmpty(m2, EmployeeEmail, EmployeeEmailError(d, testing));
    NameErrorCases(TextOf(d, CompanyName), "Company name is required", "Please enter a valid company name");
    NameErrorCases(TextOf(d, EmployeeName), "Employee name is required",
                   "Please enter a valid name (letters, spaces, hyphens, apostrophes only)");
  }

  /** Step 2 passes exactly when the position and salary are filled in, the
      salary is a number, a frequency is chosen, the start date is set and
      not in the past, and an end date, if set, is after it. */
  lemma Step2Valid(d: FormData, today: int, salaryValid: bool)
    ensures Step2Errors(d, today, salaryValid) == map[] <==>
      && !Blank(TextOf(d, Position)) && !Blank(TextOf(d, Salary)) && salaryValid
      && TextOf(d, PaymentFrequency) != ""
      && d.startDate.Some? && d.startDate.value >= today
      && (d.endDate.Some? ==> d.endDate.value > d.startDate.value)
  {
    var m0 := Record(map[], Position, PositionError(d));
    var m1 := Record(m0, StartDate, StartDateError(d.startDate, today));
    var m2 := Record(m1, Salary, SalaryError(d, salaryValid));
    var m3 := Record(m2, PaymentFrequency, FrequencyError(d));
    RecordEmpty(map[], Position, PositionError(d));
    RecordEmpty(m0, StartDate, StartDateError(d.startDate, today));
    RecordEmpty(m1, Salary, SalaryError(d, salaryValid));
    RecordEmpty(m2, PaymentFrequency, FrequencyError(d));
    RecordEmpty(m3, EndDate, EndDateError(d));
  }

  /** Step 2 refuses a start date in the past, whatever the other fields
      hold. */
  lemma StartInPast(d: FormData, today: int, salaryValid: bool)
    requires d.startDate.Some? && d.startDate.value < today
    ensures var e := Step2Errors(d, today, salaryValid);
      StartDate in e && e[StartDate] == PastStart
  {
    var m0 := Record(map[], Position, PositionError(d));
    var m1 := Record(m0, StartDate, Some(PastStart));
    var m2 := Record(m1, Salary, SalaryError(d, salaryValid));
    var m3 := Record(m2, PaymentFrequency, FrequencyError(d));
    assert StartDateError(d.startDate, today) == Some(PastStart);
    RecordLookup(m0, StartDate, Some(PastStart), StartDate);
    RecordLookup(m1, Salary, SalaryError(d, salaryValid), StartDate);
    RecordLookup(m2, PaymentFrequency, FrequencyError(d), StartDate);
    RecordLookup(m3, EndDate, EndDateError(d), StartDate);
  }

  /** Step 2 refuses an end date that is not after the start date,
      whatever the other fields hold. */
  lemma EndNotAfter(d: FormData, today: int, salaryValid: bool)
    requires d.endDate.Some? && d.startDate.Some? && d.endDate.value <= d.startDate.value
    ensures var e := Step2Errors(d, today, salaryValid);
      EndDate in e && e[EndDate] == EndNotAfterStart
  {
    var m0 := Record(map[], Position, PositionError(d));
    var m1 := Record(m0, StartDate, StartDateError(d.startDate, today));
    var m2 := Record(m1, Salary, SalaryError(d, salaryValid));
    var m3 := Record(m2, PaymentFrequency, FrequencyError(d));
    RecordLookup(m3, EndDate, Some(EndNotAfterStart), EndDate);
  }

  /** Step 3 passes exactly when every required clause is selected. */
  lemma Step3Valid(d: FormData)
    ensures Step3Errors(d) == map[] <==> AllRequired(d.selectedClauses)
  {
    RecordEmpty(map[], SelectedClauses, ClausesError(d));
  }

  /** `updateFormData`'s error clearing: a field's truthy error becomes "",
      nothing else changes. */
  function ClearError(errors: map<Field, string>, field: Field): (e: map<Field, string>)
    ensures e.Keys == errors.Keys
    ensures forall k | k in errors && k != field :: e[k] == errors[k]
    ensures field in e ==> e[field] == ""
  {
    if field in errors && errors[field] != "" then errors[field := ""] else errors
  }

  // ------------------------------------------------------------ the preview

  /** The status the preview document is handed, as the form writes it. */
  function AsWrittenPreviewStatus(): (s: string)
    ensures !Known(s) && Lower(s) == Name(Draft)
  {
    "Draft"
  }

  /** The preview then misreads the new document: it is described as still
      processing, and the company line does not ask for a signature. */
  lemma AsWrittenPreviewMisread()
    ensures PreviewHeader.StatusDescription(AsWrittenPreviewStatus()) == PreviewHeader.Processing
    ensures PdfGenerator.CompanyLineText("", AsWrittenPreviewStatus()) == ""
  {
    PreviewHeader.StatusDescriptionCases(AsWrittenPreviewStatus(), Draft, Draft);
  }

  /** The evidently intended status: the draft status the rest of the
      application uses. */
  function PreviewStatus(): (s: string)
    ensures Parse(s) == Some(Draft)
  {
    Name(Draft)
  }

  /** With it the preview describes the document as ready for the company's
      signature and asks for that signature. */
  lemma PreviewStatusRead()
    ensures PreviewHeader.StatusDescription(PreviewStatus()) != PreviewHeader.Processing
    ensures PdfGenerator.CompanyLineText("", PreviewStatus()) == "[Company Signature Required]"
  {
    PreviewHeader.StatusDescriptionCases(PreviewStatus(), Draft, Draft);
  }

  /** The document handed to the preview. */
  datatype PreviewDocument = PreviewDocument(templateName: Option<string>, formData: FormData,
                                             createdAt: int, status: string)

  // ------------------------------------------------------------- the form

  class Form {
    const templateName: Option<string>
    var currentStep: int
    var errors: map<Field, string>
    var data: FormData

    /** The step index stays within the four steps. */
    predicate Valid()
      reads this
    {
      1 <= currentStep <= 4
    }

    constructor (templateName: Option<string>)
      ensures Valid()
      ensures this.templateName == templateName
      ensures currentStep == 1 && errors == map[] && data == InitialData()
    {
      this.templateName := templateName;
      currentStep := 1;
      errors := map[];
      data := InitialData();
    }

    /** `updateFormData` for a text field. */
    method UpdateText(field: Field, value: string)
      requires TextField(field)
      modifies this`data, this`errors
      ensures data == old(data).(text := old(data).text[field := value])
      ensures errors == ClearError(old(errors), field)
    {
      data := data.(text := data.text[field := value]);
      if field in errors && errors[field] != "" {
        errors := errors[field := ""];
      }
    }

    /** `updateFormData` for the start date. */
    method UpdateStartDate(value: Option<int>)
      modifies this`data, this`errors
      ensures data == old(data).(startDate := value)
      ensures errors == ClearError(old(errors), StartDate)
    {
      data := data.(startDate := value);
      if StartDate in errors && errors[StartDate] != "" {
        errors := errors[StartDate := ""];
      }
    }

    /** `updateFormData` for the end date. */
    method UpdateEndDate(value: Option<int>)
      modifies this`data, this`errors
      ensures data == old(data).(endDate := value)
      ensures errors == ClearError(old(errors), EndDate)
    {
      data := data.(endDate := value);
      if EndDate in errors && errors[EndDate] != "" {
        errors := errors[EndDate := ""];
      }
    }

    /** `validateStep`: fills a fresh error map check by check, installs it,
        and passes when it is empty. */
    method ValidateStep(step: int, testing: bool, today: int, salaryValid: bool) returns (ok: bool)
      modifies this`errors
      ensures errors == StepErrors(data, step, testing, today, salaryValid)
      ensures ok <==> errors == map[]
    {
      var newErrors: map<Field, string> := map[];
      if step == 1 {
        newErrors := Record(newErrors, CompanyName, CompanyNameError(data));
        newErrors := Record(newErrors, CompanyEmail, CompanyEmailError(data, testing));
        newErrors := Record(newErrors, EmployeeName, EmployeeNameError(data));
        newErrors := Record(newErrors, EmployeeEmail, EmployeeEmailError(data, testing));
      } else if step == 2 {
        newErrors := Record(newErrors, Position, PositionError(data));
        newErrors := Record(newErrors, StartDate, StartDateError(data.startDate, today));
        newErrors := Record(newErrors, Salary, SalaryError(data, salaryValid));
        newErrors := Record(newErrors, PaymentFrequency, FrequencyError(data));
        newErrors := Record(newErrors, EndDate, EndDateError(data));
      } else if step == 3 {
        newErrors := Record(newErrors, SelectedClauses, ClausesError(data));
      }
      errors := newErrors;
      ok := newErrors == map[];
    }

    /** `toggleClause`. */
    method ToggleClause(id: string)
      modifies this`data
      ensures data == old(data).(selectedClauses := Toggle(old(data).selectedClauses, id))
    {
      if IsRequired(id) {
        return;
      }
      if id in data.selectedClauses {
        data := data.(selectedClauses := Remove(data.selectedClauses, id));
      } else {
        data := data.(selectedClauses := data.selectedClauses + [id]);
      }
    }

    /** `nextStep`: advances after a passing validation, never past 4. */
    method NextStep(testing: bool, today: int, salaryValid: bool)
      requires Valid()
      modifies this`currentStep, this`errors
      ensures Valid()
      ensures errors == StepErrors(data, old(currentStep), testing, today, salaryValid)
      ensures currentStep == if errors == map[] && old(currentStep) < 4 then old(currentStep) + 1
                             else old(currentStep)
    {
      var ok := ValidateStep(currentStep, testing, today, salaryValid);
      if ok && currentStep < 4 {
        currentStep := currentStep + 1;
      }
    }

    /** `prevStep`: goes back, never below 1. */
    method PrevStep()
      requires Valid()
      modifies this`currentStep
      ensures Valid()
      ensures currentStep == if old(currentStep) > 1 then old(currentStep) - 1 else old(currentStep)
    {
      if currentStep > 1 {
        currentStep := currentStep - 1;
      }
    }

    /** `handlePreview`: the document for the preview when the current step
        passes, carrying the status text "Draft" exactly as the handler
        writes it (see AsWrittenPreviewMisread). */
    method HandlePreview(testing: bool, today: int, salaryValid: bool, now: int)
      returns (doc: Option<PreviewDocument>)
      modifies this`errors
      ensures errors == StepErrors(data, currentStep, testing, today, salaryValid)
      ensures doc.Some? <==> errors == map[]
      ensures doc.Some? ==> doc.value == PreviewDocument(templateName, data, now, AsWrittenPreviewStatus())
    {
      var ok := ValidateStep(currentStep, testing, today, salaryValid);
      if ok {
        doc := Some(PreviewDocument(templateName, data, now, AsWrittenPreviewStatus()));
      } else {
        doc := None;
      }
    }
  }
}
