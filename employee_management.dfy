/** The employee management page (Employee_management.js): years of service,
    the name search, the per-field edit/save/cancel of the details modal, the
    fire and resignation requests with their blank-reason gates, and the
    project, credentials and letter sub-dialogs. Every report goes to the
    activity feed with type 'employee'. */
module EmployeeManagement {
  import opened Common
  import opened ActivityContext

  // ---------------------------------------------------------------------------
  // Years of service

  /** calculateYearsOfService: None stands for 'N/A' (no joining date);
      otherwise the difference of the years, one less when today's month and
      day come before those of the joining date. */
  function YearsOfService(joined: Option<Date>, today: Date): (r: Option<int>)
    ensures r.Some? <==> joined.Some?
  {
    match joined
    case None => None
    case Some(j) =>
      var years := today.year - j.year;
      var months := today.month - j.month;
      if months < 0 || (months == 0 && today.day < j.day) then Some(years - 1) else Some(years)
  }

  /** The n-th anniversary of a joining date. */
  function Anniversary(joined: Date, n: int): Date
  {
    Date(joined.year + n, joined.month, joined.day)
  }

  /** The years of service are the anniversaries reached: the n-th anniversary
      has come by today exactly when n is at most the years of service. */
  lemma YearsCountAnniversaries(joined: Date, today: Date, n: int)
    ensures NotAfter(Anniversary(joined, n), today) <==> n <= YearsOfService(Some(joined), today).value
  {
  }

  /** The count is negative exactly for a joining date still to come: the
      function does not clamp it. */
  lemma NegativeOnlyBeforeJoining(joined: Date, today: Date)
    ensures YearsOfService(Some(joined), today).value >= 0 <==> NotAfter(joined, today)
  {
    YearsCountAnniversaries(joined, today, 0);
    assert Anniversary(joined, 0) == joined;
  }

  // ---------------------------------------------------------------------------
  // Employees and the search

  /** An employee record: its id, its full name and its other text fields by
      name (email, phoneNumber, department, position, ...). */
  datatype Employee = Employee(id: string, fullName: string, details: map<string, string>)

  /** `employee[field] || ''`. */
  function Field(e: Employee, field: string): string
  {
    if field == "fullName" then e.fullName
    else if field in e.details then e.details[field]
    else ""
  }

  /** `{ ...employee, [field]: value }`. */
  function SetField(e: Employee, field: string, value: string): (r: Employee)
    ensures Field(r, field) == value && r.id == e.id
    ensures forall g :: g != field ==> Field(r, g) == Field(e, g)
  {
    if field == "fullName" then e.(fullName := value) else e.(details := e.details[field := value])
  }

  function NameMatches(term: string): Employee -> bool
  {
    (e: Employee) => Contains(Lower(e.fullName), Lower(term))
  }

  /** filterEmployees: everyone for an empty search; otherwise, in order, the
      employees whose lower-cased name contains the lower-cased term. */
  function FilterEmployees(employees: seq<Employee>, term: string): (r: seq<Employee>)
    ensures term == "" ==> r == employees
    ensures term != "" ==> forall e :: e in r <==> e in employees && Contains(Lower(e.fullName), Lower(term))
    ensures |r| <= |employees|
  {
    if term == "" then employees else Filter(employees, NameMatches(term))
  }

  lemma LowerTwice(s: string)
    ensures Lower(Lower(s)) == Lower(s)
  {
    forall i | 0 <= i < |s|
      ensures Lower(Lower(s))[i] == Lower(s)[i]
    {
      LowerCharIdempotent(s[i]);
    }
  }

  /** The search ignores the case of the term. */
  lemma SearchIgnoresCase(employees: seq<Employee>, term: string)
    ensures FilterEmployees(employees, Lower(term)) == FilterEmployees(employees, term)
  {
    if term != "" {
      LowerTwice(term);
      FilterCongruent(employees, NameMatches(Lower(term)), NameMatches(term));
    }
  }

  lemma LowerAppend(a: string, b: string)
    ensures Lower(a + b) == Lower(a) + Lower(b)
  {
  }

  /** A text that contains a string contains each of its prefixes. */
  lemma ContainsPrefix(hay: string, a: string, b: string)
    requires Contains(hay, a + b)
    ensures Contains(hay, a)
  {
    var i :| 0 <= i <= |hay| - |a + b| && OccursAt(hay, a + b, i);
    assert hay[i..i + |a|] == (a + b)[..|a|];
    assert OccursAt(hay, a, i);
  }

  /** Extending the search term can only narrow the list. */
  lemma LongerTermNarrows(employees: seq<Employee>, term: string, more: string)
    requires term != ""
    ensures forall e :: e in FilterEmployees(employees, term + more) ==> e in FilterEmployees(employees, term)
  {
    LowerAppend(term, more);
    forall e | e in FilterEmployees(employees, term + more)
      ensures e in FilterEmployees(employees, term)
    {
      ContainsPrefix(Lower(e.fullName), Lower(term), Lower(more));
    }
  }

  /** Accented capitals fold too: searching "émile" finds "Émile". */
  lemma SearchFoldsAccents(e: Employee)
    requires e.fullName == "\U{C9}mile"
    ensures FilterEmployees([e], "\U{E9}mile") == [e]
  {
    assert Lower(e.fullName) == "\U{E9}mile";
    assert OccursAt(Lower(e.fullName), Lower("\U{E9}mile"), 0);
  }

  // ---------------------------------------------------------------------------
  // Requests and sub-dialog forms

  /** The body of a status change: fired or resigned, with the reason and, for
      a resignation, the uploaded letter when there is one. */
  datatype StatusRequest = StatusRequest(id: string, status: string, reason: string, letter: Option<string>)

  datatype ProjectForm = ProjectForm(projectName: string, startDate: string, endDate: string, description: string)

  datatype CredentialsForm = CredentialsForm(username: string, password: string, role: string)

  const EmptyProject := ProjectForm("", "", "", "")
  const EmptyCredentials := CredentialsForm("", "", "")

  datatype SubModal = GenerateLetter | AssignProject | ManageCredentials

  /** The state held by the Employee_Management component. */
  class EmployeePage {
    /** The activity feed the page reports to. */
    const log: ActivityLog
    var employees: seq<Employee>
    var filteredEmployees: seq<Employee>
    var searchTerm: string
    var selected: Option<Employee>
    var showModal: bool
    var fireReason: string
    var resignationReason: string
    var resignationLetter: Option<string>
    var editingFields: map<string, bool>
    var editedValues: map<string, string>
    var subModal: Option<SubModal>
    var project: ProjectForm
    var credentials: CredentialsForm
    var letterTemplate: string

    /** The filtered list is the one the search effect computes. */
    predicate Valid()
      reads this`filteredEmployees, this`employees, this`searchTerm
    {
      filteredEmployees == FilterEmployees(employees, searchTerm)
    }

    constructor (log: ActivityLog)
      ensures Valid() && this.log == log
      ensures employees == [] && searchTerm == "" && selected.None? && !showModal
      ensures editingFields == map[] && editedValues == map[] && subModal.None?
      ensures project == EmptyProject && credentials == EmptyCredentials && letterTemplate == ""
    {
      this.log := log;
      employees, filteredEmployees, searchTerm := [], [], "";
      selected, showModal := None, false;
      fireReason, resignationReason, resignationLetter := "", "", None;
      editingFields, editedValues := map[], map[];
      subModal, project, credentials, letterTemplate := None, EmptyProject, EmptyCredentials, "";
    }

    /** fetchEmployees followed by the search effect: a successful fetch
        replaces the list and the filtered list is recomputed. */
    method FetchEmployees(reply: Reply<seq<Employee>>)
      requires Valid()
      modifies this`employees, this`filteredEmployees
      ensures Valid() && searchTerm == old(searchTerm)
      ensures employees == (if reply.Ok? then reply.value else old(employees))
      ensures selected == old(selected) && editingFields == old(editingFields) && editedValues == old(editedValues)
    {
      if reply.Ok? {
        employees := reply.value;
        filteredEmployees := FilterEmployees(employees, searchTerm);
      }
    }

    /** Typing in the search box, followed by the search effect. */
    method SetSearchTerm(term: string)
      modifies this`searchTerm, this`filteredEmployees
      ensures Valid() && searchTerm == term && employees == old(employees)
      ensures filteredEmployees == FilterEmployees(old(employees), term)
      ensures selected == old(selected)
    {
      searchTerm := term;
      filteredEmployees := FilterEmployees(employees, term);
    }

    /** handleViewEmployee. */
    method ViewEmployee(e: Employee)
      modifies this`selected, this`showModal
      ensures selected == Some(e) && showModal
      ensures employees == old(employees) && filteredEmployees == old(filteredEmployees)
      ensures searchTerm == old(searchTerm)
      ensures editingFields == old(editingFields) && editedValues == old(editedValues)
    {
      selected := Some(e);
      showModal := true;
    }

    /** handleEditField: the field is marked as being edited and its value is
        seeded from the employee. */
    method EditField(field: string)
      requires selected.Some?
      modifies this`editingFields, this`editedValues
      ensures editingFields == old(editingFields)[field := true]
      ensures editedValues == old(editedValues)[field := Field(old(selected).value, field)]
      ensures selected == old(selected) && employees == old(employees) && filteredEmployees == old(filteredEmployees)
      ensures searchTerm == old(searchTerm)
    {
      editingFields := editingFields[field := true];
      editedValues := editedValues[field := Field(selected.value, field)];
    }

    /** handleCancelEdit: the field is no longer edited and its value is
        reseeded from the employee. */
    method CancelEdit(field: string)
      requires selected.Some?
      modifies this`editingFields, this`editedValues
      ensures editingFields == old(editingFields)[field := false]
      ensures editedValues == old(editedValues)[field := Field(old(selected).value, field)]
      ensures selected == old(selected) && employees == old(employees) && filteredEmployees == old(filteredEmployees)
      ensures searchTerm == old(searchTerm)
    {
      editingFields := editingFields[field := false];
      editedValues := editedValues[field := Field(selected.value, field)];
    }

    /** Typing into an edited field's input: only that field's edited value
        changes. */
    method TypeEditedValue(field: string, value: string)
      modifies this`editedValues
      ensures editedValues == old(editedValues)[field := value]
    {
      editedValues := editedValues[field := value];
    }

    /** Typing into the fire dialog's reason box. */
    method TypeFireReason(reason: string)
      modifies this`fireReason
      ensures fireReason == reason
    {
      fireReason := reason;
    }

    /** handleSaveField: the Save button is shown only while the field is being
        edited, so its value has been seeded. Only that field of the selected
        employee takes the edited value; the list is not touched. */
    method SaveField(field: string, now: int)
      requires selected.Some? && field in editedValues
      modifies this`editingFields, this`selected, log
      ensures editingFields == old(editingFields)[field := false] && editedValues == old(editedValues)
      ensures selected == Some(SetField(old(selected).value, field, old(editedValues)[field]))
      ensures log.activities == KeepLatest(old(log.activities),
        NewActivity("Field " + field + " updated for " + old(selected).value.fullName, "employee", now))
      ensures employees == old(employees) && filteredEmployees == old(filteredEmployees)
      ensures searchTerm == old(searchTerm)
    {
      var before := selected.value;
      editingFields := editingFields[field := false];
      selected := Some(SetField(before, field, editedValues[field]));
      log.AddActivity("Field " + field + " updated for " + before.fullName, "employee", now);
    }

    /** handleFireEmployee: refused on a blank reason; otherwise the status
        'fired' is requested for the selected employee, and a successful
        request is reported and closes the modal. With nobody selected the
        request cannot be built. */
    method FireEmployee(reply: Reply<()>, now: int) returns (request: Option<StatusRequest>)
      modifies this`showModal, log
      ensures IsBlank(old(fireReason)) || old(selected).None? ==> request.None?
      ensures !IsBlank(old(fireReason)) && old(selected).Some? ==>
        request == Some(StatusRequest(old(selected).value.id, "fired", old(fireReason), None))
      ensures request.Some? && reply.Ok? ==>
        (log.activities == KeepLatest(old(log.activities),
           NewActivity("Employee " + old(selected).value.fullName + " was fired", "employee", now))
         && !showModal)
      ensures !(request.Some? && reply.Ok?) ==> log.activities == old(log.activities) && showModal == old(showModal)
      ensures selected == old(selected) && employees == old(employees) && filteredEmployees == old(filteredEmployees)
      ensures searchTerm == old(searchTerm)
    {
      TrimEmptyIffBlank(fireReason);
      if Trim(fireReason) == [] || selected.None? {
        return None;
      }
      request := Some(StatusRequest(selected.value.id, "fired", fireReason, None));
      if reply.Ok? {
        log.AddActivity("Employee " + selected.value.fullName + " was fired", "employee", now);
        showModal := false;
      }
    }

    /** handleApproveResignation: refused on a blank reason; otherwise the
        status 'resigned' is requested with the reason and the letter when one
        was chosen. */
    method ApproveResignation(reply: Reply<()>, now: int) returns (request: Option<StatusRequest>)
      modifies this`showModal, log
      ensures IsBlank(old(resignationReason)) || old(selected).None? ==> request.None?
      ensures !IsBlank(old(resignationReason)) && old(selected).Some? ==>
        request == Some(StatusRequest(old(selected).value.id, "resigned", old(resignationReason), old(resignationLetter)))
      ensures request.Some? && reply.Ok? ==>
        (log.activities == KeepLatest(old(log.activities),
           NewActivity("Resignation approved for " + old(selected).value.fullName, "employee", now))
         && !showModal)
      ensures !(request.Some? && reply.Ok?) ==> log.activities == old(log.activities) && showModal == old(showModal)
      ensures selected == old(selected) && employees == old(employees) && filteredEmployees == old(filteredEmployees)
      ensures searchTerm == old(searchTerm)
    {
      TrimEmptyIffBlank(resignationReason);
      if Trim(resignationReason) == [] || selected.None? {
        return None;
      }
      request := Some(StatusRequest(selected.value.id, "resigned", resignationReason, resignationLetter));
      if reply.Ok? {
        log.AddActivity("Resignation approved for " + selected.value.fullName, "employee", now);
        showModal := false;
      }
    }

    /** handleCloseSubModal: the dialog closes and all three sub-forms reset. */
    method CloseSubModal()
      modifies this`subModal, this`project, this`credentials, this`letterTemplate
      ensures subModal.None? && project == EmptyProject && credentials == EmptyCredentials && letterTemplate == ""
      ensures selected == old(selected) && employees == old(employees) && filteredEmployees == old(filteredEmployees)
      ensures searchTerm == old(searchTerm) && showModal == old(showModal)
      ensures editingFields == old(editingFields) && editedValues == old(editedValues)
    {
      subModal := None;
      project := EmptyProject;
      credentials := EmptyCredentials;
      letterTemplate := "";
    }

    /** handleAssignProject: a blank project name is refused and the dialog
        stays; otherwise the assignment is reported and the dialog closes. */
    method AssignProjectToEmployee(now: int)
      requires selected.Some?
      modifies this`subModal, this`project, this`credentials, this`letterTemplate, log
      ensures IsBlank(old(project).projectName) ==>
        (log.activities == old(log.activities) && project == old(project) && subModal == old(subModal))
      ensures !IsBlank(old(project).projectName) ==>
        (log.activities == KeepLatest(old(log.activities),
           NewActivity("Project \"" + old(project).projectName + "\" assigned to " + old(selected).value.fullName,
                       "employee", now))
         && subModal.None? && project == EmptyProject && credentials == EmptyCredentials)
      ensures IsBlank(old(project).projectName) ==> credentials == old(credentials) && letterTemplate == old(letterTemplate)
      ensures !IsBlank(old(project).projectName) ==> letterTemplate == ""
      ensures selected == old(selected) && employees == old(employees) && searchTerm == old(searchTerm)
    {
      TrimEmptyIffBlank(project.projectName);
      if Trim(project.projectName) == [] {
        return;
      }
      log.AddActivity("Project \"" + project.projectName + "\" assigned to " + selected.value.fullName, "employee", now);
      CloseSubModal();
    }

    /** handleManageCredentials: both the username and the password must be
        non-blank; then the change is reported and the dialog closes. */
    method ManageEmployeeCredentials(now: int)
      requires selected.Some?
      modifies this`subModal, this`project, this`credentials, this`letterTemplate, log
      ensures IsBlank(old(credentials).username) || IsBlank(old(credentials).password) ==>
        (log.activities == old(log.activities) && credentials == old(credentials) && subModal == old(subModal))
      ensures !IsBlank(old(credentials).username) && !IsBlank(old(credentials).password) ==>
        (log.activities == KeepLatest(old(log.activities),
           NewActivity("Credentials updated for " + old(selected).value.fullName, "employee", now))
         && subModal.None? && project == EmptyProject && credentials == EmptyCredentials)
      ensures IsBlank(old(credentials).username) || IsBlank(old(credentials).password) ==>
        project == old(project) && letterTemplate == old(letterTemplate)
      ensures !IsBlank(old(credentials).username) && !IsBlank(old(credentials).password) ==> letterTemplate == ""
      ensures selected == old(selected) && employees == old(employees) && searchTerm == old(searchTerm)
    {
      TrimEmptyIffBlank(credentials.username);
      TrimEmptyIffBlank(credentials.password);
      if Trim(credentials.username) == [] || Trim(credentials.password) == [] {
        return;
      }
      log.AddActivity("Credentials updated for " + selected.value.fullName, "employee", now);
      CloseSubModal();
    }
  }

  /** Editing a field, typing into it and cancelling leave the field no longer
      edited, its value back at the employee's own, and the employee shown
      unchanged. */
  method CancelRestores(page: EmployeePage, field: string, typed: string)
    requires page.selected.Some?
    modifies page
    ensures page.selected == old(page.selected)
    ensures page.editingFields == old(page.editingFields)[field := false]
    ensures page.editedValues == old(page.editedValues)[field := Field(old(page.selected).value, field)]
    ensures page.editedValues[field] == Field(page.selected.value, field)
  {
    page.EditField(field);
    page.TypeEditedValue(field, typed);
    page.CancelEdit(field);
  }

  /** Opening an employee, typing a reason and firing: the reason typed
      reaches the request unchanged, for the employee opened, and neither the
      list nor the search nor the edits in progress are disturbed. */
  method FireFromProfile(page: EmployeePage, e: Employee, reason: string, reply: Reply<()>, now: int)
    returns (request: Option<StatusRequest>)
    requires page.Valid()
    modifies page, page.log
    ensures page.Valid() && page.employees == old(page.employees) && page.searchTerm == old(page.searchTerm)
    ensures page.editingFields == old(page.editingFields) && page.editedValues == old(page.editedValues)
    ensures page.selected == Some(e) && page.fireReason == reason
    ensures request == (if IsBlank(reason) then None else Some(StatusRequest(e.id, "fired", reason, None)))
    ensures page.showModal == !(request.Some? && reply.Ok?)
  {
    page.ViewEmployee(e);
    page.TypeFireReason(reason);
    request := page.FireEmployee(reply, now);
  }
}
