/** The payroll page (EmployeePayroll.js): the HR summary counts, the row
    actions of the payroll table and the status each one requests, the
    Approve/Decline buttons of the benefit requests and the decline dialog,
    and the employee's benefit-request form. Each request to the server is an
    outcome parameter; the page state changes only as the handlers change it. */
module EmployeePayroll {
  import opened Common

  datatype Payroll = Payroll(id: string, employeeId: string, status: string, paymentDate: Option<string>)

  datatype BenefitRequest = BenefitRequest(id: string, employeeId: string, benefitType: string, status: string)

  // ---------------------------------------------------------------------------
  // Summary counts

  predicate Processed(p: Payroll)
  {
    p.status == "processed" || p.status == "paid"
  }

  predicate Pending(p: Payroll)
  {
    p.status == "pending"
  }

  function ProcessedOf(): Payroll -> bool
  {
    (p: Payroll) => Processed(p)
  }

  function PendingOf(): Payroll -> bool
  {
    (p: Payroll) => Pending(p)
  }

  /** processedCount: the payrolls processed or already paid. */
  function ProcessedCount(ps: seq<Payroll>): (r: nat)
    ensures r <= |ps|
    ensures r == 0 <==> forall i :: 0 <= i < |ps| ==> !Processed(ps[i])
  {
    var f := Filter(ps, ProcessedOf());
    assert f != [] ==> f[0] in ps && Processed(f[0]);
    assert f == [] ==> forall i :: 0 <= i < |ps| ==> ps[i] !in f;
    |f|
  }

  /** pendingCount: the payrolls still pending. */
  function PendingCount(ps: seq<Payroll>): (r: nat)
    ensures r <= |ps|
    ensures r == 0 <==> forall i :: 0 <= i < |ps| ==> !Pending(ps[i])
  {
    var f := Filter(ps, PendingOf());
    assert f != [] ==> f[0] in ps && Pending(f[0]);
    assert f == [] ==> forall i :: 0 <= i < |ps| ==> ps[i] !in f;
    |f|
  }

  /** No payroll is counted twice: the two counts together never exceed the
      payrolls of the month. */
  lemma CountsBounded(ps: seq<Payroll>)
    ensures ProcessedCount(ps) + PendingCount(ps) <= |ps|
  {
    FilterDisjointCounts(ps, ProcessedOf(), PendingOf());
  }

  /** A payroll in any other status falls in neither count. */
  lemma OtherStatusUncounted(ps: seq<Payroll>, p: Payroll)
    requires p.status !in {"processed", "paid", "pending"}
    ensures ProcessedCount(ps + [p]) == ProcessedCount(ps) && PendingCount(ps + [p]) == PendingCount(ps)
  {
    FilterAppend(ps, [p], ProcessedOf());
    FilterAppend(ps, [p], PendingOf());
  }

  // ---------------------------------------------------------------------------
  // Payroll actions

  datatype PayrollAction = Process | MarkPaid | Reject

  /** The buttons after View on a payroll row: Process only while pending,
      Mark Paid while processed or pending, Reject always. */
  function PayrollActions(status: string): (r: seq<PayrollAction>)
    ensures Process in r <==> status == "pending"
    ensures MarkPaid in r <==> status == "processed" || status == "pending"
    ensures Reject in r
  {
    (if status == "pending" then [Process] else [])
    + (if status == "processed" || status == "pending" then [MarkPaid] else [])
    + [Reject]
  }

  /** The status each action asks for; a rejection sends the payroll back to
      pending. */
  function TargetStatus(action: PayrollAction): (r: string)
    ensures r == "processed" <==> action == Process
    ensures r == "paid" <==> action == MarkPaid
    ensures r == "pending" <==> action == Reject
  {
    match action
    case Process => "processed"
    case MarkPaid => "paid"
    case Reject => "pending"
  }

  /** The body of the status request. `paymentDate` is what the prompt of Mark
      Paid returned (None when it was cancelled); the date is sent only when
      one was entered. The reason asked for on Reject is not sent. */
  function StatusBody(action: PayrollAction, paymentDate: Option<string>): (r: map<string, string>)
    ensures "status" in r && r["status"] == TargetStatus(action)
    ensures "paymentDate" in r <==> action == MarkPaid && paymentDate.Some? && paymentDate.value != ""
    ensures r.Keys <= {"status", "paymentDate"}
  {
    var body := map["status" := TargetStatus(action)];
    if action == MarkPaid && paymentDate.Some? && paymentDate.value != "" then body["paymentDate" := paymentDate.value]
    else body
  }

  /** Every status a payroll is sent to offers Reject again; a paid payroll can
      be rejected back to pending, where Process and Mark Paid are offered
      again. */
  lemma PaidCanBeReopened()
    ensures PayrollActions("paid") == [Reject]
    ensures TargetStatus(Reject) == "pending"
    ensures PayrollActions(TargetStatus(Reject)) == [Process, MarkPaid, Reject]
  {
  }

  /** Every button shown asks for a status from which Reject is offered again,
      and the only button that asks for the status its row already has is
      Reject on a pending row. */
  lemma ActionsChangeStatus(status: string, action: PayrollAction)
    requires action in PayrollActions(status)
    ensures Reject in PayrollActions(TargetStatus(action))
    ensures TargetStatus(action) == status ==> action == Reject && status == "pending"
  {
  }

  /** How a request ended: accepted, refused with the body's message (if any),
      or never answered. */
  datatype Outcome = Done | Refused(message: Option<string>) | NoAnswer

  /** The alert after a payroll action: each action's own failure text, and a
      note after a successful rejection that the reason was not kept. */
  function PayrollAlert(action: PayrollAction, ok: bool): (r: Option<string>)
    ensures r.None? <==> ok && action != Reject
    ensures r.Some? ==> r.value != ""
  {
    if ok then
      (if action == Reject then Some("Payroll marked pending. To persist rejection reason, backend support is required.") else None)
    else
      match action
      case MarkPaid => Some("Could not mark paid")
      case Process => Some("Could not process payroll")
      case Reject => Some("Could not change payroll to pending")
  }

  // ---------------------------------------------------------------------------
  // Benefit requests

  datatype BenefitAction = Approve | Decline | ViewAction

  /** The buttons of a benefit request: Approve and Decline while pending, a
      View of the decision otherwise. */
  function BenefitActions(status: string): (r: seq<BenefitAction>)
    ensures Approve in r <==> status == "pending"
    ensures Decline in r <==> status == "pending"
    ensures ViewAction in r <==> status != "pending"
  {
    if status == "pending" then [Approve, Decline] else [ViewAction]
  }

  /** The body of a benefit decision. */
  datatype Decision = Decision(id: string, status: string, hrComments: string, approvedBy: string)

  /** The decision sent by Approve. */
  function ApproveDecision(id: string, hr: string): Decision
  {
    Decision(id, "approved", "Approved", hr)
  }

  /** `data.message || 'Failed'`. */
  function DecisionAlert(outcome: Outcome): (r: Option<string>)
    ensures r.None? <==> outcome.Done?
    ensures r.Some? ==> r.value != ""
  {
    match outcome
    case Done => None
    case Refused(message) => if message.Some? && message.value != "" then message else Some("Failed")
    case NoAnswer => Some("Failed")
  }

  // ---------------------------------------------------------------------------
  // Benefit-request form

  type BenefitForm = map<string, string>

  const InitialBenefitForm: BenefitForm := map["benefitType" := "health-insurance", "description" := "", "amount" := ""]

  /** The body of a new benefit request; the amount stays the text entered and
      is left out when empty. */
  datatype NewBenefit = NewBenefit(employeeId: string, benefitType: string, description: string, amount: Option<string>)

  /** `form[name]`, undefined (here "") when absent. */
  function Text(form: BenefitForm, name: string): string
  {
    if name in form then form[name] else ""
  }

  function NewBenefitOf(employeeId: string, form: BenefitForm): (r: NewBenefit)
    ensures r.amount.None? <==> Text(form, "amount") == ""
    ensures r.amount.Some? ==> r.amount.value == Text(form, "amount")
  {
    var amount := Text(form, "amount");
    NewBenefit(employeeId, Text(form, "benefitType"), Text(form, "description"), if amount != "" then Some(amount) else None)
  }

  const SubmittedMessage := "Benefit request submitted successfully."
  const SubmitFailedMessage := "Failed to submit benefit request."
  const NetworkErrorMessage := "Network error. Please try again."

  /** The message box is styled as a success when its text contains
      'success', and as an error otherwise. */
  predicate ShownAsSuccess(message: string)
  {
    Contains(message, "success")
  }

  /** The page's own messages are styled as meant; a server message is styled
      by its words alone, so a refusal that says 'unsuccessful' shows as a
      success. */
  lemma MessageStyles()
    ensures ShownAsSuccess(SubmittedMessage)
    ensures ShownAsSuccess("Request unsuccessful")
  {
    assert OccursAt(SubmittedMessage, "success", 26);
    assert OccursAt("Request unsuccessful", "success", 10);
  }

  // ---------------------------------------------------------------------------
  // The page

  /** The signed-in user, as far as the page looks at them. */
  datatype User = User(id: string, role: string)

  /** The state held by the EmployeePayroll component; `employee` is None when
      nobody is signed in. */
  class PayrollPage {
    const employee: Option<User>
    var payrollRecords: seq<Payroll>
    var benefitRequests: seq<BenefitRequest>
    var allEmployees: seq<string>
    var selectedEmployeeId: Option<string>
    var allPayrolls: seq<Payroll>
    var totalEmployees: nat
    var processedCount: nat
    var pendingCount: nat
    var benefitRequestsAll: seq<BenefitRequest>
    var payrollView: Option<Payroll>
    var declineOpen: bool
    var declineId: Option<string>
    var declineReason: string
    var formData: BenefitForm
    var isRequesting: bool
    var isSubmitting: bool
    var message: string

    /** The summary counts are those of the payrolls held. */
    predicate Valid()
      reads this`allPayrolls, this`processedCount, this`pendingCount
    {
      processedCount == ProcessedCount(allPayrolls) && pendingCount == PendingCount(allPayrolls)
    }

    constructor (employee: Option<User>)
      ensures Valid() && this.employee == employee
      ensures payrollRecords == [] && benefitRequests == [] && allPayrolls == [] && benefitRequestsAll == []
      ensures !declineOpen && declineId.None? && declineReason == ""
      ensures formData == InitialBenefitForm && !isRequesting && !isSubmitting && message == ""
    {
      this.employee := employee;
      payrollRecords, benefitRequests, allEmployees, selectedEmployeeId := [], [], [], None;
      allPayrolls, totalEmployees, processedCount, pendingCount := [], 0, 0, 0;
      benefitRequestsAll, payrollView := [], None;
      declineOpen, declineId, declineReason := false, None, "";
      formData, isRequesting, isSubmitting, message := InitialBenefitForm, false, false, "";
    }

    /** loadHRData: three loads, each applied when it succeeded: the number of
        active users, the month's payrolls with their counts, and every
        benefit request. */
    method LoadHRData(users: Reply<seq<string>>, payrolls: Reply<seq<Payroll>>, benefits: Reply<seq<BenefitRequest>>)
      requires Valid()
      modifies this`totalEmployees, this`benefitRequestsAll, this`allPayrolls, this`processedCount, this`pendingCount
      ensures Valid()
      ensures totalEmployees == (if users.Ok? then |users.value| else old(totalEmployees))
      ensures allPayrolls == (if payrolls.Ok? then payrolls.value else old(allPayrolls))
      ensures benefitRequestsAll == (if benefits.Ok? then benefits.value else old(benefitRequestsAll))
    {
      totalEmployees := if users.Ok? then |users.value| else totalEmployees;
      benefitRequestsAll := if benefits.Ok? then benefits.value else benefitRequestsAll;
      if payrolls.Ok? {
        TakePayrolls(payrolls.value);
      }
    }

    /** The payroll half of loadHRData: the month's payrolls and their counts. */
    method TakePayrolls(ps: seq<Payroll>)
      modifies this`allPayrolls, this`processedCount, this`pendingCount
      ensures Valid() && allPayrolls == ps
    {
      allPayrolls, processedCount, pendingCount := ps, ProcessedCount(ps), PendingCount(ps);
    }

    /** fetchAllEmployees: the active users are held and the first becomes the
        selected employee. */
    method FetchAllEmployees(reply: Reply<seq<string>>)
      modifies this`allEmployees, this`selectedEmployeeId
      ensures allEmployees == (if reply.Ok? then reply.value else old(allEmployees))
      ensures selectedEmployeeId == (if reply.Ok? && |reply.value| > 0 then Some(reply.value[0]) else old(selectedEmployeeId))
    {
      if reply.Ok? {
        allEmployees := reply.value;
        if |reply.value| > 0 {
          selectedEmployeeId := Some(reply.value[0]);
        }
      }
    }

    /** fetchPayrollRecords and fetchBenefitRequests: the employee's own lists,
        loaded only when someone is signed in. */
    method FetchOwnRecords(payrolls: Reply<seq<Payroll>>, benefits: Reply<seq<BenefitRequest>>)
      modifies this`payrollRecords, this`benefitRequests
      ensures payrollRecords == (if employee.Some? && payrolls.Ok? then payrolls.value else old(payrollRecords))
      ensures benefitRequests == (if employee.Some? && benefits.Ok? then benefits.value else old(benefitRequests))
    {
      if employee.None? {
        return;
      }
      if payrolls.Ok? {
        payrollRecords := payrolls.value;
      }
      if benefits.Ok? {
        benefitRequests := benefits.value;
      }
    }

    /** handlePayrollAction: the status request for the row and its alert.
        Nothing on the page changes here: after a success the HR data is
        reloaded, which is the LoadHRData that follows. */
    method HandlePayrollAction(payrollId: string, action: PayrollAction, paymentDate: Option<string>, ok: bool)
      returns (sent: map<string, string>, alert: Option<string>, reload: bool)
      ensures "status" in sent && sent["status"] == TargetStatus(action)
      ensures "paymentDate" in sent <==> action == MarkPaid && paymentDate.Some? && paymentDate.value != ""
      ensures alert == PayrollAlert(action, ok) && reload == ok
    {
      sent := StatusBody(action, paymentDate);
      reload := ok;
      alert := PayrollAlert(action, ok);
    }

    /** The View button of a payroll row opens its details. */
    method ViewPayroll(p: Payroll)
      modifies this`payrollView
      ensures payrollView == Some(p)
    {
      payrollView := Some(p);
    }

    method ClosePayrollView()
      modifies this`payrollView
      ensures payrollView.None?
    {
      payrollView := None;
    }

    /** Approve on a pending benefit request (shown to HR only, so someone is
        signed in): the request is approved with the comment 'Approved'; a
        failure alerts the server's message. */
    method HandleApprove(id: string, outcome: Outcome) returns (sent: Decision, alert: Option<string>)
      requires employee.Some?
      ensures sent == Decision(id, "approved", "Approved", employee.value.id)
      ensures alert.None? <==> outcome.Done?
    {
      sent := ApproveDecision(id, employee.value.id);
      alert := DecisionAlert(outcome);
    }

    /** openDeclineModal: the dialog opens for one request with an empty
        reason. */
    method OpenDeclineModal(id: string)
      modifies this`declineOpen, this`declineId, this`declineReason
      ensures declineOpen && declineId == Some(id) && declineReason == ""
    {
      declineOpen, declineId, declineReason := true, Some(id), "";
    }

    method CloseDeclineModal()
      modifies this`declineOpen, this`declineId, this`declineReason
      ensures !declineOpen && declineId.None? && declineReason == ""
    {
      declineOpen, declineId, declineReason := false, None, "";
    }

    /** The reason typed into the dialog. */
    method SetDeclineReason(text: string)
      modifies this`declineReason
      ensures declineReason == text
    {
      declineReason := text;
    }

    /** submitDecline: an empty reason is refused with an alert and the dialog
        stays open; otherwise the request is rejected with the reason as the
        comment, and the dialog closes whatever the outcome. A reason of
        spaces is not empty. */
    method SubmitDecline(outcome: Outcome) returns (sent: Option<Decision>, alert: Option<string>)
      requires employee.Some?
      modifies this`declineOpen, this`declineId, this`declineReason
      ensures old(declineReason) == "" ==>
        sent.None? && alert == Some("Please enter reason")
        && declineOpen == old(declineOpen) && declineId == old(declineId) && declineReason == old(declineReason)
      ensures old(declineReason) != "" ==>
        sent == Some(Decision(if old(declineId).Some? then old(declineId).value else "", "rejected", old(declineReason), employee.value.id))
        && alert == DecisionAlert(outcome)
        && !declineOpen && declineId.None? && declineReason == ""
    {
      if declineReason == "" {
        return None, Some("Please enter reason");
      }
      var id := if declineId.Some? then declineId.value else "";
      sent := Some(Decision(id, "rejected", declineReason, employee.value.id));
      alert := DecisionAlert(outcome);
      declineOpen, declineId, declineReason := false, None, "";
    }

    /** The Request Benefit / Cancel Request button. */
    method ToggleRequesting()
      modifies this`isRequesting
      ensures isRequesting == !old(isRequesting)
    {
      isRequesting := !isRequesting;
    }

    /** handleInputChange: the named field takes the value. */
    method HandleInputChange(name: string, value: string)
      modifies this`formData
      ensures formData == old(formData)[name := value]
    {
      formData := formData[name := value];
    }

    /** handleSubmitBenefitRequest, reached once the browser let the form
        through (its description is required). A success shows the success
        message, closes the form and resets it to health insurance with empty
        fields; a refusal shows the server's message or a default; with nobody
        signed in, or with no answer, the network message is shown. */
    method HandleSubmitBenefitRequest(outcome: Outcome) returns (sent: Option<NewBenefit>)
      modifies this`isSubmitting, this`message, this`isRequesting, this`formData
      ensures Text(old(formData), "description") == "" ==>
        sent.None? && formData == old(formData) && message == old(message) && isRequesting == old(isRequesting)
        && isSubmitting == old(isSubmitting)
      ensures Text(old(formData), "description") != "" ==>
        sent == (if employee.Some? then Some(NewBenefitOf(employee.value.id, old(formData))) else None)
        && !isSubmitting
        && (sent.Some? && outcome.Done? ==>
              message == SubmittedMessage && !isRequesting && formData == InitialBenefitForm)
        && (sent.Some? && outcome.Refused? ==>
              message == (if outcome.message.Some? && outcome.message.value != "" then outcome.message.value else SubmitFailedMessage)
              && formData == old(formData) && isRequesting == old(isRequesting))
        && (sent.None? || outcome.NoAnswer? ==>
              message == NetworkErrorMessage && formData == old(formData) && isRequesting == old(isRequesting))
    {
      if Text(formData, "description") == "" {
        return None;
      }
      isSubmitting, message := true, "";
      if employee.None? {
        sent := None;
        message := NetworkErrorMessage;
      } else {
        sent := Some(NewBenefitOf(employee.value.id, formData));
        match outcome
        case Done =>
          message, isRequesting, formData := SubmittedMessage, false, InitialBenefitForm;
        case Refused(m) =>
          message := if m.Some? && m.value != "" then m.value else SubmitFailedMessage;
        case NoAnswer =>
          message := NetworkErrorMessage;
      }
      isSubmitting := false;
    }
  }

  /** A session of the display handlers of the page: viewing a payroll,
      opening and closing the decline dialog and filling the benefit form leave
      the payrolls, the benefit requests and the summary counts as they were. */
  method DisplaySession(page: PayrollPage, p: Payroll, id: string, reason: string)
    requires page.Valid()
    modifies page
    ensures page.Valid()
    ensures page.allPayrolls == old(page.allPayrolls) && page.benefitRequestsAll == old(page.benefitRequestsAll)
  {
    page.ViewPayroll(p);
    page.ClosePayrollView();
    page.OpenDeclineModal(id);
    page.SetDeclineReason(reason);
    page.CloseDeclineModal();
    page.ToggleRequesting();
    page.HandleInputChange("description", reason);
  }

  /** The form reset after a successful request is the form the page starts
      with: health insurance, no description, no amount, so a second request
      sends no amount unless one is entered. */
  lemma ResetSendsNoAmount(employeeId: string)
    ensures NewBenefitOf(employeeId, InitialBenefitForm) == NewBenefit(employeeId, "health-insurance", "", None)
  {
  }
}
