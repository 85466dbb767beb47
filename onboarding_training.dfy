/** The onboarding and training dashboard (OnboardingTraining.js): the one-step
    final-onboard form with its role-dependent required fields and step
    navigation, the onboarding submissions with their action table and local
    updates, and the training sessions with theirs. The component's state is
    split into three classes, one per concern: the form, the onboarding list
    and the training list. Requests are `Reply` parameters; status messages and
    their timers are left out. */
module OnboardingTraining {
  import opened Common
  import opened FormData

  // ---------------------------------------------------------------------------
  // The final-onboard form

  const TotalSteps: int := 1

  /** The required fields of the single step, Org. Details. */
  const OrgFields: seq<string> := ["zone", "region", "role", "joiningDate", "joiningTime", "joiningLocation", "salary"]

  /** The steps table: one list of required fields per step. */
  const StepFields: seq<seq<string>> := [OrgFields]

  /** The form's initial data: every field empty except the CEO, who is fixed. */
  function InitialForm(): Form
  {
    map["zone" := Str(""), "region" := Str(""), "reporting_hr" := Str(""), "reporting_fo" := Str(""),
        "reporting_zonalHead" := Str(""), "reporting_regionalHead" := Str(""),
        "reporting_ceo" := Str("Bhaskar Davuluri"), "joiningDate" := Str(""), "joiningTime" := Str(""),
        "joiningLocation" := Str(""), "salary" := Str(""), "role" := Str("")]
  }

  /** The reporting lines the role needs on the last step: a field officer
      reports to a zonal and a regional head, a regional head to a zonal head. */
  function RoleExtras(role: FieldValue): (r: seq<string>)
    ensures role == Str("FO") ==> r == ["reporting_zonalHead", "reporting_regionalHead"]
    ensures role == Str("RegionalHead") ==> r == ["reporting_zonalHead"]
    ensures role != Str("FO") && role != Str("RegionalHead") ==> r == []
  {
    if role == Str("FO") then ["reporting_zonalHead", "reporting_regionalHead"]
    else if role == Str("RegionalHead") then ["reporting_zonalHead"]
    else []
  }

  /** The fields validateCurrentStep checks on a step that exists. */
  function RequiredFields(step: int, role: FieldValue): seq<string>
    requires 1 <= step <= |StepFields|
  {
    StepFields[step - 1] + (if step == TotalSteps then RoleExtras(role) else [])
  }

  /** validateCurrentStep: a step missing from the table passes; otherwise every
      required field must be present. */
  predicate StepValid(form: Form, step: int)
    ensures !(1 <= step <= |StepFields|) ==> StepValid(form, step)
    ensures step == 1 ==> (StepValid(form, step) <==> forall k :: k in OrgFields + RoleExtras(Get(form, "role")) ==> Present(Get(form, k)))
  {
    !(1 <= step <= |StepFields|) || AllPresent(form, RequiredFields(step, Get(form, "role")))
  }

  /** The validation rule spelled out: the seven organisational fields, plus
      the zonal and regional heads for a field officer and the zonal head for a
      regional head. */
  lemma ValidationRule(form: Form)
    ensures StepValid(form, 1) <==>
      (AllPresent(form, OrgFields)
       && (Get(form, "role") == Str("FO") ==>
             (Present(Get(form, "reporting_zonalHead")) && Present(Get(form, "reporting_regionalHead"))))
       && (Get(form, "role") == Str("RegionalHead") ==> Present(Get(form, "reporting_zonalHead"))))
  {
    var role := Get(form, "role");
    var req := RequiredFields(1, role);
    assert req == OrgFields + RoleExtras(role);
    assert forall i :: 0 <= i < |OrgFields| ==> req[i] == OrgFields[i];
    if role == Str("FO") {
      assert req[7] == "reporting_zonalHead" && req[8] == "reporting_regionalHead";
    } else if role == Str("RegionalHead") {
      assert req[7] == "reporting_zonalHead";
    }
  }

  /** The form's change handler on an event: an event without a name is
      ignored; otherwise only the named field is set, to the first file of a
      file input or to the value, with null and undefined read as ''. */
  function Changed(form: Form, e: ChangeEvent): (r: Form)
    ensures e.name == "" ==> r == form
    ensures e.name != "" ==> forall k :: k != e.name ==> Get(r, k) == Get(form, k)
    ensures e.name != "" ==> e.name in r && r[e.name] != Null
    ensures e.name != "" && !(e.isFile && e.files.Some?) ==>
      r[e.name] == (if e.value.Null? || e.value.Undefined? then Str("") else e.value)
    ensures e.name != "" && e.isFile && e.files.Some? ==> r[e.name] == FirstFile(e.files.value)
  {
    if e.name == "" then form
    else form[e.name := EventValue(e, if e.value.Null? || e.value.Undefined? then Str("") else e.value)]
  }

  /** The form part of the component state. */
  class FinalOnboardForm {
    var currentStep: int
    var formData: Form

    constructor ()
      ensures currentStep == 1 && formData == InitialForm()
    {
      currentStep, formData := 1, InitialForm();
    }

    /** handleChange. */
    method HandleChange(e: ChangeEvent)
      modifies this
      ensures formData == Changed(old(formData), e) && currentStep == old(currentStep)
    {
      if e.name == "" {
        return;
      }
      var v := if e.value.Null? || e.value.Undefined? then Str("") else e.value;
      if e.isFile && e.files.Some? {
        v := FirstFile(e.files.value);
      }
      formData := formData[e.name := v];
    }

    /** validateCurrentStep: the required fields of the step, with the role's
        extra reporting lines on the last step, checked one by one. */
    method ValidateCurrentStep() returns (ok: bool)
      ensures ok == StepValid(formData, currentStep)
    {
      if !(1 <= currentStep <= |StepFields|) {
        return true;
      }
      var required := StepFields[currentStep - 1];
      if currentStep == TotalSteps {
        var role := Get(formData, "role");
        if role == Str("FO") {
          required := required + ["reporting_zonalHead", "reporting_regionalHead"];
        } else if role == Str("RegionalHead") {
          required := required + ["reporting_zonalHead"];
        }
      }
      assert required == RequiredFields(currentStep, Get(formData, "role"));
      var i := 0;
      while i < |required|
        invariant 0 <= i <= |required|
        invariant forall k :: 0 <= k < i ==> Present(Get(formData, required[k]))
      {
        var value := Get(formData, required[i]);
        if value.FileVal? {
          if value.name == "" {
            return false;
          }
        } else if value == Str("") || value == Null || value == Undefined {
          return false;
        }
        i := i + 1;
      }
      return true;
    }

    /** changeStep: a forward move is refused while the step is invalid, and a
        move is applied only when it lands within [1, TotalSteps]. */
    method ChangeStep(direction: int)
      modifies this
      ensures formData == old(formData)
      ensures direction > 0 && !StepValid(old(formData), old(currentStep)) ==> currentStep == old(currentStep)
      ensures !(direction > 0 && !StepValid(old(formData), old(currentStep))) ==>
        currentStep == (if 1 <= old(currentStep) + direction <= TotalSteps then old(currentStep) + direction
                        else old(currentStep))
      ensures 1 <= old(currentStep) <= TotalSteps ==> 1 <= currentStep <= TotalSteps
    {
      if direction > 0 {
        var ok := ValidateCurrentStep();
        if !ok {
          return;
        }
      }
      var newStep := currentStep + direction;
      if 1 <= newStep <= TotalSteps {
        currentStep := newStep;
      }
    }

    /** jumpToStep: moving back is always allowed; any other jump is allowed
        when the current step is valid. The index is not bounded here: the step
        buttons pass their own 1-based position. */
    method JumpToStep(stepIndex: int)
      modifies this
      ensures formData == old(formData)
      ensures currentStep == (if stepIndex < old(currentStep) || StepValid(old(formData), old(currentStep))
                              then stepIndex else old(currentStep))
    {
      if stepIndex < currentStep {
        currentStep := stepIndex;
        return;
      }
      var ok := ValidateCurrentStep();
      if ok {
        currentStep := stepIndex;
      }
    }
  }

  /** A jump from one of the step buttons, which pass a position in
      [1, TotalSteps], keeps the step within range. */
  lemma StepButtonJumpStaysInRange(current: int, stepIndex: int, valid: bool)
    requires 1 <= current <= TotalSteps && 1 <= stepIndex <= TotalSteps
    ensures var next := if stepIndex < current || valid then stepIndex else current;
      1 <= next <= TotalSteps
  {
  }

  // ---------------------------------------------------------------------------
  // Onboarding submissions

  datatype Onboarding = Onboarding(
    id: string, name: string, email: string, status: string,
    finalOnboardSubmitted: bool, issueDetails: string)

  datatype OnboardingAction = ViewOnboarding | Approve | RaiseIssue | FinalOnboard | CompleteOnboard

  /** The buttons of a submission's row. */
  function OnboardingActions(o: Onboarding): (r: seq<OnboardingAction>)
    ensures ViewOnboarding in r
    ensures Approve in r <==> o.status == "pending"
    ensures RaiseIssue in r <==> o.status == "pending"
    ensures FinalOnboard in r <==> o.status == "approved" && !o.finalOnboardSubmitted
    ensures CompleteOnboard in r <==> o.status == "approved" && o.finalOnboardSubmitted
  {
    if o.status == "pending" then [ViewOnboarding, Approve, RaiseIssue]
    else if o.status == "approved" && !o.finalOnboardSubmitted then [ViewOnboarding, FinalOnboard]
    else if o.status == "approved" then [ViewOnboarding, CompleteOnboard]
    else [ViewOnboarding]
  }

  /** Every submission offers View and at most one way forward, and a
      submission in any status other than pending or approved (onboarded, or
      one with an issue) offers nothing but View. */
  lemma OneWayForward(o: Onboarding)
    ensures |OnboardingActions(o)| <= 3
    ensures o.status != "pending" && o.status != "approved" ==> OnboardingActions(o) == [ViewOnboarding]
    ensures o.status != "pending" ==> |OnboardingActions(o)| <= 2
  {
  }

  function OnboardingIdIs(id: string): Onboarding -> bool
  {
    (o: Onboarding) => o.id == id
  }

  /** The local update of confirmRaiseIssue. */
  function WithIssue(details: string): Onboarding -> Onboarding
  {
    (o: Onboarding) => o.(status := "issue", issueDetails := details)
  }

  /** The local update of confirmCompleteOnboard. */
  function Onboarded(): Onboarding -> Onboarding
  {
    (o: Onboarding) => o.(status := "onboarded")
  }

  /** After an issue is raised or onboarding completed, the record offers only
      View: neither local update leaves a way forward. */
  lemma LocalUpdatesCloseTheRow(o: Onboarding, details: string)
    ensures OnboardingActions(WithIssue(details)(o)) == [ViewOnboarding]
    ensures OnboardingActions(Onboarded()(o)) == [ViewOnboarding]
  {
  }

  /** The four numbers above the submissions. */
  datatype OnboardingStats = OnboardingStats(total: nat, pending: nat, approved: nat, issues: nat)

  function StatusIs(status: string): Onboarding -> bool
  {
    (o: Onboarding) => o.status == status
  }

  function Stats(onboardings: seq<Onboarding>): (r: OnboardingStats)
    ensures r.total == |onboardings|
    ensures r.pending <= r.total && r.approved <= r.total && r.issues <= r.total
  {
    OnboardingStats(|onboardings|, |Filter(onboardings, StatusIs("pending"))|,
                    |Filter(onboardings, StatusIs("approved"))|, |Filter(onboardings, StatusIs("issue"))|)
  }

  /** The total counts every submission, and no submission is counted under two
      statuses. */
  lemma StatsBounded(onboardings: seq<Onboarding>)
    ensures var s := Stats(onboardings);
      s.total == |onboardings| && s.pending + s.approved + s.issues <= s.total
  {
    FilterDisjointCounts3(onboardings, StatusIs("pending"), StatusIs("approved"), StatusIs("issue"));
  }

  /** The onboarding part of the component state. */
  class SubmissionsBoard {
    var onboardings: seq<Onboarding>
    var selected: Option<Onboarding>
    var issueDetails: string
    var issueDialogOpen: bool
    var completeDialogOpen: bool
    var approveDialogOpen: bool

    constructor ()
      ensures onboardings == [] && selected.None? && issueDetails == ""
      ensures !issueDialogOpen && !completeDialogOpen && !approveDialogOpen
    {
      onboardings, selected, issueDetails := [], None, "";
      issueDialogOpen, completeDialogOpen, approveDialogOpen := false, false, false;
    }

    /** The Approve button of a row. */
    method HandleApprove(o: Onboarding)
      modifies this`selected, this`approveDialogOpen
      ensures selected == Some(o) && approveDialogOpen
      ensures onboardings == old(onboardings) && issueDetails == old(issueDetails)
      ensures issueDialogOpen == old(issueDialogOpen) && completeDialogOpen == old(completeDialogOpen)
    {
      selected := Some(o);
      approveDialogOpen := true;
    }

    /** confirmApprove: no local update; a successful request closes the dialog
        (and starts the refetch, which is FetchOnboardings). */
    method ConfirmApprove(reply: Reply<()>)
      modifies this`approveDialogOpen
      ensures onboardings == old(onboardings) && selected == old(selected) && issueDetails == old(issueDetails)
      ensures issueDialogOpen == old(issueDialogOpen) && completeDialogOpen == old(completeDialogOpen)
      ensures approveDialogOpen == (old(approveDialogOpen) && (old(selected).None? || reply.Err?))
    {
      if selected.Some? && reply.Ok? {
        approveDialogOpen := false;
      }
    }

    /** fetchOnboardings: the pending, approved and onboarded lists, in that order,
        replace the list when all three requests succeed. */
    method FetchOnboardings(pending: Reply<seq<Onboarding>>, approved: Reply<seq<Onboarding>>,
                            onboarded: Reply<seq<Onboarding>>)
      modifies this`onboardings
      ensures pending.Ok? && approved.Ok? && onboarded.Ok? ==>
        onboardings == pending.value + approved.value + onboarded.value
      ensures !(pending.Ok? && approved.Ok? && onboarded.Ok?) ==> onboardings == old(onboardings)
      ensures selected == old(selected) && issueDetails == old(issueDetails)
      ensures issueDialogOpen == old(issueDialogOpen) && completeDialogOpen == old(completeDialogOpen)
      ensures approveDialogOpen == old(approveDialogOpen)
    {
      if pending.Ok? && approved.Ok? && onboarded.Ok? {
        onboardings := pending.value + approved.value + onboarded.value;
      }
    }

    /** The Raise Issue button of a row. */
    method HandleRaiseIssue(o: Onboarding)
      modifies this`selected, this`issueDialogOpen
      ensures selected == Some(o) && issueDialogOpen
      ensures onboardings == old(onboardings) && issueDetails == old(issueDetails)
      ensures completeDialogOpen == old(completeDialogOpen) && approveDialogOpen == old(approveDialogOpen)
    {
      selected := Some(o);
      issueDialogOpen := true;
    }

    /** confirmRaiseIssue: blank details are refused before any request; after a
        successful request only the selected record (matched by id) gets status
        'issue' and the details, and the dialog closes and clears. With no
        selected record the request cannot be built and nothing changes. */
    method ConfirmRaiseIssue(reply: Reply<()>)
      modifies this`onboardings, this`issueDetails, this`issueDialogOpen
      ensures selected == old(selected) && completeDialogOpen == old(completeDialogOpen)
      ensures approveDialogOpen == old(approveDialogOpen)
      ensures IsBlank(old(issueDetails)) || old(selected).None? || reply.Err? ==>
        (onboardings == old(onboardings) && issueDetails == old(issueDetails)
         && issueDialogOpen == old(issueDialogOpen))
      ensures !IsBlank(old(issueDetails)) && old(selected).Some? && reply.Ok? ==>
        (onboardings == UpdateWhere(old(onboardings), OnboardingIdIs(old(selected).value.id), WithIssue(old(issueDetails)))
         && issueDetails == "" && !issueDialogOpen)
    {
      TrimEmptyIffBlank(issueDetails);
      if Trim(issueDetails) == [] {
        return;
      }
      if selected.None? || reply.Err? {
        return;
      }
      onboardings := UpdateWhere(onboardings, OnboardingIdIs(selected.value.id), WithIssue(issueDetails));
      issueDialogOpen := false;
      issueDetails := "";
    }

    /** The Complete Onboard button of a row. */
    method HandleCompleteOnboard(o: Onboarding)
      modifies this`selected, this`completeDialogOpen
      ensures selected == Some(o) && completeDialogOpen
      ensures onboardings == old(onboardings) && issueDetails == old(issueDetails)
      ensures issueDialogOpen == old(issueDialogOpen) && approveDialogOpen == old(approveDialogOpen)
    {
      selected := Some(o);
      completeDialogOpen := true;
    }

    /** confirmCompleteOnboard: after a successful request only the selected
        record gets status 'onboarded', and the dialog closes. (The refetch it
        then starts is FetchOnboardings.) */
    method ConfirmCompleteOnboard(reply: Reply<()>)
      modifies this`onboardings, this`completeDialogOpen
      ensures selected == old(selected) && issueDetails == old(issueDetails)
      ensures issueDialogOpen == old(issueDialogOpen) && approveDialogOpen == old(approveDialogOpen)
      ensures old(selected).None? || reply.Err? ==>
        onboardings == old(onboardings) && completeDialogOpen == old(completeDialogOpen)
      ensures old(selected).Some? && reply.Ok? ==>
        (onboardings == UpdateWhere(old(onboardings), OnboardingIdIs(old(selected).value.id), Onboarded())
         && !completeDialogOpen)
    {
      if selected.None? || reply.Err? {
        return;
      }
      onboardings := UpdateWhere(onboardings, OnboardingIdIs(selected.value.id), Onboarded());
      completeDialogOpen := false;
    }
  }

  /** Raising an issue touches only the records with the selected id, which
      then carry status 'issue' and the details; the others stay as they were. */
  lemma RaiseIssueTouchesOnlySelected(onboardings: seq<Onboarding>, id: string, details: string, i: int)
    requires 0 <= i < |onboardings|
    ensures var r := UpdateWhere(onboardings, OnboardingIdIs(id), WithIssue(details));
      (onboardings[i].id != id ==> r[i] == onboardings[i])
      && (onboardings[i].id == id ==>
            (r[i].status == "issue" && r[i].issueDetails == details
             && r[i].(status := onboardings[i].status, issueDetails := onboardings[i].issueDetails) == onboardings[i]))
  {
  }

  // ---------------------------------------------------------------------------
  // Training sessions

  datatype Training = Training(
    id: string, employeeId: string, employeeName: string, trainingType: string,
    trainer: string, status: string, date: string, time: string, location: string)

  /** The schedule dialog's fields. */
  datatype ScheduleData = ScheduleData(
    employeeId: string, employeeName: string, trainingType: string,
    trainer: string, date: string, time: string, location: string)

  datatype TrainingAction = ViewTraining | Schedule | AssignTrainer | CompleteTraining

  /** The buttons of a training's row. */
  function TrainingActions(status: string): (r: seq<TrainingAction>)
    ensures ViewTraining in r
    ensures Schedule in r <==> status == "pending"
    ensures AssignTrainer in r <==> status == "pending"
    ensures CompleteTraining in r <==> status == "scheduled"
  {
    if status == "pending" then [ViewTraining, Schedule, AssignTrainer]
    else if status == "scheduled" then [ViewTraining, CompleteTraining]
    else [ViewTraining]
  }

  /** The status a training has after an action succeeds. */
  function StatusAfter(action: TrainingAction, status: string): (r: string)
    ensures r in {status, "scheduled", "completed"}
    ensures r != status ==> action == Schedule || action == CompleteTraining
    ensures action == AssignTrainer || action == ViewTraining ==> r == status
  {
    match action
    case Schedule => "scheduled"
    case CompleteTraining => "completed"
    case _ => status
  }

  /** The training lifecycle: pending can only be scheduled (or get a trainer,
      staying pending), scheduled can only be completed, and completed offers
      nothing further. */
  lemma TrainingLifecycle(status: string, action: TrainingAction)
    requires action in TrainingActions(status) && action != ViewTraining
    ensures status == "pending" ==> StatusAfter(action, status) in {"scheduled", "pending"}
    ensures status == "scheduled" ==> StatusAfter(action, status) == "completed"
    ensures TrainingActions(StatusAfter(action, status)) != [ViewTraining] <==> StatusAfter(action, status) != "completed"
  {
  }

  function TrainingIdIs(id: string): Training -> bool
  {
    (t: Training) => t.id == id
  }

  /** `{ ...t, ...scheduleFormData, status: 'scheduled' }`. */
  function Scheduled(d: ScheduleData): Training -> Training
  {
    (t: Training) => t.(employeeId := d.employeeId, employeeName := d.employeeName,
                        trainingType := d.trainingType, trainer := d.trainer, date := d.date,
                        time := d.time, location := d.location, status := "scheduled")
  }

  function WithTrainer(trainer: string): Training -> Training
  {
    (t: Training) => t.(trainer := trainer)
  }

  function Completed(): Training -> Training
  {
    (t: Training) => t.(status := "completed")
  }

  /** Assigning a trainer changes nothing but the trainer: the status in
      particular stays as it was. */
  lemma AssignKeepsStatus(trainings: seq<Training>, id: string, trainer: string, i: int)
    requires 0 <= i < |trainings|
    ensures var r := UpdateWhere(trainings, TrainingIdIs(id), WithTrainer(trainer));
      r[i].status == trainings[i].status && r[i].(trainer := trainings[i].trainer) == trainings[i]
  {
  }

  /** The schedule dialog prefilled from a training, with missing values as ''. */
  function ScheduleFrom(t: Training): ScheduleData
  {
    ScheduleData(t.employeeId, t.employeeName, t.trainingType, t.trainer, t.date, t.time, t.location)
  }

  datatype TrainingStats = TrainingStats(total: nat, scheduled: nat, completed: nat, pending: nat)

  function TrainingStatusIs(status: string): Training -> bool
  {
    (t: Training) => t.status == status
  }

  function TrainingStatsOf(trainings: seq<Training>): TrainingStats
  {
    TrainingStats(|trainings|, |Filter(trainings, TrainingStatusIs("scheduled"))|,
                  |Filter(trainings, TrainingStatusIs("completed"))|, |Filter(trainings, TrainingStatusIs("pending"))|)
  }

  lemma TrainingStatsBounded(trainings: seq<Training>)
    ensures var s := TrainingStatsOf(trainings);
      s.total == |trainings| && s.scheduled + s.completed + s.pending <= s.total
  {
    FilterDisjointCounts3(trainings, TrainingStatusIs("scheduled"), TrainingStatusIs("completed"), TrainingStatusIs("pending"));
  }

  /** The training part of the component state. */
  class TrainingBoard {
    var trainings: seq<Training>
    var selected: Option<Training>
    var scheduleForm: ScheduleData
    var selectedTrainer: string
    var scheduleOpen: bool
    var assignOpen: bool
    var completeOpen: bool

    constructor ()
      ensures trainings == [] && selected.None? && selectedTrainer == ""
      ensures scheduleForm == ScheduleData("", "", "", "", "", "", "")
      ensures !scheduleOpen && !assignOpen && !completeOpen
    {
      trainings, selected, selectedTrainer := [], None, "";
      scheduleForm := ScheduleData("", "", "", "", "", "", "");
      scheduleOpen, assignOpen, completeOpen := false, false, false;
    }

    /** The Schedule button: the dialog opens prefilled from the training. */
    method HandleScheduleTraining(t: Training)
      modifies this
      ensures selected == Some(t) && scheduleForm == ScheduleFrom(t) && scheduleOpen
      ensures trainings == old(trainings) && selectedTrainer == old(selectedTrainer)
      ensures assignOpen == old(assignOpen) && completeOpen == old(completeOpen)
    {
      selected := Some(t);
      scheduleForm := ScheduleFrom(t);
      scheduleOpen := true;
    }

    /** confirmScheduleTraining: after a successful request the selected training
        takes the dialog's fields and status 'scheduled', and the dialog closes. */
    method ConfirmScheduleTraining(reply: Reply<()>)
      modifies this
      ensures selected == old(selected) && scheduleForm == old(scheduleForm)
      ensures selectedTrainer == old(selectedTrainer)
      ensures assignOpen == old(assignOpen) && completeOpen == old(completeOpen)
      ensures old(selected).None? || reply.Err? ==> trainings == old(trainings) && scheduleOpen == old(scheduleOpen)
      ensures old(selected).Some? && reply.Ok? ==>
        (trainings == UpdateWhere(old(trainings), TrainingIdIs(old(selected).value.id), Scheduled(old(scheduleForm)))
         && !scheduleOpen)
    {
      if selected.None? || reply.Err? {
        return;
      }
      trainings := UpdateWhere(trainings, TrainingIdIs(selected.value.id), Scheduled(scheduleForm));
      scheduleOpen := false;
    }

    /** The Assign Trainer button: the dialog opens with the current trainer. */
    method HandleAssignTrainer(t: Training)
      modifies this
      ensures selected == Some(t) && selectedTrainer == t.trainer && assignOpen
      ensures trainings == old(trainings) && scheduleForm == old(scheduleForm)
      ensures scheduleOpen == old(scheduleOpen) && completeOpen == old(completeOpen)
    {
      selected := Some(t);
      selectedTrainer := t.trainer;
      assignOpen := true;
    }

    /** confirmAssignTrainer: a blank trainer is refused before any request;
        after a successful request only the selected training's trainer
        changes, and the dialog closes. */
    method ConfirmAssignTrainer(reply: Reply<()>)
      modifies this
      ensures selected == old(selected) && scheduleForm == old(scheduleForm)
      ensures selectedTrainer == old(selectedTrainer)
      ensures scheduleOpen == old(scheduleOpen) && completeOpen == old(completeOpen)
      ensures IsBlank(old(selectedTrainer)) || old(selected).None? || reply.Err? ==>
        trainings == old(trainings) && assignOpen == old(assignOpen)
      ensures !IsBlank(old(selectedTrainer)) && old(selected).Some? && reply.Ok? ==>
        (trainings == UpdateWhere(old(trainings), TrainingIdIs(old(selected).value.id), WithTrainer(old(selectedTrainer)))
         && !assignOpen)
    {
      TrimEmptyIffBlank(selectedTrainer);
      if Trim(selectedTrainer) == [] {
        return;
      }
      if selected.None? || reply.Err? {
        return;
      }
      trainings := UpdateWhere(trainings, TrainingIdIs(selected.value.id), WithTrainer(selectedTrainer));
      assignOpen := false;
    }

    /** The Complete button. */
    method HandleCompleteTraining(t: Training)
      modifies this
      ensures selected == Some(t) && completeOpen
      ensures trainings == old(trainings) && scheduleForm == old(scheduleForm)
      ensures selectedTrainer == old(selectedTrainer)
      ensures scheduleOpen == old(scheduleOpen) && assignOpen == old(assignOpen)
    {
      selected := Some(t);
      completeOpen := true;
    }

    /** confirmCompleteTraining: after a successful request the selected training
        gets status 'completed', and the dialog closes. */
    method ConfirmCompleteTraining(reply: Reply<()>)
      modifies this
      ensures selected == old(selected) && scheduleForm == old(scheduleForm)
      ensures selectedTrainer == old(selectedTrainer)
      ensures scheduleOpen == old(scheduleOpen) && assignOpen == old(assignOpen)
      ensures old(selected).None? || reply.Err? ==> trainings == old(trainings) && completeOpen == old(completeOpen)
      ensures old(selected).Some? && reply.Ok? ==>
        (trainings == UpdateWhere(old(trainings), TrainingIdIs(old(selected).value.id), Completed())
         && !completeOpen)
    {
      if selected.None? || reply.Err? {
        return;
      }
      trainings := UpdateWhere(trainings, TrainingIdIs(selected.value.id), Completed());
      completeOpen := false;
    }
  }
}
