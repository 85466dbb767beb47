/** The interview manager (InterviewsFeedback.js): candidates in the interview
    pipeline, their rounds ("steps") built from the store's interviews, the next
    round to schedule, feedback recording with final-round promotion, and the
    calendar projections. Calendar days are day numbers (day 0 is Thursday
    1 January 1970); "today" is a parameter. */
module InterviewsFeedback {
  import opened Common
  import opened ActivityContext
  import opened RecruitmentContext

  /** COMMON_PIPELINE: the seven round types, in order. */
  const Pipeline: seq<string> := [
    "Phone Interview", "Aptitude Test", "Technical Test", "Technical Interview",
    "Manager Round", "HR Interview", "Final Interview"]

  const FinalRound: string := "Final Interview"

  datatype StepResult = Pending | Pass | Fail

  function ResultText(r: StepResult): string
  {
    match r
    case Pending => "Pending"
    case Pass => "Pass"
    case Fail => "Fail"
  }

  /** One round of one candidate, as the page shows it. */
  datatype Step = Step(
    id: string, kind: string, date: Option<int>, time: string, interviewer: string,
    notes: string, score: Option<real>, feedback: string, result: StepResult, completed: bool)

  /** A candidate as the page shows it. */
  datatype ViewApp = ViewApp(
    id: string, name: string, position: string, coverLetter: string,
    status: string, finalDecision: string, steps: seq<Step>)

  // ---------------------------------------------------------------------------
  // From the store's records to the page's view

  /** An interview becomes a step: only the backend status "Completed" reads as a
      completed Pass; every other status, "Failed" included, reads as Pending. */
  function StepOf(v: Interview): (s: Step)
    ensures s.result == Pass <==> v.status == "Completed"
    ensures s.completed <==> v.status == "Completed"
    ensures s.result != Fail
    ensures s.id == v.id && s.kind == v.kind && s.date == v.date && s.score == v.rating
  {
    var done := v.status == "Completed";
    Step(v.id, v.kind, v.date, v.time, v.interviewer,
         if v.notes.Some? then v.notes.value else "", v.rating,
         if v.feedback.Some? then v.feedback.value else "",
         if done then Pass else Pending, done)
  }

  /** The interview is for this candidate. The source lists candidates by
      `interview.application.toString()` and matches steps by
      `(application._id || application)`, both behind a truthiness test; here
      `application` already holds the candidate id, so one equality serves both,
      and an empty id is matched rather than skipped. */
  predicate BelongsTo(v: Interview, candidateId: string)
  {
    v.application == Some(candidateId)
  }

  /** The steps of a candidate: its interviews, in store order. */
  function StepsFor(interviews: seq<Interview>, candidateId: string): (r: seq<Step>)
    ensures |r| <= |interviews|
    ensures forall s :: s in r <==> exists v :: v in interviews && BelongsTo(v, candidateId) && s == StepOf(v)
  {
    if interviews == [] then []
    else
      var rest := StepsFor(interviews[1..], candidateId);
      assert forall v :: v in interviews[1..] ==> v in interviews;
      assert forall v :: v in interviews ==> v == interviews[0] || v in interviews[1..];
      (if BelongsTo(interviews[0], candidateId) then [StepOf(interviews[0])] else []) + rest
  }

  /** StepsFor keeps store order: the steps of two runs of interviews are the
      steps of the first run followed by those of the second. */
  lemma {:induction false} StepsForAppend(a: seq<Interview>, b: seq<Interview>, candidateId: string)
    ensures StepsFor(a + b, candidateId) == StepsFor(a, candidateId) + StepsFor(b, candidateId)
  {
    if a == [] {
      assert a + b == b;
    } else {
      var ab := a + b;
      assert ab[0] == a[0] && ab[1..] == a[1..] + b;
      StepsForAppend(a[1..], b, candidateId);
      var head := if BelongsTo(a[0], candidateId) then [StepOf(a[0])] else [];
      assert StepsFor(ab, candidateId) == head + StepsFor(ab[1..], candidateId);
      assert StepsFor(a, candidateId) == head + StepsFor(a[1..], candidateId);
    }
  }

  /** A single interview yields its own step when it belongs to the candidate
      and nothing otherwise, so with StepsForAppend the steps are the
      candidate's interviews mapped one by one in store order. */
  lemma StepsForOne(v: Interview, candidateId: string)
    ensures StepsFor([v], candidateId) == (if BelongsTo(v, candidateId) then [StepOf(v)] else [])
  {
    assert [v][1..] == [];
  }

  predicate HasCompletedApplication(c: Candidate)
  {
    exists i :: 0 <= i < |c.applications| && c.applications[i].status == "Completed"
  }

  /** The candidates the page lists: those with an interview, or with an
      application that is Shortlisted or Completed. */
  predicate Listed(c: Candidate, interviews: seq<Interview>)
  {
    (exists i :: 0 <= i < |interviews| && BelongsTo(interviews[i], c.id))
    || exists i :: 0 <= i < |c.applications| && c.applications[i].status in {"Shortlisted", "Completed"}
  }

  function IsShortlisted(a: CandidateApplication): bool
  {
    a.status == "Shortlisted"
  }

  /** A candidate's view: Completed and Selected when some application is
      Completed, InProcess and Pending otherwise. */
  function ViewOf(c: Candidate, interviews: seq<Interview>): (r: ViewApp)
    ensures r.id == c.id && r.name == c.name && r.position == c.position
    ensures r.status == "Completed" <==> HasCompletedApplication(c)
    ensures r.finalDecision == "Selected" <==> HasCompletedApplication(c)
    ensures r.status == "InProcess" <==> !HasCompletedApplication(c)
    ensures r.finalDecision == "Pending" <==> !HasCompletedApplication(c)
    ensures r.steps == StepsFor(interviews, c.id)
  {
    var shortlisted := Find(c.applications, IsShortlisted);
    var done := exists i | 0 <= i < |c.applications| :: c.applications[i].status == "Completed";
    ViewApp(c.id, c.name, c.position,
            if shortlisted.Some? && shortlisted.value.coverLetter.Some? then shortlisted.value.coverLetter.value else "",
            if done then "Completed" else "InProcess",
            if done then "Selected" else "Pending",
            StepsFor(interviews, c.id))
  }

  /** The page's list, rebuilt whenever the store's candidates or interviews change. */
  function ViewApplications(candidates: seq<Candidate>, interviews: seq<Interview>): (r: seq<ViewApp>)
    ensures |r| <= |candidates|
    ensures forall a :: a in r ==> exists c :: c in candidates && Listed(c, interviews) && a == ViewOf(c, interviews)
    ensures forall c :: c in candidates && Listed(c, interviews) ==> ViewOf(c, interviews) in r
  {
    if candidates == [] then []
    else
      var rest := ViewApplications(candidates[1..], interviews);
      assert forall c :: c in candidates[1..] ==> c in candidates;
      assert forall c :: c in candidates ==> c == candidates[0] || c in candidates[1..];
      (if Listed(candidates[0], interviews) then [ViewOf(candidates[0], interviews)] else []) + rest
  }

  // ---------------------------------------------------------------------------
  // The next round

  function KindIs(kind: string): Step -> bool
  {
    (s: Step) => s.kind == kind
  }

  /** A round type is passed when its first step has result Pass. */
  predicate StagePassed(steps: seq<Step>, kind: string)
  {
    var s := Find(steps, KindIs(kind));
    s.Some? && s.value.result == Pass
  }

  /** The position of getNextStage's loop once it stops: the first type at or
      after `i` that is not passed, or the end of `stages`. */
  function FirstUnpassedFrom(steps: seq<Step>, stages: seq<string>, i: nat): (j: nat)
    requires i <= |stages|
    ensures i <= j <= |stages|
    ensures forall k :: i <= k < j ==> StagePassed(steps, stages[k])
    ensures j < |stages| ==> !StagePassed(steps, stages[j])
    decreases |stages| - i
  {
    if i == |stages| || !StagePassed(steps, stages[i]) then i
    else FirstUnpassedFrom(steps, stages, i + 1)
  }

  /** getNextStage's loop over `stages`: the first type that is not passed. */
  function NextStageIn(steps: seq<Step>, stages: seq<string>): (r: Option<string>)
    ensures r.None? <==> forall k :: 0 <= k < |stages| ==> StagePassed(steps, stages[k])
    ensures r.Some? ==> exists i :: (0 <= i < |stages| && stages[i] == r.value
      && !StagePassed(steps, stages[i]) && forall k :: 0 <= k < i ==> StagePassed(steps, stages[k]))
  {
    var j := FirstUnpassedFrom(steps, stages, 0);
    if j < |stages| then Some(stages[j]) else None
  }

  /** getNextStage(app). */
  function NextStage(app: ViewApp): (r: Option<string>)
    ensures r.None? <==> forall k :: 0 <= k < |Pipeline| ==> StagePassed(app.steps, Pipeline[k])
    ensures r.Some? ==> r.value in Pipeline && !StagePassed(app.steps, r.value)
  {
    NextStageIn(app.steps, Pipeline)
  }

  /** The next stage is a pipeline type that is not passed while every earlier
      type is; there is none exactly when all seven types are passed. */
  lemma NextStageIsFirstUnpassed(app: ViewApp)
    ensures NextStage(app).None? <==> forall k :: 0 <= k < 7 ==> StagePassed(app.steps, Pipeline[k])
    ensures NextStage(app).Some? ==> exists i :: (0 <= i < 7 && Pipeline[i] == NextStage(app).value
      && !StagePassed(app.steps, Pipeline[i]) && forall k :: 0 <= k < i ==> StagePassed(app.steps, Pipeline[k]))
  {
  }

  /** A candidate with no steps is next due for a phone interview. */
  lemma {:induction false} FreshCandidateStartsAtPhone(app: ViewApp)
    requires app.steps == []
    ensures NextStage(app) == Some("Phone Interview")
  {
    assert !StagePassed(app.steps, Pipeline[0]);
  }

  // ---------------------------------------------------------------------------
  // Scores

  /** `Math.min(5, Math.max(0, Number(score) || 0))`; `None` is an input that is
      not a number (NaN), which `|| 0` turns into 0. */
  function ClampScore(score: Option<real>): (r: real)
    ensures 0.0 <= r <= 5.0
    ensures score.None? ==> r == 0.0
    ensures score.Some? && 0.0 <= score.value <= 5.0 ==> r == score.value
    ensures score.Some? && score.value > 5.0 ==> r == 5.0
    ensures score.Some? && score.value < 0.0 ==> r == 0.0
  {
    var n := if score.Some? then score.value else 0.0;
    var low := if n > 0.0 then n else 0.0;
    if low < 5.0 then low else 5.0
  }

  /** The input field already clamps, so the clamp on submit changes nothing more. */
  lemma ClampIdempotent(score: Option<real>)
    ensures ClampScore(Some(ClampScore(score))) == ClampScore(score)
  {
  }

  // ---------------------------------------------------------------------------
  // Calendar projections

  /** A step of some candidate, tagged with that candidate, as the calendar lists it. */
  datatype ScheduledStep = ScheduledStep(step: Step, appId: string, appName: string, position: string)

  predicate IsScheduled(s: Step)
  {
    !s.completed && s.date.Some?
  }

  function Tagged(a: ViewApp, s: Step): ScheduledStep
  {
    ScheduledStep(s, a.id, a.name, a.position)
  }

  function ScheduledOf(a: ViewApp, steps: seq<Step>): (r: seq<ScheduledStep>)
    ensures forall x :: x in r <==> exists s :: s in steps && IsScheduled(s) && x == Tagged(a, s)
  {
    if steps == [] then []
    else
      assert forall s :: s in steps ==> s == steps[0] || s in steps[1..];
      (if IsScheduled(steps[0]) then [Tagged(a, steps[0])] else []) + ScheduledOf(a, steps[1..])
  }

  /** allScheduledSteps: every incomplete, dated step of every listed candidate. */
  function ScheduledSteps(apps: seq<ViewApp>): (r: seq<ScheduledStep>)
    ensures forall x :: x in r ==> (IsScheduled(x.step)
      && exists a :: a in apps && x == Tagged(a, x.step) && x.step in a.steps)
    ensures forall a, s :: a in apps && s in a.steps && IsScheduled(s) ==> Tagged(a, s) in r
  {
    if apps == [] then []
    else
      var here := ScheduledOf(apps[0], apps[0].steps);
      var rest := ScheduledSteps(apps[1..]);
      assert forall a :: a in apps ==> a == apps[0] || a in apps[1..];
      here + rest
  }

  function DatedOn(day: int): ScheduledStep -> bool
  {
    (x: ScheduledStep) => x.step.date == Some(day)
  }

  /** todaysSteps: the scheduled steps dated `today`. */
  function TodaysSteps(apps: seq<ViewApp>, today: int): (r: seq<ScheduledStep>)
    ensures |r| <= |ScheduledSteps(apps)|
    ensures forall x :: x in r <==> x in ScheduledSteps(apps) && x.step.date == Some(today)
  {
    Filter(ScheduledSteps(apps), DatedOn(today))
  }

  /** Date.prototype.getDay for a day number: 0 is Sunday, 6 is Saturday. */
  function Weekday(day: int): (w: int)
    ensures 0 <= w < 7
  {
    (day + 4) % 7
  }

  /** startOfWeekDate: back `(getDay() + 6) % 7` days, to the Monday of the week. */
  function StartOfWeek(day: int): (r: int)
    ensures day - 6 <= r <= day
    ensures Weekday(r) == 1
  {
    var back := (Weekday(day) + 6) % 7;
    assert (day + 4) % 7 == 0 ==> back == 6;
    day - back
  }

  /** weekDates: seven consecutive days from `weekStart`. */
  method WeekDates(weekStart: int) returns (days: seq<int>)
    ensures |days| == 7 && days[0] == weekStart
    ensures forall i :: 1 <= i < 7 ==> days[i] == days[i - 1] + 1
  {
    days := [];
    for i := 0 to 7
      invariant |days| == i
      invariant forall k :: 0 <= k < i ==> days[k] == weekStart + k
    {
      days := days + [weekStart + i];
    }
  }

  /** The week shown is the one holding `today`, Monday first. */
  lemma WeekHoldsToday(today: int)
    ensures var start := StartOfWeek(today); start <= today < start + 7 && Weekday(start) == 1
  {
  }

  // ---------------------------------------------------------------------------
  // Local view updates

  predicate InProcessTab(a: ViewApp)
  {
    a.status == "Reviewing" || a.status == "InProcess"
  }

  function InProcessExcept(id: string): ViewApp -> bool
  {
    (a: ViewApp) => InProcessTab(a) && a.id != id
  }

  /** rejectApplication's update of the list: the matching candidates become
      Rejected, with decision Rejected; all others stay as they were. */
  function MarkRejected(apps: seq<ViewApp>, id: string): (r: seq<ViewApp>)
    ensures |r| == |apps|
    ensures forall i :: 0 <= i < |apps| ==>
      r[i] == if apps[i].id == id then apps[i].(status := "Rejected", finalDecision := "Rejected") else apps[i]
  {
    seq(|apps|, i requires 0 <= i < |apps| =>
      if apps[i].id == id then apps[i].(status := "Rejected", finalDecision := "Rejected") else apps[i])
  }

  /** After a rejection, the In Process tab lists exactly the candidates it listed
      before, minus the rejected one, in the same order. */
  lemma {:induction false} RejectLeavesInProcessTab(apps: seq<ViewApp>, id: string)
    ensures Filter(MarkRejected(apps, id), InProcessTab) == Filter(apps, InProcessExcept(id))
  {
    if apps != [] {
      assert MarkRejected(apps, id)[1..] == MarkRejected(apps[1..], id);
      RejectLeavesInProcessTab(apps[1..], id);
    }
  }

  function StepIdIsNot(stepId: string): Step -> bool
  {
    (s: Step) => s.id != stepId
  }

  /** removeStep's update of the list: the step leaves only that candidate. */
  function DropStep(apps: seq<ViewApp>, appId: string, stepId: string): (r: seq<ViewApp>)
    ensures |r| == |apps|
    ensures forall i :: 0 <= i < |apps| ==>
      r[i] == if apps[i].id == appId then apps[i].(steps := Filter(apps[i].steps, StepIdIsNot(stepId))) else apps[i]
  {
    seq(|apps|, i requires 0 <= i < |apps| =>
      if apps[i].id == appId then apps[i].(steps := Filter(apps[i].steps, StepIdIsNot(stepId))) else apps[i])
  }

  /** Removing a step keeps every other step of that candidate, in order, and
      no step with that id remains. */
  lemma RemovedStepIsGone(app: ViewApp, stepId: string)
    ensures var kept := Filter(app.steps, StepIdIsNot(stepId));
      (forall s :: s in kept <==> s in app.steps && s.id != stepId)
  {
  }

  // ---------------------------------------------------------------------------
  // The page

  datatype FeedbackForm = FeedbackForm(score: Option<real>, result: StepResult, feedback: string)

  datatype ScheduleForm = ScheduleForm(
    kind: string, date: int, time: string, duration: string,
    interviewer: string, location: string, notes: string)

  /** The body of createInterview sent by scheduleStep. */
  datatype InterviewRequest = InterviewRequest(
    application: string, candidateName: string, position: string, date: int,
    time: string, interviewer: string, kind: string, notes: string)

  /** The body of updateInterview sent by submitFeedback. */
  datatype InterviewUpdate = InterviewUpdate(id: string, rating: real, feedback: string, status: string)

  /** updateApplication(candidateId, index, { status }). */
  datatype StatusRequest = StatusRequest(candidateId: string, index: int, status: string)

  const EmptyFeedback := FeedbackForm(Some(0.0), Pass, "")

  function CandidateIdIs(id: string): Candidate -> bool
  {
    (c: Candidate) => c.id == id
  }

  /** What the final-round branch of submitFeedback does: the promotion it
      requests, the activities it reports, and whether it finishes without throwing. */
  datatype PromotionOutcome = PromotionOutcome(promoted: Option<StatusRequest>, added: seq<Activity>, ok: bool)

  /** The final-round branch: the candidate is looked up by id; its first
      Shortlisted application, if any, is asked to become Completed. */
  function PromotionPlan(app: ViewApp, candidates: seq<Candidate>, applicationReply: Reply<Application>,
                         now: int): PromotionOutcome
  {
    var c := Find(candidates, CandidateIdIs(app.id));
    if c.None? then
      // reading the missing candidate's id throws inside the try block
      PromotionOutcome(None, [], false)
    else
      var index := FindIndex(c.value.applications, IsShortlisted);
      if index == -1 then PromotionOutcome(None, [], true)
      else
        var request := StatusRequest(c.value.id, index, "Completed");
        if applicationReply.Err? then PromotionOutcome(Some(request), [], false)
        else
          PromotionOutcome(Some(request), [
            NewActivity("Application updated for " + OrElse(applicationReply.value.position, "position"), "recruitment", now),
            NewActivity("Candidate " + app.name + " moved to Completed after passing final round", "general", now)], true)
  }

  /** What one submitFeedback does: the interview update it sends, the
      promotion it requests, the activities it reports (the store's and the
      page's, in order), and whether the page resets afterwards. */
  datatype FeedbackOutcome = FeedbackOutcome(
    sent: Option<InterviewUpdate>, promoted: Option<StatusRequest>, added: seq<Activity>, reset: bool)

  /** The two entries a recorded interview result adds to the feed: the store's
      own report of the update, then the page's summary of the result. */
  function FeedbackReport(updated: Interview, kind: string, name: string, result: StepResult, now: int): (r: seq<Activity>)
    ensures |r| == 2 && r[0].kind == "recruitment" && r[1].kind == "general"
    ensures r[1].title == "Submitted feedback for " + kind + " of " + name + ": " + ResultText(result)
  {
    [NewActivity("Interview updated for " + OrElse(updated.candidateName, "candidate"), "recruitment", now),
     NewActivity("Submitted feedback for " + kind + " of " + name + ": " + ResultText(result), "general", now)]
  }

  /** submitFeedback's decisions, given the open candidate and step, the form,
      the store's candidates and the replies of the two requests. */
  function FeedbackPlan(current: Option<ViewApp>, editing: Option<int>, form: FeedbackForm,
                        candidates: seq<Candidate>, interviewReply: Reply<Interview>,
                        applicationReply: Reply<Application>, now: int): FeedbackOutcome
  {
    if current.None? || editing.None? || !(0 <= editing.value < |current.value.steps|) then
      FeedbackOutcome(None, None, [], false)
    else
      var app := current.value;
      var step := app.steps[editing.value];
      var sent := InterviewUpdate(step.id, ClampScore(form.score), form.feedback,
                                  if form.result == Pass then "Completed" else "Failed");
      if interviewReply.Err? then FeedbackOutcome(Some(sent), None, [], false)
      else
        var reported := FeedbackReport(interviewReply.value, step.kind, app.name, form.result, now);
        if !(step.kind == FinalRound && form.result == Pass) then FeedbackOutcome(Some(sent), None, reported, true)
        else
          var p := PromotionPlan(app, candidates, applicationReply, now);
          FeedbackOutcome(Some(sent), p.promoted, reported + p.added, p.ok)
  }

  /** The final-round branch asks to promote exactly the candidate's first
      Shortlisted application, to Completed, and nothing when there is none; it
      finishes cleanly exactly when the candidate is found and the request, if
      one was made, succeeds. */
  lemma PromotionPlanSpec(app: ViewApp, candidates: seq<Candidate>, applicationReply: Reply<Application>, now: int)
    ensures var r := PromotionPlan(app, candidates, applicationReply, now);
      var c := Find(candidates, CandidateIdIs(app.id));
      (r.promoted.Some? ==>
         (c.Some? && r.promoted.value.candidateId == app.id
          && r.promoted.value.status == "Completed"
          && 0 <= r.promoted.value.index < |c.value.applications|
          && c.value.applications[r.promoted.value.index].status == "Shortlisted"
          && forall k :: 0 <= k < r.promoted.value.index ==> c.value.applications[k].status != "Shortlisted"))
      && (r.promoted.None? ==>
         (c.None? || forall k :: 0 <= k < |c.value.applications| ==> c.value.applications[k].status != "Shortlisted"))
      && (r.ok <==>
         ((exists i :: 0 <= i < |candidates| && candidates[i].id == app.id)
          && (r.promoted.Some? ==> applicationReply.Ok?)))
      && |r.added| <= 2 && (r.added != [] <==> r.promoted.Some? && applicationReply.Ok?)
  {
  }

  /** submitFeedback sends the clamped score, the feedback and the status the
      result maps to; only a Pass on the final round can promote, and then
      exactly as PromotionPlan says; the page resets only after every request it
      made succeeded, and reports nothing when the interview update failed. */
  lemma FeedbackPlanSpec(current: Option<ViewApp>, editing: Option<int>, form: FeedbackForm,
                         candidates: seq<Candidate>, interviewReply: Reply<Interview>,
                         applicationReply: Reply<Application>, now: int)
    ensures var r := FeedbackPlan(current, editing, form, candidates, interviewReply, applicationReply, now);
      (r.sent.Some? <==> current.Some? && editing.Some? && 0 <= editing.value < |current.value.steps|)
      && (r.sent.Some? ==> var step := current.value.steps[editing.value];
        r.sent.value.id == step.id && r.sent.value.feedback == form.feedback
        && 0.0 <= r.sent.value.rating <= 5.0 && r.sent.value.rating == ClampScore(form.score)
        && (r.sent.value.status == "Completed" <==> form.result == Pass)
        && (r.sent.value.status == "Failed" <==> form.result != Pass))
      && (r.promoted.Some? ==>
         (r.sent.Some? && interviewReply.Ok? && form.result == Pass
          && current.value.steps[editing.value].kind == FinalRound))
      && ((r.sent.Some? && interviewReply.Ok? && form.result == Pass
           && current.value.steps[editing.value].kind == FinalRound) ==>
         (var p := PromotionPlan(current.value, candidates, applicationReply, now);
          r.promoted == p.promoted && r.reset == p.ok))
      && ((r.sent.Some? && interviewReply.Ok?
           && !(form.result == Pass && current.value.steps[editing.value].kind == FinalRound)) ==> r.reset)
      && (r.reset ==> r.sent.Some? && interviewReply.Ok?)
      && |r.added| <= 4 && (r.sent.None? || interviewReply.Err? ==> r.added == [])
  {
    var r := FeedbackPlan(current, editing, form, candidates, interviewReply, applicationReply, now);
    if current.Some? && editing.Some? && 0 <= editing.value < |current.value.steps| {
      var step := current.value.steps[editing.value];
      if interviewReply.Err? {
        assert r.promoted.None? && r.added == [] && !r.reset;
      } else if !(step.kind == FinalRound && form.result == Pass) {
        assert r.promoted.None? && r.reset && |r.added| == 2;
      } else {
        PromotionPlanSpec(current.value, candidates, applicationReply, now);
        var p := PromotionPlan(current.value, candidates, applicationReply, now);
        assert r.promoted == p.promoted && r.reset == p.ok
          && r.added == FeedbackReport(interviewReply.value, step.kind, current.value.name, form.result, now) + p.added;
      }
    }
  }

  /** A Pass on any round other than the final one, or a Fail on any round,
      never asks for an application status change. */
  lemma OnlyFinalPassPromotes(current: Option<ViewApp>, editing: Option<int>, form: FeedbackForm,
                              candidates: seq<Candidate>, interviewReply: Reply<Interview>,
                              applicationReply: Reply<Application>, now: int)
    requires current.Some? && editing.Some? && 0 <= editing.value < |current.value.steps|
    requires current.value.steps[editing.value].kind != FinalRound || form.result != Pass
    ensures FeedbackPlan(current, editing, form, candidates, interviewReply, applicationReply, now).promoted.None?
  {
  }

  /** The state held by the InterviewsFeedback component. */
  class InterviewsBoard {
    const store: RecruitmentStore
    var applications: seq<ViewApp>
    var current: Option<ViewApp>
    var editingStep: Option<int>
    var feedbackForm: FeedbackForm
    var scheduleForm: ScheduleForm
    var showView: bool
    var showSchedule: bool
    var showFeedback: bool

    constructor (store: RecruitmentStore, today: int)
      ensures this.store == store && applications == [] && current.None? && editingStep.None?
      ensures feedbackForm == EmptyFeedback
      ensures scheduleForm == ScheduleForm(Pipeline[0], today, "10:00", "30 mins", "", "", "")
      ensures !showView && !showSchedule && !showFeedback
    {
      this.store := store;
      applications, current, editingStep := [], None, None;
      feedbackForm := EmptyFeedback;
      scheduleForm := ScheduleForm(Pipeline[0], today, "10:00", "30 mins", "", "", "");
      showView, showSchedule, showFeedback := false, false, false;
    }

    /** The effect that rebuilds the list from the store. */
    method Sync()
      modifies this
      ensures applications == ViewApplications(store.candidates, store.interviews)
      ensures current == old(current) && editingStep == old(editingStep) && feedbackForm == old(feedbackForm)
      ensures scheduleForm == old(scheduleForm) && showView == old(showView)
      ensures showSchedule == old(showSchedule) && showFeedback == old(showFeedback)
    {
      applications := ViewApplications(store.candidates, store.interviews);
    }

    /** openScheduleFor(app): the form is preset to the next round (the first
        pipeline type when all are passed), today, 10:00, 30 mins. */
    method OpenScheduleFor(app: ViewApp, today: int)
      modifies this`current, this`scheduleForm, this`showView, this`showSchedule
      ensures current == Some(app) && !showView && showSchedule
      ensures scheduleForm.kind == (if NextStage(app).Some? then NextStage(app).value else Pipeline[0])
      ensures scheduleForm == ScheduleForm(scheduleForm.kind, today, "10:00", "30 mins", "", "", "")
    {
      current := Some(app);
      var next := NextStage(app);
      scheduleForm := ScheduleForm(if next.Some? then next.value else Pipeline[0], today, "10:00", "30 mins", "", "", "");
      showView, showSchedule := false, true;
    }

    /** scheduleStep(appId): the round in the form is created in the store for
        the open candidate and, once created, reported in the feed with the
        date as the form's date input holds it (`dateText`); the form then
        closes. Without an open candidate, or when the request fails, nothing
        changes and the failure alert is shown. */
    method ScheduleStep(appId: string, dateText: string, reply: Reply<Interview>, now: int)
      returns (sent: Option<InterviewRequest>, failed: bool)
      modifies this, store, store.log
      ensures store.loading == old(store.loading) && store.loadFailed == old(store.loadFailed)
      ensures failed <==> current.None? || reply.Err?
      ensures current.None? ==> sent.None?
      ensures current.Some? ==> sent == Some(InterviewRequest(appId, current.value.name, current.value.position,
        scheduleForm.date, scheduleForm.time, scheduleForm.interviewer, scheduleForm.kind, scheduleForm.notes))
      ensures failed ==> (store.interviews == old(store.interviews) && store.log.activities == old(store.log.activities)
        && showSchedule == old(showSchedule))
      ensures !failed ==> (store.interviews == old(store.interviews) + [reply.value] && !showSchedule
        && store.log.activities == AddAll(old(store.log.activities), [
             NewActivity("New interview scheduled for " + OrElse(reply.value.candidateName, "candidate"), "recruitment", now),
             NewActivity("Scheduled " + scheduleForm.kind + " for " + current.value.name + " on " + dateText
                         + " at " + scheduleForm.time, "general", now)]))
      ensures store.jobPostings == old(store.jobPostings) && store.applications == old(store.applications)
      ensures store.offers == old(store.offers) && store.candidates == old(store.candidates)
      ensures store.activities == old(store.activities)
      ensures applications == old(applications) && current == old(current) && scheduleForm == old(scheduleForm)
      ensures editingStep == old(editingStep) && feedbackForm == old(feedbackForm)
      ensures showView == old(showView) && showFeedback == old(showFeedback)
    {
      if current.None? {
        return None, true;
      }
      var app := current.value;
      sent := Some(InterviewRequest(appId, app.name, app.position, scheduleForm.date, scheduleForm.time,
                                    scheduleForm.interviewer, scheduleForm.kind, scheduleForm.notes));
      store.CreateInterview(reply, now);
      if reply.Err? {
        return sent, true;
      }
      var title := "Scheduled " + scheduleForm.kind + " for " + app.name + " on " + dateText + " at " + scheduleForm.time;
      store.log.AddActivity(title, "general", now);
      AddAllShort(old(store.log.activities),
        NewActivity("New interview scheduled for " + OrElse(reply.value.candidateName, "candidate"), "recruitment", now),
        NewActivity(title, "general", now));
      showSchedule := false;
      failed := false;
    }

    /** openFeedbackForStep(app, index): the form is seeded from the step, and a
        Pending result is offered as Pass. A missing rating is shown as 0; the
        source keeps an undefined rating undefined and turns only null into 0,
        a difference that submitting erases, since both clamp to 0. */
    method OpenFeedbackForStep(app: ViewApp, index: int)
      requires 0 <= index < |app.steps|
      modifies this
      ensures current == Some(app) && editingStep == Some(index) && showFeedback
      ensures var s := app.steps[index];
        feedbackForm == FeedbackForm(if s.score.Some? then s.score else Some(0.0),
                                     if s.result == Pending then Pass else s.result, s.feedback)
      ensures applications == old(applications) && scheduleForm == old(scheduleForm)
      ensures showView == old(showView) && showSchedule == old(showSchedule)
    {
      current, editingStep := Some(app), Some(index);
      var s := app.steps[index];
      feedbackForm := FeedbackForm(if s.score.Some? then s.score else Some(0.0),
                                   if s.result == Pending then Pass else s.result, s.feedback);
      showFeedback := true;
    }

    /** rejectApplication(appId): a change of the page's own list only. */
    method RejectApplication(appId: string)
      modifies this
      ensures applications == MarkRejected(old(applications), appId)
      ensures current.None? && !showView
      ensures editingStep == old(editingStep) && feedbackForm == old(feedbackForm)
      ensures scheduleForm == old(scheduleForm) && showSchedule == old(showSchedule)
      ensures showFeedback == old(showFeedback)
    {
      applications := MarkRejected(applications, appId);
      showView := false;
      current := None;
    }

    /** removeStep(appId, stepId): a change of the page's own list, and of the
        open candidate when it is that one. */
    method RemoveStep(appId: string, stepId: string)
      modifies this
      ensures applications == DropStep(old(applications), appId, stepId)
      ensures current == if old(current).Some? && old(current).value.id == appId
        then Some(old(current).value.(steps := Filter(old(current).value.steps, StepIdIsNot(stepId))))
        else old(current)
      ensures editingStep == old(editingStep) && feedbackForm == old(feedbackForm)
      ensures scheduleForm == old(scheduleForm) && showView == old(showView)
      ensures showSchedule == old(showSchedule) && showFeedback == old(showFeedback)
    {
      applications := DropStep(applications, appId, stepId);
      if current.Some? && current.value.id == appId {
        current := Some(current.value.(steps := Filter(current.value.steps, StepIdIsNot(stepId))));
      }
    }

    /** The final-round branch of submitFeedback, carrying out PromotionPlan. */
    method Promote(app: ViewApp, applicationReply: Reply<Application>, now: int, nowText: string)
      returns (p: PromotionOutcome)
      requires store.Valid()
      modifies store, store.log
      ensures store.loading == old(store.loading) && store.loadFailed == old(store.loadFailed)
      ensures p == PromotionPlan(app, old(store.candidates), applicationReply, now)
      ensures store.Valid()
      ensures store.jobPostings == old(store.jobPostings) && store.offers == old(store.offers)
      ensures store.candidates == old(store.candidates) && store.interviews == old(store.interviews)
      ensures p.promoted.Some? && applicationReply.Ok? ==>
        var title := "Application updated for " + OrElse(applicationReply.value.position, "position");
        store.applications == ReplaceWhere(old(store.applications),
          ApplicationAt(p.promoted.value.candidateId, p.promoted.value.index), applicationReply.value)
        && store.activities == KeepLatest(old(store.activities), StoreActivity(now, title, nowText, "application"))
      ensures !(p.promoted.Some? && applicationReply.Ok?) ==>
        store.applications == old(store.applications) && store.activities == old(store.activities)
      ensures store.log.activities == AddAll(old(store.log.activities), p.added)
    {
      p := PromotionPlan(app, store.candidates, applicationReply, now);
      var candidate := Find(store.candidates, CandidateIdIs(app.id));
      if candidate.None? {
        return;
      }
      var index := FindIndex(candidate.value.applications, IsShortlisted);
      if index == -1 {
        return;
      }
      store.UpdateApplication(candidate.value.id, index, applicationReply, now, nowText);
      if applicationReply.Err? {
        return;
      }
      var moved := "Candidate " + app.name + " moved to Completed after passing final round";
      store.log.AddActivity(moved, "general", now);
      AddAllShort(old(store.log.activities),
        NewActivity("Application updated for " + OrElse(applicationReply.value.position, "position"), "recruitment", now),
        NewActivity(moved, "general", now));
    }

    /** The interview half of submitFeedback: the step's interview is updated in
        the store and, when that succeeds, the result is reported in the feed. */
    method RecordFeedback(step: Step, name: string, result: StepResult, interviewReply: Reply<Interview>, now: int)
      requires store.Valid()
      modifies store, store.log
      ensures store.loading == old(store.loading) && store.loadFailed == old(store.loadFailed)
      ensures store.Valid()
      ensures store.jobPostings == old(store.jobPostings) && store.offers == old(store.offers)
      ensures store.candidates == old(store.candidates) && store.applications == old(store.applications)
      ensures store.activities == old(store.activities)
      ensures store.interviews == (if interviewReply.Ok?
        then ReplaceWhere(old(store.interviews), InterviewIdIs(step.id), interviewReply.value)
        else old(store.interviews))
      ensures store.log.activities == (if interviewReply.Ok?
        then AddAll(old(store.log.activities), FeedbackReport(interviewReply.value, step.kind, name, result, now))
        else old(store.log.activities))
    {
      store.UpdateInterview(step.id, interviewReply, now);
      if interviewReply.Ok? {
        var title := "Submitted feedback for " + step.kind + " of " + name + ": " + ResultText(result);
        store.log.AddActivity(title, "general", now);
        var reported := FeedbackReport(interviewReply.value, step.kind, name, result, now);
        AddAllShort(old(store.log.activities), reported[0], reported[1]);
        assert reported == [reported[0], reported[1]];
      }
    }

    /** submitFeedback(), carrying out FeedbackPlan: the interview update goes to
        the store, then (after a Pass on the final round) the promotion of the
        first Shortlisted application; the page resets only when the plan says so. */
    method SubmitFeedback(interviewReply: Reply<Interview>, applicationReply: Reply<Application>,
                          now: int, nowText: string)
      returns (outcome: FeedbackOutcome)
      requires store.Valid()
      modifies this, store, store.log
      ensures store.loading == old(store.loading) && store.loadFailed == old(store.loadFailed)
      ensures outcome == FeedbackPlan(old(current), old(editingStep), old(feedbackForm), old(store.candidates),
                                      interviewReply, applicationReply, now)
      ensures store.Valid()
      ensures store.jobPostings == old(store.jobPostings) && store.offers == old(store.offers)
      ensures store.candidates == old(store.candidates) && applications == old(applications)
      ensures store.interviews == (if outcome.sent.Some? && interviewReply.Ok?
        then ReplaceWhere(old(store.interviews), InterviewIdIs(outcome.sent.value.id), interviewReply.value)
        else old(store.interviews))
      ensures outcome.promoted.Some? && applicationReply.Ok? ==>
        var title := "Application updated for " + OrElse(applicationReply.value.position, "position");
        store.applications == ReplaceWhere(old(store.applications),
          ApplicationAt(outcome.promoted.value.candidateId, outcome.promoted.value.index), applicationReply.value)
        && store.activities == KeepLatest(old(store.activities), StoreActivity(now, title, nowText, "application"))
      ensures !(outcome.promoted.Some? && applicationReply.Ok?) ==>
        store.applications == old(store.applications) && store.activities == old(store.activities)
      ensures store.log.activities == AddAll(old(store.log.activities), outcome.added)
      ensures outcome.reset ==> (current.None? && editingStep.None? && feedbackForm == EmptyFeedback
        && !showFeedback && !showView)
      ensures !outcome.reset ==> (current == old(current) && editingStep == old(editingStep)
        && feedbackForm == old(feedbackForm) && showFeedback == old(showFeedback) && showView == old(showView))
      ensures scheduleForm == old(scheduleForm) && showSchedule == old(showSchedule)
    {
      outcome := FeedbackPlan(current, editingStep, feedbackForm, store.candidates,
                              interviewReply, applicationReply, now);
      if current.None? || editingStep.None? || !(0 <= editingStep.value < |current.value.steps|) {
        return;
      }
      var app := current.value;
      var step := app.steps[editingStep.value];
      var form := feedbackForm;
      ghost var log0 := store.log.activities;
      RecordFeedback(step, app.name, form.result, interviewReply, now);
      if interviewReply.Err? {
        assert outcome.promoted.None? && outcome.added == [] && !outcome.reset;
        return;
      }
      var reported := FeedbackReport(interviewReply.value, step.kind, app.name, form.result, now);
      if step.kind == FinalRound && form.result == Pass {
        var p := Promote(app, applicationReply, now, nowText);
        assert outcome.promoted == p.promoted && outcome.added == reported + p.added && outcome.reset == p.ok;
        AddAllConcat(log0, reported, p.added);
        if !p.ok {
          return;
        }
      } else {
        assert outcome.promoted.None? && outcome.added == reported && outcome.reset;
      }
      CloseFeedback();
    }

    /** The closing lines of submitFeedback: both dialogs close and the
        feedback form is cleared. */
    method CloseFeedback()
      modifies this
      ensures current.None? && editingStep.None? && feedbackForm == EmptyFeedback
      ensures !showFeedback && !showView
      ensures applications == old(applications) && scheduleForm == old(scheduleForm)
      ensures showSchedule == old(showSchedule)
    {
      showFeedback, showView := false, false;
      editingStep, current := None, None;
      feedbackForm := EmptyFeedback;
    }
  }
}
