# HR portal front end — a Dafny model of its client-side rules

The HR portal is a React front end for recruitment, onboarding and
employee self-service. It has no backend code: every rule it enforces
lives in component handlers and derived values. This project models those
rules in Dafny and proves what they guarantee:

- the recruitment pipeline: interview rounds, the next round, feedback
  with score clamping and final-round promotion, application triage tabs
  and actions, offers, and the job-posting lifecycle;
- the onboarding workflow: HR's final-onboard form and dashboard, the
  training sub-lifecycle, the candidate's five-step form, and the
  role/reporting selector;
- the two shared stores: the recruitment collections and the
  five-entry activity log;
- the employee pages for leave, attendance and payroll/benefits.

One Dafny module stands for each source file, plus `Common` for filters,
trimming, lower-casing and decimal text. The state a component or context
holds and updates becomes a `class` whose methods say the whole new state. The recruitment store's `loading` and `loadFailed` flags are changed only by its initial load; every other store operation, and every page handler that calls one, states that they are kept.
Derived lists, counts and tables are functions, and lemmas prove their
properties. Every network call is a parameter that says how it went:
`Reply<T>` (`Ok(value)` or `Err`) or a page-specific outcome. The clock,
"today" and the user's answers to `prompt` and `confirm` are parameters
too. A failed call leaves every collection unchanged, just as the source
only runs its setters after the awaited request returns.

## Model

| member | source | states |
|---|---|---|
| ActivityContext.Bucket | src/components/pages/ActivityContext.js:10-21 | Under one minute is "just now". Otherwise the elapsed time falls in exactly one of the minutes (1-59), hours (1-23) or days buckets, and the count is the floored quotient for that unit. |
| ActivityContext.RelativeLabel | src/components/pages/ActivityContext.js:10-21 | Under a minute the text is "Just now"; from a minute on it starts with the decimal digits of its count. With LabelInjective, the text tells the bucket and count apart. |
| ActivityContext.LabelInjective | src/components/pages/ActivityContext.js:17-20 | Different buckets or counts always give different relative-time texts ("N mins ago", "N hours ago", "N days ago", "Just now"). |
| ActivityContext.NewActivity | src/components/pages/ActivityContext.js:43-51 | A new activity carries the title and type it was given, uses the current time as both id and timestamp, and reads "Just now". |
| ActivityContext.Latest5 | src/components/pages/ActivityContext.js:53 | Keeps the first five entries, or all of them when there are fewer. |
| ActivityContext.KeepLatest | src/components/pages/ActivityContext.js:52-53 | Adding an entry puts it first, and at most five entries remain. |
| ActivityContext.AddAllKeepsNewest | src/components/pages/ActivityContext.js:43-57 | Adding several activities in turn leaves the newest five, newest first, in front of the older ones. |
| ActivityContext.AddAllShort | src/components/pages/ActivityContext.js:43-57 | Adding one or two activities in turn is the same as applying the single-entry update once or twice. |
| ActivityContext.AddAllConcat | src/components/pages/ActivityContext.js:43-57 | Adding xs and then ys is the same as adding xs followed by ys in one run. |
| ActivityContext.Latest5Concat | src/components/pages/ActivityContext.js:53 | Trimming the older part of the log first does not change the newest five. |
| ActivityContext.Refreshed | src/components/pages/ActivityContext.js:61-73 | The periodic refresh keeps length, order, ids, titles, types and timestamps, and recomputes only each relative time. |
| ActivityContext.ActivityLog.constructor | src/components/pages/ActivityContext.js:24-41 | The log starts from the saved activities, or empty when nothing was saved or the saved text does not parse. |
| ActivityContext.ActivityLog.AddActivity | src/components/pages/ActivityContext.js:43-58 | The new activity comes first and at most five are kept. |
| ActivityContext.ActivityLog.Tick | src/components/pages/ActivityContext.js:61-72 | One timer tick replaces the log with its refreshed copy. |
| RecruitmentContext.ReplaceKeepsOthers | src/components/pages/RecruitmentContext.js:109 | Replacing leaves the entries that do not match exactly as they were, in order. |
| RecruitmentContext.ReplaceNoMatch | src/components/pages/RecruitmentContext.js:205 | An id that matches nothing changes nothing. |
| RecruitmentContext.DeleteRemovesExactly | src/components/pages/RecruitmentContext.js:126 | Deleting keeps exactly the postings with another id, and the kept and removed counts add up to the old length. |
| RecruitmentContext.PostingAction | src/components/pages/RecruitmentContext.js:111 | The activity verb is "Published" exactly for Active, "Closed" exactly for Closed, and "Updated" for anything else. |
| RecruitmentContext.RecruitmentStore.constructor | src/components/pages/RecruitmentContext.js:12-19 | All collections start empty and the store starts loading. |
| RecruitmentContext.RecruitmentStore.Load | src/components/pages/RecruitmentContext.js:26-58 | When all five loads succeed, every collection takes its reply. If any load fails, no collection changes and the error is set. Loading ends either way. |
| RecruitmentContext.RecruitmentStore.CreateJobPosting | src/components/pages/RecruitmentContext.js:81-101 | On success the new posting is appended, and both activity buffers gain the "New job posting created" entry (at most five kept). On failure nothing changes. |
| RecruitmentContext.RecruitmentStore.UpdateJobPosting | src/components/pages/RecruitmentContext.js:103-118 | On success exactly the postings with that id become the reply, and the log records the verb chosen from the requested status. On failure nothing changes. |
| RecruitmentContext.RecruitmentStore.DeleteJobPosting | src/components/pages/RecruitmentContext.js:120-135 | On success exactly the postings with that id are removed, and the deleted title is logged when the posting was known. On failure nothing changes. |
| RecruitmentContext.RecruitmentStore.CreateApplication | src/components/pages/RecruitmentContext.js:138-158 | On success the application is appended and logged, with "position" when it has none. On failure nothing changes. |
| RecruitmentContext.RecruitmentStore.UpdateApplication | src/components/pages/RecruitmentContext.js:160-180 | On success exactly the applications matching both candidate id and application index are replaced, and the update is logged. On failure nothing changes. |
| RecruitmentContext.RecruitmentStore.CreateInterview | src/components/pages/RecruitmentContext.js:183-197 | On success the interview is appended and logged. On failure nothing changes. |
| RecruitmentContext.RecruitmentStore.UpdateInterview | src/components/pages/RecruitmentContext.js:199-213 | On success exactly the interviews with that id are replaced and logged. On failure nothing changes. |
| RecruitmentContext.RecruitmentStore.CreateOffer | src/components/pages/RecruitmentContext.js:216-230 | On success the offer is appended and logged. On failure nothing changes. |
| RecruitmentContext.RecruitmentStore.UpdateOffer | src/components/pages/RecruitmentContext.js:232-246 | On success exactly the offers with that id are replaced and logged. On failure nothing changes. |
| InterviewsFeedback.StepOf | src/components/pages/InterviewsFeedback.js:71-86 | A step is Pass and completed exactly when the backend status is Completed. Every other status, Failed included, is Pending and never Fail. |
| InterviewsFeedback.StepsFor | src/components/pages/InterviewsFeedback.js:71-86 | A candidate's steps are exactly the mapped interviews whose application is that candidate, and there are no more steps than interviews. |
| InterviewsFeedback.StepsForAppend | src/components/pages/InterviewsFeedback.js:71-86 | The steps keep store order: the steps of two runs of interviews are those of the first run followed by those of the second. |
| InterviewsFeedback.StepsForOne | src/components/pages/InterviewsFeedback.js:71-86 | One interview yields its own step exactly when it belongs to the candidate, and nothing otherwise. |
| InterviewsFeedback.ViewOf | src/components/pages/InterviewsFeedback.js:87-101 | The view is Completed/Selected exactly when some application is Completed, and InProcess/Pending otherwise. |
| InterviewsFeedback.ViewApplications | src/components/pages/InterviewsFeedback.js:58-103 | The board lists exactly the candidates that have interviews or a Shortlisted/Completed application, each mapped by ViewOf. |
| InterviewsFeedback.NextStageIn | src/components/pages/InterviewsFeedback.js:170-178 | No next round exactly when every round has a passed first step. Otherwise the result is the first round, in order, without one, and every earlier round has one. |
| InterviewsFeedback.NextStage | src/components/pages/InterviewsFeedback.js:170-178 | getNextStage on the seven-round pipeline: null exactly when every round is passed, and otherwise a pipeline round that is not passed. |
| InterviewsFeedback.NextStageIsFirstUnpassed | src/components/pages/InterviewsFeedback.js:170-178 | The same over the seven-round pipeline: null iff all seven are passed, else the first unpassed round. |
| InterviewsFeedback.FreshCandidateStartsAtPhone | src/components/pages/InterviewsFeedback.js:170-178 | A candidate without steps starts at the Phone Interview. |
| InterviewsFeedback.ClampScore | src/components/pages/InterviewsFeedback.js:248 | The score is clamped into [0,5], keeps values already inside, and a missing or non-numeric score becomes 0. |
| InterviewsFeedback.ClampIdempotent | src/components/pages/InterviewsFeedback.js:248 | Clamping an already clamped score changes nothing, so the input field and the submit agree. |
| InterviewsFeedback.ScheduledOf | src/components/pages/InterviewsFeedback.js:138-143 | One candidate's scheduled steps are exactly its incomplete dated steps, tagged with the candidate. |
| InterviewsFeedback.ScheduledSteps | src/components/pages/InterviewsFeedback.js:138-143 | Over all candidates, exactly the incomplete steps that have a date. |
| InterviewsFeedback.TodaysSteps | src/components/pages/InterviewsFeedback.js:145 | Today's steps are exactly the scheduled steps dated today. |
| InterviewsFeedback.Weekday | src/components/pages/InterviewsFeedback.js:38 | The weekday of a day number lies in [0,6]. |
| InterviewsFeedback.StartOfWeek | src/components/pages/InterviewsFeedback.js:36-42 | The week start is a Monday at most six days before the given day. |
| InterviewsFeedback.WeekDates | src/components/pages/InterviewsFeedback.js:148-156 | The loop yields seven consecutive days from the week start. |
| InterviewsFeedback.WeekHoldsToday | src/components/pages/InterviewsFeedback.js:36-42 | The calendar week starts on a Monday and contains today. |
| InterviewsFeedback.MarkRejected | src/components/pages/InterviewsFeedback.js:285-289 | Only the matching application gets status and decision Rejected. Every other entry is unchanged. |
| InterviewsFeedback.RejectLeavesInProcessTab | src/components/pages/InterviewsFeedback.js:285-289 | After a reject the in-process tab is the old tab without the rejected candidate. |
| InterviewsFeedback.DropStep | src/components/pages/InterviewsFeedback.js:291-296 | Only the named application loses steps, only those with that step id, and the rest keep their order. |
| InterviewsFeedback.RemovedStepIsGone | src/components/pages/InterviewsFeedback.js:291-296 | The removed step id no longer occurs, and every other step is kept. |
| InterviewsFeedback.FeedbackReport | src/components/pages/InterviewsFeedback.js:258-275 | Recording feedback logs the store's interview entry and then "Submitted feedback for ... : Pass/Fail". |
| InterviewsFeedback.PromotionPlanSpec | src/components/pages/InterviewsFeedback.js:262-271 | The final-round branch promotes to Completed exactly the candidate's first Shortlisted application, and nothing when there is none. It finishes cleanly iff the candidate is found and any request made succeeded. |
| InterviewsFeedback.FeedbackPlanSpec | src/components/pages/InterviewsFeedback.js:245-283 | Feedback is sent iff a step is being edited. It carries the clamped score and "Completed" iff Pass, else "Failed". Promotion happens only on a Pass of the Final Interview. The form resets only after every request succeeded. |
| InterviewsFeedback.OnlyFinalPassPromotes | src/components/pages/InterviewsFeedback.js:262-271 | A Fail, or a Pass on any other round, never asks for an application change. |
| InterviewsFeedback.InterviewsBoard.constructor | src/components/pages/InterviewsFeedback.js:56-125 | The board starts empty, with the schedule form on the first round, today, 10:00, 30 mins. |
| InterviewsFeedback.InterviewsBoard.Sync | src/components/pages/InterviewsFeedback.js:58-103 | The board's applications are recomputed from the store's candidates and interviews. |
| InterviewsFeedback.InterviewsBoard.OpenScheduleFor | src/components/pages/InterviewsFeedback.js:189-206 | The schedule form opens on the candidate's next round, or the first round when all are passed, dated today. |
| InterviewsFeedback.InterviewsBoard.ScheduleStep | src/components/pages/InterviewsFeedback.js:209-229 | With a candidate open, the request carries the form's fields. On success the interview is appended, two activities are logged and the dialog closes. Otherwise nothing changes. |
| InterviewsFeedback.InterviewsBoard.OpenFeedbackForStep | src/components/pages/InterviewsFeedback.js:232-242 | The feedback form opens on that step, prefilled from its score, feedback and result. |
| InterviewsFeedback.InterviewsBoard.RejectApplication | src/components/pages/InterviewsFeedback.js:285-289 | Local only: the board becomes MarkRejected of the old board and the view closes. |
| InterviewsFeedback.InterviewsBoard.RemoveStep | src/components/pages/InterviewsFeedback.js:291-296 | Local only: the board becomes DropStep of the old board, and an open candidate loses that step too. |
| InterviewsFeedback.InterviewsBoard.Promote | src/components/pages/InterviewsFeedback.js:262-271 | The store changes exactly as the promotion plan asks. |
| InterviewsFeedback.InterviewsBoard.RecordFeedback | src/components/pages/InterviewsFeedback.js:252-259 | On success the interview is replaced and logged. On failure nothing changes. |
| InterviewsFeedback.InterviewsBoard.SubmitFeedback | src/components/pages/InterviewsFeedback.js:245-283 | The outcome is the feedback plan of the old state, and the store, log and form change exactly as it says. |
| ApplicationsScoring.TabApplications | src/components/pages/ApplicationsScoring.js:16-23 | A tab holds exactly the non-Completed applications its filter accepts. |
| ApplicationsScoring.TabListsItsStatuses | src/components/pages/ApplicationsScoring.js:16-23 | Recent is exactly Applied, in-process exactly Reviewing or Shortlisted, rejected exactly Rejected. Completed is never shown. |
| ApplicationsScoring.TabsDisjoint | src/components/pages/ApplicationsScoring.js:16-23 | No application appears in two tabs. |
| ApplicationsScoring.CardCountIsTabSize | src/components/pages/ApplicationsScoring.js:141-152 | Each status card's count is the size of its tab. |
| ApplicationsScoring.TabsCountAtMostAll | src/components/pages/ApplicationsScoring.js:141-152 | The three cards together count at most all applications. |
| ApplicationsScoring.Mean | src/components/pages/ApplicationsScoring.js:183 | The average times the count gives back the total. |
| ApplicationsScoring.ScoreOfSpec | src/components/pages/ApplicationsScoring.js:176-186 | The score shows an average iff some interview belongs to the candidate, and it is then sum/count with unrated as 0. Otherwise it shows a non-zero stored score, or N/A. |
| ApplicationsScoring.ScoreOf | src/components/pages/ApplicationsScoring.js:176-186 | The cell shows an average exactly when the candidate has an interview, and a stored score only when it is non-zero. |
| ApplicationsScoring.MeanBounded | src/components/pages/ApplicationsScoring.js:182-183 | A total within [0, 5·count] averages into [0,5]. |
| ApplicationsScoring.SumRatingsAppend | src/components/pages/ApplicationsScoring.js:182 | The rating sum of two lists is the sum of their sums. |
| ApplicationsScoring.UnratedCountsAsZero | src/components/pages/ApplicationsScoring.js:182-183 | An unrated interview adds 0 to the sum but 1 to the count. |
| ApplicationsScoring.SumRatingsBounded | src/components/pages/ApplicationsScoring.js:182 | With ratings in [0,5], the sum lies in [0, 5·length]. |
| ApplicationsScoring.AverageBounded | src/components/pages/ApplicationsScoring.js:176-186 | With clamped ratings, the shown average lies in [0,5]. |
| ApplicationsScoring.AverageOfThree | src/components/pages/ApplicationsScoring.js:176-186 | Ratings 4, 5 and 3 average to 4. |
| ApplicationsScoring.Actions | src/components/pages/ApplicationsScoring.js:245-268 | Reject for Applied, Reviewing and Shortlisted. Move to Reviewing only for Applied, Shortlist only for Reviewing. |
| ApplicationsScoring.RequestedStatus | src/components/pages/ApplicationsScoring.js:245-268 | Reject requests no status (it only sends an e-mail); the other actions request Reviewing or Shortlisted. |
| ApplicationsScoring.OfferedActionsMoveForward | src/components/pages/ApplicationsScoring.js:245-268 | Every offered status change moves one stage forward. Completed and Rejected applications offer nothing. |
| ApplicationsScoring.ScoringPage.constructor | src/components/pages/ApplicationsScoring.js:9-15 | The page opens on the recent tab with nothing selected. |
| ApplicationsScoring.ScoringPage.MoveToReviewing | src/components/pages/ApplicationsScoring.js:247-251 | On success the store replaces the application, both activity feeds (the page log and the store's own five-entry buffer) gain their entries, and the selection shows Reviewing. On failure nothing changes, in either feed. |
| ApplicationsScoring.ScoringPage.SendShortlistEmail | src/components/pages/ApplicationsScoring.js:70-100 | The status becomes Shortlisted only when both the email and the update succeed; then both feeds gain their entries and the modal closes. Otherwise no status, feed or selection changes. |
| ApplicationsScoring.ScoringPage.SendRejectEmail | src/components/pages/ApplicationsScoring.js:102-133 | A sent reject email logs and closes but changes no application status. |
| JobOffers.CompletedCandidates | src/components/pages/JobOffers.js:21-23 | The dropdown lists exactly the candidates that have a Completed application. |
| JobOffers.VisibleOffers | src/components/pages/JobOffers.js:65 | "All" shows every offer. Any other filter shows exactly the offers with that status. |
| JobOffers.CountIsFilterSize | src/components/pages/JobOffers.js:65-72 | Each status count equals the size of that status's filter. |
| JobOffers.CountsAtMostAll | src/components/pages/JobOffers.js:67-72 | The four counts together are at most the number of offers. |
| JobOffers.RowActions | src/components/pages/JobOffers.js:127-131 | View always. Edit and Withdraw exactly for Pending offers. |
| JobOffers.WithdrawRequest | src/components/pages/JobOffers.js:130 | Withdraw asks for exactly status Withdrawn on that offer. |
| JobOffers.RequestFor | src/components/pages/JobOffers.js:25-56 | An update iff the form carries an offer id, to that id. Otherwise a create. Both carry the form's terms. |
| JobOffers.Autofill | src/components/pages/JobOffers.js:146-153 | Selecting a name sets it and copies the listed candidate's email and position. Every other field is kept. |
| JobOffers.AutofillUnknownName | src/components/pages/JobOffers.js:146-153 | An unlisted name clears email and position. |
| JobOffers.OffersPage.constructor | src/components/pages/JobOffers.js:9-18 | The page starts on "All" with the empty form (Full-time). |
| JobOffers.OffersPage.SetFilter | src/components/pages/JobOffers.js:90-100 | A status card sets the filter and nothing else. |
| JobOffers.OffersPage.EditOffer | src/components/pages/JobOffers.js:129 | Edit loads the offer's id and terms into the form and opens it. |
| JobOffers.OffersPage.SelectCandidate | src/components/pages/JobOffers.js:146-160 | The form's terms become the autofill from the dropdown's candidates. |
| JobOffers.OffersPage.AddOffer | src/components/pages/JobOffers.js:25-63 | Sends RequestFor the form. On success the store is updated or appended and the form resets to its defaults. On failure nothing changes. |
| JobOffers.OffersPage.WithdrawOffer | src/components/pages/JobOffers.js:130 | Sends the Withdrawn request. On success only that offer is replaced and the withdrawal is logged. |
| JobPostings.FilteredJobs | src/components/pages/JobPostings.js:43-45 | A job is in a tab iff it has a status whose lower-case form is the tab's name. |
| JobPostings.CardCountsItsTab | src/components/pages/JobPostings.js:43-52 | With canonical status spelling, each card counts exactly its tab. |
| JobPostings.Count | src/components/pages/JobPostings.js:48-52 | A card count never exceeds the number of postings, and is 0 exactly when no posting has that exact status. |
| JobPostings.TabAndCardDisagreeOnCase | src/components/pages/JobPostings.js:43-52 | A status "ACTIVE" is listed in the active tab but not counted on the card. |
| JobPostings.CountsAtMostAll | src/components/pages/JobPostings.js:48-52 | The three counts sum to at most the number of postings. |
| JobPostings.RowActions | src/components/pages/JobPostings.js:256-267 | View, Edit and Delete always. Publish in the draft and closed tabs, Close only in the active tab. |
| JobPostings.Target | src/components/pages/JobPostings.js:109-127 | Publish requests Active, Close requests Closed, other buttons request no status. |
| JobPostings.TabLifecycle | src/components/pages/JobPostings.js:109-127 | Draft→Active, Active→Closed, Closed→Active, and every status button moves the posting out of its tab. |
| JobPostings.TitleOf | src/components/pages/JobPostings.js:101-122 | The logged title is the posting's title, or "Unknown Job" when it is missing or empty. |
| JobPostings.CreateDefaults | src/components/pages/JobPostings.js:61-80 | A new form is a Draft of Medium priority dated today, with empty title. |
| JobPostings.FormOf | src/components/pages/JobPostings.js:89-94 | Edit copies the posting's title and status into the form. |
| JobPostings.PostingsPage.constructor | src/components/pages/JobPostings.js:17-40 | Starts on the active tab with the three default departments. |
| JobPostings.PostingsPage.HandleCreate | src/components/pages/JobPostings.js:61-80 | Opens the form in create mode with the defaults. |
| JobPostings.PostingsPage.HandleEdit | src/components/pages/JobPostings.js:89-94 | Opens the form in edit mode on that posting. |
| JobPostings.PostingsPage.HandleStatusButton | src/components/pages/JobPostings.js:109-127 | Publish/Close update exactly that posting to its target, then log with its title. On failure nothing changes. |
| JobPostings.PostingsPage.HandleDelete | src/components/pages/JobPostings.js:96-107 | Nothing without confirmation. A confirmed successful delete removes exactly that id and logs its title. |
| JobPostings.PostingsPage.HandleSave | src/components/pages/JobPostings.js:130-158 | An empty title is refused. Otherwise it creates with status forced to Draft or Active; on success the posting is appended, both feeds gain their entries and the form closes. On failure nothing changes. The form mode, the department dialog and the store's loading flags are kept either way. |
| JobPostings.PostingsPage.HandleAddDepartment | src/components/pages/JobPostings.js:175-180 | Blank input is ignored. Otherwise the trimmed name is appended and the modal closes. |
| JobPostings.AddedDepartmentIsTrimmed | src/components/pages/JobPostings.js:175-180 | The added department is non-empty and has no outer spaces. |
| OnboardingTraining.RoleExtras | src/components/pages/OnboardingTraining.js:263-266 | FO adds both reporting heads, RegionalHead adds the zonal head, and any other role adds nothing. |
| OnboardingTraining.ValidationRule | src/components/pages/OnboardingTraining.js:257-277 | The step is valid iff the seven organisational fields and the role's reporting fields are all filled: not empty, null, undefined or a nameless file. |
| OnboardingTraining.StepValid | src/components/pages/OnboardingTraining.js:257-277 | A step missing from the table passes. Step 1 is valid exactly when every organisational field and every reporting line the role needs is present. |
| OnboardingTraining.Changed | src/components/pages/OnboardingTraining.js:246-254 | A nameless event changes nothing. Otherwise only the named field changes, and a missing value becomes the empty string. |
| OnboardingTraining.FinalOnboardForm.constructor | src/components/pages/OnboardingTraining.js:53-56 | Starts at step 1 with the initial data. |
| OnboardingTraining.FinalOnboardForm.HandleChange | src/components/pages/OnboardingTraining.js:246-254 | The form becomes Changed of the old form and the event. |
| OnboardingTraining.FinalOnboardForm.ValidateCurrentStep | src/components/pages/OnboardingTraining.js:257-277 | The loop answers exactly StepValid. |
| OnboardingTraining.FinalOnboardForm.ChangeStep | src/components/pages/OnboardingTraining.js:311-315 | A forward move is refused while invalid, and a move leaving [1, totalSteps] is ignored, so the step stays in range. |
| OnboardingTraining.FinalOnboardForm.JumpToStep | src/components/pages/OnboardingTraining.js:317-321 | Moving back is always allowed, any other jump only when the current step is valid. |
| OnboardingTraining.StepButtonJumpStaysInRange | src/components/pages/OnboardingTraining.js:317-321 | A jump from a step button stays within [1, totalSteps]. |
| OnboardingTraining.OnboardingActions | src/components/pages/OnboardingTraining.js:561-574 | pending gets Approve and Raise Issue. Approved and not submitted gets Final Onboard, approved and submitted gets Complete Onboard. View is always offered. |
| OnboardingTraining.OneWayForward | src/components/pages/OnboardingTraining.js:561-574 | Any status other than pending or approved (onboarded, issue) offers only View. |
| OnboardingTraining.LocalUpdatesCloseTheRow | src/components/pages/OnboardingTraining.js:561-574 | After an issue is raised or onboarding completed, the record offers only View. |
| OnboardingTraining.StatsBounded | src/components/pages/OnboardingTraining.js:445-451 | The total is the list length, and pending + approved + issues ≤ total. |
| OnboardingTraining.Stats | src/components/pages/OnboardingTraining.js:445-451 | The total is the number of submissions, and no status count exceeds it. |
| OnboardingTraining.SubmissionsBoard.constructor | src/components/pages/OnboardingTraining.js:144-168 | Empty list, nothing selected, dialogs closed. |
| OnboardingTraining.SubmissionsBoard.HandleApprove | src/components/pages/OnboardingTraining.js:366 | Selects the record and opens the approve dialog; only those two fields change. |
| OnboardingTraining.SubmissionsBoard.ConfirmApprove | src/components/pages/OnboardingTraining.js:367-374 | No local update. The dialog closes only after a successful request, and nothing else changes. |
| OnboardingTraining.SubmissionsBoard.FetchOnboardings | src/components/pages/OnboardingTraining.js:171-179 | On success the list is pending, approved and onboarded concatenated. On failure it is unchanged. Only the list can change: the selection and all three dialogs are kept. |
| OnboardingTraining.SubmissionsBoard.HandleRaiseIssue | src/components/pages/OnboardingTraining.js:376 | Selects the record and opens the issue dialog; the list, the details and the other two dialogs are kept. |
| OnboardingTraining.SubmissionsBoard.ConfirmRaiseIssue | src/components/pages/OnboardingTraining.js:378-387 | Blank details are refused before any request. On success only the selected record gets status issue with the details, and the dialog clears. The selection and the other two dialogs are kept. |
| OnboardingTraining.SubmissionsBoard.HandleCompleteOnboard | src/components/pages/OnboardingTraining.js:433 | Selects the record and opens the complete dialog; the list, the details and the other two dialogs are kept. |
| OnboardingTraining.SubmissionsBoard.ConfirmCompleteOnboard | src/components/pages/OnboardingTraining.js:434-442 | On success only the selected record becomes onboarded and the dialog closes. The selection, the details and the other two dialogs are kept. |
| OnboardingTraining.RaiseIssueTouchesOnlySelected | src/components/pages/OnboardingTraining.js:382 | Records with another id are unchanged. The selected one keeps everything but status and details. |
| OnboardingTraining.TrainingActions | src/components/pages/OnboardingTraining.js:617-622 | Schedule and Assign Trainer only when pending, Complete only when scheduled. View is always offered. |
| OnboardingTraining.TrainingLifecycle | src/components/pages/OnboardingTraining.js:405-431 | pending → scheduled (or stays pending when a trainer is assigned), scheduled → completed, and completed offers nothing more. |
| OnboardingTraining.StatusAfter | src/components/pages/OnboardingTraining.js:405-431 | Only Schedule and Complete change a training's status, to scheduled and completed; assigning a trainer keeps it. |
| OnboardingTraining.AssignKeepsStatus | src/components/pages/OnboardingTraining.js:418 | Assigning a trainer changes only the selected training's trainer. |
| OnboardingTraining.TrainingStatsBounded | src/components/pages/OnboardingTraining.js:453-459 | scheduled + completed + pending ≤ total = list length. |
| OnboardingTraining.TrainingBoard.constructor | src/components/pages/OnboardingTraining.js:159-166 | Empty list, empty schedule form, dialogs closed. |
| OnboardingTraining.TrainingBoard.HandleScheduleTraining | src/components/pages/OnboardingTraining.js:397-404 | Opens the schedule dialog prefilled from the training, with missing values as empty text. |
| OnboardingTraining.TrainingBoard.ConfirmScheduleTraining | src/components/pages/OnboardingTraining.js:405-412 | On success only the selected training takes the form's data and status scheduled. |
| OnboardingTraining.TrainingBoard.HandleAssignTrainer | src/components/pages/OnboardingTraining.js:413 | Opens the assign dialog with the current trainer. |
| OnboardingTraining.TrainingBoard.ConfirmAssignTrainer | src/components/pages/OnboardingTraining.js:414-422 | A blank trainer is refused. On success only the selected training's trainer changes. |
| OnboardingTraining.TrainingBoard.HandleCompleteTraining | src/components/pages/OnboardingTraining.js:423 | Opens the complete dialog. |
| OnboardingTraining.TrainingBoard.ConfirmCompleteTraining | src/components/pages/OnboardingTraining.js:424-431 | On success only the selected training becomes completed. |
| OnboardingForm.FamilyStepAlwaysValid | src/components/pages/OnboardingForm.js:622-628 | Step 3 (Family Details) requires nothing, so it is always valid. |
| OnboardingForm.StepValid | src/components/pages/OnboardingForm.js:649-664 | A step is valid exactly when every field it lists is present. |
| OnboardingForm.ForwardJumpSkipsInvalidSteps | src/components/pages/OnboardingForm.js:686-699 | A form with only step 1 filled may jump forward although steps 2, 4 and 5 are invalid. |
| OnboardingForm.Payload | src/components/pages/OnboardingForm.js:716-722 | The payload holds a subset of the form's fields, with their values. |
| OnboardingForm.PayloadHoldsBackOnlyEmptyReferences | src/components/pages/OnboardingForm.js:716-722 | A field is sent iff it is neither null nor undefined. |
| OnboardingForm.InitialPayload | src/components/pages/OnboardingForm.js:716-722 | The initial data sends every field but the three null uploads. |
| OnboardingForm.SubmitChecksOnlyBankDetails | src/components/pages/OnboardingForm.js:705-708 | Submission validates only the current (final) step, so earlier steps may still be empty. |
| OnboardingForm.ChangeKeepsOtherSteps | src/components/pages/OnboardingForm.js:639-664 | Changing a field no step requires leaves that step's validity unchanged. |
| OnboardingForm.CandidateForm.constructor | src/components/pages/OnboardingForm.js:632-635 | Starts at step 1 with the initial data. |
| OnboardingForm.CandidateForm.HandleChange | src/components/pages/OnboardingForm.js:639-646 | Only the named key changes, to the first file for file inputs or else the value. |
| OnboardingForm.CandidateForm.ValidateCurrentStep | src/components/pages/OnboardingForm.js:649-664 | The loop answers exactly StepValid: no required field empty, null, undefined or a nameless file. |
| OnboardingForm.CandidateForm.ChangeStep | src/components/pages/OnboardingForm.js:673-684 | A forward move is refused while invalid, and only moves landing in [1,5] apply, so the step stays in [1,5]. |
| OnboardingForm.CandidateForm.JumpToStep | src/components/pages/OnboardingForm.js:686-699 | A backward jump is always allowed, and a forward jump of any distance iff the current step is valid. |
| OnboardingForm.CandidateForm.BuildPayload | src/components/pages/OnboardingForm.js:714-722 | The append loop builds exactly Payload of the form. |
| OnboardingForm.CandidateForm.HandleFormSubmit | src/components/pages/OnboardingForm.js:702-751 | Sends only when the current step validates. After success it resets to the initial data and step 1. Otherwise the form is kept. |
| FormData.FirstFile | src/components/pages/OnboardingForm.js:643 | A file input stores its first file, or undefined when none was chosen. |
| FormData.EventValue | src/components/pages/OnboardingForm.js:643 | A file input with files stores the first file, and every other input stores its value. |
| FormData.SetFieldKeepsOthers | src/components/pages/OnboardingForm.js:639-664 | Setting a field outside a list leaves "all of the list filled" unchanged. |
| RoleForm.AllRoles | src/components/pages/RoleForm.jsx:26-37 | The four fixed roles come first, in order. Then come exactly the job titles whose text matches no fixed role's label, each as value = label. |
| RoleForm.JobTitlesKeepOrder | src/components/pages/RoleForm.jsx:34-37 | The added job titles keep their original order. |
| RoleForm.DuplicatesCheckedByLabel | src/components/pages/RoleForm.jsx:34-37 | A title equal to a fixed label ("Regional Head") is dropped, but one equal to a fixed value ("FO") is added again. |
| RoleForm.ReportingFields | src/components/pages/RoleForm.jsx:128-193 | ZonalHead shows the CEO, RegionalHead the zonal-head select, and FO both selects. Any other role shows nothing. |
| RoleForm.ReportingFieldsMatchValidation | src/components/pages/RoleForm.jsx:179-190 | The selects shown for a role are exactly the reporting fields onboarding validation requires for it. |
| RoleForm.Summary | src/components/pages/RoleForm.jsx:76-96 | The four known roles get a "Selected Role: " text, and anything else gets the prompt. |
| RoleForm.JobTitleRoleGetsPrompt | src/components/pages/RoleForm.jsx:76-96 | A role picked from the job titles shows the prompt, unless its title is also a fixed role value. |
| RoleForm.SelectionReachesForm | src/components/pages/RoleForm.jsx:102-123 | The forwarded event sets that field of the onboarding form to the selected value. |
| RoleForm.RoleSelector.constructor | src/components/pages/RoleForm.jsx:17-20 | The state starts from the form's role and heads, or empty text, with the prompt as summary. |
| RoleForm.RoleSelector.Refresh | src/components/pages/RoleForm.jsx:69-99 | The effect resets the heads from the form and recomputes the summary for the role. |
| RoleForm.RoleSelector.HandleEmployeeTypeChange | src/components/pages/RoleForm.jsx:102-107 | Sets the role and forwards exactly one "role" event with the value. |
| RoleForm.RoleSelector.HandleZHChange | src/components/pages/RoleForm.jsx:110-115 | Sets the zonal head and forwards exactly one "reporting_zonalHead" event. |
| RoleForm.RoleSelector.HandleRHChange | src/components/pages/RoleForm.jsx:118-123 | Sets the regional head and forwards exactly one "reporting_regionalHead" event. |
| EmployeeManagement.YearsOfService | src/components/pages/Employee_management.js:70-80 | The result is N/A exactly when there is no join date. Its value is pinned down by the two lemmas below. |
| EmployeeManagement.YearsCountAnniversaries | src/components/pages/Employee_management.js:70-80 | The n-th anniversary is on or before today iff n is at most the years of service. |
| EmployeeManagement.NegativeOnlyBeforeJoining | src/components/pages/Employee_management.js:70-80 | The years are non-negative iff the join date is not in the future. |
| EmployeeManagement.SetField | src/components/pages/Employee_management.js:156-160 | Saving sets that field and keeps every other field and the id. |
| EmployeeManagement.FilterEmployees | src/components/pages/Employee_management.js:59-67 | An empty search shows everyone. Otherwise exactly the employees whose name contains the term, ignoring case, in order. |
| EmployeeManagement.SearchIgnoresCase | src/components/pages/Employee_management.js:59-67 | Lower-casing the term does not change the result. |
| EmployeeManagement.LongerTermNarrows | src/components/pages/Employee_management.js:59-67 | Typing more never adds an employee to the results. |
| EmployeeManagement.SearchFoldsAccents | src/components/pages/Employee_management.js:59-67 | Searching "émile" finds "Émile": accented capitals are folded too. |
| EmployeeManagement.EmployeePage.constructor | src/components/pages/Employee_management.js:7-35 | Empty lists, nothing selected, empty forms. |
| EmployeeManagement.EmployeePage.FetchEmployees | src/components/pages/Employee_management.js:45-56 | On success the employees are replaced and the shown list refiltered. On failure they are kept. Only those two lists can change. |
| EmployeeManagement.EmployeePage.SetSearchTerm | src/components/pages/Employee_management.js:41-67 | The shown list is the filter of the employees by the new term. Only the term and the shown list change. |
| EmployeeManagement.EmployeePage.ViewEmployee | src/components/pages/Employee_management.js:82-85 | Selects the employee and opens the modal. Only those two fields change, so a typed reason or an edit in progress survives. |
| EmployeeManagement.EmployeePage.EditField | src/components/pages/Employee_management.js:151-154 | Marks that field as editing and seeds it from the employee, or empty text. Only the two edit maps change. |
| EmployeeManagement.EmployeePage.CancelEdit | src/components/pages/Employee_management.js:165-168 | Clears the flag and restores the employee's value. Only the two edit maps change. |
| EmployeeManagement.EmployeePage.SaveField | src/components/pages/Employee_management.js:156-163 | Clears the flag, copies only that field into the selected employee, and logs the change. Only the flags, the selection and the log change. |
| EmployeeManagement.EmployeePage.FireEmployee | src/components/pages/Employee_management.js:87-116 | A blank reason is refused. Otherwise it requests status fired, and on success logs and closes the modal. Only the modal flag and the log can change. |
| EmployeeManagement.EmployeePage.ApproveResignation | src/components/pages/Employee_management.js:118-148 | A blank reason is refused. Otherwise it requests status resigned with the letter, and on success logs and closes the modal. Only the modal flag and the log can change. |
| EmployeeManagement.EmployeePage.CloseSubModal | src/components/pages/Employee_management.js:177-182 | Closes the sub-modal and resets the project form, the credentials form and the letter; nothing else changes. |
| EmployeeManagement.EmployeePage.AssignProjectToEmployee | src/components/pages/Employee_management.js:191-199 | A blank project name is refused. A refusal changes nothing, not even the other sub-form or the letter. Otherwise it logs and resets the sub-modal, letter included. Only the sub-modal fields and the log can change. |
| EmployeeManagement.EmployeePage.ManageEmployeeCredentials | src/components/pages/Employee_management.js:201-209 | Refused unless both username and password are non-blank; a refusal changes nothing, not even the project form or the letter. Otherwise it logs and resets the sub-modal, letter included. Only the sub-modal fields and the log can change. |
| EmployeeManagement.CancelRestores | src/components/pages/Employee_management.js:151-168 | On the page: edit, type and cancel leave the field not editing, its edited value the employee's own, and the employee shown unchanged. |
| EmployeeManagement.EmployeePage.TypeEditedValue | src/components/pages/Employee_management.js:342 | Only the named field's edited value changes, to the typed text. |
| EmployeeManagement.EmployeePage.TypeFireReason | src/components/pages/Employee_management.js:653 | Only the fire reason changes, to the typed text. |
| EmployeeManagement.FireFromProfile | src/components/pages/Employee_management.js:82-116 | Opening an employee, typing a reason and firing sends that reason for that employee (nothing on a blank reason), keeps the list, the search and the edits, and closes the modal exactly on success. |
| EmployeeLeave.TotalsForYear | src/components/pages/EmployeeLeave.js:44-57 | Every bucket starts at 0. The loop adds each approved request of the year to its own type's bucket, missing days counting 0. |
| EmployeeLeave.UsedDays | src/components/pages/EmployeeLeave.js:44-57 | A key with no bucket (work-from-home included) always totals 0. |
| EmployeeLeave.OtherTypesIgnored | src/components/pages/EmployeeLeave.js:51-54 | Work-from-home (key wfh) and unknown types never change a bucket. |
| EmployeeLeave.UsedNonNegative | src/components/pages/EmployeeLeave.js:46-55 | With no negative day counts every bucket is non-negative. |
| EmployeeLeave.UsedGrows | src/components/pages/EmployeeLeave.js:46-55 | A further request never lowers a bucket. |
| EmployeeLeave.WfhUsedThisMonth | src/components/pages/EmployeeLeave.js:93-104 | The loop sums the days of approved work-from-home requests starting this month and year. |
| EmployeeLeave.WfhDays | src/components/pages/EmployeeLeave.js:93-104 | With no approved work-from-home request in the month the total is 0. |
| EmployeeLeave.WfhCountedOnlyMonthly | src/components/pages/EmployeeLeave.js:93-104 | An approved work-from-home request this month counts in the monthly sum and in no yearly bucket. |
| EmployeeLeave.AllocationNotEnforced | src/components/pages/EmployeeLeave.js:44-57 | The allocations only sit beside the totals: one approved ten-day casual leave counts as more than the six allowed. |
| EmployeeLeave.LeavePage.constructor | src/components/pages/EmployeeLeave.js:18-20 | No requests, and the form is casual with empty fields. |
| EmployeeLeave.LeavePage.FetchRequests | src/components/pages/EmployeeLeave.js:29-42 | On success the list is replaced. On failure it is kept. |
| EmployeeLeave.LeavePage.SubmitRequest | src/components/pages/EmployeeLeave.js:61-90 | Nothing is sent without a signed-in employee. The request carries the form, and after success the form resets to casual with empty fields. |
| EmployeeAttendance.Remaining | src/components/pages/EmployeeAttendance.js:65 | max(0, 60 − used): never negative, and 60 − used while used ≤ 60. |
| EmployeeAttendance.LateMinutesNonNegative | src/components/pages/EmployeeAttendance.js:60-64 | The month's late minutes are non-negative when each record's are. |
| EmployeeAttendance.ExemptionBounded | src/components/pages/EmployeeAttendance.js:57-65 | With non-negative late minutes the exemption lies in [0,60]. |
| EmployeeAttendance.Exemption | src/components/pages/EmployeeAttendance.js:57-65 | Never negative. While any is left, the exemption and the month's late minutes add up to 60; it is 0 only once they reach 60. |
| EmployeeAttendance.LateArrivalNeverRaises | src/components/pages/EmployeeAttendance.js:57-65 | Another record never raises the exemption, and one from another month leaves it unchanged. |
| EmployeeAttendance.ParseYmd | src/components/pages/EmployeeAttendance.js:165-172 | Whatever parses is a date with a four-digit year, a month in 1-12 and a day in 1-31. |
| EmployeeAttendance.Pad2RoundTrip | src/components/pages/EmployeeAttendance.js:71-72 | Zero-padding gives two digits that read back as the number. |
| EmployeeAttendance.YmdRoundTrip | src/components/pages/EmployeeAttendance.js:68-74 | The text is YYYY-MM-DD (ISO 8601:2004 section 4.1.2.2, extended calendar date), ten characters long with dashes at 4 and 7, and it reads back as the same date. |
| EmployeeAttendance.Ymd | src/components/pages/EmployeeAttendance.js:68-74 | For a month and day below 100, the text is the year, a dash, two digits, a dash and two digits. |
| EmployeeAttendance.YmdInjective | src/components/pages/EmployeeAttendance.js:68-74 | Distinct dates give distinct texts. |
| EmployeeAttendance.FilteredRecords | src/components/pages/EmployeeAttendance.js:165-172 | Exactly the records whose local date text equals the selected date. |
| EmployeeAttendance.DefaultRecordShown | src/components/pages/EmployeeAttendance.js:27-55 | With no record of the selected date, the day shows exactly the default absent record (no times, zero late minutes and hours). Otherwise it shows the loaded records of that day. |
| EmployeeAttendance.DefaultRecord | src/components/pages/EmployeeAttendance.js:35-49 | The default record belongs to the employee, is dated by the selected date, is absent, not checked in or out, and has no late minutes. |
| EmployeeAttendance.Loaded | src/components/pages/EmployeeAttendance.js:27-55 | The loaded records are kept as a suffix. The list grows by one exactly when no record falls on the selected date, and the one added first is the default record. |
| EmployeeAttendance.ButtonsTakeTurns | src/components/pages/EmployeeAttendance.js:196-210 | Check-in and check-out are never both enabled. Check-out is enabled iff checked in and not out. With no record only check-in is enabled. |
| EmployeeAttendance.MarkPayload | src/components/pages/EmployeeAttendance.js:93-96 | The payload has the employee id and exactly one time key, checkInTime for check-in and checkOutTime otherwise. That key holds the given time. |
| EmployeeAttendance.PayloadNamesOneTime | src/components/pages/EmployeeAttendance.js:93-96 | Never both time keys. The employee id and the given time are the values sent. |
| EmployeeAttendance.MarkError | src/components/pages/EmployeeAttendance.js:108-115 | There is an error exactly when the request did not succeed, and its text is never empty. |
| EmployeeAttendance.AttendancePage.constructor | src/components/pages/EmployeeAttendance.js:7-12 | No records, today's date selected, and 60 minutes of exemption. |
| EmployeeAttendance.AttendancePage.SelectDate | src/components/pages/EmployeeAttendance.js:216-221 | Only the selected date changes. |
| EmployeeAttendance.AttendancePage.FetchEmployeeAttendance | src/components/pages/EmployeeAttendance.js:14-87 | Nothing when signed out. On success: the records with the default prepended when needed, the month's exemption, and the record of today or the selected date. On failure the error message. |
| EmployeeAttendance.AttendancePage.FetchUserDetails | src/components/pages/EmployeeAttendance.js:124-140 | When the employee is among the users, the exemption becomes 60 minus their monthly late minutes, floored at 0. Otherwise it is kept. |
| EmployeeAttendance.AttendancePage.HandleAttendanceAction | src/components/pages/EmployeeAttendance.js:89-116 | Sends the payload when signed in. A refusal or a failure sets the server's message, or the fallback text. |
| EmployeeAttendance.NoRecordOfTheDayEnablesCheckIn | src/components/pages/EmployeeAttendance.js:196-210 | With no record for today or the selected date, nothing is current, so check-in is enabled and check-out is not. |
| EmployeePayroll.CountsBounded | src/components/pages/EmployeePayroll.js:67-68 | processed + pending ≤ number of payrolls. |
| EmployeePayroll.ProcessedCount | src/components/pages/EmployeePayroll.js:65 | At most the number of payrolls, and 0 exactly when none is processed or paid. |
| EmployeePayroll.PendingCount | src/components/pages/EmployeePayroll.js:66 | At most the number of payrolls, and 0 exactly when none is pending. |
| EmployeePayroll.OtherStatusUncounted | src/components/pages/EmployeePayroll.js:67-68 | A payroll of any other status adds to neither count. |
| EmployeePayroll.PayrollActions | src/components/pages/EmployeePayroll.js:396-398 | Process iff pending. Mark Paid iff processed or pending. Reject always. |
| EmployeePayroll.TargetStatus | src/components/pages/EmployeePayroll.js:139-173 | Process asks for processed, Mark Paid for paid and Reject for pending, and no two actions ask for the same status. |
| EmployeePayroll.PayrollAlert | src/components/pages/EmployeePayroll.js:139-177 | An alert follows every failure and a successful Reject, never another success, and it is never empty. |
| EmployeePayroll.StatusBody | src/components/pages/EmployeePayroll.js:139-173 | The body sets the target status: processed, paid or pending. It carries a payment date exactly for Mark Paid with a non-empty answer. |
| EmployeePayroll.PaidCanBeReopened | src/components/pages/EmployeePayroll.js:396-398 | A paid payroll still offers Reject, which sends it back to pending with all actions again. |
| EmployeePayroll.ActionsChangeStatus | src/components/pages/EmployeePayroll.js:139-173 | Every offered action except Reject on a pending payroll changes its status, and Reject stays available. |
| EmployeePayroll.BenefitActions | src/components/pages/EmployeePayroll.js:439-446 | Approve and Decline exactly for pending requests, and the timestamp button otherwise. |
| EmployeePayroll.DecisionAlert | src/components/pages/EmployeePayroll.js:187-200 | An alert follows exactly a decision that did not succeed, with the server's message or "Failed". |
| EmployeePayroll.NewBenefitOf | src/components/pages/EmployeePayroll.js:249-254 | The amount is left out exactly when its text is empty. |
| EmployeePayroll.MessageStyles | src/components/pages/EmployeePayroll.js:302 | The message is styled as success whenever it contains "success", including "Request unsuccessful". |
| EmployeePayroll.PayrollPage.constructor | src/components/pages/EmployeePayroll.js:7-37 | Empty lists, closed decline modal, and the benefit form on health-insurance. |
| EmployeePayroll.PayrollPage.LoadHRData | src/components/pages/EmployeePayroll.js:46-84 | Each of the three loads replaces its own data on success and keeps it on failure. The counts follow the payroll list. |
| EmployeePayroll.PayrollPage.TakePayrolls | src/components/pages/EmployeePayroll.js:62-68 | The page holds the month's payrolls, and the processed (processed or paid) and pending counts are those of that list. |
| EmployeePayroll.PayrollPage.FetchAllEmployees | src/components/pages/EmployeePayroll.js:116-126 | On success the list is replaced and its first employee selected. On failure it is kept. |
| EmployeePayroll.PayrollPage.FetchOwnRecords | src/components/pages/EmployeePayroll.js:86-114 | When signed in, each list is replaced on success. Otherwise it is kept. |
| EmployeePayroll.PayrollPage.HandlePayrollAction | src/components/pages/EmployeePayroll.js:139-177 | Sends the action's status body, reloads only on success, and alerts as the branch does. |
| EmployeePayroll.PayrollPage.ViewPayroll | src/components/pages/EmployeePayroll.js:180-182 | Opens the payroll view. Nothing else on the page changes, so the counts stay valid. |
| EmployeePayroll.PayrollPage.ClosePayrollView | src/components/pages/EmployeePayroll.js:184 | Closes the payroll view. Nothing else on the page changes. |
| EmployeePayroll.PayrollPage.HandleApprove | src/components/pages/EmployeePayroll.js:187-200 | Approve sends status approved with comment "Approved" by the signed-in HR user, and alerts on failure. |
| EmployeePayroll.PayrollPage.OpenDeclineModal | src/components/pages/EmployeePayroll.js:202 | Opens the decline modal for that request with an empty reason. Only the three decline fields change. |
| EmployeePayroll.PayrollPage.CloseDeclineModal | src/components/pages/EmployeePayroll.js:203 | Closes the modal and clears it. Only the three decline fields change. |
| EmployeePayroll.PayrollPage.SetDeclineReason | src/components/pages/EmployeePayroll.js:622 | Only the reason changes. |
| EmployeePayroll.PayrollPage.SubmitDecline | src/components/pages/EmployeePayroll.js:204-208 | An empty reason alerts and keeps the modal. Otherwise it sends status rejected with the reason as comments, and the modal closes whatever the outcome. Only the three decline fields change. |
| EmployeePayroll.PayrollPage.ToggleRequesting | src/components/pages/EmployeePayroll.js:322 | Shows or hides the request form. Nothing else changes. |
| EmployeePayroll.PayrollPage.HandleInputChange | src/components/pages/EmployeePayroll.js:230-236 | Only the named field of the benefit form changes. |
| EmployeePayroll.PayrollPage.HandleSubmitBenefitRequest | src/components/pages/EmployeePayroll.js:238-277 | The browser's `required` check refuses an empty description before anything is sent or any flag is set. Otherwise it sends the form when signed in. After success it resets to health-insurance with empty fields and hides the form. Otherwise it shows the server's or the network message. Only the form, its visibility, the message and the submitting flag change. |
| EmployeePayroll.ResetSendsNoAmount | src/components/pages/EmployeePayroll.js:262-266 | The reset form would send health-insurance, an empty description and no amount. |
| EmployeePayroll.DisplaySession | src/components/pages/EmployeePayroll.js:180-236 | A session that views a payroll, opens and closes the decline dialog and fills in the benefit form keeps the payrolls, the benefit requests and the summary counts valid. |

## Left out

- Network and backend: every `fetch`/`axios` call is a success-or-failure parameter. What the server stores, emails or generates is not modelled. Neither is the text of a thrown exception's own message.
- Rendering: JSX, styles, dialog focus workarounds, icons and the colour maps are not modelled.
- Letter and email templates: the shortlist/reject email texts (ApplicationsScoring.js handleShortlist/handleReject only open a modal with a template), the offer-letter HTML and its send-email button (JobOffers.js), and the experience letter and send-letter handler (Employee_management.js).
- Timers and concurrency: `setTimeout`, the `setInterval` schedule (only one tick is modelled) and `Promise.all` are left out. Calls the source makes after a success (a reload, a refresh, fetchRequests) are separate methods a caller runs next.
- `window.location.reload` after a reject email is left out.
- localStorage is not modelled: the saved activity list is a constructor parameter.
- JavaScript `Date`: dates are (year, month, day) values or day numbers, and "now"/"today" are parameters. The UTC date (`toISOString`) against the local date (`toYMD`) in EmployeeAttendance.js is not modelled.
- EmployeeAttendance.ParseYmd: it accepts any day 1-31 for every month, because the date input only ever yields real dates.
- Floating point: averages are `real`. `toFixed`, `parseFloat`, currency formatting and `workHours` arithmetic are not modelled.
- Alerts and `console` output are dropped. Where an alert is the visible result, the alert text is returned.
- InterviewsFeedback.InterviewsBoard.ScheduleStep: the date arrives as text, because the source formats it with `toISOString`.
- OnboardingTraining.js: the final-onboard submit, the salary prefetch in startFinalOnboard, the trainings and accepted-offers loads, and the form-link dialog are left out. They are network calls whose results only fill display lists.
- JobPostings.js: handleChange/handleUpdate (form editing and the edit-save) are not modelled. JobPostings.FormOf copies only the title and status, the fields the lifecycle and title gate use.
- Employee_management.js: the accept/reject edits and accept/reject resignation buttons are left out (they only log and alert), as is opening a sub-modal. Of the text inputs only the edited-field inputs and the fire reason have handlers (TypeEditedValue, TypeFireReason); the resignation reason, the letter upload and the sub-modal forms are set by assigning the page's field.
- EmployeePayroll.js: payroll generation, the per-employee month fetch and the month/year pickers are left out. They are network calls with display-only results.
- EmployeePayroll.PayrollPage.HandleApprove, EmployeePayroll.PayrollPage.SubmitDecline: require a signed-in user, because the buttons are rendered only for a signed-in HR user.
- JobOffers.OffersPage.EditOffer: requires a Pending offer, because the Edit button is rendered only for Pending offers.
- JobOffers.OffersPage.WithdrawOffer: requires a Pending offer, because the Withdraw button is rendered only for Pending offers.
- FilterEmployees: Common.LowerChar folds only the one-to-one capitals of Basic Latin, Latin-1, Greek and Cyrillic, where toLowerCase folds every Unicode letter (and some into two characters). Searching the name of someone written in another script is case-sensitive in the model. JobPostings.FilteredJobs lower-cases statuses the same way.
- InterviewsFeedback.InterviewsBoard.OpenFeedbackForStep: null and undefined ratings are merged. The model shows both as 0, while the source shows an undefined rating as empty; submitting clamps both to 0.
- InterviewsFeedback.BelongsTo: the candidate list (`interview.application.toString()`) and the step match (`application._id || application`) are one equality on the candidate id, and an empty id is matched rather than skipped.
- EmployeeLeave.LeavePage: the page's `message` banner (EmployeeLeave.js:38, 64, 83, 88) is not modelled. It only shows the outcome of a fetch or a submit, which FetchRequests and SubmitRequest already state through the list and the form.
- EmployeeLeave.TotalsForYear: JavaScript prototype keys such as "constructor", which `used[key] !== undefined` would also accept, are not modelled.
