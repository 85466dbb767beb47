/** The job postings page (JobPostings.js): the tabs and their count cards,
    the per-tab row buttons that publish and close postings, the save-as-draft
    and publish-now buttons with their title gate, the create defaults and the
    department list. Postings are kept by the shared RecruitmentStore; the
    page's own reports go to the same activity feed. */
module JobPostings {
  import opened Common
  import opened ActivityContext
  import opened RecruitmentContext

  // ---------------------------------------------------------------------------
  // Tabs and counts

  datatype Tab = ActiveTab | DraftTab | ClosedTab

  /** The tab's name as held in `activeTab`. */
  function TabName(tab: Tab): string
  {
    match tab
    case ActiveTab => "active"
    case DraftTab => "draft"
    case ClosedTab => "closed"
  }

  function InTab(tab: Tab): JobPosting -> bool
  {
    (j: JobPosting) => j.status.Some? && Lower(j.status.value) == TabName(tab)
  }

  /** filteredJobs: the postings whose status, lower-cased, is the tab's name;
      a posting without a status is in no tab. */
  function FilteredJobs(jobs: seq<JobPosting>, tab: Tab): (r: seq<JobPosting>)
    ensures forall j :: j in r <==> j in jobs && j.status.Some? && Lower(j.status.value) == TabName(tab)
    ensures forall j :: j in r ==> j.status.Some?
  {
    Filter(jobs, InTab(tab))
  }

  function StatusIs(status: string): JobPosting -> bool
  {
    (j: JobPosting) => j.status == Some(status)
  }

  /** One entry of `counts`, which compares the exact status. */
  function Count(jobs: seq<JobPosting>, status: string): (r: nat)
    ensures r <= |jobs|
    ensures r == 0 <==> forall i :: 0 <= i < |jobs| ==> jobs[i].status != Some(status)
  {
    var f := Filter(jobs, StatusIs(status));
    assert f != [] ==> f[0] in jobs && f[0].status == Some(status);
    assert f == [] ==> forall i :: 0 <= i < |jobs| ==> jobs[i] !in f;
    |f|
  }

  /** The status a tab's card counts. */
  function CardStatus(tab: Tab): string
  {
    match tab
    case ActiveTab => "Active"
    case DraftTab => "Draft"
    case ClosedTab => "Closed"
  }

  /** A status the page itself writes. */
  predicate Canonical(j: JobPosting)
  {
    j.status.None? || j.status.value in {"Active", "Draft", "Closed"}
  }

  /** While every status is one of Active, Draft and Closed (or missing), each
      card counts exactly the rows of its tab. */
  lemma CardCountsItsTab(jobs: seq<JobPosting>, tab: Tab)
    requires forall i :: 0 <= i < |jobs| ==> Canonical(jobs[i])
    ensures Count(jobs, CardStatus(tab)) == |FilteredJobs(jobs, tab)|
  {
    forall i | 0 <= i < |jobs|
      ensures StatusIs(CardStatus(tab))(jobs[i]) == InTab(tab)(jobs[i])
    {
      if jobs[i].status.Some? {
        var s := jobs[i].status.value;
        assert Lower("Active") == "active" && Lower("Draft") == "draft" && Lower("Closed") == "closed";
        if s == "Active" {
        } else if s == "Draft" {
          assert Lower(s)[0] == 'd';
        } else {
          assert Lower(s)[0] == 'c';
        }
      }
    }
    FilterCongruent(jobs, StatusIs(CardStatus(tab)), InTab(tab));
  }

  /** The tabs lower-case the status and the cards do not: a posting whose
      status is "ACTIVE" is listed under the active tab but not counted on its
      card. */
  lemma TabAndCardDisagreeOnCase()
    ensures var jobs := [JobPosting("1", "Driver", Some("ACTIVE"))];
      |FilteredJobs(jobs, ActiveTab)| == 1 && Count(jobs, "Active") == 0
  {
    var jobs := [JobPosting("1", "Driver", Some("ACTIVE"))];
    assert Lower("ACTIVE") == "active";
    assert Filter(jobs, InTab(ActiveTab)) == [jobs[0]];
    assert Filter(jobs, StatusIs("Active")) == [];
  }

  /** The three cards never count a posting twice. */
  lemma CountsAtMostAll(jobs: seq<JobPosting>)
    ensures Count(jobs, "Active") + Count(jobs, "Draft") + Count(jobs, "Closed") <= |jobs|
  {
    FilterDisjointCounts3(jobs, StatusIs("Active"), StatusIs("Draft"), StatusIs("Closed"));
  }

  // ---------------------------------------------------------------------------
  // Row buttons

  datatype RowAction = View | Publish | Close | Edit | Delete

  /** The buttons of a row in the given tab. */
  function RowActions(tab: Tab): (r: seq<RowAction>)
    ensures View in r && Edit in r && Delete in r
    ensures Publish in r <==> tab != ActiveTab
    ensures Close in r <==> tab == ActiveTab
  {
    match tab
    case DraftTab => [View, Publish, Edit, Delete]
    case ActiveTab => [View, Close, Edit, Delete]
    case ClosedTab => [View, Publish, Edit, Delete]
  }

  /** The status a Publish or Close button requests. */
  function Target(action: RowAction): (r: Option<string>)
    ensures action == Publish ==> r == Some("Active")
    ensures action == Close ==> r == Some("Closed")
    ensures action != Publish && action != Close ==> r.None?
  {
    match action
    case Publish => Some("Active")
    case Close => Some("Closed")
    case _ => None
  }

  /** The lifecycle the tabs offer: a draft or closed posting can be published,
      an active one closed, and a successful request moves the posting to the
      tab of the requested status. */
  lemma TabLifecycle(tab: Tab, action: RowAction)
    requires action in RowActions(tab) && (action == Publish || action == Close)
    ensures tab == DraftTab ==> Target(action) == Some("Active")
    ensures tab == ActiveTab ==> Target(action) == Some("Closed")
    ensures tab == ClosedTab ==> Target(action) == Some("Active")
    ensures Lower(Target(action).value) != TabName(tab)
  {
    assert Lower("Active") == "active" && Lower("Closed") == "closed";
  }

  /** `jobPostings.find(j => j._id === id)?.title || 'Unknown Job'`. */
  function TitleOf(jobs: seq<JobPosting>, id: string): (r: string)
    ensures Find(jobs, JobIdIs(id)).None? ==> r == "Unknown Job"
    ensures Find(jobs, JobIdIs(id)).Some? ==> r == OrElse(Find(jobs, JobIdIs(id)).value.title, "Unknown Job")
  {
    var found := Find(jobs, JobIdIs(id));
    if found.Some? then OrElse(found.value.title, "Unknown Job") else "Unknown Job"
  }

  // ---------------------------------------------------------------------------
  // The form

  /** The posting form; `numPostings` is held as the text of the number. */
  datatype PostingForm = PostingForm(
    title: string, department: string, numPostings: string, employmentType: string,
    endDate: string, priority: string, experienceLevel: string, salaryMin: string,
    salaryMax: string, description: string, skills: string, benefits: string,
    status: Option<string>, postedDate: Option<string>)

  /** The form when the page opens. */
  const InitialPostingForm := PostingForm("", "", "1", "", "", "Medium", "", "", "", "", "", "", Some("Draft"), None)

  /** handleCreate's form, posted today. */
  function CreateDefaults(today: string): (r: PostingForm)
    ensures r.status == Some("Draft") && r.priority == "Medium" && r.postedDate == Some(today)
    ensures r.title == "" && r.numPostings == ""
  {
    PostingForm("", "", "", "", "", "Medium", "", "", "", "", "", "", Some("Draft"), Some(today))
  }

  /** A posting loaded into the form by View or Edit. */
  function FormOf(job: JobPosting): (r: PostingForm)
    ensures r.title == job.title && r.status == job.status
  {
    InitialPostingForm.(title := job.title, status := job.status, numPostings := "")
  }

  datatype FormMode = Create | EditMode | ViewMode

  const InitialDepartments: seq<string> := ["Engineering", "HR", "Sales"]

  /** The state held by the JobPostings component. */
  class PostingsPage {
    const store: RecruitmentStore
    var activeTab: Tab
    var departments: seq<string>
    var showForm: bool
    var showDeptModal: bool
    var formMode: FormMode
    var currentJob: Option<JobPosting>
    var newDepartment: string
    var form: PostingForm

    constructor (store: RecruitmentStore)
      ensures this.store == store && activeTab == ActiveTab && departments == InitialDepartments
      ensures !showForm && !showDeptModal && formMode == Create && currentJob.None?
      ensures newDepartment == "" && form == InitialPostingForm
    {
      this.store := store;
      activeTab, departments := ActiveTab, InitialDepartments;
      showForm, showDeptModal, formMode, currentJob := false, false, Create, None;
      newDepartment, form := "", InitialPostingForm;
    }

    /** handleCreate: the form is reset to the create defaults and opened. */
    method HandleCreate(today: string)
      modifies this
      ensures formMode == Create && form == CreateDefaults(today) && showForm
      ensures activeTab == old(activeTab) && departments == old(departments)
      ensures showDeptModal == old(showDeptModal) && currentJob == old(currentJob)
      ensures newDepartment == old(newDepartment)
    {
      formMode := Create;
      form := CreateDefaults(today);
      showForm := true;
    }

    /** handleEdit: the posting is loaded into the form, which opens. */
    method HandleEdit(job: JobPosting)
      modifies this
      ensures formMode == EditMode && currentJob == Some(job) && form == FormOf(job) && showForm
      ensures activeTab == old(activeTab) && departments == old(departments)
      ensures showDeptModal == old(showDeptModal) && newDepartment == old(newDepartment)
    {
      formMode := EditMode;
      currentJob := Some(job);
      form := FormOf(job);
      showForm := true;
    }

    /** handlePublish and handleClose: the store is asked for the button's
        status; once it answered, the page reports the posting by the title it
        had before the request. */
    method HandleStatusButton(action: RowAction, id: string, reply: Reply<JobPosting>, now: int)
      requires action == Publish || action == Close
      modifies store, store.log
      ensures store.loading == old(store.loading) && store.loadFailed == old(store.loadFailed)
      ensures store.applications == old(store.applications) && store.interviews == old(store.interviews)
      ensures store.offers == old(store.offers) && store.candidates == old(store.candidates)
      ensures store.activities == old(store.activities)
      ensures reply.Err? ==> store.jobPostings == old(store.jobPostings) && store.log.activities == old(store.log.activities)
      ensures reply.Ok? ==> (store.jobPostings == ReplaceWhere(old(store.jobPostings), JobIdIs(id), reply.value)
        && store.log.activities == AddAll(old(store.log.activities), [
             NewActivity(PostingAction(Target(action)) + " job posting: " + reply.value.title, "recruitment", now),
             NewActivity((if action == Publish then "Published job posting for " else "Closed job posting: ")
                         + TitleOf(old(store.jobPostings), id), "general", now)]))
    {
      var title := TitleOf(store.jobPostings, id);
      store.UpdateJobPosting(id, Target(action), reply, now);
      if reply.Ok? {
        var text := (if action == Publish then "Published job posting for " else "Closed job posting: ") + title;
        store.log.AddActivity(text, "general", now);
        AddAllShort(old(store.log.activities),
          NewActivity(PostingAction(Target(action)) + " job posting: " + reply.value.title, "recruitment", now),
          NewActivity(text, "general", now));
      }
    }

    /** handleDelete: nothing happens unless the user confirms; a successful
        delete is reported with the posting's title. */
    method HandleDelete(id: string, confirmed: bool, reply: Reply<()>, now: int)
      modifies store, store.log
      ensures store.loading == old(store.loading) && store.loadFailed == old(store.loadFailed)
      ensures store.applications == old(store.applications) && store.interviews == old(store.interviews)
      ensures store.offers == old(store.offers) && store.candidates == old(store.candidates)
      ensures store.activities == old(store.activities)
      ensures !confirmed || reply.Err? ==>
        store.jobPostings == old(store.jobPostings) && store.log.activities == old(store.log.activities)
      ensures confirmed && reply.Ok? ==> store.jobPostings == Filter(old(store.jobPostings), JobIdIsNot(id))
      ensures confirmed && reply.Ok? ==> (var found := Find(old(store.jobPostings), JobIdIs(id));
        var page := NewActivity("Deleted job posting: " + TitleOf(old(store.jobPostings), id), "general", now);
        store.log.activities == if found.Some? then
          AddAll(old(store.log.activities),
                 [NewActivity("Deleted job posting: " + found.value.title, "recruitment", now), page])
        else KeepLatest(old(store.log.activities), page))
    {
      if !confirmed {
        return;
      }
      var title := TitleOf(store.jobPostings, id);
      ghost var found := Find(store.jobPostings, JobIdIs(id));
      store.DeleteJobPosting(id, reply, now);
      if reply.Ok? {
        store.log.AddActivity("Deleted job posting: " + title, "general", now);
        if found.Some? {
          AddAllShort(old(store.log.activities),
            NewActivity("Deleted job posting: " + found.value.title, "recruitment", now),
            NewActivity("Deleted job posting: " + title, "general", now));
        }
      }
    }

    /** handleSaveDraft and handlePublishNow: refused while the title is empty;
        otherwise the form is sent with its status forced to Draft or Active,
        and a successful create is reported and closes the form. */
    method HandleSave(publish: bool, reply: Reply<JobPosting>, now: int, nowText: string)
      returns (request: Option<PostingForm>)
      requires store.Valid()
      modifies this, store, store.log
      ensures store.loading == old(store.loading) && store.loadFailed == old(store.loadFailed)
      ensures store.Valid()
      ensures old(form).title == "" ==> request.None?
      ensures old(form).title != "" ==>
        request == Some(old(form).(status := Some(if publish then "Active" else "Draft")))
      ensures store.applications == old(store.applications) && store.interviews == old(store.interviews)
      ensures store.offers == old(store.offers) && store.candidates == old(store.candidates)
      ensures old(form).title == "" || reply.Err? ==>
        (store.jobPostings == old(store.jobPostings) && store.log.activities == old(store.log.activities)
         && store.activities == old(store.activities) && showForm == old(showForm))
      ensures old(form).title != "" && reply.Ok? ==>
        (store.jobPostings == old(store.jobPostings) + [reply.value]
         && store.log.activities == AddAll(old(store.log.activities), [
              NewActivity("New job posting created: " + old(form).title, "recruitment", now),
              NewActivity((if publish then "Created and published new job posting: "
                           else "Saved job posting as draft: ") + old(form).title, "general", now)])
         && store.activities == KeepLatest(old(store.activities),
              StoreActivity(now, "New job posting created: " + old(form).title, nowText, "job"))
         && !showForm)
      ensures form == old(form) && activeTab == old(activeTab) && departments == old(departments)
      ensures currentJob == old(currentJob) && newDepartment == old(newDepartment)
      ensures formMode == old(formMode) && showDeptModal == old(showDeptModal)
    {
      if form.title == "" {
        return None;
      }
      request := Some(form.(status := Some(if publish then "Active" else "Draft")));
      ghost var log0 := store.log.activities;
      store.CreateJobPosting(form.title, reply, now, nowText);
      if reply.Ok? {
        var text := (if publish then "Created and published new job posting: " else "Saved job posting as draft: ") + form.title;
        store.log.AddActivity(text, "general", now);
        AddAllShort(log0, NewActivity("New job posting created: " + form.title, "recruitment", now),
                    NewActivity(text, "general", now));
        showForm := false;
      }
    }

    /** handleAddDepartment: blank input is ignored; otherwise the trimmed name
        is appended, the input cleared and the dialog closed. */
    method HandleAddDepartment()
      modifies this
      ensures IsBlank(old(newDepartment)) ==>
        departments == old(departments) && newDepartment == old(newDepartment) && showDeptModal == old(showDeptModal)
      ensures !IsBlank(old(newDepartment)) ==>
        departments == old(departments) + [Trim(old(newDepartment))] && newDepartment == "" && !showDeptModal
      ensures form == old(form) && showForm == old(showForm) && activeTab == old(activeTab)
      ensures currentJob == old(currentJob) && formMode == old(formMode)
    {
      TrimEmptyIffBlank(newDepartment);
      if Trim(newDepartment) == [] {
        return;
      }
      departments := departments + [Trim(newDepartment)];
      newDepartment := "";
      showDeptModal := false;
    }
  }

  /** A department added through the dialog is never empty and never starts or
      ends with whitespace, and the existing departments are kept in front. */
  lemma AddedDepartmentIsTrimmed(departments: seq<string>, input: string)
    requires !IsBlank(input)
    ensures var added := (departments + [Trim(input)])[|departments|];
      added != [] && !IsSpace(added[0]) && !IsSpace(added[|added| - 1])
  {
    var t := Trim(input);
    assert (departments + [t])[|departments|] == t;
    TrimEmptyIffBlank(input);
    TrimmedHasNoOuterSpace(input);
  }
}
