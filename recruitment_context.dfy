/** The recruitment store (RecruitmentContext.js): the client-side copies of the
    job postings, applications, interviews, offers and candidates, and the API
    helpers that change them. Each request is an abstract `Reply`: the server's
    answer when the response was ok, `Err` when apiRequest threw. The collections
    change only after an ok reply, so a failed call leaves them as they were. */
module RecruitmentContext {
  import opened Common
  import opened ActivityContext

  datatype JobPosting = JobPosting(id: string, title: string, status: Option<string>)

  /** An application row, as listed by ApplicationsScoring: one application of
      one candidate, addressed by (candidateId, applicationIndex). */
  datatype Application = Application(
    id: string, candidateId: string, applicationIndex: int, candidateName: string,
    position: string, status: string, score: Option<real>)

  /** An interview round. `application` holds the candidate's id; `date` is the
      calendar day, as a day number. */
  datatype Interview = Interview(
    id: string, application: Option<string>, kind: string, date: Option<int>,
    time: string, interviewer: string, notes: Option<string>, rating: Option<real>,
    feedback: Option<string>, status: string, candidateName: string)

  /** An application as embedded in a candidate record. */
  datatype CandidateApplication = CandidateApplication(status: string, coverLetter: Option<string>)

  datatype Candidate = Candidate(
    id: string, name: string, email: string, position: string,
    applications: seq<CandidateApplication>)

  /** The terms an offer is created or edited with. */
  datatype OfferTerms = OfferTerms(
    candidateName: string, email: string, position: string, salary: string,
    startDate: string, expiryDate: string, employmentType: string, benefits: string,
    serviceAgreement: string, hrName: string)

  datatype Offer = Offer(id: string, terms: OfferTerms, status: string)

  /** An entry of the store's own short activity list (distinct from the feed). */
  datatype StoreActivity = StoreActivity(id: int, title: string, time: string, kind: string)

  /** JavaScript's `s || fallback` for a string. */
  function OrElse(s: string, fallback: string): (r: string)
    ensures r == (if s == [] then fallback else s)
  {
    if s == [] then fallback else s
  }

  // ---------------------------------------------------------------------------
  // The collection updates

  /** `prev.map(x => matches(x) ? y : x)`. */
  function ReplaceWhere<T>(s: seq<T>, matches: T -> bool, y: T): (r: seq<T>)
    ensures |r| == |s|
    ensures forall i :: 0 <= i < |s| ==> r[i] == (if matches(s[i]) then y else s[i])
  {
    seq(|s|, i requires 0 <= i < |s| => if matches(s[i]) then y else s[i])
  }

  /** A replacement by a value that itself matches leaves the non-matching entries
      exactly as they were, in the same order. */
  lemma {:induction false} ReplaceKeepsOthers<T(!new)>(s: seq<T>, matches: T -> bool, y: T)
    requires matches(y)
    ensures Filter(ReplaceWhere(s, matches, y), x => !matches(x)) == Filter(s, x => !matches(x))
  {
    if s != [] {
      var r := ReplaceWhere(s, matches, y);
      assert r[1..] == ReplaceWhere(s[1..], matches, y);
      ReplaceKeepsOthers(s[1..], matches, y);
    }
  }

  /** Replacing when nothing matches is the identity. */
  lemma ReplaceNoMatch<T>(s: seq<T>, matches: T -> bool, y: T)
    requires forall i :: 0 <= i < |s| ==> !matches(s[i])
    ensures ReplaceWhere(s, matches, y) == s
  {
    assert forall i :: 0 <= i < |s| ==> ReplaceWhere(s, matches, y)[i] == s[i];
  }

  function JobIdIs(id: string): JobPosting -> bool
  {
    (j: JobPosting) => j.id == id
  }

  function JobIdIsNot(id: string): JobPosting -> bool
  {
    (j: JobPosting) => j.id != id
  }

  function InterviewIdIs(id: string): Interview -> bool
  {
    (v: Interview) => v.id == id
  }

  function OfferIdIs(id: string): Offer -> bool
  {
    (o: Offer) => o.id == id
  }

  /** updateApplication addresses an application by candidate and index. */
  function ApplicationAt(candidateId: string, index: int): Application -> bool
  {
    (a: Application) => a.candidateId == candidateId && a.applicationIndex == index
  }

  /** deleteJobPosting's filter removes every posting with that id and keeps all
      the others, in order. */
  lemma {:induction false} DeleteRemovesExactly(s: seq<JobPosting>, id: string)
    ensures forall j :: j in Filter(s, JobIdIsNot(id)) <==> j in s && j.id != id
    ensures |Filter(s, JobIdIsNot(id))| + |Filter(s, JobIdIs(id))| == |s|
  {
    if s != [] {
      DeleteRemovesExactly(s[1..], id);
    }
  }

  /** The posting activity label of updateJobPosting, from the requested status. */
  function PostingAction(requested: Option<string>): (r: string)
    ensures r == "Published" <==> requested == Some("Active")
    ensures r == "Closed" <==> requested == Some("Closed")
    ensures r == "Updated" <==> requested != Some("Active") && requested != Some("Closed")
  {
    if requested == Some("Active") then "Published"
    else if requested == Some("Closed") then "Closed"
    else "Updated"
  }

  /** The shared store behind RecruitmentProvider. */
  class RecruitmentStore {
    var jobPostings: seq<JobPosting>
    var applications: seq<Application>
    var interviews: seq<Interview>
    var offers: seq<Offer>
    var candidates: seq<Candidate>
    var activities: seq<StoreActivity>
    var loading: bool
    var loadFailed: bool
    /** The activity feed every store operation reports to. */
    const log: ActivityLog

    /** The store's own list never grows past five entries. */
    predicate Valid()
      reads this
    {
      |activities| <= 5
    }

    constructor (log: ActivityLog)
      ensures Valid()
      ensures this.log == log
      ensures jobPostings == [] && applications == [] && interviews == [] && offers == []
      ensures candidates == [] && activities == [] && loading && !loadFailed
    {
      this.log := log;
      jobPostings, applications, interviews, offers := [], [], [], [];
      candidates, activities := [], [];
      loading, loadFailed := true, false;
    }

    /** The initial fetch of all five collections: they are stored only when all
        five requests succeeded; otherwise the error flag is raised. */
    method Load(jobs: Reply<seq<JobPosting>>, apps: Reply<seq<Application>>,
                ints: Reply<seq<Interview>>, offs: Reply<seq<Offer>>, cands: Reply<seq<Candidate>>)
      modifies this
      ensures activities == old(activities) && !loading
      ensures var allOk := jobs.Ok? && apps.Ok? && ints.Ok? && offs.Ok? && cands.Ok?;
        if allOk then
          jobPostings == jobs.value && applications == apps.value && interviews == ints.value
          && offers == offs.value && candidates == cands.value && loadFailed == old(loadFailed)
        else
          jobPostings == old(jobPostings) && applications == old(applications)
          && interviews == old(interviews) && offers == old(offers)
          && candidates == old(candidates) && loadFailed
    {
      if jobs.Ok? && apps.Ok? && ints.Ok? && offs.Ok? && cands.Ok? {
        jobPostings, applications, interviews := jobs.value, apps.value, ints.value;
        offers, candidates := offs.value, cands.value;
      } else {
        loadFailed := true;
      }
      loading := false;
    }

    /** createJobPosting(jobData), where `title` is jobData.title; `now` is the
        clock and `nowText` its local rendering. */
    method CreateJobPosting(title: string, reply: Reply<JobPosting>, now: int, nowText: string)
      requires Valid()
      modifies this, log
      ensures Valid()
      ensures loading == old(loading) && loadFailed == old(loadFailed)
      ensures applications == old(applications) && interviews == old(interviews)
      ensures offers == old(offers) && candidates == old(candidates)
      ensures reply.Err? ==> (jobPostings == old(jobPostings) && activities == old(activities)
        && log.activities == old(log.activities))
      ensures reply.Ok? ==> (jobPostings == old(jobPostings) + [reply.value]
        && log.activities == KeepLatest(old(log.activities),
             NewActivity("New job posting created: " + title, "recruitment", now))
        && activities == KeepLatest(old(activities),
             StoreActivity(now, "New job posting created: " + title, nowText, "job")))
    {
      if reply.Ok? {
        jobPostings := jobPostings + [reply.value];
        log.AddActivity("New job posting created: " + title, "recruitment", now);
        activities := KeepLatest(activities, StoreActivity(now, "New job posting created: " + title, nowText, "job"));
      }
    }

    /** updateJobPosting(id, jobData), where `requested` is jobData.status. */
    method UpdateJobPosting(id: string, requested: Option<string>, reply: Reply<JobPosting>, now: int)
      modifies this, log
      ensures loading == old(loading) && loadFailed == old(loadFailed)
      ensures applications == old(applications) && interviews == old(interviews)
      ensures offers == old(offers) && candidates == old(candidates) && activities == old(activities)
      ensures reply.Err? ==> jobPostings == old(jobPostings) && log.activities == old(log.activities)
      ensures reply.Ok? ==> (jobPostings == ReplaceWhere(old(jobPostings), JobIdIs(id), reply.value)
        && log.activities == KeepLatest(old(log.activities),
             NewActivity(PostingAction(requested) + " job posting: " + reply.value.title, "recruitment", now)))
    {
      if reply.Ok? {
        jobPostings := ReplaceWhere(jobPostings, JobIdIs(id), reply.value);
        log.AddActivity(PostingAction(requested) + " job posting: " + reply.value.title, "recruitment", now);
      }
    }

    /** deleteJobPosting(id): the posting is looked up before the request, and the
        feed is told only when it was found. */
    method DeleteJobPosting(id: string, reply: Reply<()>, now: int)
      modifies this, log
      ensures loading == old(loading) && loadFailed == old(loadFailed)
      ensures applications == old(applications) && interviews == old(interviews)
      ensures offers == old(offers) && candidates == old(candidates) && activities == old(activities)
      ensures reply.Err? ==> jobPostings == old(jobPostings) && log.activities == old(log.activities)
      ensures reply.Ok? ==> jobPostings == Filter(old(jobPostings), JobIdIsNot(id))
      ensures reply.Ok? ==> (var found := Find(old(jobPostings), JobIdIs(id));
        log.activities == if found.Some? then
          KeepLatest(old(log.activities), NewActivity("Deleted job posting: " + found.value.title, "recruitment", now))
        else old(log.activities))
    {
      var toDelete := Find(jobPostings, JobIdIs(id));
      if reply.Ok? {
        jobPostings := Filter(jobPostings, JobIdIsNot(id));
        if toDelete.Some? {
          log.AddActivity("Deleted job posting: " + toDelete.value.title, "recruitment", now);
        }
      }
    }

    /** createApplication(appData). */
    method CreateApplication(reply: Reply<Application>, now: int, nowText: string)
      requires Valid()
      modifies this, log
      ensures Valid()
      ensures loading == old(loading) && loadFailed == old(loadFailed)
      ensures jobPostings == old(jobPostings) && interviews == old(interviews)
      ensures offers == old(offers) && candidates == old(candidates)
      ensures reply.Err? ==> (applications == old(applications) && activities == old(activities)
        && log.activities == old(log.activities))
      ensures reply.Ok? ==> (var title := "New application submitted for " + OrElse(reply.value.position, "position");
        applications == old(applications) + [reply.value]
        && log.activities == KeepLatest(old(log.activities), NewActivity(title, "recruitment", now))
        && activities == KeepLatest(old(activities), StoreActivity(now, title, nowText, "application")))
    {
      if reply.Ok? {
        var title := "New application submitted for " + OrElse(reply.value.position, "position");
        applications := applications + [reply.value];
        log.AddActivity(title, "recruitment", now);
        activities := KeepLatest(activities, StoreActivity(now, title, nowText, "application"));
      }
    }

    /** updateApplication(candidateId, applicationIndex, appData). */
    method UpdateApplication(candidateId: string, index: int, reply: Reply<Application>, now: int, nowText: string)
      requires Valid()
      modifies this, log
      ensures Valid()
      ensures loading == old(loading) && loadFailed == old(loadFailed)
      ensures jobPostings == old(jobPostings) && interviews == old(interviews)
      ensures offers == old(offers) && candidates == old(candidates)
      ensures reply.Err? ==> (applications == old(applications) && activities == old(activities)
        && log.activities == old(log.activities))
      ensures reply.Ok? ==> (var title := "Application updated for " + OrElse(reply.value.position, "position");
        applications == ReplaceWhere(old(applications), ApplicationAt(candidateId, index), reply.value)
        && log.activities == KeepLatest(old(log.activities), NewActivity(title, "recruitment", now))
        && activities == KeepLatest(old(activities), StoreActivity(now, title, nowText, "application")))
    {
      if reply.Ok? {
        var title := "Application updated for " + OrElse(reply.value.position, "position");
        applications := ReplaceWhere(applications, ApplicationAt(candidateId, index), reply.value);
        log.AddActivity(title, "recruitment", now);
        activities := KeepLatest(activities, StoreActivity(now, title, nowText, "application"));
      }
    }

    /** createInterview(interviewData). */
    method CreateInterview(reply: Reply<Interview>, now: int)
      modifies this, log
      ensures loading == old(loading) && loadFailed == old(loadFailed)
      ensures jobPostings == old(jobPostings) && applications == old(applications)
      ensures offers == old(offers) && candidates == old(candidates) && activities == old(activities)
      ensures reply.Err? ==> interviews == old(interviews) && log.activities == old(log.activities)
      ensures reply.Ok? ==> (interviews == old(interviews) + [reply.value]
        && log.activities == KeepLatest(old(log.activities),
             NewActivity("New interview scheduled for " + OrElse(reply.value.candidateName, "candidate"), "recruitment", now)))
    {
      if reply.Ok? {
        interviews := interviews + [reply.value];
        log.AddActivity("New interview scheduled for " + OrElse(reply.value.candidateName, "candidate"), "recruitment", now);
      }
    }

    /** updateInterview(id, interviewData). */
    method UpdateInterview(id: string, reply: Reply<Interview>, now: int)
      modifies this, log
      ensures loading == old(loading) && loadFailed == old(loadFailed)
      ensures jobPostings == old(jobPostings) && applications == old(applications)
      ensures offers == old(offers) && candidates == old(candidates) && activities == old(activities)
      ensures reply.Err? ==> interviews == old(interviews) && log.activities == old(log.activities)
      ensures reply.Ok? ==> (interviews == ReplaceWhere(old(interviews), InterviewIdIs(id), reply.value)
        && log.activities == KeepLatest(old(log.activities),
             NewActivity("Interview updated for " + OrElse(reply.value.candidateName, "candidate"), "recruitment", now)))
    {
      if reply.Ok? {
        interviews := ReplaceWhere(interviews, InterviewIdIs(id), reply.value);
        log.AddActivity("Interview updated for " + OrElse(reply.value.candidateName, "candidate"), "recruitment", now);
      }
    }

    /** createOffer(offerData). */
    method CreateOffer(reply: Reply<Offer>, now: int)
      modifies this, log
      ensures loading == old(loading) && loadFailed == old(loadFailed)
      ensures jobPostings == old(jobPostings) && applications == old(applications)
      ensures interviews == old(interviews) && candidates == old(candidates) && activities == old(activities)
      ensures reply.Err? ==> offers == old(offers) && log.activities == old(log.activities)
      ensures reply.Ok? ==> (offers == old(offers) + [reply.value]
        && log.activities == KeepLatest(old(log.activities),
             NewActivity("New job offer sent to " + OrElse(reply.value.terms.candidateName, "candidate"), "recruitment", now)))
    {
      if reply.Ok? {
        offers := offers + [reply.value];
        log.AddActivity("New job offer sent to " + OrElse(reply.value.terms.candidateName, "candidate"), "recruitment", now);
      }
    }

    /** updateOffer(id, offerData). */
    method UpdateOffer(id: string, reply: Reply<Offer>, now: int)
      modifies this, log
      ensures loading == old(loading) && loadFailed == old(loadFailed)
      ensures jobPostings == old(jobPostings) && applications == old(applications)
      ensures interviews == old(interviews) && candidates == old(candidates) && activities == old(activities)
      ensures reply.Err? ==> offers == old(offers) && log.activities == old(log.activities)
      ensures reply.Ok? ==> (offers == ReplaceWhere(old(offers), OfferIdIs(id), reply.value)
        && log.activities == KeepLatest(old(log.activities),
             NewActivity("Job offer updated for " + OrElse(reply.value.terms.candidateName, "candidate"), "recruitment", now)))
    {
      if reply.Ok? {
        offers := ReplaceWhere(offers, OfferIdIs(id), reply.value);
        log.AddActivity("Job offer updated for " + OrElse(reply.value.terms.candidateName, "candidate"), "recruitment", now);
      }
    }
  }
}
