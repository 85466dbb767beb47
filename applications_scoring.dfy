/** Application triage (ApplicationsScoring.js): the three status tabs, the
    status cards, the average interview score shown per application, the
    actions offered per status, and the handlers that move an application to
    Reviewing or Shortlisted. The e-mail templates and the page reload after a
    rejection are left out. */
module ApplicationsScoring {
  import opened Common
  import opened ActivityContext
  import opened RecruitmentContext

  /** The three status cards; the page starts on Recent. */
  datatype Tab = Recent | InProcess | RejectedTab

  /** Whether an application is listed under a tab. Completed applications belong
      to the interview board and are never listed here. */
  function InTab(tab: Tab): Application -> bool
  {
    (a: Application) =>
      a.status != "Completed" &&
      match tab
      case Recent => a.status == "Applied"
      case InProcess => a.status == "Reviewing" || a.status == "Shortlisted"
      case RejectedTab => a.status == "Rejected"
  }

  /** filteredApplications for the active tab. */
  function TabApplications(apps: seq<Application>, tab: Tab): (r: seq<Application>)
    ensures forall a :: a in r <==> a in apps && a.status != "Completed" && InTab(tab)(a)
  {
    Filter(apps, InTab(tab))
  }

  /** The statuses a tab lists. */
  function TabStatuses(tab: Tab): set<string>
  {
    match tab
    case Recent => {"Applied"}
    case InProcess => {"Reviewing", "Shortlisted"}
    case RejectedTab => {"Rejected"}
  }

  /** A tab lists exactly the applications whose status is one of its own, and no
      Completed application appears under any tab. */
  lemma TabListsItsStatuses(apps: seq<Application>, tab: Tab, a: Application)
    ensures a in TabApplications(apps, tab) <==> a in apps && a.status in TabStatuses(tab)
    ensures a in TabApplications(apps, tab) ==> a.status != "Completed"
  {
  }

  /** No application is listed under two tabs. */
  lemma TabsDisjoint(apps: seq<Application>, t: Tab, u: Tab, a: Application)
    requires t != u
    ensures !(a in TabApplications(apps, t) && a in TabApplications(apps, u))
  {
  }

  /** The filter behind a status card, which tests the statuses only. */
  function CardFilter(tab: Tab): Application -> bool
  {
    (a: Application) =>
      match tab
      case Recent => a.status == "Applied"
      case InProcess => a.status == "Reviewing" || a.status == "Shortlisted"
      case RejectedTab => a.status == "Rejected"
  }

  function CardCount(apps: seq<Application>, tab: Tab): nat
  {
    |Filter(apps, CardFilter(tab))|
  }

  /** Each card shows the number of rows its tab lists. */
  lemma {:induction false} CardCountIsTabSize(apps: seq<Application>, tab: Tab)
    ensures CardCount(apps, tab) == |TabApplications(apps, tab)|
  {
    FilterCongruent(apps, CardFilter(tab), InTab(tab));
  }

  /** The three tabs together list at most every application once. */
  lemma {:induction false} TabsCountAtMostAll(apps: seq<Application>)
    ensures |TabApplications(apps, Recent)| + |TabApplications(apps, InProcess)|
            + |TabApplications(apps, RejectedTab)| <= |apps|
  {
    FilterDisjointCounts3(apps, InTab(Recent), InTab(InProcess), InTab(RejectedTab));
  }

  // ---------------------------------------------------------------------------
  // The average score

  /** An interview counts for a candidate when its `application` is set (a
      non-empty id) and equal to the candidate's id. */
  function RatedFor(candidateId: string): Interview -> bool
  {
    (v: Interview) => v.application.Some? && v.application.value != "" && v.application.value == candidateId
  }

  /** `interview.rating || 0`. */
  function RatingOrZero(v: Interview): real
  {
    if v.rating.Some? then v.rating.value else 0.0
  }

  /** The reduce over the matching interviews. */
  function SumRatings(vs: seq<Interview>): real
  {
    if vs == [] then 0.0 else RatingOrZero(vs[0]) + SumRatings(vs[1..])
  }

  /** The candidate's interviews, as the score cell selects them. */
  function InterviewsOf(app: Application, interviews: seq<Interview>): seq<Interview>
  {
    Filter(interviews, RatedFor(app.candidateId))
  }

  /** `total / count`: the number that, taken `count` times, makes `total`. */
  function Mean(total: real, count: nat): (r: real)
    requires count > 0
    ensures r * (count as real) == total
  {
    total / (count as real)
  }

  /** What the Avg Score cell shows. */
  datatype ScoreCell = Average(value: real) | StoredScore(score: real) | NotAvailable

  /** The score cell for an application: the mean rating over the candidate's
      interviews when there is at least one, otherwise the application's own
      score when it is truthy, otherwise 'N/A'. */
  function ScoreOf(app: Application, interviews: seq<Interview>): (r: ScoreCell)
    ensures r.Average? <==> InterviewsOf(app, interviews) != []
    ensures r.StoredScore? ==> app.score == Some(r.score) && r.score != 0.0
  {
    var mine := InterviewsOf(app, interviews);
    if |mine| > 0 then Average(Mean(SumRatings(mine), |mine|))
    else if app.score.Some? && app.score.value != 0.0 then StoredScore(app.score.value)
    else NotAvailable
  }

  /** The cell shows an average exactly when the candidate has an interview,
      and then it is the mean of their ratings; without interviews it falls back on a truthy stored score, else 'N/A'. */
  lemma ScoreOfSpec(app: Application, interviews: seq<Interview>)
    ensures var r := ScoreOf(app, interviews);
      var mine := InterviewsOf(app, interviews);
      (r.Average? <==> (exists i :: 0 <= i < |interviews| && RatedFor(app.candidateId)(interviews[i])))
      && (r.Average? ==> r.value == Mean(SumRatings(mine), |mine|))
      && (r.StoredScore? <==> (mine == [] && app.score.Some? && app.score.value != 0.0))
      && (r.StoredScore? ==> app.score == Some(r.score))
  {
    var mine := InterviewsOf(app, interviews);
    if exists i :: 0 <= i < |interviews| && RatedFor(app.candidateId)(interviews[i]) {
      var i :| 0 <= i < |interviews| && RatedFor(app.candidateId)(interviews[i]);
      assert interviews[i] in mine;
    }
    if mine != [] {
      assert mine[0] in interviews;
    }
  }

  /** A total of at most five per item averages to at most five. */
  lemma MeanBounded(total: real, count: nat)
    requires count > 0 && 0.0 <= total <= 5.0 * (count as real)
    ensures 0.0 <= Mean(total, count) <= 5.0
  {
  }

  /** Adding the ratings of two runs of interviews one after the other. */
  lemma {:induction false} SumRatingsAppend(a: seq<Interview>, b: seq<Interview>)
    ensures SumRatings(a + b) == SumRatings(a) + SumRatings(b)
  {
    if a == [] {
      assert a + b == b;
    } else {
      assert (a + b)[0] == a[0];
      assert (a + b)[1..] == a[1..] + b;
      SumRatingsAppend(a[1..], b);
    }
  }

  /** An unrated interview still takes part: it adds nothing to the sum but one to
      the number of interviews the sum is divided by. */
  lemma UnratedCountsAsZero(vs: seq<Interview>, v: Interview)
    requires v.rating.None?
    ensures SumRatings(vs + [v]) == SumRatings(vs)
    ensures |vs + [v]| == |vs| + 1
  {
    SumRatingsAppend(vs, [v]);
  }

  /** Ratings in [0, 5] add up to at most five per interview. */
  lemma {:induction false} SumRatingsBounded(vs: seq<Interview>)
    requires forall i :: 0 <= i < |vs| ==> vs[i].rating.None? || 0.0 <= vs[i].rating.value <= 5.0
    ensures 0.0 <= SumRatings(vs) <= 5.0 * (|vs| as real)
  {
    if vs != [] {
      SumRatingsBounded(vs[1..]);
    }
  }

  /** When every rating was clamped into [0, 5] on entry, so is the average. */
  lemma AverageBounded(app: Application, interviews: seq<Interview>)
    requires forall i :: 0 <= i < |interviews| ==>
      interviews[i].rating.None? || 0.0 <= interviews[i].rating.value <= 5.0
    ensures ScoreOf(app, interviews).Average? ==> 0.0 <= ScoreOf(app, interviews).value <= 5.0
  {
    var mine := InterviewsOf(app, interviews);
    assert forall i :: 0 <= i < |mine| ==> mine[i] in interviews;
    SumRatingsBounded(mine);
    if mine != [] {
      MeanBounded(SumRatings(mine), |mine|);
    }
  }

  /** Ratings 4, 5 and 3 average to 4. */
  lemma AverageOfThree(app: Application, a: Interview, b: Interview, c: Interview)
    requires RatedFor(app.candidateId)(a) && RatedFor(app.candidateId)(b) && RatedFor(app.candidateId)(c)
    requires a.rating == Some(4.0) && b.rating == Some(5.0) && c.rating == Some(3.0)
    ensures ScoreOf(app, [a, b, c]) == Average(4.0)
  {
    var p := RatedFor(app.candidateId);
    assert [a, b, c][1..] == [b, c];
    assert [b, c][1..] == [c];
    assert Filter([a, b, c], p) == [a, b, c];
    assert SumRatings([c]) == 3.0;
    assert SumRatings([b, c]) == 8.0;
    assert SumRatings([a, b, c]) == 12.0;
  }

  // ---------------------------------------------------------------------------
  // The actions offered in the detail view

  datatype Action = MoveToReviewing | Shortlist | Reject

  /** The buttons shown for an application's status. */
  function Actions(status: string): (r: seq<Action>)
    ensures Reject in r <==> status in {"Applied", "Reviewing", "Shortlisted"}
    ensures MoveToReviewing in r <==> status == "Applied"
    ensures Shortlist in r <==> status == "Reviewing"
  {
    if status == "Applied" then [MoveToReviewing, Reject]
    else if status == "Reviewing" then [Shortlist, Reject]
    else if status == "Shortlisted" then [Reject]
    else []
  }

  /** The status an action asks the store for; a rejection only sends an e-mail. */
  function RequestedStatus(action: Action): (r: Option<string>)
    ensures r.None? <==> action == Reject
    ensures r.Some? ==> r.value in {"Reviewing", "Shortlisted"}
  {
    match action
    case MoveToReviewing => Some("Reviewing")
    case Shortlist => Some("Shortlisted")
    case Reject => None
  }

  /** Position of a status along the triage pipeline. */
  function Rank(status: string): int
  {
    if status == "Applied" then 0
    else if status == "Reviewing" then 1
    else if status == "Shortlisted" then 2
    else -1
  }

  /** Every status change the detail view can ask for moves the application one
      stage forward; Completed, Rejected and unknown statuses offer nothing. */
  lemma OfferedActionsMoveForward(status: string, action: Action)
    requires action in Actions(status)
    ensures RequestedStatus(action).Some? ==> Rank(RequestedStatus(action).value) == Rank(status) + 1
    ensures status !in {"Completed", "Rejected"}
  {
  }

  /** The state held by the ApplicationsScoring component. */
  class ScoringPage {
    const store: RecruitmentStore
    var activeTab: Tab
    var selected: Option<Application>
    var showShortlistModal: bool
    var showRejectModal: bool
    var loading: bool

    constructor (store: RecruitmentStore)
      ensures this.store == store && activeTab == Recent && selected.None?
      ensures !showShortlistModal && !showRejectModal && !loading
    {
      this.store := store;
      activeTab, selected := Recent, None;
      showShortlistModal, showRejectModal, loading := false, false, false;
    }

    /** The Move to Reviewing button: the store is asked for status Reviewing;
        only after it answers are the activity reported and the open record
        shown as Reviewing. A failed request leaves everything as it was. */
    method MoveToReviewing(reply: Reply<Application>, now: int, nowText: string)
      requires selected.Some? && store.Valid()
      modifies this, store, store.log
      ensures store.loading == old(store.loading) && store.loadFailed == old(store.loadFailed)
      ensures store.Valid()
      ensures store.jobPostings == old(store.jobPostings) && store.interviews == old(store.interviews)
      ensures store.offers == old(store.offers) && store.candidates == old(store.candidates)
      ensures reply.Err? ==> (store.applications == old(store.applications)
        && store.log.activities == old(store.log.activities) && selected == old(selected))
      ensures reply.Ok? ==> (
        var app := old(selected.value);
        store.applications == ReplaceWhere(old(store.applications),
          ApplicationAt(app.candidateId, app.applicationIndex), reply.value)
        && store.log.activities == AddAll(old(store.log.activities), [
             NewActivity("Application updated for " + OrElse(reply.value.position, "position"), "recruitment", now),
             NewActivity("Moved to Reviewing: " + app.candidateName, "general", now)])
        && selected == Some(app.(status := "Reviewing")))
      ensures store.activities == (if reply.Err? then old(store.activities) else
        KeepLatest(old(store.activities), StoreActivity(now,
          "Application updated for " + OrElse(reply.value.position, "position"), nowText, "application")))
      ensures activeTab == old(activeTab) && showShortlistModal == old(showShortlistModal)
      ensures showRejectModal == old(showRejectModal) && loading == old(loading)
    {
      var app := selected.value;
      store.UpdateApplication(app.candidateId, app.applicationIndex, reply, now, nowText);
      if reply.Err? {
        return;
      }
      store.log.AddActivity("Moved to Reviewing: " + app.candidateName, "general", now);
      AddAllShort(old(store.log.activities),
        NewActivity("Application updated for " + OrElse(reply.value.position, "position"), "recruitment", now),
        NewActivity("Moved to Reviewing: " + app.candidateName, "general", now));
      selected := Some(app.(status := "Reviewing"));
    }

    /** sendShortlistEmail: the status becomes Shortlisted only when the e-mail was
        sent and the status update then succeeded; only then does the modal close.
        Either way the page stops loading. */
    method SendShortlistEmail(emailReply: Reply<()>, updateReply: Reply<Application>, now: int, nowText: string)
      requires selected.Some? && store.Valid()
      modifies this, store, store.log
      ensures store.loading == old(store.loading) && store.loadFailed == old(store.loadFailed)
      ensures store.Valid() && !loading
      ensures store.jobPostings == old(store.jobPostings) && store.interviews == old(store.interviews)
      ensures store.offers == old(store.offers) && store.candidates == old(store.candidates)
      ensures !(emailReply.Ok? && updateReply.Ok?) ==> (store.applications == old(store.applications)
        && store.log.activities == old(store.log.activities)
        && selected == old(selected) && showShortlistModal == old(showShortlistModal))
      ensures emailReply.Ok? && updateReply.Ok? ==> (
        var app := old(selected.value);
        store.applications == ReplaceWhere(old(store.applications),
          ApplicationAt(app.candidateId, app.applicationIndex), updateReply.value)
        && store.log.activities == AddAll(old(store.log.activities), [
             NewActivity("Application updated for " + OrElse(updateReply.value.position, "position"), "recruitment", now),
             NewActivity("Shortlisted and emailed: " + app.candidateName, "general", now)])
        && selected.None? && !showShortlistModal)
      ensures store.activities == (if !(emailReply.Ok? && updateReply.Ok?) then old(store.activities) else
        KeepLatest(old(store.activities), StoreActivity(now,
          "Application updated for " + OrElse(updateReply.value.position, "position"), nowText, "application")))
      ensures activeTab == old(activeTab) && showRejectModal == old(showRejectModal)
    {
      loading := true;
      var app := selected.value;
      if emailReply.Ok? {
        store.UpdateApplication(app.candidateId, app.applicationIndex, updateReply, now, nowText);
        if updateReply.Ok? {
          store.log.AddActivity("Shortlisted and emailed: " + app.candidateName, "general", now);
          AddAllShort(old(store.log.activities),
            NewActivity("Application updated for " + OrElse(updateReply.value.position, "position"), "recruitment", now),
            NewActivity("Shortlisted and emailed: " + app.candidateName, "general", now));
          showShortlistModal := false;
          selected := None;
        }
      }
      loading := false;
    }

    /** sendRejectEmail: a sent e-mail is reported and closes the modal, but no
        application status is changed on the client. */
    method SendRejectEmail(emailReply: Reply<()>, now: int)
      requires selected.Some?
      modifies this, store.log
      ensures !loading
      ensures emailReply.Err? ==> (store.log.activities == old(store.log.activities)
        && selected == old(selected) && showRejectModal == old(showRejectModal))
      ensures emailReply.Ok? ==> (store.log.activities == KeepLatest(old(store.log.activities),
          NewActivity("Rejected and emailed: " + old(selected.value.candidateName), "general", now))
        && selected.None? && !showRejectModal)
      ensures activeTab == old(activeTab) && showShortlistModal == old(showShortlistModal)
    {
      loading := true;
      if emailReply.Ok? {
        store.log.AddActivity("Rejected and emailed: " + selected.value.candidateName, "general", now);
        showRejectModal := false;
        selected := None;
      }
      loading := false;
    }
  }
}
