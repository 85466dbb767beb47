/** The offers page (JobOffers.js): the candidates an offer can be made to, the
    status filter and its cards, the Edit and Withdraw buttons of pending
    offers, the create-or-update of the offer form, and the autofill of the
    candidate select. The offer-letter preview and its printing are left out. */
module JobOffers {
  import opened Common
  import opened ActivityContext
  import opened RecruitmentContext
  import InterviewsFeedback

  /** The offer form: the terms being edited, and the id of the offer being
      edited (None while creating one). */
  datatype OfferForm = OfferForm(id: Option<string>, terms: OfferTerms)

  /** The form as it starts and as it is reset after a save. */
  const BlankTerms := OfferTerms("", "", "", "", "", "", "Full-time", "", "", "")
  const EmptyOfferForm := OfferForm(None, BlankTerms)

  /** `newOffer.id` is truthy. */
  predicate IsEditing(form: OfferForm)
  {
    form.id.Some? && form.id.value != ""
  }

  // ---------------------------------------------------------------------------
  // Derived lists

  function HasCompleted(): Candidate -> bool
  {
    (c: Candidate) => InterviewsFeedback.HasCompletedApplication(c)
  }

  /** completedCandidates: the only candidates the offer form lists. */
  function CompletedCandidates(candidates: seq<Candidate>): (r: seq<Candidate>)
    ensures forall c :: c in r <==> (c in candidates
      && exists i :: 0 <= i < |c.applications| && c.applications[i].status == "Completed")
    ensures |r| <= |candidates|
  {
    Filter(candidates, HasCompleted())
  }

  function OfferStatusIs(status: string): Offer -> bool
  {
    (o: Offer) => o.status == status
  }

  /** filteredOffers: everything under "All", otherwise the offers in that status. */
  function VisibleOffers(offers: seq<Offer>, statusFilter: string): (r: seq<Offer>)
    ensures statusFilter == "All" ==> r == offers
    ensures statusFilter != "All" ==> forall o :: o in r <==> o in offers && o.status == statusFilter
  {
    if statusFilter == "All" then offers else Filter(offers, OfferStatusIs(statusFilter))
  }

  /** One entry of `counts`. */
  function StatusCount(offers: seq<Offer>, status: string): nat
  {
    |Filter(offers, OfferStatusIs(status))|
  }

  /** Each card counts exactly the rows its filter shows. */
  lemma CountIsFilterSize(offers: seq<Offer>, status: string)
    requires status != "All"
    ensures StatusCount(offers, status) == |VisibleOffers(offers, status)|
  {
  }

  /** The four cards together never count an offer twice. */
  lemma {:induction false} CountsAtMostAll(offers: seq<Offer>)
    ensures StatusCount(offers, "Pending") + StatusCount(offers, "Accepted")
          + StatusCount(offers, "Declined") + StatusCount(offers, "Withdrawn") <= |offers|
  {
    if offers != [] {
      CountsAtMostAll(offers[1..]);
    }
  }

  // ---------------------------------------------------------------------------
  // Row actions

  datatype OfferAction = View | Edit | Withdraw

  /** The buttons of an offer's row: View always, Edit and Withdraw while pending. */
  function RowActions(status: string): (r: seq<OfferAction>)
    ensures View in r
    ensures Edit in r <==> status == "Pending"
    ensures Withdraw in r <==> status == "Pending"
  {
    if status == "Pending" then [View, Edit, Withdraw] else [View]
  }

  /** The request behind the Withdraw button: only the status, set to Withdrawn. */
  datatype StatusChange = StatusChange(id: string, status: string)

  function WithdrawRequest(offer: Offer): (r: StatusChange)
    ensures r.id == offer.id && r.status == "Withdrawn"
  {
    StatusChange(offer.id, "Withdrawn")
  }

  /** What handleAddOffer sends: an update of the edited offer, or a new offer. */
  datatype OfferRequest = UpdateRequest(id: string, terms: OfferTerms) | CreateRequest(terms: OfferTerms)

  function RequestFor(form: OfferForm): (r: OfferRequest)
    ensures r.UpdateRequest? <==> IsEditing(form)
    ensures r.terms == form.terms
    ensures r.UpdateRequest? ==> form.id == Some(r.id)
  {
    if IsEditing(form) then UpdateRequest(form.id.value, form.terms) else CreateRequest(form.terms)
  }

  /** The activity reported after a save. */
  function SavedTitle(form: OfferForm): string
  {
    (if IsEditing(form) then "Edited offer for " else "Created new offer for ") + form.terms.candidateName
  }

  function NameIs(name: string): Candidate -> bool
  {
    (c: Candidate) => c.name == name
  }

  /** The candidate select: the name is taken as chosen, and the email and
      position of the first listed candidate with that name are copied, or
      cleared when no listed candidate has it. */
  function Autofill(terms: OfferTerms, listed: seq<Candidate>, name: string): (r: OfferTerms)
    ensures r.candidateName == name
    ensures var c := Find(listed, NameIs(name));
      (c.Some? ==> r.email == c.value.email && r.position == c.value.position)
      && (c.None? ==> r.email == "" && r.position == "")
    ensures r.(candidateName := terms.candidateName, email := terms.email, position := terms.position) == terms
  {
    var c := Find(listed, NameIs(name));
    terms.(candidateName := name,
           email := if c.Some? then c.value.email else "",
           position := if c.Some? then c.value.position else "")
  }

  /** Selecting a name nobody listed has clears the email and position. */
  lemma AutofillUnknownName(terms: OfferTerms, listed: seq<Candidate>, name: string)
    requires forall i :: 0 <= i < |listed| ==> listed[i].name != name
    ensures Autofill(terms, listed, name).email == "" && Autofill(terms, listed, name).position == ""
  {
  }

  /** The state held by the JobOffers component. */
  class OffersPage {
    const store: RecruitmentStore
    var statusFilter: string
    var form: OfferForm
    var showOfferForm: bool
    var current: Option<Offer>
    var showView: bool

    constructor (store: RecruitmentStore)
      ensures this.store == store && statusFilter == "All" && form == EmptyOfferForm
      ensures !showOfferForm && current.None? && !showView
    {
      this.store := store;
      statusFilter, form := "All", EmptyOfferForm;
      showOfferForm, current, showView := false, None, false;
    }

    /** A status card was clicked. */
    method SetFilter(status: string)
      modifies this
      ensures statusFilter == status
      ensures form == old(form) && showOfferForm == old(showOfferForm)
      ensures current == old(current) && showView == old(showView)
    {
      statusFilter := status;
    }

    /** The Edit button of a pending offer: the form is loaded with the offer's
        terms and its id, and opened. */
    method EditOffer(offer: Offer)
      requires offer.status == "Pending"
      modifies this
      ensures form == OfferForm(Some(offer.id), offer.terms) && showOfferForm
      ensures statusFilter == old(statusFilter) && current == old(current) && showView == old(showView)
    {
      form := OfferForm(Some(offer.id), offer.terms);
      showOfferForm := true;
    }

    /** A candidate was chosen in the select, among completedCandidates. */
    method SelectCandidate(name: string)
      modifies this
      ensures form == old(form).(terms := Autofill(old(form).terms, CompletedCandidates(store.candidates), name))
      ensures statusFilter == old(statusFilter) && showOfferForm == old(showOfferForm)
      ensures current == old(current) && showView == old(showView)
    {
      form := form.(terms := Autofill(form.terms, CompletedCandidates(store.candidates), name));
    }

    /** handleAddOffer: an update when the form carries an offer id, a creation
        otherwise; after a successful save the activity is reported and the
        form is reset and closed, while a failed save changes nothing. */
    method AddOffer(reply: Reply<Offer>, now: int) returns (request: OfferRequest)
      modifies this, store, store.log
      ensures store.loading == old(store.loading) && store.loadFailed == old(store.loadFailed)
      ensures request == RequestFor(old(form))
      ensures store.jobPostings == old(store.jobPostings) && store.applications == old(store.applications)
      ensures store.interviews == old(store.interviews) && store.candidates == old(store.candidates)
      ensures store.activities == old(store.activities)
      ensures reply.Err? ==> (store.offers == old(store.offers) && store.log.activities == old(store.log.activities)
        && form == old(form) && showOfferForm == old(showOfferForm))
      ensures reply.Ok? && request.UpdateRequest? ==> (
        store.offers == ReplaceWhere(old(store.offers), OfferIdIs(request.id), reply.value)
        && store.log.activities == AddAll(old(store.log.activities), [
             NewActivity("Job offer updated for " + OrElse(reply.value.terms.candidateName, "candidate"), "recruitment", now),
             NewActivity(SavedTitle(old(form)), "general", now)]))
      ensures reply.Ok? && request.CreateRequest? ==> (
        store.offers == old(store.offers) + [reply.value]
        && store.log.activities == AddAll(old(store.log.activities), [
             NewActivity("New job offer sent to " + OrElse(reply.value.terms.candidateName, "candidate"), "recruitment", now),
             NewActivity(SavedTitle(old(form)), "general", now)]))
      ensures reply.Ok? ==> form == EmptyOfferForm && !showOfferForm
      ensures statusFilter == old(statusFilter) && current == old(current) && showView == old(showView)
    {
      request := RequestFor(form);
      ghost var log0 := store.log.activities;
      var reported: Activity;
      if IsEditing(form) {
        store.UpdateOffer(form.id.value, reply, now);
        if reply.Err? {
          return;
        }
        reported := NewActivity("Job offer updated for " + OrElse(reply.value.terms.candidateName, "candidate"), "recruitment", now);
      } else {
        store.CreateOffer(reply, now);
        if reply.Err? {
          return;
        }
        reported := NewActivity("New job offer sent to " + OrElse(reply.value.terms.candidateName, "candidate"), "recruitment", now);
      }
      store.log.AddActivity(SavedTitle(form), "general", now);
      AddAllShort(log0, reported, NewActivity(SavedTitle(form), "general", now));
      form := EmptyOfferForm;
      showOfferForm := false;
    }

    /** The Withdraw button of a pending offer: the store is asked to set its
        status to Withdrawn, and the activity is reported once it answered. */
    method WithdrawOffer(offer: Offer, reply: Reply<Offer>, now: int) returns (request: StatusChange)
      requires offer.status == "Pending"
      modifies store, store.log
      ensures store.loading == old(store.loading) && store.loadFailed == old(store.loadFailed)
      ensures request == WithdrawRequest(offer)
      ensures store.jobPostings == old(store.jobPostings) && store.applications == old(store.applications)
      ensures store.interviews == old(store.interviews) && store.candidates == old(store.candidates)
      ensures store.activities == old(store.activities)
      ensures reply.Err? ==> store.offers == old(store.offers) && store.log.activities == old(store.log.activities)
      ensures reply.Ok? ==> (store.offers == ReplaceWhere(old(store.offers), OfferIdIs(offer.id), reply.value)
        && store.log.activities == AddAll(old(store.log.activities), [
             NewActivity("Job offer updated for " + OrElse(reply.value.terms.candidateName, "candidate"), "recruitment", now),
             NewActivity("Withdrew offer for " + offer.terms.candidateName, "general", now)]))
    {
      request := WithdrawRequest(offer);
      store.UpdateOffer(offer.id, reply, now);
      if reply.Ok? {
        store.log.AddActivity("Withdrew offer for " + offer.terms.candidateName, "general", now);
        AddAllShort(old(store.log.activities),
          NewActivity("Job offer updated for " + OrElse(reply.value.terms.candidateName, "candidate"), "recruitment", now),
          NewActivity("Withdrew offer for " + offer.terms.candidateName, "general", now));
      }
    }
  }
}
