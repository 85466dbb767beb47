/** The employee's leave page (EmployeeLeave.js): the fixed allocations, the
    days used per leave type this year and the work-from-home days used this
    month (both computed by a loop over the requests), and the request form
    with its reset. Start dates arrive parsed; one that does not parse is None
    and falls in no year or month. */
module EmployeeLeave {
  import opened Common

  /** ALLOCATIONS. */
  const CasualDays := 6
  const AnnualDays := 12
  const SickDays := 6
  const PublicDays := 8
  const OptionalDays := 2
  const WfhPerMonth := 2

  /** The buckets of totalsForYear, all starting at 0. */
  const Buckets: set<string> := {"casual", "annual", "sick", "public", "optional"}

  datatype LeaveRequest = LeaveRequest(leaveType: string, status: string, start: Option<Date>, totalDays: Option<int>)

  /** `r.totalDays || 0`. */
  function Days(r: LeaveRequest): int
  {
    if r.totalDays.Some? then r.totalDays.value else 0
  }

  /** The bucket key of a leave type: work-from-home is filed under 'wfh'. */
  function KeyOf(leaveType: string): string
  {
    if leaveType == "work-from-home" then "wfh" else leaveType
  }

  /** A request adds to bucket `key` of year `year`. */
  predicate CountsFor(r: LeaveRequest, year: int, key: string)
  {
    r.start.Some? && r.start.value.year == year && r.status == "approved"
    && KeyOf(r.leaveType) == key && key in Buckets
  }

  /** The days used in bucket `key` during `year`. */
  function UsedDays(rs: seq<LeaveRequest>, year: int, key: string): (r: int)
    ensures key !in Buckets ==> r == 0
  {
    if rs == [] then 0
    else UsedDays(rs[..|rs| - 1], year, key) + (if CountsFor(rs[|rs| - 1], year, key) then Days(rs[|rs| - 1]) else 0)
  }

  /** The loop of totalsForYear: every bucket starts at 0 and each approved
      request of the year adds its days to its own bucket. */
  method TotalsForYear(requests: seq<LeaveRequest>, year: int) returns (used: map<string, int>)
    ensures used.Keys == Buckets
    ensures forall k :: k in Buckets ==> used[k] == UsedDays(requests, year, k)
  {
    used := map["casual" := 0, "annual" := 0, "sick" := 0, "public" := 0, "optional" := 0];
    var i := 0;
    while i < |requests|
      invariant 0 <= i <= |requests|
      invariant used.Keys == Buckets
      invariant forall k :: k in Buckets ==> used[k] == UsedDays(requests[..i], year, k)
    {
      var r := requests[i];
      assert requests[..i + 1][..i] == requests[..i];
      if r.start.Some? && r.start.value.year == year && r.status == "approved" {
        var key := KeyOf(r.leaveType);
        if key != "" && key in used {
          used := used[key := used[key] + Days(r)];
        }
      }
      i := i + 1;
    }
    assert requests[..i] == requests;
  }

  /** A work-from-home request, or one of a type with no bucket, never changes
      the totals. */
  lemma OtherTypesIgnored(rs: seq<LeaveRequest>, r: LeaveRequest, year: int, key: string)
    requires KeyOf(r.leaveType) !in Buckets
    ensures UsedDays(rs + [r], year, key) == UsedDays(rs, year, key)
  {
    assert (rs + [r])[..|rs|] == rs;
  }

  /** With no negative day counts every bucket stays non-negative, and adding
      a request never lowers it. */
  lemma {:induction false} UsedNonNegative(rs: seq<LeaveRequest>, year: int, key: string)
    requires forall i :: 0 <= i < |rs| ==> Days(rs[i]) >= 0
    ensures UsedDays(rs, year, key) >= 0
  {
    if rs != [] {
      UsedNonNegative(rs[..|rs| - 1], year, key);
    }
  }

  lemma UsedGrows(rs: seq<LeaveRequest>, r: LeaveRequest, year: int, key: string)
    requires Days(r) >= 0
    ensures UsedDays(rs + [r], year, key) >= UsedDays(rs, year, key)
  {
    assert (rs + [r])[..|rs|] == rs;
  }

  /** A request counts toward the work-from-home days of a month. */
  predicate WfhInMonth(r: LeaveRequest, month: int, year: int)
  {
    r.leaveType == "work-from-home" && r.status == "approved"
    && r.start.Some? && r.start.value.month == month && r.start.value.year == year
  }

  /** The approved work-from-home days of one month. */
  function WfhDays(rs: seq<LeaveRequest>, month: int, year: int): (r: int)
    ensures (forall i :: 0 <= i < |rs| ==> !WfhInMonth(rs[i], month, year)) ==> r == 0
  {
    if rs == [] then 0
    else WfhDays(rs[..|rs| - 1], month, year) + (if WfhInMonth(rs[|rs| - 1], month, year) then Days(rs[|rs| - 1]) else 0)
  }

  /** The loop of wfhUsedThisMonth. */
  method WfhUsedThisMonth(requests: seq<LeaveRequest>, today: Date) returns (used: int)
    ensures used == WfhDays(requests, today.month, today.year)
  {
    used := 0;
    var i := 0;
    while i < |requests|
      invariant 0 <= i <= |requests|
      invariant used == WfhDays(requests[..i], today.month, today.year)
    {
      var r := requests[i];
      assert requests[..i + 1][..i] == requests[..i];
      if r.leaveType == "work-from-home" && r.status == "approved" {
        if r.start.Some? && r.start.value.month == today.month && r.start.value.year == today.year {
          used := used + Days(r);
        }
      }
      i := i + 1;
    }
    assert requests[..i] == requests;
  }

  /** An approved work-from-home day this month shows in the monthly count
      and in none of the yearly buckets. */
  lemma WfhCountedOnlyMonthly(r: LeaveRequest, today: Date, key: string)
    requires WfhInMonth(r, today.month, today.year)
    ensures WfhDays([r], today.month, today.year) == Days(r)
    ensures UsedDays([r], today.year, key) == 0
  {
  }

  /** The allocations are only displayed beside the totals: nothing caps the
      days used, so one approved ten-day casual leave shows as more than the
      six allowed. */
  lemma AllocationNotEnforced(start: Date)
    ensures UsedDays([LeaveRequest("casual", "approved", Some(start), Some(10))], start.year, "casual") > CasualDays
  {
  }

  /** The request form. */
  datatype LeaveForm = LeaveForm(leaveType: string, startDate: string, endDate: string, reason: string)

  const EmptyLeaveForm := LeaveForm("casual", "", "", "")

  /** The body of a leave request. */
  datatype RequestBody = RequestBody(employeeId: string, form: LeaveForm)

  /** The state held by the EmployeeLeave component; `employee` is the id of
      the signed-in employee, None when nobody is signed in. */
  class LeavePage {
    const employee: Option<string>
    var requests: seq<LeaveRequest>
    var form: LeaveForm

    constructor (employee: Option<string>)
      ensures this.employee == employee && requests == [] && form == EmptyLeaveForm
    {
      this.employee := employee;
      requests, form := [], EmptyLeaveForm;
    }

    /** fetchRequests: a successful load replaces the list. */
    method FetchRequests(reply: Reply<seq<LeaveRequest>>)
      modifies this
      ensures requests == (if reply.Ok? then reply.value else old(requests)) && form == old(form)
    {
      if reply.Ok? {
        requests := reply.value;
      }
    }

    /** submitRequest: nothing is sent without a signed-in employee; a
        successful request resets the form to casual with empty fields. */
    method SubmitRequest(reply: Reply<()>) returns (sent: Option<RequestBody>)
      modifies this
      ensures employee.None? ==> sent.None?
      ensures employee.Some? ==> sent == Some(RequestBody(employee.value, old(form)))
      ensures form == (if sent.Some? && reply.Ok? then EmptyLeaveForm else old(form))
      ensures requests == old(requests)
    {
      if employee.None? {
        return None;
      }
      sent := Some(RequestBody(employee.value, form));
      if reply.Ok? {
        form := EmptyLeaveForm;
      }
    }
  }
}
