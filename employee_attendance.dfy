/** The employee's attendance page (EmployeeAttendance.js): the late-arrival
    exemption left this month, the YYYY-MM-DD text a record's date is compared
    by, the records shown for the selected date, the default 'absent' record
    added when the selected date has none, the check-in and check-out buttons
    and the request that marks either. Dates arrive parsed as local calendar
    dates; one that does not parse is None and matches no date. */
module EmployeeAttendance {
  import opened Common

  /** The minutes of lateness forgiven each month. */
  const MonthlyExemption := 60

  /** The employee a record belongs to (the populated `employeeId`). */
  datatype Owner = Owner(id: string, fullName: string, email: string)

  datatype AttendanceRecord = AttendanceRecord(
    id: Option<string>, owner: Owner, date: Option<Date>,
    checkInTime: Option<string>, checkOutTime: Option<string>,
    status: string, isLate: bool, lateMinutes: Option<int>, workHours: real)

  // ---------------------------------------------------------------------------
  // Exemption

  /** `record.lateMinutes || 0`. */
  function Late(r: AttendanceRecord): int
  {
    if r.lateMinutes.Some? then r.lateMinutes.value else 0
  }

  predicate InMonth(r: AttendanceRecord, month: int, year: int)
  {
    r.date.Some? && r.date.value.month == month && r.date.value.year == year
  }

  /** The late minutes of the records of one month, added up. */
  function LateMinutesIn(rs: seq<AttendanceRecord>, month: int, year: int): int
  {
    if rs == [] then 0
    else LateMinutesIn(rs[..|rs| - 1], month, year) + (if InMonth(rs[|rs| - 1], month, year) then Late(rs[|rs| - 1]) else 0)
  }

  /** `Math.max(0, 60 - used)`. */
  function Remaining(used: int): (r: int)
    ensures r >= 0
    ensures used <= MonthlyExemption ==> r == MonthlyExemption - used
    ensures used >= MonthlyExemption ==> r == 0
  {
    if MonthlyExemption - used > 0 then MonthlyExemption - used else 0
  }

  /** The exemption left, from the records of today's month. */
  function Exemption(rs: seq<AttendanceRecord>, today: Date): (r: int)
    ensures r >= 0
    ensures r > 0 ==> r + LateMinutesIn(rs, today.month, today.year) == MonthlyExemption
    ensures r == 0 ==> LateMinutesIn(rs, today.month, today.year) >= MonthlyExemption
  {
    Remaining(LateMinutesIn(rs, today.month, today.year))
  }

  lemma {:induction false} LateMinutesNonNegative(rs: seq<AttendanceRecord>, month: int, year: int)
    requires forall i :: 0 <= i < |rs| ==> Late(rs[i]) >= 0
    ensures LateMinutesIn(rs, month, year) >= 0
  {
    if rs != [] {
      LateMinutesNonNegative(rs[..|rs| - 1], month, year);
    }
  }

  /** With no negative late minutes the exemption shown lies in [0, 60]. */
  lemma ExemptionBounded(rs: seq<AttendanceRecord>, today: Date)
    requires forall i :: 0 <= i < |rs| ==> Late(rs[i]) >= 0
    ensures 0 <= Exemption(rs, today) <= MonthlyExemption
  {
    LateMinutesNonNegative(rs, today.month, today.year);
  }

  /** Another late arrival never raises the exemption, and one outside today's
      month leaves it as it was. */
  lemma LateArrivalNeverRaises(rs: seq<AttendanceRecord>, r: AttendanceRecord, today: Date)
    requires Late(r) >= 0
    ensures Exemption(rs + [r], today) <= Exemption(rs, today)
    ensures !InMonth(r, today.month, today.year) ==> Exemption(rs + [r], today) == Exemption(rs, today)
  {
    assert (rs + [r])[..|rs|] == rs;
  }

  // ---------------------------------------------------------------------------
  // Date text

  /** `String(n).padStart(2, '0')`. */
  function Pad2(n: int): (r: string)
    ensures 0 <= n <= 99 ==> |r| == 2 && AllDigits(r)
  {
    var s := IntToString(n);
    assert 0 <= n < 10 ==> s == [DigitChar(n)];
    assert 10 <= n <= 99 ==> s == NatToString(n / 10) + [DigitChar(n % 10)] && NatToString(n / 10) == [DigitChar(n / 10)];
    if |s| < 2 then "0" + s else s
  }

  /** toYMD: the year as written by String, then the month and the day padded
      to two digits, joined by '-'. */
  function Ymd(d: Date): (r: string)
    ensures 0 <= d.month <= 99 && 0 <= d.day <= 99 ==>
      |r| == |IntToString(d.year)| + 6 && r[|r| - 6] == '-' && r[|r| - 3] == '-'
      && AllDigits(r[|r| - 5..|r| - 3]) && AllDigits(r[|r| - 2..])
  {
    IntToString(d.year) + "-" + Pad2(d.month) + "-" + Pad2(d.day)
  }

  /** A date of the calendar with a four-digit year, as ISO 8601 writes it. */
  predicate CalendarDate(d: Date)
  {
    1000 <= d.year <= 9999 && 1 <= d.month <= 12 && 1 <= d.day <= 31
  }

  predicate AllDigits(s: string)
  {
    forall i :: 0 <= i < |s| ==> IsDigit(s[i])
  }

  /** The date a YYYY-MM-DD text names (`new Date(text)` on the date input's
      value); anything else is None. */
  function ParseYmd(s: string): (r: Option<Date>)
    ensures r.Some? ==> CalendarDate(r.value)
  {
    if |s| == 10 && s[4] == '-' && s[7] == '-' && AllDigits(s[..4]) && AllDigits(s[5..7]) && AllDigits(s[8..]) then
      var d := Date(ParseDigits(s[..4]), ParseDigits(s[5..7]), ParseDigits(s[8..]));
      if CalendarDate(d) then Some(d) else None
    else None
  }

  lemma TwoDigits(n: int)
    requires 10 <= n <= 99
    ensures NatToString(n) == [DigitChar(n / 10), DigitChar(n % 10)]
  {
  }

  lemma FourDigits(n: int)
    requires 1000 <= n <= 9999
    ensures |NatToString(n)| == 4
  {
    assert NatToString(n) == NatToString(n / 10) + [DigitChar(n % 10)];
    assert NatToString(n / 10) == NatToString(n / 100) + [DigitChar((n / 10) % 10)];
    TwoDigits(n / 100);
  }

  /** A month or day in [1, 31] is padded to two digits that read back as it. */
  lemma Pad2RoundTrip(n: int)
    requires 1 <= n <= 31
    ensures |Pad2(n)| == 2 && AllDigits(Pad2(n)) && ParseDigits(Pad2(n)) == n
  {
    if n < 10 {
      var p := Pad2(n);
      assert p == ['0', DigitChar(n)];
      assert p[..1] == ['0'];
      assert ParseDigits(['0']) == 0 by {
        assert ['0'][..0] == [];
      }
    } else {
      TwoDigits(n);
      NatToStringRoundTrip(n);
    }
  }

  /** toYMD writes a calendar date in the extended format of section 4.1.2.2
      of ISO 8601:2004, and the text reads back as the same date. */
  lemma {:induction false} YmdRoundTrip(d: Date)
    requires CalendarDate(d)
    ensures |Ymd(d)| == 10 && Ymd(d)[4] == '-' && Ymd(d)[7] == '-'
    ensures ParseYmd(Ymd(d)) == Some(d)
  {
    var y, m, dd := NatToString(d.year), Pad2(d.month), Pad2(d.day);
    FourDigits(d.year);
    Pad2RoundTrip(d.month);
    Pad2RoundTrip(d.day);
    NatToStringRoundTrip(d.year);
    var s := Ymd(d);
    assert s == y + "-" + m + "-" + dd;
    assert s[..4] == y && s[5..7] == m && s[8..] == dd;
  }

  /** Two calendar dates share their text only when they are the same date. */
  lemma YmdInjective(a: Date, b: Date)
    requires CalendarDate(a) && CalendarDate(b) && Ymd(a) == Ymd(b)
    ensures a == b
  {
    YmdRoundTrip(a);
    YmdRoundTrip(b);
  }

  // ---------------------------------------------------------------------------
  // Records of a date

  /** The record's local date written as YYYY-MM-DD is `text`. */
  predicate OnDay(r: AttendanceRecord, text: string)
  {
    r.date.Some? && Ymd(r.date.value) == text
  }

  function OnDayOf(text: string): AttendanceRecord -> bool
  {
    (r: AttendanceRecord) => OnDay(r, text)
  }

  /** filteredRecords: the records of the selected date, in order. */
  function FilteredRecords(rs: seq<AttendanceRecord>, selectedDate: string): (r: seq<AttendanceRecord>)
    ensures forall x :: x in r <==> x in rs && OnDay(x, selectedDate)
  {
    Filter(rs, OnDayOf(selectedDate))
  }

  /** Some record falls on the selected date. */
  predicate HasDay(rs: seq<AttendanceRecord>, selectedDate: string)
  {
    exists i :: 0 <= i < |rs| && OnDay(rs[i], selectedDate)
  }

  /** The record shown when the selected date has none: absent, not checked
      in or out, no lateness and no hours, dated by the selected date's text. */
  function DefaultRecord(owner: Owner, selectedDate: string): (r: AttendanceRecord)
    ensures r.owner == owner && r.date == ParseYmd(selectedDate) && r.status == "absent"
    ensures !CheckedIn(Some(r)) && !CheckedOut(Some(r)) && Late(r) == 0
  {
    AttendanceRecord(None, owner, ParseYmd(selectedDate), None, None, "absent", false, Some(0), 0.0)
  }

  /** The records held after a load: the default record comes first when no
      loaded record falls on the selected date. */
  function Loaded(data: seq<AttendanceRecord>, owner: Owner, selectedDate: string): (r: seq<AttendanceRecord>)
    ensures |data| <= |r| <= |data| + 1 && r[|r| - |data|..] == data
    ensures |r| == |data| + 1 <==> !HasDay(data, selectedDate)
    ensures |r| == |data| + 1 ==> r[0] == DefaultRecord(owner, selectedDate)
  {
    if HasDay(data, selectedDate) then data else [DefaultRecord(owner, selectedDate)] + data
  }

  /** When the selected date is a calendar date with no record, the view for
      that date shows exactly the default record; otherwise it shows the
      loaded records of the date. */
  lemma DefaultRecordShown(data: seq<AttendanceRecord>, owner: Owner, d: Date)
    requires CalendarDate(d)
    ensures !HasDay(data, Ymd(d)) ==> FilteredRecords(Loaded(data, owner, Ymd(d)), Ymd(d)) == [DefaultRecord(owner, Ymd(d))]
    ensures HasDay(data, Ymd(d)) ==> FilteredRecords(Loaded(data, owner, Ymd(d)), Ymd(d)) == FilteredRecords(data, Ymd(d))
  {
    var text := Ymd(d);
    if !HasDay(data, text) {
      YmdRoundTrip(d);
      var x := DefaultRecord(owner, text);
      assert OnDay(x, text);
      FilterNone(data, OnDayOf(text));
      FilterAppend([x], data, OnDayOf(text));
      FilterKeepsAll([x], OnDayOf(text));
    }
  }

  /** The record that drives the buttons: the first loaded record of today or
      of the selected date. */
  function TodayOrSelected(today: Date, selectedDate: string): AttendanceRecord -> bool
  {
    (r: AttendanceRecord) => OnDay(r, Ymd(today)) || OnDay(r, selectedDate)
  }

  // ---------------------------------------------------------------------------
  // Buttons and the mark request

  /** A time field that is set (neither null nor empty). */
  predicate IsSet(t: Option<string>)
  {
    t.Some? && t.value != ""
  }

  predicate CheckedIn(current: Option<AttendanceRecord>)
  {
    current.Some? && IsSet(current.value.checkInTime)
  }

  predicate CheckedOut(current: Option<AttendanceRecord>)
  {
    current.Some? && IsSet(current.value.checkOutTime)
  }

  /** The Check In button is disabled once a check-in time is set. */
  predicate CheckInDisabled(current: Option<AttendanceRecord>)
  {
    CheckedIn(current)
  }

  /** The Check Out button is disabled before check-in and after check-out. */
  predicate CheckOutDisabled(current: Option<AttendanceRecord>)
  {
    !CheckedIn(current) || CheckedOut(current)
  }

  /** At most one button is enabled; with no record of the day only Check In
      is, and after check-out neither is. */
  lemma ButtonsTakeTurns(current: Option<AttendanceRecord>)
    ensures !(!CheckInDisabled(current) && !CheckOutDisabled(current))
    ensures current.None? ==> !CheckInDisabled(current) && CheckOutDisabled(current)
    ensures CheckedOut(current) ==> CheckOutDisabled(current)
    ensures !CheckOutDisabled(current) <==> CheckedIn(current) && !CheckedOut(current)
  {
  }

  /** The body of the mark request: the employee and one time, under
      checkInTime for 'check-in' and under checkOutTime for anything else. */
  function MarkPayload(employeeId: string, action: string, now: string): (r: map<string, string>)
    ensures r.Keys == {"employeeId", if action == "check-in" then "checkInTime" else "checkOutTime"}
    ensures r["employeeId"] == employeeId
    ensures r[if action == "check-in" then "checkInTime" else "checkOutTime"] == now
  {
    map["employeeId" := employeeId][if action == "check-in" then "checkInTime" else "checkOutTime" := now]
  }

  /** The request names exactly one of the two times, never both. */
  lemma PayloadNamesOneTime(employeeId: string, action: string, now: string)
    ensures var p := MarkPayload(employeeId, action, now);
      ("checkInTime" in p <==> action == "check-in") && ("checkOutTime" in p <==> action != "check-in")
      && p["employeeId"] == employeeId
      && (action == "check-in" ==> p["checkInTime"] == now)
      && (action != "check-in" ==> p["checkOutTime"] == now)
  {
  }

  /** How a mark request ended: accepted, refused with the body's message (if
      any), or never answered. */
  datatype MarkOutcome = Marked | Refused(message: Option<string>) | Unreachable

  /** The error shown for a mark request that did not succeed. */
  function MarkError(action: string, outcome: MarkOutcome): (r: Option<string>)
    ensures r.None? <==> outcome.Marked?
    ensures r.Some? ==> r.value != ""
  {
    match outcome
    case Marked => None
    case Refused(message) =>
      if message.Some? && message.value != "" then message else Some("Error marking " + action + ".")
    case Unreachable => Some("Server error during " + action + ".")
  }

  /** An entry of the active-users list. */
  datatype UserSummary = UserSummary(id: string, monthlyLateMinutes: Option<int>)

  function UserIs(id: string): UserSummary -> bool
  {
    (u: UserSummary) => u.id == id
  }

  /** The state held by the EmployeeAttendance component; `employee` is the
      signed-in employee, None when nobody is signed in. */
  class AttendancePage {
    const employee: Option<Owner>
    var records: seq<AttendanceRecord>
    var selectedDate: string
    var current: Option<AttendanceRecord>
    var exemption: int
    var error: Option<string>
    var loading: bool

    /** `employee?._id` is set. */
    predicate SignedIn()
    {
      employee.Some? && employee.value.id != ""
    }

    /** The page as mounted; `todayText` is today's date as YYYY-MM-DD. */
    constructor (employee: Option<Owner>, todayText: string)
      ensures this.employee == employee && records == [] && selectedDate == todayText
      ensures current.None? && exemption == MonthlyExemption && error.None? && !loading
    {
      this.employee := employee;
      records, selectedDate, current := [], todayText, None;
      exemption, error, loading := MonthlyExemption, None, false;
    }

    /** The date picker: only the selection changes; nothing is reloaded. */
    method SelectDate(text: string)
      modifies this
      ensures selectedDate == text
      ensures records == old(records) && current == old(current) && exemption == old(exemption)
      ensures error == old(error) && loading == old(loading)
    {
      selectedDate := text;
    }

    /** fetchEmployeeAttendance: a load holds the records (with the default
        record first when the selected date has none), recomputes the
        exemption from this month's records and takes as current record the
        first loaded one of today or of the selected date. The default record
        is set as current too, but the later assignment replaces it. A failed
        load keeps the records and reports the error. */
    method FetchEmployeeAttendance(reply: Reply<seq<AttendanceRecord>>, today: Date)
      modifies this
      ensures !SignedIn() ==>
        records == old(records) && current == old(current) && exemption == old(exemption)
        && error == old(error) && loading == old(loading)
      ensures SignedIn() && reply.Err? ==>
        records == old(records) && current == old(current) && exemption == old(exemption)
        && error == Some("Failed to fetch attendance data.") && !loading
      ensures SignedIn() && reply.Ok? ==>
        records == Loaded(reply.value, employee.value, selectedDate)
        && exemption == Exemption(reply.value, today)
        && current == Find(reply.value, TodayOrSelected(today, selectedDate))
        && error.None? && !loading
      ensures selectedDate == old(selectedDate)
    {
      if !SignedIn() {
        return;
      }
      loading, error := true, None;
      if reply.Err? {
        error := Some("Failed to fetch attendance data.");
        loading := false;
        return;
      }
      var data := reply.value;
      records := data;
      if !HasDay(data, selectedDate) {
        var defaultRecord := DefaultRecord(employee.value, selectedDate);
        records := [defaultRecord] + records;
        current := Some(defaultRecord);
      }
      exemption := Remaining(LateMinutesIn(data, today.month, today.year));
      current := Find(data, TodayOrSelected(today, selectedDate));
      loading := false;
    }

    /** fetchUserDetails: when the active-users list holds the employee, the
        exemption is recomputed from their monthly late minutes (0 when
        missing). */
    method FetchUserDetails(reply: Reply<seq<UserSummary>>)
      modifies this
      ensures var found := if SignedIn() && reply.Ok? then Find(reply.value, UserIs(employee.value.id)) else None;
        exemption == (if found.Some? then
                        Remaining(if found.value.monthlyLateMinutes.Some? then found.value.monthlyLateMinutes.value else 0)
                      else old(exemption))
      ensures records == old(records) && current == old(current) && selectedDate == old(selectedDate)
      ensures error == old(error) && loading == old(loading)
    {
      if !SignedIn() || reply.Err? {
        return;
      }
      var found := Find(reply.value, UserIs(employee.value.id));
      if found.Some? {
        var used := if found.value.monthlyLateMinutes.Some? then found.value.monthlyLateMinutes.value else 0;
        exemption := Remaining(used);
      }
    }

    /** handleAttendanceAction: with an employee signed in, the mark request is
        sent with the current time; a failure reports its error. After a
        success the page reloads, which is a FetchEmployeeAttendance and a
        FetchUserDetails that follow. */
    method HandleAttendanceAction(action: string, outcome: MarkOutcome, now: string) returns (sent: Option<map<string, string>>)
      modifies this
      ensures !SignedIn() ==> sent.None? && error == old(error)
      ensures SignedIn() ==> sent == Some(MarkPayload(employee.value.id, action, now))
      ensures SignedIn() ==> error == (if outcome.Marked? then old(error) else MarkError(action, outcome))
      ensures records == old(records) && current == old(current) && exemption == old(exemption)
      ensures selectedDate == old(selectedDate) && loading == old(loading)
    {
      if !SignedIn() {
        return None;
      }
      sent := Some(MarkPayload(employee.value.id, action, now));
      if !outcome.Marked? {
        error := MarkError(action, outcome);
      }
    }
  }

  /** After a load in which no record falls on today or on the selected date,
      there is no current record, so only Check In is enabled. */
  lemma NoRecordOfTheDayEnablesCheckIn(data: seq<AttendanceRecord>, today: Date, selectedDate: string)
    requires !HasDay(data, Ymd(today)) && !HasDay(data, selectedDate)
    ensures var current := Find(data, TodayOrSelected(today, selectedDate));
      !CheckInDisabled(current) && CheckOutDisabled(current)
  {
    var p := TodayOrSelected(today, selectedDate);
    forall i | 0 <= i < |data|
      ensures !p(data[i])
    {
      assert !OnDay(data[i], Ymd(today)) && !OnDay(data[i], selectedDate);
    }
  }
}
