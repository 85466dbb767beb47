/** The role and reporting-line selector of the final-onboard form
    (RoleForm.jsx): the role options (four fixed roles, then the active job
    titles), the reporting fields each role shows, the summary text, and the
    handlers that pass each selection up to the form as a change event. */
module RoleForm {
  import opened Common
  import opened FormData
  import OnboardingTraining

  datatype RoleOption = RoleOption(value: string, caption: string)

  /** The four fixed roles of the dropdown, in order. */
  const FixedRoles: seq<RoleOption> := [
    RoleOption("FO", "FO (Field Officer)"),
    RoleOption("RegionalHead", "Regional Head"),
    RoleOption("ZonalHead", "Zonal Head"),
    RoleOption("CEO", "CEO (Top Level)")
  ]

  /** Some fixed role already carries this label. */
  predicate LabelTaken(title: string)
  {
    exists i :: 0 <= i < |FixedRoles| && FixedRoles[i].caption == title
  }

  function NotTaken(): string -> bool
  {
    (title: string) => !LabelTaken(title)
  }

  /** allRoles: the fixed roles, then each job title whose label no fixed role
      has, as an option whose value and label are the title. */
  function AllRoles(jobTitles: seq<string>): (r: seq<RoleOption>)
    ensures |r| >= |FixedRoles| && r[..|FixedRoles|] == FixedRoles
    ensures forall i :: |FixedRoles| <= i < |r| ==> r[i].value == r[i].caption && !LabelTaken(r[i].caption)
    ensures forall t :: RoleOption(t, t) in r[|FixedRoles|..] <==> t in jobTitles && !LabelTaken(t)
  {
    var kept := Filter(jobTitles, NotTaken());
    var extra := seq(|kept|, i requires 0 <= i < |kept| => RoleOption(kept[i], kept[i]));
    forall t
      ensures RoleOption(t, t) in extra <==> t in kept
    {
      if t in kept {
        var j :| 0 <= j < |kept| && kept[j] == t;
        assert extra[j] == RoleOption(t, t);
      }
    }
    var r := FixedRoles + extra;
    assert r[|FixedRoles|..] == extra;
    r
  }

  /** The titles appended after the fixed roles keep their order: the options
      after the fourth are exactly the kept titles, one for one. */
  lemma JobTitlesKeepOrder(jobTitles: seq<string>)
    ensures var kept := Filter(jobTitles, NotTaken());
      |AllRoles(jobTitles)| == |FixedRoles| + |kept|
      && forall i :: 0 <= i < |kept| ==> AllRoles(jobTitles)[|FixedRoles| + i] == RoleOption(kept[i], kept[i])
  {
  }

  /** Titles are compared with the fixed roles' labels, not their values: a
      job titled "Regional Head" is dropped, while one titled "FO" is kept and
      so a second option with value "FO" appears. */
  lemma DuplicatesCheckedByLabel()
    ensures AllRoles(["Regional Head"]) == FixedRoles
    ensures AllRoles(["FO"]) == FixedRoles + [RoleOption("FO", "FO")]
  {
    assert LabelTaken("Regional Head") by {
      assert FixedRoles[1].caption == "Regional Head";
    }
    assert !LabelTaken("FO") by {
      forall i | 0 <= i < |FixedRoles|
        ensures FixedRoles[i].caption != "FO"
      {
        assert FixedRoles[i].caption[..2] != "FO" || |FixedRoles[i].caption| != 2;
      }
    }
  }

  // ---------------------------------------------------------------------------
  // Reporting fields

  datatype ReportingField = ZonalHeadSelect | RegionalHeadSelect | CeoDisplay

  /** renderReportingFields: what is shown below the role select. */
  function ReportingFields(role: string): (r: seq<ReportingField>)
    ensures role == "ZonalHead" ==> r == [CeoDisplay]
    ensures role == "RegionalHead" ==> r == [ZonalHeadSelect]
    ensures role == "FO" ==> r == [ZonalHeadSelect, RegionalHeadSelect]
    ensures role !in {"ZonalHead", "RegionalHead", "FO"} ==> r == []
  {
    if role == "" || role == "CEO" then []
    else if role == "ZonalHead" then [CeoDisplay]
    else if role == "RegionalHead" then [ZonalHeadSelect]
    else if role == "FO" then [ZonalHeadSelect, RegionalHeadSelect]
    else []
  }

  /** The form field a select writes, in the order shown; the CEO box writes
      none. */
  function SelectNames(fields: seq<ReportingField>): seq<string>
  {
    if fields == [] then []
    else match fields[0]
      case ZonalHeadSelect => ["reporting_zonalHead"] + SelectNames(fields[1..])
      case RegionalHeadSelect => ["reporting_regionalHead"] + SelectNames(fields[1..])
      case CeoDisplay => SelectNames(fields[1..])
  }

  /** The selects a role shows are exactly the extra reporting fields the
      final-onboard validation requires of that role, in the same order. */
  lemma ReportingFieldsMatchValidation(role: string)
    ensures SelectNames(ReportingFields(role)) == OnboardingTraining.RoleExtras(Str(role))
  {
    if role == "FO" {
      assert SelectNames([RegionalHeadSelect]) == ["reporting_regionalHead"];
    }
  }

  // ---------------------------------------------------------------------------
  // Summary

  const Prompt := "Select an employee type to see the required hierarchy fields."

  /** The role name as shown in the summary, in the theme's primary colour. */
  function Emphasis(name: string, primary: string): string
  {
    "<span style=\"font-weight: 700; color: " + primary + ";\">" + name + "</span>"
  }

  /** The opening of every role summary. */
  const SummaryHead := "Selected Role: "

  /** The reporting line each fixed role's summary states after its name. */
  const FoNote := ". Requires selection of Regional Head and Zonal Head. (CEO → ZH → RH → FO)"
  const RegionalHeadNote := ". Requires selection of Zonal Head. (CEO → ZH → RH)"
  const ZonalHeadNote := ". Reports directly to the CEO. (CEO → ZH)"
  const CeoNote := ". No reporting managers are required."

  /** The summary switch: one text per fixed role, the prompt otherwise. */
  function Summary(role: string, primary: string): (r: string)
    ensures role in {"FO", "RegionalHead", "ZonalHead", "CEO"} ==>
      |r| > |SummaryHead| && r[..|SummaryHead|] == SummaryHead
    ensures role !in {"FO", "RegionalHead", "ZonalHead", "CEO"} ==> r == Prompt
  {
    if role == "FO" then SummaryHead + Emphasis("FO", primary) + FoNote
    else if role == "RegionalHead" then SummaryHead + Emphasis("Regional Head", primary) + RegionalHeadNote
    else if role == "ZonalHead" then SummaryHead + Emphasis("Zonal Head", primary) + ZonalHeadNote
    else if role == "CEO" then SummaryHead + Emphasis("CEO", primary) + CeoNote
    else Prompt
  }

  /** A job-title role gets the prompt, not a summary of its own. */
  lemma JobTitleRoleGetsPrompt(jobTitles: seq<string>, i: int, primary: string)
    requires |FixedRoles| <= i < |AllRoles(jobTitles)|
    ensures AllRoles(jobTitles)[i].value in {"FO", "RegionalHead", "ZonalHead", "CEO"} ||
            Summary(AllRoles(jobTitles)[i].value, primary) == Prompt
  {
  }

  /** `value || ''` for a form field read as text. */
  function TextOr(v: FieldValue): string
  {
    if v.Str? then v.text else ""
  }

  /** The change event a select passes up to the form. */
  function SelectEvent(name: string, value: string): ChangeEvent
  {
    ChangeEvent(name, Str(value), false, None)
  }

  /** A selection passed up through the final-onboard form's change handler
      sets exactly that field of the form to the selected value. */
  lemma SelectionReachesForm(form: Form, name: string, value: string)
    requires name != ""
    ensures var after := OnboardingTraining.Changed(form, SelectEvent(name, value));
      Get(after, name) == Str(value) && forall k :: k != name ==> Get(after, k) == Get(form, k)
  {
  }

  /** The state held by the RoleForm component. */
  class RoleSelector {
    var employeeType: string
    var selectedZH: string
    var selectedRH: string
    var reportingSummary: string

    /** The component mounted over the form's data. */
    constructor (formData: Form)
      ensures employeeType == TextOr(Get(formData, "role"))
      ensures selectedZH == TextOr(Get(formData, "reporting_zonalHead"))
      ensures selectedRH == TextOr(Get(formData, "reporting_regionalHead"))
      ensures reportingSummary == Prompt
    {
      employeeType := TextOr(Get(formData, "role"));
      selectedZH := TextOr(Get(formData, "reporting_zonalHead"));
      selectedRH := TextOr(Get(formData, "reporting_regionalHead"));
      reportingSummary := Prompt;
    }

    /** The effect that runs when the role (or the form's reporting fields)
        changed: the selections are reread from the form and the summary is
        rebuilt for the role. */
    method Refresh(formData: Form, primary: string)
      modifies this
      ensures employeeType == old(employeeType)
      ensures selectedZH == TextOr(Get(formData, "reporting_zonalHead"))
      ensures selectedRH == TextOr(Get(formData, "reporting_regionalHead"))
      ensures reportingSummary == Summary(employeeType, primary)
    {
      selectedZH := TextOr(Get(formData, "reporting_zonalHead"));
      selectedRH := TextOr(Get(formData, "reporting_regionalHead"));
      reportingSummary := Summary(employeeType, primary);
    }

    /** handleEmployeeTypeChange: the role is taken and passed up as 'role'. */
    method HandleEmployeeTypeChange(value: string) returns (emitted: ChangeEvent)
      modifies this
      ensures employeeType == value && emitted == SelectEvent("role", value)
      ensures selectedZH == old(selectedZH) && selectedRH == old(selectedRH)
      ensures reportingSummary == old(reportingSummary)
    {
      employeeType := value;
      emitted := SelectEvent("role", value);
    }

    /** handleZHChange: the zonal head is taken and passed up. */
    method HandleZHChange(value: string) returns (emitted: ChangeEvent)
      modifies this
      ensures selectedZH == value && emitted == SelectEvent("reporting_zonalHead", value)
      ensures employeeType == old(employeeType) && selectedRH == old(selectedRH)
      ensures reportingSummary == old(reportingSummary)
    {
      selectedZH := value;
      emitted := SelectEvent("reporting_zonalHead", value);
    }

    /** handleRHChange: the regional head is taken and passed up. */
    method HandleRHChange(value: string) returns (emitted: ChangeEvent)
      modifies this
      ensures selectedRH == value && emitted == SelectEvent("reporting_regionalHead", value)
      ensures employeeType == old(employeeType) && selectedZH == old(selectedZH)
      ensures reportingSummary == old(reportingSummary)
    {
      selectedRH := value;
      emitted := SelectEvent("reporting_regionalHead", value);
    }
  }
}
