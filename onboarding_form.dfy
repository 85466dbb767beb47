/** The candidate's five-step onboarding form (OnboardingForm.js): the steps
    table of required fields, validation of the current step, the Back/Next
    buttons and the stepper's jumps, the change handler, and submission, which
    sends every field that holds a value and resets the form once the request
    succeeded. The request itself is a `Reply` parameter. */
module OnboardingForm {
  import opened Common
  import opened FormData

  const TotalSteps: int := 5

  /** The steps table: Personal Info, Identity & Address, Family Details,
      Document Upload and Bank Details, with their required fields. */
  const StepFields: seq<seq<string>> := [
    ["name", "personalNumber", "email", "dateOfBirth", "gender"],
    ["panNumber", "aadharNumber", "currentAddress"],
    [],
    ["aadharUpload", "panUpload"],
    ["bankName", "accountNumber", "ifscCode", "accountHolderName"]
  ]

  /** The form's initial data: every text field empty, every upload null. */
  function InitialForm(): Form
  {
    map["name" := Str(""), "personalNumber" := Str(""), "email" := Str(""), "dateOfBirth" := Str(""),
        "gender" := Str(""), "profilePictureUrl" := Str(""), "panNumber" := Str(""), "aadharNumber" := Str(""),
        "currentAddress" := Str(""), "permanentAddress" := Str(""), "fatherName" := Str(""),
        "fatherDob" := Str(""), "fatherMobile" := Str(""), "motherName" := Str(""), "motherDob" := Str(""),
        "motherMobile" := Str(""), "aadharUpload" := Null, "panUpload" := Null, "bankName" := Str(""),
        "accountNumber" := Str(""), "ifscCode" := Str(""), "accountHolderName" := Str(""),
        "bankStatementUpload" := Null]
  }

  /** A step of the stepper. */
  predicate InRange(step: int)
  {
    1 <= step <= TotalSteps
  }

  /** validateCurrentStep on a step of the table. */
  predicate StepValid(form: Form, step: int)
    requires InRange(step)
    ensures StepValid(form, step) <==> forall k :: k in StepFields[step - 1] ==> Present(Get(form, k))
  {
    AllPresent(form, StepFields[step - 1])
  }

  /** Family Details has no required fields: it is valid whatever was entered. */
  lemma FamilyStepAlwaysValid(form: Form)
    ensures StepValid(form, 3)
  {
  }

  /** The form as filled by someone who entered their personal details and
      nothing else. */
  function PersonalOnly(): Form
  {
    InitialForm()["name" := Str("A")]["personalNumber" := Str("1")]["email" := Str("a@b")]
                 ["dateOfBirth" := Str("2000-01-01")]["gender" := Str("F")]
  }

  /** Validation looks only at the current step: after the personal details,
      the later steps with required fields are all still invalid, so a forward
      jump from step 1 (which only needs step 1 valid) can pass over them. */
  lemma ForwardJumpSkipsInvalidSteps()
    ensures StepValid(PersonalOnly(), 1)
    ensures !StepValid(PersonalOnly(), 2) && !StepValid(PersonalOnly(), 4) && !StepValid(PersonalOnly(), 5)
  {
    var f := PersonalOnly();
    assert Get(f, StepFields[1][0]) == Str("");
    assert Get(f, StepFields[3][0]) == Null;
    assert Get(f, StepFields[4][0]) == Str("");
  }

  /** A field that holds a value is sent; null and undefined are not. */
  predicate Sent(v: FieldValue)
  {
    !v.Null? && !v.Undefined?
  }

  /** The fields handleFormSubmit sends. */
  function Payload(form: Form): (r: Form)
    ensures r.Keys <= form.Keys
    ensures forall k :: k in r ==> r[k] == form[k]
  {
    map k | k in form && Sent(form[k]) :: form[k]
  }

  /** Exactly the fields holding null or undefined are held back. */
  lemma PayloadHoldsBackOnlyEmptyReferences(form: Form, k: string)
    requires k in form
    ensures k in Payload(form) <==> !form[k].Null? && !form[k].Undefined?
  {
  }

  /** Submitting the untouched form sends every field but the three uploads. */
  lemma InitialPayload()
    ensures Payload(InitialForm()).Keys == InitialForm().Keys - {"aadharUpload", "panUpload", "bankStatementUpload"}
  {
    var f := InitialForm();
    forall k | k in f
      ensures k in Payload(f) <==> k !in {"aadharUpload", "panUpload", "bankStatementUpload"}
    {
      PayloadHoldsBackOnlyEmptyReferences(f, k);
    }
  }

  /** A submission from the last step checks only the bank details: a form
      whose documents were never uploaded still goes through. */
  lemma SubmitChecksOnlyBankDetails()
    ensures var f := InitialForm()["bankName" := Str("B")]["accountNumber" := Str("1")]
                                   ["ifscCode" := Str("I")]["accountHolderName" := Str("H")];
      StepValid(f, TotalSteps) && !StepValid(f, 4)
  {
    var f := InitialForm()["bankName" := Str("B")]["accountNumber" := Str("1")]
                           ["ifscCode" := Str("I")]["accountHolderName" := Str("H")];
    assert Get(f, StepFields[3][0]) == Null;
  }

  /** Setting a field that a step does not require leaves that step's validity
      as it was. */
  lemma ChangeKeepsOtherSteps(form: Form, e: ChangeEvent, step: int)
    requires InRange(step) && e.name !in StepFields[step - 1]
    ensures StepValid(form[e.name := EventValue(e, e.value)], step) <==> StepValid(form, step)
  {
    SetFieldKeepsOthers(form, e.name, EventValue(e, e.value), StepFields[step - 1]);
  }

  /** The state held by the OnboardingForm component. */
  class CandidateForm {
    var currentStep: int
    var formData: Form

    /** The step is always one the steps table has. */
    predicate Valid()
      reads this
    {
      InRange(currentStep)
    }

    constructor ()
      ensures Valid() && currentStep == 1 && formData == InitialForm()
    {
      currentStep, formData := 1, InitialForm();
    }

    /** handleChange: only the named field is set, to the first file of a file
        input or to the value as given. */
    method HandleChange(e: ChangeEvent)
      modifies this
      ensures formData == old(formData)[e.name := EventValue(e, e.value)]
      ensures currentStep == old(currentStep)
    {
      var v := e.value;
      if e.isFile && e.files.Some? {
        v := FirstFile(e.files.value);
      }
      formData := formData[e.name := v];
    }

    /** validateCurrentStep: every required field of the step is looked at, and
        the flag drops on a field that is '', null, undefined or a nameless
        file. */
    method ValidateCurrentStep() returns (isValid: bool)
      requires Valid()
      ensures isValid == StepValid(formData, currentStep)
    {
      var required := StepFields[currentStep - 1];
      isValid := true;
      var i := 0;
      while i < |required|
        invariant 0 <= i <= |required|
        invariant isValid == (forall k :: 0 <= k < i ==> Present(Get(formData, required[k])))
      {
        var value := Get(formData, required[i]);
        if value == Str("") || value == Null || value == Undefined || (value.FileVal? && value.name == "") {
          isValid := false;
        }
        i := i + 1;
      }
    }

    /** changeStep: a forward move is refused while the step is invalid, and a
        move is applied only when it lands within [1, 5]. */
    method ChangeStep(direction: int)
      requires Valid()
      modifies this
      ensures Valid() && formData == old(formData)
      ensures direction > 0 && !StepValid(old(formData), old(currentStep)) ==> currentStep == old(currentStep)
      ensures !(direction > 0 && !StepValid(old(formData), old(currentStep))) ==>
        currentStep == (if InRange(old(currentStep) + direction) then old(currentStep) + direction
                        else old(currentStep))
    {
      if direction > 0 {
        var ok := ValidateCurrentStep();
        if !ok {
          return;
        }
      }
      var newStep := currentStep + direction;
      if 1 <= newStep <= TotalSteps {
        currentStep := newStep;
      }
    }

    /** jumpToStep: an earlier step is always reachable; any other step is
        reached when the current step is valid, whatever lies in between. The
        stepper passes positions in [1, 5], which keep the step in range. */
    method JumpToStep(stepIndex: int)
      requires Valid()
      modifies this
      ensures formData == old(formData)
      ensures currentStep == (if stepIndex < old(currentStep) || StepValid(old(formData), old(currentStep))
                              then stepIndex else old(currentStep))
      ensures InRange(stepIndex) ==> Valid()
    {
      if stepIndex < currentStep {
        currentStep := stepIndex;
        return;
      }
      var ok := ValidateCurrentStep();
      if ok {
        currentStep := stepIndex;
      }
    }

    /** The loop that fills the request body: every key whose value is not null
        or undefined. */
    method BuildPayload() returns (payload: Form)
      ensures payload == Payload(formData)
    {
      payload := map[];
      var pending := formData.Keys;
      while pending != {}
        invariant pending <= formData.Keys
        invariant payload == map k | k in formData.Keys - pending && Sent(formData[k]) :: formData[k]
        decreases pending
      {
        var key :| key in pending;
        if Sent(formData[key]) {
          payload := payload[key := formData[key]];
        }
        pending := pending - {key};
      }
    }

    /** handleFormSubmit: nothing is sent unless the current step validates;
        otherwise the payload is sent, and a successful request resets the form
        to its initial data and step 1. A failed one changes nothing. */
    method HandleFormSubmit(reply: Reply<()>) returns (sent: Option<Form>)
      requires Valid()
      modifies this
      ensures Valid()
      ensures !StepValid(old(formData), old(currentStep)) ==> sent.None?
      ensures StepValid(old(formData), old(currentStep)) ==> sent == Some(Payload(old(formData)))
      ensures StepValid(old(formData), old(currentStep)) && reply.Ok? ==>
        formData == InitialForm() && currentStep == 1
      ensures !(StepValid(old(formData), old(currentStep)) && reply.Ok?) ==>
        formData == old(formData) && currentStep == old(currentStep)
    {
      var ok := ValidateCurrentStep();
      if !ok {
        return None;
      }
      var payload := BuildPayload();
      sent := Some(payload);
      if reply.Ok? {
        formData := InitialForm();
        currentStep := 1;
      }
    }
  }
}
