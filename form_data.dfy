/** The form state shared by the two onboarding forms: a dictionary from field
    name to value, where a value is text, null, undefined or an uploaded file
    (known by its name), and the required-field test both forms apply. A key
    missing from the dictionary reads as undefined. */
module FormData {
  import opened Common

  datatype FieldValue = Str(text: string) | Null | Undefined | FileVal(name: string)

  type Form = map<string, FieldValue>

  /** `formData[key]`. */
  function Get(form: Form, key: string): FieldValue
  {
    if key in form then form[key] else Undefined
  }

  /** The required-field test: a file must have a name; any other value must be
      neither '', null nor undefined. */
  predicate Present(v: FieldValue)
  {
    match v
    case Str(t) => t != ""
    case FileVal(n) => n != ""
    case Null => false
    case Undefined => false
  }

  /** Every field in `fields` is present in `form`. */
  predicate AllPresent(form: Form, fields: seq<string>)
  {
    forall i :: 0 <= i < |fields| ==> Present(Get(form, fields[i]))
  }

  /** A change event's target: its name ("" when it has none), its value, whether
      it is a file input, and the names of its selected files (None when the
      target carries no file list). */
  datatype ChangeEvent = ChangeEvent(name: string, value: FieldValue, isFile: bool, files: Option<seq<string>>)

  /** `files[0]` of a file list: the first file, undefined when the list is empty. */
  function FirstFile(files: seq<string>): (r: FieldValue)
    ensures files != [] ==> r == FileVal(files[0])
    ensures files == [] ==> r == Undefined
  {
    if files == [] then Undefined else FileVal(files[0])
  }

  /** `type === 'file' && files ? files[0] : fallback`. */
  function EventValue(e: ChangeEvent, fallback: FieldValue): (r: FieldValue)
    ensures e.isFile && e.files.Some? ==> r == FirstFile(e.files.value)
    ensures !(e.isFile && e.files.Some?) ==> r == fallback
  {
    if e.isFile && e.files.Some? then FirstFile(e.files.value) else fallback
  }

  /** Setting one field leaves the presence of every other field as it was. */
  lemma SetFieldKeepsOthers(form: Form, name: string, v: FieldValue, fields: seq<string>)
    requires forall i :: 0 <= i < |fields| ==> fields[i] != name
    ensures AllPresent(form[name := v], fields) <==> AllPresent(form, fields)
  {
    assert forall i :: 0 <= i < |fields| ==> Get(form[name := v], fields[i]) == Get(form, fields[i]);
  }
}
