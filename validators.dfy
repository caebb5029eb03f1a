// src/lib/validators.ts: the VisitorIntakeFormSchema object schema, read as
// a parser from raw field values to the typed intake form.

module Validators {
  import opened Wrappers
  import opened Types

  /** The fields as submitted; None is an absent (undefined) field. */
  datatype RawIntakeForm = RawIntakeForm(
    name: Option<string>,
    budget: Option<string>,
    timeline: Option<string>,
    mustHave: Option<string>,
    status: Option<string>)

  /** `VisitorIntakeForm`, the type the schema infers. */
  datatype IntakeForm = IntakeForm(
    name: string,
    budget: Option<string>,
    timeline: Option<string>,
    mustHave: Option<string>,
    status: Stage)

  const NameRequiredMessage := "Name is required."

  /** Why a field was refused: `name` absent, `name` shorter than one
      character (with the schema's own message), `status` absent, or
      `status` outside the enumeration. */
  datatype Issue = NameAbsent | NameTooShort(message: string) | StatusAbsent | StatusNotInEnum(received: string)

  function NameIssues(name: Option<string>): seq<Issue> {
    match name
    case None => [NameAbsent]
    case Some(n) => if |n| < 1 then [NameTooShort(NameRequiredMessage)] else []
  }

  function StatusIssues(status: Option<string>): seq<Issue> {
    match status
    case None => [StatusAbsent]
    case Some(s) => if StageNamed(s).None? then [StatusNotInEnum(s)] else []
  }

  /** `VisitorIntakeFormSchema.safeParse(raw)`: the typed form, or every issue found. */
  function Parse(raw: RawIntakeForm): (r: Result<IntakeForm, seq<Issue>>)
    ensures r.Ok? <==> raw.name.Some? && raw.name.value != "" && raw.status.Some? && StageNamed(raw.status.value).Some?
    ensures r.Ok? ==> r.value.name == raw.name.value && r.value.status.Name() == raw.status.value
    ensures r.Ok? ==> r.value.budget == raw.budget && r.value.timeline == raw.timeline && r.value.mustHave == raw.mustHave
    ensures raw.name == Some("") ==> r.Err? && NameTooShort(NameRequiredMessage) in r.error
  {
    var issues := NameIssues(raw.name) + StatusIssues(raw.status);
    if issues != [] then Err(issues)
    else Ok(IntakeForm(raw.name.value, raw.budget, raw.timeline, raw.mustHave, StageNamed(raw.status.value).value))
  }

  /** The raw fields a typed form is made of. */
  function Raw(form: IntakeForm): RawIntakeForm {
    RawIntakeForm(Some(form.name), form.budget, form.timeline, form.mustHave, Some(form.status.Name()))
  }

  /** A typed form with a non-empty name passes the schema unchanged. */
  lemma ParseRaw(form: IntakeForm)
    requires form.name != ""
    ensures Parse(Raw(form)) == Ok(form)
  {
    assert StageNamed(form.status.Name()) == Some(form.status);
  }

  /** Whatever the schema accepts, it accepts as the form it was built from. */
  lemma RawParse(raw: RawIntakeForm)
    requires Parse(raw).Ok?
    ensures Raw(Parse(raw).value) == raw
  {
  }

  /** The optional fields never cause a refusal. */
  lemma OptionalFieldsFree(raw: RawIntakeForm, budget: Option<string>, timeline: Option<string>, mustHave: Option<string>)
    ensures Parse(raw).Ok? == Parse(raw.(budget := budget, timeline := timeline, mustHave := mustHave)).Ok?
  {
  }
}
