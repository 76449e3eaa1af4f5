/** The employee create page: seven text controls, a payload that sends the
    hospital selection as typed text but the job and department selections
    through `parseInt`, blank optional fields as `null`, a form reset and a
    delayed navigation on success, and one fixed message on any failure. */
module CreateEmployee {
  import opened Js
  import opened Http

  datatype Form = Form(
    firstName: string, lastName: string, specialty: string, licenseNumber: string,
    hospital: string, job: string, department: string)

  const Blank: Form := Form("", "", "", "", "", "", "")

  const CreateUrl: string := Api + "/api/employees/create/"
  const FailureText: string := "Failed to create employee. Please try again."

  /** The controls marked `required`: both names and the three selectors. */
  predicate RequiredFilled(f: Form) {
    f.firstName != "" && f.lastName != "" && f.hospital != "" && f.job != "" && f.department != ""
  }

  function Payload(f: Form): Obj {
    [ ("first_name", Str(f.firstName)),
      ("last_name", Str(f.lastName)),
      ("hospital", Str(f.hospital)),
      ("specialty", BlankToNull(f.specialty)),
      ("license_number", BlankToNull(f.licenseNumber)),
      ("job", ParseInt(Str(f.job))),
      ("department", ParseInt(Str(f.department))) ]
  }

  /** `handleSubmit`: one POST of the payload; the form is untouched until
      the reply arrives. */
  function Submit(f: Form): (r: Step<Form>)
    requires RequiredFilled(f)
    ensures r.state == f
    ensures |r.effects| == 1 && r.effects[0].Request? && r.effects[0].verb == POST && r.effects[0].url == CreateUrl
    ensures r.effects[0].data == Payload(f)
  {
    Step(f, [Request(POST, CreateUrl, None, Payload(f))])
  }

  /** The settled POST: success clears every control and schedules the
      navigation to the employee list; any failure shows the fixed text and
      keeps what was typed. */
  function OnCreated(f: Form, reply: Reply<()>): (r: Step<Form>)
    ensures reply.Ok? ==> r.state == Blank && Navigate("/employee") in r.effects
    ensures reply.Failed? ==> r.state == f && r.effects == [Toast(ErrorToast, FailureText)]
    ensures NoRequest(r.effects)
  {
    match reply
    case Ok(_) => Step(Blank, [Toast(SuccessToast, "Employee Created Successfully! \U{1F389}"), Navigate("/employee")])
    case Failed(_) => Step(f, [Toast(ErrorToast, FailureText)])
  }

  /** The selections hold the option values, which are the ids' decimal
      text: the hospital id goes out as that text, the job and department
      ids as numbers. */
  lemma PayloadIds(f: Form, job: int, department: int)
    requires f.job == IntToString(job) && f.department == IntToString(department)
    ensures Lookup(Payload(f), "hospital") == Some(Str(f.hospital))
    ensures Lookup(Payload(f), "job") == Some(Num(job))
    ensures Lookup(Payload(f), "department") == Some(Num(department))
  {
    PayloadLookups(f);
    ParsedSelection(f.job, job);
    ParsedSelection(f.department, department);
  }

  /** Each payload key finds the value the payload builds for it. */
  lemma PayloadLookups(f: Form)
    ensures Lookup(Payload(f), "first_name") == Some(Str(f.firstName))
    ensures Lookup(Payload(f), "last_name") == Some(Str(f.lastName))
    ensures Lookup(Payload(f), "hospital") == Some(Str(f.hospital))
    ensures Lookup(Payload(f), "specialty") == Some(BlankToNull(f.specialty))
    ensures Lookup(Payload(f), "license_number") == Some(BlankToNull(f.licenseNumber))
    ensures Lookup(Payload(f), "job") == Some(ParseInt(Str(f.job)))
    ensures Lookup(Payload(f), "department") == Some(ParseInt(Str(f.department)))
  {
    LookupPayloadKeys(Payload(f));
  }

  /** A selection holding an id's decimal text is sent as that id. */
  lemma ParsedSelection(text: string, id: int)
    requires text == IntToString(id)
    ensures ParseInt(Str(text)) == Num(id)
  {
    ParseIntOfToString(id);
  }

  /** Each key of an object laid out as the payload finds its own entry. */
  lemma LookupPayloadKeys(p: Obj)
    requires |p| == 7
    requires p[0].0 == "first_name" && p[1].0 == "last_name" && p[2].0 == "hospital"
    requires p[3].0 == "specialty" && p[4].0 == "license_number" && p[5].0 == "job" && p[6].0 == "department"
    ensures Lookup(p, "first_name") == Some(p[0].1) && Lookup(p, "last_name") == Some(p[1].1)
    ensures Lookup(p, "hospital") == Some(p[2].1) && Lookup(p, "specialty") == Some(p[3].1)
    ensures Lookup(p, "license_number") == Some(p[4].1) && Lookup(p, "job") == Some(p[5].1)
    ensures Lookup(p, "department") == Some(p[6].1)
  {
    LookupAt(p, 0, "first_name");
    LookupAt(p, 1, "last_name");
    LookupAt(p, 2, "hospital");
    LookupAt(p, 3, "specialty");
    LookupAt(p, 4, "license_number");
    LookupAt(p, 5, "job");
    LookupAt(p, 6, "department");
  }


  /** Blank optional fields go out as `null`, filled ones unchanged, and
      both names exactly as typed. */
  lemma PayloadTexts(f: Form)
    ensures Lookup(Payload(f), "first_name") == Some(Str(f.firstName))
    ensures Lookup(Payload(f), "last_name") == Some(Str(f.lastName))
    ensures Lookup(Payload(f), "specialty") == Some(if f.specialty == "" then Null else Str(f.specialty))
    ensures Lookup(Payload(f), "license_number") == Some(if f.licenseNumber == "" then Null else Str(f.licenseNumber))
  {
    PayloadLookups(f);
  }

  /** Reading the payload back as control texts gives the submitted form:
      no typed value is lost on the way out. */
  lemma PayloadReloads(f: Form, job: int, department: int)
    requires f.job == IntToString(job) && f.department == IntToString(department)
    ensures var p := Payload(f);
      Form(ControlText(p[0].1), ControlText(p[1].1), ControlText(p[3].1), ControlText(p[4].1),
           ControlText(p[2].1), ControlText(p[5].1), ControlText(p[6].1)) == f
  {
    ParseIntOfToString(job);
    ParseIntOfToString(department);
  }
}

/** The employee update page: the record prefills every control with a `''`
    fallback, the payload sends all three selections through `parseInt`,
    blank optional fields go out as `null`, a failure with an object body is
    flattened with `" | "`, and the form is hidden while `isLoading`. */
module UpdateEmployee {
  import opened Js
  import opened Http
  import ErrorText

  datatype Form = Form(
    firstName: Value, lastName: Value, specialty: Value, licenseNumber: Value,
    hospital: Value, job: Value, department: Value)

  const Blank: Form := Form(Str(""), Str(""), Str(""), Str(""), Str(""), Str(""), Str(""))

  datatype State = State(id: string, form: Form, isLoading: bool)

  function Init(id: string): State {
    State(id, Blank, false)
  }

  /** The employee record as the server returns it. */
  datatype Record = Record(
    firstName: Value, lastName: Value, specialty: Value, licenseNumber: Value,
    hospital: Value, job: Value, department: Value)

  const FailureText: string := "Failed to update employee. Please try again."

  function UpdateUrl(id: string): string {
    Api + "/api/employees/" + id + "/update/"
  }

  /** On mount `isLoading` is set and the three selector lists and the
      record are fetched together. */
  function Mount(st: State): (r: Step<State>)
    ensures r.state == st.(isLoading := true)
    ensures |r.effects| == 4 && forall e | e in r.effects :: e.Request? && e.verb == GET
  {
    Step(st.(isLoading := true), [
      Request(GET, Api + "/api/departments/", None, []),
      Request(GET, Api + "/api/hospitals/", None, []),
      Request(GET, Api + "/api/jobtypes/", None, []),
      Request(GET, Api + "/api/employees/" + st.id, None, [])])
  }

  /** `setX(data.x || '')` for each of the seven fields. */
  function Prefill(rec: Record): (f: Form)
    ensures PrefilledFrom(f.firstName, rec.firstName) && PrefilledFrom(f.lastName, rec.lastName)
    ensures PrefilledFrom(f.specialty, rec.specialty) && PrefilledFrom(f.licenseNumber, rec.licenseNumber)
    ensures PrefilledFrom(f.hospital, rec.hospital) && PrefilledFrom(f.job, rec.job)
    ensures PrefilledFrom(f.department, rec.department)
  {
    Form(Or(rec.firstName, Str("")), Or(rec.lastName, Str("")), Or(rec.specialty, Str("")),
         Or(rec.licenseNumber, Str("")), Or(rec.hospital, Str("")), Or(rec.job, Str("")),
         Or(rec.department, Str("")))
  }

  /** The settled `Promise.all`: the record prefills the form; a failure of
      any of the four fetches is only logged; `finally` clears `isLoading`. */
  function OnLoaded(st: State, reply: Reply<Record>): (r: State)
    ensures !r.isLoading && r.id == st.id
    ensures reply.Ok? ==> r.form == Prefill(reply.value)
    ensures reply.Failed? ==> r.form == st.form
  {
    match reply
    case Ok(rec) => st.(form := Prefill(rec), isLoading := false)
    case Failed(_) => st.(isLoading := false)
  }

  function Payload(f: Form): Obj {
    [ ("first_name", f.firstName),
      ("last_name", f.lastName),
      ("hospital", ParseInt(f.hospital)),
      ("specialty", Or(f.specialty, Null)),
      ("license_number", Or(f.licenseNumber, Null)),
      ("job", ParseInt(f.job)),
      ("department", ParseInt(f.department)) ]
  }

  /** The controls marked `required`: both names and the three selectors. */
  predicate RequiredFilled(f: Form) {
    Filled(f.firstName) && Filled(f.lastName) && Filled(f.hospital) && Filled(f.job) && Filled(f.department)
  }

  /** `handleSubmit`: sets `isLoading` and issues one PUT. The form is not
      rendered while loading, so it cannot be submitted then. */
  function Submit(st: State): (r: Step<State>)
    requires !st.isLoading && RequiredFilled(st.form)
    ensures r.state == st.(isLoading := true)
    ensures r.effects == [Request(PUT, UpdateUrl(st.id), None, Payload(st.form))]
  {
    Step(st.(isLoading := true), [Request(PUT, UpdateUrl(st.id), None, Payload(st.form))])
  }

  /** The settled PUT: success toasts and schedules the navigation to the
      employee list; failure toasts the pipe-flattened body or the fixed
      text; `finally` clears `isLoading` either way. */
  function OnUpdated(st: State, reply: Reply<()>): (r: Step<State>)
    ensures r.state == st.(isLoading := false)
    ensures reply.Ok? ==> Navigate("/employee") in r.effects
    ensures reply.Failed? ==> r.effects == [Toast(ErrorToast, ErrorText.PipeMessage(reply.response, FailureText))]
    ensures NoRequest(r.effects)
  {
    match reply
    case Ok(_) =>
      Step(st.(isLoading := false), [Toast(SuccessToast, "Employee Updated Successfully! \U{1F389}"), Navigate("/employee")])
    case Failed(response) =>
      Step(st.(isLoading := false), [Toast(ErrorToast, ErrorText.PipeMessage(response, FailureText))])
  }

  datatype View = LoadingText | EditForm(form: Form)

  /** `isLoading ? Loading... : <form>` */
  function ViewOf(st: State): (v: View)
    ensures v.EditForm? <==> !st.isLoading
  {
    if st.isLoading then LoadingText else EditForm(st.form)
  }

  /** While a submit is in flight the form is hidden, and it is shown again
      after the reply whatever the outcome. */
  lemma SubmitHidesFormUntilReply(st: State, reply: Reply<()>)
    requires !st.isLoading && RequiredFilled(st.form)
    ensures ViewOf(Submit(st).state) == LoadingText
    ensures ViewOf(OnUpdated(Submit(st).state, reply).state) == EditForm(st.form)
  {
  }

  /** A record in the shape the server stores: names as text, the three
      foreign keys as non-zero ids, optional texts either `null` or filled. */
  predicate StoredShape(rec: Record) {
    && rec.firstName.Str? && rec.lastName.Str?
    && rec.hospital.Num? && rec.hospital.n != 0
    && rec.job.Num? && rec.job.n != 0
    && rec.department.Num? && rec.department.n != 0
    && (rec.specialty.Null? || (rec.specialty.Str? && rec.specialty.s != ""))
    && (rec.licenseNumber.Null? || (rec.licenseNumber.Str? && rec.licenseNumber.s != ""))
  }

  /** The record as a payload object, in the page's key order. */
  function RecordObj(rec: Record): Obj {
    [ ("first_name", rec.firstName), ("last_name", rec.lastName), ("hospital", rec.hospital),
      ("specialty", rec.specialty), ("license_number", rec.licenseNumber), ("job", rec.job),
      ("department", rec.department) ]
  }

  /** Loading a stored record and submitting it unedited sends the record
      back unchanged: the `''` fallbacks, `parseInt` and `|| null` undo each
      other. */
  lemma PrefillThenSubmitRoundTrip(rec: Record)
    requires StoredShape(rec)
    ensures Payload(Prefill(rec)) == RecordObj(rec)
  {
    var f := Prefill(rec);
    PayloadEntries(f);
    PrefilledIdRoundTrip(rec.hospital);
    PrefilledIdRoundTrip(rec.job);
    PrefilledIdRoundTrip(rec.department);
    PrefilledOptionalRoundTrip(rec.specialty);
    PrefilledOptionalRoundTrip(rec.licenseNumber);
  }

  /** The names go out as they are, the three selections through
      `parseInt`, and a blank specialty or licence number as `null`, a
      filled one unchanged. */
  lemma PayloadTexts(f: Form)
    ensures Lookup(Payload(f), "first_name") == Some(f.firstName)
    ensures Lookup(Payload(f), "last_name") == Some(f.lastName)
    ensures Lookup(Payload(f), "hospital") == Some(ParseInt(f.hospital))
    ensures Lookup(Payload(f), "job") == Some(ParseInt(f.job))
    ensures Lookup(Payload(f), "department") == Some(ParseInt(f.department))
    ensures Lookup(Payload(f), "specialty") == Some(Null) <==> !Truthy(f.specialty)
    ensures Lookup(Payload(f), "license_number") == Some(Null) <==> !Truthy(f.licenseNumber)
    ensures Truthy(f.specialty) ==> Lookup(Payload(f), "specialty") == Some(f.specialty)
    ensures Truthy(f.licenseNumber) ==> Lookup(Payload(f), "license_number") == Some(f.licenseNumber)
  {
    var p := Payload(f);
    PayloadEntries(f);
    LookupAt(p, 0, "first_name");
    LookupAt(p, 1, "last_name");
    LookupAt(p, 2, "hospital");
    LookupAt(p, 3, "specialty");
    LookupAt(p, 4, "license_number");
    LookupAt(p, 5, "job");
    LookupAt(p, 6, "department");
  }

  /** The payload's entries, one by one. */
  lemma PayloadEntries(f: Form)
    ensures Payload(f) == [("first_name", f.firstName), ("last_name", f.lastName), ("hospital", ParseInt(f.hospital)),
      ("specialty", Or(f.specialty, Null)), ("license_number", Or(f.licenseNumber, Null)), ("job", ParseInt(f.job)),
      ("department", ParseInt(f.department))]
  {
  }
}
