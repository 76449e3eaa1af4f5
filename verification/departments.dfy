/** What the department create and update pages share: a name control, a
    hospital selector filled from the hospital list, and a request body that
    sends both values as the controls hold them. */
module DepartmentForms {
  import opened Js
  import opened Http
  import ErrorText

  datatype Form = Form(departmentName: Value, hospital: Value)

  const Blank: Form := Form(Str(""), Str(""))

  /** One entry of the hospital list: the fields the selector reads. */
  datatype Hospital = Hospital(id: Value, hospitalName: Value)

  const HospitalsUrl: string := Api + "/api/hospitals/"

  /** The selector's option values: the empty placeholder, then each
      hospital's id as the text an `option` value attribute holds. */
  function Options(hospitals: seq<Hospital>): (r: seq<string>)
    ensures |r| == |hospitals| + 1 && r[0] == ""
    ensures forall i :: 0 <= i < |hospitals| ==> r[i + 1] == ToString(hospitals[i].id)
  {
    [""] + seq(|hospitals|, i requires 0 <= i < |hospitals| => ToString(hospitals[i].id))
  }

  /** Picking option `i` of the selector: the control holds that option's
      value, always text. */
  function SelectHospital(f: Form, hospitals: seq<Hospital>, i: nat): (r: Form)
    requires i <= |hospitals|
    ensures r.departmentName == f.departmentName
    ensures i == 0 ==> r.hospital == Str("")
    ensures i > 0 ==> r.hospital == Str(ToString(hospitals[i - 1].id))
  {
    f.(hospital := Str(Options(hospitals)[i]))
  }

  /** What both department pages hold: the controls and the hospital list
      behind the selector. */
  datatype PageState = PageState(form: Form, hospitals: seq<Hospital>)

  const Init: PageState := PageState(Blank, [])

  /** The settled list fetch: the list replaces the options; a failure is
      only logged. The controls are untouched either way. */
  function OnHospitals(st: PageState, reply: Reply<seq<Hospital>>): (r: PageState)
    ensures r.form == st.form
    ensures reply.Ok? ==> r.hospitals == reply.value
    ensures reply.Failed? ==> r == st
  {
    match reply
    case Ok(list) => st.(hospitals := list)
    case Failed(_) => st
  }

  /** Both controls are marked `required`. */
  predicate RequiredFilled(f: Form) {
    Filled(f.departmentName) && Filled(f.hospital)
  }

  /** The request body: both controls as they are; the hospital is not
      converted to a number. */
  function Payload(f: Form): Obj {
    [("department_name", f.departmentName), ("hospital", f.hospital)]
  }

  /** How the server's body maps back onto the controls. */
  function FormOf(o: Obj): Form {
    Form(Read(o, "department_name"), Read(o, "hospital"))
  }

  /** Reading the body back by the server's keys gives the controls that
      were sent. */
  lemma PayloadRoundTrip(f: Form)
    ensures FormOf(Payload(f)) == f
  {
    var p := Payload(f);
    LookupAt(p, 0, "department_name");
    LookupAt(p, 1, "hospital");
  }

  /** A hospital picked from the selector goes out as the text of its id,
      which parses back to the id. */
  lemma SelectedHospitalIsText(f: Form, hospitals: seq<Hospital>, i: nat)
    requires 0 < i <= |hospitals| && hospitals[i - 1].id.Num?
    ensures Read(Payload(SelectHospital(f, hospitals, i)), "hospital") == Str(IntToString(hospitals[i - 1].id.n))
    ensures ParseInt(Read(Payload(SelectHospital(f, hospitals, i)), "hospital")) == hospitals[i - 1].id
  {
    var n := hospitals[i - 1].id.n;
    var g := SelectHospital(f, hospitals, i);
    assert g.hospital == Str(IntToString(n));
    PayloadRoundTrip(g);
    assert Read(Payload(g), "hospital") == g.hospital;
    ParseIntOfToString(n);
  }

  /** The failure toast: a fixed prefix, then the HTTP status or
      `Unknown error`. */
  function StatusMessage(prefix: string, response: Option<Response>): (r: string)
    ensures |r| > |prefix| && r[..|prefix|] == prefix
    ensures response.Some? && response.value.status != 0 ==> ParseInt(Str(r[|prefix|..])) == Num(response.value.status)
    ensures (response.None? || response.value.status == 0) <==> r[|prefix|..] == "Unknown error"
  {
    var s := ErrorText.StatusText(response);
    NonEmptyStatus(response);
    assert (prefix + s)[|prefix|..] == s;
    prefix + s
  }

  lemma NonEmptyStatus(response: Option<Response>)
    ensures |ErrorText.StatusText(response)| > 0
  {
    if response.Some? && response.value.status != 0 {
      NatToStringDigits(response.value.status);
    }
  }
}

/** The department create page: the hospital list fills the selector, one
    POST sends the controls, success clears them. */
module CreateDepartment {
  import opened Js
  import opened Http
  import opened DepartmentForms

  const CreateUrl: string := Api + "/api/departments/create/"
  const FailurePrefix: string := "Failed to create department: "

  /** The mount effect: the hospital list, fetched without a token. */
  function Mount(): (r: seq<Effect>)
    ensures |r| == 1 && r[0].Request? && r[0].verb == GET && r[0].url == HospitalsUrl && r[0].authorization.None?
  {
    [Request(GET, HospitalsUrl, None, [])]
  }

  /** `handleSubmit`: one POST of the controls, without a token. */
  function Submit(st: PageState): (r: Step<PageState>)
    requires RequiredFilled(st.form)
    ensures r.state == st
    ensures |r.effects| == 1 && r.effects[0].Request? && r.effects[0].verb == POST
    ensures r.effects[0].url == CreateUrl && r.effects[0].authorization.None?
    ensures FormOf(r.effects[0].data) == st.form
  {
    PayloadRoundTrip(st.form);
    Step(st, [Request(POST, CreateUrl, None, Payload(st.form))])
  }

  /** The settled POST. Success toasts, clears both controls and schedules
      the navigation to the department list; failure toasts the status and
      keeps the controls. The hospital list survives both. */
  function OnCreated(st: PageState, reply: Reply<()>): (r: Step<PageState>)
    ensures r.state.hospitals == st.hospitals && NoRequest(r.effects)
    ensures reply.Ok? ==> r.state.form == Blank && Navigate("/departments") in r.effects
    ensures reply.Failed? ==> r.state == st && NoNavigation(r.effects)
    ensures reply.Failed? ==> r.effects == [Toast(ErrorToast, StatusMessage(FailurePrefix, reply.response))]
  {
    match reply
    case Ok(_) =>
      Step(st.(form := Blank),
           [Toast(SuccessToast, "Department Created Successfully! \U{00F0}\U{0178}\U{017D}\U{2030}"), Navigate("/departments")])
    case Failed(response) =>
      Step(st, [Toast(ErrorToast, StatusMessage(FailurePrefix, response))])
  }

  /** After a successful create the blank controls fail the `required`
      check, so the same department cannot be sent twice by resubmitting. */
  lemma CreatedFormCannotResubmit(st: PageState, reply: Reply<()>)
    requires reply.Ok?
    ensures !RequiredFilled(OnCreated(st, reply).state.form)
  {
  }
}

/** The department update page: the record and the hospital list are fetched
    independently; the record prefills both controls without a fallback; the
    PUT sends them back. */
module UpdateDepartment {
  import opened Js
  import opened Http
  import opened DepartmentForms

  /** The department record as the server returns it. */
  datatype Record = Record(departmentName: Value, hospital: Value)

  const FailurePrefix: string := "Failed to update department: "

  /** The record URL, without a trailing slash. */
  function RecordUrl(id: string): string {
    Api + "/api/departments/" + id
  }

  function UpdateUrl(id: string): string {
    Api + "/api/departments/" + id + "/update/"
  }

  /** The mount effects: the record and the hospital list, both without a
      token, neither waiting for the other. */
  function Mount(id: string): (r: seq<Effect>)
    ensures |r| == 2 && forall e | e in r :: e.Request? && e.verb == GET && e.authorization.None?
    ensures r[0].url == RecordUrl(id) && r[1].url == HospitalsUrl
  {
    [Request(GET, RecordUrl(id), None, []), Request(GET, HospitalsUrl, None, [])]
  }

  /** The settled record fetch: both controls take the record's values as
      they are, a missing one included; a failure is only logged. */
  function OnRecord(st: PageState, reply: Reply<Record>): (r: PageState)
    ensures r.hospitals == st.hospitals
    ensures reply.Ok? ==> r.form.departmentName == reply.value.departmentName && r.form.hospital == reply.value.hospital
    ensures reply.Failed? ==> r == st
  {
    match reply
    case Ok(rec) => st.(form := Form(rec.departmentName, rec.hospital))
    case Failed(_) => st
  }

  /** The two fetches touch disjoint parts of the state, so the page ends in
      the same state whichever settles first, and a failure of one leaves
      the other's result in place. */
  lemma FetchesCommute(st: PageState, record: Reply<Record>, list: Reply<seq<Hospital>>)
    ensures OnHospitals(OnRecord(st, record), list) == OnRecord(OnHospitals(st, list), record)
    ensures record.Failed? ==> OnHospitals(OnRecord(st, record), list).form == st.form
    ensures list.Failed? ==> OnRecord(OnHospitals(st, list), record).hospitals == st.hospitals
  {
  }

  /** `handleSubmit`: one PUT of the controls, without a token. */
  function Submit(id: string, st: PageState): (r: Step<PageState>)
    requires RequiredFilled(st.form)
    ensures r.state == st
    ensures |r.effects| == 1 && r.effects[0].Request? && r.effects[0].verb == PUT
    ensures r.effects[0].url == UpdateUrl(id) && r.effects[0].authorization.None?
    ensures FormOf(r.effects[0].data) == st.form
  {
    PayloadRoundTrip(st.form);
    Step(st, [Request(PUT, UpdateUrl(id), None, Payload(st.form))])
  }

  /** The settled PUT: success toasts and schedules the navigation to the
      department list; failure toasts the status and navigates nowhere. */
  function OnUpdated(st: PageState, reply: Reply<()>): (r: Step<PageState>)
    ensures r.state == st && NoRequest(r.effects)
    ensures reply.Ok? ==> Navigate("/departments") in r.effects
    ensures reply.Failed? ==> NoNavigation(r.effects)
    ensures reply.Failed? ==> r.effects == [Toast(ErrorToast, StatusMessage(FailurePrefix, reply.response))]
  {
    match reply
    case Ok(_) => Step(st, [Toast(SuccessToast, "Department Updated Successfully! \U{1F389}"), Navigate("/departments")])
    case Failed(response) => Step(st, [Toast(ErrorToast, StatusMessage(FailurePrefix, response))])
  }

  /** Loading a record and submitting it unedited sends back exactly what
      was loaded: the hospital keeps its type (a number stays a number),
      and nothing is filled in for a missing value. */
  lemma PrefillThenSubmit(id: string, st: PageState, rec: Record)
    requires RequiredFilled(OnRecord(st, Ok(rec)).form)
    ensures FormOf(Submit(id, OnRecord(st, Ok(rec))).effects[0].data) == Form(rec.departmentName, rec.hospital)
    ensures Submit(id, OnRecord(st, Ok(rec))).effects[0].data == [("department_name", rec.departmentName), ("hospital", rec.hospital)]
  {
  }

  /** With no fallback, a record missing its name leaves the name control
      empty, and the `required` check then blocks the submit. */
  lemma MissingNameBlocksSubmit(st: PageState, rec: Record)
    requires rec.departmentName in {Null, Undefined, Str("")}
    ensures !RequiredFilled(OnRecord(st, Ok(rec)).form)
  {
  }
}
