/** The patient create page: seven controls, a payload that sends the blank
    optional fields as `null` and the hospital selection through `parseInt`,
    an `isLoading` flag that disables the submit button while the POST is in
    flight, a form reset on success and the pipe-flattened error body on
    failure. */
module CreatePatient {
  import opened Js
  import opened Http
  import ErrorText

  datatype Form = Form(
    firstName: string, lastName: string, gender: string, dateOfBirth: string,
    phoneNumber: string, email: string, hospital: string)

  const Blank: Form := Form("", "", "", "", "", "", "")

  datatype State = State(form: Form, isLoading: bool)

  const Init: State := State(Blank, false)

  const CreateUrl: string := Api + "/api/patient/create/"
  const FailureText: string := "Failed to create patient. Please try again."

  /** The non-empty options of the gender selector. */
  const GenderOptions: seq<string> := ["male", "female"]

  /** The controls marked `required`: both names, the gender selector (whose
      only non-empty options are `male` and `female`) and the hospital
      selector. */
  predicate RequiredFilled(f: Form) {
    f.firstName != "" && f.lastName != "" && f.gender in GenderOptions && f.hospital != ""
  }

  function Payload(f: Form): Obj {
    [ ("first_name", Str(f.firstName)),
      ("last_name", Str(f.lastName)),
      ("gender", Str(f.gender)),
      ("date_of_birth", BlankToNull(f.dateOfBirth)),
      ("phone_number", BlankToNull(f.phoneNumber)),
      ("email", BlankToNull(f.email)),
      ("hospital", ParseInt(Str(f.hospital))) ]
  }

  /** `handleSubmit`: sets `isLoading`, then one POST of the payload. The
      button is disabled while `isLoading`, so a second submit cannot start
      before the first settles. */
  function Submit(st: State): (r: Step<State>)
    requires !st.isLoading && RequiredFilled(st.form)
    ensures r.state.isLoading && r.state.form == st.form
    ensures |r.effects| == 1 && r.effects[0].Request? && r.effects[0].verb == POST
    ensures r.effects[0].url == CreateUrl && r.effects[0].data == Payload(st.form)
  {
    Step(st.(isLoading := true), [Request(POST, CreateUrl, None, Payload(st.form))])
  }

  /** The settled POST. Success toasts, clears all seven controls and
      schedules the navigation to the patient list; failure toasts the
      flattened object body or the fixed text and keeps what was typed;
      `finally` clears `isLoading` in both cases. */
  function OnCreated(st: State, reply: Reply<()>): (r: Step<State>)
    ensures !r.state.isLoading
    ensures reply.Ok? ==> r.state.form == Blank && Navigate("/patient") in r.effects
    ensures reply.Failed? ==> r.state.form == st.form
    ensures reply.Failed? ==> r.effects == [Toast(ErrorToast, ErrorText.PipeMessage(reply.response, FailureText))]
    ensures NoRequest(r.effects)
  {
    match reply
    case Ok(_) =>
      Step(State(Blank, false), [Toast(SuccessToast, "Patient Created Successfully! \U{1F389}"), Navigate("/patient")])
    case Failed(response) =>
      Step(st.(isLoading := false), [Toast(ErrorToast, ErrorText.PipeMessage(response, FailureText))])
  }

  /** One submit and its reply: the button is disabled exactly while the
      POST is in flight, and a failure hands the form back unchanged. */
  lemma SubmitThenSettle(st: State, reply: Reply<()>)
    requires !st.isLoading && RequiredFilled(st.form)
    ensures Submit(st).state.isLoading
    ensures !OnCreated(Submit(st).state, reply).state.isLoading
    ensures reply.Failed? ==> OnCreated(Submit(st).state, reply).state == st
    ensures reply.Ok? ==> OnCreated(Submit(st).state, reply).state == Init
  {
  }

  /** Each payload key finds the value the payload builds for it. */
  lemma PayloadLookups(f: Form)
    ensures Lookup(Payload(f), "first_name") == Some(Str(f.firstName))
    ensures Lookup(Payload(f), "last_name") == Some(Str(f.lastName))
    ensures Lookup(Payload(f), "gender") == Some(Str(f.gender))
    ensures Lookup(Payload(f), "date_of_birth") == Some(BlankToNull(f.dateOfBirth))
    ensures Lookup(Payload(f), "phone_number") == Some(BlankToNull(f.phoneNumber))
    ensures Lookup(Payload(f), "email") == Some(BlankToNull(f.email))
    ensures Lookup(Payload(f), "hospital") == Some(ParseInt(Str(f.hospital)))
  {
    var p := Payload(f);
    LookupAt(p, 0, "first_name");
    LookupAt(p, 1, "last_name");
    LookupAt(p, 2, "gender");
    LookupAt(p, 3, "date_of_birth");
    LookupAt(p, 4, "phone_number");
    LookupAt(p, 5, "email");
    LookupAt(p, 6, "hospital");
  }

  /** Blank optional fields go out as `null` and filled ones unchanged;
      names and gender go out as typed. */
  lemma PayloadTexts(f: Form)
    ensures Lookup(Payload(f), "first_name") == Some(Str(f.firstName))
    ensures Lookup(Payload(f), "last_name") == Some(Str(f.lastName))
    ensures Lookup(Payload(f), "gender") == Some(Str(f.gender))
    ensures Lookup(Payload(f), "date_of_birth") == Some(Null) <==> f.dateOfBirth == ""
    ensures Lookup(Payload(f), "phone_number") == Some(Null) <==> f.phoneNumber == ""
    ensures Lookup(Payload(f), "email") == Some(Null) <==> f.email == ""
    ensures f.email != "" ==> Lookup(Payload(f), "email") == Some(Str(f.email))
    ensures f.phoneNumber != "" ==> Lookup(Payload(f), "phone_number") == Some(Str(f.phoneNumber))
    ensures f.dateOfBirth != "" ==> Lookup(Payload(f), "date_of_birth") == Some(Str(f.dateOfBirth))
  {
    PayloadLookups(f);
  }

  /** The hospital selection holds the hospital id's decimal text, and the id
      goes out as a number. */
  lemma PayloadHospital(f: Form, hospital: int)
    requires f.hospital == IntToString(hospital)
    ensures Lookup(Payload(f), "hospital") == Some(Num(hospital))
  {
    PayloadLookups(f);
    ParseIntOfToString(hospital);
  }

  /** Reading the payload back into the controls gives the submitted form:
      `null` shows as a blank control, so no typed value is lost and none is
      invented. */
  lemma PayloadReloads(f: Form, hospital: int)
    requires f.hospital == IntToString(hospital)
    ensures var p := Payload(f);
      Form(ControlText(p[0].1), ControlText(p[1].1), ControlText(p[2].1), ControlText(p[3].1),
           ControlText(p[4].1), ControlText(p[5].1), ControlText(p[6].1)) == f
  {
    ParseIntOfToString(hospital);
  }
}
