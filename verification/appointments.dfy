/** The appointment update page: the record prefills four selectors with a
    `''` fallback, the date through `formatDateForInput` and the status with
    a `'confirmed'` fallback; the PUT sends the six controls unchanged; a
    failure shows one fixed message. */
module UpdateAppointment {
  import opened Js
  import opened Http

  datatype Form = Form(
    patient: Value, doctor: Value, hospital: Value, department: Value,
    appointmentDate: Value, status: Value)

  /** Every control empty except the status, which starts as `confirmed`. */
  const Blank: Form := Form(Str(""), Str(""), Str(""), Str(""), Str(""), Str("confirmed"))

  /** The appointment record as the server returns it. */
  datatype Record = Record(
    patient: Value, doctor: Value, hospital: Value, department: Value,
    appointmentDate: Value, status: Value)

  /** One option of the status selector. */
  datatype Choice = Choice(value: string, caption: string)

  const StatusChoices: seq<Choice> := [
    Choice("confirmed", "Confirmed"),
    Choice("cancelled", "Cancelled"),
    Choice("completed", "Completed")]

  const FailureText: string := "Failed to update appointment. Please try again."

  function RecordUrl(id: string): string {
    Api + "/api/appointment/" + id
  }

  function UpdateUrl(id: string): string {
    Api + "/api/appointment/" + id + "/update/"
  }

  /** On mount the four selector lists and the record are fetched, each on
      its own. */
  function Mount(id: string): (r: Step<Form>)
    ensures r.state == Blank
    ensures |r.effects| == 5 && forall e | e in r.effects :: e.Request? && e.verb == GET
    ensures r.effects[4].url == RecordUrl(id)
  {
    Step(Blank, [
      Request(GET, Api + "/api/patient/", None, []),
      Request(GET, Api + "/api/hospitals/", None, []),
      Request(GET, Api + "/api/departments/", None, []),
      Request(GET, Api + "/api/doctors/", None, []),
      Request(GET, RecordUrl(id), None, [])])
  }

  /** `formatDateForInput`: `''` for a falsy date, otherwise the text with
      its first `Z` removed. A truthy value that is not text has no
      `replace` method, so the call throws; `None` stands for that throw. */
  function FormatDateForInput(isoDate: Value): (r: Option<string>)
    ensures !Truthy(isoDate) ==> r == Some("")
    ensures isoDate.Str? && isoDate.s != "" ==> r.Some? && multiset(r.value) == multiset(isoDate.s) - multiset{'Z'}
    ensures isoDate.Str? && 'Z' !in isoDate.s ==> r == Some(isoDate.s)
    ensures r.None? <==> Truthy(isoDate) && !isoDate.Str?
  {
    if !Truthy(isoDate) then Some("")
    else if isoDate.Str? then
      RemoveFirstMultiset(isoDate.s, 'Z');
      Some(RemoveFirst(isoDate.s, 'Z'))
    else None
  }

  /** A UTC timestamp `d` followed by `Z` becomes `d`, the value a
      `datetime-local` control accepts. */
  lemma FormatDateDropsZone(d: string)
    requires 'Z' !in d
    ensures FormatDateForInput(Str(d + "Z")) == Some(d)
  {
    RemoveFirstSplit(d, 'Z', "");
    assert d + ['Z'] + "" == d + "Z";
    assert d + "" == d;
  }

  /** Only the first `Z` is removed: one that follows it stays. */
  lemma FormatDateKeepsLaterZone(a: string, b: string)
    requires 'Z' !in a
    ensures FormatDateForInput(Str(a + "Z" + b)) == Some(a + b)
  {
    RemoveFirstSplit(a, 'Z', b);
    assert a + ['Z'] + b == a + "Z" + b;
  }

  /** The record's success handler: `x || ''` for the four selectors, the
      formatted date, and `status || 'confirmed'`. When the date throws, the
      four selectors are already set and the date and status keep their
      previous values; the failure is only logged. */
  function Prefill(f: Form, rec: Record): (r: Form)
    ensures PrefilledFrom(r.patient, rec.patient) && PrefilledFrom(r.doctor, rec.doctor)
    ensures PrefilledFrom(r.hospital, rec.hospital) && PrefilledFrom(r.department, rec.department)
    ensures FormatDateForInput(rec.appointmentDate).Some? ==>
      r.appointmentDate == Str(FormatDateForInput(rec.appointmentDate).value)
    ensures FormatDateForInput(rec.appointmentDate).Some? && Truthy(rec.status) ==> r.status == rec.status
    ensures FormatDateForInput(rec.appointmentDate).Some? && !Truthy(rec.status) ==> r.status == Str("confirmed")
    ensures FormatDateForInput(rec.appointmentDate).None? ==> r.appointmentDate == f.appointmentDate && r.status == f.status
  {
    var partial := f.(patient := Or(rec.patient, Str("")), doctor := Or(rec.doctor, Str("")),
                      hospital := Or(rec.hospital, Str("")), department := Or(rec.department, Str("")));
    match FormatDateForInput(rec.appointmentDate)
    case None => partial
    case Some(date) => partial.(appointmentDate := Str(date), status := Or(rec.status, Str("confirmed")))
  }

  /** The settled record fetch: a reply prefills, a failure is only logged. */
  function OnLoaded(f: Form, reply: Reply<Record>): (r: Form)
    ensures reply.Failed? ==> r == f
    ensures reply.Ok? ==> r == Prefill(f, reply.value)
  {
    match reply
    case Ok(rec) => Prefill(f, rec)
    case Failed(_) => f
  }

  /** A record whose fields are all missing leaves the controls as they
      start: empty selectors, empty date, status `confirmed`. */
  lemma PrefillDefaults(f: Form)
    ensures Prefill(f, Record(Null, Null, Null, Null, Null, Null)) == Blank
    ensures Prefill(f, Record(Undefined, Undefined, Undefined, Undefined, Undefined, Undefined)) == Blank
  {
  }

  /** The PUT body: the six controls as they are, with no conversion. */
  function Payload(f: Form): Obj {
    [ ("patient", f.patient), ("doctor", f.doctor), ("hospital", f.hospital),
      ("department", f.department), ("appointment_date", f.appointmentDate), ("status", f.status) ]
  }

  /** The controls marked `required`: all six. */
  predicate RequiredFilled(f: Form) {
    Filled(f.patient) && Filled(f.doctor) && Filled(f.hospital) && Filled(f.department)
    && Filled(f.appointmentDate) && Filled(f.status)
  }

  /** `handleSubmit`: one PUT; the form is untouched. */
  function Submit(id: string, f: Form): (r: Step<Form>)
    requires RequiredFilled(f)
    ensures r.state == f
    ensures r.effects == [Request(PUT, UpdateUrl(id), None, Payload(f))]
  {
    Step(f, [Request(PUT, UpdateUrl(id), None, Payload(f))])
  }

  /** The settled PUT: success toasts and schedules the navigation to the
      appointment list; failure toasts the fixed text and navigates nowhere. */
  function OnUpdated(f: Form, reply: Reply<()>): (r: Step<Form>)
    ensures r.state == f && NoRequest(r.effects)
    ensures reply.Ok? ==> Navigate("/appointment") in r.effects
    ensures reply.Failed? ==> r.effects == [Toast(ErrorToast, FailureText)] && NoNavigation(r.effects)
  {
    match reply
    case Ok(_) =>
      Step(f, [Toast(SuccessToast, "Appointment Updated Successfully! \U{00F0}\U{0178}\U{017D}\U{2030}"), Navigate("/appointment")])
    case Failed(_) => Step(f, [Toast(ErrorToast, FailureText)])
  }

  /** The status selector offers exactly `confirmed`, `cancelled` and
      `completed`, in that order, and the starting status is the first. */
  lemma StatusChoicesExact()
    ensures |StatusChoices| == 3
    ensures StatusChoices[0].value == "confirmed" && StatusChoices[1].value == "cancelled" && StatusChoices[2].value == "completed"
    ensures Blank.status == Str(StatusChoices[0].value)
  {
  }

  /** A record in the shape the server stores: the four foreign keys as
      non-zero ids, a UTC timestamp ending in its only `Z`, and one of the
      status choices. */
  predicate StoredShape(rec: Record) {
    && rec.patient.Num? && rec.patient.n != 0
    && rec.doctor.Num? && rec.doctor.n != 0
    && rec.hospital.Num? && rec.hospital.n != 0
    && rec.department.Num? && rec.department.n != 0
    && rec.appointmentDate.Str? && |rec.appointmentDate.s| > 0
    && rec.appointmentDate.s[|rec.appointmentDate.s| - 1] == 'Z'
    && 'Z' !in rec.appointmentDate.s[..|rec.appointmentDate.s| - 1]
    && exists i :: 0 <= i < |StatusChoices| && rec.status == Str(StatusChoices[i].value)
  }

  /** The record as a PUT body, with the timestamp's `Z` dropped. */
  function LocalRecordObj(rec: Record): Obj
    requires rec.appointmentDate.Str? && |rec.appointmentDate.s| > 0
  {
    var s := rec.appointmentDate.s;
    [ ("patient", rec.patient), ("doctor", rec.doctor), ("hospital", rec.hospital),
      ("department", rec.department), ("appointment_date", Str(s[..|s| - 1])), ("status", rec.status) ]
  }

  /** Loading a stored record and submitting it unedited sends the record
      back with only the timestamp's zone letter removed. */
  lemma PrefillThenSubmit(f: Form, rec: Record)
    requires StoredShape(rec)
    ensures Payload(Prefill(f, rec)) == LocalRecordObj(rec)
  {
    var s := rec.appointmentDate.s;
    var d := s[..|s| - 1];
    assert s == d + "Z";
    FormatDateDropsZone(d);
  }
}
