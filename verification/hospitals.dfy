/** What the hospital create and update pages share: four controls with the
    same `maxLength` bounds, and a request body that renames `hospitalName`
    and `phoneNumber` to the server's snake-case keys. */
module HospitalForms {
  import opened Js
  import opened Http

  datatype Form = Form(hospitalName: Value, address: Value, phoneNumber: Value, email: Value)

  /** The four controls as both pages declare them: empty text. */
  const Blank: Form := Form(Str(""), Str(""), Str(""), Str(""))

  datatype Field = Name | Address | Phone | Email

  /** The `maxLength` of each control. */
  function MaxLength(field: Field): nat {
    match field
    case Name => 100
    case Address => 255
    case Phone => 15
    case Email => 100
  }

  function Get(f: Form, field: Field): Value {
    match field
    case Name => f.hospitalName
    case Address => f.address
    case Phone => f.phoneNumber
    case Email => f.email
  }

  /** Every control shows no more characters than its `maxLength`. */
  predicate Bounded(f: Form) {
    && |ControlText(f.hospitalName)| <= MaxLength(Name)
    && |ControlText(f.address)| <= MaxLength(Address)
    && |ControlText(f.phoneNumber)| <= MaxLength(Phone)
    && |ControlText(f.email)| <= MaxLength(Email)
  }

  /** One user edit of a control: the selection from `start` to `end` (a
      caret when the two are equal) is replaced by typed, pasted or dropped
      text; empty text deletes the selection. */
  datatype Input = Input(field: Field, start: nat, end: nat, text: string)

  /** How much new text fits when `kept` characters stay in the control:
      what is left below the bound, and nothing once the kept text reaches
      it. */
  function Room(kept: nat, max: nat): nat {
    if kept < max then max - kept else 0
  }

  /** What the browser makes of an edit in a control with a `maxLength`: the
      text around the selection stays, and the new text goes in cut to the
      room left below the bound. The result is cut only when the control
      ends up full, and a control that was over the bound never grows. */
  function Splice(prior: string, start: nat, end: nat, text: string, max: nat): (r: string)
    requires start <= end <= |prior|
    ensures start + (|prior| - end) <= |r|
    ensures r[..start] == prior[..start] && r[|r| - (|prior| - end)..] == prior[end..]
    ensures r[start..|r| - (|prior| - end)] <= text
    ensures |prior| <= max ==> |r| <= max
    ensures |r| > max ==> r == prior[..start] + prior[end..]
    ensures |r| < max ==> r == prior[..start] + text + prior[end..]
  {
    var n := if |text| <= Room(|prior| - (end - start), max) then |text| else Room(|prior| - (end - start), max);
    var r := prior[..start] + text[..n] + prior[end..];
    assert r[..start] == prior[..start];
    assert r[start..|r| - (|prior| - end)] == text[..n];
    assert r[|r| - (|prior| - end)..] == prior[end..];
    r
  }

  /** A caret in a full control lets nothing in: typing there leaves the
      text as it was. */
  lemma FullControlRefusesInsert(prior: string, pos: nat, text: string, max: nat)
    requires pos <= |prior| == max
    ensures Splice(prior, pos, pos, text, max) == prior
  {
    assert prior[..pos] + prior[pos..] == prior;
  }

  /** A selection always lies within the control's text: the input's
      positions, moved into the text where they point past it. */
  function Selection(prior: string, start: nat, end: nat): (r: (nat, nat))
    ensures r.0 <= r.1 <= |prior|
    ensures start <= end <= |prior| ==> r == (start, end)
  {
    var a := if start <= |prior| then start else |prior|;
    (a, if end < a then a else if end <= |prior| then end else |prior|)
  }

  /** An `onChange` handler: the edited control takes the text the browser
      accepted; the other three keep theirs. */
  function Edit(f: Form, input: Input): (r: Form)
    ensures var prior := ControlText(Get(f, input.field));
      var sel := Selection(prior, input.start, input.end);
      Get(r, input.field) == Str(Splice(prior, sel.0, sel.1, input.text, MaxLength(input.field)))
    ensures forall other :: other != input.field ==> Get(r, other) == Get(f, other)
    ensures |ControlText(Get(r, input.field))| <= MaxLength(input.field)
      || |ControlText(Get(r, input.field))| <= |ControlText(Get(f, input.field))|
    ensures Bounded(f) ==> Bounded(r)
  {
    var prior := ControlText(Get(f, input.field));
    var sel := Selection(prior, input.start, input.end);
    var v := Str(Splice(prior, sel.0, sel.1, input.text, MaxLength(input.field)));
    match input.field
    case Name => f.(hospitalName := v)
    case Address => f.(address := v)
    case Phone => f.(phoneNumber := v)
    case Email => f.(email := v)
  }

  /** The controls after a run of edits, applied in order. */
  function Typing(f: Form, edits: seq<Input>): Form
    decreases |edits|
  {
    if |edits| == 0 then f else Typing(Edit(f, edits[0]), edits[1..])
  }

  /** However the user types, the controls stay within their bounds. */
  lemma {:induction false} TypingStaysBounded(f: Form, edits: seq<Input>)
    requires Bounded(f)
    ensures Bounded(Typing(f, edits))
    decreases |edits|
  {
    if |edits| > 0 {
      TypingStaysBounded(Edit(f, edits[0]), edits[1..]);
    }
  }

  /** The request body: `hospital_name` and `phone_number` renamed, `address`
      and `email` under their own names, every value as the control holds
      it. */
  function Payload(f: Form): Obj {
    [ ("hospital_name", f.hospitalName), ("address", f.address),
      ("phone_number", f.phoneNumber), ("email", f.email) ]
  }

  /** How the server's body maps back onto the controls, key by key. */
  function FormOf(o: Obj): Form {
    Form(Read(o, "hospital_name"), Read(o, "address"), Read(o, "phone_number"), Read(o, "email"))
  }

  /** Each server key finds its control's value. */
  lemma PayloadLookups(f: Form)
    ensures Lookup(Payload(f), "hospital_name") == Some(f.hospitalName)
    ensures Lookup(Payload(f), "address") == Some(f.address)
    ensures Lookup(Payload(f), "phone_number") == Some(f.phoneNumber)
    ensures Lookup(Payload(f), "email") == Some(f.email)
    ensures Lookup(Payload(f), "hospitalName") == None && Lookup(Payload(f), "phoneNumber") == None
  {
    var p := Payload(f);
    LookupAt(p, 0, "hospital_name");
    LookupAt(p, 1, "address");
    LookupAt(p, 2, "phone_number");
    LookupAt(p, 3, "email");
    LookupMissing(p, "hospitalName");
    LookupMissing(p, "phoneNumber");
  }

  /** The renaming loses nothing: reading the body back by the server's
      keys gives the controls that were sent. */
  lemma PayloadRoundTrip(f: Form)
    ensures FormOf(Payload(f)) == f
  {
    PayloadLookups(f);
  }
}

/** The hospital create page: a superuser gate fed by the profile request, a
    submit guard for non-superusers, and one POST of the renamed controls. */
module CreateHospital {
  import opened Js
  import opened Http
  import opened Gate
  import opened HospitalForms

  datatype State = State(gate: Gate, form: Form, errorMessage: string)

  const Init: State := State(Initial, Blank, "")

  const CreateUrl: string := Api + "/api/hospitals/create/"
  const DeniedText: string := "Only superusers can add new hospitals!"
  const FailureText: string := "Failed to create hospital. Please try again."

  /** The token as the page reads it: from the storage key `token`, which no
      page of the application writes. */
  function StoredTokenAsWritten(storage: Storage): (t: Value)
    ensures "token" !in storage ==> t == Null
  {
    GetItem(storage, "token")
  }

  /** After a login into storage that held no `token` key, the page as
      written authorises its requests with the text `Bearer null`, so the
      profile request is refused and the page sends the user back to the
      login page. */
  lemma TokenKeyMismatch(storage: Storage, access: string, refresh: string)
    requires "token" !in storage
    ensures Bearer(StoredTokenAsWritten(AfterLogin(storage, access, refresh))) == Some("Bearer null")
  {
    assert "token" != AccessTokenKey;
    assert StoredTokenAsWritten(AfterLogin(storage, access, refresh)) == Null;
    assert "Bearer " + "null" == "Bearer null";
  }

  /** The token read from the key the login page writes. */
  function StoredToken(storage: Storage): (t: Value)
    ensures AccessTokenKey in storage ==> t == Str(storage[AccessTokenKey])
    ensures AccessTokenKey !in storage ==> t == Null
  {
    GetItem(storage, AccessTokenKey)
  }

  /** Read from the login page's key, the token a login stored is the one
      the page sends. */
  lemma TokenAfterLogin(storage: Storage, access: string, refresh: string)
    ensures Bearer(StoredToken(AfterLogin(storage, access, refresh))) == Some("Bearer " + access)
  {
  }

  /** The mount effect as the page writes it: the profile request, sent
      whether or not a token is stored, authorised with whatever the `token`
      key holds. */
  function Mount(storage: Storage): (r: seq<Effect>)
    ensures |r| == 1 && r[0].Request? && r[0].verb == GET && r[0].url == MeUrl
    ensures "token" in storage ==> r[0].authorization == Some("Bearer " + storage["token"])
    ensures "token" !in storage ==> r[0].authorization == Some("Bearer null")
  {
    assert "Bearer " + "null" == "Bearer null";
    [MeRequest(StoredTokenAsWritten(storage))]
  }

  /** The mount effect reading the key the login page writes. */
  function MountCorrected(storage: Storage): (r: seq<Effect>)
    ensures |r| == 1 && r[0].Request? && r[0].verb == GET && r[0].url == MeUrl
    ensures AccessTokenKey in storage ==> r[0].authorization == Some("Bearer " + storage[AccessTokenKey])
    ensures AccessTokenKey !in storage ==> r[0].authorization == Some("Bearer null")
  {
    assert "Bearer " + "null" == "Bearer null";
    [MeRequest(StoredToken(storage))]
  }

  /** Right after a login into storage without a `token` key, the page as
      written asks for the profile with `Bearer null`, while the corrected
      page sends the access token the login stored. */
  lemma MountAfterLogin(storage: Storage, access: string, refresh: string)
    requires "token" !in storage
    ensures Mount(AfterLogin(storage, access, refresh))[0].authorization == Some("Bearer null")
    ensures MountCorrected(AfterLogin(storage, access, refresh))[0].authorization == Some("Bearer " + access)
  {
    TokenKeyMismatch(storage, access, refresh);
    TokenAfterLogin(storage, access, refresh);
  }

  /** The settled profile fetch: a profile settles the gate; a failure sends
      the user to the login page and leaves the page loading. */
  function OnMe(st: State, reply: Reply<Profile>): (r: Step<State>)
    ensures reply.Ok? ==> r.effects == [] && r.state == st.(gate := Settle(reply.value))
    ensures reply.Ok? ==> (ScreenOf(r.state.gate) == Protected <==> Truthy(reply.value.isSuperuser))
    ensures reply.Failed? ==> r.state == st && r.effects == [Navigate("/login")]
  {
    match reply
    case Ok(p) => Step(st.(gate := Settle(p)), [])
    case Failed(_) => Step(st, [Navigate("/login")])
  }

  /** `handleSubmit`: a page that is not a superuser's shows the denial and
      sends nothing; otherwise the renamed controls are POSTed with the
      token the page read on mount (`StoredTokenAsWritten`). The error
      message is not cleared on the way. */
  function Submit(st: State, token: Value): (r: Step<State>)
    requires Filled(st.form.hospitalName)
    ensures r.state.gate == st.gate && r.state.form == st.form
    ensures !Truthy(st.gate.isSuperuser) <==> r.effects == []
    ensures !Truthy(st.gate.isSuperuser) ==> r.state.errorMessage == DeniedText
    ensures Truthy(st.gate.isSuperuser) ==>
      r.state == st && r.effects == [Request(POST, CreateUrl, Bearer(token), Payload(st.form))]
  {
    if !Truthy(st.gate.isSuperuser) then Step(st.(errorMessage := DeniedText), [])
    else Step(st, [Request(POST, CreateUrl, Bearer(token), Payload(st.form))])
  }

  /** The settled POST: success toasts and schedules the navigation to the
      hospital list; failure toasts the fixed text. The controls are not
      reset either way. */
  function OnCreated(st: State, reply: Reply<()>): (r: Step<State>)
    ensures r.state == st && NoRequest(r.effects)
    ensures reply.Ok? ==> Navigate("/hospitals") in r.effects
    ensures reply.Failed? ==> r.effects == [Toast(ErrorToast, FailureText)] && NoNavigation(r.effects)
  {
    match reply
    case Ok(_) =>
      Step(st, [Toast(SuccessToast, "Hospital Created Successfully! \U{00F0}\U{0178}\U{017D}\U{2030}"), Navigate("/hospitals")])
    case Failed(_) => Step(st, [Toast(ErrorToast, FailureText)])
  }

  /** The form is rendered only on the protected screen, and there the
      submit guard always lets the POST through: the denial is never shown
      from the form. */
  lemma RenderedFormAlwaysPosts(st: State, token: Value)
    requires ScreenOf(st.gate) == Protected && Filled(st.form.hospitalName)
    ensures |Submit(st, token).effects| == 1 && Submit(st, token).effects[0].Request?
    ensures Submit(st, token).state.errorMessage == st.errorMessage
  {
  }

  /** Whatever the user typed since the page opened, the POST carries
      values within the controls' bounds. */
  lemma PostedValuesBounded(edits: seq<Input>)
    ensures Bounded(Typing(Init.form, edits))
  {
    TypingStaysBounded(Init.form, edits);
  }
}

/** The hospital update page: the record prefills the controls (the name as
    it is, the other three with a `''` fallback), the PUT sends the renamed
    controls, and each failure shows one fixed message. */
module UpdateHospital {
  import opened Js
  import opened Http
  import opened HospitalForms

  /** The hospital record as the server returns it. */
  datatype Record = Record(hospitalName: Value, address: Value, phoneNumber: Value, email: Value)

  const Init: Form := Blank

  const LoadFailureText: string := "Failed to load hospital data. Please try again."
  const FailureText: string := "Failed to update hospital. Please try again."

  function RecordUrl(id: string): string {
    Api + "/api/hospitals/" + id + "/"
  }

  function UpdateUrl(id: string): string {
    Api + "/api/hospitals/" + id + "/update/"
  }

  /** The mount effect: the record, fetched without a token. */
  function Mount(id: string): (r: seq<Effect>)
    ensures |r| == 1 && r[0].Request? && r[0].verb == GET && r[0].url == RecordUrl(id)
    ensures r[0].authorization.None?
  {
    [Request(GET, RecordUrl(id), None, [])]
  }

  /** The record's success handler: the name is copied as it is, the
      address, phone and email fall back to `''` when falsy. */
  function Prefill(rec: Record): (f: Form)
    ensures f.hospitalName == rec.hospitalName
    ensures Truthy(rec.address) ==> f.address == rec.address
    ensures Truthy(rec.phoneNumber) ==> f.phoneNumber == rec.phoneNumber
    ensures Truthy(rec.email) ==> f.email == rec.email
    ensures !Truthy(rec.address) ==> f.address == Str("")
    ensures !Truthy(rec.phoneNumber) ==> f.phoneNumber == Str("")
    ensures !Truthy(rec.email) ==> f.email == Str("")
  {
    Form(rec.hospitalName, Or(rec.address, Str("")), Or(rec.phoneNumber, Str("")), Or(rec.email, Str("")))
  }

  /** The settled record fetch: a reply prefills; a failure toasts and
      leaves the controls as they were. */
  function OnLoaded(f: Form, reply: Reply<Record>): (r: Step<Form>)
    ensures NoRequest(r.effects) && NoNavigation(r.effects)
    ensures reply.Ok? ==> r.state == Prefill(reply.value) && r.effects == []
    ensures reply.Failed? ==> r.state == f && r.effects == [Toast(ErrorToast, LoadFailureText)]
  {
    match reply
    case Ok(rec) => Step(Prefill(rec), [])
    case Failed(_) => Step(f, [Toast(ErrorToast, LoadFailureText)])
  }

  /** `handleSubmit`: one PUT of the renamed controls, without a token. The
      name control is `required`. */
  function Submit(id: string, f: Form): (r: Step<Form>)
    requires Filled(f.hospitalName)
    ensures r.state == f
    ensures |r.effects| == 1 && r.effects[0].Request? && r.effects[0].verb == PUT
    ensures r.effects[0].url == UpdateUrl(id) && r.effects[0].authorization.None?
    ensures FormOf(r.effects[0].data) == f
  {
    PayloadRoundTrip(f);
    Step(f, [Request(PUT, UpdateUrl(id), None, Payload(f))])
  }

  /** The settled PUT: success toasts and schedules the navigation to the
      hospital list; failure toasts the fixed text and navigates nowhere. */
  function OnUpdated(f: Form, reply: Reply<()>): (r: Step<Form>)
    ensures r.state == f && NoRequest(r.effects)
    ensures reply.Ok? ==> Navigate("/hospitals") in r.effects
    ensures reply.Failed? ==> r.effects == [Toast(ErrorToast, FailureText)] && NoNavigation(r.effects)
  {
    match reply
    case Ok(_) =>
      Step(f, [Toast(SuccessToast, "Hospital Updated Successfully! \U{00F0}\U{0178}\U{017D}\U{2030}"), Navigate("/hospitals")])
    case Failed(_) => Step(f, [Toast(ErrorToast, FailureText)])
  }

  /** A failed load leaves the page's empty controls, and the empty name
      then blocks the submit. */
  lemma LoadFailureLeavesBlank(reply: Reply<Record>)
    requires reply.Failed?
    ensures OnLoaded(Init, reply).state == Blank
    ensures !Filled(OnLoaded(Init, reply).state.hospitalName)
  {
  }

  /** The fallbacks are asymmetric: a record without a name leaves the name
      control empty and so blocks the submit, while a record without an
      address, phone or email still submits, with `''` in place of the
      missing value. */
  lemma MissingFieldsOnSubmit(rec: Record)
    ensures rec.hospitalName in {Null, Undefined, Str("")} ==> !Filled(Prefill(rec).hospitalName)
    ensures rec.address.Null? ==> Lookup(Payload(Prefill(rec)), "address") == Some(Str(""))
    ensures rec.phoneNumber.Null? ==> Lookup(Payload(Prefill(rec)), "phone_number") == Some(Str(""))
    ensures rec.email.Null? ==> Lookup(Payload(Prefill(rec)), "email") == Some(Str(""))
  {
    PayloadLookups(Prefill(rec));
  }

  /** The record with each missing optional field (`null`) written as
      `''`, as the PUT sends it back. */
  function BlankedRecordObj(rec: Record): Obj {
    [ ("hospital_name", rec.hospitalName),
      ("address", if rec.address.Null? then Str("") else rec.address),
      ("phone_number", if rec.phoneNumber.Null? then Str("") else rec.phoneNumber),
      ("email", if rec.email.Null? then Str("") else rec.email) ]
  }

  /** A record in the shape the server stores: text fields, the optional
      ones possibly `null`. */
  predicate StoredShape(rec: Record) {
    && rec.hospitalName.Str?
    && (rec.address.Str? || rec.address.Null?)
    && (rec.phoneNumber.Str? || rec.phoneNumber.Null?)
    && (rec.email.Str? || rec.email.Null?)
  }

  /** Loading a stored record and submitting it unedited sends the record
      back unchanged, except that each `null` optional field becomes `''`. */
  lemma PrefillThenSubmit(rec: Record)
    requires StoredShape(rec)
    ensures Payload(Prefill(rec)) == BlankedRecordObj(rec)
  {
  }
}
