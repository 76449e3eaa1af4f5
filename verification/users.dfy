/** What the user add and user update pages share: the four-field form and
    the way a failed request becomes a message on the page and in a toast. */
module UserForms {
  import opened Js
  import opened Http
  import opened Gate
  import ErrorText

  /** `formData`: username, password, hospital selection and the
      "view all hospitals" checkbox. */
  datatype Form = Form(username: Value, password: Value, hospital: Value, canViewAll: Value)

  const Blank: Form := Form(Str(""), Str(""), Str(""), Bool(false))

  /** `formData` as the object the pages send. */
  function AsObj(f: Form): (o: Obj)
    ensures |o| == 4
  {
    [ ("username", f.username), ("password", f.password), ("hospital", f.hospital),
      ("can_view_all_hospitals", f.canViewAll) ]
  }

  /** Every key of the form object finds its field. */
  lemma AsObjLookups(f: Form)
    ensures Lookup(AsObj(f), "username") == Some(f.username)
    ensures Lookup(AsObj(f), "password") == Some(f.password)
    ensures Lookup(AsObj(f), "hospital") == Some(f.hospital)
    ensures Lookup(AsObj(f), "can_view_all_hospitals") == Some(f.canViewAll)
  {
    var o := AsObj(f);
    LookupAt(o, 0, "username");
    LookupAt(o, 1, "password");
    LookupAt(o, 2, "hospital");
    LookupAt(o, 3, "can_view_all_hospitals");
  }

  /** The page's error line and the toast text after a failed request. */
  datatype Failure = Failure(message: string, toast: string)

  /** With a truthy body the values are flattened one per line and trimmed,
      and the toast prefixes them; otherwise both show the page's fixed
      text, the toast with a sad face. */
  function LinesFailure(response: Option<Response>, prefix: string, fixed: string): (r: Failure)
    ensures HasBody(response) ==> r.message == ErrorText.LinesText(response.value.data) && r.toast == prefix + r.message
    ensures !HasBody(response) ==> r.message == fixed && r.toast == fixed + " \U{1F614}"
    ensures r.message == ErrorText.LinesMessage(response, fixed)
  {
    if HasBody(response) then
      var text := ErrorText.LinesText(response.value.data);
      Failure(text, prefix + text)
    else Failure(fixed, fixed + " \U{1F614}")
  }

  const HospitalsUrl: string := Api + "/api/hospitals/"
  const HospitalsFailureText: string := "Failed to load hospitals."

  /** What both user form pages hold: the superuser gate, the controls and
      the page's error line. */
  datatype PageState = PageState(gate: Gate, form: Form, errorMessage: string)

  const Init: PageState := PageState(Initial, Blank, "")

  /** The settled hospital fetch: a failure only sets the page's error. */
  function OnHospitals(st: PageState, reply: Reply<()>): (r: PageState)
    ensures reply.Ok? ==> r == st
    ensures reply.Failed? ==> r == st.(errorMessage := HospitalsFailureText)
  {
    if reply.Failed? then st.(errorMessage := HospitalsFailureText) else st
  }
}

/** The add-user page. Without a stored access token it goes to the login
    page; otherwise it fetches the profile and the hospital list. Only a
    profile reply clears `loading`; a profile failure goes to the login
    page and leaves the page loading. */
module AddUser {
  import opened Js
  import opened Http
  import opened Gate
  import opened UserForms

  const AddUrl: string := Api + "/users/add-user"
  const FailureText: string := "Failed to add user! Please try again."
  const DeniedText: string := "Only superusers can add new users!"

  /** The mount effect: no token means the login page and nothing else. */
  function Mount(token: Value): (r: seq<Effect>)
    ensures !Truthy(token) <==> r == [Navigate("/login")]
    ensures Truthy(token) ==> r == [MeRequest(token), Request(GET, HospitalsUrl, Bearer(token), [])]
  {
    if !Truthy(token) then [Navigate("/login")]
    else [MeRequest(token), Request(GET, HospitalsUrl, Bearer(token), [])]
  }

  /** The settled profile fetch. */
  function OnMe(st: PageState, reply: Reply<Profile>): (r: Step<PageState>)
    ensures reply.Ok? ==> r.state == st.(gate := Settle(reply.value)) && r.effects == []
    ensures reply.Failed? ==> r.state == st && r.effects == [Navigate("/login")]
  {
    match reply
    case Ok(p) => Step(st.(gate := Settle(p)), [])
    case Failed(_) => Step(st, [Navigate("/login")])
  }

  /** `handleSubmit`: the previous error is cleared first; a page that is not
      a superuser's shows the denial and sends nothing; otherwise
      `formData` is POSTed exactly as it is, an empty password included. */
  function Submit(st: PageState, token: Value): (r: Step<PageState>)
    requires Filled(st.form.hospital)
    ensures r.state.form == st.form && r.state.gate == st.gate
    ensures !Truthy(st.gate.isSuperuser) ==>
      r.state.errorMessage == DeniedText && r.effects == [Toast(ErrorToast, DeniedText + " \U{1F6AB}")]
    ensures Truthy(st.gate.isSuperuser) ==>
      r.state.errorMessage == "" && r.effects == [Request(POST, AddUrl, Bearer(token), AsObj(st.form))]
  {
    var cleared := st.(errorMessage := "");
    if !Truthy(st.gate.isSuperuser) then
      Step(cleared.(errorMessage := DeniedText), [Toast(ErrorToast, DeniedText + " \U{1F6AB}")])
    else
      Step(cleared, [Request(POST, AddUrl, Bearer(token), AsObj(st.form))])
  }

  /** The settled POST: success toasts and schedules the navigation to the
      user list; failure shows the line-flattened body or the fixed text. */
  function OnAdded(st: PageState, reply: Reply<()>): (r: Step<PageState>)
    ensures r.state.gate == st.gate && r.state.form == st.form && NoRequest(r.effects)
    ensures reply.Ok? ==> r.state == st && Navigate("/users") in r.effects
    ensures reply.Failed? ==>
      var fail := LinesFailure(reply.response, "Failed to add user: ", FailureText);
      r.state.errorMessage == fail.message && r.effects == [Toast(ErrorToast, fail.toast)]
  {
    match reply
    case Ok(_) => Step(st, [Toast(SuccessToast, "User Added Successfully! \U{1F389}"), Navigate("/users")])
    case Failed(response) =>
      var fail := LinesFailure(response, "Failed to add user: ", FailureText);
      Step(st.(errorMessage := fail.message), [Toast(ErrorToast, fail.toast)])
  }

  /** The password goes out exactly as typed, even when it is empty, and so
      does every other field. */
  lemma PostKeepsEveryField(st: PageState, token: Value)
    requires Filled(st.form.hospital) && Truthy(st.gate.isSuperuser)
    ensures var data := Submit(st, token).effects[0].data;
      Lookup(data, "password") == Some(st.form.password)
      && Lookup(data, "username") == Some(st.form.username)
      && Lookup(data, "hospital") == Some(st.form.hospital)
      && Lookup(data, "can_view_all_hospitals") == Some(st.form.canViewAll)
  {
    AsObjLookups(st.form);
  }

  /** The inputs the page receives after mounting with a token. */
  datatype Event = MeLoaded(profile: Profile) | MeFailed | HospitalsLoaded | HospitalsFailed

  function Apply(st: PageState, e: Event): PageState {
    match e
    case MeLoaded(p) => OnMe(st, Ok(p)).state
    case MeFailed => OnMe(st, Failed(None)).state
    case HospitalsLoaded => OnHospitals(st, Ok(()))
    case HospitalsFailed => OnHospitals(st, Failed(None))
  }

  /** The state after the events, in order, starting from `Init`. */
  function Run(events: seq<Event>): PageState
    decreases |events|
  {
    if events == [] then Init else Apply(Run(events[..|events| - 1]), events[|events| - 1])
  }

  /** The profile of the last successful profile fetch, if any. */
  function LastProfile(events: seq<Event>): (p: Option<Profile>)
    decreases |events|
  {
    if events == [] then None
    else if events[|events| - 1].MeLoaded? then Some(events[|events| - 1].profile)
    else LastProfile(events[..|events| - 1])
  }

  /** Whatever order the replies arrive in, the form is shown exactly when a
      profile has arrived and the last one says superuser; before any
      profile the page is still loading. */
  lemma {:induction false} GateFollowsProfile(events: seq<Event>)
    ensures LastProfile(events).None? ==> ScreenOf(Run(events).gate) == LoadingScreen
    ensures LastProfile(events).Some? ==> Run(events).gate == Settle(LastProfile(events).value)
    ensures ScreenOf(Run(events).gate) == Protected <==> LastProfile(events).Some? && Truthy(LastProfile(events).value.isSuperuser)
    decreases |events|
  {
    if events != [] {
      GateFollowsProfile(events[..|events| - 1]);
    }
  }
}

/** The user update page. Without a stored access token it goes to the login
    page; otherwise it fetches the profile, the hospital list and the user.
    The profile reply only sets the superuser flag; it is the user reply,
    or its failure, that clears `loading`. */
module UpdateUser {
  import opened Js
  import opened Http
  import opened Gate
  import opened UserForms

  /** The user record fields the page reads. */
  datatype UserRecord = UserRecord(username: Value, hospital: Value, canViewAll: Value)

  function UserUrl(id: string): string {
    Api + "/users/users/" + id + "/"
  }

  const FailureText: string := "Failed to update user! Please try again."
  const DeniedText: string := "Only superusers can edit users!"
  const LoadFailureText: string := "Failed to load user data."

  /** The mount effect: no token means the login page and nothing else. */
  function Mount(id: string, token: Value): (r: seq<Effect>)
    ensures !Truthy(token) <==> r == [Navigate("/login")]
    ensures Truthy(token) ==> |r| == 3 && forall e | e in r :: e.Request? && e.verb == GET && e.authorization == Bearer(token)
  {
    if !Truthy(token) then [Navigate("/login")]
    else [MeRequest(token), Request(GET, HospitalsUrl, Bearer(token), []), Request(GET, UserUrl(id), Bearer(token), [])]
  }

  /** The settled profile fetch: success sets only the flag. */
  function OnMe(st: PageState, reply: Reply<Profile>): (r: Step<PageState>)
    ensures reply.Ok? ==> r.state == st.(gate := st.gate.(isSuperuser := reply.value.isSuperuser)) && r.effects == []
    ensures reply.Failed? ==> r.state == st && r.effects == [Navigate("/login")]
  {
    match reply
    case Ok(p) => Step(st.(gate := st.gate.(isSuperuser := p.isSuperuser)), [])
    case Failed(_) => Step(st, [Navigate("/login")])
  }

  /** The settled user fetch: the record prefills the form with an empty
      password, whatever the server holds; a failure sets the page's error.
      Either way `loading` is cleared. */
  function OnUser(st: PageState, reply: Reply<UserRecord>): (r: PageState)
    ensures !r.gate.loading && r.gate.isSuperuser == st.gate.isSuperuser
    ensures reply.Ok? ==> r.form == Form(reply.value.username, Str(""), reply.value.hospital, reply.value.canViewAll)
    ensures reply.Ok? ==> r.errorMessage == st.errorMessage
    ensures reply.Failed? ==> r.form == st.form && r.errorMessage == LoadFailureText
  {
    match reply
    case Ok(rec) =>
      st.(form := Form(rec.username, Str(""), rec.hospital, rec.canViewAll), gate := st.gate.(loading := false))
    case Failed(_) => st.(errorMessage := LoadFailureText, gate := st.gate.(loading := false))
  }

  /** `updatedData`: the form object without its password key when the
      password is falsy. */
  function Payload(f: Form): (o: Obj)
    ensures !Truthy(f.password) ==> Lookup(o, "password") == None
    ensures Truthy(f.password) ==> Lookup(o, "password") == Some(f.password)
    ensures forall k :: k != "password" ==> Lookup(o, k) == Lookup(AsObj(f), k)
  {
    AsObjLookups(f);
    if !Truthy(f.password) then Without(AsObj(f), "password") else AsObj(f)
  }

  /** `handleSubmit`: the previous error is cleared first; a page that is not
      a superuser's shows the denial and sends nothing; otherwise one PUT of
      the payload. */
  function Submit(st: PageState, id: string, token: Value): (r: Step<PageState>)
    requires Filled(st.form.hospital)
    ensures r.state.form == st.form && r.state.gate == st.gate
    ensures !Truthy(st.gate.isSuperuser) ==>
      r.state.errorMessage == DeniedText && r.effects == [Toast(ErrorToast, DeniedText + " \U{1F6AB}")]
    ensures Truthy(st.gate.isSuperuser) ==>
      r.state.errorMessage == "" && r.effects == [Request(PUT, UserUrl(id), Bearer(token), Payload(st.form))]
  {
    var cleared := st.(errorMessage := "");
    if !Truthy(st.gate.isSuperuser) then
      Step(cleared.(errorMessage := DeniedText), [Toast(ErrorToast, DeniedText + " \U{1F6AB}")])
    else
      Step(cleared, [Request(PUT, UserUrl(id), Bearer(token), Payload(st.form))])
  }

  /** The settled PUT: success toasts and schedules the navigation to the
      user list; failure shows the line-flattened body or the fixed text. */
  function OnUpdated(st: PageState, reply: Reply<()>): (r: Step<PageState>)
    ensures r.state.gate == st.gate && r.state.form == st.form && NoRequest(r.effects)
    ensures reply.Ok? ==> r.state == st && Navigate("/users") in r.effects
    ensures reply.Failed? ==>
      var fail := LinesFailure(reply.response, "Failed to update user: ", FailureText);
      r.state.errorMessage == fail.message && r.effects == [Toast(ErrorToast, fail.toast)]
  {
    match reply
    case Ok(_) => Step(st, [Toast(SuccessToast, "User Updated Successfully! \U{1F389}"), Navigate("/users")])
    case Failed(response) =>
      var fail := LinesFailure(response, "Failed to update user: ", FailureText);
      Step(st.(errorMessage := fail.message), [Toast(ErrorToast, fail.toast)])
  }

  /** Loading a user and saving it without typing a password never sends a
      password: the stored one is left as it is. */
  lemma UnchangedPasswordIsNotSent(st: PageState, rec: UserRecord, id: string, token: Value)
    requires Filled(rec.hospital) && Truthy(st.gate.isSuperuser)
    ensures var loaded := OnUser(st, Ok(rec));
      var sent := Submit(loaded, id, token).effects[0].data;
      Lookup(sent, "password") == None && Lookup(sent, "username") == Some(rec.username)
      && Lookup(sent, "hospital") == Some(rec.hospital) && Lookup(sent, "can_view_all_hospitals") == Some(rec.canViewAll)
  {
    var loaded := OnUser(st, Ok(rec));
    AsObjLookups(loaded.form);
  }

  /** The inputs the page receives after mounting with a token. */
  datatype Event =
    | MeLoaded(profile: Profile) | MeFailed
    | HospitalsLoaded | HospitalsFailed
    | UserLoaded(rec: UserRecord) | UserFailed

  function Apply(st: PageState, e: Event): PageState {
    match e
    case MeLoaded(p) => OnMe(st, Ok(p)).state
    case MeFailed => OnMe(st, Failed(None)).state
    case HospitalsLoaded => OnHospitals(st, Ok(()))
    case HospitalsFailed => OnHospitals(st, Failed(None))
    case UserLoaded(rec) => OnUser(st, Ok(rec))
    case UserFailed => OnUser(st, Failed(None))
  }

  function Run(events: seq<Event>): PageState
    decreases |events|
  {
    if events == [] then Init else Apply(Run(events[..|events| - 1]), events[|events| - 1])
  }

  function LastProfile(events: seq<Event>): (p: Option<Profile>)
    decreases |events|
  {
    if events == [] then None
    else if events[|events| - 1].MeLoaded? then Some(events[|events| - 1].profile)
    else LastProfile(events[..|events| - 1])
  }

  /** Some reply to the user fetch, success or failure, is among the events. */
  predicate UserSettled(events: seq<Event>) {
    exists i :: 0 <= i < |events| && (events[i].UserLoaded? || events[i].UserFailed?)
  }

  /** Whatever order the replies arrive in, the page stays loading until the
      user fetch settles, and the form is shown exactly when that has
      happened and the last profile says superuser. */
  lemma {:induction false} GateFollowsUserAndProfile(events: seq<Event>)
    ensures Run(events).gate.loading <==> !UserSettled(events)
    ensures Run(events).gate.isSuperuser == (if LastProfile(events).Some? then LastProfile(events).value.isSuperuser else Bool(false))
    ensures ScreenOf(Run(events).gate) == Protected <==>
      UserSettled(events) && LastProfile(events).Some? && Truthy(LastProfile(events).value.isSuperuser)
    decreases |events|
  {
    if events != [] {
      var init := events[..|events| - 1];
      GateFollowsUserAndProfile(init);
      var last := events[|events| - 1];
      if last.UserLoaded? || last.UserFailed? {
        assert UserSettled(events);
      } else if UserSettled(events) {
        var i :| 0 <= i < |events| && (events[i].UserLoaded? || events[i].UserFailed?);
        assert i < |events| - 1 && init[i] == events[i];
      }
      if UserSettled(init) {
        var i :| 0 <= i < |init| && (init[i].UserLoaded? || init[i].UserFailed?);
        assert events[i] == init[i];
      }
    }
  }

  /** A superuser whose record arrives before the profile sees "Access
      Denied" until the profile reply comes in. */
  lemma DeniedUntilProfile(rec: UserRecord, p: Profile)
    requires Truthy(p.isSuperuser)
    ensures ScreenOf(Run([UserLoaded(rec)]).gate) == AccessDenied
    ensures ScreenOf(Run([UserLoaded(rec), MeLoaded(p)]).gate) == Protected
  {
    assert [UserLoaded(rec), MeLoaded(p)][..1] == [UserLoaded(rec)];
  }
}

/** The user delete page: a confirmation prompt behind the superuser gate. */
module DeleteUser {
  import opened Js
  import opened Http
  import opened Gate

  function DeleteUrl(id: string): string {
    Api + "/users/users/" + id + "/"
  }

  const GenericFailureText: string := "Failed to delete user. Please try again. \U{1F614}"
  const NotFoundText: string := "User not found! \U{1F6AB}"

  /** The mount effect: no token means an error toast and the login page. */
  function Mount(token: Value): (r: seq<Effect>)
    ensures !Truthy(token) ==> NoRequest(r) && Navigate("/login") in r
    ensures Truthy(token) ==> r == [MeRequest(token)]
  {
    if !Truthy(token) then
      [Toast(ErrorToast, "You need to be logged in to delete a user! \U{1F6AB}"), Navigate("/login")]
    else [MeRequest(token)]
  }

  /** The settled profile fetch: success settles the gate; failure toasts
      the permission error and goes to the login page. */
  function OnMe(g: Gate, reply: Reply<Profile>): (r: Step<Gate>)
    ensures reply.Ok? ==> r.state == Settle(reply.value) && r.effects == []
    ensures reply.Failed? ==> r.state == g && NoRequest(r.effects) && Navigate("/login") in r.effects
  {
    match reply
    case Ok(p) => Step(Settle(p), [])
    case Failed(_) => Step(g, [Toast(ErrorToast, "Failed to verify user permissions! \U{1F6AB}"), Navigate("/login")])
  }

  /** "Yes, Delete": a page that is not a superuser's only toasts; otherwise
      one DELETE. */
  function Confirm(g: Gate, id: string, token: Value): (r: seq<Effect>)
    ensures Truthy(g.isSuperuser) ==> r == [Request(DELETE, DeleteUrl(id), Bearer(token), [])]
    ensures !Truthy(g.isSuperuser) ==> r == [Toast(ErrorToast, "Only superusers can delete users! \U{1F6AB}")]
  {
    if !Truthy(g.isSuperuser) then [Toast(ErrorToast, "Only superusers can delete users! \U{1F6AB}")]
    else [Request(DELETE, DeleteUrl(id), Bearer(token), [])]
  }

  /** The settled DELETE: success toasts and schedules the navigation to the
      user list; a 404 says the user was not found; any other failure,
      including one without a response, shows the generic text. */
  function OnDeleted(reply: Reply<()>): (r: seq<Effect>)
    ensures reply.Ok? ==> Navigate("/users") in r && NoRequest(r)
    ensures reply.Failed? ==> |r| == 1 && r[0].Toast? && r[0].kind == ErrorToast
    ensures reply.Failed? ==> (r[0].text == NotFoundText <==> reply.response.Some? && reply.response.value.status == 404)
    ensures reply.Failed? ==> (r[0].text == GenericFailureText <==> !(reply.response.Some? && reply.response.value.status == 404))
  {
    match reply
    case Ok(_) => [Toast(SuccessToast, "User Deleted Successfully! \U{1F389}"), Navigate("/users")]
    case Failed(response) =>
      if response.Some? && response.value.status == 404 then [Toast(ErrorToast, NotFoundText)]
      else [Toast(ErrorToast, GenericFailureText)]
  }

  /** "Cancel": back to the user list, nothing sent. */
  function Cancel(): (r: seq<Effect>)
    ensures NoRequest(r) && Navigate("/users") in r
  {
    [Navigate("/users")]
  }
}

/** The user list page: the profile decides whether the list is fetched at
    all; each row offers Edit, and Remove unless the row is the signed-in
    user. */
module UsersList {
  import opened Js
  import opened Http
  import opened Gate

  /** One user as the list endpoint returns it. */
  datatype User = User(id: Value, username: Value, hospitalName: Value, canViewAll: Value, isSuperuser: Value)

  datatype State = State(gate: Gate, currentUserId: Value, users: seq<User>)

  const Init: State := State(Initial, Null, [])

  const ListUrl: string := Api + "/users/users_list/"

  function Mount(token: Value): (r: seq<Effect>)
    ensures !Truthy(token) <==> r == [Navigate("/login")]
    ensures Truthy(token) ==> r == [MeRequest(token)]
  {
    if !Truthy(token) then [Navigate("/login")] else [MeRequest(token)]
  }

  /** The profile reply: the flag and the current id are stored; for a
      profile that is not a superuser's, `loading` is cleared and the list
      is never requested. A failure goes to the login page. */
  function OnMe(st: State, reply: Reply<Profile>, token: Value): (r: Step<State>)
    ensures reply.Failed? ==> r.state == st && r.effects == [Navigate("/login")]
    ensures reply.Ok? ==> r.state.gate.isSuperuser == reply.value.isSuperuser && r.state.currentUserId == reply.value.id
    ensures reply.Ok? && !Truthy(reply.value.isSuperuser) ==> !r.state.gate.loading && r.effects == []
    ensures reply.Ok? && Truthy(reply.value.isSuperuser) ==> r.state.gate.loading == st.gate.loading
    ensures reply.Ok? && Truthy(reply.value.isSuperuser) ==> r.effects == [Request(GET, ListUrl, Bearer(token), [])]
    ensures r.state.users == st.users
  {
    match reply
    case Failed(_) => Step(st, [Navigate("/login")])
    case Ok(p) =>
      var known := st.(gate := st.gate.(isSuperuser := p.isSuperuser), currentUserId := p.id);
      if !Truthy(p.isSuperuser) then Step(known.(gate := known.gate.(loading := false)), [])
      else Step(known, [Request(GET, ListUrl, Bearer(token), [])])
  }

  /** The list reply: the users are stored in server order and `loading`
      is cleared; a failure goes to the login page. */
  function OnList(st: State, reply: Reply<seq<User>>): (r: Step<State>)
    ensures reply.Ok? ==> r.state == st.(users := reply.value, gate := st.gate.(loading := false)) && r.effects == []
    ensures reply.Failed? ==> r.state == st && r.effects == [Navigate("/login")]
  {
    match reply
    case Ok(users) => Step(st.(users := users, gate := st.gate.(loading := false)), [])
    case Failed(_) => Step(st, [Navigate("/login")])
  }

  /** The text React renders for a cell value: nothing for `null`,
      `undefined` and booleans. */
  function CellText(v: Value): string {
    if v.Null? || v.Undefined? || v.Bool? then "" else ToString(v)
  }

  function YesNo(v: Value): (r: string)
    ensures r == "Yes" <==> Truthy(v)
    ensures r == "No" <==> !Truthy(v)
  {
    if Truthy(v) then "Yes" else "No"
  }

  /** One rendered row: the four cells, the Edit link and, maybe, the Remove
      link. */
  datatype Row = Row(name: string, hospital: string, viewAll: string, isAdmin: string, edit: string, remove: Option<string>)

  function RowOf(u: User, currentUserId: Value): (r: Row)
    ensures r.remove.Some? <==> !StrictEquals(u.id, currentUserId)
    ensures r.remove.Some? ==> r.remove.value == "/users/" + ToString(u.id) + "/delete"
    ensures r.edit == "/users/" + ToString(u.id) + "/update"
    ensures !Truthy(u.hospitalName) ==> r.hospital == "N/A"
    ensures r.viewAll == YesNo(u.canViewAll) && r.isAdmin == YesNo(u.isSuperuser)
  {
    Row(CellText(u.username), CellText(Or(u.hospitalName, Str("N/A"))), YesNo(u.canViewAll), YesNo(u.isSuperuser),
        "/users/" + ToString(u.id) + "/update",
        if !StrictEquals(u.id, currentUserId) then Some("/users/" + ToString(u.id) + "/delete") else None)
  }

  datatype Body = NoUsers | Rows(rows: seq<Row>)

  /** The table body: one row per user in server order, or the single
      "No Users found" row for an empty list. */
  function TableBody(st: State): (b: Body)
    ensures b == NoUsers <==> st.users == []
    ensures b.Rows? ==> |b.rows| == |st.users|
    ensures b.Rows? ==> forall i :: 0 <= i < |st.users| ==> b.rows[i] == RowOf(st.users[i], st.currentUserId)
  {
    if |st.users| > 0 then Rows(seq(|st.users|, i requires 0 <= i < |st.users| => RowOf(st.users[i], st.currentUserId)))
    else NoUsers
  }

  /** The table is shown only behind the gate. */
  function Page(st: State): (b: Option<Body>)
    ensures b.Some? <==> ScreenOf(st.gate) == Protected
    ensures b.Some? ==> b.value == TableBody(st)
  {
    if ScreenOf(st.gate) == Protected then Some(TableBody(st)) else None
  }

  /** The signed-in user never gets a Remove link for their own row, and
      every other user does. */
  lemma NoSelfRemoval(st: State)
    requires ScreenOf(st.gate) == Protected && st.users != []
    ensures forall i :: 0 <= i < |st.users| ==>
      (Page(st).value.rows[i].remove.None? <==> StrictEquals(st.users[i].id, st.currentUserId))
  {
  }

  /** A profile that is not a superuser's ends on "Access Denied" with no
      list request. */
  lemma NonSuperuserNeverListed(p: Profile, token: Value)
    requires !Truthy(p.isSuperuser)
    ensures ScreenOf(OnMe(Init, Ok(p), token).state.gate) == AccessDenied
    ensures NoRequest(OnMe(Init, Ok(p), token).effects)
  {
  }
}
