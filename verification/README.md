# Hospital dashboard page handlers in Dafny

A model of the decision logic inside the React pages of a hospital management
dashboard. The pages cover statistics filtering, employees, patients,
appointments, users, hospitals and departments. Each event handler is a pure
function from the page's view state and one input to the next state and the
list of effects it starts. An input is a user action or a settled server
reply. An effect is an HTTP request, a navigation or a toast. "No request is
issued" and "nothing else changes" are therefore statements about a returned
value.

The model is in these modules:

- `Js` (js.dfy) holds the JavaScript value semantics the pages rely on:
  - scalars and their truthiness, and `||`;
  - `String(v)` for integers and `parseInt` (whitespace, sign, `0x`, digit run, NaN);
  - `trim`, `Array.prototype.join`, and `replace` with a one-character pattern.
- `Http` (http.dfy) holds object literals as ordered key/value sequences, `delete`, effects and replies, the `Bearer` header and local storage.
- `ErrorText` (errortext.dfy) holds the three failure-message builders:
  - the `" | "` flattener;
  - the newline flattener;
  - the status-code message.
- `Gate` (gate.dfy) is the superuser access gate: Loading, then Access Denied, then the protected content.
- `Filter` (filter.dfy) is the statistics filter page with its chart area.
- `CreateEmployee` and `UpdateEmployee` are in employees.dfy.
- `CreatePatient` is in patients.dfy.
- `UpdateAppointment` is in appointments.dfy.
- `UserForms`, `AddUser`, `UpdateUser`, `DeleteUser` and `UsersList` are in users.dfy.
- `HospitalForms`, `CreateHospital` and `UpdateHospital` are in hospitals.dfy.
- `DepartmentForms`, `CreateDepartment` and `UpdateDepartment` are in departments.dfy.

HTTP, timers, toasts and storage are not executed; they are inputs and
effects:

- A server reply is a `Reply`: either `Ok(value)` or `Failed(response)`. The response is absent for a transport failure; otherwise it has a status and a body.
- A stored token is a `Value`: `null` when the key is absent.
- A delayed navigation is a `Navigate` effect.
- The HTML `required` attribute and a `disabled` or hidden form are preconditions of the submit handlers.
- The `maxLength` attribute is applied by the edit handler. An edit replaces the selection, and the browser inserts only as much new text as fits below the bound.

## Model

| member | source | states |
|---|---|---|
| Js.BlankToNull | hospital_frontend/src/pages/Pationtes/CreatePationt.jsx:32-34 | the `null` fallback gives `null` exactly when the text is blank; otherwise it is the text itself |
| Js.ParseIntOfToString | hospital_frontend/src/pages/Employees/UpdateEmployee.jsx:53-57 | `parseInt` of an integer, or of its decimal text (negative ones too), gives the integer back |
| Js.PrefilledIdRoundTrip | hospital_frontend/src/pages/Employees/UpdateEmployee.jsx:39-41 | a non-zero id prefilled with the `''` fallback and sent through `parseInt` comes back unchanged |
| Js.PrefilledOptionalRoundTrip | hospital_frontend/src/pages/Employees/UpdateEmployee.jsx:54-55 | `null`, or non-blank text, prefilled with the `''` fallback and sent with the `null` fallback comes back unchanged |
| Js.ParseSkipsLeadingSpace | hospital_frontend/src/pages/Pationtes/CreatePationt.jsx:35 | `parseInt` gives the same result as parsing the text with its leading whitespace trimmed |
| Js.ParseIntOfEmpty | hospital_frontend/src/pages/Pationtes/CreatePationt.jsx:35 | an empty selection parses to NaN |
| Js.Trim | hospital_frontend/src/pages/Users/UpdateUser.jsx:90 | the result is a contiguous slice of the input; only whitespace is dropped before and after it; it neither starts nor ends with whitespace |
| Js.TrimDropsTrailingSpace | hospital_frontend/src/pages/Users/UpdateUser.jsx:88-90 | one trailing whitespace character (the last `\n`) makes no difference after `trim` |
| Js.TrimOfTrimmed | hospital_frontend/src/pages/Users/UpdateUser.jsx:90 | text without surrounding whitespace is unchanged by `trim` |
| Js.JoinAppend | hospital_frontend/src/pages/Employees/UpdateEmployee.jsx:72-74 | joining two non-empty lists equals joining each and putting the separator between them |
| Js.RemoveFirst | hospital_frontend/src/pages/Appointmentes/UpdateAppointment.jsx:29 | text without the character is unchanged; text with it loses exactly one character |
| Js.RemoveFirstSplit | hospital_frontend/src/pages/Appointmentes/UpdateAppointment.jsx:29 | only the first occurrence is removed: `a + c + b` becomes `a + b` when `c` is not in `a` |
| Js.RemoveFirstMultiset | hospital_frontend/src/pages/Appointmentes/UpdateAppointment.jsx:29 | the result holds the input's characters less one occurrence of the removed character |
| Http.Without | hospital_frontend/src/pages/Users/UpdateUser.jsx:73 | after `delete o[key]` the key is absent and every other key reads what it read before |
| ErrorText.PipeSingle | hospital_frontend/src/pages/Employees/UpdateEmployee.jsx:72-74 | a one-entry body flattens to `key: value` |
| ErrorText.PipeAppend | hospital_frontend/src/pages/Employees/UpdateEmployee.jsx:72-74 | the flattening of two bodies in sequence is the two flattenings joined by the pipe separator |
| ErrorText.PipeMessageCases | hospital_frontend/src/pages/Employees/UpdateEmployee.jsx:69-76 | without an object body the fixed text is shown; an empty object body gives the empty message, not the fixed text |
| ErrorText.ForInValues | hospital_frontend/src/pages/Users/AddUser.jsx:67-73 | `for ... in` visits the object's values in order (array values joined by `", "`), every character of a text body, and nothing for no body |
| ErrorText.AccumulateLines | hospital_frontend/src/pages/Users/AddUser.jsx:66-74 | the loop that appends each value and a newline, then trims, computes the newline flattening |
| ErrorText.LinesExact | hospital_frontend/src/pages/Users/AddUser.jsx:66-74 | for values without surrounding whitespace the message is exactly the values one per line, keys never shown |
| ErrorText.StatusText | hospital_frontend/src/pages/Departmentes/CreateDepartment.jsx:34 | `Unknown error` exactly when there is no response or its status is 0; otherwise decimal text that parses back to the status |
| Gate.ScreenOf | hospital_frontend/src/pages/Users/AddUser.jsx:83-100 | the protected content shows exactly when not loading and the flag is truthy; Loading shows exactly while loading |
| Gate.Settle | hospital_frontend/src/pages/Users/AddUser.jsx:30-34 | once the profile arrives the page is no longer loading, and it is protected exactly when `is_superuser` is truthy |
| Gate.DenyByDefault | hospital_frontend/src/pages/Users/AddUser.jsx:16-17 | the page starts on Loading, and a missing or false flag ends on Access Denied |
| Filter.Mount | hospital_frontend/src/pages/Statistics/Filter.jsx:22-38 | mounting leaves the state alone and issues three GETs |
| Filter.OnOptions | hospital_frontend/src/pages/Statistics/Filter.jsx:25-35 | all three lists are stored, or none is if any fetch fails; nothing else changes |
| Filter.ChangeFilter | hospital_frontend/src/pages/Statistics/Filter.jsx:175-178 | the named filter takes the value; the other four filters and the rest of the state are unchanged |
| Filter.ChangeFilterIdempotent | hospital_frontend/src/pages/Statistics/Filter.jsx:175-178 | writing a filter's own value changes nothing, and a later change to the same filter overrides an earlier one |
| Filter.ParamsCarryFilters | hospital_frontend/src/pages/Statistics/Filter.jsx:46-53 | each filter reaches the query; the dates go under `start_date` and `end_date`, never their form names |
| Filter.Submit | hospital_frontend/src/pages/Statistics/Filter.jsx:180-186 | results are always cleared; all-empty filters issue no request and no loading; otherwise exactly one GET with the parameters, with loading set; nothing else changes |
| Filter.OnAppointments | hospital_frontend/src/pages/Statistics/Filter.jsx:53-62 | loading always ends; success stores the reply's appointments and chart data; failure stores the empty results |
| Filter.FailureLooksEmpty | hospital_frontend/src/pages/Statistics/Filter.jsx:56-59 | a failed fetch leaves the same state as an empty successful reply |
| Filter.SeqMax | hospital_frontend/src/pages/Statistics/Filter.jsx:145-146 | `Math.max` of a non-empty series is an element of it and bounds every element |
| Filter.RenderChart | hospital_frontend/src/pages/Statistics/Filter.jsx:65-84 | destroys the previous chart exactly when one is live; Loading placeholder while loading; No Data for an empty series; otherwise a chart with tick count equal to the series maximum and y-axis max one more |
| Filter.ChartsDoNotAccumulate | hospital_frontend/src/pages/Statistics/Filter.jsx:66-69 | a second render destroys exactly the chart the first render created |
| Filter.Table | hospital_frontend/src/pages/Statistics/Filter.jsx:311-337 | the loading row exactly while loading; otherwise the appointments in server order, or the empty-state row |
| Filter.SubmitThenFail | hospital_frontend/src/pages/Statistics/Filter.jsx:40-62 | a filtered submit shows placeholders until the reply; a failure then shows No Data, the empty row and a total of 0 |
| Filter.SubmitAllEmpty | hospital_frontend/src/pages/Statistics/Filter.jsx:180-184 | an all-empty submit sends nothing and shows the empty placeholders |
| CreateEmployee.Submit | hospital_frontend/src/pages/Employees/CreateEmployee.jsx:34-47 | one POST of the payload to the create URL; the form is untouched |
| CreateEmployee.OnCreated | hospital_frontend/src/pages/Employees/CreateEmployee.jsx:46-62 | success clears all seven fields and navigates to `/employee`; failure keeps the form and shows only the fixed text; never a request |
| CreateEmployee.PayloadIds | hospital_frontend/src/pages/Employees/CreateEmployee.jsx:39-43 | the hospital goes out as the selected text, while job and department go out as the numbers their texts denote |
| CreateEmployee.PayloadTexts | hospital_frontend/src/pages/Employees/CreateEmployee.jsx:37-41 | names go out as typed; a blank specialty or licence number goes out as `null`, a filled one as typed |
| CreateEmployee.PayloadReloads | hospital_frontend/src/pages/Employees/CreateEmployee.jsx:36-44 | reading the payload back as control texts gives exactly the submitted form |
| UpdateEmployee.Mount | hospital_frontend/src/pages/Employees/UpdateEmployee.jsx:22-29 | loading is set and four GETs are issued |
| UpdateEmployee.Prefill | hospital_frontend/src/pages/Employees/UpdateEmployee.jsx:35-41 | each of the seven controls is the record's value when truthy and `''` otherwise |
| UpdateEmployee.OnLoaded | hospital_frontend/src/pages/Employees/UpdateEmployee.jsx:30-44 | loading always ends; a reply prefills; a failure keeps the form |
| UpdateEmployee.Submit | hospital_frontend/src/pages/Employees/UpdateEmployee.jsx:47-61 | loading is set and exactly one PUT of the payload is issued |
| UpdateEmployee.OnUpdated | hospital_frontend/src/pages/Employees/UpdateEmployee.jsx:60-79 | loading always ends; success navigates to `/employee`; failure toasts the pipe flattening or the fixed text |
| UpdateEmployee.ViewOf | hospital_frontend/src/pages/Employees/UpdateEmployee.jsx:87-89 | the form shows exactly when not loading |
| UpdateEmployee.SubmitHidesFormUntilReply | hospital_frontend/src/pages/Employees/UpdateEmployee.jsx:77-89 | the form is hidden while the PUT is in flight and shown again, unchanged, after either outcome |
| UpdateEmployee.PayloadTexts | hospital_frontend/src/pages/Employees/UpdateEmployee.jsx:50-58 | names go out as held; all three selections go through `parseInt`; the specialty or licence number is `null` exactly when falsy, otherwise unchanged |
| UpdateEmployee.PrefillThenSubmitRoundTrip | hospital_frontend/src/pages/Employees/UpdateEmployee.jsx:35-57 | loading a stored record and saving it unedited sends the record back unchanged |
| CreatePatient.Submit | hospital_frontend/src/pages/Pationtes/CreatePationt.jsx:25-39 | loading is set and exactly one POST of the payload is issued; the form is kept |
| CreatePatient.OnCreated | hospital_frontend/src/pages/Pationtes/CreatePationt.jsx:38-64 | loading always ends; success clears the form and navigates to `/patient`; failure keeps the form and toasts the pipe flattening or the fixed text |
| CreatePatient.SubmitThenSettle | hospital_frontend/src/pages/Pationtes/CreatePationt.jsx:25-64 | the button is disabled exactly while the POST is in flight; failure hands back the starting state and success gives the initial page |
| CreatePatient.PayloadTexts | hospital_frontend/src/pages/Pationtes/CreatePationt.jsx:28-34 | names and gender go out as typed; each of birth date, phone and email is `null` exactly when blank, otherwise as typed |
| CreatePatient.PayloadHospital | hospital_frontend/src/pages/Pationtes/CreatePationt.jsx:35 | a selected hospital id goes out as that number |
| CreatePatient.PayloadReloads | hospital_frontend/src/pages/Pationtes/CreatePationt.jsx:28-36 | reading the payload back as control texts gives exactly the submitted form |
| UpdateAppointment.Mount | hospital_frontend/src/pages/Appointmentes/UpdateAppointment.jsx:32-49 | five GETs are issued, the last for the record; the controls start blank with status `confirmed` |
| UpdateAppointment.FormatDateForInput | hospital_frontend/src/pages/Appointmentes/UpdateAppointment.jsx:27-30 | `''` for a falsy date; otherwise text with one `Z` fewer, unchanged when it has none; a throw exactly for a truthy non-text value |
| UpdateAppointment.FormatDateDropsZone | hospital_frontend/src/pages/Appointmentes/UpdateAppointment.jsx:27-30 | a timestamp ending in its only `Z` loses exactly that `Z` |
| UpdateAppointment.FormatDateKeepsLaterZone | hospital_frontend/src/pages/Appointmentes/UpdateAppointment.jsx:29 | a `Z` after the first one stays |
| UpdateAppointment.Prefill | hospital_frontend/src/pages/Appointmentes/UpdateAppointment.jsx:53-58 | the four selectors fall back to `''`; the date is formatted; the status falls back to `confirmed`; after a throw the date and status keep their old values |
| UpdateAppointment.OnLoaded | hospital_frontend/src/pages/Appointmentes/UpdateAppointment.jsx:49-60 | a reply prefills; a failure changes nothing |
| UpdateAppointment.PrefillDefaults | hospital_frontend/src/pages/Appointmentes/UpdateAppointment.jsx:53-58 | a record with every field missing gives the starting controls, status `confirmed` |
| UpdateAppointment.Submit | hospital_frontend/src/pages/Appointmentes/UpdateAppointment.jsx:63-73 | exactly one PUT of the six controls, unconverted |
| UpdateAppointment.OnUpdated | hospital_frontend/src/pages/Appointmentes/UpdateAppointment.jsx:74-82 | success navigates to `/appointment`; failure toasts only the fixed text and navigates nowhere |
| UpdateAppointment.StatusChoicesExact | hospital_frontend/src/pages/Appointmentes/UpdateAppointment.jsx:18-25 | the choices are confirmed, cancelled and completed, in that order, and the first is the starting status |
| UpdateAppointment.PrefillThenSubmit | hospital_frontend/src/pages/Appointmentes/UpdateAppointment.jsx:53-73 | a stored record saved unedited goes back unchanged except that its timestamp loses the trailing `Z` |
| UserForms.AsObjLookups | hospital_frontend/src/pages/Users/UpdateUser.jsx:12-17 | each form key reads its field |
| UserForms.LinesFailure | hospital_frontend/src/pages/Users/AddUser.jsx:63-79 | with a truthy body the message is the newline flattening and the toast is prefix plus message; otherwise the fixed text, with an emoji added to the toast |
| AddUser.Mount | hospital_frontend/src/pages/Users/AddUser.jsx:21-45 | with no token, exactly a navigation to `/login`; with one, the profile and hospital GETs with the bearer header |
| AddUser.OnMe | hospital_frontend/src/pages/Users/AddUser.jsx:27-38 | a profile settles the gate; a failure navigates to `/login` and leaves the page loading |
| UserForms.OnHospitals | hospital_frontend/src/pages/Users/AddUser.jsx:40-44 | only a failure changes the state, and only the error message; the update page (Users/UpdateUser.jsx:40-42) handles the list the same way |
| AddUser.Submit | hospital_frontend/src/pages/Users/AddUser.jsx:47-58 | the error is cleared first; a non-superuser gets the denial and no request; a superuser gets exactly one POST of the form |
| AddUser.OnAdded | hospital_frontend/src/pages/Users/AddUser.jsx:59-79 | success navigates to `/users`; failure sets the newline-flattened or fixed message; never a request |
| AddUser.PostKeepsEveryField | hospital_frontend/src/pages/Users/AddUser.jsx:56 | the POST carries every field as held, an empty password included |
| AddUser.GateFollowsProfile | hospital_frontend/src/pages/Users/AddUser.jsx:30-38 | for any order of replies, the page is loading until a profile arrives; after that the gate is settled by the last profile, and the form shows exactly when that profile is a superuser's |
| UpdateUser.Mount | hospital_frontend/src/pages/Users/UpdateUser.jsx:24-45 | with no token, exactly a navigation to `/login`; with one, three GETs with the bearer header |
| UpdateUser.OnMe | hospital_frontend/src/pages/Users/UpdateUser.jsx:33-37 | a profile sets only the superuser flag, not loading; a failure navigates to `/login` |
| UpdateUser.OnUser | hospital_frontend/src/pages/Users/UpdateUser.jsx:45-59 | loading ends either way; a record prefills with the password always empty; a failure sets the load error |
| UpdateUser.Payload | hospital_frontend/src/pages/Users/UpdateUser.jsx:72-73 | the password key is absent exactly when the password is falsy; every other key is as in the form |
| UpdateUser.Submit | hospital_frontend/src/pages/Users/UpdateUser.jsx:62-78 | the error is cleared first; a non-superuser gets the denial and no request; a superuser gets exactly one PUT of the payload |
| UpdateUser.OnUpdated | hospital_frontend/src/pages/Users/UpdateUser.jsx:79-95 | success navigates to `/users`; failure sets the newline-flattened or fixed message; never a request |
| UpdateUser.UnchangedPasswordIsNotSent | hospital_frontend/src/pages/Users/UpdateUser.jsx:48-73 | loading a user and saving without typing a password sends no password key |
| UpdateUser.GateFollowsUserAndProfile | hospital_frontend/src/pages/Users/UpdateUser.jsx:33-59 | for any order of replies, loading lasts exactly until the user fetch settles, and the flag is the last profile's (false before any) |
| UpdateUser.DeniedUntilProfile | hospital_frontend/src/pages/Users/UpdateUser.jsx:99-110 | a superuser whose record arrives before the profile sees Access Denied, then the form |
| DeleteUser.Mount | hospital_frontend/src/pages/Users/DeleteUser.jsx:14-33 | with no token, no request and a navigation to `/login`; with one, exactly the profile GET |
| DeleteUser.OnMe | hospital_frontend/src/pages/Users/DeleteUser.jsx:25-33 | a profile settles the gate; a failure toasts and navigates to `/login` with no request |
| DeleteUser.Confirm | hospital_frontend/src/pages/Users/DeleteUser.jsx:36-45 | a superuser sends exactly one DELETE; anyone else gets only the denial toast |
| DeleteUser.OnDeleted | hospital_frontend/src/pages/Users/DeleteUser.jsx:46-56 | success navigates to `/users`; a failure shows "User not found" exactly for status 404, and the generic text otherwise |
| DeleteUser.Cancel | hospital_frontend/src/pages/Users/DeleteUser.jsx:89-91 | navigates to `/users` with no request |
| UsersList.Mount | hospital_frontend/src/pages/Users/Users.jsx:13-23 | with no token, exactly a navigation to `/login`; with one, exactly the profile GET |
| UsersList.OnMe | hospital_frontend/src/pages/Users/Users.jsx:19-40 | stores the flag and the id; a non-superuser ends loading with no list request; a superuser gets one list GET; a failure navigates to `/login` |
| UsersList.OnList | hospital_frontend/src/pages/Users/Users.jsx:32-40 | the list is stored in server order and loading ends; a failure navigates to `/login` |
| UsersList.YesNo | hospital_frontend/src/pages/Users/Users.jsx:88-89 | "Yes" exactly for a truthy flag, "No" exactly for a falsy one |
| UsersList.RowOf | hospital_frontend/src/pages/Users/Users.jsx:84-99 | every row has Edit; Remove appears exactly when the id is not strictly equal to the current user's; a missing hospital shows "N/A" |
| UsersList.TableBody | hospital_frontend/src/pages/Users/Users.jsx:83-106 | "No Users found" exactly for an empty list; otherwise one row per user in server order |
| UsersList.Page | hospital_frontend/src/pages/Users/Users.jsx:46-65 | the table shows exactly behind an open gate |
| UsersList.NoSelfRemoval | hospital_frontend/src/pages/Users/Users.jsx:95-99 | the signed-in user's own row never gets a Remove link |
| UsersList.NonSuperuserNeverListed | hospital_frontend/src/pages/Users/Users.jsx:24-30 | a non-superuser profile ends on Access Denied without the list being requested |
| HospitalForms.Splice | hospital_frontend/src/pages/Hospitals/CreateHospital.jsx:98 | an edit keeps the text around the selection and inserts a prefix of the new text; the result stays within the bound when the old text was, is cut only when it ends up exactly full, and a control already over the bound never grows |
| HospitalForms.FullControlRefusesInsert | hospital_frontend/src/pages/Hospitals/CreateHospital.jsx:98 | typing at a caret in a full control leaves its text unchanged |
| HospitalForms.Edit | hospital_frontend/src/pages/Hospitals/CreateHospital.jsx:94-131 | the edited control takes what the browser accepted for the selection, the other three are unchanged, the edited control grows past its bound only if it already was, and the bounds are preserved |
| HospitalForms.TypingStaysBounded | hospital_frontend/src/pages/Hospitals/CreateHospital.jsx:94-131 | any sequence of edits keeps name ≤ 100, address ≤ 255, phone ≤ 15 and email ≤ 100 characters |
| HospitalForms.PayloadLookups | hospital_frontend/src/pages/Hospitals/CreateHospital.jsx:44-49 | the body has `hospital_name`, `address`, `phone_number` and `email`, and no camel-case key |
| HospitalForms.PayloadRoundTrip | hospital_frontend/src/pages/Hospitals/CreateHospital.jsx:44-49 | reading the body back by the server's keys gives the submitted controls |
| CreateHospital.StoredTokenAsWritten | hospital_frontend/src/pages/Hospitals/CreateHospital.jsx:16 | the token is read from the key `token`, and is `null` when that key is absent |
| CreateHospital.TokenKeyMismatch | hospital_frontend/src/pages/Hospitals/CreateHospital.jsx:16-23 | after a login into storage without a `token` key, the page sends `Bearer null` |
| CreateHospital.StoredToken | hospital_frontend/src/pages/Users/AddUser.jsx:19 | the token read from `access_token`, the key the user pages read: the stored text, or `null` when absent |
| CreateHospital.TokenAfterLogin | hospital_frontend/src/pages/Hospitals/CreateHospital.jsx:16-23 | read from `access_token`, the token a login stored is the one the profile request sends |
| CreateHospital.Mount | hospital_frontend/src/pages/Hospitals/CreateHospital.jsx:16-33 | exactly one profile GET, sent even without a token, authorised with what the `token` key holds, or `Bearer null` when that key is absent |
| CreateHospital.MountCorrected | hospital_frontend/src/pages/Users/AddUser.jsx:19 | the same profile GET authorised from `access_token`, the key the user pages read |
| CreateHospital.MountAfterLogin | hospital_frontend/src/pages/Hospitals/CreateHospital.jsx:16-22 | right after a login, the page as written sends `Bearer null` while the corrected page sends the stored access token |
| CreateHospital.OnMe | hospital_frontend/src/pages/Hospitals/CreateHospital.jsx:19-30 | a profile ends loading, and the form shows exactly for a superuser; a failure navigates to `/login` and keeps the page loading |
| CreateHospital.Submit | hospital_frontend/src/pages/Hospitals/CreateHospital.jsx:35-51 | no request exactly for a non-superuser, who gets the denial message; otherwise one POST of the renamed controls with the token, nothing else changed |
| CreateHospital.OnCreated | hospital_frontend/src/pages/Hospitals/CreateHospital.jsx:53-60 | the state is unchanged; success navigates to `/hospitals`; failure toasts the fixed text and navigates nowhere |
| CreateHospital.RenderedFormAlwaysPosts | hospital_frontend/src/pages/Hospitals/CreateHospital.jsx:63-85 | where the form is rendered, the submit guard always lets the POST through |
| CreateHospital.PostedValuesBounded | hospital_frontend/src/pages/Hospitals/CreateHospital.jsx:94-131 | whatever was typed since the page opened, the controls are within their bounds |
| UpdateHospital.Mount | hospital_frontend/src/pages/Hospitals/UpdateHospital.jsx:15-30 | exactly one GET of the record, without a token |
| UpdateHospital.Prefill | hospital_frontend/src/pages/Hospitals/UpdateHospital.jsx:18-23 | the name is copied as is; address, phone and email are the record's value when truthy and `''` otherwise |
| UpdateHospital.OnLoaded | hospital_frontend/src/pages/Hospitals/UpdateHospital.jsx:16-27 | a reply prefills; a failure toasts the load error and keeps the controls |
| UpdateHospital.Submit | hospital_frontend/src/pages/Hospitals/UpdateHospital.jsx:32-40 | exactly one PUT, without a token, whose body reads back as the controls |
| UpdateHospital.OnUpdated | hospital_frontend/src/pages/Hospitals/UpdateHospital.jsx:41-48 | success navigates to `/hospitals`; failure toasts the fixed text and navigates nowhere |
| UpdateHospital.LoadFailureLeavesBlank | hospital_frontend/src/pages/Hospitals/UpdateHospital.jsx:24-27 | a failed load leaves the empty controls, and the empty name blocks the submit |
| UpdateHospital.MissingFieldsOnSubmit | hospital_frontend/src/pages/Hospitals/UpdateHospital.jsx:20-23 | a missing name blocks the submit, while a `null` address, phone or email is sent back as `''` |
| UpdateHospital.PrefillThenSubmit | hospital_frontend/src/pages/Hospitals/UpdateHospital.jsx:18-40 | a stored record saved unedited goes back unchanged, except that each `null` optional field becomes `''` |
| DepartmentForms.Options | hospital_frontend/src/pages/Departmentes/CreateDepartment.jsx:63-65 | the placeholder `''` followed by each hospital's id as text, in list order |
| DepartmentForms.SelectHospital | hospital_frontend/src/pages/Departmentes/CreateDepartment.jsx:58-65 | picking an option stores its text value and leaves the name |
| DepartmentForms.PayloadRoundTrip | hospital_frontend/src/pages/Departmentes/CreateDepartment.jsx:22-25 | reading the body back by `department_name` and `hospital` gives the submitted controls |
| DepartmentForms.SelectedHospitalIsText | hospital_frontend/src/pages/Departmentes/CreateDepartment.jsx:22-25 | a picked hospital goes out as the text of its id, not a number, and that text parses back to the id |
| DepartmentForms.StatusMessage | hospital_frontend/src/pages/Departmentes/CreateDepartment.jsx:34 | the prefix, then `Unknown error` exactly when there is no status, otherwise text parsing back to the status |
| CreateDepartment.Mount | hospital_frontend/src/pages/Departmentes/CreateDepartment.jsx:13-17 | exactly one GET of the hospital list |
| DepartmentForms.OnHospitals | hospital_frontend/src/pages/Departmentes/CreateDepartment.jsx:14-16 | the list replaces the options; a failure changes nothing; the controls are never touched; the update page (Departmentes/UpdateDepartment.jsx:25-27) handles the list the same way |
| CreateDepartment.Submit | hospital_frontend/src/pages/Departmentes/CreateDepartment.jsx:19-25 | exactly one POST, without a token, whose body reads back as the controls |
| CreateDepartment.OnCreated | hospital_frontend/src/pages/Departmentes/CreateDepartment.jsx:26-35 | success clears both controls and navigates to `/departments`; failure keeps everything, toasts the status message and navigates nowhere |
| CreateDepartment.CreatedFormCannotResubmit | hospital_frontend/src/pages/Departmentes/CreateDepartment.jsx:27-28 | after a success the cleared controls fail the `required` check |
| UpdateDepartment.Mount | hospital_frontend/src/pages/Departmentes/UpdateDepartment.jsx:14-28 | two independent GETs, the record and the hospital list, without a token |
| UpdateDepartment.OnRecord | hospital_frontend/src/pages/Departmentes/UpdateDepartment.jsx:16-22 | both controls take the record's values with no fallback; a failure changes nothing; the list is never touched |
| UpdateDepartment.FetchesCommute | hospital_frontend/src/pages/Departmentes/UpdateDepartment.jsx:14-28 | the page ends the same whichever fetch settles first, and one fetch's failure leaves the other's result |
| UpdateDepartment.Submit | hospital_frontend/src/pages/Departmentes/UpdateDepartment.jsx:30-36 | exactly one PUT, without a token, whose body reads back as the controls |
| UpdateDepartment.OnUpdated | hospital_frontend/src/pages/Departmentes/UpdateDepartment.jsx:37-44 | success navigates to `/departments`; failure toasts the status message and navigates nowhere |
| UpdateDepartment.PrefillThenSubmit | hospital_frontend/src/pages/Departmentes/UpdateDepartment.jsx:16-36 | a loaded record saved unedited goes back exactly as loaded; a numeric hospital stays a number |
| UpdateDepartment.MissingNameBlocksSubmit | hospital_frontend/src/pages/Departmentes/UpdateDepartment.jsx:17-19 | with no fallback, a record missing its name leaves the control empty, and the submit is blocked |

## Left out

- HTTP, timers, toasts and logging are not executed. Requests, the delayed navigations (2000 and 4000 ms) and toasts are effects, and replies are inputs. Promise interleavings appear only as the order in which replies are applied. Updates after unmount are not modelled.
- Numbers are exact integers plus NaN. There is no IEEE rounding, and no exponent or fraction form in `String(n)` or `parseInt`.
- Object bodies are ordered key/value lists. JSON encoding is not modelled. An error body's values are text or lists of text; nested objects are not modelled.
- Selector option lists are kept in state only where a page reads them back: the department pages, the filter page, and the hospital fetch on the user pages. Elsewhere the fetched lists are only rendered.
- The chart library's configuration, apart from the y-axis bounds and the destroy-before-render rule, is not modelled. The page's early return when the chart element is missing is not modelled; the element is taken to be present.
- The browser's format check for `type="email"` controls is not modelled. Submit handlers require only the `required` controls.
- HospitalForms.Splice: counts `maxLength` in code points, because text is modelled as a sequence of Unicode scalar values. The browser counts UTF-16 code units, so a character outside the Basic Multilingual Plane uses two units of the bound there and one here.
- ErrorText.ForInValues: visits a text body one code point at a time. `for...in` over a string visits UTF-16 code units, so a character outside the Basic Multilingual Plane gives two lone surrogates there and one character here.
- A prefilled value already longer than its bound is kept by the browser, so no bound is claimed for `UpdateHospital.Prefill`. Later edits of such a control never make it longer (`HospitalForms.Edit`).
- The login page's own error formatting is not modelled. Only the tokens it stores are modelled (`Http.AfterLogin`).
- The route table and its token check, the navigation bar's logout, the home page and the layout are static or router wiring.
- The list pages for appointments, employees, patients and departments, and the statistics cards, only forward a search string and render rows in server order.
- The delete pages other than the user delete page are one DELETE each with no branching. The job-type pages are single-field pass-throughs.
- Markup, styling and locale-dependent date display are not modelled.

## Findings

| source | as written | input that shows it | evidently intended | confidence | as-written member | corrected member |
|---|---|---|---|---|---|---|
| hospital_frontend/src/pages/Hospitals/CreateHospital.jsx:16 | the page reads its bearer token from the storage key `token`, but the login page writes only `access_token` and `refresh_token` (Login&Signup/Login.jsx:18-19) | log in from empty storage, then open the hospital create page: the profile request carries `Authorization: Bearer null` and is refused, so the page goes to `/login` | read `access_token`, like the four user pages | not executed | CreateHospital.Mount, CreateHospital.TokenKeyMismatch, CreateHospital.MountAfterLogin | CreateHospital.MountCorrected, CreateHospital.TokenAfterLogin |
