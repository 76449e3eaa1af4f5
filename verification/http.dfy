/** What the pages exchange with the outside world. Every handler is modelled
    as a pure function from the view state and one input (a user action or a
    server reply) to the next view state and the list of effects it starts:
    HTTP requests, navigations and toasts. Server replies come back as
    separate inputs, so "no request is issued" is a statement about the
    effect list. */
module Http {
  import opened Js

  /** A JavaScript object literal: keys in insertion order. */
  type Obj = seq<(string, Value)>

  /** The value stored under `key`, if the object has that key. */
  function Lookup(o: Obj, key: string): Option<Value>
    decreases |o|
  {
    if |o| == 0 then None
    else if o[0].0 == key then Some(o[0].1)
    else Lookup(o[1..], key)
  }

  /** The lookup finds the first entry with the key. */
  lemma {:induction false} LookupAt(o: Obj, i: nat, key: string)
    requires i < |o| && o[i].0 == key
    requires forall j :: 0 <= j < i ==> o[j].0 != key
    ensures Lookup(o, key) == Some(o[i].1)
    decreases i
  {
    if i > 0 {
      LookupAt(o[1..], i - 1, key);
    }
  }

  /** A key no entry carries is absent. */
  lemma {:induction false} LookupMissing(o: Obj, key: string)
    requires forall j :: 0 <= j < |o| ==> o[j].0 != key
    ensures Lookup(o, key) == None
    decreases |o|
  {
    if |o| > 0 {
      LookupMissing(o[1..], key);
    }
  }

  /** A property read on a plain object: a missing key reads `undefined`. */
  function Read(o: Obj, key: string): (v: Value)
    ensures Lookup(o, key).Some? ==> v == Lookup(o, key).value
    ensures Lookup(o, key).None? ==> v.Undefined?
  {
    match Lookup(o, key)
    case Some(x) => x
    case None => Undefined
  }

  /** `delete o[key]` */
  function Without(o: Obj, key: string): (r: Obj)
    ensures Lookup(r, key) == None
    ensures forall k :: k != key ==> Lookup(r, k) == Lookup(o, k)
    ensures |r| <= |o|
    decreases |o|
  {
    if |o| == 0 then o
    else if o[0].0 == key then Without(o[1..], key)
    else [o[0]] + Without(o[1..], key)
  }

  /** Base URL every request goes to. */
  const Api: string := "http://127.0.0.1:8000"

  datatype Method = GET | POST | PUT | DELETE

  datatype ToastKind = SuccessToast | ErrorToast

  datatype Effect =
    | Request(verb: Method, url: string, authorization: Option<string>, data: Obj)
    | Navigate(path: string)
    | Toast(kind: ToastKind, text: string)

  /** The next view state together with the effects a handler started. */
  datatype Step<S> = Step(state: S, effects: seq<Effect>)

  predicate NoRequest(effects: seq<Effect>) {
    forall e | e in effects :: !e.Request?
  }

  predicate NoNavigation(effects: seq<Effect>) {
    forall e | e in effects :: !e.Navigate?
  }

  /** The `Authorization` header built from a stored token:
      `Bearer ${token}`, so a missing token is sent as the text `null`. */
  function Bearer(token: Value): Option<string> {
    Some("Bearer " + ToString(token))
  }

  /** A snapshot of the browser's local storage. */
  type Storage = map<string, string>

  /** `localStorage.getItem(key)`: the stored text, or `null`. */
  function GetItem(storage: Storage, key: string): Value {
    if key in storage then Str(storage[key]) else Null
  }

  /** The key under which the login page stores the access token. */
  const AccessTokenKey: string := "access_token"

  /** What a successful login leaves in storage: the access and refresh
      tokens, each under its own key. */
  function AfterLogin(storage: Storage, access: string, refresh: string): (r: Storage)
    ensures GetItem(r, AccessTokenKey) == Str(access)
    ensures GetItem(r, "refresh_token") == Str(refresh)
    ensures forall k :: k != AccessTokenKey && k != "refresh_token" ==> GetItem(r, k) == GetItem(storage, k)
  {
    storage[AccessTokenKey := access]["refresh_token" := refresh]
  }

  // ---------------------------------------------------------------------------
  // Replies

  /** One field's message in a server error body: a single text or a list. */
  datatype ErrVal = Msg(text: string) | Msgs(items: seq<string>)

  /** The body of an error reply (`error.response.data`): absent (`null`,
      `undefined`), a field-keyed object (an array body is the object whose
      keys are its indices), or plain text. */
  datatype Body = NoData | Fields(entries: seq<(string, ErrVal)>) | Text(text: string)

  /** `error.response`: the HTTP status and the body. */
  datatype Response = Response(status: nat, data: Body)

  /** How an awaited request settles: with the reply's data, or with an
      error whose `response` is absent for a transport failure. */
  datatype Reply<+T> = Ok(value: T) | Failed(response: Option<Response>)

  /** `error.response && error.response.data` is truthy. */
  predicate HasBody(response: Option<Response>) {
    response.Some? && (response.value.data.Fields? || (response.value.data.Text? && response.value.data.text != ""))
  }
}
