/** The three ways the pages turn a failed request into a message:
    - the pipe flattener (employee update, patient create): every entry of an
      object body as `key: value`, array values joined by `", "`, entries
      joined by `" | "`;
    - the line flattener (user add and update): only the values, each
      followed by a newline, the whole text trimmed;
    - the status message (department create and update): the HTTP status,
      or `Unknown error` when there is none. */
module ErrorText {
  import opened Js
  import opened Http

  /** `${Array.isArray(v) ? v.join(", ") : v}` */
  function ValueText(v: ErrVal): string {
    match v
    case Msg(t) => t
    case Msgs(items) => Join(items, ", ")
  }

  /** `${key}: ${value}` */
  function EntryText(e: (string, ErrVal)): string {
    e.0 + ": " + ValueText(e.1)
  }

  function EntryTexts(entries: seq<(string, ErrVal)>): (r: seq<string>)
    ensures |r| == |entries|
    ensures forall i :: 0 <= i < |entries| ==> r[i] == EntryText(entries[i])
  {
    seq(|entries|, i requires 0 <= i < |entries| => EntryText(entries[i]))
  }

  /** `Object.entries(errors).map(([key, value]) => ...).join(" | ")` */
  function PipeText(entries: seq<(string, ErrVal)>): string {
    Join(EntryTexts(entries), " | ")
  }

  /** The message of the pipe flattener: the flattened body when the reply
      carried an object body, the page's fixed text otherwise. */
  function PipeMessage(response: Option<Response>, fallback: string): string {
    if response.Some? && response.value.data.Fields? then PipeText(response.value.data.entries)
    else fallback
  }

  /** A body with one entry flattens to `key: value`. */
  lemma PipeSingle(key: string, v: ErrVal)
    ensures PipeText([(key, v)]) == key + ": " + ValueText(v)
  {
  }

  /** Flattening distributes over the entries: the message for `a` followed
      by `b` is the message for `a`, a `" | "`, and the message for `b`. */
  lemma PipeAppend(a: seq<(string, ErrVal)>, b: seq<(string, ErrVal)>)
    requires |a| > 0 && |b| > 0
    ensures PipeText(a + b) == PipeText(a) + " | " + PipeText(b)
  {
    assert EntryTexts(a + b) == EntryTexts(a) + EntryTexts(b);
    JoinAppend(EntryTexts(a), EntryTexts(b), " | ");
  }

  /** Without an object body the page shows its fixed text; with one, the
      fixed text is never used, even for an empty object. */
  lemma PipeMessageCases(response: Option<Response>, fallback: string)
    ensures !(response.Some? && response.value.data.Fields?) ==> PipeMessage(response, fallback) == fallback
    ensures response.Some? && response.value.data == Fields([]) ==> PipeMessage(response, fallback) == ""
  {
  }

  // ---------------------------------------------------------------------------
  // Line flattener

  function ValueTexts(entries: seq<(string, ErrVal)>): (r: seq<string>)
    ensures |r| == |entries|
    ensures forall i :: 0 <= i < |entries| ==> r[i] == ValueText(entries[i].1)
  {
    seq(|entries|, i requires 0 <= i < |entries| => ValueText(entries[i].1))
  }

  /** The values `for (let key in errors)` visits, in order: the entries of
      an object body, or every character of a text body (a string's keys are
      its indices, and `errors[key]` is the one-character string there). */
  function ForInValues(data: Body): (r: seq<string>)
    ensures data.Fields? ==> r == ValueTexts(data.entries)
    ensures data.Text? ==> |r| == |data.text| && forall i :: 0 <= i < |r| ==> r[i] == [data.text[i]]
    ensures data.NoData? ==> r == []
  {
    match data
    case NoData => []
    case Fields(entries) => ValueTexts(entries)
    case Text(t) => seq(|t|, i requires 0 <= i < |t| => [t[i]])
  }

  /** The visited values, one per line, trimmed. */
  function LinesText(data: Body): string {
    Trim(Join(ForInValues(data), "\n"))
  }

  /** The loop as the pages write it: `errorText += value + '\n'` for every
      visited value, then `errorText.trim()`. */
  method AccumulateLines(data: Body) returns (text: string)
    ensures text == LinesText(data)
  {
    var values := ForInValues(data);
    var raw := "";
    var i := 0;
    while i < |values|
      invariant 0 <= i <= |values|
      invariant i == 0 ==> raw == ""
      invariant i > 0 ==> raw == Join(values[..i], "\n") + "\n"
    {
      if i > 0 {
        JoinAppend(values[..i], [values[i]], "\n");
      }
      assert values[..i + 1] == values[..i] + [values[i]];
      raw := raw + values[i] + "\n";
      i := i + 1;
    }
    if |values| > 0 {
      assert values[..|values|] == values;
      TrimDropsTrailingSpace(Join(values, "\n"), '\n');
    }
    text := Trim(raw);
  }

  /** With values that have no surrounding whitespace, the message is exactly
      the values, one per line: keys never appear, and nothing is cut. */
  lemma LinesExact(entries: seq<(string, ErrVal)>)
    requires |entries| > 0
    requires var first := ValueText(entries[0].1); first != "" && !IsSpace(first[0])
    requires var last := ValueText(entries[|entries| - 1].1); last != "" && !IsSpace(last[|last| - 1])
    ensures LinesText(Fields(entries)) == Join(ValueTexts(entries), "\n")
  {
    var vs := ValueTexts(entries);
    JoinEnds(vs, "\n");
    var j := Join(vs, "\n");
    assert j[0] == vs[0][0];
    assert j[|j| - 1] == vs[|vs| - 1][|vs[|vs| - 1]| - 1];
    TrimOfTrimmed(j);
  }

  /** The message of the line flattener: the flattened body when the reply
      carried a truthy body, the page's fixed text otherwise. */
  function LinesMessage(response: Option<Response>, fallback: string): string {
    if HasBody(response) then LinesText(response.value.data) else fallback
  }

  // ---------------------------------------------------------------------------
  // Status message

  /** `${error.response?.status || 'Unknown error'}`: the status code as
      decimal text, which parses back to the status, or `Unknown error` when
      there is no response or its status is 0. */
  function StatusText(response: Option<Response>): (r: string)
    ensures response.Some? && response.value.status != 0 ==> ParseInt(Str(r)) == Num(response.value.status)
    ensures (response.None? || response.value.status == 0) <==> r == "Unknown error"
  {
    if response.Some? && response.value.status != 0 then
      var n := response.value.status;
      ParseIntOfToString(n);
      NatToStringDigits(n);
      assert IntToString(n)[0] != 'U';
      IntToString(n)
    else "Unknown error"
  }
}
