/** The fragment of JavaScript value semantics the hospital pages rely on:
    scalar values with their truthiness, `a || b`, `String(v)`, `parseInt`,
    `trim`, `Array.prototype.join` and `String.prototype.replace` with a
    one-character pattern. */
module Js {

  datatype Option<+T> = None | Some(value: T)

  /** A scalar JavaScript value as it occurs in form state, server records and
      request payloads. Numbers are the integers the pages handle (ids,
      counts, status codes) plus NaN, the result of a failed `parseInt`. */
  datatype Value = Undefined | Null | Bool(b: bool) | Num(n: int) | NaN | Str(s: string)

  /** JavaScript truthiness: `undefined`, `null`, `false`, `0`, `NaN` and
      `''` are falsy, everything else is truthy. */
  predicate Truthy(v: Value) {
    match v
    case Undefined => false
    case Null => false
    case NaN => false
    case Bool(b) => b
    case Num(n) => n != 0
    case Str(s) => s != ""
  }

  /** `a || b` */
  function Or(a: Value, b: Value): Value {
    if Truthy(a) then a else b
  }

  /** A control prefilled with `v || ''`: the value itself when truthy, the
      empty text otherwise. */
  predicate PrefilledFrom(c: Value, v: Value) {
    (Truthy(v) ==> c == v) && (!Truthy(v) ==> c == Str(""))
  }

  /** `text || null`, for a value the page only ever holds as a string. */
  function BlankToNull(text: string): (r: Value)
    ensures text == "" <==> r == Null
    ensures text != "" ==> r == Str(text)
  {
    Or(Str(text), Null)
  }

  /** Strict equality `===`: NaN equals nothing, not even itself. */
  predicate StrictEquals(a: Value, b: Value) {
    a == b && !a.NaN?
  }

  // ---------------------------------------------------------------------------
  // Decimal rendering: String(n) for integers

  function DigitChar(d: nat): char
    requires d < 10
  {
    "0123456789"[d]
  }

  predicate IsDecimalDigit(c: char) {
    '0' <= c <= '9'
  }

  /** The decimal numeral of `n`, without leading zeros. */
  function NatToString(n: nat): string
    decreases n
  {
    if n < 10 then [DigitChar(n)] else NatToString(n / 10) + [DigitChar(n % 10)]
  }

  function IntToString(n: int): string {
    if n < 0 then "-" + NatToString(-n) else NatToString(n)
  }

  /** `String(v)`, which is also what a template literal `${v}` produces. */
  function ToString(v: Value): string {
    match v
    case Undefined => "undefined"
    case Null => "null"
    case NaN => "NaN"
    case Bool(b) => if b then "true" else "false"
    case Num(n) => IntToString(n)
    case Str(s) => s
  }

  /** The text a form control shows for a controlled value: React renders
      `null` and `undefined` as an empty control. */
  function ControlText(v: Value): string {
    if v.Null? || v.Undefined? then "" else ToString(v)
  }

  /** What the browser's `required` check sees: a non-empty control. */
  predicate Filled(v: Value) {
    ControlText(v) != ""
  }

  // ---------------------------------------------------------------------------
  // Whitespace and trim

  /** ECMAScript WhiteSpace and LineTerminator code points, which `trim` and
      `parseInt` skip. */
  const SpaceChars: string := "\t\n\U{000B}\U{000C}\r \U{00A0}\U{1680}\U{2000}\U{2001}\U{2002}\U{2003}\U{2004}\U{2005}\U{2006}\U{2007}\U{2008}\U{2009}\U{200A}\U{2028}\U{2029}\U{202F}\U{205F}\U{3000}\U{FEFF}"
  predicate IsSpace(c: char) {
    c in SpaceChars
  }

  /** `s.trimStart()`: the suffix of `s` left after dropping leading spaces. */
  function TrimStart(s: string): (r: string)
    ensures |r| <= |s| && r == s[|s| - |r|..]
    ensures r == [] || !IsSpace(r[0])
    decreases |s|
  {
    if |s| > 0 && IsSpace(s[0]) then TrimStart(s[1..]) else s
  }

  /** Everything `trimStart` drops is whitespace. */
  lemma {:induction false} TrimStartDropsSpaces(s: string)
    ensures forall i :: 0 <= i < |s| - |TrimStart(s)| ==> IsSpace(s[i])
    decreases |s|
  {
    if |s| > 0 && IsSpace(s[0]) {
      TrimStartDropsSpaces(s[1..]);
      forall i | 1 <= i < |s| - |TrimStart(s)|
        ensures IsSpace(s[i])
      {
        assert s[i] == s[1..][i - 1];
      }
    }
  }

  /** `s.trimEnd()`: the prefix of `s` left after dropping trailing spaces. */
  function TrimEnd(s: string): (r: string)
    ensures |r| <= |s| && r == s[..|r|]
    ensures r == [] || !IsSpace(r[|r| - 1])
    decreases |s|
  {
    if |s| > 0 && IsSpace(s[|s| - 1]) then TrimEnd(s[..|s| - 1]) else s
  }

  /** Everything `trimEnd` drops is whitespace. */
  lemma {:induction false} TrimEndDropsSpaces(s: string)
    ensures forall i :: |TrimEnd(s)| <= i < |s| ==> IsSpace(s[i])
    decreases |s|
  {
    if |s| > 0 && IsSpace(s[|s| - 1]) {
      TrimEndDropsSpaces(s[..|s| - 1]);
      forall i | |TrimEnd(s)| <= i < |s| - 1
        ensures IsSpace(s[i])
      {
        assert s[i] == s[..|s| - 1][i];
      }
    }
  }

  /** Number of leading whitespace code points of `s`. */
  function LeadingSpaces(s: string): (k: nat)
    ensures k == |s| - |TrimStart(s)|
  {
    |s| - |TrimStart(s)|
  }

  /** `s.trim()`: the infix of `s` that starts after its leading whitespace,
      neither starts nor ends with whitespace, and is followed only by
      whitespace. */
  function Trim(s: string): (r: string)
    ensures LeadingSpaces(s) + |r| <= |s|
    ensures r == s[LeadingSpaces(s)..LeadingSpaces(s) + |r|]
    ensures forall i :: 0 <= i < LeadingSpaces(s) ==> IsSpace(s[i])
    ensures forall i :: LeadingSpaces(s) + |r| <= i < |s| ==> IsSpace(s[i])
    ensures r == [] || (!IsSpace(r[0]) && !IsSpace(r[|r| - 1]))
  {
    TrimStartDropsSpaces(s);
    TrimEndDropsSpaces(TrimStart(s));
    TrimEnd(TrimStart(s))
  }

  lemma {:induction false} TrimStartSnoc(s: string, c: char)
    requires IsSpace(c)
    ensures TrimStart(s + [c]) == (if TrimStart(s) == [] then [] else TrimStart(s) + [c])
    decreases |s|
  {
    if s == [] {
      assert TrimStart([c]) == TrimStart([]);
    } else if IsSpace(s[0]) {
      assert (s + [c])[1..] == s[1..] + [c];
      TrimStartSnoc(s[1..], c);
    }
  }

  /** Trailing whitespace never survives `trim`. */
  lemma {:induction false} TrimDropsTrailingSpace(s: string, c: char)
    requires IsSpace(c)
    ensures Trim(s + [c]) == Trim(s)
  {
    TrimStartSnoc(s, c);
    var t := TrimStart(s);
    if t != [] {
      assert (t + [c])[..|t + [c]| - 1] == t;
    }
  }

  /** `trim` leaves a string that neither starts nor ends with whitespace
      unchanged. */
  lemma TrimOfTrimmed(s: string)
    requires s == [] || (!IsSpace(s[0]) && !IsSpace(s[|s| - 1]))
    ensures Trim(s) == s
  {
  }

  // ---------------------------------------------------------------------------
  // join

  /** `parts.join(sep)`. */
  function Join(parts: seq<string>, sep: string): string
    decreases |parts|
  {
    if |parts| == 0 then ""
    else if |parts| == 1 then parts[0]
    else parts[0] + sep + Join(parts[1..], sep)
  }

  lemma {:induction false} JoinAppend(a: seq<string>, b: seq<string>, sep: string)
    requires |a| > 0 && |b| > 0
    ensures Join(a + b, sep) == Join(a, sep) + sep + Join(b, sep)
    decreases |a|
  {
    if |a| == 1 {
      assert (a + b)[1..] == b;
    } else {
      assert (a + b)[1..] == a[1..] + b;
      JoinAppend(a[1..], b, sep);
    }
  }

  /** Joined parts start with the first part and end with the last part. */
  lemma {:induction false} JoinEnds(parts: seq<string>, sep: string)
    requires |parts| > 0
    ensures parts[0] <= Join(parts, sep)
    ensures var j := Join(parts, sep); var l := parts[|parts| - 1];
      |l| <= |j| && j[|j| - |l|..] == l
    decreases |parts|
  {
    if |parts| > 1 {
      JoinEnds(parts[1..], sep);
    }
  }

  // ---------------------------------------------------------------------------
  // parseInt

  /** The value of `c` as a digit of the given radix (10 or 16). */
  function DigitValue(c: char, radix: nat): Option<nat> {
    if '0' <= c <= '9' then Some(c as nat - '0' as nat)
    else if radix == 16 && 'a' <= c <= 'f' then Some(c as nat - 'a' as nat + 10)
    else if radix == 16 && 'A' <= c <= 'F' then Some(c as nat - 'A' as nat + 10)
    else None
  }

  /** Length of the longest prefix of `s` made of radix digits. */
  function DigitRun(s: string, radix: nat): (k: nat)
    ensures k <= |s|
    ensures forall i :: 0 <= i < k ==> DigitValue(s[i], radix).Some?
    ensures k < |s| ==> DigitValue(s[k], radix).None?
    decreases |s|
  {
    if |s| > 0 && DigitValue(s[0], radix).Some? then 1 + DigitRun(s[1..], radix) else 0
  }

  /** The number a run of radix digits denotes, most significant first. */
  function DigitsValue(s: string, radix: nat): nat
    requires forall i :: 0 <= i < |s| ==> DigitValue(s[i], radix).Some?
    decreases |s|
  {
    if |s| == 0 then 0
    else DigitsValue(s[..|s| - 1], radix) * radix + DigitValue(s[|s| - 1], radix).value
  }

  /** The sign step of `parseInt`: whether the text is negative, and the
      text after an optional `-` or `+`. */
  function SignSplit(t: string): (bool, string) {
    if |t| > 0 && (t[0] == '-' || t[0] == '+') then (t[0] == '-', t[1..]) else (false, t)
  }

  /** The radix step of `parseInt`: a `0x`/`0X` prefix selects radix 16 and
      is dropped; otherwise the radix is 10. */
  function RadixSplit(u: string): (nat, string) {
    if |u| >= 2 && u[0] == '0' && (u[1] == 'x' || u[1] == 'X') then (16, u[2..]) else (10, u)
  }

  /** The value of the longest leading run of radix digits, if it is not empty. */
  function LeadingNumber(w: string, radix: nat): Option<nat> {
    var k := DigitRun(w, radix);
    if k == 0 then None else Some(DigitsValue(w[..k], radix))
  }

  /** `parseInt(s)` with no radix argument: skip leading whitespace, take an
      optional sign, switch to radix 16 after a `0x`/`0X` prefix, then read
      the longest run of digits; no digits at all gives NaN. */
  function ParseIntText(s: string): Value
    decreases |s|
  {
    if |s| > 0 && IsSpace(s[0]) then ParseIntText(s[1..]) else ParseUnpadded(s)
  }

  /** `parseInt` on a text that does not start with whitespace. */
  function ParseUnpadded(t: string): Value {
    var (negative, u) := SignSplit(t);
    var (radix, w) := RadixSplit(u);
    match LeadingNumber(w, radix)
    case None => NaN
    case Some(m) => if negative then Num(-(m as int)) else Num(m)
  }

  /** `parseInt(v)`: the argument is first converted with `String(v)`. */
  function ParseInt(v: Value): Value {
    ParseIntText(ToString(v))
  }

  lemma {:induction false} NatToStringDigits(n: nat)
    ensures |NatToString(n)| > 0
    ensures forall i :: 0 <= i < |NatToString(n)| ==> IsDecimalDigit(NatToString(n)[i])
    ensures NatToString(n)[0] == '0' ==> n == 0
    decreases n
  {
    if n >= 10 {
      NatToStringDigits(n / 10);
      assert NatToString(n)[0] == NatToString(n / 10)[0];
    }
  }

  lemma {:induction false} DigitsValueOfNatToString(n: nat)
    ensures forall i :: 0 <= i < |NatToString(n)| ==> DigitValue(NatToString(n)[i], 10).Some?
    ensures DigitsValue(NatToString(n), 10) == n
    decreases n
  {
    NatToStringDigits(n);
    var s := NatToString(n);
    if n >= 10 {
      DigitsValueOfNatToString(n / 10);
      assert s[..|s| - 1] == NatToString(n / 10);
    }
  }

  lemma {:induction false} DigitRunOfDigits(s: string)
    requires forall i :: 0 <= i < |s| ==> IsDecimalDigit(s[i])
    ensures DigitRun(s, 10) == |s|
    decreases |s|
  {
    if |s| > 0 {
      DigitRunOfDigits(s[1..]);
    }
  }

  /** Visible ASCII characters, digits and signs among them, are not
      whitespace. */
  lemma VisibleIsNotSpace(c: char)
    requires '!' <= c <= '~'
    ensures !IsSpace(c)
  {
  }

  lemma NatToStringUnsigned(n: nat)
    ensures ParseIntText(NatToString(n)) == ParseUnpadded(NatToString(n))
    ensures SignSplit(NatToString(n)) == (false, NatToString(n))
    ensures RadixSplit(NatToString(n)) == (10, NatToString(n))
    ensures LeadingNumber(NatToString(n), 10) == Some(n)
  {
    var s := NatToString(n);
    NatToStringDigits(n);
    VisibleIsNotSpace(s[0]);
    assert SignSplit(s) == (false, s);
    assert RadixSplit(s) == (10, s);
    DigitsValueOfNatToString(n);
    DigitRunOfDigits(s);
    assert s[..|s|] == s;
  }

  /** The numeral of a natural number parses back to it. */
  lemma ParseNatToString(n: nat)
    ensures ParseIntText(NatToString(n)) == Num(n)
  {
    NatToStringUnsigned(n);
  }

  /** A minus sign followed by the numeral of `n` parses to `-n`. */
  lemma ParseNegNatToString(n: nat)
    ensures ParseIntText("-" + NatToString(n)) == Num(-(n as int))
  {
    var s := NatToString(n);
    var t := "-" + s;
    NatToStringUnsigned(n);
    VisibleIsNotSpace('-');
    assert ParseIntText(t) == ParseUnpadded(t);
    assert SignSplit(t) == (true, s);
  }

  /** `parseInt(String(n)) === n`: an integer id that travelled through a
      form control as its decimal text comes back unchanged. */
  lemma ParseIntOfToString(n: int)
    ensures ParseInt(Num(n)) == Num(n)
    ensures ParseInt(Str(IntToString(n))) == Num(n)
  {
    if n < 0 {
      ParseNegNatToString(-n);
    } else {
      ParseNatToString(n);
    }
  }

  /** A non-zero id prefilled with `id || ''` and sent as `parseInt(...)`
      comes back as the same id. */
  lemma PrefilledIdRoundTrip(v: Value)
    requires v.Num? && v.n != 0
    ensures ParseInt(Or(v, Str(""))) == v
  {
    ParseIntOfToString(v.n);
  }

  /** An optional text that is `null` or filled, prefilled with `x || ''`
      and sent as `x || null`, comes back unchanged. */
  lemma PrefilledOptionalRoundTrip(v: Value)
    requires v.Null? || (v.Str? && v.s != "")
    ensures Or(Or(v, Str("")), Null) == v
  {
  }

  /** `parseInt` reads the text after its leading whitespace. */
  lemma {:induction false} ParseSkipsLeadingSpace(s: string)
    ensures ParseIntText(s) == ParseUnpadded(TrimStart(s))
    decreases |s|
  {
    if |s| > 0 && IsSpace(s[0]) {
      ParseSkipsLeadingSpace(s[1..]);
    }
  }

  /** An empty selection parses to NaN. */
  lemma ParseIntOfEmpty()
    ensures ParseInt(Str("")) == NaN
  {
  }

  // ---------------------------------------------------------------------------
  // replace

  /** `s.replace(c, '')` with a one-character string pattern: only the first
      occurrence is removed. */
  function RemoveFirst(s: string, c: char): (r: string)
    ensures c !in s ==> r == s
    ensures c in s ==> |r| == |s| - 1
    decreases |s|
  {
    if |s| == 0 then s
    else if s[0] == c then s[1..]
    else [s[0]] + RemoveFirst(s[1..], c)
  }

  /** Removing the first `c` from a text written as `a`, `c`, `b` with no `c`
      in `a` leaves `a` followed by `b`, whatever `b` holds. */
  lemma {:induction false} RemoveFirstSplit(a: string, c: char, b: string)
    requires c !in a
    ensures RemoveFirst(a + [c] + b, c) == a + b
    decreases |a|
  {
    if |a| > 0 {
      assert (a + [c] + b)[1..] == a[1..] + [c] + b;
      RemoveFirstSplit(a[1..], c, b);
      assert [a[0]] + (a[1..] + b) == a + b;
    }
  }

  /** What is removed is exactly one `c`, if there was one: the characters
      are the same apart from it. */
  lemma {:induction false} RemoveFirstMultiset(s: string, c: char)
    ensures multiset(RemoveFirst(s, c)) == multiset(s) - multiset{c}
    decreases |s|
  {
    if |s| > 0 {
      assert s == [s[0]] + s[1..];
      if s[0] != c {
        RemoveFirstMultiset(s[1..], c);
      }
    }
  }
}
