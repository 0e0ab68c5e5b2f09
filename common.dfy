/** Values and string helpers shared by every page of the client: optional values, the
    white-space set and `trim` of JavaScript strings, decimal integers as strings, the
    integer part of `Number(...)`, `padStart`, and JSON values with their truthiness. */
module Common {

  datatype Option<T> = None | Some(value: T) {
    predicate IsFailure() {
      None?
    }

    function PropagateFailure<U>(): Option<U>
      requires None?
    {
      None
    }

    function Extract(): T
      requires Some?
    {
      value
    }
  }

  /** JavaScript truthiness of an optional string (`null`, `undefined` and `""` are falsy). */
  predicate Present(s: Option<string>) {
    s.Some? && s.value != ""
  }

  /** `a || b` on strings: the first operand when it is non-empty, else the fallback. */
  function OrElse(s: string, fallback: string): (r: string)
    ensures s != "" ==> r == s
    ensures s == "" ==> r == fallback
  {
    if s != "" then s else fallback
  }

  // ---------------------------------------------------------------------------
  // White space, as `String.prototype.trim` and the regular-expression class `\s` see it:
  // the WhiteSpace code points of ECMAScript plus its LineTerminator code points.

  predicate IsLineTerminator(c: char) {
    c == '\n' || c == '\r' || c == '\U{2028}' || c == '\U{2029}'
  }

  predicate IsWhitespace(c: char) {
    || c == '\t' || c == '\U{000B}' || c == '\U{000C}' || c == ' '
    || c == '\U{00A0}' || c == '\U{FEFF}' || c == '\U{1680}'
    || ('\U{2000}' <= c <= '\U{200A}')
    || c == '\U{202F}' || c == '\U{205F}' || c == '\U{3000}'
    || IsLineTerminator(c)
  }

  /** How many UTF-16 code units JavaScript stores for `c`: a character outside the Basic
      Multilingual Plane is a surrogate pair. */
  function Units(c: char): nat {
    if c as int >= 0x1_0000 then 2 else 1
  }

  /** `s.length` in JavaScript: the number of UTF-16 code units. */
  function UnitLength(s: string): (n: nat)
    ensures n >= |s|
  {
    if s == [] then 0 else Units(s[0]) + UnitLength(s[1..])
  }

  /** A string of Basic Multilingual Plane characters has one code unit per character. */
  lemma {:induction false} UnitLengthBmp(s: string)
    requires forall k :: 0 <= k < |s| ==> s[k] as int < 0x1_0000
    ensures UnitLength(s) == |s|
  {
    if s != [] {
      UnitLengthBmp(s[1..]);
    }
  }

  predicate Blank(s: string) {
    forall k :: 0 <= k < |s| ==> IsWhitespace(s[k])
  }

  predicate NoWhitespace(s: string) {
    forall k :: 0 <= k < |s| ==> !IsWhitespace(s[k])
  }

  /** Leading white space removed. */
  function TrimStart(s: string): string {
    if s != [] && IsWhitespace(s[0]) then TrimStart(s[1..]) else s
  }

  /** Trailing white space removed. */
  function TrimEnd(s: string): string {
    if s != [] && IsWhitespace(s[|s| - 1]) then TrimEnd(s[..|s| - 1]) else s
  }

  /** `TrimStart` leaves a suffix of `s` that does not start with white space, and
      everything it cuts is white space. */
  lemma {:induction false} TrimStartSpec(s: string)
    ensures var r := TrimStart(s);
      && |r| <= |s| && r == s[|s| - |r|..]
      && (forall k :: 0 <= k < |s| - |r| ==> IsWhitespace(s[k]))
      && (r == [] || !IsWhitespace(r[0]))
  {
    if s != [] && IsWhitespace(s[0]) {
      TrimStartSpec(s[1..]);
      forall k | 1 <= k < |s| ensures s[1..][k - 1] == s[k] { }
    }
  }

  /** `TrimEnd` leaves a prefix of `s` that does not end with white space, and everything it
      cuts is white space. */
  lemma {:induction false} TrimEndSpec(s: string)
    ensures var r := TrimEnd(s);
      && |r| <= |s| && r == s[..|r|]
      && (forall k :: |r| <= k < |s| ==> IsWhitespace(s[k]))
      && (r == [] || !IsWhitespace(r[|r| - 1]))
  {
    if s != [] && IsWhitespace(s[|s| - 1]) {
      TrimEndSpec(s[..|s| - 1]);
    }
  }

  /** How many code points `trim` cuts from the front of `s`. */
  function TrimOffset(s: string): (i: nat)
    ensures i <= |s|
  {
    TrimStartSpec(s);
    |s| - |TrimStart(s)|
  }

  /** `s.trim()`: white space removed at both ends. */
  function Trim(s: string): string {
    TrimEnd(TrimStart(s))
  }

  /** `s.trim()` is the infix of `s` left after removing white space at both ends: what it
      cuts is white space, its own ends are not, and it is empty exactly when `s` is blank. */
  lemma TrimSpec(s: string)
    ensures var r := Trim(s);
      && TrimOffset(s) + |r| <= |s| && r == s[TrimOffset(s)..TrimOffset(s) + |r|]
      && (forall k :: 0 <= k < TrimOffset(s) ==> IsWhitespace(s[k]))
      && (forall k :: TrimOffset(s) + |r| <= k < |s| ==> IsWhitespace(s[k]))
      && (r != "" ==> !IsWhitespace(r[0]) && !IsWhitespace(r[|r| - 1]))
      && (r == "" <==> Blank(s))
  {
    var t := TrimStart(s);
    TrimStartSpec(s);
    var r := TrimEnd(t);
    TrimEndSpec(t);
    var i := TrimOffset(s);
    assert i == |s| - |t| && t == s[i..];
    assert r == t[..|r|];
    assert r == s[i..i + |r|];
    forall k | i + |r| <= k < |s| ensures IsWhitespace(s[k]) {
      assert s[k] == t[k - i];
    }
    if r != "" {
      assert r[0] == t[0];
    }
    TrimEmpty(s);
  }

  /** `!s.trim()`: the trimmed text is empty exactly when `s` is blank. */
  lemma TrimEmpty(s: string)
    ensures Trim(s) == "" <==> Blank(s)
  {
    var t := TrimStart(s);
    TrimStartSpec(s);
    TrimEndSpec(t);
    if Trim(s) == "" {
      assert t == [];
    } else {
      assert s[|s| - |t|] == t[0];
    }
  }

  /** A string without white space is its own trim. */
  lemma TrimNoWhitespace(s: string)
    requires NoWhitespace(s)
    ensures Trim(s) == s
  {
    TrimSpec(s);
    var r, i := Trim(s), TrimOffset(s);
    if s != [] {
      assert !IsWhitespace(s[0]) && !IsWhitespace(s[|s| - 1]);
    }
  }

  /** Trimming twice is trimming once. */
  lemma TrimIdempotent(s: string)
    ensures Trim(Trim(s)) == Trim(s)
  {
    var r := Trim(s);
    TrimSpec(s);
    TrimSpec(r);
    if r != "" {
      TrimNoWhitespaceAtEnds(r);
    }
  }

  /** A string whose ends are not white space is its own trim. */
  lemma TrimNoWhitespaceAtEnds(r: string)
    requires r != "" && !IsWhitespace(r[0]) && !IsWhitespace(r[|r| - 1])
    ensures Trim(r) == r
  {
    TrimSpec(r);
    var j, i := Trim(r), TrimOffset(r);
    assert !IsWhitespace(r[0]);
    assert !IsWhitespace(r[|r| - 1]);
  }

  // ---------------------------------------------------------------------------
  // ASCII character classes (`\d`, `[A-Z]`, `[a-z]`).

  predicate IsDigit(c: char) { '0' <= c <= '9' }
  predicate IsAsciiUpper(c: char) { 'A' <= c <= 'Z' }
  predicate IsAsciiLower(c: char) { 'a' <= c <= 'z' }
  predicate IsAsciiLetter(c: char) { IsAsciiUpper(c) || IsAsciiLower(c) }

  predicate AllDigits(s: string) {
    forall k :: 0 <= k < |s| ==> IsDigit(s[k])
  }

  // ---------------------------------------------------------------------------
  // Decimal integers written as strings (`n.toString()` and the integer part of `Number(s)`).

  function DigitValue(c: char): (d: nat)
    requires IsDigit(c)
    ensures d < 10
  {
    (c as int) - ('0' as int)
  }

  function DigitChar(d: nat): (c: char)
    requires d < 10
    ensures IsDigit(c) && DigitValue(c) == d
  {
    (('0' as int) + d) as char
  }

  /** The value of a string of decimal digits, most significant first ("" is 0). */
  function DecimalValue(s: string): nat
    requires AllDigits(s)
  {
    if s == [] then 0 else DecimalValue(s[..|s| - 1]) * 10 + DigitValue(s[|s| - 1])
  }

  /** `n.toString()` for a natural number: shortest decimal form, no leading zero. */
  function NatToString(n: nat): (s: string)
    ensures |s| >= 1 && AllDigits(s) && NoWhitespace(s)
    ensures DecimalValue(s) == n
    ensures |s| > 1 ==> s[0] != '0'
  {
    if n < 10 then
      [DigitChar(n)]
    else
      var p := NatToString(n / 10);
      var s := p + [DigitChar(n % 10)];
      assert s[..|s| - 1] == p;
      s
  }

  /** `i.toString()` for an integer. */
  function IntToString(i: int): (s: string)
    ensures |s| >= 1 && NoWhitespace(s)
    ensures i >= 0 ==> s == NatToString(i)
    ensures i < 0 ==> s == "-" + NatToString(-i)
  {
    if i < 0 then "-" + NatToString(-i) else NatToString(i)
  }

  /** Leading zeros do not change the value of a decimal string. */
  lemma {:induction false} DecimalLeadingZero(s: string)
    requires AllDigits(s)
    ensures AllDigits("0" + s) && DecimalValue("0" + s) == DecimalValue(s)
  {
    var z := "0" + s;
    if s != [] {
      var p := s[..|s| - 1];
      assert z[..|z| - 1] == "0" + p;
      DecimalLeadingZero(p);
    }
  }

  /** The result of JavaScript's `Number(s)` on the strings this model reads: integers. */
  datatype Number = Num(value: int) | NaN

  /** `Number(s)` restricted to decimal integers: surrounding white space is ignored, the
      empty or blank string is 0, an optional sign may precede the digits, anything else is
      `NaN` (fractions and exponents are not modelled). */
  function ToNumber(s: string): (r: Number)
    ensures Blank(s) ==> r == Num(0)
  {
    TrimEmpty(s);
    var t := Trim(s);
    if t == "" then Num(0)
    else if AllDigits(t) then Num(DecimalValue(t))
    else if |t| > 1 && (t[0] == '-' || t[0] == '+') && AllDigits(t[1..]) then
      var v: int := DecimalValue(t[1..]);
      Num(if t[0] == '-' then -v else v)
    else NaN
  }

  /** `Number(String(i)) === i`: printing an integer and reading it back gives it again. */
  lemma IntToStringRoundTrip(i: int)
    ensures ToNumber(IntToString(i)) == Num(i)
  {
    var s := IntToString(i);
    TrimNoWhitespace(s);
    if i < 0 {
      assert s[1..] == NatToString(-i);
      assert !IsDigit(s[0]);
    }
  }

  /** `s.padStart(n, c)` with a one-character pad. */
  function PadStart(s: string, n: nat, c: char): (r: string)
    ensures |r| == if |s| >= n then |s| else n
    ensures r[|r| - |s|..] == s
    ensures forall k :: 0 <= k < |r| - |s| ==> r[k] == c
    decreases n - |s|
  {
    if |s| >= n then s else PadStart([c] + s, n, c)
  }

  /** Zero-padding a natural number's decimal form keeps its value. */
  lemma {:induction false} PadStartZerosValue(s: string, n: nat)
    requires AllDigits(s)
    ensures AllDigits(PadStart(s, n, '0')) && DecimalValue(PadStart(s, n, '0')) == DecimalValue(s)
    decreases n - |s|
  {
    if |s| < n {
      DecimalLeadingZero(s);
      PadStartZerosValue("0" + s, n);
    }
  }

  // ---------------------------------------------------------------------------
  // JSON values as the browser hands them to the page after `res.json()`.

  datatype Json =
    | JNull
    | JBool(b: bool)
    | JNum(n: int)
    | JStr(s: string)
    | JArr(items: seq<Json>)
    | JObj(fields: map<string, Json>)

  /** JavaScript truthiness: `null`, `false`, `0` and `""` are falsy; arrays and objects,
      even empty ones, are truthy. */
  predicate Truthy(j: Json) {
    match j
    case JNull => false
    case JBool(b) => b
    case JNum(n) => n != 0
    case JStr(s) => s != ""
    case JArr(_) => true
    case JObj(_) => true
  }

  /** Property access `j[key]` on a non-null value: `None` stands for `undefined`. Arrays,
      strings, numbers and booleans have none of the property names read here. */
  function Property(j: Json, key: string): (r: Option<Json>)
    ensures r.Some? ==> j.JObj? && key in j.fields && r.value == j.fields[key]
    ensures j.JObj? && key in j.fields ==> r.Some?
  {
    if j.JObj? && key in j.fields then Some(j.fields[key]) else None
  }

  /** `x || fallback` where `x` is a property that may be `undefined`. */
  function OrJson(x: Option<Json>, fallback: Json): (r: Json)
    ensures Truthy(r) || r == fallback
    ensures x.Some? && Truthy(x.value) ==> r == x.value
  {
    if x.Some? && Truthy(x.value) then x.value else fallback
  }
}
