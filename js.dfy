/** JavaScript values as the app sees them after JSON.parse, JavaScript truthiness,
    property access, thrown exceptions, and the String methods the app uses
    (trim, split, includes). */
module Js {

  datatype Option<+T> = None | Some(value: T)

  /** A JSON value, plus `undefined` (what reading a missing property yields).
      JSON numbers are restricted to integers. */
  datatype Value =
    | Undefined
    | JNull
    | JBool(b: bool)
    | JNum(n: int)
    | JStr(s: string)
    | JArr(items: seq<Value>)
    | JObj(fields: map<string, Value>)

  /** JavaScript's ToBoolean on these values: `if (v)`, `v || d`, `v && w`. */
  predicate Truthy(v: Value) {
    match v
    case Undefined => false
    case JNull => false
    case JBool(b) => b
    case JNum(n) => n != 0
    case JStr(s) => s != ""
    case JArr(_) => true
    case JObj(_) => true
  }

  /** `v.key`: None when the access throws a TypeError (v is null or undefined),
      `undefined` when an object lacks the key or v is a primitive or an array. */
  function Prop(v: Value, key: string): (r: Option<Value>)
    ensures r.None? <==> v == JNull || v == Undefined
    ensures v.JObj? ==> r == Some(if key in v.fields then v.fields[key] else Undefined)
  {
    match v
    case Undefined => None
    case JNull => None
    case JObj(m) => Some(if key in m then m[key] else Undefined)
    case _ => Some(Undefined)
  }

  /** `data.key` once `data` is known not to be null or undefined. */
  function Field(data: Value, key: string): Value {
    match Prop(data, key)
    case Some(v) => v
    case None => Undefined
  }

  /** `a || fallback` where the result is then used as a string (an Error message,
      a text shown on screen): the string form of a when it is truthy. */
  function OrElse(a: Value, fallback: string): (r: string)
    ensures Truthy(a) && a.JStr? ==> r == a.s
    ensures !Truthy(a) ==> r == fallback
  {
    if Truthy(a) then ToJsString(a) else fallback
  }

  /** JavaScript's String(v). Array elements that are null or undefined print as "". */
  function ToJsString(v: Value): string
    decreases v
  {
    match v
    case Undefined => "undefined"
    case JNull => "null"
    case JBool(b) => if b then "true" else "false"
    case JNum(n) => IntToString(n)
    case JStr(s) => s
    case JObj(_) => "[object Object]"
    case JArr(items) =>
      JoinWith(seq(|items|, i requires 0 <= i < |items| =>
        if items[i] == JNull || items[i] == Undefined then "" else ToJsString(items[i])), ",")
  }

  function JoinWith(parts: seq<string>, sep: string): string {
    if parts == [] then "" else if |parts| == 1 then parts[0]
    else parts[0] + sep + JoinWith(parts[1..], sep)
  }

  // ---------------------------------------------------------------------------
  // Exceptions

  datatype ErrorName = PlainError | TypeError | SyntaxError

  /** A thrown `Error` (or subclass) with its message. */
  datatype Exception = Exception(name: ErrorName, message: string)

  /** How an async operation ends: it resolves to a value or rejects with an exception. */
  datatype Outcome<+T> = Returned(value: T) | Threw(error: Exception)

  /** `new Error(message)` */
  function Fail<T>(message: string): Outcome<T> {
    Threw(Exception(PlainError, message))
  }

  /** What `response.json()` throws on a body that is not JSON. Its message is
      engine-specific and is fixed here. */
  const PARSE_FAILURE: Exception := Exception(SyntaxError, "JSON Parse error")

  /** What reading a property of null throws. Its message is engine-specific. */
  const NULL_ACCESS: Exception := Exception(TypeError, "Cannot read property of null")

  /** A dialog shown with React Native's `Alert.alert(title, message)`. */
  datatype Dialog = Dialog(title: string, message: string)

  // ---------------------------------------------------------------------------
  // Numbers as text

  function DigitChar(d: nat): (c: char)
    requires d < 10
    ensures '0' <= c <= '9'
  {
    ('0' as int + d) as char
  }

  /** Decimal digits of n, most significant first, no leading zeros. */
  function NatToString(n: nat): (s: string)
    ensures |s| >= 1
    ensures forall i :: 0 <= i < |s| ==> '0' <= s[i] <= '9'
    decreases n
  {
    if n < 10 then [DigitChar(n)] else NatToString(n / 10) + [DigitChar(n % 10)]
  }

  function IntToString(n: int): string {
    if n < 0 then "-" + NatToString(-n) else NatToString(n)
  }

  // ---------------------------------------------------------------------------
  // Strings

  /** The characters String.prototype.trim removes: WhiteSpace and LineTerminator. */
  const WHITE_SPACE: set<char> := {
    ' ', '\t', '\n', '\r', '\U{B}', '\U{C}', '\U{A0}', '\U{1680}',
    '\U{2000}', '\U{2001}', '\U{2002}', '\U{2003}', '\U{2004}', '\U{2005}',
    '\U{2006}', '\U{2007}', '\U{2008}', '\U{2009}', '\U{200A}',
    '\U{2028}', '\U{2029}', '\U{202F}', '\U{205F}', '\U{3000}', '\U{FEFF}'
  }

  predicate IsSpace(c: char) {
    c in WHITE_SPACE
  }

  /** `s.trimStart()` */
  function TrimStart(s: string): string {
    if s != [] && IsSpace(s[0]) then TrimStart(s[1..]) else s
  }

  /** `s.trimEnd()` */
  function TrimEnd(s: string): string {
    if s != [] && IsSpace(s[|s| - 1]) then TrimEnd(s[..|s| - 1]) else s
  }

  /** trimStart() drops a prefix of white space and stops at the first other
      character. */
  lemma {:induction false} TrimStartShape(s: string)
    ensures var r := TrimStart(s);
      |r| <= |s| && r == s[|s| - |r|..] && (r == "" || !IsSpace(r[0]))
      && forall i :: 0 <= i < |s| - |r| ==> IsSpace(s[i])
  {
    if s != [] && IsSpace(s[0]) {
      TrimStartShape(s[1..]);
    }
  }

  /** trimEnd() drops a suffix of white space and stops at the last other
      character. */
  lemma {:induction false} TrimEndShape(s: string)
    ensures var r := TrimEnd(s);
      |r| <= |s| && r == s[..|r|] && (r == "" || !IsSpace(r[|r| - 1]))
      && forall i :: |r| <= i < |s| ==> IsSpace(s[i])
  {
    if s != [] && IsSpace(s[|s| - 1]) {
      TrimEndShape(s[..|s| - 1]);
    }
  }

  /** `s.trim()` */
  function Trim(s: string): string {
    TrimEnd(TrimStart(s))
  }

  /** `!s.trim()`: the string is empty or holds only white space. */
  predicate IsBlank(s: string) {
    Trim(s) == ""
  }

  predicate OccursAt(s: string, sub: string, i: int) {
    0 <= i <= |s| - |sub| && s[i..i + |sub|] == sub
  }

  /** `s.includes(sub)` */
  predicate Contains(s: string, sub: string) {
    exists i | 0 <= i <= |s| - |sub| :: OccursAt(s, sub, i)
  }

  lemma ContainsMiddle(a: string, b: string, c: string)
    ensures Contains(a + b + c, b)
  {
    assert (a + b + c)[|a|..|a| + |b|] == b;
    assert OccursAt(a + b + c, b, |a|);
  }

  function IndexOf(s: string, c: char): (i: nat)
    requires c in s
    ensures i < |s| && s[i] == c && c !in s[..i]
  {
    if s[0] == c then 0 else 1 + IndexOf(s[1..], c)
  }

  /** `s.split(sep)` for a one-character separator. */
  function Split(s: string, sep: char): (parts: seq<string>)
    ensures |parts| >= 1
    decreases |s|
  {
    if sep !in s then [s]
    else
      var i := IndexOf(s, sep);
      [s[..i]] + Split(s[i + 1..], sep)
  }

  /** Splitting and joining back with the separator gives the original string. */
  lemma {:induction false} SplitJoin(s: string, sep: char)
    ensures JoinWith(Split(s, sep), [sep]) == s
    decreases |s|
  {
    if sep in s {
      var i := IndexOf(s, sep);
      var parts, rest := Split(s, sep), Split(s[i + 1..], sep);
      SplitJoin(s[i + 1..], sep);
      assert parts == [s[..i]] + rest && |parts| > 1;
      assert parts[0] == s[..i] && parts[1..] == rest;
      assert JoinWith(parts, [sep]) == s[..i] + [sep] + JoinWith(rest, [sep]);
      assert s == s[..i] + [sep] + s[i + 1..];
    }
  }

  /** No part of a split holds the separator. */
  lemma {:induction false} SplitPartsFree(s: string, sep: char, k: nat)
    requires k < |Split(s, sep)|
    ensures sep !in Split(s, sep)[k]
    decreases |s|
  {
    if sep in s {
      var i := IndexOf(s, sep);
      var parts, rest := Split(s, sep), Split(s[i + 1..], sep);
      assert parts == [s[..i]] + rest;
      if k > 0 {
        SplitPartsFree(s[i + 1..], sep, k - 1);
        assert parts[k] == rest[k - 1];
      }
    }
  }

  /** The first part of a split is the text before the first separator. */
  lemma SplitFirst(s: string, sep: char)
    ensures Split(s, sep)[0] == if sep in s then s[..IndexOf(s, sep)] else s
  {
  }

  /** A string is blank exactly when all of its characters are white space. */
  lemma BlankIffAllSpace(s: string)
    ensures IsBlank(s) <==> forall i :: 0 <= i < |s| ==> IsSpace(s[i])
  {
    var t := TrimStart(s);
    TrimStartShape(s);
    TrimEndShape(t);
    if t != "" {
      assert !IsSpace(s[|s| - |t|]);
      assert TrimEnd(t) != "";
    }
  }

  /** trim() leaves a string whose ends are not white space. */
  lemma TrimEnds(s: string)
    ensures var r := Trim(s);
      r == "" || (!IsSpace(r[0]) && !IsSpace(r[|r| - 1]))
  {
    var t := TrimStart(s);
    var r := TrimEnd(t);
    TrimStartShape(s);
    TrimEndShape(t);
    if r != "" {
      assert r[0] == t[0];
    }
  }

  /** Trimming twice is the same as trimming once. */
  lemma TrimIdempotent(s: string)
    ensures Trim(Trim(s)) == Trim(s)
  {
    var r := Trim(s);
    TrimEnds(s);
    TrimStartShape(r);
    TrimEndShape(r);
    assert TrimStart(r) == r;
    assert TrimEnd(r) == r;
  }
}
