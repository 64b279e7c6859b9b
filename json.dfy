/**
 * JSON values as the TypeScript sources see them after `JSON.parse`, with the
 * JavaScript coercions and string helpers the core relies on: truthiness,
 * property access, `String(...)`, `trim`, `toLowerCase`, `startsWith`,
 * `endsWith` and the decimal rendering of a number inside a template string.
 */
module Json {
  import opened Wrappers

  /** A parsed JSON value; objects keep their fields in source order. */
  datatype Json =
    | JNull
    | JBool(b: bool)
    | JNum(n: real)
    | JStr(s: string)
    | JArr(elems: seq<Json>)
    | JObj(fields: seq<(string, Json)>)

  /** What `JSON.parse` does: the parsed value, or the message of the `SyntaxError` it throws. */
  type Parser = string -> Result<Json, string>

  /**
   * JavaScript's `String(v)` for the values whose rendering is floating point or
   * library detail (numbers, arrays, objects).
   */
  type Shower = Json -> string

  /** An `Error` object: its `name` (`"Error"`, `"TypeError"`, `"SyntaxError"`, ...) and `message`. */
  datatype ErrorObject = ErrorObject(name: string, message: string)

  /** A value that reaches a `catch`: an `Error` object, or any other value, given by its `String(...)`. */
  datatype Thrown = ErrorThrown(error: ErrorObject) | ValueThrown(text: string)

  /** `Error.prototype.toString`: the name, the message, or both joined by `": "`. */
  function ErrorToString(e: ErrorObject): (r: string)
    ensures e.name == "" ==> r == e.message
    ensures e.message == "" ==> r == e.name
    ensures e.name != "" && e.message != "" ==> r == e.name + ": " + e.message
  {
    if e.name == "" then e.message
    else if e.message == "" then e.name
    else e.name + ": " + e.message
  }

  /** `String(err)` for a caught value. */
  function ThrownToString(t: Thrown): string
  {
    match t
    case ErrorThrown(e) => ErrorToString(e)
    case ValueThrown(text) => text
  }

  /** Property access `v.key` (or `v?.key`): the field on an object, `undefined` (`None`) otherwise. */
  function Get(v: Json, key: string): Option<Json>
  {
    if v.JObj? then Lookup(v.fields, key) else None
  }

  /** The value bound to `key`; as `JSON.parse` does, a later duplicate wins over an earlier one. */
  function Lookup(fields: seq<(string, Json)>, key: string): (r: Option<Json>)
    ensures r.Some? <==> exists i :: 0 <= i < |fields| && fields[i].0 == key
    ensures r.Some? ==> exists i :: 0 <= i < |fields| && fields[i] == (key, r.value)
  {
    if fields == [] then None
    else if fields[|fields| - 1].0 == key then Some(fields[|fields| - 1].1)
    else Lookup(fields[..|fields| - 1], key)
  }

  /** Optional access through `undefined`: `v?.key`. */
  function GetOpt(v: Option<Json>, key: string): Option<Json>
  {
    if v.Some? then Get(v.value, key) else None
  }

  /**
   * Element access `v?.[0]`: the first element of an array, the property `"0"` of
   * an object, the first character of a string, `undefined` otherwise.
   */
  function First(v: Option<Json>): Option<Json>
  {
    match v
    case Some(JArr(elems)) => if elems == [] then None else Some(elems[0])
    case Some(JObj(fields)) => Lookup(fields, "0")
    case Some(JStr(s)) => if s == "" then None else Some(JStr([s[0]]))
    case _ => None
  }

  /** JavaScript truthiness of a possibly `undefined` value. */
  predicate Truthy(v: Option<Json>)
  {
    match v
    case None => false
    case Some(JNull) => false
    case Some(JBool(b)) => b
    case Some(JNum(n)) => n != 0.0
    case Some(JStr(s)) => s != ""
    case Some(JArr(_)) => true
    case Some(JObj(_)) => true
  }

  /** `String(v)`, as a template string `${v}` or `JSON.parse(v)` converts its argument. */
  function ToJsString(v: Json, show: Shower): (r: string)
    ensures v.JStr? ==> r == v.s
  {
    match v
    case JNull => "null"
    case JBool(b) => if b then "true" else "false"
    case JStr(s) => s
    case _ => show(v)
  }

  /** The field names of an object, in order. */
  function Keys(fields: seq<(string, Json)>): (r: seq<string>)
    ensures |r| == |fields|
    ensures forall i :: 0 <= i < |fields| ==> r[i] == fields[i].0
  {
    if fields == [] then [] else Keys(fields[..|fields| - 1]) + [fields[|fields| - 1].0]
  }

  // ---------------------------------------------------------------------------
  // Strings
  // ---------------------------------------------------------------------------

  /** The characters `String.prototype.trim` removes: ECMAScript WhiteSpace and LineTerminator. */
  predicate IsWhitespace(c: char)
  {
    || c == '\t' || c == '\n' || c == '\U{000B}' || c == '\U{000C}' || c == '\r' || c == ' '
    || c == '\U{00A0}' || c == '\U{1680}' || ('\U{2000}' <= c <= '\U{200A}')
    || c == '\U{2028}' || c == '\U{2029}' || c == '\U{202F}' || c == '\U{205F}'
    || c == '\U{3000}' || c == '\U{FEFF}'
  }

  predicate AllWhitespace(s: string)
  {
    forall i :: 0 <= i < |s| ==> IsWhitespace(s[i])
  }

  /** Drops leading whitespace; the result is a suffix of `s`. */
  function TrimStart(s: string): (r: string)
    ensures |r| <= |s| && r == s[|s| - |r|..]
    ensures r != "" ==> !IsWhitespace(r[0])
    ensures forall k :: 0 <= k < |s| - |r| ==> IsWhitespace(s[k])
  {
    if s != "" && IsWhitespace(s[0]) then TrimStart(s[1..]) else s
  }

  /** Drops trailing whitespace; the result is a prefix of `s`. */
  function TrimEnd(s: string): (r: string)
    ensures |r| <= |s| && r == s[..|r|]
    ensures r != "" ==> !IsWhitespace(r[|r| - 1])
    ensures forall k :: |r| <= k < |s| ==> IsWhitespace(s[k])
  {
    if s != "" && IsWhitespace(s[|s| - 1]) then TrimEnd(s[..|s| - 1]) else s
  }

  /** `s.trim()`. */
  function Trim(s: string): string
  {
    TrimEnd(TrimStart(s))
  }

  /** Trimming the start of an all-whitespace string leaves nothing. */
  lemma {:induction false} TrimStartAllWhitespace(s: string)
    requires AllWhitespace(s)
    ensures TrimStart(s) == ""
  {
    if s != "" {
      assert IsWhitespace(s[0]);
      assert AllWhitespace(s[1..]) by {
        forall k | 0 <= k < |s| - 1 ensures IsWhitespace(s[1..][k]) {
          assert s[1..][k] == s[k + 1];
        }
      }
      TrimStartAllWhitespace(s[1..]);
    }
  }

  /** `s.trim()` is empty exactly when every character of `s` is whitespace. */
  lemma TrimEmptyIff(s: string)
    ensures Trim(s) == "" <==> AllWhitespace(s)
  {
    if AllWhitespace(s) {
      TrimStartAllWhitespace(s);
    }
  }

  /** `s.length`: JavaScript counts UTF-16 code units, so a character outside the BMP counts twice. */
  function Utf16Length(s: string): (n: nat)
    ensures |s| <= n <= 2 * |s|
    ensures (forall i :: 0 <= i < |s| ==> s[i] as int <= 0xFFFF) ==> n == |s|
  {
    if s == [] then 0 else Utf16Length(s[..|s| - 1]) + (if s[|s| - 1] as int > 0xFFFF then 2 else 1)
  }

  /** `s.startsWith(prefix)`. */
  predicate StartsWith(s: string, prefix: string)
  {
    |prefix| <= |s| && s[..|prefix|] == prefix
  }

  /** `s.endsWith(suffix)`. */
  predicate EndsWith(s: string, suffix: string)
  {
    |suffix| <= |s| && s[|s| - |suffix|..] == suffix
  }

  /** A string starts with its own first part, whatever follows it. */
  lemma StartsWithAppend(p: string, a: string, b: string)
    ensures StartsWith(p + a + b, p)
  {
    assert (p + a + b)[..|p|] == p;
  }

  /** One differing character within both lengths rules a prefix out. */
  lemma MismatchNotStartsWith(s: string, p: string, i: nat)
    requires i < |p| && i < |s| && s[i] != p[i]
    ensures !StartsWith(s, p)
  {
    if |p| <= |s| {
      assert s[..|p|][i] == s[i];
    }
  }

  /** A text framed by the same head and foot is recovered from the framed string. */
  lemma FrameInjective(x: string, head: string, a: string, b: string, foot: string)
    requires x + (head + a + foot) == x + (head + b + foot)
    ensures a == b
  {
    var start := |x| + |head|;
    assert |a| == |b|;
    assert (x + (head + a + foot))[start..start + |a|] == a;
    assert (x + (head + b + foot))[start..start + |b|] == b;
  }

  /** `toLowerCase` on one character, for the Latin letters `A`-`Z`. */
  function LowerChar(c: char): (r: char)
    ensures 'A' <= c <= 'Z' ==> 'a' <= r <= 'z'
    ensures !('A' <= c <= 'Z') ==> r == c
  {
    if 'A' <= c <= 'Z' then (c as int - 'A' as int + 'a' as int) as char else c
  }

  /** `s.toLowerCase()`, character by character, for the Latin letters. */
  function ToLower(s: string): (r: string)
    ensures |r| == |s|
    ensures forall i :: 0 <= i < |s| ==> r[i] == LowerChar(s[i])
  {
    seq(|s|, i requires 0 <= i < |s| => LowerChar(s[i]))
  }

  /** Lower-casing twice is lower-casing once. */
  lemma ToLowerIdempotent(s: string)
    ensures ToLower(ToLower(s)) == ToLower(s)
  {
    var once := ToLower(s);
    forall i | 0 <= i < |s| ensures ToLower(once)[i] == once[i] {
      assert once[i] == LowerChar(s[i]);
    }
  }

  // ---------------------------------------------------------------------------
  // Decimal numbers in template strings
  // ---------------------------------------------------------------------------

  predicate IsDigit(c: char)
  {
    '0' <= c <= '9'
  }

  function DigitChar(d: nat): (c: char)
    requires d < 10
    ensures IsDigit(c) && c as int - '0' as int == d
  {
    ('0' as int + d) as char
  }

  /** `${n}` for a non-negative integer: its decimal digits, with no leading zero. */
  function NatToString(n: nat): (s: string)
    ensures |s| >= 1
    ensures forall i :: 0 <= i < |s| ==> IsDigit(s[i])
    ensures s[0] == '0' ==> n == 0
  {
    if n < 10 then [DigitChar(n)] else NatToString(n / 10) + [DigitChar(n % 10)]
  }

  /** The value of a string of decimal digits. */
  function DigitsValue(s: string): nat
    requires forall i :: 0 <= i < |s| ==> IsDigit(s[i])
  {
    if s == "" then 0
    else
      assert IsDigit(s[|s| - 1]);
      DigitsValue(s[..|s| - 1]) * 10 + (s[|s| - 1] as int - '0' as int)
  }

  /** Reading the decimal rendering back gives the number: the rendering loses nothing. */
  lemma {:induction false} NatToStringRoundTrip(n: nat)
    ensures DigitsValue(NatToString(n)) == n
  {
    if n >= 10 {
      NatToStringRoundTrip(n / 10);
      var s := NatToString(n);
      assert s[..|s| - 1] == NatToString(n / 10);
    }
  }

  /** Different numbers render differently. */
  lemma NatToStringInjective(m: nat, n: nat)
    requires NatToString(m) == NatToString(n)
    ensures m == n
  {
    NatToStringRoundTrip(m);
    NatToStringRoundTrip(n);
  }
}
