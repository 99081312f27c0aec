/** The slice of JavaScript value semantics the handlers rely on: absent
    values, truthiness of strings, `String.prototype.trim`, `slice(0, n)`,
    and the shapes a decoded response body can take. */
module Js {

  /** `null`/`undefined` versus a present value. */
  datatype Option<+T> = None | Some(value: T)

  /** A string is truthy exactly when it is non-empty. Absent strings are
      modelled as "" wherever the code only tests them with `||` or `if`. */
  predicate Truthy(s: string) {
    s != ""
  }

  /** `s || fallback` on strings. */
  function OrElse(s: string, fallback: string): (r: string)
    ensures Truthy(s) ==> r == s
    ensures !Truthy(s) ==> r == fallback
  {
    if s != "" then s else fallback
  }

  /** A JSON value read where a string is expected: a missing property
      (`undefined`), an explicit `null`, or a string. */
  datatype JsString = Undefined | Null | Str(text: string)

  /** `String(v)`, which `localStorage.setItem(k, v)` stores:
      `undefined` becomes the text "undefined" and `null` the text "null". */
  function Stringify(v: JsString): (r: string)
    ensures v.Str? ==> r == v.text
    ensures v.Undefined? ==> r == "undefined"
    ensures v.Null? ==> r == "null"
  {
    match v
    case Str(s) => s
    case Undefined => "undefined"
    case Null => "null"
  }

  /** A JSON string value is truthy when it is a non-empty string. */
  predicate TruthyJs(v: JsString) {
    v.Str? && v.text != ""
  }

  /** An optional string is truthy when present and non-empty. */
  predicate TruthyOpt(v: Option<string>) {
    v.Some? && v.value != ""
  }

  // ---------------------------------------------------------------------
  // Whitespace and trim
  // ---------------------------------------------------------------------

  /** ECMAScript WhiteSpace and LineTerminator code points: the set removed
      by `trim()` and matched by the regular-expression class `\s`. */
  predicate IsSpace(c: char) {
    || c == '\t' || c == '\n' || c == '\U{000B}' || c == '\U{000C}' || c == '\r'
    || c == ' ' || c == '\U{00A0}' || c == '\U{1680}'
    || ('\U{2000}' <= c <= '\U{200A}')
    || c == '\U{2028}' || c == '\U{2029}' || c == '\U{202F}' || c == '\U{205F}'
    || c == '\U{3000}' || c == '\U{FEFF}'
  }

  /** Drops leading whitespace. */
  function TrimStart(s: string): (r: string)
    ensures |r| <= |s| && r == s[|s| - |r|..]
    ensures forall i :: 0 <= i < |s| - |r| ==> IsSpace(s[i])
    ensures r != [] ==> !IsSpace(r[0])
    decreases |s|
  {
    if |s| > 0 && IsSpace(s[0]) then TrimStart(s[1..]) else s
  }

  /** Drops trailing whitespace. */
  function TrimEnd(s: string): (r: string)
    ensures |r| <= |s| && r == s[..|r|]
    ensures forall i :: |r| <= i < |s| ==> IsSpace(s[i])
    ensures r != [] ==> !IsSpace(r[|r| - 1])
    decreases |s|
  {
    if |s| > 0 && IsSpace(s[|s| - 1]) then TrimEnd(s[..|s| - 1]) else s
  }

  /** `s.trim()`: an infix of `s` that neither starts nor ends with
      whitespace (TrimDropsOnlySpace: only whitespace is dropped around it). */
  function Trim(s: string): (r: string)
    ensures exists i {:trigger s[i..]} :: 0 <= i <= |s| - |r| && r == s[i..][..|r|]
    ensures r != [] ==> !IsSpace(r[0]) && !IsSpace(r[|r| - 1])
    ensures |r| <= |s|
  {
    var a := TrimStart(s);
    var r := TrimEnd(a);
    var i := |s| - |a|;
    assert a == s[i..];
    assert r == s[i..][..|r|];
    r
  }

  /** What `trim()` removes is whitespace only: the result sits at an offset
      before which, and after whose end, every character of `s` is
      whitespace. With the contract of Trim this makes the result the
      longest such infix. */
  lemma TrimDropsOnlySpace(s: string)
    ensures exists i {:trigger s[i..]} :: (
      && 0 <= i <= |s| - |Trim(s)| && Trim(s) == s[i..][..|Trim(s)|]
      && (forall j :: 0 <= j < i ==> IsSpace(s[j]))
      && (forall j :: i + |Trim(s)| <= j < |s| ==> IsSpace(s[j])))
  {
    var a := TrimStart(s);
    var r := TrimEnd(a);
    var i := |s| - |a|;
    assert a == s[i..];
    assert Trim(s) == r;
    assert forall j :: 0 <= j < i ==> IsSpace(s[j]);
    assert forall j :: i + |r| <= j < |s| ==> IsSpace(s[j]) by {
      forall j | i + |r| <= j < |s|
        ensures IsSpace(s[j])
      {
        assert s[j] == a[j - i];
      }
    }
    assert r == s[i..][..|r|];
  }

  /** `!s.trim()`: the string is empty or all whitespace. */
  predicate IsBlank(s: string) {
    Trim(s) == ""
  }

  predicate AllSpace(s: string) {
    forall i :: 0 <= i < |s| ==> IsSpace(s[i])
  }

  /** A string trims to "" exactly when every character is whitespace. */
  lemma BlankIffAllSpace(s: string)
    ensures IsBlank(s) <==> AllSpace(s)
  {
    var a := TrimStart(s);
    if !AllSpace(s) {
      var k :| 0 <= k < |s| && !IsSpace(s[k]);
      assert a[0] == s[|s| - |a|];
    }
  }

  /** `s.slice(0, n)` for n >= 0. */
  function Take(s: string, n: nat): (r: string)
    ensures |r| == if n < |s| then n else |s|
    ensures r <= s
  {
    if n < |s| then s[..n] else s
  }

  lemma AppendAssoc<T>(a: seq<T>, b: seq<T>, c: seq<T>)
    ensures (a + b) + c == a + (b + c)
  {
  }
}
