/** The few pieces of JavaScript string semantics the forms rely on. */
module JsText {

  /** The characters matched by `\s` in a JavaScript regular expression:
      ECMAScript WhiteSpace (tab, vertical tab, form feed, no-break space,
      byte-order mark and every space separator) and LineTerminator. */
  predicate IsWhitespace(c: char)
  {
    var n := c as int;
    n == 0x09 || n == 0x0A || n == 0x0B || n == 0x0C || n == 0x0D
    || n == 0x20 || n == 0xA0 || n == 0x1680
    || (0x2000 <= n <= 0x200A)
    || n == 0x2028 || n == 0x2029 || n == 0x202F || n == 0x205F
    || n == 0x3000 || n == 0xFEFF
  }

  /** A string is truthy in JavaScript exactly when it is not empty. */
  predicate Truthy(s: string)
  {
    s != ""
  }

  /** `s.startsWith(prefix)`. */
  predicate StartsWith(s: string, prefix: string)
  {
    prefix <= s
  }

  /** Every character lies in the Basic Multilingual Plane (one UTF-16 code unit each). */
  ghost predicate BmpOnly(s: string)
  {
    forall i :: 0 <= i < |s| ==> s[i] as int < 0x10000
  }

  /** `s.length`: JavaScript counts UTF-16 code units, so a character outside
      the Basic Multilingual Plane counts twice. */
  function Utf16Length(s: string): (n: nat)
    ensures |s| <= n <= 2 * |s|
    ensures BmpOnly(s) ==> n == |s|
    ensures n == 0 <==> s == ""
  {
    if s == [] then 0
    else (if s[0] as int < 0x10000 then 1 else 2) + Utf16Length(s[1..])
  }
}
