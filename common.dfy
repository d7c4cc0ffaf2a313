/** Values shared by every part of the gateway model: optional values and
    error returns, the JSON shapes the services build, and the few string
    tests the Java code applies to statuses, events and URLs. */
module Common {

  /** A nullable Java reference: `None` stands for `null`. */
  datatype Option<+T> = None | Some(value: T)

  /** A method that either returns a value or throws one of a known set of
      exceptions. */
  datatype Result<+T, +E> = Ok(value: T) | Err(error: E)

  /** The JSON values the services hand to the serializer. Timestamps are
      written as numbers (seconds), as the serializer's time module does. */
  datatype Json =
    | JNull
    | JBool(b: bool)
    | JNum(n: int)
    | JStr(s: string)
    | JObj(fields: map<string, Json>)

  /** A nullable string field as it appears in a payload. */
  function OptStr(o: Option<string>): Json {
    match o
    case None => JNull
    case Some(s) => JStr(s)
  }

  /** A nullable timestamp field as it appears in a payload. */
  function OptNum(o: Option<int>): Json {
    match o
    case None => JNull
    case Some(n) => JNum(n)
  }

  /** `String.startsWith`. */
  predicate StartsWith(s: string, prefix: string) {
    |prefix| <= |s| && s[..|prefix|] == prefix
  }

  /** Lower-case folding of the ASCII letters. */
  function LowerAscii(c: char): char {
    if 'A' <= c <= 'Z' then (c as int + 32) as char else c
  }

  /** `String.equalsIgnoreCase`, restricted to ASCII case folding. */
  predicate EqualsIgnoreCase(a: string, b: string) {
    |a| == |b| && forall i :: 0 <= i < |a| ==> LowerAscii(a[i]) == LowerAscii(b[i])
  }

  /** `Character.isWhitespace` on the characters below U+0080. */
  predicate IsWhitespace(c: char) {
    c == ' ' || 9 <= c as int <= 13 || 28 <= c as int <= 31
  }

  /** `String.isBlank`: empty or whitespace only. */
  predicate IsBlank(s: string) {
    forall i :: 0 <= i < |s| ==> IsWhitespace(s[i])
  }
}
