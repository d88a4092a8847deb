/** JavaScript value semantics that the components rely on: optional values,
    truthiness of strings, `Math.floor`/`Math.round` on numbers, the remainder
    operator, ASCII case folding, `String.prototype.includes` and `trim`. */
module Js {

  datatype Option<T> = None | Some(value: T)

  /** A JavaScript number that may be NaN. */
  datatype Num = NaN | Val(v: real)

  /** An optional string is truthy when it is present and not empty. */
  predicate Truthy(s: Option<string>) {
    s.Some? && s.value != ""
  }

  /** `a || b` where `a` is an optional string. */
  function OrElse(a: Option<string>, b: string): string {
    if Truthy(a) then a.value else b
  }

  /** `Math.floor` */
  function Floor(x: real): int {
    x.Floor
  }

  /** `Math.round`: the nearest integer, halves rounded up. */
  function Round(x: real): (r: int)
    ensures r as real <= x + 0.5 < r as real + 1.0
  {
    (x + 0.5).Floor
  }

  /** `Math.trunc` */
  function Trunc(x: real): int {
    if x >= 0.0 then x.Floor else -((-x).Floor)
  }

  /** The `%` operator on integers: the remainder takes the sign of the dividend. */
  function Rem(a: int, n: int): int
    requires n > 0
  {
    if a >= 0 then a % n else -((-a) % n)
  }

  /** The `%` operator on numbers: `a - n * trunc(a / n)`. */
  function RealRem(a: real, n: real): real
    requires n > 0.0
  {
    a - n * Trunc(a / n) as real
  }

  /** `toLowerCase`, restricted to the ASCII letters. */
  function LowerChar(c: char): char {
    if 'A' <= c <= 'Z' then (c as int + 32) as char else c
  }

  function Lower(s: string): (r: string)
    ensures |r| == |s|
    ensures forall i :: 0 <= i < |s| ==> r[i] == LowerChar(s[i])
  {
    seq(|s|, i requires 0 <= i < |s| => LowerChar(s[i]))
  }

  /** `sub` occurs in `s` starting at index `i`. */
  predicate OccursAt(s: string, sub: string, i: int) {
    0 <= i <= |s| - |sub| && s[i..i + |sub|] == sub
  }

  /** `s.includes(sub)` */
  predicate Contains(s: string, sub: string) {
    exists i | 0 <= i <= |s| - |sub| :: OccursAt(s, sub, i)
  }

  /** Every string includes the empty string. */
  lemma ContainsEmpty(s: string)
    ensures Contains(s, "")
  {
    assert OccursAt(s, "", 0);
  }

  /** The characters `trim` removes: WhiteSpace and LineTerminator of ECMAScript. */
  predicate IsWhitespace(c: char) {
    c == ' ' || c == '\t' || c == '\n' || c == '\r' || c == '\U{000B}' || c == '\U{000C}'
    || c == '\U{00A0}' || c == '\U{1680}' || ('\U{2000}' <= c <= '\U{200A}')
    || c == '\U{2028}' || c == '\U{2029}' || c == '\U{202F}' || c == '\U{205F}'
    || c == '\U{3000}' || c == '\U{FEFF}'
  }

  /** `!s.trim()`: trimming leaves the empty string. */
  predicate IsBlank(s: string) {
    forall i :: 0 <= i < |s| ==> IsWhitespace(s[i])
  }

  /** `s.trimStart()` */
  function TrimStart(s: string): (r: string)
    ensures |r| <= |s| && r == s[|s| - |r|..]
    ensures r == [] || !IsWhitespace(r[0])
  {
    if s != [] && IsWhitespace(s[0]) then TrimStart(s[1..]) else s
  }

  /** `s.substr(start, length)` for a non-negative start: at most `length`
      characters from `start`, none when `start` is past the end. */
  function Substr(s: string, start: nat, length: nat): (r: string)
    ensures start >= |s| ==> r == []
    ensures start < |s| ==> r == s[start..if start + length <= |s| then start + length else |s|]
  {
    if start >= |s| then [] else s[start..if start + length <= |s| then start + length else |s|]
  }

  /** `s.replace(c, '')` with a one-character string pattern: the first
      occurrence of `c`, if any, is removed. */
  function RemoveFirst(s: string, c: char): (r: string)
    decreases |s|
  {
    if s == [] then [] else if s[0] == c then s[1..] else [s[0]] + RemoveFirst(s[1..], c)
  }
}
