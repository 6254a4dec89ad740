/** Substring search as done by JavaScript's `String.prototype.indexOf`, and the
    line structure that a regular expression with the `m` flag sees. */
module Text {

  /** `s` holds `t` starting at index `i`. */
  predicate OccursAt(s: string, t: string, i: nat) {
    i + |t| <= |s| && s[i..i + |t|] == t
  }

  /** `t` is a substring of `s`. */
  predicate Contains(s: string, t: string) {
    exists i: nat | i <= |s| :: OccursAt(s, t, i)
  }

  /** First index at or after `from` where `t` occurs in `s`, or -1. */
  function IndexFrom(s: string, t: string, from: nat): (r: int)
    requires from <= |s|
    ensures r == -1 ==> forall i: nat :: from <= i ==> !OccursAt(s, t, i)
    ensures r != -1 ==> from <= r && OccursAt(s, t, r)
    ensures r != -1 ==> forall i: nat :: from <= i < r ==> !OccursAt(s, t, i)
    decreases |s| - from
  {
    if OccursAt(s, t, from) then from
    else if from == |s| then -1
    else IndexFrom(s, t, from + 1)
  }

  /** `s.indexOf(t)`: the least index at which `t` occurs, or -1 when it does not occur. */
  function IndexOf(s: string, t: string): (r: int)
    ensures r == -1 <==> !Contains(s, t)
    ensures r != -1 ==> 0 <= r && OccursAt(s, t, r)
    ensures r != -1 ==> forall i: nat :: i < r ==> !OccursAt(s, t, i)
  {
    IndexFrom(s, t, 0)
  }

  /** The characters a JavaScript regular expression treats as line terminators:
      line feed, carriage return, line separator and paragraph separator. */
  predicate IsLineTerminator(c: char) {
    c == '\n' || c == '\r' || c == '\U{2028}' || c == '\U{2029}'
  }

  /** Index `p` is where `^` matches under the `m` flag: the start of the input
      or just after a line terminator. */
  predicate IsLineStart(s: string, p: nat) {
    p == 0 || (p <= |s| && IsLineTerminator(s[p - 1]))
  }

  /** Index `i` is where `$` matches under the `m` flag: the end of the input or
      just before a line terminator. */
  predicate IsLineEnd(s: string, i: nat) {
    i == |s| || (i < |s| && IsLineTerminator(s[i]))
  }

  /** Where a greedy `.*` started at `i` stops: the first line end at or after `i`. */
  function LineEnd(s: string, i: nat): (e: nat)
    requires i <= |s|
    ensures i <= e <= |s| && IsLineEnd(s, e)
    ensures forall k :: i <= k < e ==> !IsLineTerminator(s[k])
    decreases |s| - i
  {
    if i == |s| || IsLineTerminator(s[i]) then i else LineEnd(s, i + 1)
  }
}
