/** The two patterns that pick the job id and the wait estimate out of the
    submission response: `/^ {4}RID = (.*$)/m` and `/^ {4}RTOE = (.*$)/m`, each
    used with `String.prototype.match`, which reports the leftmost match as
    `[whole match, capture group]` or `null`. */
module Markers {
  import opened Wrappers
  import opened Text

  /** The literal text after `^` in the job-id pattern: exactly four spaces, then `RID = `. */
  const RID_LABEL: string := "    RID = "
  /** The literal text after `^` in the wait-estimate pattern. */
  const RTOE_LABEL: string := "    RTOE = "

  /** A line of `s` starts at `p` and begins with `marker`: where the pattern's
      `^` and its literal part both match. */
  predicate LabelledLineAt(s: string, marker: string, p: nat) {
    p <= |s| && IsLineStart(s, p) && marker <= s[p..]
  }

  /** `p` is the leftmost index where the pattern can match. */
  ghost predicate FirstLabelledLine(s: string, marker: string, p: nat) {
    LabelledLineAt(s, marker, p) && forall q: nat :: q < p ==> !LabelledLineAt(s, marker, q)
  }

  /** The leftmost labelled line at or after `from`. */
  function FindLabelledLine(s: string, marker: string, from: nat): (r: Option<nat>)
    requires from <= |s|
    ensures r.Some? ==> from <= r.value && LabelledLineAt(s, marker, r.value)
    ensures r.Some? ==> forall q: nat :: from <= q < r.value ==> !LabelledLineAt(s, marker, q)
    ensures r.None? ==> forall q: nat :: from <= q ==> !LabelledLineAt(s, marker, q)
    decreases |s| - from
  {
    if LabelledLineAt(s, marker, from) then Some(from)
    else if from == |s| then None
    else FindLabelledLine(s, marker, from + 1)
  }

  /** A successful `match`: `whole` is element 0, `group` is element 1. */
  datatype LineMatch = LineMatch(whole: string, group: string)

  /** `s.match(/^<marker>(.*$)/m)` for a marker free of line terminators. The
      greedy `(.*$)` takes the rest of the line, up to but excluding the next
      line terminator or the end of the input. */
  function MatchLabelledLine(s: string, marker: string): Option<LineMatch> {
    match FindLabelledLine(s, marker, 0)
    case None => None
    case Some(p) =>
      var e := LineEnd(s, p + |marker|);
      Some(LineMatch(s[p..e], s[p + |marker|..e]))
  }

  /** The match is `null` exactly when no line starts with the marker. */
  lemma MatchLabelledLineAbsent(s: string, marker: string)
    ensures MatchLabelledLine(s, marker).None? <==> forall p: nat :: !LabelledLineAt(s, marker, p)
  {
  }

  /** Element 0 of a match is the marker followed by element 1, and element 1
      holds no line terminator. */
  lemma MatchLabelledLineParts(s: string, marker: string)
    requires MatchLabelledLine(s, marker).Some?
    ensures var m := MatchLabelledLine(s, marker).value;
      m.whole == marker + m.group && forall k :: 0 <= k < |m.group| ==> !IsLineTerminator(m.group[k])
  {
    var p := FindLabelledLine(s, marker, 0).value;
    var e := LineEnd(s, p + |marker|);
    var group := s[p + |marker|..e];
    assert MatchLabelledLine(s, marker) == Some(LineMatch(s[p..e], group));
    assert s[p..p + |marker|] == marker;
    assert s[p..e] == marker + group;
    assert forall k :: 0 <= k < |group| ==> group[k] == s[p + |marker| + k];
  }

  /** Element 0 of a match is the whole first line that starts with the
      marker, from its start to its end. */
  lemma MatchLabelledLineFirst(s: string, marker: string)
    requires MatchLabelledLine(s, marker).Some?
    ensures var whole := MatchLabelledLine(s, marker).value.whole;
      exists p: nat :: FirstLabelledLine(s, marker, p) && OccursAt(s, whole, p) && IsLineEnd(s, p + |whole|)
  {
    var p := FindLabelledLine(s, marker, 0).value;
    assert FirstLabelledLine(s, marker, p);
  }
}
