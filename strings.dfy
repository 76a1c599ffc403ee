/**
 * The JavaScript string operations the agent uses to render its prompt:
 * `indexOf`, `replace` with a string pattern, and `Array.prototype.join`.
 */
module Strings {
  import opened Wrappers

  /** `pat` occurs in `s` starting at index `i`. */
  predicate MatchAt(s: string, pat: string, i: nat)
  {
    i + |pat| <= |s| && s[i..i + |pat|] == pat
  }

  /** `s.indexOf(pat, from)`: the first occurrence of `pat` at or after `from`. */
  function IndexOf(s: string, pat: string, from: nat): (r: Option<nat>)
    decreases |s| + 1 - from
    ensures r.Some? ==>
      from <= r.value && MatchAt(s, pat, r.value)
      && forall j :: from <= j < r.value ==> !MatchAt(s, pat, j)
    ensures r.None? ==> forall j :: from <= j ==> !MatchAt(s, pat, j)
  {
    if from + |pat| > |s| then None
    else if s[from..from + |pat|] == pat then Some(from)
    else IndexOf(s, pat, from + 1)
  }

  /**
   * `s.replace(pat, rep)` with a string pattern: only the first occurrence is
   * replaced. `$` substitution patterns in `rep` are not interpreted.
   */
  function ReplaceFirst(s: string, pat: string, rep: string): (r: string)
    ensures (forall j :: 0 <= j ==> !MatchAt(s, pat, j)) ==> r == s
    ensures (exists j :: 0 <= j && MatchAt(s, pat, j)) ==> |r| == |s| - |pat| + |rep|
  {
    match IndexOf(s, pat, 0)
    case None => s
    case Some(k) => s[..k] + rep + s[k + |pat|..]
  }

  /** When no occurrence of `pat` starts inside `h`, replacing in `h + pat + t` yields `h + rep + t`. */
  lemma ReplaceFirstAfter(h: string, pat: string, t: string, rep: string)
    requires forall j :: 0 <= j < |h| ==> !MatchAt(h + pat + t, pat, j)
    ensures ReplaceFirst(h + pat + t, pat, rep) == h + rep + t
  {
    var s := h + pat + t;
    assert s[|h|..|h| + |pat|] == pat;
    assert MatchAt(s, pat, |h|);
    assert s[..|h|] == h;
    assert s[|h| + |pat|..] == t;
  }

  /** `parts.join(sep)`. */
  function Join(parts: seq<string>, sep: string): string
  {
    if |parts| == 0 then ""
    else if |parts| == 1 then parts[0]
    else parts[0] + sep + Join(parts[1..], sep)
  }

  /**
   * Every character of a joined text comes from one of the parts or from
   * the separator, and every character of a part appears in it.
   */
  lemma {:induction false} JoinDrawsFrom(parts: seq<string>, sep: string)
    ensures forall c :: c in Join(parts, sep) ==> c in sep || exists i :: 0 <= i < |parts| && c in parts[i]
    ensures forall i, c :: 0 <= i < |parts| && c in parts[i] ==> c in Join(parts, sep)
    decreases |parts|
  {
    if |parts| > 1 {
      JoinDrawsFrom(parts[1..], sep);
      assert forall i :: 1 <= i < |parts| ==> parts[i] == parts[1..][i - 1];
    }
  }

  /** No two consecutive opening braces. */
  predicate NoDoubleBrace(s: string)
  {
    forall i :: 0 <= i < |s| - 1 ==> !(s[i] == '{' && s[i + 1] == '{')
  }

  lemma NoDoubleBraceAppend(a: string, b: string)
    requires NoDoubleBrace(a) && NoDoubleBrace(b)
    requires |a| > 0 && |b| > 0 ==> !(a[|a| - 1] == '{' && b[0] == '{')
    ensures NoDoubleBrace(a + b)
  {
    var s := a + b;
    forall i | 0 <= i < |s| - 1
      ensures !(s[i] == '{' && s[i + 1] == '{')
    {
      if i + 1 < |a| {
        assert s[i] == a[i] && s[i + 1] == a[i + 1];
      } else if i + 1 == |a| {
        assert s[i] == a[|a| - 1] && s[i + 1] == b[0];
      } else {
        assert s[i] == b[i - |a|] && s[i + 1] == b[i + 1 - |a|];
      }
    }
  }

  /**
   * A pattern that starts with two braces cannot begin inside a text without
   * a double brace that does not end in a brace.
   */
  lemma NoMatchBefore(h: string, pat: string, t: string)
    requires |pat| >= 2 && pat[0] == '{' && pat[1] == '{'
    requires NoDoubleBrace(h) && |h| > 0 && h[|h| - 1] != '{'
    ensures forall j :: 0 <= j < |h| ==> !MatchAt(h + pat + t, pat, j)
  {
    var s := h + pat + t;
    forall j | 0 <= j < |h|
      ensures !MatchAt(s, pat, j)
    {
      if j + 1 < |h| {
        assert s[j] == h[j] && s[j + 1] == h[j + 1];
      } else {
        assert s[j] == h[|h| - 1];
      }
    }
  }
}
