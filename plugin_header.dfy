/** Reading the version out of a plugin file's header comment
    (github-plugin-installer-and-updater.php, `extract_version_from_plugin_header`):
    `preg_match( '/^\s*\*\s*Version:\s*(.+)$/mi', ... )`, then `trim` of the
    capture. The pattern is modelled with PCRE's own matching order: the
    leftmost line start that matches wins, and within it the greedy `\s*`
    before the capture gives back characters only as far as `(.+)` needs. */
module PluginHeader {
  import opened Platform
  import opened Strings

  /** PCRE's `\s` outside UTF mode: space, tab, line feed, vertical tab,
      form feed and carriage return. It includes the line feed, so every
      `\s*` of the pattern can run across lines. */
  const RegexSpace: set<char> := {' ', '\t', '\n', '\U{000B}', '\U{000C}', '\r'}

  /** The keyword, compared in lower case because of the `i` modifier. */
  const Keyword := "version:"

  /** Where a greedy `\s*` starting at `i` stops. */
  function SkipSpace(s: string, i: nat): (j: nat)
    requires i <= |s|
    ensures i <= j <= |s|
    ensures forall k :: i <= k < j ==> s[k] in RegexSpace
    ensures j < |s| ==> s[j] !in RegexSpace
    decreases |s| - i
  {
    if i == |s| || s[i] !in RegexSpace then i else SkipSpace(s, i + 1)
  }

  /** Where a greedy `.+` starting at `i` stops: `.` matches anything but a
      line feed. */
  function LineEnd(s: string, i: nat): (e: nat)
    requires i <= |s|
    ensures i <= e <= |s|
    ensures forall k :: i <= k < e ==> s[k] != '\n'
    ensures e < |s| ==> s[e] == '\n'
    decreases |s| - i
  {
    if i == |s| || s[i] == '\n' then i else LineEnd(s, i + 1)
  }

  /** Backtracking of `\s*(.+)$` after the keyword, where the greedy `\s*`
      ran from `c` to `k`: the capture starts at the last position in
      `[c, k]` where `.` can match one character; `$` then always holds at
      the end of the line. */
  function CaptureStart(s: string, c: nat, k: nat): (j: Option<nat>)
    requires c <= k <= |s|
    ensures j.Some? ==> c <= j.value <= k && j.value < |s| && s[j.value] != '\n'
    ensures j.Some? ==> forall m :: j.value < m <= k ==> m == |s| || s[m] == '\n'
    ensures j.None? ==> forall m :: c <= m <= k ==> m == |s| || s[m] == '\n'
    decreases k - c
  {
    if k < |s| && s[k] != '\n' then Some(k)
    else if k == c then None
    else CaptureStart(s, c, k - 1)
  }

  /** Where `^` matches under the `m` modifier. */
  predicate LineStart(s: string, p: nat) {
    p == 0 || (0 < p <= |s| && s[p - 1] == '\n')
  }

  /** The capture of group 1 when the pattern is matched from position `p`.
      Each of the first two `\s*` must run to its longest, since what
      follows it (`*`, then `V`) is not white space. */
  function MatchAt(s: string, p: nat): Option<string>
    requires p <= |s|
  {
    var a := SkipSpace(s, p);
    if a < |s| && s[a] == '*' then
      var b := SkipSpace(s, a + 1);
      if b + |Keyword| <= |s| && Lower(s[b..b + |Keyword|]) == Keyword then
        var c := b + |Keyword|;
        match CaptureStart(s, c, SkipSpace(s, c))
        case Some(j) => Some(s[j..LineEnd(s, j)])
        case None => None
      else
        None
    else
      None
  }

  /** The capture of the leftmost match that starts at or after `p`. */
  function FirstMatchFrom(s: string, p: nat): Option<string>
    requires p <= |s|
    decreases |s| - p
  {
    if LineStart(s, p) && MatchAt(s, p).Some? then MatchAt(s, p)
    else if p == |s| then None
    else FirstMatchFrom(s, p + 1)
  }

  /** There is no capture exactly when no line start from `p` on matches. */
  lemma {:induction false} FirstMatchFromNone(s: string, p: nat)
    requires p <= |s|
    ensures FirstMatchFrom(s, p).None? <==> forall q :: p <= q <= |s| && LineStart(s, q) ==> MatchAt(s, q).None?
    decreases |s| - p
  {
    if !(LineStart(s, p) && MatchAt(s, p).Some?) && p < |s| {
      FirstMatchFromNone(s, p + 1);
    }
  }

  /** `extract_version_from_plugin_header`: the trimmed capture of the first
      matching line, or `""` when no line matches. The result never starts
      or ends with white space. */
  function ExtractVersion(contents: string): (v: string)
    ensures |v| > 0 ==> v[0] !in PhpWhitespace && v[|v| - 1] !in PhpWhitespace
    ensures (forall q :: 0 <= q <= |contents| && LineStart(contents, q) ==> MatchAt(contents, q).None?) ==> v == ""
  {
    FirstMatchFromNone(contents, 0);
    match FirstMatchFrom(contents, 0)
    case None => ""
    case Some(capture) => Trim(capture)
  }

  /** The first matching line decides: lines after it are never looked at. */
  lemma {:induction false} FirstMatchWins(s: string, p: nat)
    requires p <= |s| && LineStart(s, p) && MatchAt(s, p).Some?
    requires forall q :: 0 <= q < p && LineStart(s, q) ==> MatchAt(s, q).None?
    ensures ExtractVersion(s) == Trim(MatchAt(s, p).value)
  {
    FirstMatchFromReaches(s, 0, p);
  }

  lemma {:induction false} FirstMatchFromReaches(s: string, from: nat, p: nat)
    requires from <= p <= |s| && LineStart(s, p) && MatchAt(s, p).Some?
    requires forall q :: from <= q < p && LineStart(s, q) ==> MatchAt(s, q).None?
    ensures FirstMatchFrom(s, from) == MatchAt(s, p)
    decreases p - from
  {
    if from < p {
      FirstMatchFromReaches(s, from + 1, p);
    }
  }

  /** A version written on a header line the way WordPress plugins do,
      ` * Version: <v>`, is read back exactly, whatever follows. */
  lemma HeaderLineRoundTrip(v: string, rest: string)
    requires v != "" && '\n' !in v
    requires v[0] !in PhpWhitespace && v[0] != '\U{000C}' && v[|v| - 1] !in PhpWhitespace
    ensures ExtractVersion(" * Version: " + v + "\n" + rest) == v
  {
    var s := " * Version: " + v + "\n" + rest;
    assert s[0] == ' ' && s[1] == '*' && s[2] == ' ' && s[11] == ' ';
    assert SkipSpace(s, 0) == 1 by {
      assert SkipSpace(s, 1) == 1;
    }
    assert SkipSpace(s, 2) == 3 by {
      assert s[3] == 'V';
      assert SkipSpace(s, 3) == 3;
    }
    assert s[3..11] == "Version:";
    assert Lower(s[3..11]) == Keyword;
    assert s[12] == v[0];
    assert SkipSpace(s, 11) == 12 by {
      assert SkipSpace(s, 12) == 12;
    }
    assert CaptureStart(s, 11, 12) == Some(12);
    assert s[12 + |v|] == '\n';
    assert forall k :: 12 <= k < 12 + |v| ==> s[k] == v[k - 12];
    LineEndAt(s, 12, 12 + |v|);
    assert s[12..12 + |v|] == v;
    assert MatchAt(s, 0) == Some(v);
    TrimFixedPoint(v, PhpWhitespace);
    FirstMatchWins(s, 0);
  }

  lemma LineEndAt(s: string, i: nat, e: nat)
    requires i <= e < |s| && s[e] == '\n'
    requires forall k :: i <= k < e ==> s[k] != '\n'
    ensures LineEnd(s, i) == e
  {
  }
}
