/** The quick-tunnel hostname scanner shared by both scripts: one stderr
    chunk of cloudflared matched against the regular expression
    `/https:\/\/([a-zA-Z0-9-]+\.trycloudflare\.com)/` with `String.match`
    (index.js:176-179, app.js:151-153). The match is case-sensitive, the
    leftmost start wins, and nothing is required after `.com`. */
module TunnelLog {
  import opened Basics

  const Scheme := "https://"
  const Suffix := ".trycloudflare.com"

  /** The class `[a-zA-Z0-9-]`. */
  predicate IsLabelChar(c: char) {
    ('a' <= c <= 'z') || ('A' <= c <= 'Z') || ('0' <= c <= '9') || c == '-'
  }

  /** Reference reading of the pattern: at index `i` the chunk holds
      `https://`, then one or more label characters up to index `j`, then
      `.trycloudflare.com`. The captured group is `s[i + 8..j + 18]`. */
  ghost predicate MatchesAt(s: string, i: int, j: int) {
    && 0 <= i
    && i + |Scheme| < j
    && j + |Suffix| <= |s|
    && s[i..i + |Scheme|] == Scheme
    && (forall k :: i + |Scheme| <= k < j ==> IsLabelChar(s[k]))
    && s[j..j + |Suffix|] == Suffix
  }

  /** The match the engine reports: no match starts further left. */
  ghost predicate LeftmostMatch(s: string, i: int, j: int) {
    MatchesAt(s, i, j) && forall i', j' :: 0 <= i' < i ==> !MatchesAt(s, i', j')
  }

  /** The end of the longest run of label characters starting at `k`
      (the greedy `+`). */
  function RunEnd(s: string, k: nat): (j: nat)
    requires k <= |s|
    ensures k <= j <= |s|
    ensures forall m :: k <= m < j ==> IsLabelChar(s[m])
    ensures j < |s| ==> !IsLabelChar(s[j])
    decreases |s| - k
  {
    if k < |s| && IsLabelChar(s[k]) then RunEnd(s, k + 1) else k
  }

  /** The pattern tried at start index `i`. Backtracking into the label run
      cannot help, since `.` is not a label character. */
  function MatchFrom(s: string, i: nat): Option<string>
    requires i <= |s|
  {
    if i + |Scheme| <= |s| && s[i..i + |Scheme|] == Scheme then
      var j := RunEnd(s, i + |Scheme|);
      if j > i + |Scheme| && j + |Suffix| <= |s| && s[j..j + |Suffix|] == Suffix
      then Some(s[i + |Scheme|..j + |Suffix|])
      else None
    else None
  }

  /** Start indices tried left to right. */
  function SearchFrom(s: string, i: nat): Option<string>
    requires i <= |s|
    decreases |s| - i
  {
    if i == |s| then None
    else
      match MatchFrom(s, i)
      case Some(h) => Some(h)
      case None => SearchFrom(s, i + 1)
  }

  /** `log.match(regex)` followed by `match[1]`: the captured hostname. */
  function Scan(chunk: string): Option<string> {
    SearchFrom(chunk, 0)
  }

  /** What a captured hostname looks like: a non-empty label and the
      provider's domain. */
  predicate IsQuickTunnelHost(h: string) {
    && |h| > |Suffix|
    && h[|h| - |Suffix|..] == Suffix
    && forall k :: 0 <= k < |h| - |Suffix| ==> IsLabelChar(h[k])
  }

  /** The label is the maximal run: a match at `i` can only end where the
      greedy run ends. */
  lemma MatchEndIsRunEnd(s: string, i: int, j: int)
    requires MatchesAt(s, i, j)
    ensures j == RunEnd(s, i + |Scheme|)
  {
    assert s[j] == s[j..j + |Suffix|][0] == '.';
  }

  /** A match at a given start has exactly one end. */
  lemma MatchEndUnique(s: string, i: int, j1: int, j2: int)
    requires MatchesAt(s, i, j1) && MatchesAt(s, i, j2)
    ensures j1 == j2
  {
    MatchEndIsRunEnd(s, i, j1);
    MatchEndIsRunEnd(s, i, j2);
  }

  lemma MatchFromSound(s: string, i: nat)
    requires i <= |s|
    requires MatchFrom(s, i).Some?
    ensures MatchesAt(s, i, RunEnd(s, i + |Scheme|))
    ensures MatchFrom(s, i).value == s[i + |Scheme|..RunEnd(s, i + |Scheme|) + |Suffix|]
  {
  }

  lemma MatchFromComplete(s: string, i: nat, j: int)
    requires i <= |s|
    requires MatchesAt(s, i, j)
    ensures MatchFrom(s, i) == Some(s[i + |Scheme|..j + |Suffix|])
  {
    MatchEndIsRunEnd(s, i, j);
  }

  lemma {:induction false} SearchFromFindsLeftmost(s: string, i: nat, a: int, j: int)
    requires i <= a && MatchesAt(s, a, j)
    requires forall a', j' :: i <= a' < a ==> !MatchesAt(s, a', j')
    ensures a < |s|
    ensures SearchFrom(s, i) == Some(s[a + |Scheme|..j + |Suffix|])
    decreases a - i
  {
    if i == a {
      MatchFromComplete(s, a, j);
    } else {
      if MatchFrom(s, i).Some? {
        MatchFromSound(s, i);
      }
      SearchFromFindsLeftmost(s, i + 1, a, j);
    }
  }

  lemma {:induction false} SearchFromNone(s: string, i: nat)
    requires i <= |s|
    ensures SearchFrom(s, i).None? <==> forall a, j :: i <= a ==> !MatchesAt(s, a, j)
    decreases |s| - i
  {
    if i < |s| {
      SearchFromNone(s, i + 1);
      if MatchFrom(s, i).Some? {
        MatchFromSound(s, i);
      } else {
        forall j | MatchesAt(s, i, j) ensures false {
          MatchFromComplete(s, i, j);
        }
      }
    }
  }

  /** The scanner is the regular expression: it finds a hostname exactly
      when the chunk holds an occurrence of the pattern somewhere, and then
      it returns the group captured by the leftmost occurrence. */
  lemma ScanIsLeftmostMatch(chunk: string)
    ensures Scan(chunk).None? <==> forall i, j :: !MatchesAt(chunk, i, j)
    ensures forall i, j :: LeftmostMatch(chunk, i, j) ==>
      Scan(chunk) == Some(chunk[i + |Scheme|..j + |Suffix|])
  {
    SearchFromNone(chunk, 0);
    forall i, j | LeftmostMatch(chunk, i, j)
      ensures Scan(chunk) == Some(chunk[i + |Scheme|..j + |Suffix|])
    {
      SearchFromFindsLeftmost(chunk, 0, i, j);
    }
  }

  lemma {:induction false} SearchFromShape(s: string, i: nat)
    requires i <= |s|
    requires SearchFrom(s, i).Some?
    ensures IsQuickTunnelHost(SearchFrom(s, i).value)
    decreases |s| - i
  {
    if MatchFrom(s, i).Some? {
      MatchFromSound(s, i);
      var j := RunEnd(s, i + |Scheme|);
      var h := s[i + |Scheme|..j + |Suffix|];
      assert h[|h| - |Suffix|..] == s[j..j + |Suffix|];
    } else {
      SearchFromShape(s, i + 1);
    }
  }

  /** Every captured hostname is a label followed by `.trycloudflare.com`. */
  lemma ScanShape(chunk: string)
    requires Scan(chunk).Some?
    ensures IsQuickTunnelHost(Scan(chunk).value)
  {
    SearchFromShape(chunk, 0);
  }

  /** A captured hostname holds none of the characters that end a field of
      a share link. */
  lemma QuickTunnelHostAvoidsSeparators(h: string)
    requires IsQuickTunnelHost(h)
    ensures Free(h, '@') && Free(h, ':') && Free(h, '&') && Free(h, '#')
  {
    forall k | 0 <= k < |h|
      ensures h[k] != '@' && h[k] != ':' && h[k] != '&' && h[k] != '#'
    {
      if k >= |h| - |Suffix| {
        assert h[k] == h[|h| - |Suffix|..][k - (|h| - |Suffix|)];
      }
    }
  }
}
