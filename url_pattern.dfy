/** The plugin's one regular expression (main.py:28)

      https?://(.*?(xhslink\.com|douyin\.com|kuaishou\.com)/.*)

    applied with `re.search` and read through `group(0)`. No flags are set,
    so `.` matches every character except a line feed. `MatchesAt` says
    declaratively when the pattern matches at a start position; `Search`
    computes the leftmost match and is proved against it. */
module UrlPattern {
  import opened Base

  /** `w` occurs in `s` at offset `j`. */
  predicate OccursAt(s: string, j: nat, w: string) {
    j + |w| <= |s| && s[j..j + |w|] == w
  }

  /** The scheme `https?://` starts at `i` and ends at `p`. */
  predicate SchemeAt(s: string, i: nat, p: nat) {
    (p == i + 8 && OccursAt(s, i, "https://")) || (p == i + 7 && OccursAt(s, i, "http://"))
  }

  /** One of the three platform domains, followed by its `/`, starts at `j`. */
  predicate DomainSlashAt(s: string, j: nat) {
    OccursAt(s, j, "xhslink.com/") || OccursAt(s, j, "douyin.com/") || OccursAt(s, j, "kuaishou.com/")
  }

  /** No character of `s` between `lo` (inclusive) and `hi` (exclusive) is a line feed. */
  ghost predicate NoNewline(s: string, lo: nat, hi: nat) {
    forall k | lo <= k < hi && k < |s| :: s[k] != '\n'
  }

  /** The pattern matches with its first character at `i`: the scheme ends
      at `p`, the lazy `.*?` covers `s[p..j]` without crossing a line feed,
      and a domain with its slash starts at `j`. The trailing `.*` matches
      the empty string at worst, so it adds no condition. */
  ghost predicate MatchesAt(s: string, i: nat) {
    exists p: nat, j: nat :: SchemeAt(s, i, p) && p <= j && NoNewline(s, p, j) && DomainSlashAt(s, j)
  }

  /** `e` is the end of the line that contains position `i`. */
  ghost predicate IsLineEnd(s: string, i: nat, e: nat) {
    i <= e <= |s| && NoNewline(s, i, e) && (e == |s| || s[e] == '\n')
  }

  /** A match object: `group(0)` is `s[start..end]`. */
  datatype Match = Match(start: nat, end: nat)

  function SchemeEnd(s: string, i: nat): Option<nat> {
    if OccursAt(s, i, "https://") then Some(i + 8)
    else if OccursAt(s, i, "http://") then Some(i + 7)
    else None
  }

  /** The two spellings of the scheme exclude each other, so the optional `s`
      leaves only one place for the scheme to end. */
  lemma SchemeEndExact(s: string, i: nat, p: nat)
    requires SchemeAt(s, i, p)
    ensures SchemeEnd(s, i) == Some(p)
  {
    assert p == i + 7 ==> s[i + 4] == s[i..i + 7][4] == ':';
    assert OccursAt(s, i, "https://") ==> s[i + 4] == s[i..i + 8][4] == 's';
  }

  /** The first line feed at or after `k`, or the end of `s`. */
  function LineEnd(s: string, k: nat): (e: nat)
    requires k <= |s|
    ensures IsLineEnd(s, k, e)
    decreases |s| - k
  {
    if k == |s| || s[k] == '\n' then k else LineEnd(s, k + 1)
  }

  /** Whether a domain with its slash starts anywhere in `[j, e)`. */
  function FindDomain(s: string, j: nat, e: nat): (b: bool)
    requires j <= e <= |s|
    ensures b <==> exists m :: j <= m < e && DomainSlashAt(s, m)
    decreases e - j
  {
    if j == e then false else DomainSlashAt(s, j) || FindDomain(s, j + 1, e)
  }

  /** A word without line feeds that starts inside a line ends inside it too. */
  lemma OccursInsideLine(s: string, lo: nat, j: nat, e: nat, w: string)
    requires OccursAt(s, j, w) && '\n' !in w
    requires lo <= j && NoNewline(s, lo, j) && IsLineEnd(s, lo, e)
    ensures j + |w| <= e
  {
    forall k | j <= k < j + |w|
      ensures s[k] != '\n'
    {
      assert s[k] == s[j..j + |w|][k - j];
    }
  }

  /** The three words the domain group matches, each with its slash. */
  const DomainWords: seq<string> := ["xhslink.com/", "douyin.com/", "kuaishou.com/"]

  lemma DomainWord(s: string, j: nat) returns (w: string)
    requires DomainSlashAt(s, j)
    ensures w in DomainWords && OccursAt(s, j, w)
  {
    if OccursAt(s, j, "xhslink.com/") {
      w := "xhslink.com/";
    } else if OccursAt(s, j, "douyin.com/") {
      w := "douyin.com/";
    } else {
      w := "kuaishou.com/";
    }
  }

  /** A domain found on the scheme's line gives a match. */
  lemma FoundDomainMatches(s: string, i: nat, p: nat)
    requires SchemeAt(s, i, p) && p <= |s|
    requires FindDomain(s, p, LineEnd(s, p))
    ensures MatchesAt(s, i)
  {
    var e := LineEnd(s, p);
    var m :| p <= m < e && DomainSlashAt(s, m);
    assert NoNewline(s, p, m);
  }

  /** A domain that starts before the next line feed is found on the line. */
  lemma DomainOnLine(s: string, p: nat, j: nat)
    requires p <= j && NoNewline(s, p, j) && DomainSlashAt(s, j)
    ensures p <= |s| && FindDomain(s, p, LineEnd(s, p))
  {
    var e := LineEnd(s, p);
    var w := DomainWord(s, j);
    OccursInsideLine(s, p, j, e, w);
    FindDomainWitness(s, p, j, e);
  }

  lemma FindDomainWitness(s: string, p: nat, j: nat, e: nat)
    requires p <= j < e <= |s| && DomainSlashAt(s, j)
    ensures FindDomain(s, p, e)
  {
  }

  /** A match has its domain on the scheme's line. */
  lemma MatchFindsDomain(s: string, i: nat)
    requires MatchesAt(s, i)
    ensures SchemeEnd(s, i).Some? && SchemeEnd(s, i).value <= |s|
    ensures FindDomain(s, SchemeEnd(s, i).value, LineEnd(s, SchemeEnd(s, i).value))
  {
    var p: nat, j: nat :| SchemeAt(s, i, p) && p <= j && NoNewline(s, p, j) && DomainSlashAt(s, j);
    SchemeEndExact(s, i, p);
    DomainOnLine(s, p, j);
  }

  /** The declarative match condition and the executable test agree. */
  lemma MatchesAtIff(s: string, i: nat)
    ensures MatchesAt(s, i) <==>
      SchemeEnd(s, i).Some? && FindDomain(s, SchemeEnd(s, i).value, LineEnd(s, SchemeEnd(s, i).value))
  {
    if MatchesAt(s, i) {
      MatchFindsDomain(s, i);
    } else if SchemeEnd(s, i).Some? && SchemeEnd(s, i).value <= |s| {
      var p := SchemeEnd(s, i).value;
      assert SchemeAt(s, i, p);
      if FindDomain(s, p, LineEnd(s, p)) {
        FoundDomainMatches(s, i, p);
      }
    }
  }

  /** The executable test for a match at `i`. */
  function MatchAt(s: string, i: nat): (b: bool)
    ensures b <==> MatchesAt(s, i)
  {
    MatchesAtIff(s, i);
    match SchemeEnd(s, i)
    case None => false
    case Some(p) => FindDomain(s, p, LineEnd(s, p))
  }

  /** The leftmost match start at or after `i`, as `re.search` tries them. */
  function SearchFrom(s: string, i: nat): (r: Option<nat>)
    requires i <= |s|
    ensures r.Some? ==> i <= r.value <= |s| && MatchesAt(s, r.value)
    ensures r.Some? ==> forall k :: i <= k < r.value ==> !MatchesAt(s, k)
    ensures r.None? ==> forall k :: i <= k <= |s| ==> !MatchesAt(s, k)
    decreases |s| - i
  {
    if MatchAt(s, i) then Some(i)
    else if i == |s| then None
    else SearchFrom(s, i + 1)
  }

  /** `url_pattern.search(s)`: the leftmost match; the greedy `.*` runs it to
      the end of its line. */
  function Search(s: string): (r: Option<Match>)
    ensures r.None? <==> forall k :: 0 <= k <= |s| ==> !MatchesAt(s, k)
    ensures r.Some? ==> MatchesAt(s, r.value.start)
    ensures r.Some? ==> forall k :: 0 <= k < r.value.start ==> !MatchesAt(s, k)
    ensures r.Some? ==> IsLineEnd(s, r.value.start, r.value.end)
  {
    match SearchFrom(s, 0)
    case None => None
    case Some(i) => Some(Match(i, LineEnd(s, i)))
  }

  /** `url_match.group(0)` when the search succeeds. */
  function SearchUrl(s: string): (r: Option<string>)
    ensures r.Some? <==> Search(s).Some?
  {
    match Search(s)
    case None => None
    case Some(m) => Some(s[m.start..m.end])
  }

  ghost predicate IsSubstring(u: string, s: string) {
    exists i: nat :: OccursAt(s, i, u)
  }

  /** An occurrence inside a slice is an occurrence in the slice, shifted. */
  lemma OccursInSlice(s: string, lo: nat, hi: nat, j: nat, w: string)
    requires lo <= j && j + |w| <= hi <= |s| && OccursAt(s, j, w)
    ensures OccursAt(s[lo..hi], j - lo, w)
  {
    var t, a := s[lo..hi], j - lo;
    forall m | a <= m < a + |w|
      ensures t[m] == s[lo + m]
    {
    }
    assert t[a..a + |w|] == s[j..j + |w|];
  }

  /** The extracted URL is one line of the message from the match start on,
      so it holds no line feed. */
  lemma UrlSingleLine(s: string)
    requires SearchUrl(s).Some?
    ensures forall k :: 0 <= k < |SearchUrl(s).value| ==> SearchUrl(s).value[k] != '\n'
  {
    var m := Search(s).value;
    assert SearchUrl(s).value == s[m.start..m.end];
  }

  /** A word that starts inside the line from `lo` to `e` and holds no line
      feed occurs in the slice `s[lo..e]`. */
  lemma OccursInLineSlice(s: string, lo: nat, j: nat, e: nat, w: string)
    requires OccursAt(s, j, w) && '\n' !in w
    requires lo <= j && NoNewline(s, lo, j) && IsLineEnd(s, lo, e)
    ensures OccursAt(s[lo..e], j - lo, w)
  {
    OccursInsideLine(s, lo, j, e, w);
    OccursInSlice(s, lo, e, j, w);
  }

  /** The extracted URL begins with its scheme. */
  lemma UrlScheme(s: string)
    requires SearchUrl(s).Some?
    ensures "http://" <= SearchUrl(s).value || "https://" <= SearchUrl(s).value
  {
    var m := Search(s).value;
    var p: nat, j: nat :| SchemeAt(s, m.start, p) && p <= j && NoNewline(s, p, j) && DomainSlashAt(s, j);
    var scheme := if p == m.start + 8 then "https://" else "http://";
    OccursInLineSlice(s, m.start, m.start, m.end, scheme);
  }

  /** The domain of a match lies inside the matched line. */
  lemma DomainInMatch(s: string, lo: nat, e: nat, p: nat, j: nat)
    requires SchemeAt(s, lo, p) && p <= j && NoNewline(s, p, j) && DomainSlashAt(s, j)
    requires IsLineEnd(s, lo, e)
    ensures j - lo >= 0 && DomainSlashAt(s[lo..e], j - lo)
  {
    var scheme := if p == lo + 8 then "https://" else "http://";
    OccursInsideLine(s, lo, lo, e, scheme);
    assert NoNewline(s, lo, j);
    var w := DomainWord(s, j);
    OccursInLineSlice(s, lo, j, e, w);
  }

  /** The extracted URL holds a domain followed by its slash. */
  lemma UrlDomain(s: string)
    requires SearchUrl(s).Some?
    ensures exists j: nat :: DomainSlashAt(SearchUrl(s).value, j)
  {
    var m := Search(s).value;
    var p: nat, j: nat :| SchemeAt(s, m.start, p) && p <= j && NoNewline(s, p, j) && DomainSlashAt(s, j);
    DomainInMatch(s, m.start, m.end, p, j);
    assert DomainSlashAt(SearchUrl(s).value, j - m.start);
  }

  /** Every URL the plugin extracts is a piece of the message that starts
      with `http://` or `https://`, contains one of the three domains followed
      by `/`, and lies on a single line. */
  lemma ExtractedUrlShape(s: string)
    requires SearchUrl(s).Some?
    ensures var u := SearchUrl(s).value;
      && IsSubstring(u, s)
      && ("http://" <= u || "https://" <= u)
      && (exists j: nat :: DomainSlashAt(u, j))
      && forall k :: 0 <= k < |u| ==> u[k] != '\n'
  {
    var m := Search(s).value;
    assert OccursAt(s, m.start, SearchUrl(s).value);
    UrlSingleLine(s);
    UrlScheme(s);
    UrlDomain(s);
  }
}
