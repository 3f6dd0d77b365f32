/**
 * Reference-link discovery: Python's
 * `re.findall(r'https://s\.caixuan\.cc/[A-Za-z0-9]+', html_string)` written
 * out as a left-to-right scan with greedy, non-overlapping matches, and
 * `sorted(list(set(...)))` of its result.
 */
module RefLinks {
  import opened Text

  const LinkPrefix: string := "https://s.caixuan.cc/"

  /** The character class `[A-Za-z0-9]` (ASCII only). */
  predicate IsAlnum(c: char) {
    ('A' <= c <= 'Z') || ('a' <= c <= 'z') || ('0' <= c <= '9')
  }

  /** A string the whole pattern matches: the prefix, then one or more ASCII letters or digits. */
  predicate IsLink(m: string) {
    |m| > |LinkPrefix| && m[..|LinkPrefix|] == LinkPrefix
    && forall k :: |LinkPrefix| <= k < |m| ==> IsAlnum(m[k])
  }

  /** The pattern can start matching at position `i` of `s`. */
  predicate StartsLink(s: string, i: nat) {
    i + |LinkPrefix| < |s| && s[i..i + |LinkPrefix|] == LinkPrefix && IsAlnum(s[i + |LinkPrefix|])
  }

  /** End of the run of letters and digits that starts at `j`. */
  function RunEnd(s: string, j: nat): (e: nat)
    requires j <= |s|
    ensures j <= e <= |s|
    ensures forall k :: j <= k < e ==> IsAlnum(s[k])
    ensures e == |s| || !IsAlnum(s[e])
    decreases |s| - j
  {
    if j < |s| && IsAlnum(s[j]) then RunEnd(s, j + 1) else j
  }

  /** The greedy match starting at `i`: the prefix and the longest run of letters and digits after it. */
  function LinkAt(s: string, i: nat): (m: string)
    requires StartsLink(s, i)
    ensures IsLink(m)
    ensures i + |m| <= |s| && s[i..i + |m|] == m
    ensures i + |m| == |s| || !IsAlnum(s[i + |m|])
  {
    var e := RunEnd(s, i + |LinkPrefix|);
    SliceHead(s, i, i + |LinkPrefix|, e);
    s[i..e]
  }

  /** The first `j - i` characters of `s[i..e]` are `s[i..j]`. */
  lemma SliceHead(s: string, i: nat, j: nat, e: nat)
    requires i <= j <= e <= |s|
    ensures s[i..e][..j - i] == s[i..j]
  {
    assert forall k :: 0 <= k < j - i ==> s[i..e][..j - i][k] == s[i..j][k];
  }

  /** `m` is the greedy match at some position of `s`. */
  ghost predicate MatchedIn(s: string, m: string) {
    exists j :: StartsLink(s, j) && LinkAt(s, j) == m
  }

  /** The matches `re.findall` reports when scanning resumes at position `i`. */
  function FindAllFrom(s: string, i: nat): (r: seq<string>)
    requires i <= |s|
    ensures forall k :: 0 <= k < |r| ==> IsLink(r[k])
    decreases |s| - i
  {
    if i + |LinkPrefix| >= |s| then []
    else if StartsLink(s, i) then
      var m := LinkAt(s, i);
      [m] + FindAllFrom(s, i + |m|)
    else FindAllFrom(s, i + 1)
  }

  /** Every match the scan reports is the greedy match at some position of `s`. */
  lemma {:induction false} FindAllFromSound(s: string, i: nat)
    requires i <= |s|
    ensures forall m :: m in FindAllFrom(s, i) ==> MatchedIn(s, m)
    decreases |s| - i
  {
    if i + |LinkPrefix| < |s| {
      if StartsLink(s, i) {
        FindAllFromSound(s, i + |LinkAt(s, i)|);
      } else {
        FindAllFromSound(s, i + 1);
      }
    }
  }

  /** `re.findall(pattern, s)`. */
  function FindAll(s: string): (r: seq<string>)
    ensures forall k :: 0 <= k < |r| ==> IsLink(r[k]) && MatchedIn(s, r[k])
  {
    FindAllFromSound(s, 0);
    FindAllFrom(s, 0)
  }

  /** The prefix has `h` only in its first position. */
  lemma OnlyLeadingH(d: int)
    requires 1 <= d < |LinkPrefix|
    ensures LinkPrefix[d] != 'h'
  {
  }

  /**
   * Inside a match at `k`, no character after the first is `h`, and every
   * character from the prefix's closing `/` to the end of the match is `/`,
   * a letter or a digit; so no delimited match starts inside it.
   */
  lemma InsideMatch(s: string, k: nat)
    requires StartsLink(s, k)
    ensures forall j :: k < j < k + |LinkPrefix| ==> s[j] != 'h'
    ensures forall j :: k + |LinkPrefix| - 1 <= j < k + |LinkAt(s, k)| ==> s[j] == '/' || IsAlnum(s[j])
  {
    forall j | k < j < k + |LinkPrefix|
      ensures s[j] != 'h'
    {
      OnlyLeadingH(j - k);
      assert s[j] == s[k..k + |LinkPrefix|][j - k];
    }
    var m := LinkAt(s, k);
    forall j | k + |LinkPrefix| - 1 <= j < k + |m|
      ensures s[j] == '/' || IsAlnum(s[j])
    {
      assert s[j] == s[k..k + |m|][j - k];
      if j == k + |LinkPrefix| - 1 {
        assert m[j - k] == m[..|LinkPrefix|][j - k];
      }
    }
  }

  /** Position `i` is not preceded by a letter, a digit or `/`. */
  predicate Delimited(s: string, i: nat)
    requires i <= |s|
  {
    i == 0 || (!IsAlnum(s[i - 1]) && s[i - 1] != '/')
  }

  /** A delimited match at `i` starts after the end of any earlier match at `k`. */
  lemma NextMatchAfter(s: string, k: nat, i: nat)
    requires k < i && StartsLink(s, k) && StartsLink(s, i) && Delimited(s, i)
    ensures k + |LinkAt(s, k)| <= i
  {
    InsideMatch(s, k);
    assert s[i] == s[i..i + |LinkPrefix|][0];
  }

  /** A scan resumed at a match reports it first. */
  lemma ScanHere(s: string, i: nat)
    requires StartsLink(s, i)
    ensures LinkAt(s, i) in FindAllFrom(s, i)
  {
  }

  /** A scan resumed at a match reports what the scan after that match reports. */
  lemma ScanPastMatch(s: string, k: nat, x: string)
    requires StartsLink(s, k) && x in FindAllFrom(s, k + |LinkAt(s, k)|)
    ensures x in FindAllFrom(s, k)
  {
  }

  /** A scan resumed where no match starts reports what the scan one position later reports. */
  lemma ScanPastMiss(s: string, k: nat, x: string)
    requires k + |LinkPrefix| < |s| && !StartsLink(s, k) && x in FindAllFrom(s, k + 1)
    ensures x in FindAllFrom(s, k)
  {
  }

  /** The scan resumed at any `k <= i` reports the delimited match at `i`. */
  lemma {:induction false} ScanReaches(s: string, k: nat, i: nat)
    requires k <= i && StartsLink(s, i) && Delimited(s, i)
    ensures LinkAt(s, i) in FindAllFrom(s, k)
    decreases i - k
  {
    if k == i {
      ScanHere(s, i);
    } else if StartsLink(s, k) {
      NextMatchAfter(s, k, i);
      ScanReaches(s, k + |LinkAt(s, k)|, i);
      ScanPastMatch(s, k, LinkAt(s, i));
    } else {
      ScanReaches(s, k + 1, i);
      ScanPastMiss(s, k, LinkAt(s, i));
    }
  }

  /** Every delimited occurrence of a link in `s` is among the matches `re.findall` reports. */
  lemma FindAllComplete(s: string, i: nat)
    requires StartsLink(s, i) && Delimited(s, i)
    ensures LinkAt(s, i) in FindAll(s)
  {
    ScanReaches(s, 0, i);
  }

  /**
   * `sorted(list(set(re.findall(pattern, html_string))))`: the candidate
   * reference links of a serialized page, strictly ascending (so without
   * duplicates), each a full match found in the page, and exactly the
   * distinct matches.
   */
  function Links(markup: string): (r: seq<string>)
    ensures StrictlyAscending(r)
    ensures forall k :: 0 <= k < |r| ==> IsLink(r[k]) && MatchedIn(markup, r[k])
    ensures Elems(r) == Elems(FindAll(markup))
  {
    var all := FindAll(markup);
    var r := SortDistinct(all);
    assert forall k :: 0 <= k < |r| ==> r[k] in Elems(all);
    r
  }

  /** A delimited link in the page is one of the candidates. */
  lemma LinksComplete(markup: string, i: nat)
    requires StartsLink(markup, i) && Delimited(markup, i)
    ensures LinkAt(markup, i) in Links(markup)
  {
    FindAllComplete(markup, i);
    assert LinkAt(markup, i) in Elems(FindAll(markup));
  }
}
