/**
 * Pieces of article and reference extraction that the services share: the
 * page queries, the leading-label cleanup of reference titles, the text
 * documents uploaded for articles and references, and the `js_content` snippet.
 */
module Extraction {
  import opened Wrappers
  import opened Text
  import opened Html

  /** The tags `find_parent(['p', 'li', 'div'])` stops at. */
  const ParentTags: set<string> := {"p", "li", "div"}

  /** `find('div', id='js_content')`: the body of a WeChat article. */
  const JsContent: Query := Query("div", Some(("id", "js_content")))

  /** `find('a', href=link)`: an anchor whose `href` is exactly `link`. */
  function AnchorQuery(link: string): Query {
    Query("a", Some(("href", link)))
  }

  /**
   * Where the title of a reference link comes from: no anchor has the link as
   * its exact `href`; or the first such anchor has no `p`, `li` or `div`
   * ancestor; or it has one, the nearest of which is `parent`.
   */
  datatype TitleSource =
    | Unanchored
    | Anchored(anchor: Path)
    | InParent(anchor: Path, parent: Path)

  /** `a_tag = soup.find('a', href=link)`, then `a_tag.find_parent(['p', 'li', 'div'])`. */
  function TitleSourceOf(doc: Node, link: string): (r: TitleSource)
    ensures r.Anchored? ==> ValidPath(doc, r.anchor)
    ensures r.InParent? ==> ValidPath(doc, r.anchor) && ValidPath(doc, r.parent)
  {
    match Find(doc, AnchorQuery(link))
    case None => Unanchored
    case Some(a) =>
      match FindParent(doc, a, ParentTags)
      case None => Anchored(a)
      case Some(pp) => InParent(a, pp)
  }

  /** The anchor at `a` has `href` equal to `link` and no other such anchor precedes it. */
  ghost predicate FirstAnchor(doc: Node, link: string, a: Path) {
    MatchAt(doc, a, AnchorQuery(link))
    && forall a' :: MatchAt(doc, a', AnchorQuery(link)) ==> a' == a || Before(a, a')
  }

  /** `pp` is the nearest `p`, `li` or `div` strictly above `a`, below the document root. */
  predicate NearestContainer(doc: Node, a: Path, pp: Path) {
    1 <= |pp| < |a| && pp == a[..|pp|] && TaggedAt(doc, pp, ParentTags)
    && forall j :: |pp| < j < |a| ==> !TaggedAt(doc, a[..j], ParentTags)
  }

  /** No `p`, `li` or `div` is strictly above `a`, below the document root. */
  predicate Uncontained(doc: Node, a: Path) {
    forall j :: 1 <= j < |a| ==> !TaggedAt(doc, a[..j], ParentTags)
  }

  /** The first anchor for a link, inside its nearest container, gives the title source. */
  lemma TitleSourceInParent(doc: Node, link: string, a: Path, pp: Path)
    requires FirstAnchor(doc, link, a) && NearestContainer(doc, a, pp)
    ensures TitleSourceOf(doc, link) == InParent(a, pp)
  {
    FindFirst(doc, AnchorQuery(link), a);
    FindParentNearest(doc, a, ParentTags, pp);
  }

  /** The first anchor for a link, outside any container, gives the title source. */
  lemma TitleSourceAnchored(doc: Node, link: string, a: Path)
    requires FirstAnchor(doc, link, a) && Uncontained(doc, a)
    ensures TitleSourceOf(doc, link) == Anchored(a)
  {
    FindFirst(doc, AnchorQuery(link), a);
  }

  /** A link that no anchor points at exactly (plain text in the page) has no title source. */
  lemma TitleSourceUnanchored(doc: Node, link: string)
    requires forall a :: !MatchAt(doc, a, AnchorQuery(link))
    ensures TitleSourceOf(doc, link) == Unanchored
  {
  }

  /** The leading labels the title cleanup removes. */
  predicate IsLabel(s: string) {
    s == "来源文章" || s == "延伸阅读" || s == "相关链接"
  }

  /** The class `[:：\s]` of the cleanup pattern (`\s` is Unicode whitespace). */
  predicate IsSeparator(c: char) {
    c == ':' || c == '：' || IsSpace(c)
  }

  /** Length of the run of separators that opens `s`. */
  function SeparatorRun(s: string): (n: nat)
    ensures n <= |s|
    ensures forall k :: 0 <= k < n ==> IsSeparator(s[k])
    ensures n < |s| ==> !IsSeparator(s[n])
  {
    if s != [] && IsSeparator(s[0]) then 1 + SeparatorRun(s[1..]) else 0
  }

  /** The run of separators that opens `sep + rest` is `sep`, when `rest` does not open with one. */
  lemma {:induction false} SeparatorRunOf(sep: string, rest: string)
    requires forall k :: 0 <= k < |sep| ==> IsSeparator(sep[k])
    requires rest == [] || !IsSeparator(rest[0])
    ensures SeparatorRun(sep + rest) == |sep|
    decreases |sep|
  {
    if sep == [] {
      assert sep + rest == rest;
    } else {
      assert (sep + rest)[0] == sep[0];
      assert (sep + rest)[1..] == sep[1..] + rest;
      SeparatorRunOf(sep[1..], rest);
    }
  }

  /** `t` opens with one of the labels. */
  predicate Labelled(t: string) {
    |t| >= 4 && IsLabel(t[..4])
  }

  /**
   * `re.sub(r'^(来源文章|延伸阅读|相关链接)[:：\s]*', '', t)`: one leading
   * label and the separators after it are removed; the rest is kept.
   */
  function DropLabel(t: string): (r: string)
    ensures |r| <= |t| && r == t[|t| - |r|..]
    ensures !Labelled(t) ==> r == t
    ensures Labelled(t) ==> |r| <= |t| - 4 && (r == [] || !IsSeparator(r[0]))
  {
    if Labelled(t) then t[4 + SeparatorRun(t[4..])..] else t
  }

  /** The label cleanup followed by `.strip()`, as the reference-title chains apply it. */
  function StripLabel(t: string): (r: string)
    ensures IsStripped(r) && |r| <= |t|
  {
    Strip(DropLabel(t))
  }

  /**
   * A title made of a label `lead`, separators and a stripped rest that does
   * not open with a separator comes out as that rest.
   */
  lemma StripLabelOfLabelled(lead: string, sep: string, rest: string)
    requires IsLabel(lead)
    requires forall k :: 0 <= k < |sep| ==> IsSeparator(sep[k])
    requires IsStripped(rest) && (rest == [] || !IsSeparator(rest[0]))
    ensures StripLabel(lead + sep + rest) == rest
  {
    var t := lead + sep + rest;
    assert t[..4] == lead;
    assert t[4..] == sep + rest;
    SeparatorRunOf(sep, rest);
    assert t[4 + |sep|..] == rest;
    StripOfStripped(rest);
  }

  /** A stripped title without a leading label is kept as it is. */
  lemma StripLabelOfUnlabelled(t: string)
    requires IsStripped(t) && !Labelled(t)
    ensures StripLabel(t) == t
  {
    StripOfStripped(t);
  }

  /** Only one label goes: a label that follows the removed one stays in the title. */
  lemma StripLabelOnce(first: string, second: string)
    requires IsLabel(first) && IsLabel(second)
    ensures StripLabel(first + second) == second
  {
    assert first + "" + second == first + second;
    LabelIsStripped(second);
    StripLabelOfLabelled(first, "", second);
  }

  lemma LabelIsStripped(s: string)
    requires IsLabel(s)
    ensures |s| == 4 && IsStripped(s) && !IsSeparator(s[0])
  {
  }

  /** The title cleanup on the first reference of the test page of wechat_api/test_main.py. */
  lemma StripLabelSample()
    ensures StripLabel("来源文章：第一篇参考文献标题") == "第一篇参考文献标题"
  {
    var rest := "第一篇参考文献标题";
    assert "来源文章" + "：" + rest == "来源文章：第一篇参考文献标题";
    assert IsStripped(rest) && !IsSeparator(rest[0]);
    StripLabelOfLabelled("来源文章", "：", rest);
  }

  /** How an f-string renders a title that may be Python's `None`. */
  function Show(title: Option<string>): (r: string)
    ensures title.Some? ==> r == title.value
  {
    match title
    case None => "None"
    case Some(t) => t
  }

  /** `'\n'.join(lines)`. */
  function JoinLines(lines: seq<string>): string
    requires |lines| >= 1
  {
    if |lines| == 1 then lines[0] else lines[0] + "\n" + JoinLines(lines[1..])
  }

  /** The article document of coze_uploader.py and main.py. */
  function ArticleContent(url: string, title: Option<string>, snippet: string): string {
    JoinLines(["---", "文章URL: " + url, "文章标题: " + Show(title), "文章摘要: " + snippet, "---"])
  }

  /** The reference document of coze_uploader.py and main.py. */
  function ReferenceContent(title: string, link: string): string {
    JoinLines(["---", "文献标题: " + title, "文献链接: " + link, "---"])
  }

  /** `s.split('\n')`. */
  function Lines(s: string): (r: seq<string>)
    ensures |r| >= 1
    decreases |s|
  {
    if '\n' !in s then [s]
    else
      var i := FirstNewline(s);
      [s[..i]] + Lines(s[i + 1..])
  }

  function FirstNewline(s: string): (i: nat)
    requires '\n' in s
    ensures i < |s| && s[i] == '\n'
  {
    if s[0] == '\n' then 0 else 1 + FirstNewline(s[1..])
  }

  lemma {:induction false} FirstNewlineOf(a: string, b: string)
    requires '\n' !in a
    ensures FirstNewline(a + "\n" + b) == |a|
    decreases |a|
  {
    var s := a + "\n" + b;
    if a != [] {
      assert s[0] == a[0];
      assert s[1..] == a[1..] + "\n" + b;
      FirstNewlineOf(a[1..], b);
    }
  }

  /** Splitting text joined from lines without line breaks gives back those lines. */
  lemma {:induction false} LinesOfJoin(lines: seq<string>)
    requires |lines| >= 1
    requires forall k :: 0 <= k < |lines| ==> '\n' !in lines[k]
    ensures Lines(JoinLines(lines)) == lines
    decreases |lines|
  {
    if |lines| > 1 {
      var a, b := lines[0], JoinLines(lines[1..]);
      var s := a + "\n" + b;
      FirstNewlineOf(a, b);
      assert s[|a|] == '\n';
      assert s[..|a|] == a && s[|a| + 1..] == b;
      LinesOfJoin(lines[1..]);
      assert lines == [a] + lines[1..];
    }
  }

  lemma NoNewlineJoin(a: string, b: string)
    requires '\n' !in a && '\n' !in b
    ensures '\n' !in a + b
  {
    forall k | 0 <= k < |a + b| ensures (a + b)[k] != '\n' {
      if k < |a| { assert (a + b)[k] == a[k]; } else { assert (a + b)[k] == b[k - |a|]; }
    }
  }

  /**
   * The article document is five lines framed by `---`, and gives back the
   * URL, the title and the snippet whenever they have no line breaks.
   */
  lemma ArticleContentLines(url: string, title: Option<string>, snippet: string)
    requires '\n' !in url && '\n' !in Show(title) && '\n' !in snippet
    ensures Lines(ArticleContent(url, title, snippet))
         == ["---", "文章URL: " + url, "文章标题: " + Show(title), "文章摘要: " + snippet, "---"]
  {
    NoNewlineJoin("文章URL: ", url);
    NoNewlineJoin("文章标题: ", Show(title));
    NoNewlineJoin("文章摘要: ", snippet);
    LinesOfJoin(["---", "文章URL: " + url, "文章标题: " + Show(title), "文章摘要: " + snippet, "---"]);
  }

  /**
   * The reference document is four lines framed by `---`, and gives back the
   * title and the link whenever the title has no line break.
   */
  lemma ReferenceContentLines(title: string, link: string)
    requires '\n' !in title && '\n' !in link
    ensures Lines(ReferenceContent(title, link)) == ["---", "文献标题: " + title, "文献链接: " + link, "---"]
  {
    NoNewlineJoin("文献标题: ", title);
    NoNewlineJoin("文献链接: ", link);
    LinesOfJoin(["---", "文献标题: " + title, "文献链接: " + link, "---"]);
  }

  /**
   * The snippet main.py and index.py upload: the first 150 characters of the
   * stripped text of `div#js_content`, and `None` (nothing to upload) when
   * the page has no such container. An empty container gives "".
   */
  function BodySnippet(doc: Node): (r: Option<string>)
    ensures r.None? <==> Find(doc, JsContent).None?
    ensures r.Some? ==> var text := GetText(At(doc, Find(doc, JsContent).value));
      r.value <= text && |r.value| == if |text| <= 150 then |text| else 150
  {
    match Find(doc, JsContent)
    case None => None
    case Some(p) => Some(Prefix(GetText(At(doc, p)), 150))
  }
}
