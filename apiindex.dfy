/**
 * api/index.py: the Flask webhook. A GET is WeChat's server-URL check (the
 * sorted token, timestamp and nonce, hashed with SHA-1, against the
 * signature); a POST carrying a `PUBLISHJOBFINISH` event downloads every
 * article it lists and sends a "url|||title|||snippet" document and one
 * "title|||link" document per reference to the document API.
 */
module ApiIndex {
  import opened Wrappers
  import opened Text
  import opened Html
  import opened Json
  import opened Web
  import opened Coze
  import opened Extraction
  import opened Batch
  import Xml
  import RefLinks
  import Utf8

  /** `WECHAT_TOKEN`, `COZE_API_KEY`, `KB_ID_ARTICLES` and `KB_ID_REFERENCES`; an unset one reads as "". */
  datatype Config = Config(wechatToken: string, apiKey: string, articlesKb: string, referencesKb: string)

  /** The document endpoint of index.py. */
  const DocUrl: string := "https://api.coze.com/v1/doc/create"

  /** The POST of `create_coze_doc`: the text travels as it is, as a "text" document. */
  function RequestFor(apiKey: string, u: Upload): Request {
    Request(DocUrl,
      [("Authorization", "Bearer " + apiKey), ("Content-Type", "application/json"), ("Connection", "keep-alive")],
      DocCreate(u.kbId, u.name, "text", u.content))
  }

  /**
   * What `create_coze_doc` makes of a POST outcome: the decoded body of any
   * response that is not a client or server error, whatever it holds (no
   * code is inspected); `None` for a transport error, an error status or a
   * body that is not JSON (all of them `RequestException`s). A body that is
   * JSON `null` gives `Some(JNull)` here, where index.py returns its `None`,
   * which its callers cannot tell from a failure.
   */
  function DocReply(o: PostOutcome): (r: Option<JsonValue>)
    ensures r.Some? <==> o.Replied? && !IsHttpError(o.status) && o.body.Parsed?
    ensures r.Some? ==> r.value == o.body.value
  {
    if o.Replied? && !IsHttpError(o.status) && o.body.Parsed? then Some(o.body.value) else None
  }

  /**
   * `create_coze_doc(kb_id, doc_name, content)`: nothing is sent and `None`
   * comes back unless the key and the knowledge base are configured;
   * otherwise one request is posted and its reply is classified.
   */
  method CreateCozeDoc(store: DocumentStore, apiKey: string, kbId: string, docName: string, content: string)
    returns (r: Option<JsonValue>)
    modifies store
    ensures !Configured(apiKey, kbId) ==> store.sent == old(store.sent) && r == None
    ensures Configured(apiKey, kbId) ==>
      store.sent == old(store.sent) + [RequestFor(apiKey, Upload(kbId, Some(docName), content))]
      && r == DocReply(store.ReplyTo(old(|store.sent|)))
  {
    if !Configured(apiKey, kbId) {
      return None;
    }
    var o := store.Post(RequestFor(apiKey, Upload(kbId, Some(docName), content)));
    r := DocReply(o);
  }

  /** The field separator of the documents index.py writes. */
  const Separator: string := "|||"

  /** Where the first "|||" of `s` starts; `|s|` when there is none. */
  function SeparatorIndex(s: string): (i: nat)
    ensures i <= |s| && (i < |s| ==> i + 3 <= |s|)
    decreases |s|
  {
    if |s| < 3 then |s| else if s[..3] == Separator then 0 else 1 + SeparatorIndex(s[1..])
  }

  /** The "|||"-separated fields of a document, the reading its format is meant for. */
  function Fields(s: string): (r: seq<string>)
    ensures |r| >= 1
    decreases |s|
  {
    var i := SeparatorIndex(s);
    if i == |s| then [s] else [s[..i]] + Fields(s[i + 3..])
  }

  /** A field with no '|' ends at the separator that follows it. */
  lemma {:induction false} SeparatorIndexAfter(a: string, b: string)
    requires '|' !in a
    ensures SeparatorIndex(a + Separator + b) == |a|
    decreases |a|
  {
    var s := a + Separator + b;
    if a == [] {
      assert s[..3] == Separator;
    } else {
      assert s[0] == a[0];
      assert s[1..] == a[1..] + Separator + b;
      SeparatorIndexAfter(a[1..], b);
    }
  }

  /** A field with no '|' holds no separator. */
  lemma {:induction false} SeparatorIndexNone(a: string)
    requires '|' !in a
    ensures SeparatorIndex(a) == |a|
    decreases |a|
  {
    if |a| >= 3 {
      assert a[..3][0] == a[0];
      SeparatorIndexNone(a[1..]);
    }
  }

  /** Fields without '|' joined by "|||" split back into themselves. */
  lemma FieldsOfTwo(a: string, b: string)
    requires '|' !in a && '|' !in b
    ensures Fields(a + Separator + b) == [a, b]
  {
    var s := a + Separator + b;
    SeparatorIndexAfter(a, b);
    assert s[..|a|] == a;
    assert s[|a| + 3..] == b;
    SeparatorIndexNone(b);
  }

  /** `f"{article_url}|||{article_title}|||{snippet}"`. */
  function ArticleRecord(url: string, title: string, snippet: string): string {
    url + Separator + title + Separator + snippet
  }

  /** `f"{ref_title}|||{ref_link}"`. */
  function ReferenceRecord(title: string, link: string): string {
    title + Separator + link
  }

  /** An article document reads back as its URL, its title and its snippet when none of them holds a '|'. */
  lemma ArticleRecordFields(url: string, title: string, snippet: string)
    requires '|' !in url && '|' !in title && '|' !in snippet
    ensures Fields(ArticleRecord(url, title, snippet)) == [url, title, snippet]
  {
    var s := ArticleRecord(url, title, snippet);
    assert s == url + Separator + (title + Separator + snippet);
    SeparatorIndexAfter(url, title + Separator + snippet);
    assert s[..|url|] == url;
    assert s[|url| + 3..] == title + Separator + snippet;
    FieldsOfTwo(title, snippet);
  }

  /** A reference document reads back as its title and its link when the title holds no '|'. */
  lemma ReferenceRecordFields(title: string, link: string)
    requires '|' !in title && '|' !in link
    ensures Fields(ReferenceRecord(title, link)) == [title, link]
  {
    FieldsOfTwo(title, link);
  }

  /** The `create_coze_doc` calls of `sync_article_to_coze`: none without `div#js_content`. */
  function ArticleUploads(cfg: Config, title: string, url: string, doc: Node): seq<Upload> {
    match BodySnippet(doc)
    case None => []
    case Some(snippet) => [Upload(cfg.articlesKb, Some(title), ArticleRecord(url, title, snippet))]
  }

  /**
   * An article is uploaded at most once, to the articles base, under its
   * title, and exactly when the page has `div#js_content`; the document
   * reads back as the URL, the title and the first 150 characters of the
   * container's text.
   */
  lemma ArticleUploadsShape(cfg: Config, title: string, url: string, doc: Node)
    requires '|' !in url && '|' !in title
    requires BodySnippet(doc).Some? ==> '|' !in BodySnippet(doc).value
    ensures var us := ArticleUploads(cfg, title, url, doc);
      |us| <= 1 && (us == [] <==> Find(doc, JsContent).None?)
      && (us != [] ==>
            us[0].kbId == cfg.articlesKb && us[0].name == Some(title)
            && Fields(us[0].content) == [url, title, BodySnippet(doc).value])
  {
    if BodySnippet(doc).Some? {
      ArticleRecordFields(url, title, BodySnippet(doc).value);
    }
  }

  /** `sync_article_to_coze(article_title, article_url, soup)`; nothing in it raises past its handler. */
  method SyncArticleToCoze(store: DocumentStore, cfg: Config, title: string, url: string, doc: Node)
    modifies store
    ensures store.sent == old(store.sent) + Requests(cfg.apiKey, ArticleUploads(cfg, title, url, doc), RequestFor)
  {
    var container := Find(doc, JsContent);
    if container.None? {
      return;
    }
    var snippet := Prefix(GetText(At(doc, container.value)), 150);
    var content := ArticleRecord(url, title, snippet);
    var reply := CreateCozeDoc(store, cfg.apiKey, cfg.articlesKb, title, content);
    RequestsSingle(cfg.apiKey, Upload(cfg.articlesKb, Some(title), content), RequestFor);
  }

  /** `if not ref_title: ref_title = "标题为空"`. */
  function NonEmptyTitle(t: string): (r: string)
    ensures r != ""
    ensures t != "" ==> r == t
  {
    if t == "" then "标题为空" else t
  }

  /**
   * The title index.py gives a reference link: none when no anchor has the
   * link as its exact `href` (the link is skipped); else the label-cleaned
   * text of the anchor's nearest container; else the anchor's own text, or
   * "父级元素中未找到标题"; an empty result becomes "标题为空", so the title
   * is never empty.
   */
  function ReferenceTitle(doc: Node, link: string): (r: Option<string>)
    ensures r.None? <==> TitleSourceOf(doc, link).Unanchored?
    ensures r.Some? ==> r.value != ""
    ensures TitleSourceOf(doc, link).InParent? ==>
      r == Some(NonEmptyTitle(StripLabel(GetText(At(doc, TitleSourceOf(doc, link).parent)))))
    ensures TitleSourceOf(doc, link).Anchored? && GetText(At(doc, TitleSourceOf(doc, link).anchor)) != "" ==>
      r == Some(GetText(At(doc, TitleSourceOf(doc, link).anchor)))
    ensures TitleSourceOf(doc, link).Anchored? && GetText(At(doc, TitleSourceOf(doc, link).anchor)) == "" ==>
      r == Some("父级元素中未找到标题")
  {
    match TitleSourceOf(doc, link)
    case Unanchored => None
    case Anchored(a) => Some(NonEmptyTitle(if GetText(At(doc, a)) != "" then GetText(At(doc, a)) else "父级元素中未找到标题"))
    case InParent(_, pp) => Some(NonEmptyTitle(StripLabel(GetText(At(doc, pp)))))
  }

  /** The call for one link: none for a link without an anchor. */
  function LinkUploads(cfg: Config, doc: Node, link: string): (us: seq<Upload>)
    ensures |us| <= 1
  {
    match ReferenceTitle(doc, link)
    case None => []
    case Some(t) => [Upload(cfg.referencesKb, Some(t), ReferenceRecord(t, link))]
  }

  /** A link gives no upload exactly when no anchor in the page has it as its exact `href`. */
  lemma LinkUploadsSkip(cfg: Config, doc: Node, link: string)
    ensures LinkUploads(cfg, doc, link) == [] <==> forall a :: !MatchAt(doc, a, AnchorQuery(link))
  {
    if LinkUploads(cfg, doc, link) == [] {
      assert Find(doc, AnchorQuery(link)).None?;
    } else {
      var a := Find(doc, AnchorQuery(link)).value;
      assert MatchAt(doc, a, AnchorQuery(link));
    }
  }

  /** The call for a link, as a function of the link. */
  function LinkUploader(cfg: Config, doc: Node): string -> seq<Upload> {
    link => LinkUploads(cfg, doc, link)
  }

  /** The `create_coze_doc` calls of `sync_references_to_coze`, one link after another. */
  function ReferenceUploads(cfg: Config, page: Page): seq<Upload> {
    UploadsUpTo(LinkUploader(cfg, page.doc), RefLinks.Links(page.markup), |RefLinks.Links(page.markup)|)
  }

  /** Every reference call goes to the references base. */
  lemma ReferenceUploadsBase(cfg: Config, page: Page)
    ensures forall k :: 0 <= k < |ReferenceUploads(cfg, page)| ==> ReferenceUploads(cfg, page)[k].kbId == cfg.referencesKb
  {
    var each := LinkUploader(cfg, page.doc);
    forall link, j | 0 <= j < |each(link)| ensures each(link)[j].kbId == cfg.referencesKb {
      assert each(link) == LinkUploads(cfg, page.doc, link);
    }
    UploadsUpToAll(each, RefLinks.Links(page.markup), |RefLinks.Links(page.markup)|, (u: Upload) => u.kbId == cfg.referencesKb);
  }

  /** Every reference call is named by a non-empty title. */
  lemma ReferenceUploadsNamed(cfg: Config, page: Page)
    ensures forall k :: 0 <= k < |ReferenceUploads(cfg, page)| ==>
      ReferenceUploads(cfg, page)[k].name.Some? && ReferenceUploads(cfg, page)[k].name.value != ""
  {
    var each := LinkUploader(cfg, page.doc);
    forall link, j | 0 <= j < |each(link)| ensures each(link)[j].name.Some? && each(link)[j].name.value != "" {
      assert each(link) == LinkUploads(cfg, page.doc, link);
    }
    UploadsUpToAll(each, RefLinks.Links(page.markup), |RefLinks.Links(page.markup)|, (u: Upload) => u.name.Some? && u.name.value != "");
  }

  /** `u` is the call for a link with an anchor: to the references base, named by the link's title, holding the title and the link. */
  predicate IsLinkUpload(cfg: Config, doc: Node, link: string, u: Upload) {
    ReferenceTitle(doc, link).Some?
    && u == Upload(cfg.referencesKb, ReferenceTitle(doc, link), ReferenceRecord(ReferenceTitle(doc, link).value, link))
  }

  lemma AnchoredLinkUpload(cfg: Config, doc: Node, link: string)
    requires Find(doc, AnchorQuery(link)).Some?
    ensures |LinkUploads(cfg, doc, link)| == 1 && IsLinkUpload(cfg, doc, link, LinkUploads(cfg, doc, link)[0])
  {
  }

  /** When every link has an anchor, the calls are one per link, in order, each the call for its link. */
  lemma AnchoredLinksUploads(cfg: Config, doc: Node, links: seq<string>)
    requires forall k :: 0 <= k < |links| ==> Find(doc, AnchorQuery(links[k])).Some?
    ensures var us := UploadsUpTo(LinkUploader(cfg, doc), links, |links|);
      |us| == |links| && forall k :: 0 <= k < |links| ==> IsLinkUpload(cfg, doc, links[k], us[k])
  {
    forall k | 0 <= k < |links|
      ensures |LinkUploads(cfg, doc, links[k])| == 1 && IsLinkUpload(cfg, doc, links[k], LinkUploads(cfg, doc, links[k])[0])
    {
      AnchoredLinkUpload(cfg, doc, links[k]);
    }
    UploadsUpToOneEach(LinkUploader(cfg, doc), links, |links|);
  }

  /**
   * The body of the loop of `sync_references_to_coze` for a link whose
   * anchor was found: `ref_title` is set by the chain, then the empty-title
   * fallback applies.
   */
  method ResolveTitle(doc: Node, link: string, a: Path) returns (title: string)
    requires Find(doc, AnchorQuery(link)) == Some(a)
    ensures ReferenceTitle(doc, link) == Some(title)
  {
    title := "未知标题";
    var parent := FindParent(doc, a, ParentTags);
    if parent.Some? {
      title := StripLabel(GetText(At(doc, parent.value)));
    } else {
      var text := GetText(At(doc, a));
      title := if text != "" then text else "父级元素中未找到标题";
    }
    if title == "" {
      title := "标题为空";
    }
  }

  /** One pass of the loop of `sync_references_to_coze`: the call for one link, if its anchor is found. */
  method SyncLink(store: DocumentStore, cfg: Config, doc: Node, link: string)
    modifies store
    ensures store.sent == old(store.sent) + Requests(cfg.apiKey, LinkUploads(cfg, doc, link), RequestFor)
  {
    var anchor := Find(doc, AnchorQuery(link));
    if anchor.None? {
      assert store.sent == old(store.sent) + [];
      return;
    }
    var title := ResolveTitle(doc, link, anchor.value);
    var content := ReferenceRecord(title, link);
    var reply := CreateCozeDoc(store, cfg.apiKey, cfg.referencesKb, title, content);
    RequestsSingle(cfg.apiKey, Upload(cfg.referencesKb, Some(title), content), RequestFor);
  }

  /** Pass `i` of the loop of `sync_references_to_coze`, after the calls of the passes before it. */
  method SyncNextLink(store: DocumentStore, cfg: Config, doc: Node, links: seq<string>, i: nat, ghost start: seq<Request>)
    requires i < |links|
    requires store.sent == start + Requests(cfg.apiKey, UploadsUpTo(LinkUploader(cfg, doc), links, i), RequestFor)
    modifies store
    ensures store.sent == start + Requests(cfg.apiKey, UploadsUpTo(LinkUploader(cfg, doc), links, i + 1), RequestFor)
  {
    ghost var before := store.sent;
    SyncLink(store, cfg, doc, links[i]);
    SentAppend(start, before, store.sent, cfg.apiKey,
               UploadsUpTo(LinkUploader(cfg, doc), links, i), LinkUploads(cfg, doc, links[i]), RequestFor);
  }

  /** The loop of `sync_references_to_coze` over the candidate links `links`. */
  method SyncLinks(store: DocumentStore, cfg: Config, doc: Node, links: seq<string>)
    modifies store
    ensures store.sent == old(store.sent) + Requests(cfg.apiKey, UploadsUpTo(LinkUploader(cfg, doc), links, |links|), RequestFor)
  {
    for i := 0 to |links|
      invariant store.sent == old(store.sent) + Requests(cfg.apiKey, UploadsUpTo(LinkUploader(cfg, doc), links, i), RequestFor)
    {
      SyncNextLink(store, cfg, doc, links, i, old(store.sent));
    }
  }

  /**
   * `sync_references_to_coze(soup)`: every candidate link is handled in
   * order, whatever the replies were; a failure on one link does not stop
   * the others.
   */
  method SyncReferencesToCoze(store: DocumentStore, cfg: Config, page: Page)
    modifies store
    ensures store.sent == old(store.sent) + Requests(cfg.apiKey, ReferenceUploads(cfg, page), RequestFor)
  {
    SyncLinks(store, cfg, page.doc, RefLinks.Links(page.markup));
  }

  /** `soup.title`: the first `title` element. */
  const TitleQuery: Query := Query("title", None)

  /**
   * `soup.title.string.strip() if soup.title else "无标题"`: `None` stands
   * for the `AttributeError` raised when the title element has no single
   * string inside it; otherwise the title is the element's stripped text.
   */
  function PageTitle(doc: Node): (r: Option<string>)
    ensures Find(doc, TitleQuery).None? ==> r == Some("无标题")
    ensures Find(doc, TitleQuery).Some? ==>
      (r.None? <==> StringOf(At(doc, Find(doc, TitleQuery).value)).None?)
      && (r.Some? ==> r.value == GetText(At(doc, Find(doc, TitleQuery).value)))
  {
    match Find(doc, TitleQuery)
    case None => Some("无标题")
    case Some(p) =>
      match StringOf(At(doc, p))
      case None => None
      case Some(s) => Some(Strip(s))
  }

  /** The GET of an article ends the loop: `requests.get` or `raise_for_status` raises, or the title cannot be read. */
  predicate PageRaises(o: FetchOutcome) {
    FetchRaises(o) || PageTitle(o.page.doc).None?
  }

  /**
   * What the loop of `webhook` does with one `item`: an item without an
   * `ArticleUrl` element raises at `.text` and ends the loop; one whose
   * `ArticleUrl` has no text is skipped; any other is fetched.
   */
  function StepOf(item: Xml.Element): (s: Step)
    ensures s == Abort <==> Xml.FindChild(item, "ArticleUrl").None?
    ensures s.Fetch? <==> var u := Xml.FindChild(item, "ArticleUrl"); u.Some? && u.value.text.Some? && u.value.text.value != ""
    ensures s.Fetch? ==> s.url == Xml.FindChild(item, "ArticleUrl").value.text.value && s.title.None?
  {
    var u := Xml.FindChild(item, "ArticleUrl");
    if u.None? then Abort
    else if u.value.text.Some? && u.value.text.value != "" then Fetch(None, u.value.text.value)
    else Skip
  }

  function Steps(items: seq<Xml.Element>): (r: seq<Step>)
    ensures |r| == |items| && forall k :: 0 <= k < |items| ==> r[k] == StepOf(items[k])
  {
    seq(|items|, k requires 0 <= k < |items| => StepOf(items[k]))
  }

  /** The calls for one visit: the page's article, then its references, unless the loop ended at it. */
  function PageUploads(cfg: Config, v: Visit): seq<Upload> {
    if PageRaises(v.outcome) then []
    else ArticleUploads(cfg, PageTitle(v.outcome.page.doc).value, v.url, v.outcome.page.doc)
         + ReferenceUploads(cfg, v.outcome.page)
  }

  function Uploader(cfg: Config): Visit -> seq<Upload> {
    v => PageUploads(cfg, v)
  }

  /**
   * `up` gives, for every visit, the calls `PageUploads` says it makes; the
   * loop passes this fact along without unfolding it.
   */
  ghost predicate IsUploader(cfg: Config, up: Visit -> seq<Upload>) {
    forall v {:trigger PageUploads(cfg, v)} :: up(v) == PageUploads(cfg, v)
  }

  lemma UploaderIs(cfg: Config)
    ensures IsUploader(cfg, Uploader(cfg))
  {
  }

  /** `raises` tells the outcomes that end the loop as `PageRaises` does, without unfolding it. */
  ghost predicate IsPageRaises(raises: FetchOutcome -> bool) {
    forall o {:trigger PageRaises(o)} :: raises(o) == PageRaises(o)
  }

  /** How the POST branch reads a push: it fails before the loop, it is not a finished publication, or it lists items. */
  datatype Push = Unreadable | Ignored | Publish(items: seq<Xml.Element>)

  /**
   * `root.find('MsgType').text == 'event' and root.find('Event').text ==
   * 'PUBLISHJOBFINISH'`, evaluated outside the handler: an empty or
   * malformed body, a missing `MsgType`, or a missing `Event` after an
   * "event" `MsgType` raise and the request fails.
   */
  function ClassifyPush(d: Xml.Delivery): (p: Push)
    ensures p.Unreadable? <==>
      !d.Message? || Xml.FindChild(d.root, "MsgType").None?
      || (Xml.FindChild(d.root, "MsgType").value.text == Some("event") && Xml.FindChild(d.root, "Event").None?)
    ensures p.Publish? <==>
      d.Message? && Xml.FindChild(d.root, "MsgType").Some? && Xml.FindChild(d.root, "MsgType").value.text == Some("event")
      && Xml.FindChild(d.root, "Event").Some? && Xml.FindChild(d.root, "Event").value.text == Some("PUBLISHJOBFINISH")
    ensures p.Publish? ==> p.items == Xml.ItemsUnder(d.root.children, "ArticleDetail")
  {
    match d
    case EmptyBody => Unreadable
    case Malformed => Unreadable
    case Message(root) =>
      var msgType := Xml.FindChild(root, "MsgType");
      if msgType.None? then Unreadable
      else if msgType.value.text != Some("event") then Ignored
      else
        var event := Xml.FindChild(root, "Event");
        if event.None? then Unreadable
        else if event.value.text != Some("PUBLISHJOBFINISH") then Ignored
        else Publish(Xml.ItemsUnder(root.children, "ArticleDetail"))
  }

  /** The effects of the POST branch for a push, after `n` GETs. */
  function PushRun(site: Site, n: nat, d: Xml.Delivery): Run {
    match ClassifyPush(d)
    case Publish(items) => LoopRun(site, n, Steps(items), PageRaises)
    case _ => Run([], false)
  }

  /** A push that is not a finished publication fetches nothing and uploads nothing. */
  lemma IgnoredPush(site: Site, n: nat, d: Xml.Delivery)
    requires !ClassifyPush(d).Publish?
    ensures PushRun(site, n, d) == Run([], false)
  {
  }

  /**
   * The articles of a push are fetched in order, skipping items whose
   * `ArticleUrl` has no text: all of them unless the loop ends early, which
   * happens only at an item with no `ArticleUrl` element or right after a
   * GET that raised; no earlier GET had raised. Unless the last GET raised,
   * every article listed before the first item without `ArticleUrl` was
   * fetched.
   */
  lemma PushVisits(site: Site, n: nat, d: Xml.Delivery)
    requires ClassifyPush(d).Publish?
    ensures var r, steps := PushRun(site, n, d), Steps(ClassifyPush(d).items);
      (!r.aborted ==> TargetsOf(r.visits) == Targets(steps))
      && (r.aborted ==> TargetsOf(r.visits) <= Targets(steps)
                        && (Abort in steps || (r.visits != [] && PageRaises(r.visits[|r.visits| - 1].outcome))))
      && ((r.visits == [] || !PageRaises(r.visits[|r.visits| - 1].outcome)) ==> TargetsOf(r.visits) == Targets(steps))
      && (forall k :: 0 <= k < |r.visits| - 1 ==> !PageRaises(r.visits[k].outcome))
  {
    var steps := Steps(ClassifyPush(d).items);
    RunVisitsTargets(site, n, steps, PageRaises, |steps|);
    RunTargetsUnlessRaised(site, n, steps, PageRaises, |steps|);
    RunRaises(site, n, steps, PageRaises, |steps|);
    assert steps[..|steps|] == steps;
  }

  /** The k-th article the loop visits is judged by the answer to the k-th GET of the loop. */
  lemma PushResponses(site: Site, n: nat, d: Xml.Delivery)
    ensures var r := PushRun(site, n, d);
      forall k :: 0 <= k < |r.visits| ==> r.visits[k].outcome == site.ResponseTo(n + k)
  {
    if ClassifyPush(d).Publish? {
      var steps := Steps(ClassifyPush(d).items);
      RunResponses(site, n, steps, PageRaises, |steps|);
      var r := PushRun(site, n, d);
      assert r == RunOf(site, n, steps, PageRaises, |steps|);
      assert forall k :: 0 <= k < |r.visits| ==> r.visits[k].outcome == site.ResponseTo(n + k) by {
        assert var r' := RunOf(site, n, steps, PageRaises, |steps|);
          forall k :: 0 <= k < |r'.visits| ==> r'.visits[k].outcome == site.ResponseTo(n + k);
      }
    }
  }

  /**
   * One pass of the loop of `webhook`: an item without `ArticleUrl` raises;
   * one with text costs one GET; if the GET and the title succeed, the
   * article and then its references are synced.
   */
  method ProcessItem(site: Site, store: DocumentStore, cfg: Config, item: Xml.Element,
                      ghost step: Step, ghost n: nat,
                      ghost up: Visit -> seq<Upload>, ghost raises: FetchOutcome -> bool) returns (raised: bool)
    requires step == StepOf(item) && n == |site.fetched| && IsUploader(cfg, up) && IsPageRaises(raises)
    modifies site, store
    ensures var e := StepRun(site, n, step, raises);
      site.fetched == old(site.fetched) + Urls(e.visits)
      && store.sent == old(store.sent) + Requests(cfg.apiKey, VisitUploads(up, e.visits), RequestFor)
      && raised == e.aborted
  {
    var urlNode := Xml.FindChild(item, "ArticleUrl");
    if urlNode.None? || urlNode.value.text.None? || urlNode.value.text.value == "" {
      assert site.fetched == old(site.fetched) + [];
      assert VisitUploads(up, []) == [];
      assert store.sent == old(store.sent) + [];
      return urlNode.None?;
    }
    var url := urlNode.value.text.value;
    var o := site.Get(url);
    VisitUploadsOne(up, Visit(None, url, o));
    assert up(Visit(None, url, o)) == PageUploads(cfg, Visit(None, url, o));
    raised := ProcessPage(store, cfg, url, o);
  }

  /**
   * The rest of a pass after the GET of `url`: the loop ends if the GET
   * raised or the title cannot be read; otherwise the article and then its
   * references are synced.
   */
  method ProcessPage(store: DocumentStore, cfg: Config, url: string, o: FetchOutcome) returns (raised: bool)
    modifies store
    ensures raised == PageRaises(o)
    ensures store.sent == old(store.sent) + Requests(cfg.apiKey, PageUploads(cfg, Visit(None, url, o)), RequestFor)
  {
    if FetchRaises(o) {
      assert store.sent == old(store.sent) + [];
      return true;
    }
    var titleNode := Find(o.page.doc, TitleQuery);
    var title := "无标题";
    if titleNode.Some? {
      var s := StringOf(At(o.page.doc, titleNode.value));
      if s.None? {
        assert store.sent == old(store.sent) + [];
        return true;
      }
      title := Strip(s.value);
    }
    assert PageTitle(o.page.doc) == Some(title);
    ghost var sent0 := store.sent;
    SyncArticleToCoze(store, cfg, title, url, o.page.doc);
    ghost var sent1 := store.sent;
    SyncReferencesToCoze(store, cfg, o.page);
    SentAppend(sent0, sent1, store.sent, cfg.apiKey,
               ArticleUploads(cfg, title, url, o.page.doc), ReferenceUploads(cfg, o.page), RequestFor);
    raised := false;
  }

  /**
   * Pass `i` of the loop of `webhook`: the GETs and the POSTs made since
   * `fetched0` and `sent0` grow from those of the passes before it to those
   * of the passes up to this one.
   */
  method ProcessNext(site: Site, store: DocumentStore, cfg: Config, ghost steps: seq<Step>, items: seq<Xml.Element>, i: nat,
                     ghost n0: nat, ghost fetched0: seq<string>, ghost sent0: seq<Request>, ghost done: seq<Visit>,
                     ghost up: Visit -> seq<Upload>, ghost raises: FetchOutcome -> bool)
    returns (raised: bool, ghost now: seq<Visit>)
    requires IsUploader(cfg, up) && IsPageRaises(raises)
    requires |items| == |steps| && i < |items| && steps[i] == StepOf(items[i])
    requires site.fetched == fetched0 + Urls(done) && |site.fetched| == n0 + |done|
    requires store.sent == sent0 + Requests(cfg.apiKey, VisitUploads(up, done), RequestFor)
    requires RunOf(site, n0, steps, raises, i) == Run(done, false)
    modifies site, store
    ensures site.fetched == fetched0 + Urls(done + now)
    ensures store.sent == sent0 + Requests(cfg.apiKey, VisitUploads(up, done + now), RequestFor)
    ensures RunOf(site, n0, steps, raises, i + 1) == Run(done + now, raised)
  {
    ghost var fetched, sent := site.fetched, store.sent;
    raised := ProcessItem(site, store, cfg, items[i], steps[i], n0 + |done|, up, raises);
    now := StepRun(site, n0 + |done|, steps[i], raises).visits;
    LoopStep(site, n0, steps, raises, i, cfg.apiKey, RequestFor, up,
             fetched0, fetched, site.fetched, sent0, sent, store.sent, done, raised);
  }

  /** The loop of `webhook` over the items of a push, inside its one exception handler. */
  method ProcessItems(site: Site, store: DocumentStore, cfg: Config, items: seq<Xml.Element>) returns (aborted: bool)
    modifies site, store
    ensures var r := LoopRun(site, old(|site.fetched|), Steps(items), PageRaises);
      site.fetched == old(site.fetched) + Urls(r.visits)
      && store.sent == old(store.sent) + Requests(cfg.apiKey, VisitUploads(Uploader(cfg), r.visits), RequestFor)
      && aborted == r.aborted
  {
    ghost var n0 := |site.fetched|;
    ghost var steps := Steps(items);
    ghost var done: seq<Visit> := [];
    ghost var up := Uploader(cfg);
    ghost var raises := PageRaises;
    UploaderIs(cfg);
    for i := 0 to |items|
      invariant site.fetched == old(site.fetched) + Urls(done) && |site.fetched| == n0 + |done|
      invariant store.sent == old(store.sent) + Requests(cfg.apiKey, VisitUploads(up, done), RequestFor)
      invariant RunOf(site, n0, steps, raises, i) == Run(done, false)
    {
      var raised;
      ghost var now;
      raised, now := ProcessNext(site, store, cfg, steps, items, i, n0, old(site.fetched), old(store.sent), done, up, raises);
      done := done + now;
      if raised {
        AbortStays(site, n0, steps, raises, i + 1, |items|);
        return true;
      }
    }
    return false;
  }

  /** What the webhook answers: a body and a status, or Flask's internal server error for an exception that escapes. */
  datatype Reply = Reply(body: string, status: int) | InternalError

  /** The query parameters of the GET; a missing one reads as "". */
  datatype Args = Args(signature: string, timestamp: string, nonce: string, echostr: string)

  /** The request methods that reach the view function (Flask adds HEAD to GET routes and answers OPTIONS itself). */
  datatype HttpMethod = Get | Post | Head

  /** `"".join(parts)`. */
  function Concat(parts: seq<string>): (r: string)
    ensures |parts| == 0 ==> r == ""
  {
    if parts == [] then "" else parts[0] + Concat(parts[1..])
  }

  /** `hashlib.sha1("".join(sorted(parts)).encode('utf-8')).hexdigest()`, with SHA-1 as `sha1Hex`. */
  function Signature(sha1Hex: seq<Utf8.Byte> -> string, parts: seq<string>): string {
    sha1Hex(Utf8.Encode(Concat(Sort(parts))))
  }

  /** The expected signature does not depend on the order the three values are listed in. */
  lemma SignatureOrderFree(sha1Hex: seq<Utf8.Byte> -> string, xs: seq<string>, ys: seq<string>)
    requires multiset(xs) == multiset(ys)
    ensures Signature(sha1Hex, xs) == Signature(sha1Hex, ys)
  {
    SortPermutationInvariant(xs, ys);
  }

  /**
   * The GET branch of `webhook`: 400 when the token or any parameter is
   * empty; otherwise `echostr` with 200 exactly when the signature is the
   * SHA-1 of the sorted, concatenated token, timestamp and nonce, and 403
   * when it is not.
   */
  function VerifyServer(token: string, args: Args, sha1Hex: seq<Utf8.Byte> -> string): (r: Reply)
    ensures r.Reply?
    ensures r.status == 400 <==>
      token == "" || args.signature == "" || args.timestamp == "" || args.nonce == "" || args.echostr == ""
    ensures r.status == 200 <==>
      token != "" && args.signature != "" && args.timestamp != "" && args.nonce != "" && args.echostr != ""
      && Signature(sha1Hex, [token, args.timestamp, args.nonce]) == args.signature
    ensures r.status == 200 ==> r.body == args.echostr
    ensures r.status == 400 || r.status == 200 || r.status == 403
  {
    if token == "" || args.signature == "" || args.timestamp == "" || args.nonce == "" || args.echostr == "" then
      Reply("缺少参数或服务器配置错误", 400)
    else if Signature(sha1Hex, [token, args.timestamp, args.nonce]) == args.signature then
      Reply(args.echostr, 200)
    else
      Reply("验证失败", 403)
  }

  /** The answer of the POST branch: "success" unless the push could not be read before the loop. */
  function PostReply(d: Xml.Delivery): (r: Reply)
    ensures r.InternalError? <==> ClassifyPush(d).Unreadable?
    ensures r.Reply? ==> r == Reply("success", 200)
  {
    if ClassifyPush(d).Unreadable? then InternalError else Reply("success", 200)
  }

  /** The POST branch of `webhook`. */
  method HandlePost(site: Site, store: DocumentStore, cfg: Config, d: Xml.Delivery) returns (reply: Reply)
    modifies site, store
    ensures reply == PostReply(d)
    ensures var r := PushRun(site, old(|site.fetched|), d);
      site.fetched == old(site.fetched) + Urls(r.visits)
      && store.sent == old(store.sent) + Requests(cfg.apiKey, VisitUploads(Uploader(cfg), r.visits), RequestFor)
  {
    var push := ClassifyPush(d);
    if push.Publish? {
      var aborted := ProcessItems(site, store, cfg, push.items);
      return Reply("success", 200);
    }
    assert site.fetched == old(site.fetched) + Urls([]);
    assert store.sent == old(store.sent) + Requests(cfg.apiKey, VisitUploads(Uploader(cfg), []), RequestFor);
    return if push.Unreadable? then InternalError else Reply("success", 200);
  }

  /**
   * `webhook()`: a GET is the server-URL check and changes nothing; a POST
   * makes the GETs and POSTs of its push's run and answers "success" even
   * when the loop ended early; any other method that reaches it gets 405.
   */
  method Webhook(site: Site, store: DocumentStore, cfg: Config, m: HttpMethod, args: Args, d: Xml.Delivery,
                 sha1Hex: seq<Utf8.Byte> -> string) returns (reply: Reply)
    modifies site, store
    ensures m.Get? ==> reply == VerifyServer(cfg.wechatToken, args, sha1Hex)
    ensures m.Head? ==> reply == Reply("无效的请求方法", 405)
    ensures m.Post? ==> reply == PostReply(d)
    ensures var r := if m.Post? then PushRun(site, old(|site.fetched|), d) else Run([], false);
      site.fetched == old(site.fetched) + Urls(r.visits)
      && store.sent == old(store.sent) + Requests(cfg.apiKey, VisitUploads(Uploader(cfg), r.visits), RequestFor)
  {
    if m.Post? {
      reply := HandlePost(site, store, cfg, d);
      return;
    }
    assert site.fetched == old(site.fetched) + Urls([]);
    assert store.sent == old(store.sent) + Requests(cfg.apiKey, VisitUploads(Uploader(cfg), []), RequestFor);
    if m.Get? {
      reply := VerifyServer(cfg.wechatToken, args, sha1Hex);
    } else {
      reply := Reply("无效的请求方法", 405);
    }
  }
}
