/**
 * wechat_api/main.py: the WeChat cloud-hosting webhook. Its `create_coze_doc`
 * posts to the document API and checks the reply code; the article and
 * reference sync steps upload to the "hot" knowledge bases; `handle_event`
 * walks the articles of a `PUBLISHJOBFINISH` push and always answers OK.
 */
module WechatMain {
  import opened Wrappers
  import opened Text
  import opened Html
  import opened Json
  import opened Web
  import opened Coze
  import opened Extraction
  import opened Batch
  import Xml
  import RefLinks
  import CozeUploader

  /**
   * `COZE_API_KEY`, `KB_ID_ARTICLES_HOT` and `KB_ID_REFERENCES_HOT`: the same
   * three variables coze_uploader.py reads; an unset one reads as "".
   */
  type Config = CozeUploader.Config

  /** The document endpoint of main.py. */
  const DocsUrl: string := "https://api.coze.cn/open/v1/docs/create"

  /** The POST of `create_coze_doc`: the text travels as it is, as a "text" document. */
  function RequestFor(apiKey: string, u: Upload): Request {
    Request(DocsUrl,
      [("Authorization", "Bearer " + apiKey), ("Content-Type", "application/json"), ("Accept", "*/*")],
      DocCreate(u.kbId, u.name, "text", u.content))
  }

  /** How a call of main.py's `create_coze_doc` ends: it returns a value, or an exception escapes it. */
  datatype CallResult = Returned(value: Option<JsonValue>) | Raised

  /**
   * What `create_coze_doc` makes of a POST outcome. Transport and HTTP errors
   * and bodies that are not JSON are caught and give `None`; a JSON value
   * that is not an object has no `.get`, and the exception escapes; an
   * object comes back exactly when its code equals zero.
   */
  function DocReply(o: PostOutcome): (r: CallResult)
    ensures r.Raised? <==> o.Replied? && !IsHttpError(o.status) && o.body.Parsed? && !o.body.value.JObject?
    ensures r.Returned? && r.value.Some? <==>
      o.Replied? && !IsHttpError(o.status) && o.body.Parsed? && o.body.value.JObject? && CodeIsZero(o.body.value.fields)
    ensures r.Returned? && r.value.Some? ==> r.value.value == o.body.value
  {
    match o
    case ConnectionFailed => Returned(None)
    case Replied(status, body) =>
      if IsHttpError(status) then Returned(None)
      else match body
        case NotJson => Returned(None)
        case Parsed(v) =>
          if !v.JObject? then Raised
          else if CodeIsZero(v.fields) then Returned(Some(v))
          else Returned(None)
  }

  /**
   * `create_coze_doc(kb_id, doc_name, content)`: nothing is sent and `None`
   * comes back unless the key and the knowledge base are configured;
   * otherwise one request is posted and its reply is classified.
   */
  method CreateCozeDoc(store: DocumentStore, apiKey: string, kbId: string, docName: Option<string>, content: string)
    returns (r: CallResult)
    modifies store
    ensures !Configured(apiKey, kbId) ==> store.sent == old(store.sent) && r == Returned(None)
    ensures Configured(apiKey, kbId) ==>
      store.sent == old(store.sent) + [RequestFor(apiKey, Upload(kbId, docName, content))]
      && r == DocReply(store.ReplyTo(old(|store.sent|)))
  {
    if !Configured(apiKey, kbId) {
      return Returned(None);
    }
    var o := store.Post(RequestFor(apiKey, Upload(kbId, docName, content)));
    r := DocReply(o);
  }

  /** The `create_coze_doc` calls of `sync_article_to_hot_kb`: none without `div#js_content`. */
  function ArticleUploads(cfg: Config, title: Option<string>, url: string, doc: Node): seq<Upload> {
    match BodySnippet(doc)
    case None => []
    case Some(snippet) => [Upload(cfg.articlesKb, title, ArticleContent(url, title, snippet))]
  }

  /**
   * An article is uploaded at most once, to the articles base, under its own
   * title, and exactly when the page has `div#js_content` (even an empty
   * one); the uploaded text gives back the URL, the title and the first 150
   * characters of the container's text, line by line.
   */
  lemma ArticleUploadsShape(cfg: Config, title: Option<string>, url: string, doc: Node)
    requires '\n' !in url && '\n' !in Show(title)
    requires BodySnippet(doc).Some? ==> '\n' !in BodySnippet(doc).value
    ensures var us := ArticleUploads(cfg, title, url, doc);
      |us| <= 1 && (us == [] <==> Find(doc, JsContent).None?)
      && (us != [] ==>
            us[0].kbId == cfg.articlesKb && us[0].name == title
            && Lines(us[0].content)
               == ["---", "文章URL: " + url, "文章标题: " + Show(title), "文章摘要: " + BodySnippet(doc).value, "---"])
  {
    if BodySnippet(doc).Some? {
      ArticleContentLines(url, title, BodySnippet(doc).value);
    }
  }

  /** `sync_article_to_hot_kb(article_title, article_url, soup)`; an exception from the call is caught there. */
  method SyncArticleToHotKb(store: DocumentStore, cfg: Config, title: Option<string>, url: string, doc: Node)
    modifies store
    ensures store.sent == old(store.sent) + Requests(cfg.apiKey, ArticleUploads(cfg, title, url, doc), RequestFor)
  {
    var container := Find(doc, JsContent);
    if container.None? {
      return;
    }
    var snippet := Prefix(GetText(At(doc, container.value)), 150);
    var content := ArticleContent(url, title, snippet);
    var reply := CreateCozeDoc(store, cfg.apiKey, cfg.articlesKb, title, content);
    RequestsSingle(cfg.apiKey, Upload(cfg.articlesKb, title, content), RequestFor);
  }

  /**
   * The title main.py gives a reference link: none when no anchor has the
   * link as its exact `href` (the link is skipped); else the label-cleaned
   * text of the anchor's nearest container; else the anchor's own text;
   * else "标题提取失败". Only the container's text can make it empty.
   */
  function ReferenceTitle(doc: Node, link: string): (r: Option<string>)
    ensures r.None? <==> TitleSourceOf(doc, link).Unanchored?
    ensures TitleSourceOf(doc, link).InParent? ==>
      r == Some(StripLabel(GetText(At(doc, TitleSourceOf(doc, link).parent))))
    ensures TitleSourceOf(doc, link).Anchored? ==> r.Some? && r.value != ""
    ensures TitleSourceOf(doc, link).Anchored? && GetText(At(doc, TitleSourceOf(doc, link).anchor)) != "" ==>
      r == Some(GetText(At(doc, TitleSourceOf(doc, link).anchor)))
    ensures TitleSourceOf(doc, link).Anchored? && GetText(At(doc, TitleSourceOf(doc, link).anchor)) == "" ==>
      r == Some("标题提取失败")
  {
    match TitleSourceOf(doc, link)
    case Unanchored => None
    case Anchored(a) => Some(if GetText(At(doc, a)) != "" then GetText(At(doc, a)) else "标题提取失败")
    case InParent(_, pp) => Some(StripLabel(GetText(At(doc, pp))))
  }

  /** The `create_coze_doc` call for one link: none for a link without an anchor. */
  function LinkUploads(cfg: Config, doc: Node, link: string): (us: seq<Upload>)
    ensures |us| <= 1
  {
    match ReferenceTitle(doc, link)
    case None => []
    case Some(t) => [Upload(cfg.referencesKb, Some(t), ReferenceContent(t, link))]
  }

  /** A link gives no upload exactly when no anchor in the page has it as its exact `href`. */
  lemma LinkUploadsSkip(cfg: Config, doc: Node, link: string)
    ensures LinkUploads(cfg, doc, link) == [] <==> forall a :: !MatchAt(doc, a, AnchorQuery(link))
  {
    if LinkUploads(cfg, doc, link) == [] {
      assert Find(doc, AnchorQuery(link)).None?;
    } else {
      var a := Find(doc, AnchorQuery(link)).value;
      assert MatchAt(doc, a, AnchorQuery(link));
    }
  }

  /** The call for a link, as a function of the link. */
  function LinkUploader(cfg: Config, doc: Node): string -> seq<Upload> {
    link => LinkUploads(cfg, doc, link)
  }

  /** The `create_coze_doc` calls of `sync_references_to_hot_kb`, one link after another. */
  function ReferenceUploads(cfg: Config, page: Page): seq<Upload> {
    UploadsUpTo(LinkUploader(cfg, page.doc), RefLinks.Links(page.markup), |RefLinks.Links(page.markup)|)
  }

  /** Every reference call goes to the references base. */
  lemma ReferenceUploadsBase(cfg: Config, page: Page)
    ensures forall k :: 0 <= k < |ReferenceUploads(cfg, page)| ==> ReferenceUploads(cfg, page)[k].kbId == cfg.referencesKb
  {
    var each := LinkUploader(cfg, page.doc);
    forall link, j | 0 <= j < |each(link)| ensures each(link)[j].kbId == cfg.referencesKb {
      assert each(link) == LinkUploads(cfg, page.doc, link);
    }
    UploadsUpToAll(each, RefLinks.Links(page.markup), |RefLinks.Links(page.markup)|, (u: Upload) => u.kbId == cfg.referencesKb);
  }

  /** `u` is the call for a link with an anchor: to the references base, named by the link's title, holding the title and the link. */
  predicate IsLinkUpload(cfg: Config, doc: Node, link: string, u: Upload) {
    ReferenceTitle(doc, link).Some?
    && u == Upload(cfg.referencesKb, ReferenceTitle(doc, link), ReferenceContent(ReferenceTitle(doc, link).value, link))
  }

  lemma AnchoredLinkUpload(cfg: Config, doc: Node, link: string)
    requires Find(doc, AnchorQuery(link)).Some?
    ensures |LinkUploads(cfg, doc, link)| == 1 && IsLinkUpload(cfg, doc, link, LinkUploads(cfg, doc, link)[0])
  {
  }

  /**
   * When every link has an anchor, the calls are one per link, in order,
   * each the call for its link.
   */
  lemma AnchoredLinksUploads(cfg: Config, doc: Node, links: seq<string>)
    requires forall k :: 0 <= k < |links| ==> Find(doc, AnchorQuery(links[k])).Some?
    ensures var us := UploadsUpTo(LinkUploader(cfg, doc), links, |links|);
      |us| == |links| && forall k :: 0 <= k < |links| ==> IsLinkUpload(cfg, doc, links[k], us[k])
  {
    forall k | 0 <= k < |links|
      ensures |LinkUploads(cfg, doc, links[k])| == 1 && IsLinkUpload(cfg, doc, links[k], LinkUploads(cfg, doc, links[k])[0])
    {
      AnchoredLinkUpload(cfg, doc, links[k]);
    }
    UploadsUpToOneEach(LinkUploader(cfg, doc), links, |links|);
  }

  /** A page without candidate links gives no reference uploads. */
  lemma NoLinksNoUploads(cfg: Config, page: Page)
    requires RefLinks.FindAll(page.markup) == []
    ensures ReferenceUploads(cfg, page) == []
  {
    ElemsEmpty(RefLinks.FindAll(page.markup));
    assert RefLinks.Links(page.markup) == [];
  }

  /**
   * The body of the loop of `sync_references_to_hot_kb` for a link whose
   * anchor was found: the title is set by the first branch that applies.
   */
  method ResolveTitle(doc: Node, link: string, a: Path) returns (title: string)
    requires Find(doc, AnchorQuery(link)) == Some(a)
    ensures ReferenceTitle(doc, link) == Some(title)
  {
    var parent := FindParent(doc, a, ParentTags);
    title := "未知标题";
    if parent.Some? {
      title := StripLabel(GetText(At(doc, parent.value)));
    } else if GetText(At(doc, a)) != "" {
      title := GetText(At(doc, a));
    } else {
      title := "标题提取失败";
    }
  }

  /** One pass of the loop of `sync_references_to_hot_kb`: the call for one link, if its anchor is found. */
  method SyncLink(store: DocumentStore, cfg: Config, doc: Node, link: string)
    modifies store
    ensures store.sent == old(store.sent) + Requests(cfg.apiKey, LinkUploads(cfg, doc, link), RequestFor)
  {
    var anchor := Find(doc, AnchorQuery(link));
    if anchor.None? {
      assert store.sent == old(store.sent) + [];
      return;
    }
    var title := ResolveTitle(doc, link, anchor.value);
    var content := ReferenceContent(title, link);
    var reply := CreateCozeDoc(store, cfg.apiKey, cfg.referencesKb, Some(title), content);
    RequestsSingle(cfg.apiKey, Upload(cfg.referencesKb, Some(title), content), RequestFor);
  }

  /** Pass `i` of the loop of `sync_references_to_hot_kb`, after the calls of the passes before it. */
  method SyncNextLink(store: DocumentStore, cfg: Config, doc: Node, links: seq<string>, i: nat, ghost start: seq<Request>)
    requires i < |links|
    requires store.sent == start + Requests(cfg.apiKey, UploadsUpTo(LinkUploader(cfg, doc), links, i), RequestFor)
    modifies store
    ensures store.sent == start + Requests(cfg.apiKey, UploadsUpTo(LinkUploader(cfg, doc), links, i + 1), RequestFor)
  {
    ghost var before := store.sent;
    SyncLink(store, cfg, doc, links[i]);
    SentAppend(start, before, store.sent, cfg.apiKey,
               UploadsUpTo(LinkUploader(cfg, doc), links, i), LinkUploads(cfg, doc, links[i]), RequestFor);
  }

  /**
   * `sync_references_to_hot_kb(soup)`: every candidate link is handled in
   * order, whatever the replies were; an exception from one call is caught
   * inside the loop and the next link is handled.
   */
  method SyncReferencesToHotKb(store: DocumentStore, cfg: Config, page: Page)
    modifies store
    ensures store.sent == old(store.sent) + Requests(cfg.apiKey, ReferenceUploads(cfg, page), RequestFor)
  {
    SyncLinks(store, cfg, page.doc, RefLinks.Links(page.markup));
  }

  /** The loop of `sync_references_to_hot_kb` over the candidate links `links`. */
  method SyncLinks(store: DocumentStore, cfg: Config, doc: Node, links: seq<string>)
    modifies store
    ensures store.sent == old(store.sent) + Requests(cfg.apiKey, UploadsUpTo(LinkUploader(cfg, doc), links, |links|), RequestFor)
  {
    for i := 0 to |links|
      invariant store.sent == old(store.sent) + Requests(cfg.apiKey, UploadsUpTo(LinkUploader(cfg, doc), links, i), RequestFor)
    {
      SyncNextLink(store, cfg, doc, links, i, old(store.sent));
    }
  }

  /**
   * What the loop of `handle_event` does with one `item`: fetch its
   * `ArticleUrl` when that node exists and has text, titled by the text of
   * its `Title` node, or "无标题" when there is none; skip it otherwise. No
   * item aborts the loop before its GET.
   */
  function StepOf(item: Xml.Element): (s: Step)
    ensures s != Abort
    ensures s.Fetch? <==> var u := Xml.FindChild(item, "ArticleUrl"); u.Some? && u.value.text.Some? && u.value.text.value != ""
    ensures s.Fetch? ==> s.url == Xml.FindChild(item, "ArticleUrl").value.text.value
    ensures s.Fetch? && Xml.FindChild(item, "Title").None? ==> s.title == Some("无标题")
    ensures s.Fetch? && Xml.FindChild(item, "Title").Some? ==> s.title == Xml.FindChild(item, "Title").value.text
  {
    var u := Xml.FindChild(item, "ArticleUrl");
    var t := Xml.FindChild(item, "Title");
    if u.Some? && u.value.text.Some? && u.value.text.value != "" then
      Fetch(if t.Some? then t.value.text else Some("无标题"), u.value.text.value)
    else Skip
  }

  function Steps(items: seq<Xml.Element>): (r: seq<Step>)
    ensures |r| == |items| && forall k :: 0 <= k < |items| ==> r[k] == StepOf(items[k])
  {
    seq(|items|, k requires 0 <= k < |items| => StepOf(items[k]))
  }

  /** The calls for one visit: the page's article, then its references, unless the GET raised. */
  function PageUploads(cfg: Config, v: Visit): seq<Upload> {
    if FetchRaises(v.outcome) then []
    else ArticleUploads(cfg, v.title, v.url, v.outcome.page.doc) + ReferenceUploads(cfg, v.outcome.page)
  }

  function Uploader(cfg: Config): Visit -> seq<Upload> {
    v => PageUploads(cfg, v)
  }

  /**
   * `up` gives, for every visit, the calls `PageUploads` says it makes; the
   * loop passes this fact along without unfolding it.
   */
  ghost predicate IsUploader(cfg: Config, up: Visit -> seq<Upload>) {
    forall v {:trigger PageUploads(cfg, v)} :: up(v) == PageUploads(cfg, v)
  }

  lemma UploaderIs(cfg: Config)
    ensures IsUploader(cfg, Uploader(cfg))
  {
  }

  /** A push is a `PUBLISHJOBFINISH` event: `MsgType` says "event" and an `Event` node says "PUBLISHJOBFINISH". */
  predicate IsPublishJobFinish(d: Xml.Delivery) {
    d.Message?
    && Xml.FindChild(d.root, "MsgType").Some? && Xml.FindChild(d.root, "MsgType").value.text == Some("event")
    && Xml.FindChild(d.root, "Event").Some? && Xml.FindChild(d.root, "Event").value.text == Some("PUBLISHJOBFINISH")
  }

  /** The items `handle_event` walks: those under `ArticleResult` in a `PUBLISHJOBFINISH` push, none otherwise. */
  function EventItems(d: Xml.Delivery): (items: seq<Xml.Element>)
    ensures !IsPublishJobFinish(d) ==> items == []
    ensures IsPublishJobFinish(d) ==> items == Xml.ItemsUnder(d.root.children, "ArticleResult")
  {
    match d
    case EmptyBody => []
    case Malformed => []
    case Message(root) =>
      var msgType := Xml.FindChild(root, "MsgType");
      var event := Xml.FindChild(root, "Event");
      if msgType.None? then []
      else if msgType.value.text == Some("event") && event.Some? && event.value.text == Some("PUBLISHJOBFINISH") then
        Xml.ItemsUnder(root.children, "ArticleResult")
      else []
  }

  /** The effects of `handle_event` for a push, after `n` GETs. */
  function EventRun(site: Site, n: nat, d: Xml.Delivery): Run {
    LoopRun(site, n, Steps(EventItems(d)), FetchRaises)
  }

  /** A push that is not a `PUBLISHJOBFINISH` event fetches nothing and uploads nothing. */
  lemma IgnoredPush(site: Site, n: nat, d: Xml.Delivery)
    requires !IsPublishJobFinish(d)
    ensures EventRun(site, n, d) == Run([], false)
  {
  }

  /**
   * The articles of a push are fetched in order, each under its own title,
   * skipping items without a URL: all of them unless a GET fails, which ends
   * the loop right after that GET; no earlier GET had failed.
   */
  lemma EventVisits(site: Site, n: nat, d: Xml.Delivery)
    ensures var r, steps := EventRun(site, n, d), Steps(EventItems(d));
      (!r.aborted ==> TargetsOf(r.visits) == Targets(steps))
      && (r.aborted ==> TargetsOf(r.visits) <= Targets(steps)
                        && r.visits != [] && FetchRaises(r.visits[|r.visits| - 1].outcome))
      && (forall k :: 0 <= k < |r.visits| - 1 ==> !FetchRaises(r.visits[k].outcome))
  {
    var steps := Steps(EventItems(d));
    RunVisitsTargets(site, n, steps, FetchRaises, |steps|);
    RunRaises(site, n, steps, FetchRaises, |steps|);
    assert steps[..|steps|] == steps;
    assert Abort !in steps;
  }

  /**
   * One pass of the loop of `handle_event`: an item with a URL costs one GET;
   * if it answers, the article and then its references are synced; if it
   * raises, the exception leaves the loop.
   */
  method ProcessItem(site: Site, store: DocumentStore, cfg: Config, item: Xml.Element,
                      ghost step: Step, ghost n: nat, ghost up: Visit -> seq<Upload>) returns (raised: bool)
    requires step == StepOf(item) && n == |site.fetched| && IsUploader(cfg, up)
    modifies site, store
    ensures var e := StepRun(site, n, step, FetchRaises);
      site.fetched == old(site.fetched) + Urls(e.visits)
      && store.sent == old(store.sent) + Requests(cfg.apiKey, VisitUploads(up, e.visits), RequestFor)
      && raised == e.aborted
  {
    var urlNode := Xml.FindChild(item, "ArticleUrl");
    var titleNode := Xml.FindChild(item, "Title");
    if urlNode.Some? && urlNode.value.text.Some? && urlNode.value.text.value != "" {
      var url := urlNode.value.text.value;
      var title := if titleNode.Some? then titleNode.value.text else Some("无标题");
      var o := site.Get(url);
      ghost var v := Visit(title, url, o);
      VisitUploadsOne(up, v);
      assert up(v) == PageUploads(cfg, v);
      if FetchRaises(o) {
        assert store.sent == old(store.sent) + [];
        return true;
      }
      ghost var sent0 := store.sent;
      SyncArticleToHotKb(store, cfg, title, url, o.page.doc);
      ghost var sent1 := store.sent;
      SyncReferencesToHotKb(store, cfg, o.page);
      SentAppend(sent0, sent1, store.sent, cfg.apiKey,
                 ArticleUploads(cfg, title, url, o.page.doc), ReferenceUploads(cfg, o.page), RequestFor);
      raised := false;
    } else {
      assert site.fetched == old(site.fetched) + [];
      assert VisitUploads(up, []) == [];
      assert store.sent == old(store.sent) + [];
      raised := false;
    }
  }

  /**
   * Pass `i` of the loop of `handle_event`: the GETs and the POSTs made since
   * `fetched0` and `sent0` grow from those of the passes before it to those
   * of the passes up to this one.
   */
  method ProcessNext(site: Site, store: DocumentStore, cfg: Config, ghost steps: seq<Step>, items: seq<Xml.Element>, i: nat,
                     ghost n0: nat, ghost fetched0: seq<string>, ghost sent0: seq<Request>, ghost done: seq<Visit>,
                     ghost up: Visit -> seq<Upload>)
    returns (raised: bool, ghost now: seq<Visit>)
    requires IsUploader(cfg, up)
    requires |items| == |steps| && i < |items| && steps[i] == StepOf(items[i])
    requires site.fetched == fetched0 + Urls(done) && |site.fetched| == n0 + |done|
    requires store.sent == sent0 + Requests(cfg.apiKey, VisitUploads(up, done), RequestFor)
    requires RunOf(site, n0, steps, FetchRaises, i) == Run(done, false)
    modifies site, store
    ensures site.fetched == fetched0 + Urls(done + now)
    ensures store.sent == sent0 + Requests(cfg.apiKey, VisitUploads(up, done + now), RequestFor)
    ensures RunOf(site, n0, steps, FetchRaises, i + 1) == Run(done + now, raised)
  {
    ghost var fetched, sent := site.fetched, store.sent;
    raised := ProcessItem(site, store, cfg, items[i], steps[i], n0 + |done|, up);
    now := StepRun(site, n0 + |done|, steps[i], FetchRaises).visits;
    LoopStep(site, n0, steps, FetchRaises, i, cfg.apiKey, RequestFor, up,
             fetched0, fetched, site.fetched, sent0, sent, store.sent, done, raised);
  }

  /** The loop of `handle_event` over the items of a push, inside its one exception handler. */
  method ProcessItems(site: Site, store: DocumentStore, cfg: Config, items: seq<Xml.Element>) returns (aborted: bool)
    modifies site, store
    ensures var r := LoopRun(site, old(|site.fetched|), Steps(items), FetchRaises);
      site.fetched == old(site.fetched) + Urls(r.visits)
      && store.sent == old(store.sent) + Requests(cfg.apiKey, VisitUploads(Uploader(cfg), r.visits), RequestFor)
      && aborted == r.aborted
  {
    ghost var n0 := |site.fetched|;
    ghost var steps := Steps(items);
    ghost var done: seq<Visit> := [];
    ghost var up := Uploader(cfg);
    UploaderIs(cfg);
    for i := 0 to |items|
      invariant site.fetched == old(site.fetched) + Urls(done) && |site.fetched| == n0 + |done|
      invariant store.sent == old(store.sent) + Requests(cfg.apiKey, VisitUploads(up, done), RequestFor)
      invariant RunOf(site, n0, steps, FetchRaises, i) == Run(done, false)
    {
      var raised;
      ghost var now;
      raised, now := ProcessNext(site, store, cfg, steps, items, i, n0, old(site.fetched), old(store.sent), done, up);
      done := done + now;
      if raised {
        AbortStays(site, n0, steps, FetchRaises, i + 1, |items|);
        return true;
      }
    }
    return false;
  }

  /**
   * `handle_event()`: whatever the push holds, and whatever happens while
   * it is handled, the answer is ("OK", 200); only a `PUBLISHJOBFINISH`
   * event fetches and uploads anything.
   */
  method HandleEvent(site: Site, store: DocumentStore, cfg: Config, d: Xml.Delivery) returns (body: string, status: int)
    modifies site, store
    ensures body == "OK" && status == 200
    ensures var r := EventRun(site, old(|site.fetched|), d);
      site.fetched == old(site.fetched) + Urls(r.visits)
      && store.sent == old(store.sent) + Requests(cfg.apiKey, VisitUploads(Uploader(cfg), r.visits), RequestFor)
  {
    body, status := "OK", 200;
    var items := EventItems(d);
    if items == [] {
      assert site.fetched == old(site.fetched) + Urls([]);
      assert store.sent == old(store.sent) + Requests(cfg.apiKey, VisitUploads(Uploader(cfg), []), RequestFor);
      return;
    }
    var aborted := ProcessItems(site, store, cfg, items);
  }
}
