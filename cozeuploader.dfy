/**
 * wx_coze_uploader/coze_uploader.py: the dataset-API `create_coze_doc`, the
 * article snippet and reference extraction, and the two sync steps that
 * upload an article summary and its references to the "hot" knowledge bases.
 */
module CozeUploader {
  import opened Wrappers
  import opened Text
  import opened Html
  import opened Json
  import opened Web
  import opened Coze
  import opened Extraction
  import RefLinks
  import Utf8
  import Base64

  /** `COZE_API_KEY`, `KB_ID_ARTICLES_HOT` and `KB_ID_REFERENCES_HOT`; an unset variable reads as "". */
  datatype Config = Config(apiKey: string, articlesKb: string, referencesKb: string)

  /** The POST of `create_coze_doc`: the text travels as the base 64 of its UTF-8 bytes, as a "txt" file. */
  function RequestFor(apiKey: string, u: Upload): Request {
    DatasetRequest(apiKey, u.kbId, u.name, Base64.Encode(Utf8.Encode(u.content)), "txt")
  }

  /**
   * The request is a dataset request for exactly one "txt" document named
   * `doc_name`, and decoding its base 64 and then its UTF-8 gives back the
   * document text.
   */
  lemma RequestCarriesContent(apiKey: string, u: Upload)
    ensures var r := RequestFor(apiKey, u);
      r.url == DatasetUrl && r.payload.datasetId == u.kbId && |r.payload.documentBases| == 1
      && r.payload.documentBases[0].name == u.name
      && r.payload.documentBases[0].sourceInfo.fileType == "txt"
      && Base64.Decode(r.payload.documentBases[0].sourceInfo.fileBase64) == Some(Utf8.Encode(u.content))
      && Utf8.Decode(Utf8.Encode(u.content)) == Some(u.content)
  {
    Base64.DecodeEncode(Utf8.Encode(u.content));
    Utf8.DecodeEncode(u.content);
  }

  /**
   * `create_coze_doc(kb_id, doc_name, content)`: nothing is sent and `None`
   * comes back unless the key and the knowledge base are configured;
   * otherwise one request is posted and its reply is classified.
   */
  method CreateCozeDoc(store: DocumentStore, apiKey: string, kbId: string, docName: Option<string>, content: string)
    returns (r: Option<JsonValue>)
    modifies store
    ensures !Configured(apiKey, kbId) ==> store.sent == old(store.sent) && r == None
    ensures Configured(apiKey, kbId) ==>
      store.sent == old(store.sent) + [RequestFor(apiKey, Upload(kbId, docName, content))]
      && r == DatasetReply(store.ReplyTo(old(|store.sent|)))
  {
    if !Configured(apiKey, kbId) {
      return None;
    }
    var o := store.Post(RequestFor(apiKey, Upload(kbId, docName, content)));
    r := DatasetReply(o);
  }

  /** A call of `create_coze_doc` sends the POSTs `Requests` gives for it. */
  lemma RequestsOfOne(apiKey: string, u: Upload)
    ensures Requests(apiKey, [u], RequestFor) == if Configured(apiKey, u.kbId) then [RequestFor(apiKey, u)] else []
  {
    assert [u][1..] == [];
  }

  /** The page text the snippet falls back to: that of `<body>`, or of the whole document without one. */
  function FallbackText(doc: Node): string {
    match Find(doc, Query("body", None))
    case Some(b) => GetText(At(doc, b))
    case None => GetText(doc)
  }

  /**
   * `extract_article_snippet(soup)`: the first 150 characters of the text of
   * `div#js_content` when the page has one (even an empty one), and otherwise
   * the first 100 characters of the fallback text.
   */
  function ExtractArticleSnippet(doc: Node): (r: string)
    ensures BodySnippet(doc).Some? ==> r == BodySnippet(doc).value && |r| <= 150
    ensures BodySnippet(doc).None? ==>
      r <= FallbackText(doc) && |r| == if |FallbackText(doc)| <= 100 then |FallbackText(doc)| else 100
  {
    match BodySnippet(doc)
    case Some(s) => s
    case None => Prefix(FallbackText(doc), 100)
  }

  /** The `create_coze_doc` calls of `sync_article_to_hot_kb`: none for an empty snippet. */
  function ArticleUploads(cfg: Config, title: Option<string>, url: string, doc: Node): seq<Upload> {
    var snippet := ExtractArticleSnippet(doc);
    if snippet == "" then [] else [Upload(cfg.articlesKb, title, ArticleContent(url, title, snippet))]
  }

  /**
   * An article is uploaded at most once, to the articles base, under its own
   * title, and exactly when its snippet is not empty; the uploaded text gives
   * back the URL, title and snippet line by line when they have no line breaks.
   */
  lemma ArticleUploadsShape(cfg: Config, title: Option<string>, url: string, doc: Node)
    requires '\n' !in url && '\n' !in Show(title) && '\n' !in ExtractArticleSnippet(doc)
    ensures var us := ArticleUploads(cfg, title, url, doc);
      |us| <= 1 && (us == [] <==> ExtractArticleSnippet(doc) == "")
      && (us != [] ==>
            us[0].kbId == cfg.articlesKb && us[0].name == title
            && Lines(us[0].content)
               == ["---", "文章URL: " + url, "文章标题: " + Show(title), "文章摘要: " + ExtractArticleSnippet(doc), "---"])
  {
    ArticleContentLines(url, title, ExtractArticleSnippet(doc));
  }

  /** `sync_article_to_hot_kb(article_title, article_url, soup)`. */
  method SyncArticleToHotKb(store: DocumentStore, cfg: Config, title: Option<string>, url: string, doc: Node)
    modifies store
    ensures store.sent == old(store.sent) + Requests(cfg.apiKey, ArticleUploads(cfg, title, url, doc), RequestFor)
  {
    var snippet := ExtractArticleSnippet(doc);
    if snippet == "" {
      return;
    }
    var content := ArticleContent(url, title, snippet);
    var reply := CreateCozeDoc(store, cfg.apiKey, cfg.articlesKb, title, content);
    RequestsOfOne(cfg.apiKey, Upload(cfg.articlesKb, title, content));
  }

  /** One entry of the list `extract_references` returns. */
  datatype Reference = Reference(title: string, link: string)

  /**
   * The title `extract_references` gives a link: the label-cleaned text of
   * the nearest container of its first anchor, else the anchor's own text,
   * else "文献原文链接" (also for a link that appears only as plain text).
   * It is empty only when the container's text is empty once a label is removed.
   */
  function ReferenceTitle(doc: Node, link: string): (r: string)
    ensures r == "" <==> TitleSourceOf(doc, link).InParent?
                         && StripLabel(GetText(At(doc, TitleSourceOf(doc, link).parent))) == ""
    ensures TitleSourceOf(doc, link).Unanchored? ==> r == "文献原文链接"
    ensures TitleSourceOf(doc, link).InParent? ==>
      r == StripLabel(GetText(At(doc, TitleSourceOf(doc, link).parent)))
    ensures TitleSourceOf(doc, link).Anchored? && GetText(At(doc, TitleSourceOf(doc, link).anchor)) != "" ==>
      r == GetText(At(doc, TitleSourceOf(doc, link).anchor))
    ensures TitleSourceOf(doc, link).Anchored? && GetText(At(doc, TitleSourceOf(doc, link).anchor)) == "" ==>
      r == "文献原文链接"
  {
    match TitleSourceOf(doc, link)
    case Unanchored => "文献原文链接"
    case Anchored(a) => if GetText(At(doc, a)) != "" then GetText(At(doc, a)) else "文献原文链接"
    case InParent(_, pp) => StripLabel(GetText(At(doc, pp)))
  }

  /** One reference per link, in order, each titled as `ReferenceTitle` says. */
  function ReferencesOf(doc: Node, links: seq<string>): (r: seq<Reference>)
    ensures |r| == |links|
    ensures forall k :: 0 <= k < |r| ==> r[k] == Reference(ReferenceTitle(doc, links[k]), links[k])
  {
    seq(|links|, k requires 0 <= k < |links| => Reference(ReferenceTitle(doc, links[k]), links[k]))
  }

  /** `extract_references(soup)`: one reference per candidate link, in the candidates' order. */
  function References(page: Page): (r: seq<Reference>)
    ensures |r| == |RefLinks.Links(page.markup)|
    ensures forall k :: 0 <= k < |r| ==> r[k].link == RefLinks.Links(page.markup)[k]
  {
    ReferencesOf(page.doc, RefLinks.Links(page.markup))
  }

  lemma ReferenceAt(page: Page, k: nat)
    requires k < |RefLinks.Links(page.markup)|
    ensures var link := RefLinks.Links(page.markup)[k];
      References(page)[k] == Reference(ReferenceTitle(page.doc, link), link)
  {
  }

  /**
   * The references have strictly ascending, hence distinct, links; each link
   * is the prefix and a run of letters and digits found in the page; every
   * match of the pattern has its reference; and there are none exactly when
   * nothing matches.
   */
  lemma ReferencesLinks(page: Page)
    ensures var r := References(page);
      (forall j, k :: 0 <= j < k < |r| ==> Less(r[j].link, r[k].link))
      && (forall k :: 0 <= k < |r| ==> RefLinks.IsLink(r[k].link) && RefLinks.MatchedIn(page.markup, r[k].link))
      && (forall m :: m in RefLinks.FindAll(page.markup) ==> exists k :: 0 <= k < |r| && r[k].link == m)
      && (r == [] <==> RefLinks.FindAll(page.markup) == [])
  {
    var links := RefLinks.Links(page.markup);
    var r := References(page);
    forall m | m in RefLinks.FindAll(page.markup) ensures exists k :: 0 <= k < |r| && r[k].link == m {
      assert m in Elems(links);
      var k :| 0 <= k < |links| && links[k] == m;
      assert r[k].link == m;
    }
    ElemsEmpty(links);
    ElemsEmpty(RefLinks.FindAll(page.markup));
  }

  /**
   * The body of the loop of `extract_references` for one link: the title
   * starts as the default and is replaced as the anchor lookup allows.
   */
  method ResolveTitle(doc: Node, link: string) returns (title: string)
    ensures title == ReferenceTitle(doc, link)
  {
    title := "文献原文链接";
    var anchor := Find(doc, AnchorQuery(link));
    if anchor.Some? {
      var parent := FindParent(doc, anchor.value, ParentTags);
      if parent.Some? {
        title := StripLabel(GetText(At(doc, parent.value)));
      } else if GetText(At(doc, anchor.value)) != "" {
        title := GetText(At(doc, anchor.value));
      }
    }
  }

  /** The loop of `extract_references` over the candidate links. */
  method ResolveLinks(doc: Node, links: seq<string>) returns (refs: seq<Reference>)
    ensures refs == ReferencesOf(doc, links)
  {
    refs := [];
    for i := 0 to |links|
      invariant refs == ReferencesOf(doc, links[..i])
    {
      var title := ResolveTitle(doc, links[i]);
      assert links[..i + 1] == links[..i] + [links[i]];
      refs := refs + [Reference(title, links[i])];
    }
    assert links[..|links|] == links;
  }

  /** `extract_references(soup)`: the candidate links, then one reference per link. */
  method ExtractReferences(page: Page) returns (refs: seq<Reference>)
    ensures refs == References(page)
  {
    var links := RefLinks.Links(page.markup);
    if links == [] {
      return [];
    }
    refs := ResolveLinks(page.doc, links);
  }

  /** One `create_coze_doc` call per reference, in order, to the references base and named by its title. */
  function ReferenceUploadsOf(cfg: Config, refs: seq<Reference>): (us: seq<Upload>)
    ensures |us| == |refs|
    ensures forall k :: 0 <= k < |us| ==>
      us[k] == Upload(cfg.referencesKb, Some(refs[k].title), ReferenceContent(refs[k].title, refs[k].link))
  {
    seq(|refs|, k requires 0 <= k < |refs| =>
      Upload(cfg.referencesKb, Some(refs[k].title), ReferenceContent(refs[k].title, refs[k].link)))
  }

  /** The `create_coze_doc` calls of `sync_references_to_hot_kb`: one per reference, named by its title. */
  function ReferenceUploads(cfg: Config, page: Page): (us: seq<Upload>)
    ensures |us| == |References(page)|
    ensures forall k :: 0 <= k < |us| ==> us[k].kbId == cfg.referencesKb
  {
    ReferenceUploadsOf(cfg, References(page))
  }

  lemma ReferenceUploadAt(cfg: Config, page: Page, k: nat)
    requires k < |References(page)|
    ensures var ref := References(page)[k];
      ReferenceUploads(cfg, page)[k] == Upload(cfg.referencesKb, Some(ref.title), ReferenceContent(ref.title, ref.link))
  {
  }

  /**
   * With the key and the references base configured, exactly one document is
   * created per reference, in order, named by the reference's title and
   * holding its title and link; without them nothing is sent.
   */
  lemma ReferenceRequests(cfg: Config, page: Page)
    ensures var refs, sent := References(page), Requests(cfg.apiKey, ReferenceUploads(cfg, page), RequestFor);
      (Configured(cfg.apiKey, cfg.referencesKb) ==>
        |sent| == |refs|
        && forall k :: 0 <= k < |refs| ==>
             sent[k] == RequestFor(cfg.apiKey, Upload(cfg.referencesKb, Some(refs[k].title), ReferenceContent(refs[k].title, refs[k].link))))
      && (!Configured(cfg.apiKey, cfg.referencesKb) ==> sent == [])
  {
    RequestsToOneBase(cfg.apiKey, cfg.referencesKb, ReferenceUploads(cfg, page), RequestFor);
  }

  /** The loop of `sync_references_to_hot_kb`: one `create_coze_doc` call per reference, in order. */
  method SyncReferences(store: DocumentStore, cfg: Config, refs: seq<Reference>)
    modifies store
    ensures store.sent == old(store.sent) + Requests(cfg.apiKey, ReferenceUploadsOf(cfg, refs), RequestFor)
  {
    ghost var uploads := ReferenceUploadsOf(cfg, refs);
    for i := 0 to |refs|
      invariant store.sent == old(store.sent) + Requests(cfg.apiKey, uploads[..i], RequestFor)
    {
      ghost var before := store.sent;
      var content := ReferenceContent(refs[i].title, refs[i].link);
      var reply := CreateCozeDoc(store, cfg.apiKey, cfg.referencesKb, Some(refs[i].title), content);
      SentStep(old(store.sent), before, store.sent, cfg.apiKey, uploads, i, RequestFor);
    }
    assert uploads[..|refs|] == uploads;
  }

  /** `sync_references_to_hot_kb(soup)`. */
  method SyncReferencesToHotKb(store: DocumentStore, cfg: Config, page: Page)
    modifies store
    ensures store.sent == old(store.sent) + Requests(cfg.apiKey, ReferenceUploads(cfg, page), RequestFor)
  {
    var refs := ExtractReferences(page);
    if refs == [] {
      assert ReferenceUploadsOf(cfg, refs) == [];
      return;
    }
    SyncReferences(store, cfg, refs);
  }
}
