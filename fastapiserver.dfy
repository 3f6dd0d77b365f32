/**
 * wx_coze_uploader/fastapiServer.py, `process_and_upload(json_data)`: the
 * batch loop over the articles a push lists. Each article with a URL is
 * downloaded once; a downloaded page is synced as an article and then as a
 * list of references; an exception ends the batch.
 */
module FastapiServer {
  import opened Wrappers
  import opened Web
  import opened Coze
  import opened Batch
  import opened CozeUploader

  /** A JSON value as an item field: absent, `null`, a string, or another value that is truthy or not. */
  datatype Field = Absent | Null | Text(s: string) | NonText(truthy: bool)

  /** The title of an item: absent, `null` or a string. */
  datatype TitleField = NoTitle | NullTitle | TitleText(s: string)

  /** One entry of the `data` list: an object with `url` and `title`, or any other JSON value. */
  datatype Item = Record(url: Field, title: TitleField) | NotARecord

  /**
   * What the pushed body holds under `data`: a body that is not an object, no
   * `data` key, a falsy value that is not a list (`null`, `false`, `0`, `""`,
   * `{}`), a truthy value that is not a list, or a list.
   */
  datatype Data = BodyNotObject | Missing | Falsy | Truthy | List(items: seq<Item>)

  /** How the call ends: nothing to do, the loop completed, or an exception was caught and logged. */
  datatype Ending = NothingToDo | Completed | Failed

  /**
   * The URL an item is downloaded from: only a non-empty string is. An absent
   * or falsy `url` is skipped by the `if not url` test; any other value makes
   * `requests` raise before connecting, which `download_html` turns into `None`.
   */
  function UrlOf(f: Field): (r: Option<string>)
    ensures r.Some? <==> f.Text? && f.s != ""
    ensures r.Some? ==> r.value == f.s
  {
    if f.Text? && f.s != "" then Some(f.s) else None
  }

  /** `item.get("title", "无标题")`; `null` is Python's `None`. */
  function TitleOf(t: TitleField): (r: Option<string>)
    ensures t.NoTitle? ==> r == Some("无标题")
    ensures t.NullTitle? ==> r == None
    ensures t.TitleText? ==> r == Some(t.s)
  {
    match t
    case NoTitle => Some("无标题")
    case NullTitle => None
    case TitleText(s) => Some(s)
  }

  /** What the loop body does with an item: a non-record raises at `item.get`; a record without a URL is skipped. */
  function StepOf(item: Item): (s: Step)
    ensures s.Abort? <==> item.NotARecord?
    ensures s.Skip? <==> item.Record? && UrlOf(item.url).None?
    ensures s.Fetch? ==> item.Record? && s == Fetch(TitleOf(item.title), UrlOf(item.url).value)
  {
    match item
    case NotARecord => Abort
    case Record(url, title) => if UrlOf(url).Some? then Fetch(TitleOf(title), UrlOf(url).value) else Skip
  }

  function Steps(items: seq<Item>): (steps: seq<Step>)
    ensures |steps| == |items| && forall k :: 0 <= k < |items| ==> steps[k] == StepOf(items[k])
  {
    seq(|items|, k requires 0 <= k < |items| => StepOf(items[k]))
  }

  /**
   * Nothing after the GET raises: `download_html` turns every failure into
   * `None`, and every exception inside the two sync functions is caught by
   * the `create_coze_doc` they call.
   */
  predicate Raises(o: FetchOutcome) {
    false
  }

  /** `if html_content:` — the download gave a non-empty text. */
  predicate Downloaded(o: FetchOutcome) {
    DownloadHtml(o).Some? && DownloadHtml(o).value != ""
  }

  /** The `create_coze_doc` calls for one visit: the article's, then its references', when the page was downloaded. */
  function PageUploads(cfg: Config, v: Visit): seq<Upload> {
    if Downloaded(v.outcome) then ArticleUploads(cfg, v.title, v.url, v.outcome.page.doc) + ReferenceUploads(cfg, v.outcome.page)
    else []
  }

  function Uploader(cfg: Config): Visit -> seq<Upload> {
    v => PageUploads(cfg, v)
  }

  /**
   * `up` gives, for every visit, the calls `PageUploads` says it makes; the
   * loop passes this fact along without unfolding it.
   */
  ghost predicate IsUploader(cfg: Config, up: Visit -> seq<Upload>) {
    forall v {:trigger PageUploads(cfg, v)} :: up(v) == PageUploads(cfg, v)
  }

  lemma UploaderIs(cfg: Config)
    ensures IsUploader(cfg, Uploader(cfg))
  {
  }

  /** `process_and_upload` returns before the loop: `data` is missing or falsy (an empty list included). */
  predicate ReturnsEarly(data: Data) {
    data.Missing? || data.Falsy? || (data.List? && data.items == [])
  }

  /**
   * The effects of `process_and_upload` for a push, after `n` GETs: a body
   * that is not an object, or a truthy `data` that is not a list, raises
   * before any GET.
   */
  function BatchRun(site: Site, n: nat, data: Data): (r: Run)
    ensures ReturnsEarly(data) ==> r == Run([], false)
    ensures data.BodyNotObject? || data.Truthy? ==> r == Run([], true)
  {
    match data
    case BodyNotObject => Run([], true)
    case Missing => Run([], false)
    case Falsy => Run([], false)
    case Truthy => Run([], true)
    case List(items) => LoopRun(site, n, Steps(items), Raises)
  }

  /** How the call ends, given its effects. */
  function EndingOf(data: Data, r: Run): Ending {
    if ReturnsEarly(data) then NothingToDo else if r.aborted then Failed else Completed
  }

  /**
   * The articles of a list are downloaded in order, each under its own
   * title, skipping records without a URL: all the records with a URL that
   * come before the first entry that is not a record (all of them when
   * there is none). The batch fails exactly when there is such an entry.
   */
  lemma ListVisits(site: Site, n: nat, items: seq<Item>)
    ensures var r, steps := BatchRun(site, n, List(items)), Steps(items);
      (r.aborted <==> exists k :: 0 <= k < |items| && items[k].NotARecord?)
      && TargetsOf(r.visits) == Targets(steps)
  {
    var steps := Steps(items);
    RunVisitsTargets(site, n, steps, Raises, |steps|);
    RunTargetsUnlessRaised(site, n, steps, Raises, |steps|);
    RunRaises(site, n, steps, Raises, |steps|);
    assert steps[..|steps|] == steps;
    if exists k :: 0 <= k < |items| && items[k].NotARecord? {
      var k :| 0 <= k < |items| && items[k].NotARecord?;
      assert steps[k] == Abort;
    }
    if Abort in steps {
      var k :| 0 <= k < |steps| && steps[k] == Abort;
      assert items[k].NotARecord?;
    }
  }

  /**
   * Downloading and syncing one page, as the body of the loop does it: one
   * GET, then the article's and the references' calls when the page came.
   */
  method ProcessPage(site: Site, store: DocumentStore, cfg: Config, title: Option<string>, url: string)
    modifies site, store
    ensures site.fetched == old(site.fetched) + [url]
    ensures store.sent == old(store.sent)
      + Requests(cfg.apiKey, PageUploads(cfg, Visit(title, url, site.ResponseTo(old(|site.fetched|)))), RequestFor)
  {
    var o := site.Get(url);
    var html := DownloadHtml(o);
    if html.Some? && html.value != "" {
      ghost var start := store.sent;
      SyncArticleToHotKb(store, cfg, title, url, o.page.doc);
      ghost var mid := store.sent;
      SyncReferencesToHotKb(store, cfg, o.page);
      SentAppend(start, mid, store.sent, cfg.apiKey,
        ArticleUploads(cfg, title, url, o.page.doc), ReferenceUploads(cfg, o.page), RequestFor);
    } else {
      assert store.sent == old(store.sent) + [];
    }
  }

  /**
   * The body of the loop for one item; `raised` is true when `item.get`
   * raises, which ends the loop.
   */
  method ProcessItem(site: Site, store: DocumentStore, cfg: Config, item: Item,
                     ghost step: Step, ghost n: nat, ghost up: Visit -> seq<Upload>) returns (raised: bool)
    requires step == StepOf(item) && n == |site.fetched| && IsUploader(cfg, up)
    modifies site, store
    ensures var e := StepRun(site, n, step, Raises);
      site.fetched == old(site.fetched) + Urls(e.visits)
      && store.sent == old(store.sent) + Requests(cfg.apiKey, VisitUploads(up, e.visits), RequestFor)
      && raised == e.aborted
  {
    if item.NotARecord? {
      assert site.fetched == old(site.fetched) + [];
      assert VisitUploads(up, []) == [];
      assert store.sent == old(store.sent) + [];
      return true;
    }
    var url := UrlOf(item.url);
    var title := TitleOf(item.title);
    if url.None? {
      assert site.fetched == old(site.fetched) + [];
      assert VisitUploads(up, []) == [];
      assert store.sent == old(store.sent) + [];
      return false;
    }
    ghost var v := Visit(title, url.value, site.ResponseTo(n));
    ProcessPage(site, store, cfg, title, url.value);
    VisitUploadsOne(up, v);
    assert up(v) == PageUploads(cfg, v);
    return false;
  }

  /**
   * Pass `i` of the loop: the GETs and the POSTs made since `fetched0` and
   * `sent0` grow from those of the passes before it to those of the passes
   * up to this one.
   */
  method ProcessNext(site: Site, store: DocumentStore, cfg: Config, ghost steps: seq<Step>, items: seq<Item>, i: nat,
                     ghost n0: nat, ghost fetched0: seq<string>, ghost sent0: seq<Request>, ghost done: seq<Visit>,
                     ghost up: Visit -> seq<Upload>)
    returns (raised: bool, ghost now: seq<Visit>)
    requires IsUploader(cfg, up)
    requires |items| == |steps| && i < |items| && steps[i] == StepOf(items[i])
    requires site.fetched == fetched0 + Urls(done) && |site.fetched| == n0 + |done|
    requires store.sent == sent0 + Requests(cfg.apiKey, VisitUploads(up, done), RequestFor)
    requires RunOf(site, n0, steps, Raises, i) == Run(done, false)
    modifies site, store
    ensures site.fetched == fetched0 + Urls(done + now)
    ensures store.sent == sent0 + Requests(cfg.apiKey, VisitUploads(up, done + now), RequestFor)
    ensures RunOf(site, n0, steps, Raises, i + 1) == Run(done + now, raised)
  {
    ghost var fetched, sent := site.fetched, store.sent;
    raised := ProcessItem(site, store, cfg, items[i], steps[i], n0 + |done|, up);
    now := StepRun(site, n0 + |done|, steps[i], Raises).visits;
    LoopStep(site, n0, steps, Raises, i, cfg.apiKey, RequestFor, up,
             fetched0, fetched, site.fetched, sent0, sent, store.sent, done, raised);
  }

  /** The `for item in artlist` loop, inside the `try` of `process_and_upload`. */
  method ProcessItems(site: Site, store: DocumentStore, cfg: Config, items: seq<Item>) returns (aborted: bool)
    modifies site, store
    ensures var r := LoopRun(site, old(|site.fetched|), Steps(items), Raises);
      site.fetched == old(site.fetched) + Urls(r.visits)
      && store.sent == old(store.sent) + Requests(cfg.apiKey, VisitUploads(Uploader(cfg), r.visits), RequestFor)
      && aborted == r.aborted
  {
    ghost var n0 := |site.fetched|;
    ghost var steps := Steps(items);
    ghost var done: seq<Visit> := [];
    ghost var up := Uploader(cfg);
    UploaderIs(cfg);
    for i := 0 to |items|
      invariant site.fetched == old(site.fetched) + Urls(done) && |site.fetched| == n0 + |done|
      invariant store.sent == old(store.sent) + Requests(cfg.apiKey, VisitUploads(up, done), RequestFor)
      invariant RunOf(site, n0, steps, Raises, i) == Run(done, false)
    {
      var raised;
      ghost var now;
      raised, now := ProcessNext(site, store, cfg, steps, items, i, n0, old(site.fetched), old(store.sent), done, up);
      done := done + now;
      if raised {
        AbortStays(site, n0, steps, Raises, i + 1, |items|);
        return true;
      }
    }
    return false;
  }

  /**
   * `process_and_upload(json_data)`: the GETs made and the documents created
   * are exactly those of the visits `BatchRun` lists, in that order, and the
   * call ends as `EndingOf` says.
   */
  method ProcessAndUpload(site: Site, store: DocumentStore, cfg: Config, data: Data) returns (ending: Ending)
    modifies site, store
    ensures var r := BatchRun(site, old(|site.fetched|), data);
      site.fetched == old(site.fetched) + Urls(r.visits)
      && store.sent == old(store.sent) + Requests(cfg.apiKey, VisitUploads(Uploader(cfg), r.visits), RequestFor)
      && ending == EndingOf(data, r)
  {
    if data.BodyNotObject? || data.Truthy? {
      assert site.fetched == old(site.fetched) + Urls([]);
      assert store.sent == old(store.sent) + Requests(cfg.apiKey, VisitUploads(Uploader(cfg), []), RequestFor);
      return Failed;
    }
    if !data.List? || data.items == [] {
      assert site.fetched == old(site.fetched) + Urls([]);
      assert store.sent == old(store.sent) + Requests(cfg.apiKey, VisitUploads(Uploader(cfg), []), RequestFor);
      return NothingToDo;
    }
    var aborted := ProcessItems(site, store, cfg, data.items);
    ending := if aborted then Failed else Completed;
  }
}
