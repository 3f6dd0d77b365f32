/**
 * The article pages the services download: the scripted web they talk to,
 * and the status rules of `requests`.
 */
module Web {
  import opened Wrappers
  import opened Html

  /**
   * A downloaded page: the response text, the tree BeautifulSoup parses from
   * it, and `str(soup)`, the markup the tree serializes back to. Parsing and
   * serialization are not modelled; the three come together from the web.
   */
  datatype Page = Page(text: string, doc: Node, markup: string)

  /** What one GET produces: a transport failure, or a response with a status code. */
  datatype FetchOutcome = NetworkError | Responded(status: int, page: Page)

  /** `response.raise_for_status()` raises for client and server errors. */
  predicate IsHttpError(status: int) {
    400 <= status < 600
  }

  /** `requests.get(url)` followed by `raise_for_status()` raises. */
  predicate FetchRaises(o: FetchOutcome) {
    o.NetworkError? || IsHttpError(o.status)
  }

  /**
   * The result of `download_html(url)` in wx_downloader.py, taken as given:
   * the response text for status 200, `None` otherwise (transport errors included).
   */
  function DownloadHtml(o: FetchOutcome): (r: Option<string>)
    ensures r.Some? <==> o.Responded? && o.status == 200
    ensures r.Some? ==> r.value == o.page.text
  {
    if o.Responded? && o.status == 200 then Some(o.page.text) else None
  }

  /**
   * The web as the services see it: the i-th GET receives `responses[i]`;
   * once the script is exhausted every GET fails in transport.
   */
  class Site {
    var fetched: seq<string>
    const responses: seq<FetchOutcome>

    constructor (responses: seq<FetchOutcome>)
      ensures fetched == [] && this.responses == responses
    {
      fetched := [];
      this.responses := responses;
    }

    /** The outcome of the GET numbered `i` (counting from zero). */
    function ResponseTo(i: nat): FetchOutcome {
      if i < |responses| then responses[i] else NetworkError
    }

    /** One GET of `url`: it is recorded, and the next scripted outcome comes back. */
    method Get(url: string) returns (o: FetchOutcome)
      modifies this
      ensures fetched == old(fetched) + [url]
      ensures o == ResponseTo(old(|fetched|))
    {
      o := ResponseTo(|fetched|);
      fetched := fetched + [url];
    }
  }
}
