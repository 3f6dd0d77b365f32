# WeChat article sync to Coze knowledge bases: a Dafny model

The repository has three services. Each one takes articles that a WeChat
official account has published, downloads each article page, and creates
documents in Coze knowledge bases. Each service makes a summary document
for the article and one document for each reference link
(`https://s.caixuan.cc/...`) found in the page.

- **wx_coze_uploader.** `process_and_upload` (fastapiServer.py) walks the
  `data` list of a JSON push. It downloads each article with `download_html`
  and hands the page to coze_uploader.py. That file creates the documents
  through the dataset API as base 64 "txt" files, and sends them to the
  articles-hot and references-hot knowledge bases.
- **wechat_api.** `handle_event` (main.py) walks the `ArticleResult` items of
  a `PUBLISHJOBFINISH` push. It creates plain "text" documents through
  `/open/v1/docs/create` and always answers ("OK", 200).
  `upload_file_to_coze` (coze_file_uploader.py) uploads one local file
  through the dataset API.
- **api.** `webhook` (index.py) answers WeChat's GET server-URL check. The
  check compares a SHA-1 signature of the sorted token, timestamp and nonce
  with the one in the request. For a `PUBLISHJOBFINISH` POST it walks the
  `ArticleDetail` items and writes documents in the form
  `url|||title|||snippet` and `title|||link`.

The outside world is modelled as two classes that follow a script:

- `Web.Site` records every GET in `fetched` and answers with the next
  scripted `FetchOutcome`.
- `Coze.DocumentStore` records every POST in `sent` and answers with the
  next scripted `PostOutcome`.

Each state-changing operation is a method over these two objects. Its
`ensures` clauses give the exact GETs and POSTs it makes, as a function of
its inputs and of the scripted answers. Those functions are specified
separately:

- `Batch.RunOf` gives the visits of an item loop. It stops at the first item
  whose processing raises.
- `Coze.Requests` turns `create_coze_doc` calls into requests. A call whose
  configuration guard fails sends nothing.
- Per service, the upload lists (`ArticleUploads` and `ReferenceUploads`)
  follow the extraction rules of that service.

Lemmas then prove what these functions promise:

- A reference's link comes from the page, the references are strictly
  ascending with no duplicates, and every link that starts the page or
  follows a character other than a letter, a digit or '/' is found.
- Which anchor and which container supply a reference's title.
- Document texts read back as their fields.
- A base 64 upload decodes back to the original bytes.
- A loop visits items in order, and an early end happens only for the
  reasons the code gives.
- The GET signature check does not depend on argument order.

The module layout follows the program:

- **One module per core file:** `CozeUploader`, `FastapiServer`,
  `WechatMain`, `ApiIndex` and `CozeFileUploader`.
- **Shared modules:**
  - `Coze`: request shapes, the store, and the reply rules.
  - `Web`: pages, the site, and `download_html`.
  - `Batch`: the item loop of the three services.
  - `Extraction`: queries, title cleanup, and document texts.
  - `Html`: a parsed page, `find`, `find_parent`, `get_text` and `.string`.
  - `Xml`: the push message, `find` and `findall`.
  - `RefLinks`: `re.findall` of the reference pattern.
  - `Text`: `strip`, string order and `sorted(set(...))`.
  - `Utf8` and `Base64`.
  - `Json` and `Wrappers`.

Where the code and its documentation disagree, the model follows the code:

- **api/index.py, items without `ArticleUrl`.** An item whose `ArticleUrl`
  element is *missing* raises `AttributeError` at `.text`. That ends the
  loop for the whole push (`ApiIndex.StepOf` gives `Abort`). Only an item
  whose element is present but has empty text is skipped.
- **api/index.py, exceptions outside the `try`.** The push is inspected
  outside the `try`. A malformed body, a missing `MsgType`, or a missing
  `Event` after an "event" `MsgType` raises, and Flask answers with an
  internal error (`ApiIndex.PostReply`).
- **wechat_api/main.py, non-object replies.** `create_coze_doc` calls
  `.get` on the decoded reply. A reply that is JSON but not an object
  raises out of the function (`WechatMain.DocReply` gives `Raised`). The
  sync steps that call it catch the error.

## Model

| member | source | states |
|---|---|---|
| CozeUploader.RequestCarriesContent | wx_coze_uploader/coze_uploader.py:36-51 | The dataset request carries exactly one "txt" document named `doc_name` to `dataset_id` = the knowledge base; its base 64 decodes to the UTF-8 bytes of the content, which decode back to the content. |
| CozeUploader.CreateCozeDoc | wx_coze_uploader/coze_uploader.py:23-73 | Unconfigured key or knowledge base: nothing sent, `None`. Otherwise exactly one POST of that request, and the result is the reply classified by `Coze.DatasetReply`. |
| CozeUploader.ExtractArticleSnippet | wx_coze_uploader/coze_uploader.py:76-85 | With `div#js_content`: its stripped text cut to at most 150 characters. Without it: a prefix of the `<body>` (or whole-document) text of length min(100, text length). |
| CozeUploader.ArticleUploadsShape | wx_coze_uploader/coze_uploader.py:133-141 | At most one upload, and none exactly when the snippet is empty; it goes to the articles base under the article title, and its text splits into the lines `---`, URL, title, snippet, `---`. |
| CozeUploader.SyncArticleToHotKb | wx_coze_uploader/coze_uploader.py:133-141 | The POSTs sent are exactly those of the article's uploads (none for an empty snippet). |
| CozeUploader.ReferenceTitle | wx_coze_uploader/coze_uploader.py:107-126 | When the link's first anchor has a `p`/`li`/`div` container, the title is that container's label-stripped text; otherwise it is the anchor's text when that is non-empty, else "文献原文链接"; a link with no anchor (plain text) gets "文献原文链接". The title is empty iff the container's label-stripped text is. |
| CozeUploader.ReferencesOf | wx_coze_uploader/coze_uploader.py:106-130 | One reference per link, in the links' order, each titled by `ReferenceTitle`. |
| CozeUploader.References | wx_coze_uploader/coze_uploader.py:89-130 | As many references as candidate links, the k-th carrying the k-th candidate link. |
| CozeUploader.ReferencesLinks | wx_coze_uploader/coze_uploader.py:95-102 | Reference links are strictly ascending (so distinct), each a full pattern match found in the page; every match has its reference; no references iff no match. |
| CozeUploader.ResolveTitle | wx_coze_uploader/coze_uploader.py:107-126 | The loop body's default-then-override assignments give exactly `ReferenceTitle`. |
| CozeUploader.ResolveLinks | wx_coze_uploader/coze_uploader.py:106-130 | The loop builds exactly `ReferencesOf` the links. |
| CozeUploader.ExtractReferences | wx_coze_uploader/coze_uploader.py:89-130 | Returns exactly `References(page)`, the empty list when no link matches. |
| CozeUploader.ReferenceUploadsOf | wx_coze_uploader/coze_uploader.py:152-154 | One upload per reference, in order, to the references base, named by the title and holding the title and the link. |
| CozeUploader.ReferenceUploads | wx_coze_uploader/coze_uploader.py:143-154 | As many uploads as references, all to the references base. |
| CozeUploader.ReferenceRequests | wx_coze_uploader/coze_uploader.py:143-154 | Configured: exactly one POST per reference, in order, carrying its title and link; unconfigured: none. |
| CozeUploader.SyncReferences | wx_coze_uploader/coze_uploader.py:152-154 | The loop sends exactly the POSTs of `ReferenceUploadsOf` the references, whatever the replies. |
| CozeUploader.SyncReferencesToHotKb | wx_coze_uploader/coze_uploader.py:143-154 | The POSTs sent are exactly those of the page's reference uploads. |
| Coze.DatasetRequest | wx_coze_uploader/coze_uploader.py:39-51 | The dataset endpoint, one document base with the name, base 64 and file type, `document_source` 0, chunking (0, 800), `format_type` 0. |
| Coze.DatasetReply | wx_coze_uploader/coze_uploader.py:54-73 | The response data comes back iff the status is not an error and the body is a JSON object whose code is 0 and whose `document_infos` can be read; it is that body. Otherwise `None`: a transport error, an error status, a non-JSON or non-object body, a non-zero code, or an unreadable `document_infos`. |
| Coze.Requests | wx_coze_uploader/coze_uploader.py:24-26 | A sequence of calls sends at most one POST per call, and nothing at all without an API key. |
| Base64.DecodeEncode | wx_coze_uploader/coze_uploader.py:36 | Decoding the base 64 (section 4 of RFC 4648) of any bytes gives the bytes back. |
| Utf8.DecodeEncode | wx_coze_uploader/coze_uploader.py:36 | Decoding the UTF-8 encoding of any text gives the text back. |
| Web.DownloadHtml | wx_coze_uploader/wx_downloader.py:20-38 | The page text comes back exactly for status 200; any other status or a transport error gives `None`. |
| FastapiServer.UrlOf | wx_coze_uploader/fastapiServer.py:38-46 | An item is downloaded exactly when its `url` is a non-empty string, and from that string. |
| FastapiServer.TitleOf | wx_coze_uploader/fastapiServer.py:39 | An absent title defaults to "无标题"; `null` stays `None`; a string is kept. |
| FastapiServer.StepOf | wx_coze_uploader/fastapiServer.py:37-46 | An entry that is not an object aborts the loop (at `item.get`); a record without a usable URL is skipped; otherwise it is fetched with its URL and title. |
| FastapiServer.BatchRun | wx_coze_uploader/fastapiServer.py:30-37 | Missing or falsy `data` (an empty list included) returns with no effect; a body that is not an object or a truthy non-list raises before any GET. |
| FastapiServer.ListVisits | wx_coze_uploader/fastapiServer.py:37-60 | The batch fails iff some entry is not a record. Exactly the records with a URL listed before the first such entry (all of them when there is none) are downloaded, in order, each under its title. |
| FastapiServer.ProcessPage | wx_coze_uploader/fastapiServer.py:45-60 | Exactly one GET of the URL, then the article's and the references' POSTs exactly when the download gave a non-empty page. |
| FastapiServer.ProcessItem | wx_coze_uploader/fastapiServer.py:37-60 | One pass makes exactly the GETs and POSTs of its step, and reports whether the loop ends. |
| FastapiServer.ProcessItems | wx_coze_uploader/fastapiServer.py:37-60 | The loop makes exactly the GETs and POSTs of `Batch.LoopRun` over the items, and reports whether it aborted. |
| FastapiServer.ProcessAndUpload | wx_coze_uploader/fastapiServer.py:26-63 | The GETs and POSTs are exactly those of `BatchRun`, and the call ends with nothing to do, completed, or failed (exception logged) as `EndingOf` says. |
| WechatMain.DocReply | wechat_api/main.py:48-67 | Raises iff the reply is a non-error JSON value that is not an object; returns the data iff it is an object with code 0; `None` otherwise. |
| WechatMain.CreateCozeDoc | wechat_api/main.py:26-67 | Unconfigured: nothing sent, `None`. Otherwise one POST of the "text" document request to the docs endpoint, and the result classified by `DocReply`. |
| WechatMain.ArticleUploadsShape | wechat_api/main.py:80-92 | At most one upload, and none exactly when `div#js_content` is missing (an empty container still uploads); the text splits into `---`, URL, title, snippet, `---`. |
| WechatMain.SyncArticleToHotKb | wechat_api/main.py:70-96 | The POSTs sent are exactly those of the article's uploads. |
| WechatMain.ReferenceTitle | wechat_api/main.py:121-136 | No title (the link is skipped) iff no anchor has the link as `href`; the label-stripped container text when there is a container; otherwise the anchor's text when it is non-empty, else "标题提取失败", so never empty. |
| WechatMain.LinkUploadsSkip | wechat_api/main.py:121-124 | A link produces no upload iff no anchor in the page has it as its exact `href`. |
| WechatMain.ReferenceUploadsBase | wechat_api/main.py:140 | Every reference upload goes to the references base. |
| WechatMain.AnchoredLinksUploads | wechat_api/main.py:118-140 | When every link has an anchor, there is exactly one upload per link, in order, each to the references base with the link's title, and its text holds the title and the link. |
| WechatMain.NoLinksNoUploads | wechat_api/main.py:108-114 | A page where the pattern matches nothing gives no reference uploads. |
| WechatMain.ResolveTitle | wechat_api/main.py:126-136 | The loop body's title chain gives exactly `ReferenceTitle`. |
| WechatMain.SyncLink | wechat_api/main.py:119-140 | One pass sends exactly the POSTs of that link's uploads. |
| WechatMain.SyncLinks | wechat_api/main.py:118-142 | The loop sends exactly the POSTs of every link's uploads, in order, whatever the replies. |
| WechatMain.SyncReferencesToHotKb | wechat_api/main.py:100-146 | The POSTs sent are exactly those of the page's reference uploads. |
| WechatMain.StepOf | wechat_api/main.py:185-190 | No item aborts; an item is fetched iff its `ArticleUrl` exists with non-empty text, from that text, titled by `Title`'s text or "无标题" when `Title` is missing. |
| WechatMain.EventItems | wechat_api/main.py:162-179 | Items are walked only for a `PUBLISHJOBFINISH` event, and then they are the `item`s under `ArticleResult`. |
| WechatMain.IgnoredPush | wechat_api/main.py:154-204 | An empty, malformed, non-event or other-event push fetches and uploads nothing. |
| WechatMain.EventVisits | wechat_api/main.py:183-198 | Articles are fetched in order under their titles, all of them unless a GET raises, which ends the loop right after that GET; no earlier GET raised. |
| WechatMain.ProcessItem | wechat_api/main.py:185-198 | One pass makes exactly the GETs and POSTs of its step and reports whether its GET raised. |
| WechatMain.ProcessItems | wechat_api/main.py:183-198 | The loop makes exactly the GETs and POSTs of `Batch.LoopRun` over the items. |
| WechatMain.HandleEvent | wechat_api/main.py:151-212 | The answer is always ("OK", 200); the GETs and POSTs are exactly those of the push's run. |
| ApiIndex.DocReply | api/index.py:61-70 | The decoded body comes back iff the status is not an error and the body is JSON, whatever its code; `None` otherwise. |
| ApiIndex.CreateCozeDoc | api/index.py:30-70 | Unconfigured: nothing sent, `None`. Otherwise one POST of the "text" document request to the `api.coze.com` endpoint, classified by `DocReply`. |
| ApiIndex.SeparatorIndexAfter | api/index.py:95 | In a field without '\|' followed by "\|\|\|", the first separator starts right after the field. |
| ApiIndex.FieldsOfTwo | api/index.py:156 | Two '\|'-free fields joined by "\|\|\|" split back into the two fields. |
| ApiIndex.ArticleRecordFields | api/index.py:95 | `url\|\|\|title\|\|\|snippet` splits back into URL, title and snippet when none holds '\|'. |
| ApiIndex.ReferenceRecordFields | api/index.py:156 | `title\|\|\|link` splits back into title and link when neither holds '\|'. |
| ApiIndex.ArticleUploadsShape | api/index.py:85-99 | At most one upload, and none exactly when `div#js_content` is missing; it goes to the articles base under the title, and reads back as URL, title and 150-character snippet. |
| ApiIndex.SyncArticleToCoze | api/index.py:73-103 | The POSTs sent are exactly those of the article's uploads. |
| ApiIndex.NonEmptyTitle | api/index.py:151-153 | The title is never empty and a non-empty title is kept. |
| ApiIndex.ReferenceTitle | api/index.py:129-153 | No title iff no anchor for the link; otherwise never empty: the label-stripped container text, or the anchor text, or "父级元素中未找到标题", with "标题为空" replacing an empty result. |
| ApiIndex.LinkUploadsSkip | api/index.py:132-135 | A link produces no upload iff no anchor has it as its exact `href`. |
| ApiIndex.ReferenceUploadsBase | api/index.py:160 | Every reference upload goes to the references base. |
| ApiIndex.ReferenceUploadsNamed | api/index.py:150-160 | Every reference upload is named by a non-empty title. |
| ApiIndex.AnchoredLinksUploads | api/index.py:128-160 | When every link has an anchor, there is exactly one upload per link, in order, each the call for that link. |
| ApiIndex.ResolveTitle | api/index.py:137-153 | The loop body's title chain and empty-title fallback give exactly `ReferenceTitle`. |
| ApiIndex.SyncLink | api/index.py:129-164 | One pass sends exactly the POSTs of that link's uploads. |
| ApiIndex.SyncLinks | api/index.py:128-164 | The loop sends exactly the POSTs of every link's uploads, in order. |
| ApiIndex.SyncReferencesToCoze | api/index.py:106-169 | The POSTs sent are exactly those of the page's reference uploads. |
| ApiIndex.PageTitle | api/index.py:234 | "无标题" without a `title` element; otherwise the stripped single string of the element, or a failure (`None`) when it has none. |
| ApiIndex.StepOf | api/index.py:215-221 | An item without `ArticleUrl` aborts the loop; one with empty text is skipped; otherwise it is fetched from that text. |
| ApiIndex.ClassifyPush | api/index.py:206-215 | Unreadable iff empty or malformed, `MsgType` missing, or `Event` missing after an "event" type; a publication iff type "event" and event `PUBLISHJOBFINISH`, with the `item`s under `ArticleDetail`. |
| ApiIndex.IgnoredPush | api/index.py:211 | A push that is not a publication fetches and uploads nothing. |
| ApiIndex.PushVisits | api/index.py:213-242 | Articles are fetched in order, skipping empty URLs; an early end happens only at an item without `ArticleUrl` or right after a GET that raised; no earlier GET raised. Unless the last GET raised, exactly the articles listed before the first item without `ArticleUrl` (all when there is none) were fetched. |
| ApiIndex.PushResponses | api/index.py:226-228 | The k-th visited article is judged by the answer to the k-th GET of the loop. |
| ApiIndex.ProcessPage | api/index.py:226-239 | The pass ends the loop exactly when the GET raised or the title cannot be read; otherwise the article's and the references' POSTs are sent. |
| ApiIndex.ProcessItem | api/index.py:215-239 | One pass makes exactly the GETs and POSTs of its step and reports whether it raised. |
| ApiIndex.ProcessItems | api/index.py:213-242 | The loop makes exactly the GETs and POSTs of `Batch.LoopRun` over the items. |
| ApiIndex.SignatureOrderFree | api/index.py:191-193 | The expected signature is the same for any order of the token, timestamp and nonce. |
| ApiIndex.VerifyServer | api/index.py:179-201 | 400 iff the token or any parameter is empty; `echostr` with 200 iff all are present and the SHA-1 of the sorted, joined values equals the signature; 403 otherwise. |
| ApiIndex.PostReply | api/index.py:204-245 | An internal error iff the push is unreadable; "success" with 200 otherwise, even when the loop ended early. |
| ApiIndex.HandlePost | api/index.py:204-245 | The answer is `PostReply`, and the GETs and POSTs are exactly those of the push's run. |
| ApiIndex.Webhook | api/index.py:172-248 | A GET answers the server check and changes nothing; a POST is `HandlePost`; any other method gets 405. |
| CozeFileUploader.LastIndex | wechat_api/coze_file_uploader.py:41-42 | The index of the last occurrence of a character, -1 iff it does not occur. |
| CozeFileUploader.BaseNameSplits | wechat_api/coze_file_uploader.py:41 | The base name holds no '/', and the path is an empty or '/'-ended directory part followed by the base name. |
| CozeFileUploader.BaseNameOfName | wechat_api/coze_file_uploader.py:41 | A path without '/' is its own base name. |
| CozeFileUploader.LowerIdempotent | wechat_api/coze_file_uploader.py:42 | Lowering twice equals lowering once, and leaves no ASCII capital. |
| CozeFileUploader.FileType | wechat_api/coze_file_uploader.py:42 | A name without '.' is typed "txt". |
| CozeFileUploader.FileTypeOfExtension | wechat_api/coze_file_uploader.py:42 | A name `stem.ext` with no '.' in `ext` is typed by `ext` lowered. |
| CozeFileUploader.FileRequestEnvelope | wechat_api/coze_file_uploader.py:30-61 | One document named by the base name and typed by the extension, fixed chunking and format, and base 64 that decodes back to the file's bytes. |
| CozeFileUploader.UploadFileToCoze | wechat_api/coze_file_uploader.py:21-88 | Nothing sent and `None` when unconfigured, or the file is missing or unreadable; otherwise exactly one POST of that file's request, classified by `Coze.DatasetReply`. |
| Extraction.TitleSourceOf | wx_coze_uploader/coze_uploader.py:110-115 | The anchor and container paths it reports exist in the page. |
| Extraction.TitleSourceInParent | wx_coze_uploader/coze_uploader.py:110-117 | The first anchor for a link inside its nearest `p`/`li`/`div` gives the title from that container. |
| Extraction.TitleSourceAnchored | wx_coze_uploader/coze_uploader.py:110-121 | The first anchor for a link outside any container gives the title from the anchor. |
| Extraction.TitleSourceUnanchored | wx_coze_uploader/coze_uploader.py:122-126 | A link that no anchor points at exactly has no anchor source. |
| Extraction.DropLabel | wx_coze_uploader/coze_uploader.py:119 | The result is a suffix; an unlabelled title is kept; a labelled one loses the label and every separator after it. |
| Extraction.StripLabel | wx_coze_uploader/coze_uploader.py:119 | The cleaned title is stripped and no longer than the raw one. |
| Extraction.StripLabelOfLabelled | wx_coze_uploader/coze_uploader.py:119 | Label, separators and a stripped rest give back the rest. |
| Extraction.StripLabelOfUnlabelled | wx_coze_uploader/coze_uploader.py:119 | A stripped title with no label is unchanged. |
| Extraction.StripLabelOnce | wx_coze_uploader/coze_uploader.py:119 | Only the first label goes: a second label that follows it stays. |
| Extraction.StripLabelSample | wechat_api/test_main.py:26 | "来源文章：第一篇参考文献标题" is cleaned to "第一篇参考文献标题". |
| Extraction.ArticleContentLines | wx_coze_uploader/coze_uploader.py:140 | The article document is five lines framed by `---` giving back URL, title and snippet. |
| Extraction.ReferenceContentLines | wx_coze_uploader/coze_uploader.py:153 | The reference document is four lines framed by `---` giving back title and link. |
| Extraction.BodySnippet | wechat_api/main.py:81-88 | No snippet iff the page has no `div#js_content`; otherwise the first 150 characters of its stripped text. |
| RefLinks.Links | wx_coze_uploader/coze_uploader.py:98 | Strictly ascending, each a link matched in the page, and exactly the distinct matches. |
| RefLinks.FindAll | wx_coze_uploader/coze_uploader.py:98 | Every match `findall` reports is a link (the prefix and a run of letters and digits) found in the page. |
| RefLinks.FindAllFromSound | wx_coze_uploader/coze_uploader.py:98 | Every reported match is the greedy match at some position. |
| RefLinks.LinksComplete | wx_coze_uploader/coze_uploader.py:98 | Every delimited occurrence of a link in the page is a candidate. |
| Text.Strip | wechat_api/main.py:132 | The result is stripped, no longer than the input, and the input is whitespace around it. |
| Text.StripEmptyIffAllSpace | api/index.py:151 | A stripped text is empty iff the text is all whitespace. |
| Text.SortDistinct | wx_coze_uploader/coze_uploader.py:98 | Strictly ascending with the same elements as the input. |
| Text.SortPermutationInvariant | api/index.py:191 | Sorting any reordering gives the same list. |
| Html.Find | wx_coze_uploader/coze_uploader.py:110 | `find` returns a matching node that comes before every other match in document order, and `None` iff no node matches. |
| Html.FindParent | wx_coze_uploader/coze_uploader.py:115 | `find_parent` returns a proper ancestor with one of the tags and no tagged node between it and the start, and `None` iff no proper ancestor has one of the tags. |
| Html.FindFirst | wx_coze_uploader/coze_uploader.py:110 | The match that precedes every other match in document order is the one `find` returns. |
| Html.FindParentNearest | wx_coze_uploader/coze_uploader.py:115 | The nearest tagged proper ancestor is the one `find_parent` returns. |
| Html.GetText | wx_coze_uploader/coze_uploader.py:79 | `get_text(strip=True)` is stripped. |
| Html.StringOf | api/index.py:234 | A single string, stripped, is the node's stripped text. |
| Xml.ItemsUnder | api/index.py:215 | The walk over every container element yields only `item` elements. |
| Xml.FindChild | wechat_api/main.py:162-163 | The first direct child with the tag, `None` iff there is none. |
| Xml.NoContainerNoItems | wechat_api/main.py:179-181 | A message with no container element has no items to walk. |
| Xml.FlatContainer | wechat_api/main.py:179 | A single flat container is walked in its items' own order. |
| Batch.StepRun | wx_coze_uploader/fastapiServer.py:37-60 | A skip does nothing, an abort ends the loop, a fetch makes one visit with the next answer and ends the loop when that answer raises. |
| Batch.AbortStays | wechat_api/main.py:183-198 | Once the loop has ended, later items change nothing. |
| Batch.RunVisitsTargets | wechat_api/main.py:183-198 | The loop visits the fetch targets in order: all of them when it did not abort, a prefix when it did. |
| Batch.RunResponses | api/index.py:215-228 | The k-th visit received the answer to the k-th GET. |
| Batch.RunTargetsUnlessRaised | wx_coze_uploader/fastapiServer.py:37-60 | A loop whose last visit did not raise (or that visited nothing) has visited exactly the targets listed before the first abort step. |
| Batch.RunRaises | api/index.py:213-242 | No visit but the last raised; an aborted loop met an abort step or raised on its last visit. |

## Left out

- **HTTP plumbing:** HTTP transport, timeouts, headers sent to article pages, and Flask/FastAPI routing outside the view functions. Calls to the network are the scripted `Site` and `DocumentStore`.
- **Parsing and serialization:** HTML parsing by BeautifulSoup/lxml, `str(soup)`, XML parsing, and JSON decoding. A page arrives as its text, its tree and its markup together. A push arrives already classified.
- **Logging, `print`, `traceback`, `load_dotenv`.** They have no effect on the behaviour modelled here.
- **`artlist_receiver`, the receiving thread and `save_file`/`get_current_time_string`.** These are thread and file-system I/O. `process_and_upload` is modelled as the thread's body.
- **`upload_file_to_coze`'s fallback values and its `__main__` test block.** The built-in defaults for its configuration are not part of this model. The key and the base are parameters.
- **SHA-1.** It is a parameter (`sha1Hex`) of `ApiIndex.VerifyServer`, so the model treats the hash as opaque.
- **Comments and `<script>`/`<style>` text in `get_text`.** `Html.GetText` joins every text node. BeautifulSoup's exclusions for those node kinds are not modelled.
- **JSON numbers.** `code == 0` is modelled on integers (and `false`, which Python treats as equal to 0). Floating-point codes such as `0.0` are not modelled.
- **Environment variables.** An unset variable is modelled as the empty string. Python's `None` and `""` are both falsy, so every guard behaves the same.
- **FastapiServer.TitleOf:** a `title` that is neither a string nor `null` (a number, say) is not modelled. It only appears in log lines and in the uploaded document text.
- **FastapiServer.UrlOf:** a truthy `url` that is not a string makes `requests` raise inside `download_html`, which then returns `None`. The model treats that item as not downloaded. That is the same observable behaviour, reached without modelling `requests`' error.
- **CozeFileUploader.FileType:** `str.lower()` is modelled on ASCII letters only. Non-ASCII case mappings are not modelled.
- **Helpers without rows:** `ApiIndex.Concat` and the loop helpers (`ProcessNext`, `SyncNextLink`, `Batch.LoopStep`) are proof plumbing for the loops above and have no rows of their own. The same holds for the trigger-guarded predicates `IsUploader` and `IsPageRaises`, and for `CozeFileUploader.BaseName` and `ApiIndex.Signature`, whose properties are stated by `BaseNameSplits` and `SignatureOrderFree`.
