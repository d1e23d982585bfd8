# GitHubCrawler core, modelled in Dafny

GitHubCrawler is a small web service. A POST to the trigger endpoint names
search keywords, a list of proxies and a result type. The service then
fetches a GitHub search page through one of those proxies, pulls the result
URLs out of the markup, and stores them in one process-wide slot. A GET to
the read endpoint returns that slot.

This project models that core:

- **Extraction** (`parse_html`): over an already-parsed element tree, every
  `div` whose class tokens include `search-title` contributes, in document
  order, `https://github.com` followed by the `href` of its first `a`
  descendant. Nested matching `div`s each count. A matching `div` without an
  anchor contributes nothing. An anchor without `href` yields
  `https://github.comNone`, the way the Python f-string prints `None`
  (`HrefText(None) == "None"`). `ParseHtml` is a loop over the matches,
  proved equal to a pipeline specification (`Extracted`) and to an
  independent recursive tree walk (`ExtractForest`).
- **HTTP classification** (`send_get_request`): a 200 answer is returned
  unchanged. Any other answer becomes an `HttpError` carrying the upstream
  status and `"Request failed.\nDetail: "` followed by the body. An
  exception raised by the HTTP client itself (connect error, proxy error,
  timeout) propagates as a `TransportError`. Each call records exactly one
  GET on the `Network` object.
- **Crawl job and slot** (`crawling_job`, `start_crawler`, the class
  variable `last_crawled_results`). The slot is the field of one
  `ResultStore` object shared by every `GitHubCrawlerService`. The job goes
  through these steps:
  - It fails with `EmptyProxyList` before sending anything when the proxy
    list is empty.
  - It picks some proxy `p` and sends `{"http://": "http://" + p}`, the
    query `q` = keywords joined by `","`, and `type` verbatim.
  - If the HTTP client raises, it fails with `TransportFailed`.
  - On a non-200 answer it fails with the `HttpError`.
  - On a parser error it fails with
    `ParsingFailed("HTML response processing failed: " + reason)`.
  - Otherwise it replaces the slot wholesale with the extracted list.

  Every failure leaves the slot unchanged. The store invariant `Valid()`
  says every stored URL starts with `https://github.com`.
- **Endpoints**: the trigger clears the slot and always answers
  `{"status": "Crawling started."}`. It returns the service whose
  `CrawlingJob` stands for the scheduled task. The read returns the slot.
  Scenario methods show these behaviours:
  - the test suite's end-to-end run;
  - a read between trigger and completion;
  - last-write-wins between two jobs;
  - the slot surviving failed jobs;
  - the empty-proxy case.

Design choices of the model, each following the code:

- The trigger clears the slot at once (src/services/github_crawler_service.py:86),
  so a read during a crawl sees `[]` (`ReadWhileCrawling`).
- The read never reports "No results available."
  (src/api/endpoints/crawler_endpoints.py:35-37; see Findings).
- An empty proxy list makes `random.choice` raise an `IndexError` before any
  request (src/services/github_crawler_service.py:60). The model names this
  error `EmptyProxyList`.
- The keywords are joined and handed to the HTTP client unencoded
  (src/services/github_crawler_service.py:61-64); encoding them is the
  client's job.

A side observation: the test fixture's proxy already starts with `http://`,
so the job sends `http://http://localhost:8080` (`FixtureRequest`). The
schema does not fix the proxy format, so this is recorded and not treated
as a bug.

## Model

| member | source | states |
|---|---|---|
| `HtmlTree.FirstTagged` | src/services/github_crawler_service.py:47 | the index it returns is the first element carrying the tag; `None` exactly when no element carries it |
| `HtmlTree.Find` | src/services/github_crawler_service.py:47 | `element.find("a")` returns the first descendant in document order (`Descendants`, :46) with that tag, never the element itself, or `None` exactly when no descendant has it |
| `HtmlTree.DescendantsAppend` | src/services/github_crawler_service.py:46 | the document-order walk of two sibling runs is the walk of the first followed by the walk of the second |
| `Extraction.FindAllMembers` | src/services/github_crawler_service.py:41-46 | `find_all("div", class_="search-title")` keeps an element exactly when it is a `div` whose class tokens contain `search-title` |
| `Extraction.PipelineAppend` | src/services/github_crawler_service.py:44-51 | selecting from a concatenation of element runs gives the two runs' records in order, so results follow document order |
| `Extraction.ExtractedIsTreeWalk` | src/services/github_crawler_service.py:44-53 | `Extracted`, the find_all-then-append rule that `parse_html` applies (:44-53) to the `Descendants` walk, equals a recursive pre-order walk in which each element's own record comes before those of its subtree and its later siblings |
| `Extraction.ExtractedAppend` | src/services/github_crawler_service.py:44-53 | the results for a document made of two sibling runs are the two runs' results concatenated |
| `Extraction.EmitMembers` | src/services/github_crawler_service.py:47-51 | a record is appended exactly when some match has a first anchor that yields it |
| `Extraction.AtMostOnePerMatch` | src/services/github_crawler_service.py:44-53 | the output has no more entries than there are matching `div`s |
| `Extraction.ExtractedMembers` | src/services/github_crawler_service.py:44-53 | a record is in the output exactly when a matching `div` of the document has a first `a` descendant whose `href` yields it (both directions) |
| `Extraction.ExtractedUrlsHaveOrigin` | src/services/github_crawler_service.py:50 | every produced URL starts with `https://github.com` |
| `Extraction.NoMatchNoResults` | src/services/github_crawler_service.py:46-48 | markup with no matching `div` yields `[]`, whatever anchors it contains |
| `Extraction.MarkerAmongOtherTokens` | src/services/github_crawler_service.py:41-46 | matching is token membership: extra class tokens before or after the marker keep a `div` matching |
| `Extraction.SearchResultPageYieldsItsLink` | tests/test_github_crawler_service.py:47-60 | a page shaped like the fixtures (`html > body > div.search-title > a`) yields exactly one record: the origin followed by the anchor's `href` text |
| `Extraction.RepositoriesFixture` | tests/test_github_crawler_service.py:47-60 | the repository fixture yields `[{"url": "https://github.com/author/repo"}]` |
| `Extraction.IssuesFixture` | tests/test_github_crawler_service.py:63-76 | the issue fixture yields `https://github.com/author/repo/issues/1`; the rule does not depend on the type |
| `Extraction.WikisFixture` | tests/test_github_crawler_service.py:79-92 | the wiki fixture yields `https://github.com/author/repo/wiki`; the rule does not depend on the type |
| `Extraction.MissingHrefYieldsNoneUrl` | src/services/github_crawler_service.py:49-50 | an anchor without `href` still yields a record, `https://github.comNone`: `HrefText(None)` is the f-string's `None` (:49-50) |
| `Extraction.NestedMatchesBothCount` | src/services/github_crawler_service.py:46-51 | two nested matching `div`s each yield a record, both for the inner anchor |
| `HttpService.CheckStatus` | src/services/http_service.py:14-19 | success exactly for status 200, returning the response unchanged; otherwise an error whose status is the upstream status and whose detail is the fixed prefix followed by the body |
| `HttpService.ErrorCarriesUpstreamAnswer` | src/services/http_service.py:16-19 | for any non-200 answer the error's status and the body behind the detail prefix give back the upstream answer |
| `HttpService.DetailIsInjective` | src/services/http_service.py:16-19 | two non-200 answers that raise the same error are the same answer |
| `HttpService.Network.Get` | src/services/http_service.py:11-12 | issuing a GET appends exactly that request to the record of sent requests, and passes on what the client got: an answer, or the exception it raised |
| `HttpService.SendGetRequest` | src/services/http_service.py:5-19 | exactly one GET is recorded, the one built from the arguments, in success and failure alike; a client exception propagates as a transport error; an answer is classified by `CheckStatus` |
| `CrawlerService.JoinSplitRoundTrip` | src/services/github_crawler_service.py:62 | splitting `",".join(keywords)` at the comma gives back the keywords when there is at least one and none contains a comma |
| `CrawlerService.QueryParamsCarryKeywordsAndType` | src/services/github_crawler_service.py:61-64 | `QueryParams` (:61-64) holds exactly `q` and `type`; `q` splits back into the keywords and `type` is the settings' type verbatim |
| `CrawlerService.FixtureProxyPrefixedTwice` | src/services/github_crawler_service.py:60 | the test suite's proxy `http://localhost:8080` reaches the client as `http://http://localhost:8080` under the key `http://` |
| `CrawlerService.FixtureQueryParams` | src/services/github_crawler_service.py:61-64 | for the test settings the query is `q=python,django` and `type=repositories` |
| `CrawlerService.JobSucceedsExactlyOnSuccessPath` | src/services/github_crawler_service.py:55-80 | `JobOutcome`, how `crawling_job` ends (:55-80), is success exactly when there is a proxy, the client gets an answer, it is 200 and its body parses; a client exception or a non-200 answer ends the job with that error |
| `CrawlerService.ResultStore.constructor` | src/services/github_crawler_service.py:21 | the slot starts empty |
| `CrawlerService.GitHubCrawlerService.constructor` | src/services/github_crawler_service.py:23-27 | keeps the settings and uses the header set `Accept: text/html` |
| `CrawlerService.GitHubCrawlerService.ParseHtml` | src/services/github_crawler_service.py:29-53 | takes no settings; the loop's result equals the selection rule and the tree walk; it has at most one entry per match and only origin-prefixed URLs |
| `CrawlerService.GitHubCrawlerService.CrawlingJob` | src/services/github_crawler_service.py:55-80 | sends nothing for an empty proxy list; otherwise sends one GET via `ProxyFor(p)` = `{"http://": "http://" + p}` (:60) for some listed `p`, with `QueryParams` (:61-64); it ends as `JobOutcome` says, replaces the slot with `Extracted` of the parsed body on success and leaves it unchanged on every failure, including a client exception |
| `CrawlerService.GitHubCrawlerService.StartCrawler` | src/services/github_crawler_service.py:82-87 | the slot is empty when the job is scheduled |
| `CrawlerEndpoints.InvokeGitHubCrawler` | src/api/endpoints/crawler_endpoints.py:10-23 | the answer is always `{"status": "Crawling started."}`, the slot is cleared before it returns, and the job is a new service over the request's settings |
| `CrawlerEndpoints.GetCrawledResults` | src/api/endpoints/crawler_endpoints.py:26-37 | returns the slot as a list, even when it is empty, and changes nothing; by the store invariant every returned URL starts with `https://github.com` |
| `CrawlerEndpoints.GetCrawledResultsIntended` | src/api/endpoints/crawler_endpoints.py:35-37 | reports "No results available." exactly when the slot is empty and otherwise returns the slot, whose URLs all start with `https://github.com` |
| `CrawlerEndpoints.ReadsAgreeOnNonEmptySlot` | src/api/endpoints/crawler_endpoints.py:33-37 | on a non-empty slot both reads return the slot |
| `CrawlerEndpoints.ReadOnFreshProcess` | src/api/endpoints/crawler_endpoints.py:33-37 | on a fresh process the read as written returns `[]` where the intended read gives the status message |
| `CrawlerEndpoints.TriggerCrawlRead` | tests/test_github_crawler_service.py:95-115 | after the trigger and a successful job on the repository page, the read returns `[{"url": "https://github.com/author/repo"}]` |
| `CrawlerEndpoints.FixtureRequest` | src/services/github_crawler_service.py:60-73 | for the test settings the single GET goes to the configured URL with `q=python,django`, `type=repositories`, `Accept: text/html` and proxy `http://http://localhost:8080` |
| `CrawlerEndpoints.ReadWhileCrawling` | src/services/github_crawler_service.py:82-87 | a read after an earlier crawl shows its results; once a new crawl is triggered and has not yet finished, a read shows `[]` |
| `CrawlerEndpoints.SlowerEarlierJobOverwrites` | src/services/github_crawler_service.py:76-87 | last write wins: a job triggered first but finishing last replaces the results of a later-triggered job |
| `CrawlerEndpoints.FailedJobsKeepResults` | src/services/github_crawler_service.py:66-80 | a client exception, a non-200 fetch and a parser error each fail with their error payload and leave the previous results readable |
| `CrawlerEndpoints.NoProxyNoRequest` | src/services/github_crawler_service.py:60 | with no proxy the job fails with `EmptyProxyList`, sends no request, and the slot stays empty |

## Left out

- HTML parsing (BeautifulSoup, `html.parser`) is foreign code. The model starts from an element tree: lower-case tag names, class tokens already split on whitespace, and no text nodes, since text nodes can never be selected. The parser is a `parser: string -> ParseResult` input of `CrawlingJob`.
- The `httpx` client, the proxy transport and the retrieval of the answer are network I/O. What the client gets is the input `reply`: the upstream answer, or the text of the exception the client raises (connect error, proxy error, timeout). `Network` records each request handed to the client.
- The URL encoding of `params` is done inside `httpx`. The model keeps the parameters as a map; `JoinSplitRoundTrip` covers the unencoded `q`.
- `send_get_request`'s `params=None` default is not told apart from an empty map.
- `asyncio.create_task` scheduling is concurrency. A scheduled job is the service returned by the trigger; completing it is a later `CrawlingJob` call, interleaved arbitrarily with other calls. Each method is one atomic step.
- An exception raised inside the background task goes to the event loop's log. Nobody observes it. The model returns it as the job's `Outcome` to whoever completes the job.
- `random.choice` is uniform. The model only promises some member of the proxy list: CrawlingJob's ensures names "some `p` in the proxies", not the distribution.
- FastAPI routing, response models and pydantic validation are framework code. So are CORS, and settings loading from the environment (src/main.py, src/api/routes.py, src/settings.py). `GITHUB_API_URL` is the `apiUrl` given to the service's constructor.
- The `ParsingException` class is not part of this model. Its message is what the model keeps.

## Findings

| source | as written | input that shows it | evidently intended | confidence | as-written member | corrected member |
|---|---|---|---|---|---|---|
| src/api/endpoints/crawler_endpoints.py:35-37 | `results is not []` compares identity with a list built on the spot, so it is always true and the status branch is dead | a read on a fresh process, or right after a trigger (slot empty) | answer `{"status": "No results available."}` when the slot is empty | high (Python identity semantics); not executed | `CrawlerEndpoints.ReadOnFreshProcess` | `CrawlerEndpoints.GetCrawledResultsIntended` |

`GetCrawledResults` models the endpoint as written, and the scenarios use it
because they describe the service as it runs. `ReadsAgreeOnNonEmptySlot`
shows that the two reads differ only on an empty slot.
