/**
 * The two crawler endpoints: the trigger, which empties the slot and hands
 * back the scheduled job, and the read, which returns the slot.
 */
module CrawlerEndpoints {
  import opened Wrappers
  import opened HtmlTree
  import opened HttpService
  import opened Extraction
  import opened CrawlerService

  /** A read answers with a list of records or with a status message. */
  datatype ReadResponse = Records(results: seq<ResultRecord>) | Status(status: string)

  const StartedStatus: string := "Crawling started."
  const NoResultsStatus: string := "No results available."

  /**
   * `invoke_github_crawler`: build a service for the request, clear the slot
   * and acknowledge at once. The returned service stands for the scheduled
   * task; its `CrawlingJob` may run at any later point.
   */
  method InvokeGitHubCrawler(store: ResultStore, apiUrl: string, settings: GitHubCrawlerSettings)
    returns (ack: map<string, string>, job: GitHubCrawlerService)
    modifies store
    ensures ack == map["status" := StartedStatus]
    ensures store.Valid() && store.lastCrawledResults == []
    ensures fresh(job) && job.store == store
    ensures job.crawlerSettings == settings && job.apiUrl == apiUrl && job.headers == RequestHeaders
  {
    job := new GitHubCrawlerService(settings, apiUrl, store);
    job.StartCrawler();
    ack := map["status" := StartedStatus];
  }

  /**
   * `get_crawled_results` as written: `results is not []` compares identity
   * with a list built on the spot, which always differs, so the slot is
   * returned even when it is empty and the status branch is never taken.
   */
  method GetCrawledResults(store: ResultStore) returns (r: ReadResponse)
    requires store.Valid()
    ensures r == Records(store.lastCrawledResults)
    ensures r.Records?
    ensures forall rec :: rec in r.results ==> IsGitHubUrl(rec.url)
  {
    var results := store.lastCrawledResults;
    var isNotSameObject := true; // no stored list is the object that `[]` creates
    if isNotSameObject {
      return Records(results);
    }
    r := Status(NoResultsStatus);
  }

  /** The read as evidently intended: an empty slot is reported with a status message. */
  method GetCrawledResultsIntended(store: ResultStore) returns (r: ReadResponse)
    requires store.Valid()
    ensures r.Status? <==> store.lastCrawledResults == []
    ensures r.Status? ==> r.status == NoResultsStatus
    ensures r.Records? ==> r.results == store.lastCrawledResults
    ensures r.Records? ==> forall rec :: rec in r.results ==> IsGitHubUrl(rec.url)
  {
    var results := store.lastCrawledResults;
    if results != [] {
      return Records(results);
    }
    r := Status(NoResultsStatus);
  }

  /** The two reads differ only on an empty slot. */
  method ReadsAgreeOnNonEmptySlot(store: ResultStore) returns (asWritten: ReadResponse, intended: ReadResponse)
    requires store.Valid() && store.lastCrawledResults != []
    ensures asWritten == intended == Records(store.lastCrawledResults)
  {
    asWritten := GetCrawledResults(store);
    intended := GetCrawledResultsIntended(store);
  }

  /** On a fresh process the read returns an empty list, not "No results available.". */
  method ReadOnFreshProcess() returns (asWritten: ReadResponse, intended: ReadResponse)
    ensures asWritten == Records([])
    ensures intended == Status(NoResultsStatus)
  {
    var store := new ResultStore();
    asWritten := GetCrawledResults(store);
    intended := GetCrawledResultsIntended(store);
  }

  // ---------------------------------------------------------------------
  // Scenarios over the shared slot
  // ---------------------------------------------------------------------

  /**
   * The end-to-end run of the test suite: trigger with the fixture settings,
   * let the job fetch the repository page, then read.
   */
  method TriggerCrawlRead(page: seq<Element>) returns (ack: map<string, string>, read: ReadResponse)
    requires page == SearchResultPage(FixtureClasses, Some("/author/repo"))
    ensures ack == map["status" := "Crawling started."]
    ensures read == Records([ResultRecord("https://github.com/author/repo")])
  {
    var store := new ResultStore();
    var net := new Network();
    var settings := GitHubCrawlerSettings(["python", "django"], ["http://localhost:8080"], "repositories");
    var job;
    ack, job := InvokeGitHubCrawler(store, "https://github.com/search/", settings);
    RepositoriesFixture(page);
    var outcome := job.CrawlingJob(net, Ok(Response(SuccessStatus, "<html>...</html>")), (text: string) => Parsed(page));
    read := GetCrawledResults(store);
  }

  /**
   * The one GET of that run: the keywords joined by a comma, the type
   * verbatim, and the fixture proxy behind a second `http://` prefix (the
   * fixture's proxy already carries the scheme).
   */
  method FixtureRequest(settings: GitHubCrawlerSettings) returns (sent: seq<GetRequest>)
    requires settings == GitHubCrawlerSettings(["python", "django"], ["http://localhost:8080"], "repositories")
    ensures |sent| == 1
    ensures sent[0].url == "https://github.com/search/"
    ensures sent[0].params.Keys == {"q", "type"}
    ensures sent[0].params["q"] == "python,django" && sent[0].params["type"] == "repositories"
    ensures sent[0].proxy.Keys == {"http://"} && sent[0].proxy["http://"] == "http://http://localhost:8080"
    ensures sent[0].headers == RequestHeaders
  {
    var store := new ResultStore();
    var net := new Network();
    FixtureQueryParams(settings);
    var ack, job := InvokeGitHubCrawler(store, "https://github.com/search/", settings);
    var outcome := job.CrawlingJob(net, Ok(Response(404, "")), (text: string) => Parsed([]));
    sent := net.sent;
    ghost var p :| p in settings.proxies &&
      sent == [GetRequest("https://github.com/search/", ProxyFor(p), QueryParams(settings), RequestHeaders)];
    FixtureProxyPrefixedTwice(settings.proxies, p);
  }

  /** Between the trigger and the job's completion a read sees an empty list. */
  method ReadWhileCrawling(previous: seq<Element>, settings: GitHubCrawlerSettings, apiUrl: string)
    returns (before: ReadResponse, during: ReadResponse)
    requires |settings.proxies| > 0
    ensures before == Records(Extracted(previous))
    ensures during == Records([])
  {
    var store := new ResultStore();
    var net := new Network();
    var ack, first := InvokeGitHubCrawler(store, apiUrl, settings);
    var done := first.CrawlingJob(net, Ok(Response(SuccessStatus, "")), (text: string) => Parsed(previous));
    before := GetCrawledResults(store);
    var ack', second := InvokeGitHubCrawler(store, apiUrl, settings);
    during := GetCrawledResults(store);
  }

  /**
   * Last write wins: a job triggered first but finishing last overwrites the
   * results of a job triggered after it.
   */
  method SlowerEarlierJobOverwrites(
    settingsA: GitHubCrawlerSettings, docA: seq<Element>,
    settingsB: GitHubCrawlerSettings, docB: seq<Element>, apiUrl: string)
    returns (afterB: ReadResponse, afterA: ReadResponse)
    requires |settingsA.proxies| > 0 && |settingsB.proxies| > 0
    ensures afterB == Records(Extracted(docB))
    ensures afterA == Records(Extracted(docA))
  {
    var store := new ResultStore();
    var net := new Network();
    var ackA, jobA := InvokeGitHubCrawler(store, apiUrl, settingsA);
    var ackB, jobB := InvokeGitHubCrawler(store, apiUrl, settingsB);
    var doneB := jobB.CrawlingJob(net, Ok(Response(SuccessStatus, "b")), (text: string) => Parsed(docB));
    afterB := GetCrawledResults(store);
    var doneA := jobA.CrawlingJob(net, Ok(Response(SuccessStatus, "a")), (text: string) => Parsed(docA));
    afterA := GetCrawledResults(store);
  }

  /** A client exception, a non-200 answer or a parser error leaves the previous results readable. */
  method FailedJobsKeepResults(
    settings: GitHubCrawlerSettings, doc: seq<Element>, status: int, body: string, reason: string)
    returns (transportFailure: Outcome<CrawlError>, fetchFailure: Outcome<CrawlError>,
             parseFailure: Outcome<CrawlError>, read: ReadResponse)
    requires |settings.proxies| > 0 && status != SuccessStatus
    ensures transportFailure == Fail(TransportFailed(reason))
    ensures fetchFailure == Fail(UpstreamFailed(HttpError(status, "Request failed.\nDetail: " + body)))
    ensures parseFailure == Fail(ParsingFailed("HTML response processing failed: " + reason))
    ensures read == Records(Extracted(doc))
  {
    var store := new ResultStore();
    var net := new Network();
    var ack, job := InvokeGitHubCrawler(store, "https://github.com/search/", settings);
    var ok := job.CrawlingJob(net, Ok(Response(SuccessStatus, "page")), (text: string) => Parsed(doc));
    transportFailure := job.CrawlingJob(net, Err(reason), (text: string) => Parsed([]));
    fetchFailure := job.CrawlingJob(net, Ok(Response(status, body)), (text: string) => Parsed([]));
    parseFailure := job.CrawlingJob(net, Ok(Response(SuccessStatus, body)), (text: string) => Unparsable(reason));
    read := GetCrawledResults(store);
  }

  /** With no proxy the job fails before anything is sent, and the slot stays empty. */
  method NoProxyNoRequest(keywords: seq<string>, searchType: string)
    returns (outcome: Outcome<CrawlError>, read: ReadResponse, sent: seq<GetRequest>)
    ensures outcome == Fail(EmptyProxyList)
    ensures read == Records([])
    ensures sent == []
  {
    var store := new ResultStore();
    var net := new Network();
    var ack, job := InvokeGitHubCrawler(store, "https://github.com/search/", GitHubCrawlerSettings(keywords, [], searchType));
    outcome := job.CrawlingJob(net, Ok(Response(SuccessStatus, "")), (text: string) => Parsed([]));
    read := GetCrawledResults(store);
    sent := net.sent;
  }
}
