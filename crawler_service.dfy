/**
 * The crawl job of `GitHubCrawlerService` and the process-wide slot that
 * holds the results of the last crawl.
 *
 * Python keeps the slot in a class variable; here it is one `ResultStore`
 * object that every service instance shares. Scheduling the job with
 * `asyncio.create_task` is modelled by letting the caller run
 * `CrawlingJob` later, interleaved arbitrarily with other triggers and reads.
 */
module CrawlerService {
  import opened Wrappers
  import opened HtmlTree
  import opened HttpService
  import opened Extraction

  /** The request body of the trigger endpoint. */
  datatype GitHubCrawlerSettings = GitHubCrawlerSettings(
    keywords: seq<string>,
    proxies: seq<string>,
    searchType: string)

  /** What the HTML parser made of a response body: a document, or the error it raised. */
  datatype ParseResult = Parsed(doc: seq<Element>) | Unparsable(reason: string)

  /** The ways a crawl job can end without storing results. */
  datatype CrawlError =
    | EmptyProxyList                  // `choice` on an empty list raises
    | TransportFailed(reason: string) // the HTTP client raised before any answer
    | UpstreamFailed(http: HttpError) // raised by `send_get_request` for a non-200 answer
    | ParsingFailed(message: string)  // the `ParsingException` wrapping a parser error

  const ProxyScheme: string := "http://"
  const KeywordSeparator: char := ','
  const ParsingFailurePrefix: string := "HTML response processing failed: "
  const RequestHeaders: map<string, string> := map["Accept" := "text/html"]

  // ---------------------------------------------------------------------
  // Request construction
  // ---------------------------------------------------------------------

  /** Python's `sep.join(parts)`. */
  function Join(parts: seq<string>, sep: string): string
  {
    if |parts| == 0 then ""
    else if |parts| == 1 then parts[0]
    else parts[0] + sep + Join(parts[1..], sep)
  }

  /** Python's `s.split(sep)` for a one-character separator: the inverse of `Join`. */
  function Split(s: string, sep: char): (r: seq<string>)
    ensures |r| >= 1
  {
    if s == [] then [""]
    else
      var rest := Split(s[1..], sep);
      if s[0] == sep then [""] + rest
      else [[s[0]] + rest[0]] + rest[1..]
  }

  lemma {:induction false} SplitWithoutSeparator(a: string, sep: char)
    requires sep !in a
    ensures Split(a, sep) == [a]
  {
    if a != [] {
      SplitWithoutSeparator(a[1..], sep);
      assert [a[0]] + a[1..] == a;
    }
  }

  lemma {:induction false} SplitAtFirstSeparator(a: string, sep: char, b: string)
    requires sep !in a
    ensures Split(a + [sep] + b, sep) == [a] + Split(b, sep)
  {
    if a == [] {
      assert a + [sep] + b == [sep] + b;
      assert ([sep] + b)[1..] == b;
    } else {
      var s := a + [sep] + b;
      assert s[0] == a[0];
      assert s[1..] == a[1..] + [sep] + b;
      SplitAtFirstSeparator(a[1..], sep, b);
      assert [a[0]] + a[1..] == a;
    }
  }

  /**
   * The query term `q` gives back the keyword list when it is split at the
   * separator, provided there is at least one keyword and none contains the
   * separator (`",".join([])` and `",".join([""])` are both empty).
   */
  lemma {:induction false} JoinSplitRoundTrip(keywords: seq<string>, sep: char)
    requires |keywords| >= 1
    requires forall i :: 0 <= i < |keywords| ==> sep !in keywords[i]
    ensures Split(Join(keywords, [sep]), sep) == keywords
  {
    if |keywords| == 1 {
      SplitWithoutSeparator(keywords[0], sep);
    } else {
      JoinSplitRoundTrip(keywords[1..], sep);
      SplitAtFirstSeparator(keywords[0], sep, Join(keywords[1..], [sep]));
      assert [keywords[0]] + keywords[1..] == keywords;
    }
  }

  /** The proxy mapping handed to the HTTP client for a chosen proxy. */
  function ProxyFor(proxy: string): map<string, string>
  {
    map[ProxyScheme := ProxyScheme + proxy]
  }

  /** The query parameters: joined keywords and the result type, verbatim. */
  function QueryParams(settings: GitHubCrawlerSettings): map<string, string>
  {
    map["q" := Join(settings.keywords, [KeywordSeparator]), "type" := settings.searchType]
  }

  lemma QueryParamsCarryKeywordsAndType(settings: GitHubCrawlerSettings)
    requires |settings.keywords| >= 1
    requires forall i :: 0 <= i < |settings.keywords| ==> KeywordSeparator !in settings.keywords[i]
    ensures QueryParams(settings).Keys == {"q", "type"}
    ensures Split(QueryParams(settings)["q"], KeywordSeparator) == settings.keywords
    ensures QueryParams(settings)["type"] == settings.searchType
  {
    JoinSplitRoundTrip(settings.keywords, KeywordSeparator);
  }

  /** The query of the test suite's settings: `q=python,django&type=repositories`. */
  lemma FixtureQueryParams(settings: GitHubCrawlerSettings)
    requires settings.keywords == ["python", "django"] && settings.searchType == "repositories"
    ensures QueryParams(settings).Keys == {"q", "type"}
    ensures QueryParams(settings)["q"] == "python,django"
    ensures QueryParams(settings)["type"] == "repositories"
  {
    var ks := settings.keywords;
    assert ks[1..] == ["django"];
    assert Join(ks[1..], [KeywordSeparator]) == "django";
    assert "python" + [KeywordSeparator] + "django" == "python,django";
  }

  /** The test suite's proxy already carries the scheme, so the client gets it prefixed twice. */
  lemma FixtureProxyPrefixedTwice(proxies: seq<string>, p: string)
    requires proxies == ["http://localhost:8080"] && p in proxies
    ensures ProxyFor(p).Keys == {"http://"}
    ensures ProxyFor(p)["http://"] == "http://http://localhost:8080"
  {
    assert p == "http://localhost:8080";
  }

  // ---------------------------------------------------------------------
  // What a job does, as a function of its inputs
  // ---------------------------------------------------------------------

  /**
   * How `crawling_job` ends: it fails on the first of an empty proxy list,
   * a client exception, a non-200 answer and a parser error, and succeeds
   * otherwise.
   */
  function JobOutcome(settings: GitHubCrawlerSettings, reply: Result<Response, string>, parser: string -> ParseResult)
    : Outcome<CrawlError>
  {
    if |settings.proxies| == 0 then Fail(EmptyProxyList)
    else match reply
      case Err(reason) => Fail(TransportFailed(reason))
      case Ok(answer) =>
        match CheckStatus(answer)
        case Err(e) => Fail(UpstreamFailed(e))
        case Ok(response) =>
          match parser(response.text)
          case Unparsable(reason) => Fail(ParsingFailed(ParsingFailurePrefix + reason))
          case Parsed(_) => Pass
  }

  /**
   * A job succeeds exactly when a proxy exists, the client gets an answer,
   * the answer is 200 and its body parses; a client exception or a non-200
   * answer ends the job with that error.
   */
  lemma JobSucceedsExactlyOnSuccessPath(
    settings: GitHubCrawlerSettings, reply: Result<Response, string>, parser: string -> ParseResult)
    ensures JobOutcome(settings, reply, parser).Pass? <==>
      |settings.proxies| > 0 && reply.Ok? && reply.value.statusCode == SuccessStatus
      && parser(reply.value.text).Parsed?
    ensures |settings.proxies| > 0 && reply.Err? ==>
      JobOutcome(settings, reply, parser) == Fail(TransportFailed(reply.error))
    ensures |settings.proxies| > 0 && reply.Ok? && reply.value.statusCode != SuccessStatus ==>
      JobOutcome(settings, reply, parser)
        == Fail(UpstreamFailed(HttpError(reply.value.statusCode, DetailPrefix + reply.value.text)))
  {
  }

  /** True of every URL that the slot may hold. */
  predicate IsGitHubUrl(url: string)
  {
    |Origin| <= |url| && url[..|Origin|] == Origin
  }

  // ---------------------------------------------------------------------
  // The shared slot and the service
  // ---------------------------------------------------------------------

  /** `GitHubCrawlerService.last_crawled_results`. */
  class ResultStore {
    var lastCrawledResults: seq<ResultRecord>

    /** Every stored record points into the origin. */
    ghost predicate Valid()
      reads this
    {
      forall r :: r in lastCrawledResults ==> IsGitHubUrl(r.url)
    }

    /** Empty at process start. */
    constructor ()
      ensures Valid() && lastCrawledResults == []
    {
      lastCrawledResults := [];
    }
  }

  class GitHubCrawlerService {
    const crawlerSettings: GitHubCrawlerSettings
    const headers: map<string, string>
    /** The configured search endpoint (`GITHUB_API_URL`). */
    const apiUrl: string
    const store: ResultStore

    constructor (crawlerSettings: GitHubCrawlerSettings, apiUrl: string, store: ResultStore)
      ensures this.crawlerSettings == crawlerSettings && this.apiUrl == apiUrl && this.store == store
      ensures headers == RequestHeaders
    {
      this.crawlerSettings := crawlerSettings;
      this.apiUrl := apiUrl;
      this.store := store;
      this.headers := RequestHeaders;
    }

    /**
     * `parse_html`: walks the matching `div`s in document order and collects
     * the URL of each one's first anchor. It reads no settings.
     */
    static method ParseHtml(doc: seq<Element>) returns (searchedResults: seq<ResultRecord>)
      ensures searchedResults == Extracted(doc)
      ensures searchedResults == ExtractForest(doc)
      ensures |searchedResults| <= |FindAll(Descendants(doc))|
      ensures forall r :: r in searchedResults ==> IsGitHubUrl(r.url)
    {
      var matches := FindAll(Descendants(doc));
      searchedResults := [];
      for i := 0 to |matches|
        invariant searchedResults == Emit(matches[..i])
      {
        var aTag := Find(matches[i], AnchorTag);
        if aTag.Some? {
          searchedResults := searchedResults + [ResultRecord(Origin + HrefText(aTag.value.href))];
        }
        assert matches[..i + 1][..i] == matches[..i];
      }
      assert matches[..|matches|] == matches;
      ExtractedIsTreeWalk(doc);
      AtMostOnePerMatch(doc);
      ExtractedUrlsHaveOrigin(doc);
    }

    /**
     * `crawling_job`: choose a proxy, send one GET, parse the body, and on
     * success replace the slot wholesale. Every failure leaves the slot as
     * it was. `reply` is what the HTTP client gets (an answer or the text of
     * the exception it raises) and `parser` the HTML parser.
     */
    method CrawlingJob(net: Network, reply: Result<Response, string>, parser: string -> ParseResult)
      returns (outcome: Outcome<CrawlError>)
      requires store.Valid()
      modifies store, net
      ensures store.Valid()
      ensures outcome == JobOutcome(crawlerSettings, reply, parser)
      ensures outcome.Pass? ==>
        reply.Ok? && parser(reply.value.text).Parsed? &&
        store.lastCrawledResults == Extracted(parser(reply.value.text).doc)
      ensures outcome.Fail? ==> store.lastCrawledResults == old(store.lastCrawledResults)
      ensures |crawlerSettings.proxies| == 0 ==> net.sent == old(net.sent)
      ensures |crawlerSettings.proxies| > 0 ==>
        exists p :: p in crawlerSettings.proxies &&
          net.sent == old(net.sent) + [GetRequest(apiUrl, ProxyFor(p), QueryParams(crawlerSettings), headers)]
    {
      if |crawlerSettings.proxies| == 0 {
        return Fail(EmptyProxyList);
      }
      assert crawlerSettings.proxies[0] in crawlerSettings.proxies;
      var chosen :| chosen in crawlerSettings.proxies;
      var proxy := ProxyFor(chosen);
      var params := QueryParams(crawlerSettings);
      var fetched := SendGetRequest(net, apiUrl, proxy, headers, params, reply);
      if fetched.Err? {
        match fetched.error
        case TransportError(reason) => return Fail(TransportFailed(reason));
        case StatusError(e) => return Fail(UpstreamFailed(e));
      }
      var responseText := fetched.value.text;
      match parser(responseText)
      case Unparsable(reason) =>
        outcome := Fail(ParsingFailed(ParsingFailurePrefix + reason));
      case Parsed(doc) =>
        var results := ParseHtml(doc);
        store.lastCrawledResults := results;
        outcome := Pass;
    }

    /** `start_crawler`: empty the slot; the job itself runs later (`CrawlingJob`). */
    method StartCrawler()
      modifies store
      ensures store.Valid() && store.lastCrawledResults == []
    {
      store.lastCrawledResults := [];
    }
  }
}
