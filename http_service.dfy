/**
 * The upstream GET and the classification of its answer. The HTTP client,
 * the proxy transport and the encoding of query parameters are outside the
 * model: a request is recorded as sent, and what the client got for it (an
 * answer, or an exception) is an input.
 */
module HttpService {
  import opened Wrappers

  /** What the upstream answered: its status code and its body as text. */
  datatype Response = Response(statusCode: int, text: string)

  /** The `HTTPException` raised for a non-200 answer. */
  datatype HttpError = HttpError(statusCode: int, detail: string)

  /** One GET as handed to the HTTP client. */
  datatype GetRequest = GetRequest(
    url: string,
    proxy: map<string, string>,
    params: map<string, string>,
    headers: map<string, string>)

  const SuccessStatus: int := 200
  const DetailPrefix: string := "Request failed.\nDetail: "

  /**
   * The status check of `send_get_request`: a 200 answer is returned as it
   * is; any other answer becomes an error carrying the upstream status and
   * the upstream body behind a fixed prefix.
   */
  function CheckStatus(response: Response): (r: Result<Response, HttpError>)
    ensures r.Ok? <==> response.statusCode == SuccessStatus
    ensures r.Ok? ==> r.value == response
    ensures r.Err? ==> r.error.statusCode == response.statusCode
    ensures r.Err? ==> |r.error.detail| == |DetailPrefix| + |response.text|
    ensures r.Err? ==> r.error.detail[..|DetailPrefix|] == DetailPrefix
    ensures r.Err? ==> r.error.detail[|DetailPrefix|..] == response.text
  {
    if response.statusCode == SuccessStatus then Ok(response)
    else Err(HttpError(response.statusCode, DetailPrefix + response.text))
  }

  /** The upstream body shown in an error's detail, when the detail has the fixed prefix. */
  function DetailBody(detail: string): Option<string>
  {
    if |DetailPrefix| <= |detail| && detail[..|DetailPrefix|] == DetailPrefix
    then Some(detail[|DetailPrefix|..])
    else None
  }

  /** A caller can recover status and body from every error the check produces. */
  lemma ErrorCarriesUpstreamAnswer(response: Response)
    requires response.statusCode != SuccessStatus
    ensures CheckStatus(response).Err?
    ensures CheckStatus(response).error.statusCode == response.statusCode
    ensures DetailBody(CheckStatus(response).error.detail) == Some(response.text)
  {
  }

  /** Distinct bodies give distinct error details, whatever the status. */
  lemma {:induction false} DetailIsInjective(a: Response, b: Response)
    requires a.statusCode != SuccessStatus && b.statusCode != SuccessStatus
    requires CheckStatus(a) == CheckStatus(b)
    ensures a == b
  {
    ErrorCarriesUpstreamAnswer(a);
    ErrorCarriesUpstreamAnswer(b);
  }

  /**
   * How `send_get_request` can fail: the client itself raises (a connect or
   * proxy error, a timeout), or the upstream answers with a status other
   * than 200.
   */
  datatype RequestError = TransportError(reason: string) | StatusError(http: HttpError)

  /** The GETs the process has issued, oldest first. */
  class Network {
    var sent: seq<GetRequest>

    constructor ()
      ensures sent == []
    {
      sent := [];
    }

    /**
     * Issues one GET. `reply` is what the client gets for it: the upstream's
     * answer, or the text of the exception the client raises instead.
     */
    method Get(request: GetRequest, reply: Result<Response, string>) returns (answer: Result<Response, string>)
      modifies this
      ensures sent == old(sent) + [request]
      ensures answer == reply
    {
      sent := sent + [request];
      answer := reply;
    }
  }

  /**
   * `send_get_request`: exactly one GET goes out, whatever happens to it. A
   * client exception propagates; an answer is classified by `CheckStatus`.
   */
  method SendGetRequest(
    net: Network,
    url: string,
    proxy: map<string, string>,
    headers: map<string, string>,
    params: map<string, string>,
    reply: Result<Response, string>)
    returns (r: Result<Response, RequestError>)
    modifies net
    ensures net.sent == old(net.sent) + [GetRequest(url, proxy, params, headers)]
    ensures reply.Err? ==> r == Err(TransportError(reply.error))
    ensures reply.Ok? && CheckStatus(reply.value).Ok? ==> r == Ok(reply.value)
    ensures reply.Ok? && CheckStatus(reply.value).Err? ==> r == Err(StatusError(CheckStatus(reply.value).error))
  {
    var answer := net.Get(GetRequest(url, proxy, params, headers), reply);
    if answer.Err? {
      return Err(TransportError(answer.error));
    }
    var response := answer.value;
    if response.statusCode == SuccessStatus {
      return Ok(response);
    }
    r := Err(StatusError(HttpError(response.statusCode, DetailPrefix + response.text)));
  }
}
