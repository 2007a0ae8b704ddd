/**
  The HTTP facade of twilioClient/client.go with the network taken out.

  A call is modelled by the request it would send (`Request`) and by how it
  turns the server's answer (`Exchange`, supplied by the caller) into a
  result. The three verbs share one answer-classification rule for GET and
  POST and a separate, stricter one for DELETE.
 */
module Client {
  import opened Wrappers

  /** Go's `url.Values`: each key carries a list of values. A nil
      `url.Values` is `None` where the source can receive one. */
  type Values = map<string, seq<string>>

  /** The encoded content of possibly-nil values: nil encodes like an empty map. */
  function OrEmpty(v: Option<Values>): Values {
    if v.Some? then v.value else map[]
  }

  datatype Verb = GET | POST | DELETE

  /**
    What reaches the server. For GET, `url` is the target up to its query
    string and `params` the query that `get` puts there instead; for POST,
    `url` is the target as given and `params` the form-encoded body; for
    DELETE, `url` is the target and `params` is empty.
   */
  datatype Request = Request(verb: Verb, url: string, params: Values)

  /** The part of a URL before its query string or fragment. */
  function UrlWithoutQuery(u: string): (r: string)
    ensures |r| <= |u| && r == u[..|r|]
    ensures forall i :: 0 <= i < |r| ==> r[i] != '?' && r[i] != '#'
    ensures |r| < |u| ==> u[|r|] == '?' || u[|r|] == '#'
  {
    if u == [] || u[0] == '?' || u[0] == '#' then [] else [u[0]] + UrlWithoutQuery(u[1..])
  }

  /** `get` replaces whatever query the target carries by the encoded
      `queryParams`; a nil `queryParams` becomes empty values first. */
  function GetRequest(url: string, query: Option<Values>): (r: Request)
    ensures r.verb == GET && r.params == OrEmpty(query)
    ensures r.url == UrlWithoutQuery(url)
    ensures |r.url| <= |url| && r.url == url[..|r.url|]
  {
    Request(GET, UrlWithoutQuery(url), OrEmpty(query))
  }

  /** `post` sends `data.Encode()` as a form body to the target. */
  function PostRequest(url: string, form: Option<Values>): (r: Request)
    ensures r.verb == POST && r.url == url && r.params == OrEmpty(form)
  {
    Request(POST, url, OrEmpty(form))
  }

  function DeleteRequest(url: string): (r: Request)
    ensures r.verb == DELETE && r.url == url && r.params == map[]
  {
    Request(DELETE, url, map[])
  }

  /** The structured error body of the API: what `json.Unmarshal` left in
      a fresh `TwilioError`. */
  datatype TwilioError = TwilioError(code: int, message: string, moreInfo: string, status: int)

  /** The error values the facade and the page iterator return. */
  datatype ClientError =
    | Transport(reason: string)   // building, sending or reading the request failed
    | Server(message: string)     // `Error{"Server Error"}` on status 500
    | Api(details: TwilioError)   // `*TwilioError` on any other non-200/201 status
    | Decode(reason: string)      // the success body did not decode into the target
    | DeleteStatus(status: int)   // `delete` saw a status other than 204
    | NoMoreResults               // the page iterator's sentinel

  /** A response body as the two decoders would see it: decoded into the
      caller's target, and decoded into a `TwilioError` (with whether that
      decode reported success). */
  datatype Body<T> = Body(target: Result<T, string>, errorFields: TwilioError, errorDecodes: bool)

  /** The server's answer to one request, or a transport failure. */
  datatype Exchange<T> = Failed(reason: string) | Response(status: int, body: Body<T>)

  /** A modelled call: the request sent and the result returned. */
  datatype Call<T> = Call(request: Request, outcome: Result<T, ClientError>)

  predicate IsSuccessStatus(status: int) {
    status == 200 || status == 201
  }

  /** How `get` and `post` turn an answer into their result. */
  function Classify<T>(x: Exchange<T>): (r: Result<T, ClientError>)
    ensures r.Ok? <==> x.Response? && IsSuccessStatus(x.status) && x.body.target.Ok?
    ensures r.Ok? ==> r.value == x.body.target.value
    ensures x.Failed? ==> r == Err(Transport(x.reason))
    ensures x.Response? && x.status == 500 ==> r == Err(Server("Server Error"))
    ensures x.Response? && !IsSuccessStatus(x.status) && x.status != 500 ==>
              r == Err(Api(x.body.errorFields))
    ensures x.Response? && IsSuccessStatus(x.status) && x.body.target.Err? ==>
              r == Err(Decode(x.body.target.error))
  {
    match x
    case Failed(reason) => Err(Transport(reason))
    case Response(status, body) =>
      if status != 200 && status != 201 then
        if status == 500 then Err(Server("Server Error")) else Err(Api(body.errorFields))
      else
        match body.target
        case Ok(v) => Ok(v)
        case Err(e) => Err(Decode(e))
  }

  /** How `delete` turns an answer into its result; the body is never read. */
  function ClassifyDelete<T>(x: Exchange<T>): (r: Result<(), ClientError>)
    ensures r.Ok? <==> x.Response? && x.status == 204
    ensures x.Failed? ==> r == Err(Transport(x.reason))
    ensures x.Response? && x.status != 204 ==> r == Err(DeleteStatus(x.status))
  {
    match x
    case Failed(reason) => Err(Transport(reason))
    case Response(status, _) =>
      if status != 204 then Err(DeleteStatus(status)) else Ok(())
  }

  /** `client.get(targetUrl, queryParams, v)`. */
  function Get<T>(url: string, query: Option<Values>, answer: Exchange<T>): (call: Call<T>)
    ensures call.request.verb == GET && call.request.params == OrEmpty(query)
    ensures call.request.url == UrlWithoutQuery(url)
    ensures call.outcome == Classify(answer)
    ensures call.outcome.Ok? <==> answer.Response? && IsSuccessStatus(answer.status) && answer.body.target.Ok?
  {
    Call(GetRequest(url, query), Classify(answer))
  }

  /** `client.post(targetUrl, data, v)`. */
  function Post<T>(url: string, form: Option<Values>, answer: Exchange<T>): (call: Call<T>)
    ensures call.request == Request(POST, url, OrEmpty(form))
    ensures call.outcome == Classify(answer)
    ensures call.outcome.Ok? <==> answer.Response? && IsSuccessStatus(answer.status) && answer.body.target.Ok?
  {
    Call(PostRequest(url, form), Classify(answer))
  }

  /** `client.delete(targetUrl)`. */
  function Delete<T>(url: string, answer: Exchange<T>): (call: Call<()>)
    ensures call.request == Request(DELETE, url, map[])
    ensures call.outcome.Ok? <==> answer.Response? && answer.status == 204
    ensures answer.Response? && answer.status != 204 ==> call.outcome == Err(DeleteStatus(answer.status))
    ensures answer.Failed? ==> call.outcome == Err(Transport(answer.reason))
  {
    Call(DeleteRequest(url), ClassifyDelete(answer))
  }

  /** Status 500 hides the body: no two bodies give different results. */
  lemma ServerErrorIgnoresBody<T>(b1: Body<T>, b2: Body<T>)
    ensures Classify(Response(500, b1)) == Classify(Response(500, b2)) == Err(Server("Server Error"))
  {
  }

  /** A failure to decode the error body is dropped: the result is the
      same whether or not that decode succeeded. */
  lemma ErrorBodyDecodeFailureDropped<T>(status: int, target: Result<T, string>, fields: TwilioError)
    requires !IsSuccessStatus(status) && status != 500
    ensures Classify(Response(status, Body(target, fields, false)))
         == Classify(Response(status, Body(target, fields, true)))
         == Err(Api(fields))
  {
  }

  /** A nil query and an empty one send the same request. */
  lemma NilQueryIsEmpty<T>(url: string, answer: Exchange<T>)
    ensures Get(url, None, answer) == Get(url, Some(map[]), answer)
  {
  }

  /** A GET target keeps its address exactly when it has no query string
      or fragment; otherwise that part is replaced by the parameters. */
  lemma {:induction false} GetKeepsPlainUrl(url: string, query: Option<Values>)
    ensures GetRequest(url, query).url == url <==> (forall i :: 0 <= i < |url| ==> url[i] != '?' && url[i] != '#')
  {
    var r := UrlWithoutQuery(url);
    if forall i :: 0 <= i < |url| ==> url[i] != '?' && url[i] != '#' {
      assert |r| == |url|;
    }
  }

  // ---------------------------------------------------------------------
  // Configuration: NewTwilioClient

  const DefaultBaseUrl := "https://api.twilio.com/2010-04-01"
  const DefaultChatBaseUrl := "https://chat.twilio.com/v2/"
  const DefaultNotifyBaseUrl := "https://notify.twilio.com/v1/"
  const DefaultTimeoutSeconds := 60
  const NanosPerSecond := 1_000_000_000

  const Int64Min := -0x8000_0000_0000_0000
  const Int64Max := 0x7FFF_FFFF_FFFF_FFFF

  type Int64 = x: int | -0x8000_0000_0000_0000 <= x <= 0x7FFF_FFFF_FFFF_FFFF

  /** Two's-complement wrap-around of a 64-bit signed product: the one
      value in range that agrees with `x` modulo 2^64. */
  function WrapInt64(x: int): (r: Int64)
    ensures (x - r) % 0x1_0000_0000_0000_0000 == 0
    ensures Int64Min <= x <= Int64Max ==> r == x
  {
    (x + 0x8000_0000_0000_0000) % 0x1_0000_0000_0000_0000 - 0x8000_0000_0000_0000
  }

  /**
    The process environment as `NewTwilioClient` reads it. `apiWaitSeconds`
    is what `strconv.Atoi` made of TWILIO_API_WAIT, its error discarded: 0
    when the variable is unset or not a number, and the largest or smallest
    int64 when the numeral is out of range.
   */
  datatype Environment = Environment(
    baseUrl: string, chatBaseUrl: string, notifyBaseUrl: string, apiWaitSeconds: Int64)

  /** `TwilioClient`; it is never changed after construction, so its
      accessors (`AccountSid()` … `NotifyBaseUrl()`) are the field selectors. */
  datatype TwilioClient = TwilioClient(
    accountSid: string, authToken: string,
    baseUrl: string, chatBaseUrl: string, notifyBaseUrl: string,
    retryTimeoutNanos: Int64)

  /** `os.Getenv(name)` with a default for the empty string. */
  function OrDefault(value: string, default: string): string {
    if value == "" then default else value
  }

  function NewTwilioClient(accountSid: string, authToken: string, env: Environment): (c: TwilioClient)
    ensures c.accountSid == accountSid && c.authToken == authToken
    ensures c.baseUrl != "" && c.chatBaseUrl != "" && c.notifyBaseUrl != ""
    ensures env.baseUrl != "" ==> c.baseUrl == env.baseUrl
    ensures env.baseUrl == "" ==> c.baseUrl == "https://api.twilio.com/2010-04-01"
    ensures env.chatBaseUrl != "" ==> c.chatBaseUrl == env.chatBaseUrl
    ensures env.chatBaseUrl == "" ==> c.chatBaseUrl == "https://chat.twilio.com/v2/"
    ensures env.notifyBaseUrl != "" ==> c.notifyBaseUrl == env.notifyBaseUrl
    ensures env.notifyBaseUrl == "" ==> c.notifyBaseUrl == "https://notify.twilio.com/v1/"
    ensures env.apiWaitSeconds == 0 ==> c.retryTimeoutNanos == 60 * 1_000_000_000
    ensures env.apiWaitSeconds != 0 ==> c.retryTimeoutNanos == WrapInt64(env.apiWaitSeconds * NanosPerSecond)
    ensures -9_223_372_036 <= env.apiWaitSeconds <= 9_223_372_036 && env.apiWaitSeconds != 0 ==>
              c.retryTimeoutNanos == env.apiWaitSeconds * 1_000_000_000
  {
    var timeoutSec := if env.apiWaitSeconds == 0 then DefaultTimeoutSeconds else env.apiWaitSeconds;
    TwilioClient(
      accountSid, authToken,
      OrDefault(env.baseUrl, DefaultBaseUrl),
      OrDefault(env.chatBaseUrl, DefaultChatBaseUrl),
      OrDefault(env.notifyBaseUrl, DefaultNotifyBaseUrl),
      WrapInt64(timeoutSec * NanosPerSecond))
  }

  /** `time.Duration(n) * time.Second` overflows for a large enough wait:
      2^55 seconds wraps to a zero timeout. */
  lemma HugeWaitWrapsToZero(accountSid: string, authToken: string, env: Environment)
    requires env.apiWaitSeconds == 0x80_0000_0000_0000
    ensures NewTwilioClient(accountSid, authToken, env).retryTimeoutNanos == 0
  {
    var x := 0x80_0000_0000_0000 * 1_000_000_000;
    assert x == 0x1_0000_0000_0000_0000 * 1_953_125;
    assert (x + 0x8000_0000_0000_0000) % 0x1_0000_0000_0000_0000 == 0x8000_0000_0000_0000;
  }
}
