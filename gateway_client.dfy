/** The HTTP client of the Swarm gateway: how it normalises its base URL,
    which headers its session carries, which request each operation sends,
    and what it makes of the response. The network exchange itself is a
    parameter: a function from the request sent to what came back. */
module GatewayClient {
  import opened Wrappers
  import opened PyValues
  import Config

  datatype HttpMethod = GET | POST | PATCH

  /** One call on the requests session: verb, URL, JSON body (if any),
      timeout in seconds, and the session headers it goes out with. */
  datatype Request = Request(
    verb: HttpMethod,
    url: string,
    body: Option<Dict>,
    timeout: int,
    headers: map<string, string>)

  /** The body of a response, as `response.json()` finds it. */
  datatype Body = Parsed(value: Json) | Unparseable(msg: string)

  datatype Response = Response(status: int, reason: string, url: string, body: Body)

  /** A response, or a failure before one arrived (connection refused, DNS
      failure, timeout); requests raises the latter as RequestException. */
  datatype Transport = Delivered(response: Response) | TransportError(msg: string)

  const Timeout := 30
  const StampsPath := "/api/v1/stamps"
  const ExtendSuffix := "/extend"

  /** `s.rstrip(c)`: s without every trailing c. */
  function RStrip(s: string, c: char): (r: string)
    ensures |r| <= |s| && r == s[..|r|]
    ensures |r| == 0 || r[|r| - 1] != c
    ensures forall i :: |r| <= i < |s| ==> s[i] == c
  {
    if |s| > 0 && s[|s| - 1] == c then RStrip(s[..|s| - 1], c) else s
  }

  /** A string that does not end in c is left alone, and appending any run
      of c to it gives back the same string once stripped. */
  lemma {:induction false} RStripTrailing(s: string, c: char, n: nat)
    requires |s| == 0 || s[|s| - 1] != c
    ensures RStrip(s + seq(n, _ => c), c) == s
  {
    if n > 0 {
      var t := s + seq(n, _ => c);
      assert t[..|t| - 1] == s + seq(n - 1, _ => c);
      RStripTrailing(s, c, n - 1);
    }
  }

  /** What `raise_for_status` raises with, if anything: only a 4xx or a 5xx
      status is an error. */
  function HttpErrorMessage(r: Response): (m: Option<string>)
    ensures m.Some? <==> 400 <= r.status < 600
    ensures 400 <= r.status < 500 ==> m == Some(IntToString(r.status) + " Client Error: " + r.reason + " for url: " + r.url)
    ensures 500 <= r.status < 600 ==> m == Some(IntToString(r.status) + " Server Error: " + r.reason + " for url: " + r.url)
  {
    if 400 <= r.status < 500 then
      Some(IntToString(r.status) + " Client Error: " + r.reason + " for url: " + r.url)
    else if 500 <= r.status < 600 then
      Some(IntToString(r.status) + " Server Error: " + r.reason + " for url: " + r.url)
    else
      None
  }

  /** The tail every operation shares: `response.raise_for_status()` then
      `return response.json()`. A call returns a body exactly when a
      response arrived with a status outside 400..599 and a JSON body, and
      then returns that body unchanged; whatever it raises otherwise is a
      RequestException, and an error status raises whatever the body is. */
  function Finish(t: Transport): (o: Outcome<Json>)
    ensures o.Ok? <==> t.Delivered? && !(400 <= t.response.status < 600) && t.response.body.Parsed?
    ensures o.Ok? ==> o.value == t.response.body.value
    ensures o.Raised? ==> IsRequestException(o.exc)
    ensures t.Delivered? && 400 <= t.response.status < 600 ==>
              o == Raised(RequestError(HttpErrorMessage(t.response).value))
  {
    match t
    case TransportError(msg) => Raised(RequestError(msg))
    case Delivered(r) =>
      match HttpErrorMessage(r)
      case Some(m) => Raised(RequestError(m))
      case None =>
        match r.body
        case Parsed(v) => Ok(v)
        case Unparseable(msg) => Raised(JsonDecodeError(msg))
  }

  /** The body of a purchase: amount and depth, then the label iff it is
      truthy. */
  predicate IsPurchaseBody(body: Dict, amount: Json, depth: Json, stampLabel: Json)
  {
    && Keys(body) == ["amount", "depth"] + (if Truthy(stampLabel) then ["label"] else [])
    && Get(body, "amount") == Some(amount)
    && Get(body, "depth") == Some(depth)
    && (Truthy(stampLabel) ==> Get(body, "label") == Some(stampLabel))
  }

  class SwarmGatewayClient {
    var baseUrl: string
    var headers: map<string, string>

    /** `__init__`: the override URL when truthy, else the configured one,
        without trailing slashes; the session's own default headers updated
        with the JSON content type and the server's user agent. */
    constructor(settings: Config.Settings, baseUrlOverride: Option<string>, sessionDefaults: map<string, string>)
      ensures baseUrl == RStrip(if baseUrlOverride.Some? && baseUrlOverride.value != "" then baseUrlOverride.value
                                else settings.swarmGatewayUrl, '/')
      ensures |baseUrl| == 0 || baseUrl[|baseUrl| - 1] != '/'
      ensures headers.Keys == sessionDefaults.Keys + {"Content-Type", "User-Agent"}
      ensures headers["Content-Type"] == "application/json"
      ensures headers["User-Agent"] == settings.mcpServerName + "/" + settings.mcpServerVersion
      ensures forall h :: h in sessionDefaults && h != "Content-Type" && h != "User-Agent" ==> headers[h] == sessionDefaults[h]
    {
      var url := if baseUrlOverride.Some? && baseUrlOverride.value != "" then baseUrlOverride.value
                 else settings.swarmGatewayUrl;
      baseUrl := RStrip(url, '/');
      headers := sessionDefaults;
      new;
      // session.headers.update({...}) on the freshly created session
      headers := headers["Content-Type" := "application/json"];
      headers := headers["User-Agent" := settings.mcpServerName + "/" + settings.mcpServerVersion];
    }

    /** `purchase_stamp`: POST the amount and depth, and the label when it
        is truthy, to the stamps collection. The label defaults to None. */
    method PurchaseStamp(amount: Json, depth: Json, exchange: Request -> Transport, stampLabel: Json := JNull)
      returns (request: Request, result: Outcome<Json>)
      ensures request.verb == POST && request.url == baseUrl + StampsPath
      ensures request.body.Some? && IsPurchaseBody(request.body.value, amount, depth, stampLabel)
      ensures request.timeout == Timeout && request.headers == headers
      ensures result == Finish(exchange(request))
    {
      var url := baseUrl + StampsPath;
      var payload: Dict := [("amount", amount), ("depth", depth)];
      if Truthy(stampLabel) {
        payload := payload + [("label", stampLabel)];
      }
      PurchaseBodyShape(amount, depth, stampLabel, payload);
      request := Request(POST, url, Some(payload), Timeout, headers);
      result := Finish(exchange(request));
    }

    /** `get_stamp_details`: GET the stamp's own resource. */
    method GetStampDetails(stampId: Json, exchange: Request -> Transport)
      returns (request: Request, result: Outcome<Json>)
      ensures request == Request(GET, baseUrl + StampsPath + "/" + Show(stampId), None, Timeout, headers)
      ensures result == Finish(exchange(request))
    {
      var url := baseUrl + StampsPath + "/" + Show(stampId);
      request := Request(GET, url, None, Timeout, headers);
      result := Finish(exchange(request));
    }

    /** `list_stamps`: GET the stamps collection. */
    method ListStamps(exchange: Request -> Transport)
      returns (request: Request, result: Outcome<Json>)
      ensures request == Request(GET, baseUrl + StampsPath, None, Timeout, headers)
      ensures result == Finish(exchange(request))
    {
      var url := baseUrl + StampsPath;
      request := Request(GET, url, None, Timeout, headers);
      result := Finish(exchange(request));
    }

    /** `extend_stamp`: PATCH the stamp's extend resource with exactly the
        amount. */
    method ExtendStamp(stampId: Json, amount: Json, exchange: Request -> Transport)
      returns (request: Request, result: Outcome<Json>)
      ensures request.verb == PATCH
      ensures request.url == baseUrl + StampsPath + "/" + Show(stampId) + ExtendSuffix
      ensures request.body.Some? && Keys(request.body.value) == ["amount"]
      ensures request.body.Some? && Get(request.body.value, "amount") == Some(amount)
      ensures request.timeout == Timeout && request.headers == headers
      ensures result == Finish(exchange(request))
    {
      var url := baseUrl + StampsPath + "/" + Show(stampId) + ExtendSuffix;
      var payload: Dict := [("amount", amount)];
      IndexOfIs(payload, "amount", 0);
      request := Request(PATCH, url, Some(payload), Timeout, headers);
      result := Finish(exchange(request));
    }
  }

  lemma PurchaseBodyShape(amount: Json, depth: Json, stampLabel: Json, payload: Dict)
    requires payload == [("amount", amount), ("depth", depth)] + (if Truthy(stampLabel) then [("label", stampLabel)] else [])
    ensures IsPurchaseBody(payload, amount, depth, stampLabel)
  {
    var k := Keys(payload);
    assert k[0] == "amount" && k[1] == "depth";
    IndexOfIs(payload, "amount", 0);
    IndexOfIs(payload, "depth", 1);
    if Truthy(stampLabel) {
      assert k[2] == "label";
      IndexOfIs(payload, "label", 2);
    }
  }
}
