/**
 * The request executor: a client instance that owns a header dictionary and a
 * content-type flag, finalizes the headers before every call, hands the request
 * to a transport, and folds whatever happens into one `Response`.
 *
 * The transport (the engine's web request object) and the JSON codec are not
 * part of this model: they arrive as input values (`Transport`, `decode`,
 * `encode`) that say what those collaborators do on this call.
 */
module DkHttp {
  import opened Wrappers
  import opened ApiResponse

  // ---------------------------------------------------------------------------
  // Integer widths
  // ---------------------------------------------------------------------------

  /** The transport reports its status code as a 64-bit `long`. */
  newtype int64 = x: int | -0x8000_0000_0000_0000 <= x < 0x8000_0000_0000_0000

  /** C#'s unchecked `(int)` conversion of a `long`: keeps the low 32 bits as two's complement. */
  function ToInt32(x: int64): (r: int)
    ensures -0x8000_0000 <= r < 0x8000_0000
    ensures (r - x as int) % 0x1_0000_0000 == 0
    ensures -0x8000_0000 <= x < 0x8000_0000 ==> r == x as int
  {
    (x as int + 0x8000_0000) % 0x1_0000_0000 - 0x8000_0000
  }

  // ---------------------------------------------------------------------------
  // The header dictionary
  // ---------------------------------------------------------------------------

  const ContentType: string := "Content-Type"
  const JsonMediaType: string := "application/json"

  /** Text of the exception `Dictionary.Add` raises for a key already present. */
  function DuplicateKeyMessage(key: string): string
  {
    "An item with the same key has already been added. Key: " + key
  }

  /** `Dictionary.TryAdd`: the first value written for a name wins. */
  function InsertIfAbsent(headers: map<string, string>, name: string, value: string): (r: map<string, string>)
    ensures r.Keys == headers.Keys + {name}
    ensures r[name] == (if name in headers then headers[name] else value)
    ensures forall k :: k in headers ==> r[k] == headers[k]
  {
    if name in headers then headers else headers[name := value]
  }

  /** `Dictionary.Add`: inserts a new key, and throws when the key is already there. */
  function AddOrThrow(headers: map<string, string>, name: string, value: string): (r: Result<map<string, string>>)
    ensures r.Err? <==> name in headers
    ensures r.Err? ==> r.message == DuplicateKeyMessage(name)
    ensures r.Ok? ==> r.value.Keys == headers.Keys + {name} && r.value[name] == value
    ensures r.Ok? ==> forall k :: k in headers ==> r.value[k] == headers[k]
  {
    if name in headers then Err(DuplicateKeyMessage(name)) else Ok(headers[name := value])
  }

  /** What `Build` makes of the header dictionary: the finalized headers, or the exception it throws. */
  function Finalize(headers: map<string, string>, contentTypeAsJson: bool): (r: Result<map<string, string>>)
    ensures !contentTypeAsJson ==> r == Ok(headers)
    ensures contentTypeAsJson && ContentType !in headers ==> r == Ok(headers[ContentType := JsonMediaType])
    ensures contentTypeAsJson && ContentType in headers ==> r == Err(DuplicateKeyMessage(ContentType))
  {
    if contentTypeAsJson then AddOrThrow(headers, ContentType, JsonMediaType) else Ok(headers)
  }

  /**
   * The instance's header dictionary once `Build` has run: `Build` changes the
   * dictionary in place, so what it adds stays for every later call.
   */
  function AfterBuild(headers: map<string, string>, contentTypeAsJson: bool): (r: map<string, string>)
    ensures contentTypeAsJson ==> ContentType in r
    ensures !contentTypeAsJson ==> r == headers
    ensures forall k :: k in headers ==> k in r && r[k] == headers[k]
  {
    match Finalize(headers, contentTypeAsJson)
    case Ok(built) => built
    case Err(_) => headers
  }

  // ---------------------------------------------------------------------------
  // The transport collaborator
  // ---------------------------------------------------------------------------

  datatype Verb = GET | POST

  /** What the client hands to the transport when it sends. */
  datatype Request = Request(verb: Verb, url: string, headers: map<string, string>, body: Option<string>)

  /** How the inner phase of a call ends. */
  datatype Exchange =
    | Delivered(body: string)                       // the transport reports success; `body` is the downloaded text
    | NotSuccess(responseCode: int64, error: string) // the transport reports a non-success result
    | Raised(responseCode: int64, message: string)  // an exception while setting up or sending the request

  /**
   * What the web request object does on this call: whether constructing it
   * throws, which headers it rejects, the status code it reports before any
   * response has arrived, and how sending a given request ends.
   */
  datatype Transport = Transport(
    openFault: Option<string>,
    headerFault: (string, string) -> Option<string>,
    pendingCode: int64,
    send: Request -> Exchange)

  /** The header names whose (name, value) pair the request object refuses. */
  function Rejected(headers: map<string, string>, headerFault: (string, string) -> Option<string>): set<string>
  {
    set k | k in headers && headerFault(k, headers[k]).Some?
  }

  /**
   * Copies every header onto the request, one at a time, in the dictionary's
   * (unspecified) order; the first header the request object refuses ends the
   * loop with that exception. On success the request carries exactly `headers`.
   */
  method SetHeadersOnRequest(headers: map<string, string>, headerFault: (string, string) -> Option<string>)
    returns (onRequest: Result<map<string, string>>)
    ensures onRequest.Ok? <==> Rejected(headers, headerFault) == {}
    ensures onRequest.Ok? ==> onRequest.value == headers
    ensures onRequest.Err? ==>
      exists k :: k in Rejected(headers, headerFault) && headerFault(k, headers[k]) == Some(onRequest.message)
  {
    var sent: map<string, string> := map[];
    var todo := headers.Keys;
    while todo != {}
      invariant todo <= headers.Keys
      invariant sent.Keys == headers.Keys - todo
      invariant forall k :: k in sent ==> sent[k] == headers[k] && headerFault(k, headers[k]).None?
      decreases |todo|
    {
      var k :| k in todo;
      match headerFault(k, headers[k])
      case Some(m) =>
        assert k in Rejected(headers, headerFault);
        return Err(m);
      case None =>
        sent := sent[k := headers[k]];
        todo := todo - {k};
    }
    assert sent.Keys == headers.Keys;
    return Ok(sent);
  }

  // ---------------------------------------------------------------------------
  // Classification of a call
  // ---------------------------------------------------------------------------

  /**
   * The response a call returns, from how it got as far as it did: `Err(m)` is
   * an exception caught by the outer handler before the request was set up
   * (`Build` or constructing the request); `Ok(e)` is how the inner phase ended.
   * Only a delivered body is decoded, and a failure to decode is again an
   * exception for the outer handler.
   */
  function Classify(stage: Result<Exchange>, decode: string -> Result<Response>): (r: Response)
    ensures stage.Err? ==> r.code == Unknown && r.errCode == None && r.message == Some(stage.message)
    ensures stage.Ok? && stage.value.NotSuccess? ==>
      r.code == ToInt32(stage.value.responseCode) && r.errCode == None && r.message == Some(stage.value.error)
    ensures stage.Ok? && stage.value.Raised? ==>
      r.code == ToInt32(stage.value.responseCode) && r.errCode == None && r.message == Some(stage.value.message)
    ensures stage.Ok? && stage.value.Delivered? && decode(stage.value.body).Ok? ==>
      r == decode(stage.value.body).value
    ensures stage.Ok? && stage.value.Delivered? && decode(stage.value.body).Err? ==>
      r.code == Unknown && r.errCode == None && r.message == Some(decode(stage.value.body).message)
  {
    match stage
    case Err(m) => Fresh(Unknown, m)
    case Ok(NotSuccess(code, error)) => Fresh(ToInt32(code), error)
    case Ok(Raised(code, message)) => Fresh(ToInt32(code), message)
    case Ok(Delivered(body)) =>
      match decode(body)
      case Ok(response) => response
      case Err(m) => Fresh(Unknown, m)
  }

  /** The body text a request carries: none for GET, the encoded JSON for POST. */
  function BodyOf(payload: Option<Result<string>>): Option<string>
  {
    if payload.Some? && payload.value.Ok? then Some(payload.value.value) else None
  }

  /**
   * How the inner phase may end once the request object exists, with
   * `headers` the finalized dictionary and `payload` the outcome of encoding
   * the POST body (`None` for GET): a refused header first, then a failed
   * encoding, otherwise whatever sending the request ends in.
   */
  ghost predicate InnerEnds(headers: map<string, string>, t: Transport, verb: Verb, url: string,
                            payload: Option<Result<string>>, e: Exchange)
  {
    if Rejected(headers, t.headerFault) != {} then
      exists k :: k in Rejected(headers, t.headerFault) && e == Raised(t.pendingCode, t.headerFault(k, headers[k]).value)
    else if payload.Some? && payload.value.Err? then
      e == Raised(t.pendingCode, payload.value.message)
    else
      e == t.send(Request(verb, url, headers, BodyOf(payload)))
  }

  /** How far a call from header dictionary `headers` and flag `contentTypeAsJson` may get. */
  ghost predicate Reaches(headers: map<string, string>, contentTypeAsJson: bool, t: Transport, verb: Verb,
                          url: string, payload: Option<Result<string>>, stage: Result<Exchange>)
  {
    match Finalize(headers, contentTypeAsJson)
    case Err(m) => stage == Err(m)
    case Ok(built) =>
      if t.openFault.Some? then stage == Err(t.openFault.value)
      else stage.Ok? && InnerEnds(built, t, verb, url, payload, stage.value)
  }

  // ---------------------------------------------------------------------------
  // The client
  // ---------------------------------------------------------------------------

  class Client {
    var contentTypeAsJson: bool
    var requestHeaders: map<string, string>

    constructor ()
      ensures contentTypeAsJson && requestHeaders == map[]
    {
      contentTypeAsJson := true;
      requestHeaders := map[];
    }

    /** Adds a header unless one of that name is already set; returns this same client. */
    method SetRequestHeader(name: string, value: string) returns (self: Client)
      modifies this`requestHeaders
      ensures self == this
      ensures requestHeaders == InsertIfAbsent(old(requestHeaders), name, value)
    {
      if name !in requestHeaders {
        requestHeaders := requestHeaders[name := value];
      }
      self := this;
    }

    /** Adds the JSON content type to the instance's own dictionary; throws if the name is taken. */
    method Build() returns (fault: Option<string>)
      modifies this`requestHeaders
      ensures fault.Some? ==> Finalize(old(requestHeaders), contentTypeAsJson) == Err(fault.value)
      ensures fault.Some? ==> requestHeaders == old(requestHeaders)
      ensures fault.None? ==> Finalize(old(requestHeaders), contentTypeAsJson) == Ok(requestHeaders)
    {
      fault := None;
      if contentTypeAsJson {
        if ContentType in requestHeaders {
          fault := Some(DuplicateKeyMessage(ContentType));
        } else {
          requestHeaders := requestHeaders[ContentType := JsonMediaType];
        }
      }
    }

    /** One call: finalize the headers, set up and send the request, classify the outcome. */
    method Perform(verb: Verb, url: string, payload: Option<Result<string>>, t: Transport,
                   decode: string -> Result<Response>) returns (res: Response)
      modifies this`requestHeaders
      ensures requestHeaders == AfterBuild(old(requestHeaders), contentTypeAsJson)
      ensures exists stage :: Reaches(old(requestHeaders), contentTypeAsJson, t, verb, url, payload, stage)
                              && res == Classify(stage, decode)
    {
      ghost var before := requestHeaders;
      var fault := Build();
      if fault.Some? {
        assert Reaches(before, contentTypeAsJson, t, verb, url, payload, Err(fault.value));
        return Classify(Err(fault.value), decode);
      }
      if t.openFault.Some? {
        assert Reaches(before, contentTypeAsJson, t, verb, url, payload, Err(t.openFault.value));
        return Classify(Err(t.openFault.value), decode);
      }
      var onRequest := SetHeadersOnRequest(requestHeaders, t.headerFault);
      var ended: Exchange;
      if onRequest.Err? {
        ended := Raised(t.pendingCode, onRequest.message);
      } else if payload.Some? && payload.value.Err? {
        ended := Raised(t.pendingCode, payload.value.message);
      } else {
        ended := t.send(Request(verb, url, onRequest.value, BodyOf(payload)));
      }
      assert InnerEnds(requestHeaders, t, verb, url, payload, ended);
      assert Reaches(before, contentTypeAsJson, t, verb, url, payload, Ok(ended));
      res := Classify(Ok(ended), decode);
    }

    /** GET `url` and decode the answer. */
    method Get(url: string, t: Transport, decode: string -> Result<Response>) returns (res: Response)
      modifies this`requestHeaders
      ensures requestHeaders == AfterBuild(old(requestHeaders), contentTypeAsJson)
      ensures exists stage :: Reaches(old(requestHeaders), contentTypeAsJson, t, GET, url, None, stage)
                              && res == Classify(stage, decode)
    {
      res := Perform(GET, url, None, t, decode);
    }

    /** POST the JSON encoding of `body` to `url` and decode the answer. */
    method Post<B>(url: string, body: B, encode: B -> Result<string>, t: Transport,
                   decode: string -> Result<Response>) returns (res: Response)
      modifies this`requestHeaders
      ensures requestHeaders == AfterBuild(old(requestHeaders), contentTypeAsJson)
      ensures exists stage :: Reaches(old(requestHeaders), contentTypeAsJson, t, POST, url, Some(encode(body)), stage)
                              && res == Classify(stage, decode)
    {
      res := Perform(POST, url, Some(encode(body)), t, decode);
    }
  }

  // ---------------------------------------------------------------------------
  // Properties
  // ---------------------------------------------------------------------------

  /** Writing a header a second time changes nothing: the first value written stays. */
  lemma FirstHeaderWins(headers: map<string, string>, name: string, first: string, second: string)
    ensures InsertIfAbsent(InsertIfAbsent(headers, name, first), name, second) == InsertIfAbsent(headers, name, first)
  {
  }

  /** With the flag on, a call that starts with `Content-Type` already set fails in `Build`. */
  lemma PresetContentTypeFails(headers: map<string, string>, t: Transport, verb: Verb, url: string,
                               payload: Option<Result<string>>, decode: string -> Result<Response>,
                               stage: Result<Exchange>)
    requires ContentType in headers
    requires Reaches(headers, true, t, verb, url, payload, stage)
    ensures Classify(stage, decode) == Fresh(Unknown, DuplicateKeyMessage(ContentType))
  {
  }

  /** The decoder is consulted only for a delivered body. */
  lemma DecodeOnlyOnDelivery(stage: Result<Exchange>, decode: string -> Result<Response>,
                             other: string -> Result<Response>)
    requires !(stage.Ok? && stage.value.Delivered?)
    ensures Classify(stage, decode) == Classify(stage, other)
  {
  }

  /** A response with an error code is the server's own decoded payload. */
  lemma ErrCodeOnlyFromServer(stage: Result<Exchange>, decode: string -> Result<Response>)
    requires Classify(stage, decode).errCode.Some?
    ensures stage.Ok? && stage.value.Delivered? && decode(stage.value.body) == Ok(Classify(stage, decode))
  {
  }

  /**
   * A header the request object refuses ends the call before anything is sent:
   * the status is the request's pending code and the message that of a refused header.
   */
  lemma HeaderFaultNeverSends(headers: map<string, string>, contentTypeAsJson: bool, t: Transport, verb: Verb,
                              url: string, payload: Option<Result<string>>, stage: Result<Exchange>)
    requires Finalize(headers, contentTypeAsJson).Ok? && t.openFault.None?
    requires Rejected(Finalize(headers, contentTypeAsJson).value, t.headerFault) != {}
    requires Reaches(headers, contentTypeAsJson, t, verb, url, payload, stage)
    ensures stage.Ok? && stage.value.Raised? && stage.value.responseCode == t.pendingCode
    ensures exists k :: k in Rejected(Finalize(headers, contentTypeAsJson).value, t.headerFault)
                        && t.headerFault(k, Finalize(headers, contentTypeAsJson).value[k]) == Some(stage.value.message)
  {
  }

  /** A POST body the codec cannot encode ends the call, once the headers are set, without sending. */
  lemma EncodeFaultNeverSends(headers: map<string, string>, contentTypeAsJson: bool, t: Transport,
                              url: string, m: string, stage: Result<Exchange>)
    requires Finalize(headers, contentTypeAsJson).Ok? && t.openFault.None?
    requires Rejected(Finalize(headers, contentTypeAsJson).value, t.headerFault) == {}
    requires Reaches(headers, contentTypeAsJson, t, POST, url, Some(Err(m)), stage)
    ensures stage == Ok(Raised(t.pendingCode, m))
  {
  }

  /**
   * GET and POST differ only in the verb and the body: when the transport
   * treats both requests alike and the body encodes, they reach the same stages.
   */
  lemma GetPostAgree(headers: map<string, string>, contentTypeAsJson: bool, t: Transport, url: string,
                     json: string, stage: Result<Exchange>)
    requires forall h :: t.send(Request(GET, url, h, None)) == t.send(Request(POST, url, h, Some(json)))
    ensures Reaches(headers, contentTypeAsJson, t, GET, url, None, stage)
        <==> Reaches(headers, contentTypeAsJson, t, POST, url, Some(Ok(json)), stage)
  {
  }

  // ---------------------------------------------------------------------------
  // Clients of the class
  // ---------------------------------------------------------------------------

  /**
   * Any call made after an earlier call with the flag on, and with the flag
   * still on, fails in `Build`: the earlier call left `Content-Type` in the
   * instance's dictionary, whether its own `Build` threw or not.
   */
  lemma SecondCallFails(headers: map<string, string>, t: Transport, verb: Verb, url: string,
                        payload: Option<Result<string>>, decode: string -> Result<Response>,
                        stage: Result<Exchange>)
    requires Reaches(AfterBuild(headers, true), true, t, verb, url, payload, stage)
    ensures Classify(stage, decode) == Fresh(Unknown, DuplicateKeyMessage(ContentType))
  {
  }

  /**
   * On any client with the flag on, a POST followed by a GET: the GET fails in
   * `Build` whatever the POST ended in.
   */
  method ReuseClient<B>(c: Client, url: string, body: B, encode: B -> Result<string>,
                        first: Transport, second: Transport, decode: string -> Result<Response>)
    returns (r1: Response, r2: Response)
    requires c.contentTypeAsJson
    modifies c
    ensures r2 == Fresh(Unknown, DuplicateKeyMessage(ContentType))
  {
    ghost var before := c.requestHeaders;
    r1 := c.Post(url, body, encode, first, decode);
    r2 := c.Get(url, second, decode);
    ghost var stage :| Reaches(AfterBuild(before, true), true, second, GET, url, None, stage) && r2 == Classify(stage, decode);
    SecondCallFails(before, second, GET, url, None, decode, stage);
  }

  /** A caller that sets `Content-Type` itself gets the `Build` failure on its first call. */
  method CallerContentType(url: string, mediaType: string, t: Transport, decode: string -> Result<Response>)
    returns (r: Response)
    ensures r == Fresh(Unknown, DuplicateKeyMessage(ContentType))
  {
    var c := new Client();
    var _ := c.SetRequestHeader(ContentType, mediaType);
    r := c.Get(url, t, decode);
    ghost var stage :| Reaches(map[ContentType := mediaType], true, t, GET, url, None, stage) && r == Classify(stage, decode);
    PresetContentTypeFails(map[ContentType := mediaType], t, GET, url, None, decode, stage);
  }

  /**
   * A fresh client whose request is delivered returns the decoded body
   * verbatim, and the transport saw exactly the JSON content type.
   */
  method FirstCallDelivers(url: string, t: Transport, body: string, decode: string -> Result<Response>)
    returns (r: Response)
    requires t.openFault.None? && t.headerFault(ContentType, JsonMediaType).None?
    requires t.send(Request(GET, url, map[ContentType := JsonMediaType], None)) == Delivered(body)
    requires decode(body).Ok?
    ensures r == decode(body).value
  {
    var c := new Client();
    r := c.Get(url, t, decode);
    var built := map[ContentType := JsonMediaType];
    assert Finalize(map[], true) == Ok(built);
    assert Rejected(built, t.headerFault) == {};
  }
}
