/**
 * The API client: the endpoint path, the recognition of the two error shapes
 * the payment API answers with, the classification of a response into a
 * resolved or rejected call, the credentials merged into every request body,
 * the validation `startTransaction` does before it posts, and the transaction
 * id `getTransaction` writes into the response.
 *
 * The HTTPS exchange itself is not modelled: each call takes the `Exchange`
 * the network produced for its request as an input.
 */
module PaynlApi {
  import opened Outcomes
  import opened JsNumbers
  import opened JsValues
  import opened TransactionStartApi

  // ---------------------------------------------------------------------------
  // The endpoint path

  /** `getUrl(controller, action, version)`: "/v{version}/{controller}/{action}/json". */
  function GetUrl(controller: string, action: string, version: int): (url: string)
    ensures |url| >= 10 && url[..2] == "/v" && url[|url| - 5..] == "/json"
  {
    "/v" + IntToString(version) + "/" + controller + "/" + action + "/json"
  }

  predicate NoSlash(s: string) { forall i :: 0 <= i < |s| ==> s[i] != '/' }

  /** `s.split("/")` */
  function Segments(s: string): (parts: seq<string>)
    ensures |parts| > 0
  {
    if |s| == 0 then [""]
    else if s[0] == '/' then [""] + Segments(s[1..])
    else
      var rest := Segments(s[1..]);
      [[s[0]] + rest[0]] + rest[1..]
  }

  lemma {:induction false} SegmentsOfPlain(s: string)
    requires NoSlash(s)
    ensures Segments(s) == [s]
  {
    if |s| > 0 {
      SegmentsOfPlain(s[1..]);
      assert [s[0]] + s[1..] == s;
    }
  }

  lemma {:induction false} SegmentsOfJoined(x: string, y: string)
    requires NoSlash(x)
    ensures Segments(x + "/" + y) == [x] + Segments(y)
  {
    if |x| == 0 {
      assert x + "/" + y == ['/'] + y;
      assert (['/'] + y)[1..] == y;
    } else {
      SegmentsOfJoined(x[1..], y);
      assert (x + "/" + y)[1..] == x[1..] + "/" + y;
      assert [x[0]] + x[1..] == x;
    }
  }

  datatype Endpoint = Endpoint(controller: string, action: string, version: int)

  /** Reads the controller, action and version back out of an endpoint path. */
  function ParseUrl(url: string): Option<Endpoint>
  {
    if |url| < 7 || url[..2] != "/v" || url[|url| - 5..] != "/json" then None
    else
      var parts := Segments(url[2..|url| - 5]);
      if |parts| != 3 then None
      else match ParseInt(parts[0])
        case None => None
        case Some(v) => Some(Endpoint(parts[1], parts[2], v))
  }

  lemma IntToStringNoSlash(i: int)
    ensures NoSlash(IntToString(i))
  {
    var s := IntToString(i);
    forall k | 0 <= k < |s|
      ensures s[k] != '/'
    {
      if i < 0 && k > 0 {
        assert s[k] == s[1..][k - 1];
      }
    }
  }

  /** The path determines the endpoint: controller, action and version can be
   *  read back from it whenever controller and action hold no slash. */
  lemma ParseGetUrl(controller: string, action: string, version: int)
    requires NoSlash(controller) && NoSlash(action)
    ensures ParseUrl(GetUrl(controller, action, version)) == Some(Endpoint(controller, action, version))
  {
    var v := IntToString(version);
    var url := GetUrl(controller, action, version);
    var middle := v + "/" + controller + "/" + action;
    assert url == "/v" + middle + "/json";
    assert url[2..|url| - 5] == middle;
    IntToStringNoSlash(version);
    SegmentsOfJoined(v, controller + "/" + action);
    assert middle == v + "/" + (controller + "/" + action);
    SegmentsOfJoined(controller, action);
    SegmentsOfPlain(action);
    ParseIntToString(version);
  }

  /** The transaction calls use version 8: their paths start with "/v8/". */
  lemma VersionEightUrl(controller: string, action: string)
    ensures GetUrl(controller, action, 8) == "/v8/" + controller + "/" + action + "/json"
  {
    assert IntToString(8) == "8" by { assert DigitChar(8) == '8'; }
    assert "/v" + "8" + "/" == "/v8/";
  }

  // ---------------------------------------------------------------------------
  // The two error shapes

  /** The first shape: a truthy `status` field that equals the string FALSE
   *  loosely. */
  predicate StatusShape(body: map<string, Json>)
    ensures StatusShape(body) <==>
              "status" in body && (body["status"] == Str("FALSE") || (body["status"].Arr? && JsToString(body["status"]) == "FALSE"))
  {
    var status := Get(body, "status");
    TruthyEqualsFalseLiteral(status);
    Truthy(status) && LooseEqualsString(status, "FALSE")
  }

  /** The second shape: a truthy `request` object whose `result` is truthy and
   *  loosely equal to the string 0, and whose `errorId` and `errorMessage`
   *  are both truthy. */
  predicate RequestShape(body: map<string, Json>)
    ensures RequestShape(body) <==>
              && "request" in body && body["request"].Obj?
              && var request := body["request"].members;
              && "result" in request
              && (request["result"] == Str("0") || (request["result"].Arr? && JsToString(request["result"]) == "0"))
              && "errorId" in request && Truthy(request["errorId"])
              && "errorMessage" in request && Truthy(request["errorMessage"])
  {
    var request := Get(body, "request");
    && Truthy(request)
    && request.Obj?
    && var result := Get(request.members, "result");
    && (TruthyEqualsZeroLiteral(result); Truthy(result) && LooseEqualsString(result, "0"))
    && Truthy(Get(request.members, "errorId"))
    && Truthy(Get(request.members, "errorMessage"))
  }

  /** `isError(body)`: the error value of the first shape that matches, else
   *  false; a null body throws when its `status` is read. */
  function IsError(body: PlainJson): (r: Result<Json>)
    ensures r.Err? <==> body == Null || body == Undefined
    ensures r.Err? ==> r.error == TypeError
    ensures r.Ok? && r.value != Bool(false) ==> body.Obj? && (StatusShape(body.members) || RequestShape(body.members))
    ensures body.Obj? && StatusShape(body.members) ==> r == Ok(Get(body.members, "error"))
    ensures body.Obj? && !StatusShape(body.members) && RequestShape(body.members) ==>
              var request := body.members["request"].members;
              r == Ok(Str(JsToString(request["errorId"]) + " " + JsToString(request["errorMessage"])))
  {
    match Member(body, "status")
    case Err(e) => Err(e)
    case Ok(status) =>
      if Truthy(status) && LooseEqualsString(status, "FALSE") then Member(body, "error")
      else
        var request := Member(body, "request").value;
        if !Truthy(request) then Ok(Bool(false))
        else
          var result := Member(request, "result").value;
          var errorId := Member(request, "errorId").value;
          var errorMessage := Member(request, "errorMessage").value;
          if Truthy(result) && LooseEqualsString(result, "0") && Truthy(errorId) && Truthy(errorMessage)
          then Ok(Str(JsToString(errorId) + " " + JsToString(errorMessage)))
          else Ok(Bool(false))
  }

  /** The message of `new Error(v)`: empty for undefined, else `String(v)`. */
  function ErrorMessage(v: Json): (message: string)
    ensures v.Str? ==> message == v.s
    ensures v == Undefined ==> message == ""
    ensures v == Null ==> message == "null"
  {
    if v == Undefined then "" else JsToString(v)
  }

  /** `{"status":"FALSE","error":"invalid amount"}` is recognised by its error. */
  lemma IsErrorStatusExample()
    ensures IsError(Obj(map["status" := Str("FALSE"), "error" := Str("invalid amount")])) == Ok(Str("invalid amount"))
  {
    assert !IsDigit('F');
    var body := map["status" := Str("FALSE"), "error" := Str("invalid amount")];
    assert StatusShape(body);
  }

  /** `{"request":{"result":"0","errorId":"101","errorMessage":"bad token"}}` is
   *  recognised as "101 bad token". */
  lemma IsErrorRequestExample()
    ensures IsError(Obj(map["request" := Obj(map["result" := Str("0"), "errorId" := Str("101"), "errorMessage" := Str("bad token")])]))
         == Ok(Str("101 bad token"))
  {
    var request := map["result" := Str("0"), "errorId" := Str("101"), "errorMessage" := Str("bad token")];
    var body := map["request" := Obj(request)];
    assert "status" !in body by { assert "status"[0] != "request"[0]; }
    assert !StatusShape(body);
    assert "errorId"[0] != "result"[0] && |"errorId"| != |"errorMessage"|;
    assert Get(request, "result") == Str("0") && StringToNumber("0") == Some(0.0);
    assert Get(request, "errorId") == Str("101") && Get(request, "errorMessage") == Str("bad token");
    assert RequestShape(body);
    assert "101" + " " + "bad token" == "101 bad token";
  }

  /** A status of false or 0 is not the string "FALSE": the number 0 and
   *  false are falsy, so neither shape matches an object without `request`. */
  lemma IsErrorNotFooledByFalsyStatus(body: PlainJson, status: Json)
    requires status == Bool(false) || status == Num(0.0) || status == Str("")
    requires body == Obj(map["status" := status])
    ensures IsError(body) == Ok(Bool(false))
  {
    assert "request" !in body.members by { assert "request"[0] != "status"[0]; }
  }

  // ---------------------------------------------------------------------------
  // Classifying a response

  /** What `JSON.parse` made of the body. */
  datatype ParseOutcome = Unparseable(reason: string) | Parsed(json: PlainJson)

  /** What the network produced for a request: an error event (a connection
   *  failure, or the abort after the 10-second timeout), or a complete response. */
  datatype Exchange =
    | TransportFailed(reason: string)
    | Responded(statusCode: Option<int>, statusMessage: string, body: ParseOutcome)

  /** How the promise of `post` settles. */
  datatype Settled = Resolved(value: PlainJson) | Rejected(reason: Failure)

  predicate IsSuccessStatus(code: int) { 200 <= code < 300 }

  /** The `end` handler of `post` and its `error` listener. */
  function Classify(exchange: Exchange): (s: Settled)
    ensures exchange.TransportFailed? <==> s.Rejected? && s.reason.TransportError?
    ensures s.Resolved? ==>
              && exchange.Responded? && exchange.statusCode.Some? && IsSuccessStatus(exchange.statusCode.value)
              && exchange.body.Parsed? && s.value == exchange.body.json
    ensures s.Rejected? && s.reason.PaynlError? ==>
              && exchange.Responded? && exchange.statusCode.Some? && !IsSuccessStatus(exchange.statusCode.value)
              && exchange.body.Parsed? && exchange.body.json != Null
  {
    match exchange
    case TransportFailed(reason) => Rejected(TransportError(reason))
    case Responded(statusCode, statusMessage, body) =>
      if statusCode.None? || statusCode.value == 0 then Rejected(PlainError("Unexpected order of events"))
      else match body
        case Unparseable(reason) => Rejected(SyntaxError(reason))
        case Parsed(json) =>
          var code := statusCode.value;
          if !IsSuccessStatus(code) then
            match IsError(json)
            case Err(e) => Rejected(e)
            case Ok(v) =>
              if v != Bool(false) then Rejected(PaynlError(ErrorMessage(v)))
              else Rejected(PaynlError(IntToString(code) + " " + statusMessage))
          else Resolved(json)
  }

  /** A call resolves exactly when a truthy success status came with a
   *  parsable body, and then with that body, whatever error shape it has. */
  lemma ClassifyResolves(exchange: Exchange)
    ensures Classify(exchange).Resolved? <==>
              exchange.Responded? && exchange.statusCode.Some? && IsSuccessStatus(exchange.statusCode.value)
              && exchange.body.Parsed?
    ensures Classify(exchange).Resolved? ==> Classify(exchange).value == exchange.body.json
  {
  }

  /** A missing status code rejects before the body is looked at. */
  lemma ClassifyMissingStatus(statusMessage: string, body: ParseOutcome)
    ensures Classify(Responded(None, statusMessage, body)) == Rejected(PlainError("Unexpected order of events"))
    ensures Classify(Responded(Some(0), statusMessage, body)) == Rejected(PlainError("Unexpected order of events"))
  {
  }

  /** A body that does not parse rejects with the parse error itself, at any
   *  status but a missing one. */
  lemma ClassifyParseErrorWins(code: int, statusMessage: string, reason: string)
    requires code != 0
    ensures Classify(Responded(Some(code), statusMessage, Unparseable(reason))) == Rejected(SyntaxError(reason))
  {
  }

  /** A status outside [200,300) with a parsed body: a null body rejects
   *  with the TypeError `isError` throws; any other body rejects with a
   *  PaynlError, carrying the recognised error message, else the status code
   *  and message. A body that is not an object never matches a shape. */
  lemma {:induction false} ClassifyFailureStatus(code: int, statusMessage: string, json: PlainJson)
    requires code != 0 && !IsSuccessStatus(code)
    ensures json == Null || json == Undefined ==>
              Classify(Responded(Some(code), statusMessage, Parsed(json))) == Rejected(TypeError)
    ensures json != Null && json != Undefined ==>
              var v := IsError(json).value;
              Classify(Responded(Some(code), statusMessage, Parsed(json)))
              == if v == Bool(false) then Rejected(PaynlError(IntToString(code) + " " + statusMessage))
                 else Rejected(PaynlError(ErrorMessage(v)))
    ensures json != Null && json != Undefined && !(json.Obj? && (StatusShape(json.members) || RequestShape(json.members))) ==>
              Classify(Responded(Some(code), statusMessage, Parsed(json)))
              == Rejected(PaynlError(IntToString(code) + " " + statusMessage))
  {
    if json != Null && json != Undefined {
      assert IsError(json).Ok?;
    }
  }

  /** "invalid amount" at a 400 rejects with exactly that message; at a 200
   *  the same body resolves. */
  lemma ClassifyStatusShapeExamples()
    ensures var body := Obj(map["status" := Str("FALSE"), "error" := Str("invalid amount")]);
            && Classify(Responded(Some(400), "Bad Request", Parsed(body))) == Rejected(PaynlError("invalid amount"))
            && Classify(Responded(Some(200), "OK", Parsed(body))) == Resolved(body)
  {
    IsErrorStatusExample();
  }

  /** A 500 whose body is not of an error shape rejects with "500" and the status message. */
  lemma ClassifyStatusMessageExample(statusMessage: string)
    ensures Classify(Responded(Some(500), statusMessage, Parsed(Obj(map[]))))
         == Rejected(PaynlError("500 " + statusMessage))
  {
    assert IsError(Obj(map[])) == Ok(Bool(false));
    assert IntToString(500) == "500" by {
      assert DigitChar(5) == '5' && DigitChar(0) == '0';
      assert NatToString(5) == "5";
      assert NatToString(50) == "50";
    }
    assert "500" + " " == "500 ";
  }

  // ---------------------------------------------------------------------------
  // The response buffer as the code has it

  /** What `JSON.parse` reports for the empty text. */
  const EndOfInput := "Unexpected end of JSON input"

  /** The `end` handler as written. `setEncoding("utf8")` makes every `data`
   *  chunk a string, and `Buffer.concat` throws a TypeError on a list that
   *  holds one; the `try` turns it into the rejection. Only a response
   *  without chunks reaches `JSON.parse`, as the empty text. `Classify` is
   *  the handler as intended, with the text of the chunks parsed. */
  function ClassifyAsWritten(statusCode: Option<int>, statusMessage: string, chunks: seq<string>): (s: Settled)
    ensures s.Rejected?
    ensures statusCode.Some? && statusCode.value != 0 && |chunks| > 0 ==> s.reason == TypeError
  {
    if statusCode.None? || statusCode.value == 0 then Rejected(PlainError("Unexpected order of events"))
    else if |chunks| > 0 then Rejected(TypeError)
    else Classify(Responded(statusCode, statusMessage, Unparseable(EndOfInput)))
  }

  /** Where the two part: a success status with any body resolves once the
   *  body is parsed, and is rejected with a TypeError as written. */
  lemma ClassifyAsWrittenDiffers(code: int, statusMessage: string, chunks: seq<string>, json: PlainJson)
    requires IsSuccessStatus(code) && |chunks| > 0
    ensures Classify(Responded(Some(code), statusMessage, Parsed(json))) == Resolved(json)
    ensures ClassifyAsWritten(Some(code), statusMessage, chunks) == Rejected(TypeError)
  {
  }

  /** The smallest case: a 200 response with the body `{}`. */
  lemma BufferConcatCounterexample()
    ensures ClassifyAsWritten(Some(200), "OK", ["{}"]) == Rejected(TypeError)
    ensures Classify(Responded(Some(200), "OK", Parsed(Obj(map[])))) == Resolved(Obj(map[]))
  {
    ClassifyAsWrittenDiffers(200, "OK", ["{}"], Obj(map[]));
  }

  // ---------------------------------------------------------------------------
  // Credentials and validation

  /** `data.token = apiToken; data.serviceId = serviceId` */
  function WithCredentials(data: map<string, Json>, apiToken: string, serviceId: string): (r: map<string, Json>)
    ensures r.Keys == data.Keys + {"token", "serviceId"}
    ensures r["token"] == Str(apiToken) && r["serviceId"] == Str(serviceId)
    ensures forall k :: k in data && k != "token" && k != "serviceId" ==> r[k] == data[k]
  {
    data["token" := Str(apiToken)]["serviceId" := Str(serviceId)]
  }

  /** The guards of `startTransaction`, in their order: the message of the
   *  first that fails. */
  function Validate(options: TransactionStartOptions): (problem: Option<string>)
    ensures problem.None? <==> options.amount != 0.0 && options.returnUrl != "" && options.ipAddress != ""
    ensures options.amount == 0.0 ==> problem == Some("Amount is not set")
    ensures options.amount != 0.0 && options.returnUrl == "" ==> problem == Some("returnUrl is not set")
    ensures options.amount != 0.0 && options.returnUrl != "" && options.ipAddress == "" ==> problem == Some("ipAddress is not set")
  {
    if options.amount == 0.0 then Some("Amount is not set")
    else if options.returnUrl == "" then Some("returnUrl is not set")
    else if options.ipAddress == "" then Some("ipAddress is not set")
    else None
  }

  /** `response["transactionId"] = transactionId` in strict code: an object
   *  gains the key, writing a property of null or of a primitive throws. */
  function EchoTransactionId(response: PlainJson, transactionId: string): (r: Result<PlainJson>)
    ensures r.Err? <==> !(response.Obj? || response.Arr?)
    ensures r.Err? ==> r.error == TypeError
    ensures response.Obj? ==> r.Ok? && r.value.Obj?
                              && r.value.members.Keys == response.members.Keys + {"transactionId"}
                              && r.value.members["transactionId"] == Str(transactionId)
                              && forall k :: k in response.members && k != "transactionId" ==> r.value.members[k] == response.members[k]
  {
    match response
    case Obj(m) =>
      var echoed := m["transactionId" := Str(transactionId)];
      assert IsPlain(Obj(echoed));
      Ok(Obj(echoed))
    case Arr(_) => Ok(response)
    case _ => Err(TypeError)
  }

  // ---------------------------------------------------------------------------
  // The client

  /** The request `post` sends: host, path and the body it serialises. */
  datatype Request = Request(hostname: string, path: string, body: map<string, Json>)

  class Paynl {
    const apiToken: string
    const serviceId: string
    const hostname: string
    const verbose: bool

    constructor (apiToken: string, serviceId: string, verbose: Option<bool>)
      ensures this.apiToken == apiToken && this.serviceId == serviceId
      ensures hostname == "https://rest-api.pay.nl"
      ensures this.verbose == (verbose == Some(true))
    {
      this.apiToken := apiToken;
      this.serviceId := serviceId;
      this.hostname := "https://rest-api.pay.nl";
      this.verbose := verbose.GetOr(false);
    }

    /** `post(controller, action, version, data)`: writes the credentials into
     *  the caller's `data`, sends it, and settles by the response. */
    method Post(controller: string, action: string, version: int, data: JsObject, exchange: Exchange)
      returns (sent: Request, outcome: Settled)
      modifies data
      ensures data.fields == WithCredentials(old(data.fields), apiToken, serviceId)
      ensures sent == Request(hostname, GetUrl(controller, action, version), data.fields)
      ensures outcome == Classify(exchange)
    {
      data.fields := data.fields["token" := Str(apiToken)];
      data.fields := data.fields["serviceId" := Str(serviceId)];
      sent := Request(hostname, GetUrl(controller, action, version), data.fields);
      outcome := Classify(exchange);
    }

    /** `startTransaction(options)`: validation, then the builder, then the
     *  post to transaction/start v8. `sent` is the request made, if any. */
    method StartTransaction(options: TransactionStartOptions, formats: DateFormats, exchange: Exchange)
      returns (sent: Option<Request>, outcome: Settled)
      modifies options.AddressObjects()
      ensures Validate(options).Some? ==>
                sent.None? && outcome == Rejected(PlainError(Validate(options).value))
                && forall a :: a in options.AddressObjects() ==> a.fields == old(a.fields)
      ensures Validate(options).None? && options.invoiceAddress.Some? && options.address.None? ==>
                sent.None? && outcome == Rejected(TypeError)
      ensures Validate(options).None? && !(options.invoiceAddress.Some? && options.address.None?) ==>
                sent == Some(Request(hostname, GetUrl("transaction", "start", 8), WithCredentials(RequestBody(options, formats), apiToken, serviceId)))
                && outcome == Classify(exchange)
      ensures Validate(options).None? ==>
                AddressesRenamed(options.address, options.invoiceAddress, old(Fields(options.address)), old(Fields(options.invoiceAddress)))
    {
      var problem := Validate(options);
      if problem.Some? {
        return None, Rejected(PlainError(problem.value));
      }
      var startData := new TransactionStart(options);
      var data := startData.GetForApi(formats);
      if data.Err? {
        return None, Rejected(data.error);
      }
      var request;
      request, outcome := Post("transaction", "start", 8, data.value, exchange);
      sent := Some(request);
    }

    /** `getTransaction(transactionId)`: the post to transaction/info v8, and
     *  the id written into what it resolves with. */
    method GetTransaction(transactionId: string, exchange: Exchange)
      returns (sent: Request, outcome: Settled)
      ensures sent == Request(hostname, GetUrl("transaction", "info", 8),
                              WithCredentials(map["transactionId" := Str(transactionId)], apiToken, serviceId))
      ensures Classify(exchange).Rejected? ==> outcome == Classify(exchange)
      ensures Classify(exchange).Resolved? ==>
                match EchoTransactionId(Classify(exchange).value, transactionId)
                case Ok(response) => outcome == Resolved(response)
                case Err(e) => outcome == Rejected(e)
    {
      var data := new JsObject(map["transactionId" := Str(transactionId)]);
      var response;
      sent, response := Post("transaction", "info", 8, data, exchange);
      if response.Rejected? {
        return sent, response;
      }
      match EchoTransactionId(response.value, transactionId)
      case Ok(echoed) => outcome := Resolved(echoed);
      case Err(e) => outcome := Rejected(e);
    }
  }
}
