/**
 * The browser-side service (services/geminiService.ts): one POST to
 * `/api/analyze`, and the mapping of the server's reply to a returned
 * analysis or a thrown error. The HTTP exchange itself is an input.
 */
module ContractService {
  import opened Wrappers
  import opened Json
  import opened Types
  import ServerlessApi
  import Worker

  /** The request the service sends. `context` is omitted from the body when it is `undefined`. */
  datatype ServiceRequest = ServiceRequest(url: string, verb: string, contentType: string, body: Json)

  /** How `fetch` ends: it rejects, or it yields a status and the body text. */
  datatype ServerReply = NetworkFailure(error: Thrown) | Reply(status: nat, bodyText: string)

  /** How `analyzeContract` ends: it resolves to the parsed body, or it rejects. */
  datatype ServiceOutcome = Returned(data: Json) | Rejected(error: Thrown)

  /** `response.ok`: a status in the 2xx range. */
  predicate Ok(status: nat)
  {
    200 <= status <= 299
  }

  /** The `fetch` the service makes: a JSON POST to the handler's route with the contract and the context. */
  function ServiceCall(contractText: string, context: Option<string>): (r: ServiceRequest)
    ensures r.url == "/api/analyze" && r.verb == "POST" && r.contentType == "application/json"
    ensures r.body.JObj? && Get(r.body, "contractText") == Some(JStr(contractText))
    ensures Get(r.body, "context") == if context.Some? then Some(JStr(context.value)) else None
  {
    var fields := if context.Some? then [("contractText", JStr(contractText)), ("context", JStr(context.value))]
                  else [("contractText", JStr(contractText))];
    assert "contractText" != "context" by { assert |"contractText"| != |"context"|; }
    assert context.Some? ==> fields[..1] == [("contractText", JStr(contractText))];
    assert Lookup([("contractText", JStr(contractText))], "contractText") == Some(JStr(contractText));
    assert Lookup(fields, "contractText") == Some(JStr(contractText));
    ServiceRequest("/api/analyze", "POST", "application/json", JObj(fields))
  }

  /** `response.json().catch(() => ({}))`: text that does not parse becomes an empty object. */
  function ErrorData(bodyText: string, parse: Parser): (v: Json)
    ensures parse(bodyText).Success? ==> v == parse(bodyText).value
    ensures parse(bodyText).Failure? ==> v == JObj([])
  {
    match parse(bodyText)
    case Success(v) => v
    case Failure(_) => JObj([])
  }

  /**
   * What a non-ok reply throws: `new Error(errorData.message || \`Server error: ${status}\`)`, or the
   * `TypeError` of reading `.message` when the error body is `null`.
   */
  function FailureError(status: nat, bodyText: string, parse: Parser, show: Shower): (e: ErrorObject)
    // Only a `null` error body turns into a TypeError; everything else is a plain Error.
    ensures e.name == "TypeError" <==> ErrorData(bodyText, parse).JNull?
    ensures e.name != "TypeError" ==> e.name == "Error"
    // A truthy string `message` is carried over as it is.
    ensures !ErrorData(bodyText, parse).JNull? && Get(ErrorData(bodyText, parse), "message").Some?
            && Get(ErrorData(bodyText, parse), "message").value.JStr? && Get(ErrorData(bodyText, parse), "message").value.s != "" ==>
      e.message == Get(ErrorData(bodyText, parse), "message").value.s
    // Without a truthy `message`, the status is named, and it can be read back from the message.
    ensures !ErrorData(bodyText, parse).JNull? && !Truthy(Get(ErrorData(bodyText, parse), "message")) ==>
      e.message == "Server error: " + NatToString(status)
  {
    var errorData := ErrorData(bodyText, parse);
    if errorData.JNull? then
      ErrorObject("TypeError", "Cannot read properties of null (reading 'message')")
    else
      var message := Get(errorData, "message");
      if Truthy(message) then ErrorObject("Error", ToJsString(message.value, show))
      else ErrorObject("Error", "Server error: " + NatToString(status))
  }

  /** `analyzeContract`: every failure is rethrown unchanged by its `catch`. */
  function AnalyzeContract(reply: ServerReply, parse: Parser, show: Shower): (r: ServiceOutcome)
    ensures reply.NetworkFailure? ==> r == Rejected(reply.error)
    ensures r.Returned? <==> reply.Reply? && Ok(reply.status) && parse(reply.bodyText).Success?
    ensures r.Returned? ==> r.data == parse(reply.bodyText).value
    ensures reply.Reply? && Ok(reply.status) && parse(reply.bodyText).Failure? ==>
      r == Rejected(ErrorThrown(ErrorObject("SyntaxError", parse(reply.bodyText).error)))
    ensures reply.Reply? && !Ok(reply.status) ==>
      r == Rejected(ErrorThrown(FailureError(reply.status, reply.bodyText, parse, show)))
  {
    match reply
    case NetworkFailure(e) => Rejected(e)
    case Reply(status, bodyText) =>
      if !Ok(status) then Rejected(ErrorThrown(FailureError(status, bodyText, parse, show)))
      else
        match parse(bodyText)
        case Success(data) => Returned(data)
        case Failure(m) => Rejected(ErrorThrown(ErrorObject("SyntaxError", m)))
  }

  /** A non-ok reply carrying a string `message` surfaces that message; otherwise the status is reported. */
  lemma FailureMessage(status: nat, bodyText: string, parse: Parser, show: Shower)
    ensures var e := FailureError(status, bodyText, parse, show);
            var data := ErrorData(bodyText, parse);
            && (!data.JNull? && Get(data, "message").Some? && Get(data, "message").value.JStr? && Get(data, "message").value.s != ""
                ==> e == ErrorObject("Error", Get(data, "message").value.s))
            && (!data.JNull? && !Truthy(Get(data, "message")) ==> e == ErrorObject("Error", "Server error: " + NatToString(status)))
            && (e.name == "Error" || e.name == "TypeError")
  {
  }

  /** The fallback message names the status, and different statuses give different messages. */
  lemma StatusMessageInjective(a: nat, b: nat)
    requires "Server error: " + NatToString(a) == "Server error: " + NatToString(b)
    ensures a == b
  {
    var p := "Server error: ";
    assert NatToString(a) == ("Server error: " + NatToString(a))[|p|..];
    assert NatToString(b) == ("Server error: " + NatToString(b))[|p|..];
    NatToStringInjective(a, b);
  }

  /** A non-ok reply whose body is an object with a non-empty `message` string rejects with that message. */
  lemma MessageSurfaces(status: nat, bodyText: string, body: Json, message: string, parse: Parser, show: Shower)
    requires !Ok(status) && parse(bodyText) == Success(body)
    requires body.JObj? && Get(body, "message") == Some(JStr(message)) && message != ""
    ensures AnalyzeContract(Reply(status, bodyText), parse, show) == Rejected(ErrorThrown(ErrorObject("Error", message)))
  {
  }

  /** A non-ok reply whose body is an object without `message` rejects with `Server error: <status>`. */
  lemma StatusSurfaces(status: nat, bodyText: string, body: Json, parse: Parser, show: Shower)
    requires !Ok(status) && parse(bodyText) == Success(body)
    requires body.JObj? && Get(body, "message").None?
    ensures AnalyzeContract(Reply(status, bodyText), parse, show)
            == Rejected(ErrorThrown(ErrorObject("Error", "Server error: " + NatToString(status))))
  {
  }

  /**
   * Against the serverless handler, every error response becomes an `Error` carrying the handler's own
   * non-empty `message` field.
   */
  lemma HandlerErrorsSurface(req: ServerlessApi.HandlerRequest, apiKey: Option<string>, parse: Parser, show: Shower,
                             outcome: ServerlessApi.SdkOutcome, bodyText: string)
    requires var r := ServerlessApi.Handle(req, apiKey, parse, show, outcome).response;
             r.status != 200 && parse(bodyText) == Success(r.body)
    ensures var r := ServerlessApi.Handle(req, apiKey, parse, show, outcome).response;
            AnalyzeContract(Reply(r.status, bodyText), parse, show)
              == Rejected(ErrorThrown(ErrorObject("Error", ServerlessApi.MessageText(r.body))))
            && ServerlessApi.MessageText(r.body) != ""
  {
    var r := ServerlessApi.Handle(req, apiKey, parse, show, outcome).response;
    ServerlessApi.HandleStatuses(req, apiKey, parse, show, outcome);
    MessageSurfaces(r.status, bodyText, r.body, ServerlessApi.MessageText(r.body), parse, show);
  }

  /**
   * Against the worker, whose error bodies have no `message` field, every error response that reaches
   * the client is reported only by its status.
   */
  lemma WorkerErrorsSurfaceAsStatus(req: Worker.Request, env: Worker.Env, parse: Parser, show: Shower,
                                    upstream: Worker.UpstreamOutcome, bodyText: string)
    requires var x := Worker.Fetch(req, env, parse, show, upstream);
             x.reply.Answered? && x.reply.response.status != 200 && x.reply.response.body.Some?
             && parse(bodyText) == Success(x.reply.response.body.value)
    ensures var r := Worker.Fetch(req, env, parse, show, upstream).reply.response;
            AnalyzeContract(Reply(r.status, bodyText), parse, show)
              == Rejected(ErrorThrown(ErrorObject("Error", "Server error: " + NatToString(r.status))))
  {
    var r := Worker.Fetch(req, env, parse, show, upstream).reply.response;
    Worker.FetchStatuses(req, env, parse, show, upstream);
    Worker.FetchErrorBodies(req, env, parse, show, upstream);
    StatusSurfaces(r.status, bodyText, r.body.value, parse, show);
  }

  /** A 200 reply whose text is an encoded analysis resolves to exactly that analysis. */
  lemma ServiceDeliversAnalysis(bodyText: string, parse: Parser, show: Shower, analysis: AnalysisResponse)
    requires parse(bodyText) == Success(Encode(analysis))
    ensures AnalyzeContract(Reply(200, bodyText), parse, show) == Returned(Encode(analysis))
    ensures Decode(AnalyzeContract(Reply(200, bodyText), parse, show).data) == Some(analysis)
  {
    DecodeEncode(analysis);
  }
}
