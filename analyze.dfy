/**
 * The serverless handler (api/analyze.ts): its own copy of the response
 * schema, its prompt template, and the guards and error mapping around the
 * `generateContent` call. The SDK call and `JSON.parse` are inputs.
 */
module ServerlessApi {
  import opened Wrappers
  import opened Json
  import opened Types
  import opened Schema
  import Worker

  const RiskClauseSchema: SchemaNode := ObjectSchema([
    Property("clause", StringSchema(Some("A cláusula problemática."), [])),
    Property("reason", StringSchema(Some("Por que é perigosa (linguagem simples)."), [])),
    Property("impact", StringSchema(Some("Quem se prejudica."), [])),
    Property("recommendation", StringSchema(Some("Recomendação de mudança específica."), []))],
    ["clause", "reason", "impact", "recommendation"])

  const FavorableTermSchema: SchemaNode := ObjectSchema([
    Property("clause", StringSchema(Some("A cláusula favorável."), [])),
    Property("benefit", StringSchema(Some("Por que é vantajoso."), []))],
    ["clause", "benefit"])

  const AnalysisSchema: SchemaNode := ObjectSchema([
    Property("executiveSummary", StringSchema(Some("Resumo executivo em 3-5 linhas (Tipo, partes, duração, valor)."), [])),
    Property("contractType", StringSchema(Some("O tipo de contrato identificado (ex: Prestação de Serviços)."), [])),
    Property("riskLevel", StringSchema(Some("Status de risco geral."), ["BAIXO", "MÉDIO", "ALTO"])),
    Property("riskClauses", ArraySchema(None, RiskClauseSchema)),
    Property("missingTerms", ArraySchema(Some("Lista de termos importantes que estão faltando."), StringSchema(None, []))),
    Property("favorableTerms", ArraySchema(None, FavorableTermSchema)),
    Property("practicalRecommendations", ArraySchema(Some("Ações práticas priorizadas para o advogado/cliente."), StringSchema(None, []))),
    Property("clientQuestions", ArraySchema(Some("Perguntas para pedir contexto ao cliente, se necessário."), StringSchema(None, [])))],
    ["executiveSummary", "contractType", "riskLevel", "riskClauses",
     "missingTerms", "favorableTerms", "practicalRecommendations", "clientQuestions"])

  /** Both back ends constrain the model with the same schema, so what one accepts the other accepts. */
  lemma SchemasAgree(v: Json)
    ensures AnalysisSchema == Worker.AnalysisSchema
    ensures Conforms(AnalysisSchema, v) <==> Decode(v).Some?
  {
    Worker.SchemaConformance(v);
  }

  // ---------------------------------------------------------------------------
  // The prompt
  // ---------------------------------------------------------------------------

  const HandlerPreamble: string := "\n      Você é um assistente jurídico sênior especializado em análise de contratos sob a legislação brasileira (Código Civil, CDC, etc.).\n      \n      Analise o seguinte contrato com extremo rigor. Identifique riscos, cláusulas abusivas, termos faltantes e oportunidades.\n      Seja prático e direto. Foco na proteção de quem está recebendo esta análise.\n      \n      "
  const HandlerContractHeader: string := "\n\n" + "      CONTRATO PARA ANÁLISE:\n      ---\n      "
  const HandlerContractFooter: string := "\n      ---\n    "

  /** The context line: the label and the context when it is truthy, nothing otherwise. */
  function HandlerContextLine(context: Option<string>): string
  {
    if context.Some? then Worker.ContextLabel + context.value else ""
  }

  function HandlerContractBlock(contractText: string): string
  {
    HandlerContractHeader + contractText + HandlerContractFooter
  }

  /** The handler's prompt: indented like its template literal, the context on a line of its own. */
  function HandlerPrompt(contractText: string, context: Option<string>): (prompt: string)
    ensures StartsWith(prompt, HandlerPreamble)
    ensures EndsWith(prompt, HandlerContractBlock(contractText))
  {
    var rest := HandlerContextLine(context) + HandlerContractBlock(contractText);
    Worker.ConcatParts(HandlerPreamble, rest);
    Worker.ConcatParts(HandlerContextLine(context), HandlerContractBlock(contractText));
    Worker.EndsWithExtend(HandlerPreamble, rest, HandlerContractBlock(contractText));
    HandlerPreamble + rest
  }

  /** What follows the preamble: the context line, then the contract block. */
  lemma HandlerPromptRest(contractText: string, context: Option<string>)
    ensures HandlerPrompt(contractText, context)[|HandlerPreamble|..] == HandlerContextLine(context) + HandlerContractBlock(contractText)
  {
    Worker.ConcatParts(HandlerPreamble, HandlerContextLine(context) + HandlerContractBlock(contractText));
  }

  /** The context label follows the preamble exactly when a context was given. */
  lemma HandlerPromptContextLabel(contractText: string, context: Option<string>)
    ensures StartsWith(HandlerPrompt(contractText, context)[|HandlerPreamble|..], Worker.ContextLabel) <==> context.Some?
  {
    HandlerPromptRest(contractText, context);
    if context.Some? {
      StartsWithAppend(Worker.ContextLabel, context.value, HandlerContractBlock(contractText));
    } else {
      LabelIsNotBlankLine(HandlerContractBlock(contractText));
    }
  }

  /** Text that opens with the handler's contract header starts with a line break, which the label does not. */
  lemma LabelIsNotBlankLine(s: string)
    requires StartsWith(s, HandlerContractHeader)
    ensures !StartsWith(s, Worker.ContextLabel)
  {
    assert s[..|HandlerContractHeader|][0] == HandlerContractHeader[0] == '\n';
    MismatchNotStartsWith(s, Worker.ContextLabel, 0);
  }

  /** The prompt determines the contract text. */
  lemma HandlerPromptInjective(a: string, b: string, context: Option<string>)
    requires HandlerPrompt(a, context) == HandlerPrompt(b, context)
    ensures a == b
  {
    HandlerPromptRest(a, context);
    HandlerPromptRest(b, context);
    FrameInjective(HandlerContextLine(context), HandlerContractHeader, a, b, HandlerContractFooter);
  }

  /**
   * The two back ends send different prompts for the same contract: the worker's ends with the `---`
   * line, the handler's with the indentation that closes its template literal.
   */
  lemma PromptsDiffer(contractText: string, context: Option<string>)
    ensures HandlerPrompt(contractText, context) != Worker.BuildPrompt(contractText, context)
  {
    var h := HandlerPrompt(contractText, context);
    var w := Worker.BuildPrompt(contractText, context);
    assert h[|h| - 1] == HandlerContractFooter[|HandlerContractFooter| - 1] == ' ';
    assert w[|w| - 1] == Worker.ContractFooter[|Worker.ContractFooter| - 1] == '-';
  }

  // ---------------------------------------------------------------------------
  // handler
  // ---------------------------------------------------------------------------

  /** The request: its method and the parsed body, `None` when the body is `undefined`. */
  datatype HandlerRequest = HandlerRequest(verb: string, body: Option<Json>)

  /** The argument of `ai.models.generateContent`. */
  datatype GenerateRequest = GenerateRequest(model: string, contents: string, responseMimeType: string,
                                             responseSchema: SchemaNode, temperature: real)

  /** How the SDK call ends: `response.text` (possibly undefined), or a throw. */
  datatype SdkOutcome = Generated(text: Option<string>) | SdkThrew(error: Thrown)

  datatype HandlerResponse = HandlerResponse(status: nat, body: Json)

  /** The inputs of the SDK call made (if any) and the response sent. */
  datatype HandlerExchange = HandlerExchange(sent: Option<Worker.CallInputs>, response: HandlerResponse)

  const NoResponseMessage: string := "No response generated from AI"
  const MethodNotAllowedMessage: string := "Only POST requests are accepted"
  const MethodNotAllowed: Json := Message("Method not allowed", MethodNotAllowedMessage)
  const ConfigurationMessage: string := "Server is not properly configured. Please set GENAI_API_KEY environment variable."
  const ConfigurationError: Json := Message("Configuration error", ConfigurationMessage)
  const InvalidRequestMessage: string := "contractText is required and must be a string"
  const InvalidRequest: Json := Message("Invalid request", InvalidRequestMessage)
  const RetryMessage: string := "Failed to analyze contract. Please try again."

  function Message(error: string, message: string): Json
  {
    JObj([("error", JStr(error)), ("message", JStr(message))])
  }

  /** `error instanceof Error ? error.message : 'Unknown error occurred'`. */
  function FailureDetails(t: Thrown): (details: string)
    ensures t.ErrorThrown? ==> details == t.error.message
  {
    match t
    case ErrorThrown(e) => e.message
    case ValueThrown(_) => "Unknown error occurred"
  }

  /**
   * A failed analysis as the `catch` block reports it: 500, the `Analysis failed` title, the retry
   * message for the user and the error's own text under `details`.
   */
  predicate FailedWith(r: HandlerResponse, details: string)
  {
    && r.status == 500 && r.body.JObj? && Keys(r.body.fields) == ["error", "message", "details"]
    && Get(r.body, "error") == Some(JStr("Analysis failed"))
    && Get(r.body, "message") == Some(JStr(RetryMessage))
    && Get(r.body, "details") == Some(JStr(details))
  }

  /** The `catch` block's response. */
  function AnalysisFailed(t: Thrown): (r: HandlerResponse)
    ensures FailedWith(r, FailureDetails(t))
  {
    var fields := [("error", JStr("Analysis failed")), ("message", JStr(RetryMessage)), ("details", JStr(FailureDetails(t)))];
    assert "error"[0] != "message"[0] && "error"[0] != "details"[0] && "message"[0] != "details"[0];
    LookupThree("error", "message", "details", JStr("Analysis failed"), JStr(RetryMessage), JStr(FailureDetails(t)));
    HandlerResponse(500, JObj(fields))
  }

  /** Each of three distinct keys reads back its own value. */
  lemma LookupThree(k0: string, k1: string, k2: string, v0: Json, v1: Json, v2: Json)
    requires k0 != k1 && k0 != k2 && k1 != k2
    ensures var fields := [(k0, v0), (k1, v1), (k2, v2)];
            Lookup(fields, k0) == Some(v0) && Lookup(fields, k1) == Some(v1) && Lookup(fields, k2) == Some(v2)
            && Keys(fields) == [k0, k1, k2]
  {
    var first, second, third := [(k0, v0)], [(k1, v1)], [(k2, v2)];
    var front := first + second;
    assert front + third == [(k0, v0), (k1, v1), (k2, v2)];
    assert Lookup(first, k0) == Some(v0) && Lookup(second, k1) == Some(v1) && Lookup(third, k2) == Some(v2);
    assert Lookup(second, k0).None? && Lookup(third, k0).None? && Lookup(third, k1).None?;
    LookupAppend(first, second, k0);
    LookupAppend(first, second, k1);
    LookupAppend(front, third, k0);
    LookupAppend(front, third, k1);
    LookupAppend(front, third, k2);
    KeysThree(k0, k1, k2, v0, v1, v2);
  }

  /** The keys of three fields, in order. */
  lemma KeysThree(k0: string, k1: string, k2: string, v0: Json, v1: Json, v2: Json)
    ensures Keys([(k0, v0), (k1, v1), (k2, v2)]) == [k0, k1, k2]
  {
    var keys := Keys([(k0, v0), (k1, v1), (k2, v2)]);
    assert keys[0] == k0 && keys[1] == k1 && keys[2] == k2;
  }

  /** The TypeError V8 raises for `body.contractText` when the body is missing or null. */
  function MissingBodyError(body: Option<Json>): ErrorObject
  {
    ErrorObject("TypeError", "Cannot read properties of " + (if body.None? then "undefined" else "null") + " (reading 'contractText')")
  }

  /** `contractText` is a non-empty string; unlike the worker there is no minimum length and no trimming. */
  predicate PresentContract(contractText: Option<Json>)
  {
    Truthy(contractText) && contractText.value.JStr?
  }

  /** The request reaches the SDK call. */
  predicate Reaches(req: HandlerRequest, apiKey: Option<string>)
  {
    && req.verb == "POST" && apiKey.Some? && apiKey.value != ""
    && req.body.Some? && !req.body.value.JNull?
    && PresentContract(Get(req.body.value, "contractText"))
  }

  /**
   * The `generateContent` argument for a call: the fixed model, the prompt built from the contract and
   * context, the JSON mime type, the schema and temperature 0.2. The key goes to the client's constructor.
   */
  function GenerateCall(c: Worker.CallInputs): (r: GenerateRequest)
    ensures r.contents == HandlerPrompt(c.contractText, c.context)
    ensures r.model == "gemini-2.5-flash" && r.responseSchema == AnalysisSchema
    ensures r.responseMimeType == "application/json" && r.temperature == 0.2
  {
    GenerateRequest("gemini-2.5-flash", HandlerPrompt(c.contractText, c.context), "application/json", AnalysisSchema, 0.2)
  }

  /**
   * What happens after the SDK call returns or throws: the parsed text with 200, or a failed analysis
   * whose `details` says why.
   */
  function Complete(outcome: SdkOutcome, parse: Parser): (r: HandlerResponse)
    // The SDK threw: its message, or the fixed text for a non-Error value.
    ensures outcome.SdkThrew? ==> FailedWith(r, FailureDetails(outcome.error))
    // No text, or empty text: the handler's own "No response" error.
    ensures outcome.Generated? && (outcome.text.None? || outcome.text.value == "") ==> FailedWith(r, NoResponseMessage)
    // Text that is not JSON: the SyntaxError's message.
    ensures outcome.Generated? && outcome.text.Some? && outcome.text.value != "" && parse(outcome.text.value).Failure? ==>
      FailedWith(r, parse(outcome.text.value).error)
    // Parseable text: 200 with the parsed value, unvalidated.
    ensures outcome.Generated? && outcome.text.Some? && outcome.text.value != "" && parse(outcome.text.value).Success? ==>
      r == HandlerResponse(200, parse(outcome.text.value).value)
  {
    match outcome
    case SdkThrew(e) => AnalysisFailed(e)
    case Generated(text) =>
      if text.None? || text.value == "" then
        AnalysisFailed(ErrorThrown(ErrorObject("Error", NoResponseMessage)))
      else
        match parse(text.value)
        case Failure(m) => AnalysisFailed(ErrorThrown(ErrorObject("SyntaxError", m)))
        case Success(data) => HandlerResponse(200, data)
  }

  function Handle(req: HandlerRequest, apiKey: Option<string>, parse: Parser, show: Shower, outcome: SdkOutcome): (x: HandlerExchange)
    ensures req.verb != "POST" ==>
      x == HandlerExchange(None, HandlerResponse(405, MethodNotAllowed))
    ensures req.verb == "POST" && !(apiKey.Some? && apiKey.value != "") ==>
      x == HandlerExchange(None, HandlerResponse(500, ConfigurationError))
    // A missing or null body fails inside the `try`: a failed analysis with V8's TypeError message.
    ensures req.verb == "POST" && apiKey.Some? && apiKey.value != "" && (req.body.None? || req.body.value.JNull?) ==>
      x.sent.None? && FailedWith(x.response, MissingBodyError(req.body).message)
    // A contract text that is absent, empty or not a string is 400 "Invalid request".
    ensures req.verb == "POST" && apiKey.Some? && apiKey.value != "" && req.body.Some? && !req.body.value.JNull?
            && !PresentContract(Get(req.body.value, "contractText")) ==>
      x == HandlerExchange(None, HandlerResponse(400, InvalidRequest))
    ensures x.sent.Some? <==> Reaches(req, apiKey)
    ensures Reaches(req, apiKey) ==>
      var body := req.body.value;
      x.sent == Some(Worker.CallInputs(apiKey.value, Get(body, "contractText").value.s,
                                       Worker.ContextArgument(Get(body, "context"), show)))
      && x.response == Complete(outcome, parse)
  {
    if req.verb != "POST" then
      HandlerExchange(None, HandlerResponse(405, MethodNotAllowed))
    else if !(apiKey.Some? && apiKey.value != "") then
      HandlerExchange(None, HandlerResponse(500, ConfigurationError))
    else if req.body.None? || req.body.value.JNull? then
      HandlerExchange(None, AnalysisFailed(ErrorThrown(MissingBodyError(req.body))))
    else
      var body := req.body.value;
      var contractText := Get(body, "contractText");
      if !PresentContract(contractText) then
        HandlerExchange(None, HandlerResponse(400, InvalidRequest))
      else
        var call := Worker.CallInputs(apiKey.value, contractText.value.s, Worker.ContextArgument(Get(body, "context"), show));
        HandlerExchange(Some(call), Complete(outcome, parse))
  }

  /** A 200 carries exactly the parsed model text; it happens only when the SDK produced non-empty, parseable text. */
  lemma HandleSuccess(req: HandlerRequest, apiKey: Option<string>, parse: Parser, show: Shower, outcome: SdkOutcome)
    ensures var x := Handle(req, apiKey, parse, show, outcome);
            x.response.status == 200 <==>
              (Reaches(req, apiKey) && outcome.Generated? && outcome.text.Some? && outcome.text.value != ""
               && parse(outcome.text.value).Success?)
    ensures var x := Handle(req, apiKey, parse, show, outcome);
            x.response.status == 200 ==> x.response.body == parse(outcome.text.value).value
  {
  }

  /** The `message` string of a response body, or the empty string when it has none. */
  function MessageText(body: Json): string
  {
    match Get(body, "message")
    case Some(JStr(m)) => m
    case _ => ""
  }

  /** An error body as the handler writes it: an object led by `error`, then a non-empty `message` string. */
  predicate NamesError(body: Json)
  {
    && body.JObj? && |body.fields| >= 2
    && body.fields[0].0 == "error" && body.fields[1].0 == "message"
    && Get(body, "message") == Some(JStr(MessageText(body)))
    && MessageText(body) != ""
  }

  lemma MessageNamesError(error: string, message: string)
    requires message != ""
    ensures NamesError(Message(error, message)) && MessageText(Message(error, message)) == message
  {
  }

  lemma AnalysisFailedNamesError(t: Thrown)
    ensures NamesError(AnalysisFailed(t).body) && MessageText(AnalysisFailed(t).body) == RetryMessage
  {
    var fields := AnalysisFailed(t).body.fields;
    assert fields[2].0[0] == 'd';
    assert Lookup(fields, "message") == Lookup(fields[..2], "message");
  }

  /** After the SDK call the answer is the parsed text, or a failed analysis that names its error. */
  lemma CompleteStatuses(outcome: SdkOutcome, parse: Parser)
    ensures Complete(outcome, parse).status in {200, 500}
    ensures Complete(outcome, parse).status != 200 ==> NamesError(Complete(outcome, parse).body)
  {
    match outcome
    case SdkThrew(e) =>
      AnalysisFailedNamesError(e);
    case Generated(text) =>
      if text.None? || text.value == "" {
        AnalysisFailedNamesError(ErrorThrown(ErrorObject("Error", NoResponseMessage)));
      } else if parse(text.value).Failure? {
        AnalysisFailedNamesError(ErrorThrown(ErrorObject("SyntaxError", parse(text.value).error)));
      }
  }

  /**
   * Every response has one of four statuses, and every non-200 body names its error and carries a
   * non-empty `message`, the field the browser shows.
   */
  lemma HandleStatuses(req: HandlerRequest, apiKey: Option<string>, parse: Parser, show: Shower, outcome: SdkOutcome)
    ensures var r := Handle(req, apiKey, parse, show, outcome).response;
            r.status in {200, 400, 405, 500} && (r.status != 200 ==> NamesError(r.body))
  {
    if req.verb != "POST" {
      MessageNamesError("Method not allowed", MethodNotAllowedMessage);
    } else if !(apiKey.Some? && apiKey.value != "") {
      MessageNamesError("Configuration error", ConfigurationMessage);
    } else if req.body.None? || req.body.value.JNull? {
      AnalysisFailedNamesError(ErrorThrown(MissingBodyError(req.body)));
    } else if !PresentContract(Get(req.body.value, "contractText")) {
      MessageNamesError("Invalid request", InvalidRequestMessage);
    } else {
      CompleteStatuses(outcome, parse);
    }
  }

  /** A missing or null body is reported as a failed analysis carrying the TypeError's message. */
  lemma HandleMissingBody(verb: string, body: Option<Json>, apiKey: string, parse: Parser, show: Shower, outcome: SdkOutcome)
    requires verb == "POST" && apiKey != "" && (body.None? || body.value.JNull?)
    ensures Handle(HandlerRequest(verb, body), Some(apiKey), parse, show, outcome)
            == HandlerExchange(None, AnalysisFailed(ErrorThrown(MissingBodyError(body))))
  {
  }

  /** The handler sends a one-character contract to the model. */
  lemma HandlerAcceptsShortContract(apiKey: string, parse: Parser, show: Shower, outcome: SdkOutcome)
    requires apiKey != ""
    ensures Handle(HandlerRequest("POST", Some(JObj([("contractText", JStr("x"))]))), Some(apiKey), parse, show, outcome).sent.Some?
  {
    assert Get(JObj([("contractText", JStr("x"))]), "contractText") == Some(JStr("x"));
  }

  /** The worker rejects the same contract with a 400: it demands ten characters after trimming. */
  lemma WorkerRejectsShortContract(apiKey: string, parse: Parser, show: Shower,
                                   upstream: Worker.UpstreamOutcome, requestText: string)
    requires apiKey != ""
    requires parse(requestText) == Success(JObj([("contractText", JStr("x"))]))
    ensures var x := Worker.Fetch(Worker.Request("POST", "/analyze", None, requestText), Worker.Env(Some(apiKey), None),
                                  parse, show, upstream);
            x.sent.None? && x.reply.Answered? && x.reply.response.status == 400
  {
    var payload := JObj([("contractText", JStr("x"))]);
    assert Get(payload, "contractText") == Some(JStr("x"));
    assert |Trim("x")| <= 1;
    Worker.FetchBadRequest(Worker.Request("POST", "/analyze", None, requestText), Worker.Env(Some(apiKey), None),
                           parse, show, upstream);
  }
}
