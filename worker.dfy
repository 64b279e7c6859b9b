/**
 * The Cloudflare worker (server/cloudflare-worker/src/worker.ts): the
 * response schema it sends upstream, the prompt template, the CORS origin
 * rule, and the fixed chain of early returns of its `fetch` handler. The
 * upstream HTTP call, `JSON.parse`, `String(...)` and `encodeURIComponent`
 * are inputs.
 */
module Worker {
  import opened Wrappers
  import opened Json
  import opened Types
  import opened Schema

  // ---------------------------------------------------------------------------
  // analysisSchema
  // ---------------------------------------------------------------------------

  const RiskClauseSchema: SchemaNode := ObjectSchema([
    Property("clause", StringSchema(Some("A cláusula problemática."), [])),
    Property("reason", StringSchema(Some("Por que é perigosa (linguagem simples)."), [])),
    Property("impact", StringSchema(Some("Quem se prejudica."), [])),
    Property("recommendation", StringSchema(Some("Recomendação de mudança específica."), []))],
    ["clause", "reason", "impact", "recommendation"])

  const FavorableTermSchema: SchemaNode := ObjectSchema([
    Property("clause", StringSchema(Some("A cláusula favorável."), [])),
    Property("benefit", StringSchema(Some("Por que é vantajoso."), []))],
    ["clause", "benefit"])

  const AnalysisSchema: SchemaNode := ObjectSchema([
    Property("executiveSummary", StringSchema(Some("Resumo executivo em 3-5 linhas (Tipo, partes, duração, valor)."), [])),
    Property("contractType", StringSchema(Some("O tipo de contrato identificado (ex: Prestação de Serviços)."), [])),
    Property("riskLevel", StringSchema(Some("Status de risco geral."), ["BAIXO", "MÉDIO", "ALTO"])),
    Property("riskClauses", ArraySchema(None, RiskClauseSchema)),
    Property("missingTerms", ArraySchema(Some("Lista de termos importantes que estão faltando."), StringSchema(None, []))),
    Property("favorableTerms", ArraySchema(None, FavorableTermSchema)),
    Property("practicalRecommendations", ArraySchema(Some("Ações práticas priorizadas para o advogado/cliente."), StringSchema(None, []))),
    Property("clientQuestions", ArraySchema(Some("Perguntas para pedir contexto ao cliente, se necessário."), StringSchema(None, [])))],
    ["executiveSummary", "contractType", "riskLevel", "riskClauses",
     "missingTerms", "favorableTerms", "practicalRecommendations", "clientQuestions"])

  /** The schema's shape matches the result type: field names, required lists and the risk-level enum. */
  lemma SchemaShape()
    ensures AnalysisSchema.ObjectSchema?
    ensures AnalysisSchema.required == ResponseFieldNames
    ensures PropertyNames(AnalysisSchema.properties) == ResponseFieldNames
    ensures AnalysisSchema.properties[2] == Property("riskLevel", StringSchema(Some("Status de risco geral."), RiskLevelNames))
    ensures RiskClauseSchema.required == RiskClauseFieldNames
    ensures PropertyNames(RiskClauseSchema.properties) == RiskClauseFieldNames
    ensures FavorableTermSchema.required == FavorableTermFieldNames
    ensures PropertyNames(FavorableTermSchema.properties) == FavorableTermFieldNames
  {
    assert PropertyNames(AnalysisSchema.properties) == ResponseFieldNames;
  }

  lemma StringConforms(v: Json)
    ensures Conforms(StringSchema(None, []), v) <==> AsString(v).Some?
  {
  }

  /** An object schema whose properties are plain strings, each of them required, in the same order. */
  predicate StringRecordSchema(s: SchemaNode)
  {
    && s.ObjectSchema? && PropertyNames(s.properties) == s.required
    && forall k :: 0 <= k < |s.properties| ==> s.properties[k].schema.StringSchema? && s.properties[k].schema.enumValues == []
  }

  /** A value conforms to a string-record schema exactly when it is an object with a string under every key. */
  lemma StringRecordConforms(s: SchemaNode, v: Json)
    requires StringRecordSchema(s)
    ensures Conforms(s, v) <==> v.JObj? && forall k :: 0 <= k < |s.required| ==> DecodeString(Get(v, s.required[k])).Some?
  {
    if v.JObj? && forall k :: 0 <= k < |s.required| ==> DecodeString(Get(v, s.required[k])).Some? {
      forall k | 0 <= k < |s.properties| ensures PropertyConforms(s, s.properties[k], v) {
        assert s.properties[k].name == s.required[k];
      }
    }
    if Conforms(s, v) {
      forall k | 0 <= k < |s.required| ensures DecodeString(Get(v, s.required[k])).Some? {
        var p := s.properties[k];
        assert p.name == s.required[k] && p.schema.StringSchema? && p.schema.enumValues == [];
        assert Get(v, s.required[k]).Some?;
        assert PropertyConforms(s, p, v);
        assert Conforms(p.schema, Get(v, p.name).value);
      }
    }
  }

  lemma RiskClauseConforms(v: Json)
    ensures Conforms(RiskClauseSchema, v) <==> DecodeRiskClause(v).Some?
  {
    var s := RiskClauseSchema;
    assert StringRecordSchema(s) by {
      assert PropertyNames(s.properties) == s.required;
    }
    StringRecordConforms(s, v);
    if DecodeRiskClause(v).Some? {
      forall k | 0 <= k < |s.required| ensures DecodeString(Get(v, s.required[k])).Some? {
        assert k in {0, 1, 2, 3};
      }
    }
    if Conforms(s, v) {
      assert DecodeString(Get(v, s.required[0])).Some? && DecodeString(Get(v, s.required[1])).Some?;
      assert DecodeString(Get(v, s.required[2])).Some? && DecodeString(Get(v, s.required[3])).Some?;
    }
  }

  lemma FavorableTermConforms(v: Json)
    ensures Conforms(FavorableTermSchema, v) <==> DecodeFavorableTerm(v).Some?
  {
    var s := FavorableTermSchema;
    assert StringRecordSchema(s) by {
      assert PropertyNames(s.properties) == s.required;
    }
    StringRecordConforms(s, v);
    if DecodeFavorableTerm(v).Some? {
      forall k | 0 <= k < |s.required| ensures DecodeString(Get(v, s.required[k])).Some? {
        assert k in {0, 1};
      }
    }
    if Conforms(s, v) {
      assert DecodeString(Get(v, s.required[0])).Some? && DecodeString(Get(v, s.required[1])).Some?;
    }
  }

  /** An array property conforms exactly when every element decodes. */
  lemma ArrayConforms<T>(items: SchemaNode, description: Option<string>, field: Option<Json>, decode: Json -> Option<T>)
    requires forall v :: Conforms(items, v) <==> decode(v).Some?
    requires field.Some?
    ensures Conforms(ArraySchema(description, items), field.value) <==> DecodeList(field, decode).Some?
  {
  }

  /** What `Decode` asks of each of the eight fields. */
  predicate FieldsDecode(v: Json)
  {
    && DecodeString(Get(v, "executiveSummary")).Some?
    && DecodeString(Get(v, "contractType")).Some?
    && DecodeString(Get(v, "riskLevel")).Some?
    && DecodeString(Get(v, "riskLevel")).value in RiskLevelNames
    && DecodeList(Get(v, "riskClauses"), DecodeRiskClause).Some?
    && DecodeList(Get(v, "missingTerms"), AsString).Some?
    && DecodeList(Get(v, "favorableTerms"), DecodeFavorableTerm).Some?
    && DecodeList(Get(v, "practicalRecommendations"), AsString).Some?
    && DecodeList(Get(v, "clientQuestions"), AsString).Some?
  }

  lemma DecodeIff(v: Json)
    ensures Decode(v).Some? <==> FieldsDecode(v)
  {
  }

  lemma ScalarProperties(v: Json)
    ensures PropertyConforms(AnalysisSchema, AnalysisSchema.properties[0], v)
            <==> Get(v, "executiveSummary").None? || DecodeString(Get(v, "executiveSummary")).Some?
    ensures PropertyConforms(AnalysisSchema, AnalysisSchema.properties[1], v)
            <==> Get(v, "contractType").None? || DecodeString(Get(v, "contractType")).Some?
    ensures PropertyConforms(AnalysisSchema, AnalysisSchema.properties[2], v)
            <==> Get(v, "riskLevel").None?
                 || (DecodeString(Get(v, "riskLevel")).Some? && DecodeString(Get(v, "riskLevel")).value in RiskLevelNames)
  {
  }

  lemma RiskClausesProperty(v: Json)
    requires Get(v, "riskClauses").Some?
    ensures PropertyConforms(AnalysisSchema, AnalysisSchema.properties[3], v)
            <==> DecodeList(Get(v, "riskClauses"), DecodeRiskClause).Some?
  {
    forall w ensures Conforms(RiskClauseSchema, w) <==> DecodeRiskClause(w).Some? {
      RiskClauseConforms(w);
    }
    assert AnalysisSchema.properties[3] == Property("riskClauses", ArraySchema(None, RiskClauseSchema));
    ArrayProperty(AnalysisSchema, 3, None, RiskClauseSchema, v, DecodeRiskClause);
  }

  lemma FavorableTermsProperty(v: Json)
    requires Get(v, "favorableTerms").Some?
    ensures PropertyConforms(AnalysisSchema, AnalysisSchema.properties[5], v)
            <==> DecodeList(Get(v, "favorableTerms"), DecodeFavorableTerm).Some?
  {
    forall w ensures Conforms(FavorableTermSchema, w) <==> DecodeFavorableTerm(w).Some? {
      FavorableTermConforms(w);
    }
    assert AnalysisSchema.properties[5] == Property("favorableTerms", ArraySchema(None, FavorableTermSchema));
    ArrayProperty(AnalysisSchema, 5, None, FavorableTermSchema, v, DecodeFavorableTerm);
  }

  /** A present array property of an object schema conforms exactly when every element decodes. */
  lemma ArrayProperty<T>(s: SchemaNode, k: nat, description: Option<string>, items: SchemaNode, v: Json,
                         decode: Json -> Option<T>)
    requires s.ObjectSchema? && k < |s.properties| && s.properties[k].schema == ArraySchema(description, items)
    requires forall w :: Conforms(items, w) <==> decode(w).Some?
    requires Get(v, s.properties[k].name).Some?
    ensures PropertyConforms(s, s.properties[k], v) <==> DecodeList(Get(v, s.properties[k].name), decode).Some?
  {
    ArrayConforms(items, description, Get(v, s.properties[k].name), decode);
  }

  lemma StringListProperty(v: Json, k: nat)
    requires k in {4, 6, 7}
    requires Get(v, AnalysisSchema.properties[k].name).Some?
    ensures PropertyConforms(AnalysisSchema, AnalysisSchema.properties[k], v)
            <==> DecodeList(Get(v, AnalysisSchema.properties[k].name), AsString).Some?
  {
    var p := AnalysisSchema.properties[k];
    assert p.schema == ArraySchema(p.schema.description, StringSchema(None, []));
    forall w ensures Conforms(StringSchema(None, []), w) <==> AsString(w).Some? {
      StringConforms(w);
    }
    ArrayConforms(StringSchema(None, []), p.schema.description, Get(v, p.name), AsString);
  }

  /** Every one of the eight fields is present. */
  predicate FieldsPresent(v: Json)
  {
    && Get(v, "executiveSummary").Some? && Get(v, "contractType").Some? && Get(v, "riskLevel").Some?
    && Get(v, "riskClauses").Some? && Get(v, "missingTerms").Some? && Get(v, "favorableTerms").Some?
    && Get(v, "practicalRecommendations").Some? && Get(v, "clientQuestions").Some?
  }

  /** The schema's `required` list asks for exactly the eight fields. */
  lemma RequiredPresent(v: Json)
    ensures RequiredIn(AnalysisSchema, v) <==> FieldsPresent(v)
  {
    var r := AnalysisSchema.required;
    if FieldsPresent(v) {
      forall k | 0 <= k < |r| ensures Get(v, r[k]).Some? {
        assert k in {0, 1, 2, 3, 4, 5, 6, 7};
      }
    } else {
      assert !(Get(v, r[0]).Some? && Get(v, r[1]).Some? && Get(v, r[2]).Some? && Get(v, r[3]).Some?
               && Get(v, r[4]).Some? && Get(v, r[5]).Some? && Get(v, r[6]).Some? && Get(v, r[7]).Some?);
    }
  }

  /** What the schema asks of each of the eight properties, once all of them are present. */
  lemma PropertiesConform(v: Json)
    requires FieldsPresent(v)
    ensures PropertiesIn(AnalysisSchema, v) <==> FieldsDecode(v)
  {
    var s := AnalysisSchema;
    ScalarProperties(v);
    RiskClausesProperty(v);
    FavorableTermsProperty(v);
    StringListProperty(v, 4);
    StringListProperty(v, 6);
    StringListProperty(v, 7);
    EightProperties(s, v);
  }

  /** For an object schema with eight properties, the property clause of `Conforms` unrolled. */
  lemma EightProperties(s: SchemaNode, v: Json)
    requires s.ObjectSchema? && |s.properties| == 8
    ensures var ps := s.properties;
            PropertiesIn(s, v)
            <==> PropertyConforms(s, ps[0], v) && PropertyConforms(s, ps[1], v) && PropertyConforms(s, ps[2], v)
                 && PropertyConforms(s, ps[3], v) && PropertyConforms(s, ps[4], v) && PropertyConforms(s, ps[5], v)
                 && PropertyConforms(s, ps[6], v) && PropertyConforms(s, ps[7], v)
  {
    var ps := s.properties;
    if PropertyConforms(s, ps[0], v) && PropertyConforms(s, ps[1], v) && PropertyConforms(s, ps[2], v)
       && PropertyConforms(s, ps[3], v) && PropertyConforms(s, ps[4], v) && PropertyConforms(s, ps[5], v)
       && PropertyConforms(s, ps[6], v) && PropertyConforms(s, ps[7], v) {
      forall k | 0 <= k < |ps| ensures PropertyConforms(s, ps[k], v) {
        assert k in {0, 1, 2, 3, 4, 5, 6, 7};
      }
    }
  }

  /** A JSON value conforms to the schema exactly when it holds an `AnalysisResponse`. */
  lemma SchemaConformance(v: Json)
    ensures Conforms(AnalysisSchema, v) <==> Decode(v).Some?
  {
    DecodeIff(v);
    if FieldsPresent(v) {
      ConformsWhenPresent(v);
    } else {
      AbsentFieldRejected(v);
    }
  }

  lemma ConformsWhenPresent(v: Json)
    requires FieldsPresent(v)
    ensures Conforms(AnalysisSchema, v) <==> FieldsDecode(v)
  {
    ObjectConforms(AnalysisSchema, v);
    RequiredPresent(v);
    PropertiesConform(v);
  }

  lemma AbsentFieldRejected(v: Json)
    requires !FieldsPresent(v)
    ensures !Conforms(AnalysisSchema, v) && !FieldsDecode(v)
  {
    ObjectConforms(AnalysisSchema, v);
    RequiredPresent(v);
  }

  /** The JSON form of every analysis conforms to the schema. */
  lemma EncodeConforms(r: AnalysisResponse)
    ensures Conforms(AnalysisSchema, Encode(r))
  {
    DecodeEncode(r);
    SchemaConformance(Encode(r));
  }

  // ---------------------------------------------------------------------------
  // buildPrompt
  // ---------------------------------------------------------------------------

  const PromptPreamble: string := "Você é um assistente jurídico sênior especializado em análise de contratos sob a legislação brasileira (Código Civil, CDC, etc.).\n\nAnalise o seguinte contrato com extremo rigor. Identifique riscos, cláusulas abusivas, termos faltantes e oportunidades.\nSeja prático e direto. Foco na proteção de quem está recebendo esta análise.\n\n"
  const ContextLabel: string := "CONTEXTO ADICIONAL FORNECIDO PELO USUÁRIO: "
  const ContractHeader: string := "CONTRATO PARA ANÁLISE:\n---\n"
  const ContractFooter: string := "\n---"

  /** The context block between the preamble and the contract: empty when the context is falsy. */
  function ContextBlock(context: Option<string>): string
  {
    if context.Some? then ContextLabel + context.value + "\n\n" else ""
  }

  /** The closing part of every prompt: the contract between two `---` lines. */
  function ContractBlock(contractText: string): string
  {
    ContractHeader + contractText + ContractFooter
  }

  /**
   * The prompt for a contract. `context` is the user's context when it is truthy
   * (already converted to a string by the template) and `None` when it is falsy.
   */
  function BuildPrompt(contractText: string, context: Option<string>): (prompt: string)
    ensures StartsWith(prompt, PromptPreamble)
    ensures EndsWith(prompt, ContractBlock(contractText))
  {
    var rest := ContextBlock(context) + ContractBlock(contractText);
    ConcatParts(PromptPreamble, rest);
    ConcatParts(ContextBlock(context), ContractBlock(contractText));
    EndsWithExtend(PromptPreamble, rest, ContractBlock(contractText));
    PromptPreamble + rest
  }

  /** What follows the preamble: the context block, then the contract block. */
  lemma BuildPromptRest(contractText: string, context: Option<string>)
    ensures BuildPrompt(contractText, context)[|PromptPreamble|..] == ContextBlock(context) + ContractBlock(contractText)
  {
    ConcatParts(PromptPreamble, ContextBlock(context) + ContractBlock(contractText));
  }

  lemma ConcatParts(a: string, b: string)
    ensures StartsWith(a + b, a) && EndsWith(a + b, b) && (a + b)[|a|..] == b
  {
    assert (a + b)[..|a|] == a;
  }

  lemma EndsWithExtend(a: string, b: string, t: string)
    requires EndsWith(b, t)
    ensures EndsWith(a + b, t)
  {
    assert (a + b)[|a + b| - |t|..] == b[|b| - |t|..];
  }

  /** With a context, the preamble is followed by the context label and the context itself. */
  lemma BuildPromptWithContext(contractText: string, context: string)
    ensures StartsWith(BuildPrompt(contractText, Some(context))[|PromptPreamble|..], ContextLabel + context + "\n\n")
  {
    BuildPromptRest(contractText, Some(context));
    ConcatParts(ContextLabel + context + "\n\n", ContractBlock(contractText));
  }

  /** Without a context, the preamble is followed directly by the contract. */
  lemma BuildPromptWithoutContext(contractText: string)
    ensures BuildPrompt(contractText, None) == PromptPreamble + ContractBlock(contractText)
  {
    BuildPromptRest(contractText, None);
    var p := BuildPrompt(contractText, None);
    assert p == p[..|PromptPreamble|] + p[|PromptPreamble|..];
  }

  /** The context label appears after the preamble exactly when a context was given. */
  lemma BuildPromptContextLabel(contractText: string, context: Option<string>)
    ensures StartsWith(BuildPrompt(contractText, context)[|PromptPreamble|..], ContextLabel) <==> context.Some?
  {
    BuildPromptRest(contractText, context);
    if context.Some? {
      LabelOpensContextBlock(context.value, ContractBlock(contractText));
    } else {
      LabelIsNotHeader(ContractBlock(contractText));
    }
  }

  /** A context block opens with the context label, whatever follows it. */
  lemma LabelOpensContextBlock(context: string, rest: string)
    ensures StartsWith(ContextBlock(Some(context)) + rest, ContextLabel)
  {
    var s := ContextBlock(Some(context)) + rest;
    assert s[..|ContextLabel|] == ContextLabel;
  }

  /** Text that opens with the contract header does not open with the context label: they differ at index 4. */
  lemma LabelIsNotHeader(s: string)
    requires StartsWith(s, ContractHeader)
    ensures !StartsWith(s, ContextLabel)
  {
    assert s[..|ContractHeader|][4] == ContractHeader[4] == 'R';
    MismatchNotStartsWith(s, ContextLabel, 4);
  }

  /** The prompt determines the contract text: two different contracts never share a prompt. */
  lemma BuildPromptInjective(a: string, b: string, context: Option<string>)
    requires BuildPrompt(a, context) == BuildPrompt(b, context)
    ensures a == b
  {
    BuildPromptRest(a, context);
    BuildPromptRest(b, context);
    FrameInjective(ContextBlock(context), ContractHeader, a, b, ContractFooter);
  }

  /** The template's `${context ? ... : ''}`: the converted context when it is truthy. */
  function ContextArgument(context: Option<Json>, show: Shower): (r: Option<string>)
    ensures r.Some? <==> Truthy(context)
    ensures r.Some? && context.value.JStr? ==> r.value == context.value.s
  {
    if Truthy(context) then Some(ToJsString(context.value, show)) else None
  }

  // ---------------------------------------------------------------------------
  // corsHeaders
  // ---------------------------------------------------------------------------

  datatype CorsHeaders = CorsHeaders(allowOrigin: string, allowMethods: string, allowHeaders: string)

  /** `allowed` names a specific origin: it is set, non-empty and not `'*'`. */
  predicate Restricted(allowed: Option<string>)
  {
    allowed.Some? && allowed.value != "" && allowed.value != "*"
  }

  function Cors(origin: Option<string>, allowed: Option<string>): (h: CorsHeaders)
    ensures h.allowMethods == "POST, OPTIONS" && h.allowHeaders == "Content-Type"
    ensures h.allowOrigin != ""
    ensures Restricted(allowed) ==>
      h.allowOrigin == if origin.Some? && StartsWith(origin.value, allowed.value) then origin.value else allowed.value
    ensures !Restricted(allowed) ==>
      h.allowOrigin == if origin.Some? && origin.value != "" then origin.value else "*"
  {
    var allowOrigin :=
      if allowed.Some? && allowed.value != "" && allowed.value != "*" then
        (if origin.Some? && origin.value != "" && StartsWith(origin.value, allowed.value) then origin.value else allowed.value)
      else
        (if origin.Some? then origin.value else "*");
    CorsHeaders(if allowOrigin != "" then allowOrigin else "*", "POST, OPTIONS", "Content-Type")
  }

  /** With a specific allowed origin, the granted origin always begins with it. */
  lemma CorsRestrictedPrefix(origin: Option<string>, allowed: Option<string>)
    requires Restricted(allowed)
    ensures StartsWith(Cors(origin, allowed).allowOrigin, allowed.value)
  {
    var a := allowed.value;
    assert a[..|a|] == a;
  }

  /** The granted origin is the request's own origin, the configured one, or `'*'`. */
  lemma CorsOriginSource(origin: Option<string>, allowed: Option<string>)
    ensures var o := Cors(origin, allowed).allowOrigin;
            (origin.Some? && o == origin.value) || (allowed.Some? && o == allowed.value) || o == "*"
  {
  }

  // ---------------------------------------------------------------------------
  // fetch
  // ---------------------------------------------------------------------------

  datatype Env = Env(geminiApiKey: Option<string>, allowedOrigin: Option<string>)

  /** The parts of an incoming request the handler reads: method, URL path, `Origin` header, body text. */
  datatype Request = Request(verb: string, path: string, origin: Option<string>, body: string)

  /** A response: status, JSON body (`None` for a null body), whether it is labelled JSON, and its CORS headers. */
  datatype Response = Response(status: nat, body: Option<Json>, jsonContentType: bool, cors: Option<CorsHeaders>)

  datatype Part = Part(text: string)
  datatype Content = Content(role: string, parts: seq<Part>)
  datatype GenerationConfig = GenerationConfig(temperature: real, responseMimeType: string, responseSchema: SchemaNode)
  datatype UpstreamBody = UpstreamBody(contents: seq<Content>, generationConfig: GenerationConfig)

  /** The `generateContent` call the worker issues. */
  datatype UpstreamRequest = UpstreamRequest(url: string, verb: string, contentType: string, body: UpstreamBody)

  /** How the upstream call ends: a non-ok response with its text, an ok response with its body text, or a throw. */
  datatype UpstreamOutcome = NotOk(text: string) | Ok(bodyText: string) | Threw(error: Thrown)

  /** What the handler gives back: a response, or an exception that escapes it. */
  datatype Reply = Answered(response: Response) | Uncaught

  /**
   * What the upstream call is made from: the API key, the contract text and the context argument of
   * the prompt. `Upstream` renders it as the HTTP request.
   */
  datatype CallInputs = CallInputs(apiKey: string, contractText: string, context: Option<string>)

  /** The inputs of the upstream call made (if any) and the reply. */
  datatype Exchange = Exchange(sent: Option<CallInputs>, reply: Reply)

  const ApiUrlPrefix: string := "https://generativelanguage.googleapis.com/v1beta/models/gemini-2.5-flash:generateContent?key="
  const MissingKeyMessage: string := "GEMINI_API_KEY não configurada."
  const ShortContractMessage: string := "Texto de contrato ausente ou muito curto."

  function PartJson(p: Part): Json
  {
    JObj([("text", JStr(p.text))])
  }

  function ContentJson(c: Content): Json
  {
    JObj([("role", JStr(c.role)), ("parts", JArr(seq(|c.parts|, k requires 0 <= k < |c.parts| => PartJson(c.parts[k]))))])
  }

  /** The request body as the worker serialises it, with the wire names of its keys. */
  function UpstreamBodyJson(b: UpstreamBody): Json
  {
    JObj([
      ("contents", JArr(seq(|b.contents|, i requires 0 <= i < |b.contents| => ContentJson(b.contents[i])))),
      ("generationConfig", JObj([
        ("temperature", JNum(b.generationConfig.temperature)),
        ("response_mime_type", JStr(b.generationConfig.responseMimeType)),
        ("response_schema", SchemaToJson(b.generationConfig.responseSchema))]))])
  }

  function UpstreamCall(apiKey: string, prompt: string, encodeUri: string -> string): UpstreamRequest
  {
    UpstreamRequest(
      ApiUrlPrefix + encodeUri(apiKey), "POST", "application/json",
      UpstreamBody([Content("user", [Part(prompt)])], GenerationConfig(0.2, "application/json", AnalysisSchema)))
  }

  /** The `fetch` the worker issues for a call: the key in the URL, the prompt built from the contract and context. */
  function Upstream(c: CallInputs, encodeUri: string -> string): (r: UpstreamRequest)
    ensures r.body.contents == [Content("user", [Part(BuildPrompt(c.contractText, c.context))])]
    ensures r.body.generationConfig.responseSchema == AnalysisSchema
  {
    UpstreamCall(c.apiKey, BuildPrompt(c.contractText, c.context), encodeUri)
  }

  function ErrorBody(message: string): Json
  {
    JObj([("error", JStr(message))])
  }

  function JsonResponse(status: nat, body: Json, cors: Option<CorsHeaders>): Response
  {
    Response(status, Some(body), true, cors)
  }

  /** `aiJson?.candidates?.[0]?.content?.parts?.[0]?.text`. */
  function EnvelopeText(envelope: Json): Option<Json>
  {
    GetOpt(First(GetOpt(GetOpt(First(Get(envelope, "candidates")), "content"), "parts")), "text")
  }

  /** `contractText` is a string whose trimmed length, in UTF-16 code units, is at least 10. */
  predicate ValidContract(contractText: Option<Json>)
  {
    Truthy(contractText) && contractText.value.JStr? && Utf16Length(Trim(contractText.value.s)) >= 10
  }

  /** The request reaches the upstream call: every guard before it passes. */
  predicate Accepted(req: Request, env: Env, parse: Parser)
  {
    && req.verb == "POST" && req.path == "/analyze"
    && env.geminiApiKey.Some? && env.geminiApiKey.value != ""
    && parse(req.body).Success? && !parse(req.body).value.JNull?
    && ValidContract(Get(parse(req.body).value, "contractText"))
  }

  /** An error body with an `error` title and a second field carrying the detail. */
  function DetailBody(error: string, key: string, detail: Json): Json
  {
    JObj([("error", JStr(error)), (key, detail)])
  }

  /**
   * The responses of the `try` block that wraps the upstream call, one per way the call can end.
   * Every answer carries the CORS headers and is labelled JSON.
   */
  function Classify(upstream: UpstreamOutcome, parse: Parser, show: Shower, cors: CorsHeaders): (r: Response)
    // A thrown `fetch` is caught by the outer `catch`: 500 with the thrown value as text.
    ensures upstream.Threw? ==>
      r == JsonResponse(500, DetailBody("Erro interno", "details", JStr(ThrownToString(upstream.error))), Some(cors))
    // A non-ok upstream answer is a 502 that passes its text on.
    ensures upstream.NotOk? ==>
      r == JsonResponse(502, DetailBody("Falha na geração", "details", JStr(upstream.text)), Some(cors))
    // An envelope that is not JSON makes `aiRes.json()` reject with a SyntaxError: 500.
    ensures upstream.Ok? && parse(upstream.bodyText).Failure? ==>
      r == JsonResponse(500, DetailBody("Erro interno", "details",
                                        JStr(ErrorToString(ErrorObject("SyntaxError", parse(upstream.bodyText).error)))), Some(cors))
    // An envelope without a truthy candidate text: 502, nothing generated.
    ensures upstream.Ok? && parse(upstream.bodyText).Success? && !Truthy(EnvelopeText(parse(upstream.bodyText).value)) ==>
      r == JsonResponse(502, ErrorBody("Resposta vazia do modelo"), Some(cors))
    // Generated text that is not JSON: 502 echoing the text under `raw`.
    ensures upstream.Ok? && parse(upstream.bodyText).Success? && Truthy(EnvelopeText(parse(upstream.bodyText).value))
            && parse(ToJsString(EnvelopeText(parse(upstream.bodyText).value).value, show)).Failure? ==>
      r == JsonResponse(502, DetailBody("Falha ao parsear JSON gerado", "raw",
                                        EnvelopeText(parse(upstream.bodyText).value).value), Some(cors))
  {
    match upstream
    case Threw(e) =>
      JsonResponse(500, DetailBody("Erro interno", "details", JStr(ThrownToString(e))), Some(cors))
    case NotOk(msg) =>
      JsonResponse(502, DetailBody("Falha na geração", "details", JStr(msg)), Some(cors))
    case Ok(bodyText) =>
      match parse(bodyText)
      case Failure(m) =>
        // `aiRes.json()` rejects with a SyntaxError, caught by the outer `catch`.
        JsonResponse(500, DetailBody("Erro interno", "details", JStr(ErrorToString(ErrorObject("SyntaxError", m)))), Some(cors))
      case Success(envelope) =>
        var text := EnvelopeText(envelope);
        if !Truthy(text) then
          JsonResponse(502, ErrorBody("Resposta vazia do modelo"), Some(cors))
        else
          match parse(ToJsString(text.value, show))
          case Failure(_) =>
            JsonResponse(502, DetailBody("Falha ao parsear JSON gerado", "raw", text.value), Some(cors))
          case Success(parsed) =>
            JsonResponse(200, parsed, Some(cors))
  }

  /** The worker's `fetch`: a fixed chain of early returns. */
  function Fetch(req: Request, env: Env, parse: Parser, show: Shower,
                 upstream: UpstreamOutcome): (x: Exchange)
    // OPTIONS is answered first, whatever the path, with the CORS headers and no body.
    ensures req.verb == "OPTIONS" ==>
      x == Exchange(None, Answered(Response(200, None, false, Some(Cors(req.origin, env.allowedOrigin)))))
    // Any other method, or another path, is 404 without CORS headers.
    ensures req.verb != "OPTIONS" && (req.path != "/analyze" || req.verb != "POST") ==>
      x == Exchange(None, Answered(JsonResponse(404, ErrorBody("Not Found"), None)))
    // A missing key is 500 without CORS headers.
    ensures req.verb == "POST" && req.path == "/analyze" && !(env.geminiApiKey.Some? && env.geminiApiKey.value != "") ==>
      x == Exchange(None, Answered(JsonResponse(500, ErrorBody(MissingKeyMessage), None)))
    // A body that is not JSON is 400 "JSON inválido".
    ensures req.verb == "POST" && req.path == "/analyze" && env.geminiApiKey.Some? && env.geminiApiKey.value != ""
            && parse(req.body).Failure? ==>
      x == Exchange(None, Answered(JsonResponse(400, ErrorBody("JSON inválido"), Some(Cors(req.origin, env.allowedOrigin)))))
    // A missing, non-string or too short contract text is 400 with the short-contract message.
    ensures req.verb == "POST" && req.path == "/analyze" && env.geminiApiKey.Some? && env.geminiApiKey.value != ""
            && parse(req.body).Success? && !parse(req.body).value.JNull?
            && !ValidContract(Get(parse(req.body).value, "contractText")) ==>
      x == Exchange(None, Answered(JsonResponse(400, ErrorBody(ShortContractMessage), Some(Cors(req.origin, env.allowedOrigin)))))
    // The upstream is called exactly when every guard passes.
    ensures x.sent.Some? <==> Accepted(req, env, parse)
    ensures Accepted(req, env, parse) ==>
      var payload := parse(req.body).value;
      x.sent == Some(CallInputs(env.geminiApiKey.value, Get(payload, "contractText").value.s,
                                ContextArgument(Get(payload, "context"), show)))
      && x.reply == Answered(Classify(upstream, parse, show, Cors(req.origin, env.allowedOrigin)))
  {
    var cors := Cors(req.origin, env.allowedOrigin);
    if req.verb == "OPTIONS" then
      Exchange(None, Answered(Response(200, None, false, Some(cors))))
    else if req.path != "/analyze" || req.verb != "POST" then
      Exchange(None, Answered(JsonResponse(404, ErrorBody("Not Found"), None)))
    else if !(env.geminiApiKey.Some? && env.geminiApiKey.value != "") then
      Exchange(None, Answered(JsonResponse(500, ErrorBody(MissingKeyMessage), None)))
    else
      match parse(req.body)
      case Failure(_) =>
        Exchange(None, Answered(JsonResponse(400, ErrorBody("JSON inválido"), Some(cors))))
      case Success(payload) =>
        if payload.JNull? then
          // `const { contractText, context } = payload` throws a TypeError outside any `try`.
          Exchange(None, Uncaught)
        else
          var contractText := Get(payload, "contractText");
          if !ValidContract(contractText) then
            Exchange(None, Answered(JsonResponse(400, ErrorBody(ShortContractMessage), Some(cors))))
          else
            var call := CallInputs(env.geminiApiKey.value, contractText.value.s, ContextArgument(Get(payload, "context"), show));
            Exchange(Some(call),
                     Answered(Classify(upstream, parse, show, cors)))
  }

  /** Every answered request gets one of the five statuses the worker uses. */
  lemma FetchStatuses(req: Request, env: Env, parse: Parser, show: Shower,
                      upstream: UpstreamOutcome)
    ensures var x := Fetch(req, env, parse, show, upstream);
            x.reply.Answered? ==> x.reply.response.status in {200, 400, 404, 500, 502}
  {
    ClassifySuccess(upstream, parse, show, Cors(req.origin, env.allowedOrigin));
  }

  /** Only a `null` JSON payload escapes the handler, and it does so before any upstream call. */
  lemma FetchUncaught(req: Request, env: Env, parse: Parser, show: Shower,
                      upstream: UpstreamOutcome)
    ensures var x := Fetch(req, env, parse, show, upstream);
            x.reply.Uncaught? <==>
              (req.verb == "POST" && req.path == "/analyze" && env.geminiApiKey.Some? && env.geminiApiKey.value != ""
               && parse(req.body) == Success(JNull))
  {
  }

  /**
   * Every CORS header set the worker sends is the one computed from the request's origin and the
   * configuration, and only the 404 and the missing-key 500 go out without one.
   */
  lemma FetchCorsConsistent(req: Request, env: Env, parse: Parser, show: Shower,
                            upstream: UpstreamOutcome)
    ensures var x := Fetch(req, env, parse, show, upstream);
            x.reply.Answered? && x.reply.response.cors.None? <==>
              req.verb != "OPTIONS"
              && (req.path != "/analyze" || req.verb != "POST" || !(env.geminiApiKey.Some? && env.geminiApiKey.value != ""))
    ensures var x := Fetch(req, env, parse, show, upstream);
            x.reply.Answered? && x.reply.response.cors.Some? ==> x.reply.response.cors.value == Cors(req.origin, env.allowedOrigin)
    ensures var x := Fetch(req, env, parse, show, upstream);
            x.reply.Answered? ==> (x.reply.response.jsonContentType <==> req.verb != "OPTIONS")
  {
    ClassifyHeaders(upstream, parse, show, Cors(req.origin, env.allowedOrigin));
  }

  lemma ClassifyHeaders(upstream: UpstreamOutcome, parse: Parser, show: Shower, cors: CorsHeaders)
    ensures Classify(upstream, parse, show, cors).cors == Some(cors)
    ensures Classify(upstream, parse, show, cors).jsonContentType
  {
  }

  /** A 400 answer means the body was not JSON or the contract text was missing, not a string, or too short. */
  lemma FetchBadRequest(req: Request, env: Env, parse: Parser, show: Shower,
                        upstream: UpstreamOutcome)
    ensures var x := Fetch(req, env, parse, show, upstream);
            x.reply.Answered? && x.reply.response.status == 400 <==>
              (req.verb == "POST" && req.path == "/analyze" && env.geminiApiKey.Some? && env.geminiApiKey.value != ""
               && (parse(req.body).Failure?
                   || (!parse(req.body).value.JNull? && !ValidContract(Get(parse(req.body).value, "contractText")))))
  {
    ClassifySuccess(upstream, parse, show, Cors(req.origin, env.allowedOrigin));
  }

  /** The upstream text reaches the client unchanged exactly when every step of the model's answer succeeds. */
  lemma ClassifySuccess(upstream: UpstreamOutcome, parse: Parser, show: Shower, cors: CorsHeaders)
    ensures var r := Classify(upstream, parse, show, cors);
            r.status == 200 <==>
              (upstream.Ok? && parse(upstream.bodyText).Success?
               && Truthy(EnvelopeText(parse(upstream.bodyText).value))
               && parse(ToJsString(EnvelopeText(parse(upstream.bodyText).value).value, show)).Success?)
    ensures var r := Classify(upstream, parse, show, cors);
            r.status == 200 ==>
              r.body == Some(parse(ToJsString(EnvelopeText(parse(upstream.bodyText).value).value, show)).value)
    ensures Classify(upstream, parse, show, cors).status in {200, 500, 502}
  {
  }

  /**
   * A 500 after the call means the call itself failed (it threw, or its answer was not JSON); every
   * answer the model's side gave that carries no usable analysis is a 502.
   */
  lemma ClassifyStatusCauses(upstream: UpstreamOutcome, parse: Parser, show: Shower, cors: CorsHeaders)
    ensures var r := Classify(upstream, parse, show, cors);
            r.status == 500 <==> upstream.Threw? || (upstream.Ok? && parse(upstream.bodyText).Failure?)
    ensures var r := Classify(upstream, parse, show, cors);
            r.status == 502 <==> upstream.NotOk? || (upstream.Ok? && parse(upstream.bodyText).Success? && r.status != 200)
  {
  }

  /** The envelope Gemini sends back: the generated text as the first part of the first candidate. */
  function Envelope(text: string): Json
  {
    JObj([("candidates", JArr([JObj([("content", JObj([("parts", JArr([JObj([("text", JStr(text))])]))]))])]))])
  }

  lemma EnvelopeTextOf(text: string)
    ensures EnvelopeText(Envelope(text)) == Some(JStr(text))
  {
    var inner := JObj([("text", JStr(text))]);
    var content := JObj([("parts", JArr([inner]))]);
    var candidate := JObj([("content", content)]);
    assert Get(Envelope(text), "candidates") == Some(JArr([candidate]));
    assert First(Some(JArr([candidate]))) == Some(candidate);
    assert GetOpt(Some(candidate), "content") == Some(content);
    assert GetOpt(Some(content), "parts") == Some(JArr([inner]));
    assert First(Some(JArr([inner]))) == Some(inner);
  }

  /**
   * End to end: when the model's text is the JSON of an analysis, the client receives a 200 whose body
   * conforms to the schema sent upstream and decodes back to that analysis.
   */
  lemma FetchDeliversAnalysis(req: Request, env: Env, parse: Parser, show: Shower,
                              envelopeText: string, text: string, analysis: AnalysisResponse)
    requires Accepted(req, env, parse)
    requires text != "" && parse(envelopeText) == Success(Envelope(text)) && parse(text) == Success(Encode(analysis))
    ensures var x := Fetch(req, env, parse, show, Ok(envelopeText));
            x.sent.Some? && x.reply.Answered? && x.reply.response.status == 200
            && x.reply.response.body == Some(Encode(analysis))
            && Decode(x.reply.response.body.value) == Some(analysis)
            && Conforms(AnalysisSchema, x.reply.response.body.value)
  {
    var cors := Cors(req.origin, env.allowedOrigin);
    ClassifyEnvelope(envelopeText, text, Encode(analysis), parse, show, cors);
    var x := Fetch(req, env, parse, show, Ok(envelopeText));
    assert x.reply == Answered(JsonResponse(200, Encode(analysis), Some(cors)));
    DecodeEncode(analysis);
    EncodeConforms(analysis);
  }

  lemma ClassifyEnvelope(envelopeText: string, text: string, parsed: Json, parse: Parser, show: Shower, cors: CorsHeaders)
    requires text != "" && parse(envelopeText) == Success(Envelope(text)) && parse(text) == Success(parsed)
    ensures Classify(Ok(envelopeText), parse, show, cors) == JsonResponse(200, parsed, Some(cors))
  {
    EnvelopeTextOf(text);
    assert ToJsString(JStr(text), show) == text;
  }

  /** No error body the worker sends has a `message` field. */
  lemma FetchErrorBodies(req: Request, env: Env, parse: Parser, show: Shower,
                         upstream: UpstreamOutcome)
    ensures var x := Fetch(req, env, parse, show, upstream);
            x.reply.Answered? && x.reply.response.status != 200 && x.reply.response.body.Some? ==>
              x.reply.response.body.value.JObj? && Get(x.reply.response.body.value, "message").None?
  {
    if Accepted(req, env, parse) {
      ClassifyErrorBodies(upstream, parse, show, Cors(req.origin, env.allowedOrigin));
    }
  }

  lemma ClassifyErrorBodies(upstream: UpstreamOutcome, parse: Parser, show: Shower, cors: CorsHeaders)
    ensures var r := Classify(upstream, parse, show, cors);
            r.status != 200 ==> r.body.Some? && r.body.value.JObj? && Get(r.body.value, "message").None?
  {
  }

  /**
   * On the wire, the request names one user message whose single part is the prompt, and a generation
   * config with temperature 0.2, the JSON mime type and the analysis schema; the key travels URL-encoded.
   */
  lemma UpstreamWireFormat(apiKey: string, prompt: string, encodeUri: string -> string)
    ensures var call := UpstreamCall(apiKey, prompt, encodeUri);
            var body := UpstreamBodyJson(call.body);
            var content := First(Get(body, "contents"));
            var config := Get(body, "generationConfig");
            && call.url == ApiUrlPrefix + encodeUri(apiKey) && call.verb == "POST"
            && call.body.generationConfig.responseSchema == AnalysisSchema
            && GetOpt(content, "role") == Some(JStr("user"))
            && GetOpt(First(GetOpt(content, "parts")), "text") == Some(JStr(prompt))
            && GetOpt(config, "temperature") == Some(JNum(0.2))
            && GetOpt(config, "response_mime_type") == Some(JStr("application/json"))
            && GetOpt(config, "response_schema") == Some(SchemaToJson(call.body.generationConfig.responseSchema))
  {
    BodyWireFormat(UpstreamCall(apiKey, prompt, encodeUri).body);
  }

  /** The wire form of a body with one message of one part: the keys the Gemini REST API reads. */
  lemma BodyWireFormat(b: UpstreamBody)
    requires |b.contents| == 1 && |b.contents[0].parts| == 1
    ensures var body := UpstreamBodyJson(b);
            var content := First(Get(body, "contents"));
            var config := Get(body, "generationConfig");
            && GetOpt(content, "role") == Some(JStr(b.contents[0].role))
            && GetOpt(First(GetOpt(content, "parts")), "text") == Some(JStr(b.contents[0].parts[0].text))
            && GetOpt(config, "temperature") == Some(JNum(b.generationConfig.temperature))
            && GetOpt(config, "response_mime_type") == Some(JStr(b.generationConfig.responseMimeType))
            && GetOpt(config, "response_schema") == Some(SchemaToJson(b.generationConfig.responseSchema))
  {
    var c := b.contents[0];
    ContentWire(c);
    OneContentWire(b);
    var content := ContentJson(c);
    var part := JObj([("text", JStr(c.parts[0].text))]);
    var configFields := ConfigFields(b.generationConfig);
    var bodyFields := [("contents", JArr([content])), ("generationConfig", JObj(configFields))];
    assert Lookup(bodyFields, "contents") == Lookup(bodyFields[..1], "contents") == Some(JArr([content]));
    assert First(Get(UpstreamBodyJson(b), "contents")) == Some(content);
    assert Lookup(content.fields, "role") == Lookup(content.fields[..1], "role") == Some(JStr(c.role));
    assert GetOpt(Some(content), "parts") == Some(JArr([part]));
    assert First(Some(JArr([part]))) == Some(part);
    assert Get(UpstreamBodyJson(b), "generationConfig") == Some(JObj(configFields));
    assert Lookup(configFields, "temperature") == Lookup(configFields[..1], "temperature");
    assert Lookup(configFields, "response_mime_type") == Lookup(configFields[..2], "response_mime_type");
  }

  function ConfigFields(config: GenerationConfig): seq<(string, Json)>
  {
    [("temperature", JNum(config.temperature)),
     ("response_mime_type", JStr(config.responseMimeType)),
     ("response_schema", SchemaToJson(config.responseSchema))]
  }

  lemma ContentWire(c: Content)
    requires |c.parts| == 1
    ensures ContentJson(c) == JObj([("role", JStr(c.role)), ("parts", JArr([JObj([("text", JStr(c.parts[0].text))])]))])
  {
    assert seq(|c.parts|, k requires 0 <= k < |c.parts| => PartJson(c.parts[k])) == [PartJson(c.parts[0])];
  }

  lemma OneContentWire(b: UpstreamBody)
    requires |b.contents| == 1
    ensures UpstreamBodyJson(b)
            == JObj([("contents", JArr([ContentJson(b.contents[0])])), ("generationConfig", JObj(ConfigFields(b.generationConfig)))])
  {
    assert seq(|b.contents|, i requires 0 <= i < |b.contents| => ContentJson(b.contents[i])) == [ContentJson(b.contents[0])];
  }
}
