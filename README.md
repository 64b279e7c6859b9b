# ThemisScan contract analysis, modelled in Dafny

ThemisScan sends the text of a Brazilian contract, plus an optional context, to a generative model. The model returns a structured analysis:
- an executive summary and the contract type;
- a risk level of `BAIXO`, `MÉDIO` or `ALTO`;
- risk clauses, missing terms and favourable terms;
- recommendations and questions for the client.

This project models the parts of ThemisScan that make decisions, and proves what they guarantee:

- **Types** (`types.dfy`): the result and status types, and the JSON form of an analysis. The decoder is proved to invert the encoder.
- **Schema** (`schema.dfy`): the response-schema language both back ends send to the model, and what it means for a JSON value to conform to it.
- **Worker** (`worker.dfy`): the Cloudflare worker.
  - Its schema is proved to accept exactly the JSON values that decode to an analysis.
  - The prompt template is proved to contain the context block iff a context was given, and to determine the contract text.
  - The CORS origin rule is modelled.
  - `fetch` is its fixed chain of early returns. Its contract gives, for each guard, the status and body, whether the model is called and with what, and which responses carry CORS headers. `Classify` gives, for each way the upstream call can end, the status and body.
- **ServerlessApi** (`analyze.dfy`): the serverless handler.
  - Its schema is proved equal to the worker's as a schema node: the SDK's `Type` enum and the worker's lower-case type strings both stand for the node's kind.
  - Its prompt is proved different from the worker's.
  - Its guard order, statuses and error bodies are modelled. Every error body carries a non-empty `message`.
  - It is proved to accept a contract that the worker rejects.
- **ContractService** (`gemini_service.dfy`): the browser's call to `/api/analyze`, and how a reply becomes a returned analysis or a thrown error. Each back end is proved to end in a specific message on the page: the handler's own `message`, or, for the worker, only `Server error: <status>`.
- **AppState** (`app.dfy`): the page's `status`/`result`/`error` state machine, as a class. A class invariant guarantees that the error screen always has a message.
- **InputForm** (`input_section.dfy`): the file form, as a class.
  - Choosing a reader by file extension.
  - The PDF page loop, as a method proved against the text it builds.
  - The `isReadingFile` flag across a read.
  - The sample loader, and when the analyze button is enabled.
- **Report** (`analysis_result.dfy`): the badge colour for a risk level, and the PDF report.
  - Each section is a method on a document object, proved to perform exactly the steps of a specification function.
  - The page-break rule of `printText` is proved to keep every block above the bottom margin or at the top of a new page, in order and without overlap.
- **Boundary** (`error_boundary.dfy`): the error boundary's state, its transitions and its render choice.

The model follows the code wherever the code and the system's design description disagree:
- **Requests.** The code makes one request with no model fallback or retry. It has no size limit and does not normalise the risk level.
- **Contract-length checks.** The worker requires at least 10 UTF-16 code units after trimming. The handler only requires a non-empty string.
- **Status codes.**
  - The handler answers 405, and the worker answers 404, to a wrong method.
  - Neither back end maps upstream 401, 403, 429 or 503 to statuses of its own.
  - Upstream failures are 502 or 500 in the worker and 500 in the handler.
- **A `null` JSON payload.** The worker throws from outside any `try` (`Uncaught`). The handler turns it into a 500 "Analysis failed".

External effects and foreign code become inputs:
- **Inputs to `fetch`, `handle` and `analyzeContract`:**
  - the outcome of the upstream or SDK call (`UpstreamOutcome`, `SdkOutcome`, `ServerReply`);
  - `JSON.parse`, as a function to a result or a `SyntaxError` message;
  - `String(...)` of non-string values.
- **Inputs to `generatePDF` and the file form:** the number of lines jsPDF wraps a text to, the PDF page items, and the text of a Word file.

## Model

| member | source | states |
|---|---|---|
| Types.RiskLevelName | types.ts:16 | each risk level is spelled as one of `BAIXO`, `MÉDIO`, `ALTO` |
| Types.ParseRiskLevel | types.ts:16 | a string is a risk level exactly when it is one of the three spellings, and it is read back to that spelling |
| Types.RiskLevelNameRoundTrip | types.ts:16 | reading a level's spelling gives the level back |
| Types.StatusName | types.ts:24-29 | each status has its own enum string, and each string names exactly one status: `IDLE`, `ANALYZING`, `COMPLETED`, `ERROR` |
| Types.EncodeRiskClause | types.ts:1-6 | a clause's JSON object has exactly the keys clause, reason, impact, recommendation, in order |
| Types.EncodeFavorableTerm | types.ts:8-11 | a favourable term's JSON object has exactly the keys clause and benefit |
| Types.Encode | types.ts:13-22 | an analysis's JSON object has exactly the eight field names, in declaration order |
| Types.EncodeGet | types.ts:13-22 | reading each of the eight keys of the JSON form gives the corresponding field of the record |
| Types.DecodeString | types.ts:14-15 | a field decodes as a string exactly when it is present and a JSON string |
| Types.DecodeAll | types.ts:17-21 | a list decodes exactly when every element decodes, and the result is the element-wise decoding |
| Types.EncodeAll | types.ts:17-21 | a list is encoded element by element, keeping length and order |
| Types.DecodeAllEncodeAll | types.ts:17-21 | decoding an element-wise encoded list gives the list back, when the element codec round-trips |
| Types.RiskClauseRoundTrip | types.ts:1-6 | decoding the JSON form of a risk clause gives the clause back |
| Types.FavorableTermRoundTrip | types.ts:8-11 | decoding the JSON form of a favourable term gives the term back |
| Types.RiskClausesRoundTrip | types.ts:17 | a list of risk clauses survives encoding and decoding |
| Types.FavorableTermsRoundTrip | types.ts:19 | a list of favourable terms survives encoding and decoding |
| Types.StringsRoundTrip | types.ts:18 | a list of strings survives encoding and decoding |
| Types.DecodeEncode | types.ts:13-22 | decoding the JSON form of any analysis gives the analysis back |
| Schema.SchemaToJson | server/cloudflare-worker/src/worker.ts:6-50 | a schema node is written as a JSON object |
| Schema.SchemaToJsonKeywords | server/cloudflare-worker/src/worker.ts:6-50 | for every node: `type` is `string`, `array` or `object` by its kind; `enum` holds a string node's values and is present exactly when there are some; `items` is the item schema in JSON form; an object's `properties` are keyed by the property names in order, each holding its schema in JSON form, and `required` is its list; `description` appears exactly when one is set |
| Worker.SchemaShape | server/cloudflare-worker/src/worker.ts:6-50 | the schema is an object schema whose property names and `required` list are exactly the eight result fields; `riskLevel`'s enum is exactly the three levels; clause items list and require four fields, favourable-term items two |
| Worker.RiskClauseConforms | server/cloudflare-worker/src/worker.ts:12-24 | a value conforms to the clause item schema exactly when it decodes as a `RiskClause` |
| Worker.FavorableTermConforms | server/cloudflare-worker/src/worker.ts:26-36 | a value conforms to the favourable-term item schema exactly when it decodes as a `FavorableTerm` |
| Worker.RequiredPresent | server/cloudflare-worker/src/worker.ts:40-49 | the `required` list is satisfied exactly when all eight fields are present |
| Worker.PropertiesConform | server/cloudflare-worker/src/worker.ts:8-39 | with all fields present, the property schemas are satisfied exactly when every field has the result type's type |
| Worker.SchemaConformance | server/cloudflare-worker/src/worker.ts:6-50 | a JSON value conforms to the schema exactly when it decodes to an `AnalysisResponse` (both directions) |
| Worker.EncodeConforms | server/cloudflare-worker/src/worker.ts:6-50 | the JSON form of every analysis conforms to the schema |
| Worker.BuildPrompt | server/cloudflare-worker/src/worker.ts:52-54 | the prompt starts with the fixed preamble, ends with the contract between the `CONTRATO PARA ANÁLISE:\n---\n` header and the `\n---` footer, and what lies between is stated by `Worker.BuildPromptRest` |
| Worker.BuildPromptRest | server/cloudflare-worker/src/worker.ts:52-54 | after the preamble come only the context block and then the contract block |
| Worker.BuildPromptWithContext | server/cloudflare-worker/src/worker.ts:53 | with a context, the label and the context follow the preamble, then a blank line |
| Worker.BuildPromptWithoutContext | server/cloudflare-worker/src/worker.ts:53 | without a context, the contract block follows the preamble directly |
| Worker.BuildPromptContextLabel | server/cloudflare-worker/src/worker.ts:53 | the context label follows the preamble exactly when a context was given |
| Worker.BuildPromptInjective | server/cloudflare-worker/src/worker.ts:53 | for the same context, different contract texts give different prompts |
| Worker.ContextArgument | server/cloudflare-worker/src/worker.ts:53 | the template takes the context exactly when it is truthy; a string context is used verbatim |
| Worker.Cors | server/cloudflare-worker/src/worker.ts:56-64 | with a specific allowed origin, the granted origin is the request's origin if it starts with the allowed one, and otherwise the allowed one; with none, `''` or `'*'`, it is the request's origin, or `*` when that is absent or empty; it is never empty; methods and headers are fixed |
| Worker.CorsRestrictedPrefix | server/cloudflare-worker/src/worker.ts:58 | with a specific allowed origin, the granted origin always begins with it |
| Worker.CorsOriginSource | server/cloudflare-worker/src/worker.ts:58-60 | the granted origin is the request's origin, the configured origin, or `*` |
| Worker.Upstream | server/cloudflare-worker/src/worker.ts:95-106 | the upstream body has one `user` message whose single part is the prompt built from the contract and context, and sends the analysis schema |
| Worker.Fetch | server/cloudflare-worker/src/worker.ts:67-137 | OPTIONS is answered first, with CORS headers and no body; any other method or path gets 404 without CORS headers; a missing key gets 500 without CORS headers; a body that is not JSON gets 400 `JSON inválido`; a missing, non-string or too short `contractText` gets 400 with the short-contract message; both 400s carry CORS headers; the upstream is called exactly when every guard passes, with the key, the contract text and the context, and the reply is then the classification of the upstream outcome |
| Worker.FetchStatuses | server/cloudflare-worker/src/worker.ts:67-137 | every answer has status 200, 400, 404, 500 or 502 |
| Worker.FetchUncaught | server/cloudflare-worker/src/worker.ts:83-90 | the handler throws uncaught exactly when a POST to `/analyze` with a key carries the JSON `null` |
| Worker.FetchBadRequest | server/cloudflare-worker/src/worker.ts:84-93 | a 400 happens exactly when the body is not JSON, or when `contractText` is missing, not a string, or shorter than 10 after trimming |
| Worker.FetchCorsConsistent | server/cloudflare-worker/src/worker.ts:71-135 | only the 404 and the missing-key 500 lack CORS headers; every CORS header set sent is the one computed from the request; every response except the OPTIONS one is labelled JSON |
| Worker.Classify | server/cloudflare-worker/src/worker.ts:114-135 | a thrown call gets 500 `Erro interno` with the thrown text as `details`; a non-ok upstream gets 502 `Falha na geração` with the upstream text as `details`; an envelope that is not JSON gets 500 `Erro interno` with the `SyntaxError`; no truthy candidate text gets 502 `Resposta vazia do modelo`; candidate text that is not JSON gets 502 `Falha ao parsear JSON gerado` with the text under `raw` |
| Worker.ClassifyStatusCauses | server/cloudflare-worker/src/worker.ts:114-135 | a 500 after the call happens exactly when the call threw or its envelope was not JSON; a 502 exactly when the upstream answered but gave no usable analysis |
| Worker.ClassifySuccess | server/cloudflare-worker/src/worker.ts:114-133 | the answer is 200 exactly when the upstream is ok, its envelope parses, `candidates[0].content.parts[0].text` is truthy and parses; the 200 body is the parsed text unchanged; every other outcome is 500 or 502 |
| Worker.ClassifyErrorBodies | server/cloudflare-worker/src/worker.ts:114-135 | every non-200 answer after the upstream call has a JSON object body without a `message` field |
| Worker.FetchErrorBodies | server/cloudflare-worker/src/worker.ts:76-135 | no error body the worker sends has a `message` field |
| Worker.EnvelopeTextOf | server/cloudflare-worker/src/worker.ts:120 | the optional chain reads the text of the first part of the first candidate |
| Worker.FetchDeliversAnalysis | server/cloudflare-worker/src/worker.ts:119-133 | when the model's text is the JSON of an analysis, the client receives a 200 whose body conforms to the schema and decodes back to that analysis |
| Worker.UpstreamWireFormat | server/cloudflare-worker/src/worker.ts:98-106 | on the wire, the URL carries the encoded key and the method is POST; the single content has role `user` and its part the prompt; the config has temperature 0.2, `application/json` and the analysis schema |
| Worker.BodyWireFormat | server/cloudflare-worker/src/worker.ts:99-106 | the serialised body exposes each field under the key the REST API reads |
| ServerlessApi.SchemasAgree | api/analyze.ts:20-86 | the handler's schema is the worker's, so it too accepts exactly the values that decode to an analysis |
| ServerlessApi.HandlerPrompt | api/analyze.ts:131-143 | the prompt starts with the indented preamble, ends with the contract between the indented `---` lines, and what lies between is stated by `ServerlessApi.HandlerPromptRest` |
| ServerlessApi.HandlerPromptRest | api/analyze.ts:131-143 | after the preamble come only the context line and then the contract block |
| ServerlessApi.HandlerPromptContextLabel | api/analyze.ts:137 | the context label follows the preamble exactly when a context was given |
| ServerlessApi.HandlerPromptInjective | api/analyze.ts:139-142 | for the same context, different contract texts give different prompts |
| ServerlessApi.PromptsDiffer | api/analyze.ts:131-143 | for every contract and context, the handler's prompt differs from the worker's |
| ServerlessApi.GenerateCall | api/analyze.ts:146-154 | the SDK is asked for `gemini-2.5-flash` with the handler's prompt, the `application/json` mime type, the analysis schema and temperature 0.2 |
| ServerlessApi.FailureDetails | api/analyze.ts:172 | for an `Error`, `details` is its message |
| ServerlessApi.AnalysisFailed | api/analyze.ts:170-177 | the `catch` answers 500 with exactly the keys `error`, `message`, `details`: `Analysis failed`, the retry message, and the error's own text |
| ServerlessApi.Complete | api/analyze.ts:156-178 | an SDK throw, absent or empty text, and text that is not JSON each give a failed analysis whose `details` is that error's message; parseable text gives 200 with the parsed value |
| ServerlessApi.Handle | api/analyze.ts:97-179 | a non-POST gets 405 before anything else; a missing key gets 500 "Configuration error"; a missing or `null` body gets a failed analysis carrying V8's `TypeError`; a `contractText` that is absent, empty or not a string gets 400 "Invalid request"; the SDK is called exactly when the body holds a non-empty string `contractText`, with the key, that text and the context; the answer is then the classification of the SDK outcome |
| ServerlessApi.HandleSuccess | api/analyze.ts:156-165 | the answer is 200 exactly when the call is made and the SDK returns non-empty text that parses; the 200 body is the parsed value unchanged |
| ServerlessApi.MessageNamesError | api/analyze.ts:99-125 | a guard's error body names its error and carries its non-empty message |
| ServerlessApi.AnalysisFailedNamesError | api/analyze.ts:173-177 | the failure body names its error and carries the retry message |
| ServerlessApi.CompleteStatuses | api/analyze.ts:156-178 | after the SDK call the answer is 200, or 500 with a body that names its error |
| ServerlessApi.HandleStatuses | api/analyze.ts:97-179 | every answer has status 200, 400, 405 or 500, and every non-200 body names its error and carries a non-empty `message` |
| ServerlessApi.HandleMissingBody | api/analyze.ts:118-120 | a missing or `null` body is answered as a failed analysis carrying the `TypeError` |
| ServerlessApi.HandlerAcceptsShortContract | api/analyze.ts:120-125 | a one-character contract reaches the model |
| ServerlessApi.WorkerRejectsShortContract | server/cloudflare-worker/src/worker.ts:91-93 | the worker answers the same one-character contract with a 400 and makes no upstream call |
| ContractService.ServiceCall | services/geminiService.ts:26-35 | a POST to `/api/analyze` labelled `application/json`, whose body holds `contractText`, and `context` exactly when it is defined |
| ContractService.FailureError | services/geminiService.ts:38-41 | a `null` error body, and only that, gives a `TypeError`, anything else an `Error`; a non-empty string `message` is carried over as it is; without a truthy `message` the error says `Server error: <status>` |
| ContractService.ErrorData | services/geminiService.ts:39 | an error body that does not parse is read as `{}` |
| ContractService.AnalyzeContract | services/geminiService.ts:23-52 | a network failure is rethrown unchanged; the call resolves exactly when the status is 2xx and the body parses, to the parsed body; a 2xx that does not parse rejects with the `SyntaxError`; a non-2xx rejects with the error built from the body |
| ContractService.FailureMessage | services/geminiService.ts:38-41 | a non-empty string `message` becomes the error's message; with no truthy `message` the error is `Server error: <status>` |
| ContractService.StatusMessageInjective | services/geminiService.ts:40 | different statuses give different fallback messages |
| ContractService.MessageSurfaces | services/geminiService.ts:38-41 | an object error body with a non-empty `message` rejects with exactly that message |
| ContractService.StatusSurfaces | services/geminiService.ts:38-41 | an object error body without `message` rejects with `Server error: <status>` |
| ContractService.HandlerErrorsSurface | services/geminiService.ts:38-41 | every error answer of the serverless handler becomes an `Error` with the handler's own non-empty `message` |
| ContractService.WorkerErrorsSurfaceAsStatus | services/geminiService.ts:38-41 | every error answer of the worker becomes `Server error: <status>` |
| ContractService.ServiceDeliversAnalysis | services/geminiService.ts:44-46 | a 200 whose body is an encoded analysis resolves to exactly that analysis |
| AppState.ErrorMessage | App.tsx:25 | the shown error is the thrown `Error`'s message when it is non-empty, and the fixed fallback text otherwise; it is never empty |
| AppState.App.constructor | App.tsx:11-13 | the page starts `IDLE` with no result and no error |
| AppState.App.BeginAnalyze | App.tsx:16-17 | the status becomes `ANALYZING` and the error is cleared; the result is kept |
| AppState.App.CompleteAnalyze | App.tsx:18-27 | on success the result is the data and the status `COMPLETED`; on failure the error is the message and the status `ERROR`, with the result unchanged; the invariant is kept |
| AppState.App.HandleAnalyze | App.tsx:15-28 | `handleAnalyze` sends the text and context and ends in the success or failure state of the service's outcome |
| AppState.App.HandleReset | App.tsx:30-34 | the result is cleared and the status becomes `IDLE`; the error is kept |
| AppState.App.Retry | App.tsx:58 | the retry button only sets the status to `IDLE` |
| AppState.App.View | App.tsx:41-69 | the form shows exactly in `IDLE` and `ANALYZING`, loading exactly in `ANALYZING`; the error block exactly in `ERROR`, with the error; the result exactly in `COMPLETED` with a truthy result; nothing otherwise |
| AppState.ErrorScreenHasMessage | App.tsx:49-56 | in any reachable state, the error screen has a non-empty message |
| AppState.PageShowsHandlerMessage | App.tsx:22-27 | after an error answer from the serverless handler, the page shows that answer's `message` |
| AppState.PageShowsWorkerStatus | App.tsx:22-27 | after an error answer from the worker, the page shows only `Server error: <status>` |
| AppState.PageShowsStatusForUnparseableError | App.tsx:22-27 | an error body that does not parse is shown as `Server error: <status>` |
| InputForm.FileKindOf | components/InputSection.tsx:37-112 | a lower-cased name ending in `.docx` is read as Word; otherwise one ending in `.pdf` as PDF; anything else as text |
| InputForm.FileKindIgnoresCase | components/InputSection.tsx:37 | a name and its lower-cased form choose the same reader |
| InputForm.UpperCaseExtensions | components/InputSection.tsx:37-53 | `.PDF` and `.DOCX` are recognised |
| InputForm.ExtractPdfText | components/InputSection.tsx:77-85 | the loop builds the concatenation, in page order, of each page's items joined by spaces and followed by a blank line |
| InputForm.PdfTextAppend | components/InputSection.tsx:78-85 | the text of two runs of pages is the first run's text followed by the second's |
| InputForm.PdfTextPage | components/InputSection.tsx:83-84 | page `i`'s text and blank line appear right after the text of the pages before it |
| InputForm.PdfTextLength | components/InputSection.tsx:84 | every page contributes at least its blank line |
| InputForm.ExtractedText | components/InputSection.tsx:39-110 | a read yields text except when Word or PDF extraction fails; a PDF yields its page text |
| InputForm.AnalyzeDisabled | components/InputSection.tsx:208 | an enabled analyze button implies some non-whitespace text, no analysis running and no file being read |
| InputForm.AnalyzeEnabledIff | components/InputSection.tsx:208 | the button is enabled exactly when the text has a non-whitespace character and nothing is loading or being read |
| InputForm.InputSection.constructor | components/InputSection.tsx:14-16 | the form starts empty and not reading |
| InputForm.InputSection.HandleFileChange | components/InputSection.tsx:30-117 | with no file nothing changes; otherwise the flag is raised and the reader chosen by extension; a synchronous throw alerts and lowers the flag again; while a started read runs, the upload button and the analyze button are both disabled; text and context are untouched |
| InputForm.InputSection.CompleteFileRead | components/InputSection.tsx:39-110 | on success the text is replaced by the extracted text; on failure it is unchanged and the matching alert is raised; on every path the flag is lowered and the input cleared, so an idle page can upload again |
| InputForm.InputSection.HandleSampleLoad | components/InputSection.tsx:120-136 | the text becomes the fixed sample; context and flags are untouched |
| InputForm.InputSection.ClickAnalyze | components/InputSection.tsx:206-208 | a click calls `onAnalyze` exactly when the button is enabled, with the text and context unchanged |
| InputForm.InputSection.UploadDisabled | components/InputSection.tsx:166-186 | a file being read always locks the upload button and text area, and an idle page never does; whatever locks them also locks the analyze button; with them unlocked, only blank text keeps analysis disabled |
| InputForm.InputSection.ClickUpload | components/InputSection.tsx:165-166 | the file picker opens exactly when the upload button is enabled, so never while a file is read |
| InputForm.SampleEnablesAnalyze | components/InputSection.tsx:120-136 | after loading the sample, with nothing in progress, the analyze button is enabled |
| Json.TrimEmptyIff | components/InputSection.tsx:208 | `trim()` is empty exactly when every character is whitespace |
| Json.ToLowerIdempotent | components/InputSection.tsx:37 | lower-casing twice is lower-casing once |
| Json.Utf16Length | server/cloudflare-worker/src/worker.ts:91 | `length` counts UTF-16 code units: between one and two per character, one per character in the BMP |
| Json.NatToStringRoundTrip | services/geminiService.ts:40 | the decimal rendering of a status reads back to the status |
| Json.ErrorToString | components/ErrorBoundary.tsx:76 | `toString()` is the name, the message, or both joined by `": "` |
| Report.RiskColor | components/AnalysisResult.tsx:13-19 | `ALTO` is red, `MÉDIO` yellow, `BAIXO` green, anything else slate |
| Report.RiskColorsDistinct | components/AnalysisResult.tsx:13-19 | the three levels get three different colours, none of them slate |
| Report.RiskLine | components/AnalysisResult.tsx:66 | the global-risk line names the level and is red exactly for `ALTO` |
| Report.SummarySteps | components/AnalysisResult.tsx:65-69 | the summary has five steps; the second is the global-risk line, red exactly for `ALTO` |
| Report.ClauseBlocks | components/AnalysisResult.tsx:74-79 | each clause contributes four steps |
| Report.ClauseBlocksAt | components/AnalysisResult.tsx:74-79 | clause `i`'s block (clause, reason, recommendation, gap) is at steps `4i..4i+4`, in list order |
| Report.RiskSection | components/AnalysisResult.tsx:72-84 | with no clauses the section is the single gray line and a gap; otherwise it opens with the red heading and has `4n+2` steps |
| Report.TermLines | components/AnalysisResult.tsx:89-91 | term `i` is printed as `• <term>`, in list order |
| Report.MissingSection | components/AnalysisResult.tsx:87-93 | the missing-terms section is omitted exactly when there are none; otherwise it has `n+2` steps |
| Report.NumberedLines | components/AnalysisResult.tsx:97-99 | one line per recommendation |
| Report.NumberedLinesAt | components/AnalysisResult.tsx:97-99 | recommendation `i` is printed as `<i+1>. <rec>`, so the plan is numbered 1..n in list order |
| Report.ReportIgnoresUnprintedFields | components/AnalysisResult.tsx:59-99 | a clause's impact, the favourable terms and the client questions never affect the report |
| Report.ClauseBlocksPrinted | components/AnalysisResult.tsx:74-79 | the clause blocks depend only on clause, reason and recommendation |
| Report.Place | components/AnalysisResult.tsx:50-56 | earlier blocks are kept and one block is added for the line; a block that would cross the bottom margin goes to the top of a new page, otherwise to the cursor; the cursor ends 6 below the block |
| Report.PlaceKeepsWellPlaced | components/AnalysisResult.tsx:50-56 | placing a block of any height keeps the placement rule and appends exactly one block |
| Report.PrintKeepsWellPlaced | components/AnalysisResult.tsx:47-56 | a `printText` keeps the placement rule and appends exactly one block |
| Report.AppendKeepsWellPlaced | components/AnalysisResult.tsx:50-56 | a block at the cursor of the current page that fits, or at the top of a fresh page, keeps the placement rule |
| Report.ApplyKeepsWellPlaced | components/AnalysisResult.tsx:50-62 | every step keeps the placement rule; only a print adds a block, and earlier blocks are unchanged |
| Report.RunWellPlaced | components/AnalysisResult.tsx:28-99 | from the first page, any sequence of steps keeps the placement rule |
| Report.RunPlacesPrinted | components/AnalysisResult.tsx:55 | the blocks drawn are exactly the printed lines, in order, after the blocks already there |
| Report.PdfDocument.constructor | components/AnalysisResult.tsx:23-28 | a new document has one page, the cursor at 20 and nothing drawn |
| Report.PdfDocument.PrintText | components/AnalysisResult.tsx:30-57 | the document becomes the placement of the line's block, with a page break first when the block would cross the bottom margin |
| Report.PdfDocument.MoveCursor | components/AnalysisResult.tsx:62 | the cursor moves down by the amount |
| Report.PrintHeader | components/AnalysisResult.tsx:60-62 | the document is the run of the title, the date line and the gap |
| Report.PrintSummary | components/AnalysisResult.tsx:65-69 | the document is the run of the summary steps |
| Report.PrintClause | components/AnalysisResult.tsx:75-78 | the document is the run of one clause's block |
| Report.PrintClauses | components/AnalysisResult.tsx:74-79 | the loop leaves the document as the run of all clause blocks in list order |
| Report.PrintRisks | components/AnalysisResult.tsx:72-84 | the document is the run of the risk section |
| Report.PrintTermLines | components/AnalysisResult.tsx:89-91 | the loop leaves the document as the run of the term lines |
| Report.PrintMissingTerms | components/AnalysisResult.tsx:87-93 | the document is the run of the missing-terms section |
| Report.PrintNumbered | components/AnalysisResult.tsx:97-99 | the loop leaves the document as the run of the numbered lines |
| Report.PrintPlan | components/AnalysisResult.tsx:96-99 | the document is the run of the plan section |
| Report.ReportSteps | components/AnalysisResult.tsx:59-99 | the report opens with its title; the fifth step is the global-risk line; the clause blocks follow the risk heading directly; the plan heading and the numbered recommendations close the report |
| Report.GeneratePdf | components/AnalysisResult.tsx:22-102 | the document is the run of every report step from the first page; every block obeys the placement rule; the blocks are exactly the report's lines, in order |
| Boundary.DerivedStateFromError | components/ErrorBoundary.tsx:24-30 | the derived state has the flag set, the error stored and no component stack |
| Boundary.AfterDidCatch | components/ErrorBoundary.tsx:32-41 | `componentDidCatch` stores the error and stack and leaves the flag as it was |
| Boundary.Render | components/ErrorBoundary.tsx:53-113 | the fallback renders exactly when the flag is set; it shows the error's `toString()` exactly when there is an error, and the stack exactly in development when it is known |
| Boundary.RenderAfterCatch | components/ErrorBoundary.tsx:24-89 | after a caught error the fallback shows it, and its stack only in development |
| Boundary.InitialRendersChildren | components/ErrorBoundary.tsx:15-22 | the initial state renders the children |
| Boundary.ErrorBoundary.constructor | components/ErrorBoundary.tsx:15-22 | the state starts with no error |
| Boundary.ErrorBoundary.ApplyDerivedState | components/ErrorBoundary.tsx:24-30 | the fields become the derived state |
| Boundary.ErrorBoundary.ComponentDidCatch | components/ErrorBoundary.tsx:32-41 | the fields become the previous state with error and stack stored |
| Boundary.ErrorBoundary.HandleReset | components/ErrorBoundary.tsx:43-51 | all three fields are cleared and the browser is sent to `/` |
| Boundary.ErrorBoundary.CatchRenderError | components/ErrorBoundary.tsx:24-41 | a caught error leaves the flag set with error and stack, and the production fallback shows the error without the stack |

## Left out

- HTTP transport, the Gemini REST call and the `GoogleGenAI` SDK are foreign I/O: their results are outcome values (`UpstreamOutcome`, `SdkOutcome`, `ServerReply`).
- `JSON.parse` and `JSON.stringify`: parsing is an input function. Serialising a response body is not modelled: bodies are kept as JSON values.
- `encodeURIComponent` and `String(...)` of numbers, arrays and objects are parameters: they are JavaScript built-ins whose output is library detail.
- The upstream and SDK calls are recorded by their inputs (`CallInputs`): key, contract text and context. `Worker.Upstream` and `ServerlessApi.GenerateCall` render them as the request each back end builds.
- jsPDF, mammoth and pdfjs are foreign libraries. They become:
  - the wrapped line count of a text (`Geometry.lineCount`);
  - the page height;
  - the item strings of each PDF page;
  - the text of a Word file.
- `setFont`, `setFontSize` and `setTextColor` are recorded as each line's size, style and colour, not as calls on the document.
- Floating point: cursor positions and line heights are exact reals, and `fontSize * 0.4` is real multiplication.
- Date and time formatting (`toLocaleDateString`, `toLocaleTimeString`, the saved file name) and `doc.save` are left out. Dates enter the report as already formatted text.
- React rendering, JSX markup beyond the screen choice, CSS classes other than the risk badge, and DOM APIs (`FileReader`, `alert` beyond its message, `window.location` beyond its target, `scrollTo`) are not modelled.
- `console.log` and `console.error` have no effect on the modelled state.
- Asynchronous interleavings are not modelled:
  - `AppState.App.CompleteAnalyze` requires the status to be `ANALYZING`, which is where the page is while the request runs; a late response after some other change is not modelled;
  - a file read is modelled as its start (`HandleFileChange`) and its completion (`CompleteFileRead`).
- InputForm.InputSection.CompleteFileRead models only the `load` event. The three readers of components/InputSection.tsx:39-105 set `onload` and nothing else, so a FileReader that fails or is aborted after the flag was raised (line 34) never lowers `isReadingFile`. The upload button, the text area and the analyze button then stay disabled until the page is reloaded. The model has no outcome for that event.
- `Header.tsx`, `Footer.tsx`, `index.tsx` and `vite.config.ts` hold static markup, bootstrap and build configuration, with no logic.
- Model fallback, retry with backoff, a size limit on the contract and risk-level normalisation appear in no modelled file, so they are not modelled.
- AppState.App.View reports the input screen as one `InputScreen(isLoading)`, and a single `InputForm.InputSection` object stands for the form. App.tsx:41-47 renders two separate `<InputSection>` elements, one for `IDLE` and one for `ANALYZING`. React therefore unmounts one and mounts a fresh form on each change between those states, including "Tentar Novamente" from `ERROR`. The new form starts with empty text and context (`InputForm.InputSection.constructor`), so the typed contract is lost when an analysis starts and again after a retry. The model does not capture this remounting.
- Report.GeneratePdf and Report.ReportSteps take a decoded analysis: the report is modelled only for a result `r` with `Types.Decode(r) == Some(data)`. The page keeps the server's reply unchecked (`App.tsx:19`, held in `AppState.App.result`), so a `riskLevel` outside the three values (printed as it is, in black) and a missing or non-array list (a `TypeError` while the PDF is built) are not represented.
- `Json.ToLower` only maps `A`-`Z`: the file extensions compared are ASCII, so full Unicode case mapping is not needed.
