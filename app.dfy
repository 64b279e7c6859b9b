/**
 * The page (App.tsx): the analysis status, the last result and the error
 * message, the handlers that move between the four statuses, and which
 * screen each state shows. Scrolling, logging and the header and footer
 * are not modelled.
 */
module AppState {
  import opened Wrappers
  import opened Json
  import opened Types
  import opened ContractService
  import ServerlessApi
  import Worker

  const FallbackMessage: string :=
    "Não foi possível completar a análise. Verifique sua chave de API ou tente novamente."

  /** `err?.message || fallback`: a non-empty `Error` message, or the fallback text. */
  function ErrorMessage(t: Thrown): (m: string)
    ensures m != ""
    ensures t.ErrorThrown? && t.error.message != "" ==> m == t.error.message
    ensures !(t.ErrorThrown? && t.error.message != "") ==> m == FallbackMessage
  {
    if t.ErrorThrown? && t.error.message != "" then t.error.message else FallbackMessage
  }

  /** What the main area shows. */
  datatype Screen =
    | InputScreen(isLoading: bool)
    | ErrorScreen(message: Option<string>)
    | ResultScreen(data: Json)
    | EmptyScreen

  class App {
    var status: AnalysisStatus
    /** `result`; `None` is `null`. */
    var result: Option<Json>
    /** `error`; `None` is `null`. */
    var error: Option<string>

    /** While an analysis runs or after it succeeds there is no error; after a failure there is a message to show. */
    predicate Valid()
      reads this
    {
      && (status == Analyzing || status == Completed ==> error.None?)
      && (status == Completed ==> result.Some?)
      && (status == Error ==> error.Some? && error.value != "")
    }

    constructor()
      ensures status == Idle && result.None? && error.None?
      ensures Valid()
    {
      status := Idle;
      result := None;
      error := None;
    }

    /** The synchronous start of `handleAnalyze`. */
    method BeginAnalyze()
      modifies this
      ensures status == Analyzing && error.None? && result == old(result)
      ensures Valid()
    {
      status := Analyzing;
      error := None;
    }

    /**
     * The continuation of `handleAnalyze` once `analyzeContract` settles. While the status is
     * `Analyzing` no control that changes it is on screen, so this is the next step.
     */
    method CompleteAnalyze(outcome: ServiceOutcome)
      requires Valid() && status == Analyzing
      modifies this
      ensures outcome.Returned? ==> status == Completed && result == Some(outcome.data) && error.None?
      ensures outcome.Rejected? ==> status == Error && error == Some(ErrorMessage(outcome.error)) && result == old(result)
      ensures Valid()
    {
      match outcome
      case Returned(data) =>
        result := Some(data);
        status := Completed;
      case Rejected(e) =>
        error := Some(ErrorMessage(e));
        status := Error;
    }

    /** `handleAnalyze(text, context)`, given how the server replies; returns the request the service sends. */
    method HandleAnalyze(text: string, context: string, reply: ServerReply, parse: Parser, show: Shower)
      returns (request: ServiceRequest)
      modifies this
      ensures request == ServiceCall(text, Some(context))
      ensures var outcome := AnalyzeContract(reply, parse, show);
              (outcome.Returned? ==> status == Completed && result == Some(outcome.data) && error.None?)
              && (outcome.Rejected? ==> status == Error && error == Some(ErrorMessage(outcome.error)) && result == old(result))
      ensures Valid()
    {
      BeginAnalyze();
      request := ServiceCall(text, Some(context));
      CompleteAnalyze(AnalyzeContract(reply, parse, show));
    }

    /** `handleReset`: drop the result and go back to the form; the last error string is kept. */
    method HandleReset()
      modifies this
      ensures status == Idle && result.None? && error == old(error)
      ensures Valid()
    {
      result := None;
      status := Idle;
    }

    /** The "Tentar Novamente" button of the error screen. */
    method Retry()
      modifies this
      ensures status == Idle && result == old(result) && error == old(error)
      ensures Valid()
    {
      status := Idle;
    }

    /** The screen for the current state: exactly one of the four blocks of the page renders. */
    function View(): (s: Screen)
      reads this
      ensures s.InputScreen? <==> status == Idle || status == Analyzing
      ensures s.InputScreen? ==> (s.isLoading <==> status == Analyzing)
      ensures s.ErrorScreen? <==> status == Error
      ensures s.ErrorScreen? ==> s.message == error
      ensures s.ResultScreen? <==> status == Completed && Truthy(result)
      ensures s.ResultScreen? ==> result == Some(s.data)
      ensures s.EmptyScreen? <==> status == Completed && !Truthy(result)
    {
      match status
      case Idle => InputScreen(false)
      case Analyzing => InputScreen(true)
      case Error => ErrorScreen(error)
      case Completed => if Truthy(result) then ResultScreen(result.value) else EmptyScreen
    }
  }

  /** In a valid state the error screen always has a non-empty message to show. */
  lemma ErrorScreenHasMessage(app: App)
    requires app.Valid() && app.status == Error
    ensures app.View().ErrorScreen? && app.View().message.Some? && app.View().message.value != ""
  {
  }

  /** After a failed reply from the serverless handler, the page shows the handler's own `message`. */
  lemma PageShowsHandlerMessage(req: ServerlessApi.HandlerRequest, apiKey: Option<string>, parse: Parser, show: Shower,
                                outcome: ServerlessApi.SdkOutcome, bodyText: string)
    requires var r := ServerlessApi.Handle(req, apiKey, parse, show, outcome).response;
             r.status != 200 && parse(bodyText) == Success(r.body)
    ensures var r := ServerlessApi.Handle(req, apiKey, parse, show, outcome).response;
            var shown := AnalyzeContract(Reply(r.status, bodyText), parse, show);
            shown.Rejected? && ErrorMessage(shown.error) == ServerlessApi.MessageText(r.body)
  {
    HandlerErrorsSurface(req, apiKey, parse, show, outcome, bodyText);
  }

  /** After a failed reply from the worker, the page shows only `Server error: <status>`. */
  lemma PageShowsWorkerStatus(req: Worker.Request, env: Worker.Env, parse: Parser, show: Shower,
                              upstream: Worker.UpstreamOutcome, bodyText: string)
    requires var x := Worker.Fetch(req, env, parse, show, upstream);
             x.reply.Answered? && x.reply.response.status != 200 && x.reply.response.body.Some?
             && parse(bodyText) == Success(x.reply.response.body.value)
    ensures var r := Worker.Fetch(req, env, parse, show, upstream).reply.response;
            var shown := AnalyzeContract(Reply(r.status, bodyText), parse, show);
            shown.Rejected? && ErrorMessage(shown.error) == "Server error: " + NatToString(r.status)
  {
    WorkerErrorsSurfaceAsStatus(req, env, parse, show, upstream, bodyText);
  }

  /** A reply whose error body does not parse is shown as `Server error: <status>`. */
  lemma PageShowsStatusForUnparseableError(status: nat, bodyText: string, parse: Parser, show: Shower)
    requires !Ok(status) && parse(bodyText).Failure?
    ensures var shown := AnalyzeContract(Reply(status, bodyText), parse, show);
            shown.Rejected? && ErrorMessage(shown.error) == "Server error: " + NatToString(status)
  {
  }
}
