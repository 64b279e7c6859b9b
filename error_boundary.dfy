/**
 * The error boundary (components/ErrorBoundary.tsx): its three state fields,
 * the state React derives from a caught error, the updates of
 * `componentDidCatch` and `handleReset`, and the choice between the fallback
 * and the children when rendering. Navigation and logging are not modelled.
 */
module Boundary {
  import opened Wrappers
  import opened Json

  /** `{ hasError, error, errorInfo }`; `errorInfo` is given by its `componentStack`. */
  datatype BoundaryState = BoundaryState(hasError: bool, error: Option<ErrorObject>, errorInfo: Option<string>)

  const InitialState: BoundaryState := BoundaryState(false, None, None)

  /** `getDerivedStateFromError`: flag the error and remember it; the component stack is not yet known. */
  function DerivedStateFromError(e: ErrorObject): (s: BoundaryState)
    ensures s.hasError && s.error == Some(e) && s.errorInfo.None?
  {
    BoundaryState(true, Some(e), None)
  }

  /** `setState({ error, errorInfo })` in `componentDidCatch`: the flag is left as it was. */
  function AfterDidCatch(s: BoundaryState, e: ErrorObject, componentStack: string): (r: BoundaryState)
    ensures r.hasError == s.hasError && r.error == Some(e) && r.errorInfo == Some(componentStack)
  {
    s.(error := Some(e), errorInfo := Some(componentStack))
  }

  /** What `render` produces. */
  datatype Rendered =
    | Children
    | Fallback(errorText: Option<string>, componentStack: Option<string>)

  /**
   * `render`: the fallback exactly when `hasError`. Inside it, the error's `toString()` when there is an
   * error, and under it the component stack only in development and only when it is known.
   */
  function Render(s: BoundaryState, nodeEnv: string): (r: Rendered)
    ensures r.Fallback? <==> s.hasError
    ensures r.Fallback? ==> (r.errorText.Some? <==> s.error.Some?)
    ensures r.Fallback? && s.error.Some? ==> r.errorText == Some(ErrorToString(s.error.value))
    ensures r.Fallback? ==> (r.componentStack.Some? <==> s.error.Some? && nodeEnv == "development" && s.errorInfo.Some?)
    ensures r.Fallback? && r.componentStack.Some? ==> r.componentStack == s.errorInfo
  {
    if !s.hasError then Children
    else if s.error.None? then Fallback(None, None)
    else Fallback(Some(ErrorToString(s.error.value)),
                  if nodeEnv == "development" && s.errorInfo.Some? then s.errorInfo else None)
  }

  /** After React catches an error (derived state, then `componentDidCatch`) the fallback shows it and, in development, its stack. */
  lemma RenderAfterCatch(e: ErrorObject, componentStack: string, nodeEnv: string)
    ensures Render(AfterDidCatch(DerivedStateFromError(e), e, componentStack), nodeEnv)
            == Fallback(Some(ErrorToString(e)), if nodeEnv == "development" then Some(componentStack) else None)
  {
  }

  /** Until the first error, and after a reset, the children render. */
  lemma InitialRendersChildren(nodeEnv: string)
    ensures Render(InitialState, nodeEnv) == Children
  {
  }

  class ErrorBoundary {
    var hasError: bool
    var error: Option<ErrorObject>
    var errorInfo: Option<string>

    function State(): BoundaryState
      reads this
    {
      BoundaryState(hasError, error, errorInfo)
    }

    constructor()
      ensures State() == InitialState
    {
      hasError := false;
      error := None;
      errorInfo := None;
    }

    /** React merges the result of `getDerivedStateFromError` into the state. */
    method ApplyDerivedState(e: ErrorObject)
      modifies this
      ensures State() == DerivedStateFromError(e)
    {
      hasError := true;
      error := Some(e);
      errorInfo := None;
    }

    method ComponentDidCatch(e: ErrorObject, componentStack: string)
      modifies this
      ensures State() == AfterDidCatch(old(State()), e, componentStack)
    {
      error := Some(e);
      errorInfo := Some(componentStack);
    }

    /** `handleReset`: clear all three fields and send the browser to `/`. */
    method HandleReset() returns (location: string)
      modifies this
      ensures State() == InitialState && location == "/"
    {
      hasError := false;
      error := None;
      errorInfo := None;
      location := "/";
    }

    /** A render error caught by this boundary: the derived state, then `componentDidCatch`. */
    method CatchRenderError(e: ErrorObject, componentStack: string)
      modifies this
      ensures State() == BoundaryState(true, Some(e), Some(componentStack))
      ensures Render(State(), "production") == Fallback(Some(ErrorToString(e)), None)
    {
      ApplyDerivedState(e);
      ComponentDidCatch(e, componentStack);
    }
  }
}
