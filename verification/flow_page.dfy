/**
 The submit handler the flow pages share (`onSubmit` in the chapters,
 trending-reels and viral-video-strategist pages): refuse without an API key;
 otherwise show the spinner, clear the previous output, call the flow with
 the key, and end loading whether the call succeeds or throws.
 */
module FlowPage {
  import opened Common
  import opened ApiKeys
  import opened Strings
  import FlowErrors
  import TrendRetry

  /** A page's `isLoading` and `output`. */
  datatype PageState<+O> = PageState(isLoading: bool, output: Option<O>)

  /** One press of the submit button: the key the flow was called with (none
      if it was not called), the state while the call is pending, the state
      afterwards, and the toast shown, if any. */
  datatype Submission<+O> = Submission(
    calledWith: Option<string>,
    pending: Option<PageState<O>>,
    after: PageState<O>,
    toast: Option<Toast>)

  const KeyRequiredToast := Toast("API Key Required", "Please set your Gemini API key in your profile.", Destructive)

  /** `onSubmit(values)`: `reply` is what the flow returns or throws if it is
      called. */
  function Submit<O>(s: PageState<O>, keys: KeyState, reply: Result<O>): (r: Submission<O>)
    ensures r.calledWith.None? <==> !IsApiKeySet(keys)
    ensures r.calledWith.None? ==> r.after == s && r.pending.None? && r.toast == Some(KeyRequiredToast)
    ensures r.calledWith.Some? ==> r.calledWith == keys.apiKey && r.pending == Some(PageState(true, None))
    ensures r.calledWith.Some? ==> !r.after.isLoading
    ensures r.calledWith.Some? && reply.Ok? ==> r.after.output == Some(reply.value) && r.toast.None?
    ensures r.calledWith.Some? && reply.Err? ==>
              r.after.output.None? && r.toast == Some(FlowErrors.HandleFlowError(reply.error, None))
  {
    if !IsApiKeySet(keys) then Submission(None, None, s, Some(KeyRequiredToast))
    else
      match reply
      case Ok(out) => Submission(keys.apiKey, Some(PageState(true, None)), PageState(false, Some(out)), None)
      case Err(e) =>
        Submission(keys.apiKey, Some(PageState(true, None)), PageState(false, None), Some(FlowErrors.HandleFlowError(e, None)))
  }

  /** Without a key the flow is never called and the page does not change,
      whatever the flow would have answered. */
  lemma NoKeyNoCall<O>(s: PageState<O>, keys: KeyState, reply1: Result<O>, reply2: Result<O>)
    requires !IsApiKeySet(keys)
    ensures Submit(s, keys, reply1) == Submit(s, keys, reply2)
    ensures Submit(s, keys, reply1).after == s
  {
  }

  /** A failed call never leaves an old output on the page: the output was
      cleared before the call and stays cleared. */
  lemma FailureClearsOutput<O>(s: PageState<O>, keys: KeyState, e: Thrown)
    requires IsApiKeySet(keys)
    ensures Submit(s, keys, Err(e)).after == PageState(false, None)
  {
  }

  /** End to end on the trending-reels page: when the model answers
      "overloaded" to every attempt, the flow gives up after its three calls
      and rethrows that error, and the page tells the user the model is busy. */
  lemma OverloadedModelShowsBusyToast(s: PageState<int>, keys: KeyState)
    requires IsApiKeySet(keys)
    ensures TrendRetry.RunFrom((k: nat) => TrendRetry.Reply<int>.Threw(TrendRetry.Overloaded), TrendRetry.IsTransient, 1).ending
         == TrendRetry.Rethrown(TrendRetry.Overloaded)
    ensures Submit(s, keys, TrendRetry.Outcome(TrendRetry.RunFrom((k: nat) => TrendRetry.Reply<int>.Threw(TrendRetry.Overloaded), TrendRetry.IsTransient, 1).ending)).toast
         == Some(Toast(FlowErrors.DefaultTitle, FlowErrors.BusyDescription, Destructive))
  {
    TrendRetry.ThreeOverloadsExhaust();
    FlowErrors.OverloadedModelIsBusy(None);
  }
}
