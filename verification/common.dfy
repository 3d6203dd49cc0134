/**
 Values shared by every part of the application: optional values, the values
 JavaScript code throws, the outcome of an awaited call, toast notifications,
 and the guard that React context hooks put in front of their context.
 */
module Common {
  import opened Strings

  datatype Option<+T> = None | Some(value: T)

  /** A value thrown by code outside the model. `ErrorObject` is anything
      that passes `instanceof Error` (Genkit, Firebase and plain `Error`
      objects), with its `name`, its `message` and, for Firebase errors, its
      `code`; `OtherValue` is any other thrown value, given by what
      `String(value)` prints. */
  datatype Thrown =
    | ErrorObject(name: string, message: string, code: Option<string>)
    | OtherValue(shown: string)

  /** The outcome of an awaited call: its value, or the value it threw. */
  datatype Result<+T> = Ok(value: T) | Err(error: Thrown)

  datatype Variant = Plain | Destructive

  /** One notification passed to `toast(...)`. */
  datatype Toast = Toast(title: string, description: string, variant: Variant)

  /** A plain `new Error(message)`. */
  function PlainError(message: string): Thrown {
    ErrorObject("Error", message, None)
  }

  /** `error?.message || ''`: the message of an error object, and the empty
      string for a value that has none. */
  function MessageText(e: Thrown): string {
    if e.ErrorObject? then e.message else ""
  }

  /** `String(error)`: for an error object, `Error.prototype.toString`, which
      prints the name, the message, or `name: message` when both are set. */
  function Shown(e: Thrown): (s: string)
    ensures e.ErrorObject? && e.name != "" && e.message != "" ==> s == e.name + ": " + e.message
  {
    match e
    case ErrorObject(name, message, _) =>
      if name == "" then message else if message == "" then name else name + ": " + message
    case OtherValue(shown) => shown
  }

  /** Whatever the message of an error mentions, `String(error)` mentions
      too: the retry loop, which reads `String(error)`, sees every marker the
      toast translator, which reads the message, sees. */
  lemma {:induction false} ShownMentionsMessage(e: Thrown, marker: string)
    requires Contains(MessageText(e), marker)
    ensures Contains(Shown(e), marker)
  {
    match e
    case ErrorObject(name, message, _) =>
      if name == "" {
      } else if message == "" {
        assert Contains(message, marker);
        ContainsIffOccursAt(message, marker);
        var i :| OccursAt(message, marker, i);
        assert |marker| == 0;
        ContainsAt(Shown(e), marker, 0);
      } else {
        ContainsInExtension(name + ": ", message, "", marker);
        assert name + ": " + message + "" == Shown(e);
      }
    case OtherValue(_) =>
  }

  /** The guard of `useAuth` and `useApiKey`: outside its provider the hook
      throws an `Error` with the given message; inside, it returns the
      provider's value. */
  function RequireProvider<C>(context: Option<C>, message: string): (r: Result<C>)
    ensures r.Err? <==> context.None?
    ensures r.Err? ==> r.error == PlainError(message)
    ensures r.Ok? ==> r.value == context.value
  {
    match context
    case None => Err(PlainError(message))
    case Some(c) => Ok(c)
  }
}
