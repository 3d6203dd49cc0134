/**
 The toast every page shows when a flow call fails (`handleFlowError` in
 src/lib/utils.ts): the error message is searched, case-sensitively, for
 credential or quota markers first and for overload markers second, and the
 result is one destructive toast.
 */
module FlowErrors {
  import opened Strings
  import opened Common

  const DefaultTitle := "An Error Occurred"
  const UnknownDescription := "An unknown error occurred. Please try again."
  const QuotaDescription := "Your Gemini API key limit may have been reached or it is invalid. Please update it in your profile and try again."
  const BusyDescription := "The AI model is currently busy. Please wait a moment and try again."

  /** The three things the toast can tell the user. */
  datatype Category = QuotaOrKey | ModelBusy | Unknown

  /** The message names the credential or its quota. */
  predicate MentionsQuota(m: string) {
    Contains(m, "API key") || Contains(m, "quota") || Contains(m, "429")
  }

  /** The message says the model is overloaded. */
  predicate MentionsOverload(m: string) {
    Contains(m, "503") || Contains(m, "overloaded")
  }

  /** The category a message falls into; quota markers are checked first. */
  function Classify(m: string): (c: Category)
    ensures c == QuotaOrKey <==> MentionsQuota(m)
    ensures c == ModelBusy <==> !MentionsQuota(m) && MentionsOverload(m)
    ensures c == Unknown <==> !MentionsQuota(m) && !MentionsOverload(m)
  {
    if MentionsQuota(m) then QuotaOrKey
    else if MentionsOverload(m) then ModelBusy
    else Unknown
  }

  function DescriptionOf(c: Category): string {
    match c
    case QuotaOrKey => QuotaDescription
    case ModelBusy => BusyDescription
    case Unknown => UnknownDescription
  }

  /** Reads the category back from a toast description. */
  function CategoryOf(description: string): Option<Category> {
    if description == QuotaDescription then Some(QuotaOrKey)
    else if description == BusyDescription then Some(ModelBusy)
    else if description == UnknownDescription then Some(Unknown)
    else None
  }

  /** The three descriptions are distinct, so the toast tells the user which
      category the failure fell into. */
  lemma DescriptionIdentifiesCategory(c: Category)
    ensures CategoryOf(DescriptionOf(c)) == Some(c)
  {
    assert |QuotaDescription| == 113 && |BusyDescription| == 67 && |UnknownDescription| == 44;
  }

  /** `title || "An Error Occurred"`: a missing or empty title falls back. */
  function ToastTitle(title: Option<string>): (t: string)
    ensures title.Some? && title.value != "" ==> t == title.value
    ensures title.None? || title.value == "" ==> t == DefaultTitle
  {
    if title.Some? && title.value != "" then title.value else DefaultTitle
  }

  /** `handleFlowError(error, toast, title)`: the one toast it emits. */
  function HandleFlowError(error: Thrown, title: Option<string>): (t: Toast)
    ensures t.variant == Destructive
    ensures t.title == ToastTitle(title)
    ensures MentionsQuota(MessageText(error)) ==> t.description == QuotaDescription
    ensures !MentionsQuota(MessageText(error)) && MentionsOverload(MessageText(error)) ==> t.description == BusyDescription
    ensures !MentionsQuota(MessageText(error)) && !MentionsOverload(MessageText(error)) ==> t.description == UnknownDescription
  {
    Toast(ToastTitle(title), DescriptionOf(Classify(MessageText(error))), Destructive)
  }

  /** Quota markers win over overload markers: a message with both "429" and
      "503" is reported as a credential or quota problem. */
  lemma QuotaTakesPrecedence(error: Thrown, title: Option<string>)
    requires Contains(MessageText(error), "429")
    requires Contains(MessageText(error), "503")
    ensures HandleFlowError(error, title).description == QuotaDescription
    ensures CategoryOf(HandleFlowError(error, title).description) == Some(QuotaOrKey)
  {
    DescriptionIdentifiesCategory(QuotaOrKey);
  }

  /** A value without a message, or an error whose message is empty, yields
      the generic description. */
  lemma NoMessageIsUnknown(error: Thrown, title: Option<string>)
    requires error.OtherValue? || error.message == ""
    ensures HandleFlowError(error, title).description == UnknownDescription
  {
    assert MessageText(error) == "";
    assert !IsPrefix("API key", "") && !IsPrefix("quota", "") && !IsPrefix("429", "");
    assert !IsPrefix("503", "") && !IsPrefix("overloaded", "");
  }

  /** A needle with a character the text lacks is not found in it. */
  lemma Absent(s: string, sub: string)
    requires |sub| > 0 && sub[0] !in s
    ensures !Contains(s, sub)
  {
    if Contains(s, sub) {
      ContainsHasFirstChar(s, sub);
    }
  }

  /** Matching is case-sensitive: "api key" in lower case is not the
      credential marker, and the message gets the generic description. */
  lemma LowerCaseApiKeyIsUnknown(title: Option<string>)
    ensures HandleFlowError(PlainError("invalid api key"), title).description == UnknownDescription
  {
    var m := "invalid api key";
    assert forall i | 0 <= i < |m| :: m[i] != 'A' && m[i] != 'q' && m[i] != '4' && m[i] != '5' && m[i] != 'o';
    Absent(m, "API key");
    Absent(m, "quota");
    Absent(m, "429");
    Absent(m, "503");
    Absent(m, "overloaded");
  }

  /** An overloaded model's message, with no quota marker, is reported as a
      busy model. */
  lemma OverloadedModelIsBusy(title: Option<string>)
    ensures HandleFlowError(PlainError("model overloaded"), title).description == BusyDescription
  {
    NoQuotaMarkerInOverloaded();
    OverloadMarkerInOverloaded();
    assert MessageText(PlainError("model overloaded")) == "model overloaded";
  }

  lemma NoQuotaMarkerInOverloaded()
    ensures !MentionsQuota("model overloaded")
  {
    var m := "model overloaded";
    assert forall i | 0 <= i < |m| :: m[i] != 'A' && m[i] != 'q' && m[i] != '4';
    Absent(m, "API key");
    Absent(m, "quota");
    Absent(m, "429");
  }

  lemma OverloadMarkerInOverloaded()
    ensures MentionsOverload("model overloaded")
  {
    assert IsPrefix("overloaded", "overloaded");
    ContainsInExtension("model ", "overloaded", "", "overloaded");
    assert "model " + "overloaded" + "" == "model overloaded";
  }
}
