/**
 The save bookkeeping the trending-reels and viral-video-strategist pages
 share: a set of titles already saved, and the title being saved right now,
 which drive each card's "Save" button.
 */
module SavedItems {
  import opened Common

  /** `saved…Titles` and `saving…Title`. */
  datatype Marks = Marks(saved: set<string>, saving: Option<string>)

  /** The toasts one page uses for saving. */
  datatype Wording = Wording(loginDescription: string, savedTitle: string, failedDescription: string)

  /** One press of a card's save button: the marks while the write is
      pending, the marks afterwards, the record written, and the toast. */
  datatype SaveOutcome<+R> = SaveOutcome(pending: Option<Marks>, after: Marks, written: Option<R>, toast: Toast)

  const NoMarks := Marks({}, None)

  /** The effect that runs when the user changes: with a user, the saved
      set becomes the titles of the items already stored for them; without
      one, nothing changes. */
  function LoadSaved(m: Marks, user: Option<string>, storedTitles: seq<string>): (r: Marks)
    ensures user.None? ==> r == m
    ensures user.Some? ==> r.saving == m.saving && forall t :: t in r.saved <==> t in storedTitles
  {
    if user.Some? then m.(saved := set t | t in storedTitles) else m
  }

  /** The save button of the card titled `title` is disabled. */
  predicate SaveDisabled(m: Marks, title: string) {
    m.saving == Some(title) || title in m.saved
  }

  function LoginToast(w: Wording): Toast {
    Toast("Please log in", w.loginDescription, Destructive)
  }

  function SavedToast(w: Wording): Toast {
    Toast(w.savedTitle, "You can find it in your Content Library.", Plain)
  }

  function FailedToast(w: Wording): Toast {
    Toast("Save Failed", w.failedDescription, Destructive)
  }

  /** `handleSave…`: without a user only a toast is shown; otherwise the
      title is marked as saving, `record(uid)` is written, the title joins
      the saved set if the write went through (`stored`), and the saving mark
      is cleared on either outcome. */
  function HandleSave<R>(m: Marks, user: Option<string>, title: string, record: string -> R, stored: bool, w: Wording): (o: SaveOutcome<R>)
    ensures user.None? ==> o == SaveOutcome(None, m, None, LoginToast(w))
    ensures user.Some? ==> o.pending == Some(m.(saving := Some(title))) && o.written == Some(record(user.value))
    ensures user.Some? ==> o.after.saving.None?
    ensures user.Some? && stored ==> o.after.saved == m.saved + {title} && o.toast == SavedToast(w)
    ensures user.Some? && !stored ==> o.after.saved == m.saved && o.toast == FailedToast(w)
  {
    match user
    case None => SaveOutcome(None, m, None, LoginToast(w))
    case Some(uid) =>
      var pending := m.(saving := Some(title));
      if stored then SaveOutcome(Some(pending), Marks(m.saved + {title}, None), Some(record(uid)), SavedToast(w))
      else SaveOutcome(Some(pending), Marks(m.saved, None), Some(record(uid)), FailedToast(w))
  }

  /** While its write is pending a card cannot be saved again, and once saved
      it stays disabled; every other card's button is as it was, minus any
      stale saving mark. */
  lemma SaveDisablesOnlyItsCard<R>(m: Marks, uid: string, title: string, record: string -> R, stored: bool, w: Wording, other: string)
    requires other != title
    ensures SaveDisabled(HandleSave(m, Some(uid), title, record, stored, w).pending.value, title)
    ensures stored ==> SaveDisabled(HandleSave(m, Some(uid), title, record, stored, w).after, title)
    ensures SaveDisabled(HandleSave(m, Some(uid), title, record, stored, w).after, other) <==> other in m.saved
  {
  }

  /** A failed save leaves the card enabled again unless it was saved before. */
  lemma FailedSaveReenables<R>(m: Marks, uid: string, title: string, record: string -> R, w: Wording)
    ensures SaveDisabled(HandleSave(m, Some(uid), title, record, false, w).after, title) <==> title in m.saved
  {
  }
}
