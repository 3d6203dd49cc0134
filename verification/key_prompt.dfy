/**
 The API-key dialog of the root layout (`ApiKeyPrompt` in src/app/layout.tsx):
 when it opens, what saving a typed key does, and that nothing is rendered on
 the login and signup pages.
 */
module KeyPrompt {
  import opened Strings
  import opened Common
  import opened ApiKeys

  /** The dialog's own state: open, saving, and the text typed so far. */
  datatype Dialog = Dialog(isOpen: bool, isSaving: bool, keyInput: string)

  /** What the dialog's effect reads from the auth and key providers. */
  datatype Session = Session(authLoading: bool, hasUser: bool, keys: KeyState, pathname: string)

  /** The result of pressing "Save & Continue". */
  datatype SaveOutcome = SaveOutcome(dialog: Dialog, keys: KeyState, storage: Storage, toast: Toast)

  const InvalidKeyToast := Toast("Invalid Key", "API Key cannot be empty.", Destructive)
  const SavedToast := Toast("API Key Saved!", "You can now start using the AI tools.", Plain)

  /** The login and signup pages, and nothing else. */
  predicate IsAuthPage(pathname: string) {
    pathname == "/login" || pathname == "/signup"
  }

  /** The dialog's effect: open exactly when both providers have loaded, a
      user is signed in, no key is set, and this is not an auth page. */
  function ShouldOpen(s: Session): (open: bool)
    ensures open ==> s.hasUser && !IsApiKeySet(s.keys)
    ensures IsAuthPage(s.pathname) ==> !open
    ensures s.authLoading || s.keys.isLoading ==> !open
    ensures !s.authLoading && !s.keys.isLoading && s.hasUser && !IsApiKeySet(s.keys) && !IsAuthPage(s.pathname) ==> open
  {
    !s.authLoading && !s.keys.isLoading && s.hasUser && !IsApiKeySet(s.keys) && !IsAuthPage(s.pathname)
  }

  /** Runs the effect on a dialog. */
  function Sync(d: Dialog, s: Session): (r: Dialog)
    ensures r.isOpen == ShouldOpen(s)
    ensures r.keyInput == d.keyInput && r.isSaving == d.isSaving
  {
    d.(isOpen := ShouldOpen(s))
  }

  /** What the component renders: nothing on an auth page, the dialog
      elsewhere. */
  function Render(d: Dialog, pathname: string): (r: Option<Dialog>)
    ensures r.None? <==> IsAuthPage(pathname)
    ensures r.Some? ==> r.value == d
  {
    if IsAuthPage(pathname) then None else Some(d)
  }

  /** `handleSaveKey`: a blank input is refused with a toast and changes
      nothing; any other input is stored exactly as typed, untrimmed, and the
      dialog closes with saving back off. */
  function HandleSaveKey(d: Dialog, keys: KeyState, store: Storage): (o: SaveOutcome)
    ensures AllWhitespace(d.keyInput) ==> o == SaveOutcome(d, keys, store, InvalidKeyToast)
    ensures !AllWhitespace(d.keyInput) ==>
              && o.keys == SetApiKey(keys, store, Some(d.keyInput)).state
              && o.keys.apiKey == Some(d.keyInput)
              && o.storage == SetApiKey(keys, store, Some(d.keyInput)).storage
              && !o.dialog.isOpen && !o.dialog.isSaving
              && o.dialog.keyInput == d.keyInput
              && o.toast == SavedToast
  {
    TrimEmptyIffBlank(d.keyInput);
    if Trim(d.keyInput) == "" then SaveOutcome(d, keys, store, InvalidKeyToast)
    else
      var u := SetApiKey(keys, store, Some(d.keyInput));
      SaveOutcome(Dialog(false, false, d.keyInput), u.state, u.storage, SavedToast)
  }

  /** After a successful save the key counts as set, so the effect keeps the
      dialog closed on every later render. */
  lemma SavedKeyKeepsDialogClosed(d: Dialog, keys: KeyState, store: Storage, authLoading: bool, hasUser: bool, pathname: string)
    requires !AllWhitespace(d.keyInput)
    ensures IsApiKeySet(HandleSaveKey(d, keys, store).keys)
    ensures !ShouldOpen(Session(authLoading, hasUser, HandleSaveKey(d, keys, store).keys, pathname))
  {
    assert d.keyInput != "";
  }

  /** A blank input leaves the key unset, so an open dialog stays open. */
  lemma BlankInputKeepsDialogOpen(d: Dialog, s: Session, store: Storage)
    requires AllWhitespace(d.keyInput)
    requires ShouldOpen(s)
    ensures ShouldOpen(s.(keys := HandleSaveKey(Sync(d, s), s.keys, store).keys))
    ensures HandleSaveKey(Sync(d, s), s.keys, store).dialog.isOpen
  {
  }

  /** A signed-in user without a key, once both providers have loaded, is
      shown the open dialog on every page but login and signup, whatever the
      dialog's state was before. */
  lemma KeylessSessionSeesDialog(d: Dialog, s: Session)
    requires !s.authLoading && !s.keys.isLoading && s.hasUser
    requires s.keys.apiKey.None? || s.keys.apiKey == Some("")
    requires !IsAuthPage(s.pathname)
    ensures Render(Sync(d, s), s.pathname) == Some(d.(isOpen := true))
  {
  }
}
