/**
 The Gemini API key the user supplies (`useApiKeyManager` and `useApiKey` in
 src/hooks/use-api-key.ts): an in-memory key plus a loading flag, mirrored
 into the browser's localStorage under one fixed entry. Storage failures are
 logged and swallowed.
 */
module ApiKeys {
  import opened Common

  const StorageKey := "contentforge-gemini-api-key"
  const UseApiKeyMessage := "useApiKey must be used within an ApiKeyProvider"

  /** localStorage: its entries, and whether touching it throws (private
      browsing, disabled storage, server rendering). */
  datatype Storage = Storage(entries: map<string, string>, accessible: bool)

  /** The hook's state: `apiKey` and `isLoading`. */
  datatype KeyState = KeyState(apiKey: Option<string>, isLoading: bool)

  /** The state after a key change, and localStorage after it. */
  datatype Update = Update(state: KeyState, storage: Storage)

  /** The state before the load effect has run. */
  const Initial := KeyState(None, true)

  /** `isApiKeySet: !!apiKey`: a key is present and non-empty. */
  predicate IsApiKeySet(s: KeyState) {
    s.apiKey.Some? && s.apiKey.value != ""
  }

  /** The stored key, when storage can be read and holds a non-empty one. */
  function StoredKey(store: Storage): Option<string> {
    if store.accessible && StorageKey in store.entries && store.entries[StorageKey] != ""
    then Some(store.entries[StorageKey])
    else None
  }

  /** The load effect: adopt a non-empty stored key, keep the current key
      otherwise, and stop loading whether or not storage could be read. */
  function Load(s: KeyState, store: Storage): (r: KeyState)
    ensures !r.isLoading
    ensures store.accessible && StorageKey in store.entries && store.entries[StorageKey] != "" ==>
              r.apiKey == Some(store.entries[StorageKey])
    ensures !store.accessible || StorageKey !in store.entries || store.entries[StorageKey] == "" ==>
              r.apiKey == s.apiKey
  {
    match StoredKey(store)
    case Some(k) => KeyState(Some(k), false)
    case None => s.(isLoading := false)
  }

  /** `setApiKey(key)`: the state takes the key as given; a non-empty key is
      written to storage and an empty or null one removes the entry; when
      storage throws, it is left as it was. */
  function SetApiKey(s: KeyState, store: Storage, key: Option<string>): (u: Update)
    ensures u.state == s.(apiKey := key)
    ensures u.storage.accessible == store.accessible
    ensures !store.accessible ==> u.storage == store
    ensures store.accessible && key.Some? && key.value != "" ==>
              StorageKey in u.storage.entries && u.storage.entries[StorageKey] == key.value
    ensures store.accessible && (key.None? || key.value == "") ==> StorageKey !in u.storage.entries
    ensures forall k | k != StorageKey :: (k in u.storage.entries <==> k in store.entries)
    ensures forall k | k != StorageKey && k in store.entries :: u.storage.entries[k] == store.entries[k]
  {
    var state := s.(apiKey := key);
    if !store.accessible then Update(state, store)
    else if key.Some? && key.value != "" then
      Update(state, store.(entries := store.entries[StorageKey := key.value]))
    else
      Update(state, store.(entries := store.entries - {StorageKey}))
  }

  /** A non-empty key that was set is what the next page load finds. */
  lemma SetThenLoad(s: KeyState, store: Storage, key: string)
    requires store.accessible && key != ""
    ensures Load(Initial, SetApiKey(s, store, Some(key)).storage).apiKey == Some(key)
    ensures IsApiKeySet(Load(Initial, SetApiKey(s, store, Some(key)).storage))
  {
  }

  /** Clearing the key (null or empty) unsets it now and on the next load. */
  lemma ClearThenLoad(s: KeyState, store: Storage, key: Option<string>)
    requires key.None? || key.value == ""
    ensures !IsApiKeySet(SetApiKey(s, store, key).state)
    ensures store.accessible ==> Load(Initial, SetApiKey(s, store, key).storage).apiKey.None?
  {
  }

  /** With storage unavailable the key still takes effect in memory, but the
      next load finds nothing. */
  lemma UnavailableStorageKeepsKeyInMemory(s: KeyState, store: Storage, key: string)
    requires !store.accessible && key != ""
    ensures IsApiKeySet(SetApiKey(s, store, Some(key)).state)
    ensures Load(Initial, SetApiKey(s, store, Some(key)).storage) == KeyState(None, false)
  {
  }

  /** `useApiKey()`: outside its provider it throws. */
  function UseApiKey(context: Option<KeyState>): (r: Result<KeyState>)
    ensures context.None? ==> r == Err(PlainError(UseApiKeyMessage))
    ensures context.Some? ==> r == Ok(context.value)
  {
    RequireProvider(context, UseApiKeyMessage)
  }
}
