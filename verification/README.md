# ContentForge AI: the decision logic behind the pages, in Dafny

ContentForge AI is a web app in which creators ask a hosted language model
for scripts, trend lists, video concepts and similar content. Most of the code
is React glue. A few small procedures decide what the user sees, and these are
modelled here as pure functions over immutable datatypes:

- **Flow errors.** Translating a failed flow call into a toast (`handleFlowError`).
- **Trend discovery retries.** The bounded retry loop of the trend-discovery flow. The file holds two copies of the loop, and both are modelled.
- **Auth errors.** Mapping sign-in error codes to messages (`handleAuthError`) and the `useAuth` provider guard.
- **The Gemini API key.** The key store over localStorage, the root layout's key dialog, and the rule that flow pages refuse to run without a key.
- **Page helpers.** The chapter-list clipboard text, the trend popularity badge, the viral-concept script topic, and the saved-title bookkeeping of the trend and concept cards.
- **Brand kit.** Parsing and re-joining the brand-kit keywords.
- **Content planner.** Grouping ideas by date and adding a new idea.
- **Feature video.** The feature-video flow's voice choice and its script-then-voiceover sequence.

Every remote call is a parameter of the function that makes it:

- a language-model prompt;
- a Firestore write, modelled as a `stored` flag;
- a localStorage access, modelled as a `Storage` value that may be inaccessible;
- the voiceover flow.

The retry loop takes the model as an oracle `nat -> Reply<T>` indexed by the attempt number. It records each wait it would sleep as a number of milliseconds.

The modules follow the program:

| module | file | models |
|---|---|---|
| `Strings` | strings.dfy | `includes`, `trim` (ECMAScript's whitespace set), `split` on one character, `join` |
| `Common` | common.dfy | thrown values, `String(error)`, `error?.message \|\| ''`, toasts, the provider guard |
| `FlowErrors` | flow_errors.dfy | src/lib/utils.ts |
| `TrendRetry` | trend_retry.dfy | src/ai/flows/discover-trending-reels.ts |
| `AuthErrors` | auth_errors.dfy | src/hooks/use-auth.ts |
| `ApiKeys` | api_keys.dfy | src/hooks/use-api-key.ts |
| `KeyPrompt` | key_prompt.dfy | src/app/layout.tsx |
| `FlowPage` | flow_page.dfy | the `onSubmit` the chapters, trending-reels and viral pages share |
| `Chapters` | chapters.dfy | src/app/chapters-generator/page.tsx |
| `SavedItems` | saved_items.dfy | the save bookkeeping the trending-reels and viral pages share |
| `TrendingReels` | trending_reels.dfy | src/app/trending-reels/page.tsx |
| `ViralStrategist` | viral.dfy | src/app/viral-video-strategist/page.tsx |
| `BrandKit` | brand_kit.dfy | src/app/brand-kit/page.tsx |
| `ContentPlanner` | content_planner.dfy | src/app/content-planner/page.tsx |
| `FeatureVideo` | feature_video.dfy | src/ai/flows/generate-feature-video.ts |

The error translator matches its markers case-sensitively; the code calls `includes` on the raw message. `FlowErrors.LowerCaseApiKeyIsUnknown` states the consequence.

## Model

| member | source | states |
|---|---|---|
| FlowErrors.Classify | src/lib/utils.ts:13-16 | A message is a quota/key failure exactly when it contains "API key", "quota" or "429". It is a busy-model failure exactly when it has none of those but contains "503" or "overloaded". Otherwise it is unknown. Each case holds in both directions. |
| FlowErrors.ToastTitle | src/lib/utils.ts:20 | The supplied title is used when present and non-empty; otherwise the title is "An Error Occurred". |
| FlowErrors.HandleFlowError | src/lib/utils.ts:8-24 | It emits exactly one toast, always destructive. The title follows `title \|\| default`. The description is chosen from the message by the quota-first classification; a value with no message, or with an empty one, reads as no marker. |
| FlowErrors.DescriptionIdentifiesCategory | src/lib/utils.ts:11-17 | The three descriptions are distinct, so reading a toast's description back gives the category it was produced for. |
| FlowErrors.QuotaTakesPrecedence | src/lib/utils.ts:13-16 | A message containing both "429" and "503" gets the quota description, not the busy one. |
| FlowErrors.NoMessageIsUnknown | src/lib/utils.ts:10-11 | A thrown non-error, or an error with an empty message, gets "An unknown error occurred. Please try again." |
| FlowErrors.LowerCaseApiKeyIsUnknown | src/lib/utils.ts:13 | Matching is case-sensitive: "invalid api key" is not a quota/key failure and gets the unknown description. |
| FlowErrors.OverloadedModelIsBusy | src/lib/utils.ts:15-16 | "model overloaded" has no quota marker and is reported as a busy model. |
| Common.ShownMentionsMessage | src/ai/flows/discover-trending-reels.ts:74 | A marker found in an error's message is also found in `String(error)`, the text the retry loop inspects. |
| TrendRetry.Backoff | src/ai/flows/discover-trending-reels.ts:67-80 | The wait after failed attempt k is 1000·k ms, and it is never zero. |
| TrendRetry.ScheduleTotal | src/ai/flows/discover-trending-reels.ts:67-80 | The waits after n failed attempts total 1000·n(n+1)/2 ms. |
| TrendRetry.RunFrom | src/ai/flows/discover-trending-reels.ts:69-86 | This is the reference definition of a run from a given attempt under a retry policy. A run never makes more than 3 calls. |
| TrendRetry.DiscoverRetryingTransient | src/ai/flows/discover-trending-reels.ts:65-89 | It makes between 1 and 3 calls, and every call before the last failed with a "503"/"overloaded" error. It returns the last call's output, or rethrows its error unchanged when that error is permanent or it was the third call. The post-loop throw is never reached. The waits are 1000, 2000, … for the retries made. The run equals the reference run. |
| TrendRetry.DiscoverRetryingAny | src/ai/flows/discover-trending-reels.ts:100-112 | The second copy retries any error. Otherwise it has the same bound and waits: it rethrows the error of attempt 3 unchanged, never reaches its post-loop throw, and equals the reference run that retries everything. |
| TrendRetry.FirstTrySucceeds | src/ai/flows/discover-trending-reels.ts:69-72 | An output on attempt 1 is returned after one call and no wait. |
| TrendRetry.PermanentFailureFailsFast | src/ai/flows/discover-trending-reels.ts:74-83 | An error whose text has neither "503" nor "overloaded" is rethrown unchanged after one call and no wait. |
| TrendRetry.SucceedsAfterRetries | src/ai/flows/discover-trending-reels.ts:69-80 | After k−1 retried failures and then an output (k ≤ 3), the output is returned after k calls. The total wait is 1000·k(k−1)/2 ms. |
| TrendRetry.ExhaustedRethrowsLastError | src/ai/flows/discover-trending-reels.ts:75-83 | Three retryable failures make the flow rethrow the third error itself after waits of 1000 and 2000 ms. |
| TrendRetry.CopiesAgreeOnTransientFailures | src/ai/flows/discover-trending-reels.ts:69-111 | When every failure is transient, the two copies of the loop behave identically. |
| TrendRetry.CopiesDifferOnPermanentFailure | src/ai/flows/discover-trending-reels.ts:75-108 | On a permanent first failure followed by an output, the first copy rethrows and the second copy returns the output. |
| TrendRetry.TwoOverloadsThenOutput | src/ai/flows/discover-trending-reels.ts:69-80 | Two "503" failures and then an output give that output after 3 calls, with waits of 1000 and 2000 ms. |
| TrendRetry.ThreeOverloadsExhaust | src/ai/flows/discover-trending-reels.ts:75-83 | Three "overloaded" failures make the flow rethrow the third after 3 calls. |
| AuthErrors.ReasonOf | src/hooks/use-auth.ts:41-68 | A thrown non-error has no code reason. Each of the eight listed codes falls into its group, following the `KnownCodes` table: both popup codes give "cancelled", and user-not-found and wrong-password give "bad credentials". Any other code, including a missing one (printed "undefined"), is kept verbatim. |
| AuthErrors.HandleAuthError | src/hooks/use-auth.ts:39-76 | The toast title is "<provider> Failed". The variant is destructive. A thrown non-error gets "An unknown error occurred.". A listed code gets the message of its group, and any other code gets "An error occurred. Please try again. (<code>)". |
| AuthErrors.PopupCancelCodesShareMessage | src/hooks/use-auth.ts:46-48 | Both popup-cancel codes give "Sign-in was cancelled." |
| AuthErrors.BadCredentialCodesShareMessage | src/hooks/use-auth.ts:56-58 | user-not-found and wrong-password share one message. |
| AuthErrors.UnknownCodeIsEmbedded | src/hooks/use-auth.ts:66-67 | A code outside the eight listed ones is shown inside "An error occurred. Please try again. (<code>)". |
| AuthErrors.DescriptionIdentifiesReason | src/hooks/use-auth.ts:41-67 | The fixed messages are pairwise distinct and distinct from the generic one, so a description determines its reason. |
| AuthErrors.UseAuth | src/hooks/use-auth.ts:155-161 | Outside an `AuthProvider` it throws "useAuth must be used within an AuthProvider"; inside, it returns the context. |
| ApiKeys.Load | src/hooks/use-api-key.ts:30-41 | A non-empty stored key is adopted; otherwise the key stays as it was. Loading ends even when storage throws. |
| ApiKeys.SetApiKey | src/hooks/use-api-key.ts:43-54 | The key is set in memory as given. A non-empty key is stored under "contentforge-gemini-api-key"; null or "" removes that entry. Other entries are unchanged. A storage failure leaves storage as it was. |
| ApiKeys.SetThenLoad | src/hooks/use-api-key.ts:32-47 | After a non-empty key is set, a fresh load finds that key, and the key counts as set. |
| ApiKeys.ClearThenLoad | src/hooks/use-api-key.ts:44-59 | Setting null or "" unsets the key now, and a fresh load finds none. |
| ApiKeys.UnavailableStorageKeepsKeyInMemory | src/hooks/use-api-key.ts:44-53 | When storage throws, the key is still set in memory, but a fresh load finds nothing. |
| ApiKeys.UseApiKey | src/hooks/use-api-key.ts:17-23 | Outside its provider it throws "useApiKey must be used within an ApiKeyProvider". |
| KeyPrompt.ShouldOpen | src/app/layout.tsx:29-37 | The dialog opens exactly when both providers have loaded, a user is signed in, no key is set, and the page is neither "/login" nor "/signup". |
| KeyPrompt.KeylessSessionSeesDialog | src/app/layout.tsx:29-58 | Once both providers have loaded, a signed-in user without a key (none, or "") is shown the open dialog on every page except login and signup, whatever its earlier state. |
| KeyPrompt.Render | src/app/layout.tsx:29-58 | Nothing is rendered exactly on the two auth pages. |
| KeyPrompt.HandleSaveKey | src/app/layout.tsx:39-56 | Blank input (ECMAScript whitespace only) changes nothing and shows "Invalid Key". Any other input is stored exactly as typed, untrimmed; the key state becomes exactly what `setApiKey` leaves, with nothing else changed. The dialog closes, saving ends, and "API Key Saved!" shows. |
| KeyPrompt.SavedKeyKeepsDialogClosed | src/app/layout.tsx:31-51 | After a successful save the key is set, so the dialog stays closed on every later render. |
| KeyPrompt.BlankInputKeepsDialogOpen | src/app/layout.tsx:31-47 | After a blank input the key stays unset, so an open dialog stays open. |
| FlowPage.Submit | src/app/chapters-generator/page.tsx:35-50 | The flow is called exactly when a key is set, and it is called with that key. Without a key the page is unchanged and "API Key Required" shows. With a key, loading is on and the output cleared during the call, and loading is off afterwards. A success shows the output; a failure leaves no output and shows `handleFlowError`'s toast. |
| FlowPage.NoKeyNoCall | src/app/trending-reels/page.tsx:59-74 | Without a key, what the flow would have answered makes no difference, and the page is unchanged. |
| FlowPage.FailureClearsOutput | src/app/viral-video-strategist/page.tsx:51-66 | A failed call ends with loading off and no output, whatever was shown before. |
| FlowPage.OverloadedModelShowsBusyToast | src/app/trending-reels/page.tsx:66-70 | When the model answers "overloaded" on every attempt, the trend flow rethrows that error, and the page that receives the flow's result shows the busy-model toast. |
| Chapters.Copy | src/app/chapters-generator/page.tsx:52-63 | Without output nothing is copied. With output its chapters' text is copied and confirmed; an empty list copies "". |
| Chapters.CopiedTextSplitsIntoChapterLines | src/app/chapters-generator/page.tsx:54-56 | For n ≥ 1 chapters, none of whose fields holds a newline, the copied text read back line by line gives one line per chapter, in order. Line i is "<timestamp> - <title>" of chapter i. An empty list copies "", which reads back as one empty line (`Chapters.EmptyListCopiesOneBlankLine`). |
| Chapters.EmptyListCopiesOneBlankLine | src/app/chapters-generator/page.tsx:53-57 | An empty chapter list copies "", and that text reads back as a single empty line rather than no lines. |
| Chapters.CopiedTextHasOneBreakBetweenChapters | src/app/chapters-generator/page.tsx:54-56 | For n ≥ 1 chapters, none of whose fields holds a newline, the text has n−1 newlines. |
| SavedItems.HandleSave | src/app/trending-reels/page.tsx:84-107 | Without a user only a destructive toast shows. Otherwise the title is marked saving during the write, and the record is written for the user. On success the title joins the saved set; on failure the set is unchanged. Either way the saving mark is cleared. |
| SavedItems.LoadSaved | src/app/trending-reels/page.tsx:51-57 | With a user, the saved set becomes exactly the titles already stored for them. Without one, nothing changes. |
| SavedItems.SaveDisablesOnlyItsCard | src/app/trending-reels/page.tsx:164-203 | A card is disabled while its save is pending, and stays disabled after a successful save. Every other card is disabled afterwards exactly when its title was saved before. |
| SavedItems.FailedSaveReenables | src/app/viral-video-strategist/page.tsx:82-189 | After a failed save the card is disabled exactly when its title was already saved. |
| TrendingReels.PopularityBadge | src/app/trending-reels/page.tsx:27-163 | The three known popularities show their own label. Anything else shows the thinking-face icon and "Unknown". |
| TrendingReels.FlamesMeasureHeat | src/app/trending-reels/page.tsx:27-163 | The badge shows 3, 2 and 1 flames for "Very Hot", "Gaining Momentum" and "Niche-Specific", and none otherwise. |
| TrendingReels.BadgeTextIdentifiesPopularity | src/app/trending-reels/page.tsx:27-31 | Two known popularities share a label only when they are equal. |
| TrendingReels.HandleSaveTrend | src/app/trending-reels/page.tsx:84-107 | The record written holds the user's uid and exactly the trend's five fields. Without a user only "Please log in" shows. Otherwise the trend's title is marked saving during the write. On success the title joins the saved set and "Trend Saved!" shows; on failure the set is unchanged and "Save Failed" shows. The mark is cleared either way. |
| ViralStrategist.TopicIsJoinedLines | src/app/viral-video-strategist/page.tsx:91 | The topic is "Video Title: …", "Style: …", "Opening Hook: …" and "Core Message: …", in that order, separated by blank lines. |
| ViralStrategist.ParseScriptTopic | src/app/viral-video-strategist/page.tsx:91 | When no field holds a newline, the topic reads back into the title, format, hook and core value. |
| ViralStrategist.TopicIgnoresStrategyFields | src/app/viral-video-strategist/page.tsx:91 | The uniqueness and the monetization angle have no influence on the topic. |
| ViralStrategist.SameTopicSameFields | src/app/viral-video-strategist/page.tsx:91 | Two single-line concepts share a topic exactly when their four shown fields agree. |
| ViralStrategist.HandleSaveConcept | src/app/viral-video-strategist/page.tsx:68-88 | The record written is the concept, the user's uid and the niche from the form. The title is marked saving during the write. Without a user only "Please log in" shows. Success adds the title to the saved set and shows "Concept Saved!"; failure leaves the set and shows "Save Failed". The mark is cleared either way. |
| BrandKit.ParseKeywords | src/app/brand-kit/page.tsx:80 | Each keyword is non-empty, trimmed and comma-free. The keywords keep the order of the comma-separated pieces. Every non-empty trimmed piece is kept, as often as it occurs. There are at most one more keywords than commas. |
| BrandKit.KeptPiecesDetermineResult | src/app/brand-kit/page.tsx:80 | The order and the multiset determine the result: a subsequence of the trimmed pieces that holds each non-empty piece as often as they do, and no empty string, is the filter's result itself. |
| BrandKit.ParseJoinedKeywords | src/app/brand-kit/page.tsx:55-80 | Parsing the ", "-join of a list of trimmed, non-empty, comma-free keywords gives the list back. |
| BrandKit.ReparseIsStable | src/app/brand-kit/page.tsx:55-80 | Joining and re-parsing parsed keywords changes nothing. |
| BrandKit.CommasPassValidationButParseToNothing | src/app/brand-kit/page.tsx:19-80 | ",,," meets the three-character minimum of the keywords field, yet saves an empty keyword list. |
| BrandKit.Payload | src/app/brand-kit/page.tsx:78-81 | Only the keywords are transformed. The name, description and tone of voice are saved as entered. |
| BrandKit.LoadThenSaveKeepsKit | src/app/brand-kit/page.tsx:52-81 | Loading a stored kit into the form and saving it untouched stores the same kit. |
| BrandKit.LoadForm | src/app/brand-kit/page.tsx:47-68 | A kit that is found fills the form. If none is found the form is left. A failed read leaves the form and shows "Could not load your brand kit". |
| BrandKit.Submit | src/app/brand-kit/page.tsx:74-97 | Nothing happens without a user. Otherwise the payload is written for that user, and the toast reports success or failure. |
| ContentPlanner.AddToBucket | src/app/content-planner/page.tsx:53-86 | The idea is appended at the end of its date's bucket, and the bucket is created if absent. Every other date's bucket is unchanged, and no other key appears. |
| ContentPlanner.GroupedBuckets | src/app/content-planner/page.tsx:51-58 | Exactly the dates that occur get a bucket. Each bucket is that date's ideas in fetch order, and no bucket is empty. |
| ContentPlanner.GroupedSizesSum | src/app/content-planner/page.tsx:51-58 | The bucket sizes add up to the number of fetched ideas. |
| ContentPlanner.GroupThenAdd | src/app/content-planner/page.tsx:51-86 | Adding an idea to the grouped buckets equals grouping the list with that idea appended last. A fresh fetch would list it first instead, because fetched ideas are sorted newest first. |
| ContentPlanner.AddKeepsBucketsWellFormed | src/app/content-planner/page.tsx:82-86 | Adding an idea keeps every bucket non-empty and keyed by its ideas' date. |
| ContentPlanner.DotIffIdeaOnDay | src/app/content-planner/page.tsx:126-127 | After a fetch, a day shows the dot exactly when some fetched idea is on that day. |
| ContentPlanner.SelectedDateIdeas | src/app/content-planner/page.tsx:107 | The result is the selected day's bucket. It is empty when there is no bucket or no day is selected. |
| ContentPlanner.SelectedDayAfterFetch | src/app/content-planner/page.tsx:51-107 | After a fetch, the selected day lists that day's ideas in fetch order. |
| ContentPlanner.SubmitIdea | src/app/content-planner/page.tsx:71-97 | Nothing happens without a user or a day. Otherwise the idea is written. Once stored, it is appended to its day's bucket, the dialog closes and "Success" shows. A failure leaves the buckets and the dialog and shows an error. |
| ContentPlanner.StoredIdeaIsListedLast | src/app/content-planner/page.tsx:82-127 | A stored idea is listed last for its day and lights that day's dot. Other days' lists and dots are unchanged. |
| FeatureVideo.VoiceFor | src/ai/flows/generate-feature-video.ts:15-101 | A style in the map gets its voice, and any other style gets "Algenib". |
| FeatureVideo.VoiceChoices | src/ai/flows/generate-feature-video.ts:15-101 | Only "Algenib" and "Achernar" are ever requested. Achernar is requested exactly for "energetic-promotional". |
| FeatureVideo.GenerateFeatureVideo | src/ai/flows/generate-feature-video.ts:93-116 | A failed or empty script step throws, and the voiceover is never requested. Otherwise the voiceover is requested with exactly the generated script and the mapped voice, and an error it throws reaches the caller unchanged. The run succeeds exactly when the voiceover answers with a non-empty audio URL. On success, the script and storyboard are the generated ones and the audio URL is the voiceover's. |
| FeatureVideo.MissingAudioFails | src/ai/flows/generate-feature-video.ts:107-109 | A voiceover without audio fails the run with "Failed to generate voiceover." |
| FeatureVideo.SuccessHasAudio | src/ai/flows/generate-feature-video.ts:107-115 | A successful run always carries a non-empty audio URL. |
| Strings.TrimEmptyIffBlank | src/app/layout.tsx:40 | `trim()` gives "" exactly for input made only of ECMAScript whitespace. |
| Strings.SplitJoin | src/app/brand-kit/page.tsx:80 | Splitting a one-character-separated join of separator-free pieces gives the pieces back. |
| Strings.JoinSplit | src/app/brand-kit/page.tsx:80 | Joining the pieces of a split with the separator gives the text back. |
| Strings.SplitCount | src/app/brand-kit/page.tsx:80 | A split gives one more piece than there are separators. |

## Left out

- Language-model prompts, the Genkit client and its per-request configuration (src/ai/genkit.ts) are not part of this model. Their answers are parameters: oracles, or `Result` values.
- Real time is not modelled. The retry loop records its waits as numbers and does not sleep.
- Dates are not modelled. The content planner takes the `yyyy-MM-dd` keys as opaque strings, selects a day by key, and receives the creation time as a parameter.
- Firebase Auth and Firestore reads and writes are not modelled. A write is a `stored` flag, and a read is the list it would return. The client-side newest-first sort of fetched ideas (src/lib/firebase/firestore.ts:39) is not modelled: a fetch is taken as the list in the order given.
- Rendering, navigation (`router.push`, `encodeURIComponent`), the clipboard and toast side effects are not modelled. Toasts are returned as values.
- Form validation by zod is left to the library. The brand-kit minimum lengths are stated as `BrandKit.FormValid` to show what they let through. zod counts UTF-16 code units, and Dafny's `char` is a Unicode scalar value, so the two counts differ outside the Basic Multilingual Plane.
- The `output!` assertion in the retry loop is not modelled. A null output is returned as it is, and the flow output schema is not checked.
- Errors crossing the server-action boundary are not modelled. The page receives the flow's thrown value unchanged, although Next.js may replace its message in production builds.
- `Common.Shown`: a thrown value that is not an `Error` object keeps its `String()` text as an opaque string, and `MessageText` treats it as having no message. A thrown plain object with a `message` property is not modelled.
- `TrendingReels.PopularityBadge`: a popularity equal to an `Object.prototype` property name (such as "constructor") gets the fallback badge here. The page would instead read an inherited property and show an undefined icon.
- `FeatureVideo.VoiceFor`: the same holds for `voiceStyleMap` and inherited property names.
- The voiceover flow (src/ai/flows/generate-voiceover.ts) is not part of this model. It ignores the voice it is given and always uses "Algenib", so the mapped voice is observable only as the request argument.
- src/ai/flows/discover-trending-reels.ts does not parse as written. A second copy of the flow follows a broken fragment from line 90 on. The two loop bodies are modelled as separate methods rather than reconciled.
- The brand-kit page's redirect to "/login" is not modelled, and neither are the read-loading flags: the brand kit's `isFetching` shows a loader instead of the form (src/app/brand-kit/page.tsx:99), and the planner's `isLoadingIdeas` shows a spinner instead of the day's list (src/app/content-planner/page.tsx:146).
- The `isSubmitting` flags of the brand-kit and content-planner pages are not modelled. Besides switching a spinner, they disable the submit button while the write is in flight (src/app/brand-kit/page.tsx:177, src/app/content-planner/page.tsx:182). That is the pages' guard against a double submit. `BrandKit.Submit` and `ContentPlanner.SubmitIdea` model one submit from press to completion, so a second press during the write is neither modelled nor ruled out.
- Trend and concept cards' copy and "turn into script" buttons are navigation or clipboard side effects and are not modelled, except for the topic text.
- SavedItems.HandleSave: a save is one step from the press to the write's completion. The pages keep a single "saving" title, so when two saves overlap, the first to finish clears the mark and re-enables the other card while its write is still pending. Overlapping saves are not interleaved here.
- ContentPlanner.GroupThenAdd: the optimistic append lists a new idea last in its day. Reloading the page sorts fetched ideas newest first (src/lib/firebase/firestore.ts:39), so a reload moves it to the front of that day's list.
