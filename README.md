# Music link handler: preference store and redirect flow, in Dafny

This project models the logic of a small mobile app. The app takes a universal music link
(a song.link / Odesli url), asks the Odesli link-resolution service for the equivalent link on
the user's preferred streaming platform, and opens that link. Two source files hold that logic.

- `utils/musicPlatforms.ts`: the table of eight supported platforms; the preference store,
  which reads and writes one storage key with a write, read-back and retry-once pattern; and
  the lookup of the chosen platform's url in the service's response.
- `app/redirect.tsx`: the redirect screen. It reads the preference, removes the last redirect
  target, asks the resolver, records the redirect target and the processed url, and opens the
  link. On a failure it shows an error with the text "Returning to home in n seconds", and a
  countdown from 5 to the home screen. As written, the countdown only starts for a missing or
  malformed url (see "## Findings").

Files and modules:

- `wrappers.dfy`, module `Wrappers`: `Option` (TypeScript `T | null`) and `Outcome` (a value or
  the message of a thrown error).
- `host.dfy`, module `Host`: class `Device` stands for AsyncStorage, the network request, the OS
  "open URL" action and the router. Its storage is a `map<string, string>`. A script
  `faults: seq<Fault>` says how each storage call turns out: `Succeeds`, `Loses` (a write that
  reports success but is silently dropped) or `Throws(message)`. Every outside call is appended
  to `log`, so the order of effects can be stated.
- `music_platforms.dfy`, module `MusicPlatforms`: the platform table, `Find` and `DisplayName`,
  `GetPreferredPlatform`, and `SetPreferredPlatform`. `SetPreferredPlatform` is a method over the
  `Device`, proved equal to the pure function `SavedIn`; the lemmas about `SavedIn` state its
  cases and the number of writes. Last comes the response lookup. The lookup is a pure function, `LinkFor`, over the
  decoded response `ApiResponse = FetchFailed | Fetched(linksByPlatform)`.
- `redirect.dfy`, module `Redirect`: class `RedirectScreen` with the fields `status`,
  `platformName`, `errorMessage`, `countdown` and `processedUrl`. Its method `HandleRedirect` is
  proved equal to the pure function `Redirected`, over the screen state and a `World` value
  holding the storage, the fault script and the call log. The
  properties of the flow are lemmas about `Redirected`. `Tick` is one firing of the countdown
  interval, and lemmas about the pure counter `Ticks` state when it reaches home.

What the source does, stated plainly:
- The lookup reads exactly `linksByPlatform[platform]`. It has no alias list, no
  case-insensitive substring fallback and no short-circuit on a cached resolution.
- The redirect flow does not check the link's domain against any list.
- The screen has three states: loading, redirecting and error. After a successful open,
  `status` stays redirecting, and navigation home is only scheduled.
- A rejected `Linking.openURL` is caught like any other thrown error and ends in the error state.

## Model

| member | source | states |
|---|---|---|
| MusicPlatforms.PlatformTable | utils/musicPlatforms.ts:3-12 | the table has exactly 8 entries, their keys are pairwise distinct, and every name is non-empty |
| MusicPlatforms.Find | app/redirect.tsx:69 | `find` by key gives nothing exactly when no entry has the key; otherwise it gives an entry with that key, and no earlier entry has it |
| MusicPlatforms.DisplayNameOf | app/redirect.tsx:69-70 | the shown name is the table's name for a known key and the key itself for an unknown one |
| MusicPlatforms.DisplayName | app/redirect.tsx:69-70 | defines the shown name over `Find`: the entry's name when it is non-empty, the key otherwise; its properties are the lemma DisplayNameOf |
| MusicPlatforms.PreferenceRead | utils/musicPlatforms.ts:16-25 | the preference is the value under 'preferredMusicPlatform'; it is null when the key is absent or the read throws |
| MusicPlatforms.GetPreferredPlatform | utils/musicPlatforms.ts:16-25 | makes one read of the preference key, never throws, and returns what PreferenceRead gives |
| MusicPlatforms.SavedIn | utils/musicPlatforms.ts:27-47 | defines one run of setPreferredPlatform over a world value: write, read back, and on a mismatch write and read once more; the first storage call that throws ends the run with its error; its properties are the Saved lemmas below |
| MusicPlatforms.SetPreferredPlatform | utils/musicPlatforms.ts:27-47 | the outcome, the new storage, the fault script and the call log are exactly those of SavedIn for the old state |
| MusicPlatforms.SavedKeepsOtherKeys | utils/musicPlatforms.ts:30-40 | only the preference key changes, and it ends as before or as the platform |
| MusicPlatforms.SavedRunsPrefix | utils/musicPlatforms.ts:27-47 | every run issues a non-empty prefix of write, read, write, read, consumes one fault per call, and throws exactly when its last call threw, with that call's message |
| MusicPlatforms.SavedWhenKept | utils/musicPlatforms.ts:30-36 | storage that keeps the first write: success after one write and one read, with the preference set |
| MusicPlatforms.SavedFirstWriteThrows | utils/musicPlatforms.ts:28-46 | a first write that throws is re-thrown at once, with storage unchanged and no further call |
| MusicPlatforms.SavedReadBackThrows | utils/musicPlatforms.ts:33-46 | a first read-back that throws is re-thrown at once, with no retry |
| MusicPlatforms.SavedOverEqualValue | utils/musicPlatforms.ts:30-36 | a dropped first write over a value already equal to the platform reads back equal: success, no retry, storage unchanged |
| MusicPlatforms.SavedRetried | utils/musicPlatforms.ts:36-46 | a dropped first write whose read-back differs gets exactly one more write of the platform and one more read unless that write throws; the run succeeds exactly when neither throws, and otherwise re-throws the one that did; a kept retry stores the platform |
| MusicPlatforms.WritesOfPrefix | utils/musicPlatforms.ts:30-42 | a run that stops at or before the first read-back writes once; a run that goes further writes twice |
| MusicPlatforms.RanPrefixWrites | utils/musicPlatforms.ts:30-42 | every run of setPreferredPlatform makes one or two writes, never more, and exactly one when it does not retry |
| MusicPlatforms.SavedThenRead | utils/musicPlatforms.ts:16-47 | with no storage call throwing and the first or the retried write kept, saving succeeds and the next read returns the saved platform, even when the first write was dropped |
| MusicPlatforms.SaveAndReadBack | utils/musicPlatforms.ts:16-47 | calling setPreferredPlatform and then getPreferredPlatform under those conditions succeeds and returns the saved platform |
| MusicPlatforms.LinkFor | utils/musicPlatforms.ts:65-73 | the result is the url under exactly the platform's key; it is null when that key is absent, and null, never an error, when the request or its body failed |
| MusicPlatforms.LinkForReadsOnlyItsKey | utils/musicPlatforms.ts:65-69 | no key other than the platform's own is consulted: two responses that agree on it give the same result |
| MusicPlatforms.GetPlatformSpecificUrl | utils/musicPlatforms.ts:51-74 | makes one request for the odesli url and returns the lookup of the platform's key |
| Redirect.ThrownMessage | app/redirect.tsx:99-104 | the message for a thrown error is "Error: " followed by the error's message |
| Redirect.NextCount | app/redirect.tsx:25-31 | one firing never leaves the counter negative and takes exactly one off a positive counter |
| Redirect.CountsDown | app/redirect.tsx:24-33 | starting from n, after k <= n firings the counter is n - k |
| Redirect.NeverNegative | app/redirect.tsx:24-33 | the counter never goes negative |
| Redirect.HomeAfterExactly | app/redirect.tsx:15-33 | from a counter n >= 1, firing n is the first to navigate home, and it leaves 0; from the initial 5 that is the fifth firing |
| Redirect.Failed | app/redirect.tsx:39-41 | defines entering the error state: status error, the message set, and the countdown home started |
| Redirect.Redirected | app/redirect.tsx:37-105 | defines handleRedirect over the screen state and a world value, branch by branch; its properties are the lemmas below |
| Redirect.Processed | app/redirect.tsx:59-74 | defines the flow from the preference read on |
| Redirect.Resolved | app/redirect.tsx:75-98 | defines the flow from the removal of the last redirect target on |
| Redirect.Recorded | app/redirect.tsx:80-93 | defines the flow from the two writes on: write lastRedirectedUrl, write lastProcessedOdesliUrl, open the link, schedule home |
| Redirect.MissingUrl | app/redirect.tsx:38-43 | a null or empty url gives status error with 'No URL provided', and no storage or resolver call |
| Redirect.MalformedReported | app/redirect.tsx:45-104 | a url whose decoding throws gives the error state with "Error: " and the thrown message, leaves the url unmarked, and calls nothing |
| Redirect.AlreadyProcessed | app/redirect.tsx:49-53 | a url that decodes to the processed url changes nothing and calls nothing |
| Redirect.MarkedBeforeAnyCall | app/redirect.tsx:55-60 | a new decoded url becomes `processedUrl`, and the preference read is the first outside call |
| Redirect.RecordedKeeps | app/redirect.tsx:80-93 | the recording and opening stage only appends to the call log and leaves the shown platform name and the processed url alone |
| Redirect.ResolvedKeeps | app/redirect.tsx:76-97 | the resolving stage starts with the removal of lastRedirectedUrl, then only appends to the call log, and leaves the shown platform name and the processed url alone |
| Redirect.NoPreference | app/redirect.tsx:60-66 | without a preference: status error with the no-preference message, one read and no resolver call, storage unchanged, and no platform name shown |
| Redirect.PreferenceShown | app/redirect.tsx:68-76 | with a preference, the shown name is the table's name or the key itself, and the last redirect target is removed right after the read |
| Redirect.NoLink | app/redirect.tsx:76-97 | no link for the platform gives an error naming the platform; the last redirect target stays removed, and nothing is written or opened |
| Redirect.RecordedWrites | app/redirect.tsx:80-93 | when both writes succeed, lastRedirectedUrl is written before lastProcessedOdesliUrl and the link is opened after both; storage then holds both; a successful open schedules home, and a rejected one gives the "Error: " message |
| Redirect.ResolvedLinks | app/redirect.tsx:76-93 | with the removal and both writes succeeding and a link found: remove, request, write both keys in order, open; storage then holds both keys |
| Redirect.LinkOpened | app/redirect.tsx:76-93 | with a link, the calls are read, remove, request, then write of lastRedirectedUrl, then write of lastProcessedOdesliUrl, then open; storage then holds both; a successful open leaves status redirecting with navigation home scheduled, and a failed open gives the "Error: " message |
| Redirect.StorageFailureReported | app/redirect.tsx:76-104 | a throwing removal or write stops the flow at once, in the error state with "Error: " and the thrown message |
| Redirect.OnlyRedirectKeysChange | app/redirect.tsx:76-85 | handleRedirect changes no storage key other than lastRedirectedUrl and lastProcessedOdesliUrl |
| Redirect.RunAsWritten | app/redirect.tsx:21-35 | defines one run of the effect as written: `redirectToHome` starts the interval only when the status its closure captured is already error |
| Redirect.EarlyErrorCountsDownOnRerun | app/redirect.tsx:18-43 | as written, a missing or malformed url shows the error without a countdown, and the run that the status change triggers starts it |
| Redirect.LateErrorNeverCountsDown | app/redirect.tsx:18-112 | as written, an error raised after a new url is marked processed never starts the countdown: the run shows it without one, and the triggered re-run returns early and changes nothing |
| Redirect.ResolvedErrorsCountDown | app/redirect.tsx:73-104 | from the redirecting state, the resolving stage ends still redirecting or in the error state with the countdown running |
| Redirect.EveryErrorCountsDown | app/redirect.tsx:141-147 | in the model, every error state a run enters has the countdown home running, as the error screen's "Returning to home in n seconds" text promises |
| Redirect.RedirectScreen.constructor | app/redirect.tsx:12-16 | the screen starts loading, with no name, no message, no processed url and a countdown of 5 |
| Redirect.RedirectScreen.ShowError | app/redirect.tsx:38-43 | entering the error state sets the message and starts the countdown |
| Redirect.RedirectScreen.HandleRedirect | app/redirect.tsx:37-105 | the new screen state, storage, fault script and calls are exactly those of Redirected, and the counter is unchanged |
| Redirect.RedirectScreen.Process | app/redirect.tsx:59-74 | from the preference read on, the screen and storage change as Processed says |
| Redirect.RedirectScreen.Resolve | app/redirect.tsx:75-98 | from the removal of the last redirect target on, they change as Resolved says |
| Redirect.RedirectScreen.Open | app/redirect.tsx:80-93 | from the two writes and the open on, they change as Recorded says |
| Redirect.RedirectScreen.Tick | app/redirect.tsx:24-33 | one firing sets the counter to NextCount of the old counter; a counter of at most 1 clears the interval and navigates home, and a larger one does neither |
| Redirect.RedirectScreen.RunCountdown | app/redirect.tsx:24-33 | a running interval from a counter n >= 1 fires exactly n times, ends at 0 and navigates home once |
| Redirect.RedirectScreen.HomeDelayElapsed | app/redirect.tsx:90-93 | the delayed navigation after a successful open goes home once |

## Left out

- app/_layout.tsx: it only subscribes to deep-link events, queries the launch url and writes
  breadcrumbs. Its preference check only logs, so it has no decision logic to model.
- The network: `fetch` and `response.json()` are not modelled. Their decoded result is the input
  `ApiResponse`. The request url built with `encodeURIComponent` is recorded as the odesli url
  it encodes.
- `decodeURIComponent`: its result for the url is the input `Decoding`, either the decoded url or
  the message of the error thrown on a malformed escape.
- `Linking.openURL` and `router.replace`: each is recorded as a call. Whether the open rejects is
  the input `openFailure`.
- Timers: the 1000 ms interval and the 1500 ms delay have no clock here. `Tick` is one firing
  of the interval, and `HomeDelayElapsed` is the delay running out.
- React rendering and effect scheduling: JSX, styles, re-running the effect when its
  dependencies change, and clearing the interval on unmount.
- Redirect.RedirectScreen.ShowError: it starts the countdown on every entry into the error
  state, as the error screen's text promises. The source as written does not start it for the
  no-preference, no-link and thrown-error paths, which come after the url is marked processed.
  `RunAsWritten` and its two lemmas model that behaviour; see "## Findings".
- Concurrency: overlapping runs of the async `handleRedirect` are not modelled. Each call runs
  to completion before the next starts.
- MusicPlatforms.LinkFor: `linksByPlatform` is modelled as a map from key to a string url. A
  JavaScript object whose entry has no `url` field, a url that is not a string, and inherited
  prototype keys are not modelled. A body without `linksByPlatform` behaves like an empty map.
- Host.Device: a `Loses` fault drops a write or a removal but does not affect a read. A read
  never returns a stale value.
- Console logging, and the unused id extraction at utils/musicPlatforms.ts:55-56.

## Findings

| source | as written | input that shows it | evidently intended | confidence | as-written member | corrected member |
|---|---|---|---|---|---|---|
| app/redirect.tsx:21-35 | `redirectToHome` tests the `status` its effect run captured, which is still loading in the run that sets the error. The re-run that the change triggers returns at lines 50-52 for a url already marked processed, so the countdown never starts | a link opened with no preferred platform set: the screen shows the error and "Returning to home in 5 seconds" and stays there | every error starts the countdown home, as lines 22 and 141-147 say | medium, not executed | Redirect.LateErrorNeverCountsDown | Redirect.EveryErrorCountsDown |
