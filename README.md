# Golfitter client core in Dafny

Golfitter is a golf-swing web app. This project models the client-side logic that carries its state:

- the IndexedDB video store;
- the upload form and its validator;
- the score classifiers;
- the state machines of the analysis, comparison and player components;
- the saved-videos list and the upload page built on the store;
- the back-to-analysis navigation button.

Each source file is one Dafny module:

| module | source file | form |
|---|---|---|
| `VideoStorage` | lib/video-storage.ts | class `VideoStore` over a `map<string, StoredVideo>` plus an `isOpen` flag |
| `ObjectUrls` | the browser's object-URL registry | class `Registry` of live `blob:` handles |
| `VideoUpload` | components/video-upload.tsx | validator function plus class `UploadForm` |
| `ScoreUtils` | lib/utils/score-utils.ts | pure threshold functions |
| `SwingAnalysis` | components/swing-analysis.tsx | local classifiers plus class `SwingAnalysisScreen` with the progress loop |
| `SwingComparison` | components/swing-comparison.tsx | progress tick, view precedence, class `ComparisonScreen` |
| `MobileVideoPlayer` | components/mobile-video-player.tsx | `formatTime`, seeking, class `Player` over a modelled `<video>` element |
| `SavedVideosList` | components/saved-videos-list.tsx | newest-first sort, size display, class `VideoList` |
| `SwingUploadPage` | app/swing-upload/page.tsx | class `UploadPage` |
| `BackToAnalysisButton` | components/back-to-analysis-button.tsx | target function plus the click handler over a `Router` |

`Wrappers` (Option, Result) and `Text` (decimal rendering and parsing, `padStart`, `substr`) are shared helpers. `Navigation` models what the pages use of Next.js navigation: the query as `URLSearchParams` reads and writes it, and a `Router` that records every `router.push`.

Browser answers and other environment values are parameters:

- A `Backend` value says whether `indexedDB.open` fails and whether the request fails, each with an error message.
- A `SaveEnv` value carries `Date.now()`, the text of `Math.random().toString(36)` and the upload time.
- The user's answer to `confirm` is a boolean.

Asynchronous callbacks become discrete method calls in the order the source awaits them.

## Model

| member | source | states |
|---|---|---|
| `VideoStorage.VideoStore.constructor` | lib/video-storage.ts:21-22 | A new store holds no handle yet (`db` is null) and sees the records already persisted. |
| `VideoStorage.VideoStore.Init` | lib/video-storage.ts:24-32 | An open failure rejects with the open error and leaves the handle unset. A success sets it. |
| `VideoStorage.VideoStore.EnsureOpen` | lib/video-storage.ts:45 | The handle is set afterwards exactly when it was set before or the open succeeded. The operation may go on exactly when the handle is set. |
| `VideoStorage.VideoStore.SaveVideo` | lib/video-storage.ts:44-65 | Outcomes: an open failure rejects. A generated id already in the store rejects with the `add` constraint error and keeps the store. A request error rejects and keeps the store. Otherwise the call resolves with the generated id and the store gains exactly the new record. |
| `VideoStorage.SaveError` | lib/video-storage.ts:44-65 | `saveVideo` rejects exactly when opening fails, the generated id is already stored, or the request fails. The reason is the first of these in the order the source meets them. |
| `VideoStorage.MakeId` | lib/video-storage.ts:47 | The id `video_<Date.now()>_<random>`. `IdShape`, `IdTimestampRoundTrip` and `IdsFromDistinctClocksDiffer` pin it. |
| `VideoStorage.Lookup` | lib/video-storage.ts:73-75 | `store.get(id)` answered with `request.result` or `null`. `SaveThenGet` and `ListedRecordsAreFetchable` pin it. |
| `VideoStorage.VideoStore.GetVideo` | lib/video-storage.ts:67-78 | Resolves with the record under the id, or `None` (the source's `null`) when the key is absent. Open and request failures reject. |
| `VideoStorage.VideoStore.GetAllVideos` | lib/video-storage.ts:80-91 | On success the result lists every stored record exactly once, with each record equal to the one stored under its id. |
| `VideoStorage.VideoStore.DeleteVideo` | lib/video-storage.ts:93-104 | On success only that key is removed. A failure leaves the store unchanged. |
| `VideoStorage.VideoStore.ClearAll` | lib/video-storage.ts:106-117 | On success the store is empty. A failure leaves it unchanged. |
| `VideoStorage.VideoStore.GetVideoUrl` | lib/video-storage.ts:119-121 | Returns a fresh handle that was not live and now is, and that points at the record's data. |
| `VideoStorage.VideoStore.RevokeVideoUrl` | lib/video-storage.ts:123-125 | The handle is no longer live. Other handles are unchanged. |
| `VideoStorage.ListRecords` | lib/video-storage.ts:86-88 | The loop that collects `getAll`'s answer yields a listing of the store: length, ids, values and distinct ids. |
| `VideoStorage.SaveThenGet` | lib/video-storage.ts:47-62 | After an add under a fresh id, a lookup finds a record with that id and the file's name, type, size and data. |
| `VideoStorage.AddKeepsExisting` | lib/video-storage.ts:60-63 | `add` of a key already present fails, and the stored record is untouched. |
| `VideoStorage.Add` | lib/video-storage.ts:60 | The write succeeds exactly when the key is absent, and it adds exactly that key. |
| `VideoStorage.Remove` | lib/video-storage.ts:99 | The keys afterwards are the old keys minus the id. |
| `VideoStorage.RemoveOnlyThatKey` | lib/video-storage.ts:93-104 | Only that key is removed, and every other lookup is unchanged. An absent id leaves the store as it was. |
| `VideoStorage.RemoveIdempotent` | lib/video-storage.ts:99 | Deleting twice is the same as deleting once. |
| `VideoStorage.ListedRecordsAreFetchable` | lib/video-storage.ts:86-88 | Every listed record is what `getVideo` returns for its id. |
| `VideoStorage.EmptyStoreListsNothing` | lib/video-storage.ts:88 | An empty store lists as `[]`. |
| `VideoStorage.AddAllCompleteness` | lib/video-storage.ts:60-62 | Saving distinct fresh records one after another succeeds. It stores each one under its id and keeps every earlier record. |
| `VideoStorage.PartialListingStep` | lib/video-storage.ts:86-88 | Appending the record of one not-yet-listed key extends a partial listing. |
| `VideoStorage.IdShape` | lib/video-storage.ts:47 | With a non-empty base-36 fraction, an id matches `video_<digits>_<lowercase base-36>`. |
| `VideoStorage.ZeroRandomMissesPattern` | lib/video-storage.ts:47 | When `Math.random()` is 0 the id ends in `_` and misses that pattern. |
| `VideoStorage.IdTimestampRoundTrip` | lib/video-storage.ts:47 | The `Date.now()` value can be read back from the id. |
| `VideoStorage.IdsFromDistinctClocksDiffer` | lib/video-storage.ts:47 | Saves at different milliseconds get different ids. |
| `ObjectUrls.HandleNumber` | lib/video-storage.ts:119-125 | A handle number is recovered only from a string that renders back to it. |
| `ObjectUrls.HandleRoundTrip` | lib/video-storage.ts:119-121 | Every handle made from n reads back as n. |
| `ObjectUrls.Registry.Create` | lib/video-storage.ts:120 | The new handle was not live and now is. The live map gains exactly that entry. |
| `ObjectUrls.Registry.Revoke` | lib/video-storage.ts:124 | The handle is no longer live, and nothing else changes. Unknown handles are ignored. |
| `ObjectUrls.CreateThenRevoke` | lib/video-storage.ts:119-125 | Creating a handle and then revoking it restores the live map. |
| `Text.ParseRenderRoundTrip` | lib/video-storage.ts:47 | Parsing the decimal rendering of n gives n. |
| `Text.RenderingInjective` | lib/video-storage.ts:47 | Two naturals have the same rendering exactly when they are equal. |
| `Text.Substr` | lib/video-storage.ts:47 | `substr` with non-negative arguments: the slice from start, at most length long, empty past the end. |
| `Text.PadStart2` | components/mobile-video-player.tsx:73 | The string is left-padded with zeros to two characters, and longer strings are kept. |
| `VideoUpload.Validate` | components/video-upload.tsx:41-52 | The type check, then the size check. `ValidationCases` and `ValidationExamples` pin it. |
| `VideoUpload.UploadForm.constructor` | components/video-upload.tsx:21-24 | No file, not saving, no error, no preview. |
| `VideoUpload.ValidationCases` | components/video-upload.tsx:41-52 | Accepted exactly when the type is one of the three and the size is at most 100 MiB. A wrong type gets the format message whatever the size. An allowed type over the limit gets the size message. |
| `VideoUpload.ValidationExamples` | components/video-upload.tsx:48-52 | Exactly 100 MiB is accepted and one byte more is rejected. A text file fails on its type. |
| `VideoUpload.UploadForm.HandleFileSelect` | components/video-upload.tsx:36-65 | No file does nothing. A rejected file changes only the error. An accepted file clears the error and becomes the selection, the previous preview is revoked, and a new preview is created. |
| `VideoUpload.UploadForm.StartSave` | components/video-upload.tsx:67-71 | Without a selection nothing happens. Otherwise saving starts and the error is cleared. |
| `VideoUpload.UploadForm.FinishSave` | components/video-upload.tsx:73-95 | Success reports the id, clears the selection and revokes the preview. Failure shows the error's message and keeps the selection. Saving ends either way. |
| `VideoUpload.UploadForm.HandleSave` | components/video-upload.tsx:67-96 | Without a selection nothing changes. With one, the save succeeds exactly when the store opens, the generated id is fresh and the request goes through, and saving ends either way. Success stores the selected file under the new id, clears the form and revokes the preview. Failure keeps the store, the selection and the preview, and shows the message of the store's rejection. |
| `VideoUpload.UploadForm.HandleRemoveFile` | components/video-upload.tsx:27-34 | Selection, preview and error are cleared, and the old preview handle is revoked (the effect cleanup). |
| `ScoreUtils.GetScoreColor` | lib/utils/score-utils.ts:1-6 | The text colour by the 90/80/70 bands. `ColorsAgree` and `Monotone` pin it. |
| `ScoreUtils.GetScoreBadgeVariant` | lib/utils/score-utils.ts:8-14 | The badge by the 90/80 bands. `BadgeOfLevel` and `Monotone` pin it. |
| `ScoreUtils.GetScoreLevel` | lib/utils/score-utils.ts:16-21 | The level by the 90/80/70 bands. `LevelBands` and `Monotone` pin it. |
| `ScoreUtils.GetScoreLevelColor` | lib/utils/score-utils.ts:23-28 | The level colour by the same bands. `ColorsAgree` pins it. |
| `ScoreUtils.LevelBands` | lib/utils/score-utils.ts:16-21 | Levels by score: 優秀 from 90, 良好 in [80, 90), 普通 in [70, 80), 要改善 below 70. Each is an if-and-only-if. |
| `ScoreUtils.ColorsAgree` | lib/utils/score-utils.ts:1-6 | `getScoreColor` and `getScoreLevelColor` agree on every score, and the colour matches the level. |
| `ScoreUtils.BadgeOfLevel` | lib/utils/score-utils.ts:8-14 | Badge by level: `default` for 優秀, `secondary` for 良好, `destructive` for 普通 and 要改善. |
| `ScoreUtils.FairScoresGetDestructiveBadge` | lib/utils/score-utils.ts:8-21 | The 普通 band gets the destructive badge. |
| `ScoreUtils.Monotone` | lib/utils/score-utils.ts:1-28 | A higher score never gets a worse band from any of the four functions. |
| `SwingAnalysis.LocalBandsAgree` | components/swing-analysis.tsx:108-118 | The local badge bands are [80, ∞), [60, 80) and below 60. The local colour and the overall label follow the same bands. |
| `SwingAnalysis.BadgeDisagreement` | components/swing-analysis.tsx:114-118 | The local badge equals the shared one exactly for scores of 90 and above or below 60. In [80, 90) the local badge is `default` and the shared one `secondary`. |
| `SwingAnalysis.ExactlyOneMessage` | components/swing-analysis.tsx:191-193 | For every progress value exactly one status line is shown. |
| `SwingAnalysis.MockOverallClassification` | components/swing-analysis.tsx:73-74 | The mock score 78 is 良好 with a secondary badge locally, and 普通 with a destructive badge under the shared classifiers. |
| `SwingAnalysis.MockResult` | components/swing-analysis.tsx:73-102 | The mock result, with the professional's name in the tempo advice. `MockOverallClassification` pins its classification. |
| `SwingAnalysis.SwingAnalysisScreen.constructor` | components/swing-analysis.tsx:43-48 | The initial state. The professional's name defaults to 田中 太郎. |
| `SwingAnalysis.SwingAnalysisScreen.HandleVideoUpload` | components/swing-analysis.tsx:51-59 | A video file replaces the current one, gets a new handle and clears the result. Anything else is ignored. |
| `SwingAnalysis.SwingAnalysisScreen.SimulateAnalysis` | components/swing-analysis.tsx:61-106 | Progress is set to 0, 20, 40, 60, 80, 100 in order. Then the mock result is stored and analysing ends. |
| `SwingComparison.PresetDisplayNameCases` | components/swing-comparison.tsx:53 | The given preset name is shown when non-empty, and プロのスイング otherwise. |
| `SwingComparison.MockResultBadges` | lib/mocks/swing-analysis.ts:3-27 | The badges of the four mock category scores under the shared variant. |
| `SwingComparison.ProgressTick` | components/swing-comparison.tsx:81-87 | One run of the interval updater. `TicksFrom`, `ProgressFromZero` and `TickOvershootsOffTheGrid` pin it. |
| `SwingComparison.TicksFrom` | components/swing-comparison.tsx:80-88 | From a multiple of 10 in [0, 100], n ticks give min(p + 10n, 100). |
| `SwingComparison.ProgressFromZero` | components/swing-comparison.tsx:79-88 | From 0, progress is 10n up to 100, never exceeds 100, and stays at 100. |
| `SwingComparison.TickOvershootsOffTheGrid` | components/swing-comparison.tsx:82-86 | The cap needs the grid: from 95 one tick gives 105. |
| `SwingComparison.CurrentView` | components/swing-comparison.tsx:108-236 | The render's precedence as written. `DetailedButtonHasNoEffect` and `DetailedViewNeedsNoResult` pin it. |
| `SwingComparison.DetailedButtonHasNoEffect` | components/swing-comparison.tsx:136-236 | As written: from the result view, requesting the detailed view still shows the result. |
| `SwingComparison.DetailedViewNeedsNoResult` | components/swing-comparison.tsx:108-236 | As written: the detailed view shows exactly when there is no error, no result and a request. |
| `SwingComparison.IntendedView` | components/swing-comparison.tsx:136-236 | The corrected precedence, with the detailed view before the result. `IntendedDetailedShows` pins it. |
| `SwingComparison.IntendedDetailedShows` | components/swing-comparison.tsx:207-235 | Corrected precedence: the button opens the detailed view from the result view. |
| `SwingComparison.CanAnalyzeAndGuard` | components/swing-comparison.tsx:76-104 | An enabled button always passes the analyze guard. The guard passes with the button disabled exactly while loading. |
| `SwingComparison.AfterAnalysisComplete` | app/swing-comparison/page.tsx:19-23 | `handleAnalysisComplete`: the props after a report. `CompletionShowsResult` pins it. |
| `SwingComparison.CompletionShowsResult` | app/swing-comparison/page.tsx:19-23 | After a report the screen shows the result view whatever the detailed flag. Under the corrected precedence the result shows until the detailed view is requested. |
| `SwingComparison.PageFlow` | app/swing-comparison/page.tsx:10-32 | The page first shows the form, and after a report the result. |
| `SwingComparison.ComparisonScreen.constructor` | components/swing-comparison.tsx:39-45 | No files, empty URLs, progress 0, no display name, no detailed request, and no interval or timeout pending. |
| `SwingComparison.ComparisonScreen.ApplyPreset` | components/swing-comparison.tsx:50-55 | A truthy preset sets the second URL and the display name, so the second pane shows the preset. Otherwise nothing changes. |
| `SwingComparison.ComparisonScreen.HandleVideo1Upload` | components/swing-comparison.tsx:57-64 | A `video/` file becomes video 1 with a fresh handle. Anything else leaves the state unchanged. |
| `SwingComparison.ComparisonScreen.HandleVideo2Upload` | components/swing-comparison.tsx:66-73 | The same for video 2. |
| `SwingComparison.ComparisonScreen.HandleAnalyze` | components/swing-comparison.tsx:75-94 | Starts exactly when the guard holds. Then progress restarts at 0, the interval runs and one more completion timeout is pending. Otherwise nothing changes. |
| `SwingComparison.ComparisonScreen.Tick` | components/swing-comparison.tsx:80-88 | Runs only while the interval is scheduled. Progress becomes one tick of the old value. The interval stops once the old value is at least 100. |
| `SwingComparison.ComparisonScreen.CompleteAnalysis` | components/swing-comparison.tsx:91-93 | Fires only while a timeout is pending, and uses one up. It reports the mock result, and once the page stores it the screen shows the result view whatever the detailed flag. |
| `SwingComparison.ComparisonScreen.HandleRetry` | components/swing-comparison.tsx:96-102 | Both files, both URLs and the progress are reset, and the button is disabled afterwards. Pending callbacks stay pending. With a preset, the second pane no longer shows it. |
| `SwingComparison.ComparisonScreen.HandleRetryKeepingPreset` | components/swing-comparison.tsx:50-102 | The corrected retry: the same reset, with the preset back in the second pane. |
| `SwingComparison.ComparisonScreen.RequestDetailedAnalysis` | components/swing-comparison.tsx:207 | The request is recorded. The corrected precedence then shows the detailed view. The render as written does not while a result exists. |
| `SwingComparison.ComparisonScreen.CloseDetailedAnalysis` | components/swing-comparison.tsx:233 | The request is cleared. The view returns to the result, or to the form. |
| `MobileVideoPlayer.FormatTime` | components/mobile-video-player.tsx:70-74 | `formatTime`: minutes, a colon and the seconds padded to two digits. `FormatTimeShape`, `FormatTimeZero` and `FormatTimeExamples` pin it. |
| `MobileVideoPlayer.FormatTimeShape` | components/mobile-video-player.tsx:70-74 | Display shape: minutes, a colon and two digits between 00 and 59. Read back, it is the whole seconds of the time. |
| `MobileVideoPlayer.FormatTimeZero` | components/mobile-video-player.tsx:129 | Time 0 displays as "0:00". |
| `MobileVideoPlayer.FormatTimeExamples` | components/mobile-video-player.tsx:70-74 | 65.5 s displays as "1:05" and 59.99 s as "0:59". |
| `MobileVideoPlayer.SeekTarget` | components/mobile-video-player.tsx:64-67 | The clicked fraction of the duration. `SeekTargetBounds` pins it. |
| `MobileVideoPlayer.SeekTargetBounds` | components/mobile-video-player.tsx:64-67 | A click inside the bar seeks inside [0, duration], and to 0 while the duration is 0. |
| `MobileVideoPlayer.Player.constructor` | components/mobile-video-player.tsx:15-17 | Not playing, time 0, duration 0. |
| `MobileVideoPlayer.Player.OnPlay` | components/mobile-video-player.tsx:25 | The play event sets `isPlaying`. |
| `MobileVideoPlayer.Player.OnPause` | components/mobile-video-player.tsx:26 | The pause event clears `isPlaying`. |
| `MobileVideoPlayer.Player.OnTimeUpdate` | components/mobile-video-player.tsx:23 | The displayed time follows the element. |
| `MobileVideoPlayer.Player.OnLoadedMetadata` | components/mobile-video-player.tsx:24 | The displayed duration follows the element. |
| `MobileVideoPlayer.Player.MediaPlay` | components/mobile-video-player.tsx:48 | `video.play()`: the element plays and its 'play' event sets `isPlaying`. The times are kept. |
| `MobileVideoPlayer.Player.MediaPause` | components/mobile-video-player.tsx:46 | `video.pause()`: the element pauses and its 'pause' event clears `isPlaying`. The times are kept. |
| `MobileVideoPlayer.Player.TogglePlayPause` | components/mobile-video-player.tsx:41-50 | Flips `isPlaying` through the element's events, and keeps it equal to "not paused". |
| `MobileVideoPlayer.Player.Restart` | components/mobile-video-player.tsx:52-58 | The element is at 0 and playing. |
| `MobileVideoPlayer.Player.HandleProgressClick` | components/mobile-video-player.tsx:60-68 | Seeks to the clicked fraction of the duration, within [0, duration] for a click inside the bar. |
| `SavedVideosList.SortNewestFirst` | components/saved-videos-list.tsx:25-27 | The result is newest first and a permutation of the input. |
| `SavedVideosList.SortIsStable` | components/saved-videos-list.tsx:25-27 | Records with the same upload time keep their relative order. |
| `SavedVideosList.InsertKeepsOrder` | components/saved-videos-list.tsx:25-27 | Inserting into a newest-first list keeps it newest first. |
| `SavedVideosList.PermutedListing` | components/saved-videos-list.tsx:23-27 | Any reordering of a listing of the store is again a listing of the store. |
| `SavedVideosList.SortedListing` | components/saved-videos-list.tsx:23-27 | Sorting the store's listing gives a newest-first listing of the store. |
| `SavedVideosList.UnitIndexBounds` | components/saved-videos-list.tsx:56 | The unit index i satisfies 1024^i ≤ bytes < 1024^(i+1). |
| `SavedVideosList.UnitIndexUnique` | components/saved-videos-list.tsx:56 | i is the only index with that property. |
| `SavedVideosList.FileSizeUnit` | components/saved-videos-list.tsx:52-58 | Below 1024^4 the unit is Bytes/KB/MB/GB at the largest i with 1024^i ≤ bytes, and the value is in [1, 1024). Beyond that, the table has no entry. |
| `SavedVideosList.FormatFileSize` | components/saved-videos-list.tsx:52-58 | `formatFileSize`: 0 Bytes, or the size scaled to its unit. `FileSizeUnit` and `FileSizeZero` pin it. |
| `SavedVideosList.FileSizeZero` | components/saved-videos-list.tsx:53 | 0 bytes displays as "0 Bytes". |
| `SavedVideosList.ViewOf` | components/saved-videos-list.tsx:70-105 | Which of the three views the list renders. `ViewCases` pins it. |
| `SavedVideosList.ViewCases` | components/saved-videos-list.tsx:70-105 | Exactly one view applies: loading, empty, or the list with its count. |
| `SavedVideosList.AtMostOneHighlighted` | components/saved-videos-list.tsx:115 | In a listing, at most one row is highlighted, and it is the selected record. |
| `SavedVideosList.VideoList.constructor` | components/saved-videos-list.tsx:16-18 | No records, loading, with the given selected id. |
| `SavedVideosList.VideoList.LoadVideos` | components/saved-videos-list.tsx:20-33 | Loading ends either way. On success the list is the store's records newest first. On failure it is unchanged. |
| `SavedVideosList.VideoList.HandleDeleteVideo` | components/saved-videos-list.tsx:39-50 | Nothing happens without confirmation, and the store's handle is untouched. A failed delete changes no record and no list. After a confirmed delete the handle is open exactly when it was or the store opened. A successful delete removes the key and reloads, and then the id is no longer listed. |
| `SwingUploadPage.SizeInMegabytes` | app/swing-upload/page.tsx:58-60 | The size in MiB, before rounding. |
| `SwingUploadPage.UploadPage.constructor` | app/swing-upload/page.tsx:20-22 | No saved id, an empty list and no selection. |
| `SwingUploadPage.UploadPage.LoadSavedVideos` | app/swing-upload/page.tsx:29-36 | On success the list is the store's records newest first. On failure it is unchanged, and it is newest first in every state. |
| `SwingUploadPage.UploadPage.HandleUploadComplete` | app/swing-upload/page.tsx:24-40 | The id is recorded, and the list is reloaded exactly when the recorded id changed. |
| `SwingUploadPage.UploadPage.HandleVideoSelect` | app/swing-upload/page.tsx:42-44 | The clicked record becomes the selection. |
| `SwingUploadPage.UploadPage.HandleDeleteVideo` | app/swing-upload/page.tsx:46-56 | The store's handle is open afterwards exactly when it was or the store opened. A rejected delete changes neither the records, the list nor the selection. After a successful delete the list is reloaded, and the selection is cleared exactly when it was the deleted record. |
| `SwingUploadPage.UploadPage.AnalyzeTarget` | app/swing-upload/page.tsx:90-142 | The button exists exactly when the list is shown and a record is selected. For an id of the generated pattern, the analysis page reads the selected id back from its `videoId` parameter. |
| `SwingUploadPage.UploadPage.HandleAnalyzeClick` | app/swing-upload/page.tsx:134-138 | A click pushes exactly one route, the button's target. |
| `SwingUploadPage.PatternIdsArePlain` | lib/video-storage.ts:47 | A generated id holds neither `&` nor `=`, so it needs no escaping in a query. |
| `SwingUploadPage.AnalysisRoute` | app/swing-upload/page.tsx:137 | The route has the path `/analysis`, and its `videoId` parameter reads back as the id. |
| `SwingUploadPage.SavedVideoRoute` | app/swing-upload/page.tsx:137 | The analysis route of every saved video reads its own id back. |
| `Navigation.GetParam` | components/back-to-analysis-button.tsx:22 | `get` returns the value of the first pair with that key, and nothing exactly when no pair has it. |
| `Navigation.Serialize` | components/back-to-analysis-button.tsx:26-27 | `toString`: the pairs as `key=value` joined by `&`. `ParseSerialize` pins it. |
| `Navigation.ParseQuery` | components/back-to-analysis-button.tsx:26 | `new URLSearchParams(text)`: the segments split at `&` and then at the first `=`, with empty segments skipped. `ParseSerialize` pins it. |
| `Navigation.ParseSerialize` | components/back-to-analysis-button.tsx:26 | Parsing the text of a query whose keys and values hold no `&` or `=` gives the query back. |
| `Navigation.Router.Push` | components/back-to-analysis-button.tsx:28 | `router.push` appends the route to the log and changes nothing else. |
| `BackToAnalysisButton.BackTarget` | components/back-to-analysis-button.tsx:22-32 | The route a click leads to. `BackTargetCases` pins it. |
| `BackToAnalysisButton.BackTargetCases` | components/back-to-analysis-button.tsx:22-32 | The comparison page is the target exactly when `returnTo` is swing-comparison, followed by the whole current query. Every other value, including a missing one, targets `/?currentStep=results`. |
| `BackToAnalysisButton.HandleBackToAnalysis` | components/back-to-analysis-button.tsx:21-33 | One click pushes exactly one route, `BackTarget` of the current query. The log is otherwise unchanged. |
| `BackToAnalysisButton.ComparisonKeepsQuery` | components/back-to-analysis-button.tsx:24-28 | Back on the comparison page, path `/swing-comparison`, the query reads back as the one the button was clicked with, `returnTo` included. |
| `BackToAnalysisButton.MissingReturnToLeadsToResults` | components/back-to-analysis-button.tsx:29-32 | Without `returnTo`, the click leads to the path `/`, whose `currentStep` parameter reads `results`. |

## Left out

- IndexedDB mechanics are abstracted to a map: transactions, `onupgradeneeded`, the database version and the `uploadedAt` index (lib/video-storage.ts:24-42). The `DbName`, `DbVersion` and `StoreName` constants are kept for reference only.
- The optional `metadata` field of a stored record (lib/video-storage.ts:14-18) is never written by the core, so records omit it.
- `VideoStorage.VideoStore.GetAllVideos`: the contract does not fix the order of the records. IndexedDB returns them in key order. The mock in lib/video-storage.test.ts:226-229 returns them in insertion order. Callers in the model sort the list anyway.
- `VideoStorage.IdShape`: requires at least one base-36 digit after `0.`. `Math.random()` returning exactly 0 breaks the pattern (`ZeroRandomMissesPattern`).
- `Math.random()` text: only its lowercase base-36 alphabet is modelled. How JavaScript renders a float in base 36 is not.
- Promise, `setTimeout` and `setInterval` timing, and React effect scheduling. Each await or callback is a separate method call. The comparison screen's 2-second timeout and the analysis screen's 800 ms waits only fix the order of steps.
- `SwingComparison.ComparisonScreen.HandleAnalyze`: a second interval started while one is running is not modelled. `ticking` records only one, while `pendingCompletions` counts every scheduled completion timeout.
- Object URLs that the comparison and analysis upload handlers never revoke stay live. The model states this but does not flag it as an error.
- `fileInputRef.current.value = ''` (components/video-upload.tsx:88-90,102-104) clears a DOM input only, so it is omitted.
- `VideoUpload.UploadForm.FinishSave`: the fallback message 保存に失敗しました (components/video-upload.tsx:92) is omitted, because every rejection of the store carries an `Error` with a message.
- `SavedVideosList.FileSizeUnit`: states the value before `toFixed(2)`/`parseFloat`. Floating-point rounding of `Math.log(bytes) / Math.log(1024)` at exact powers is not modelled. The unit index is its integer intent.
- `SwingUploadPage.SizeInMegabytes`: states the value before `toFixed(2)`.
- Date formatting with `Intl`/`toLocaleString` (components/saved-videos-list.tsx:60-68; app/swing-upload/page.tsx:62-64).
- `MobileVideoPlayer.Player.MediaPlay`: assumes `video.play()` always starts playback and fires 'play'. The source neither awaits nor catches the promise (components/mobile-video-player.tsx:48, 57), so a rejected `play()` (autoplay policy, no source) is not modelled.
- `SwingUploadPage.UploadPage.HandleDeleteVideo`: the reload is not awaited in the source. The model lets it finish before the selection is cleared, and both updates land before the next render.
- `MobileVideoPlayer.FormatTime`: requires a non-negative finite time. NaN and Infinity durations are not modelled.
- `MobileVideoPlayer.Player.OnLoadedMetadata`: requires a non-negative finite time, for the same reason.
- The progress-bar width `currentTime / duration`, which is NaN at duration 0 (components/mobile-video-player.tsx:100).
- The case of a missing `<video>` element (`videoRef.current` null) is not modelled. Once mounted, the element exists.
- `Navigation.Serialize`: `URLSearchParams` percent-encoding is not modelled. The query is written as `key=value` pairs joined by `&`, which matches the source whenever keys and values need no escaping. `Navigation.ParseQuery` likewise does not decode `%xx` or `+`.
- `BackToAnalysisButton.HandleBackToAnalysis`: the copy `new URLSearchParams(searchParams.toString())` is taken to be the query itself. The browser's encoding makes this exact; without encoding, `Navigation.ParseSerialize` proves it for queries with no `&` or `=` inside keys and values.
- The arrow and text looks of the button (components/back-to-analysis-button.tsx:35-58) are rendering only. Both bind `handleBackToAnalysis`.
- `router.back()` on the upload page (app/swing-upload/page.tsx:72) and the comparison page's `handleBack` push (app/swing-comparison/page.tsx:14-17) are not modelled. Route changes themselves are only recorded in `Navigation.Router`.
- Rendering-only components are not modelled: detailed-swing-analysis.tsx and swing-analysis-graphs.tsx. Their inline labels repeat the 90/80/70 thresholds of `ScoreUtils`.
- app/videos/page.tsx is not modelled. Its cleanup reads the initial empty list, so it revokes nothing.
- Authentication (lib/supabase.ts, protected-route.tsx, app/auth) and the page shells (app/page.tsx, app/swing-analysis/page.tsx) are wiring only. Of app/swing-comparison/page.tsx only its initial props and `handleAnalysisComplete` are modelled.
- Stories, end-to-end tests, mocks and scripts/sync-claude-cursor.js are used only as evidence for the contracts.

## Findings

| source | as written | input that shows it | evidently intended | confidence | as-written member | corrected member |
|---|---|---|---|---|---|---|
| components/swing-comparison.tsx:136,207,229 | The `analysisResult` branch returns before `showDetailedAnalysis` is tested. The 動画1の詳細分析 button exists only inside that branch. | `analysisResult` present, `error` null, button pressed: the result view stays. | Pressing the button shows the detailed analysis, and closing it returns to the result. | not executed | `SwingComparison.DetailedButtonHasNoEffect` | `SwingComparison.IntendedDetailedShows` |
| components/swing-comparison.tsx:50-102 | `handleRetry` sets `video2Url` to `''` even with a preset. The preset effect runs only when `presetVideo2` or its name changes, so it does not run again. | A preset `presetVideo2`, then 再試行: the second pane shows the upload prompt instead of the preset, while analysis still proceeds with the preset. | Retrying keeps the preset in the second pane. | not executed | `SwingComparison.ComparisonScreen.HandleRetry` | `SwingComparison.ComparisonScreen.HandleRetryKeepingPreset` |
