# youtube-music-story, modelled in Dafny

youtube-music-story turns a topic into a "music documentary": a playlist that interleaves narration with songs. This project models the deterministic core of that system and proves properties about it:

- the server's in-memory job registry: creation with its two-live-jobs limit, progress merging, completion and failure, listener subscription, and the one-hour reaper;
- the YouTube matcher, in two copies: the service and the `/api/youtube-map-tracks` route. Each has an ISO 8601 duration parser (the `PT…H…M…S` designators of section 4.4.3.2 of ISO 8601:2004), a title normaliser, an additive score and a best-pick;
- the background run of the jobs router: its fixed sequence of stages and progress values, narration targets and TTS file names, and the `POST`/`GET` handlers;
- the playlist store;
- the deterministic mock of the chat-completion client;
- the browser player's local logic.

Modules follow the source files:

| module | file | source |
|---|---|---|
| `Wrappers` | `wrappers.dfy` | `Option` and `Result` for `null`/`undefined` and thrown errors |
| `Text` | `text.dfy` | the JavaScript string and number primitives the code uses |
| `Timeline` | `timeline.dfy` | timeline entries, truthiness, narration targets |
| `Sorting` | `sorting.dfy` | `Array.prototype.sort` with a comparator |
| `YouTubeMatch` | `youtube_match.dfy` | `src/services/youtubeMap.js` |
| `YouTubeRoute` | `youtube_route.dfy` | `src/routes/youtube.js` |
| `Jobs` | `job_manager.dfy` | `src/services/jobManager.js` (class `JobManager`) |
| `Storage` | `storage.dfy` | `src/services/storage.js` (class `PlaylistDir`) |
| `JobsRoute` | `jobs_route.dfy` | `runYouTubeDocJob` in `src/routes/jobs.js` |
| `JobsApi` | `jobs_api.dfy` | the HTTP handlers of `src/routes/jobs.js` |
| `OpenAiMock` | `openai_mock.dfy` | `src/services/openaiMock.js` |
| `Player` | `player.dfy` | the helpers of `public/player.js` (class `PlayerState`) |

Conventions:

- Scores and confidences are integer hundredths. The weights 0.6, 0.2, 0.15, 0.25 and 0.15 become 60, 20, 15, 25 and 15, capped at 100.
- The HTTP calls are oracle parameters, as are the generators, the speech synthesiser, `JSON.parse`, the clock and fresh ids. They are total functions or plain values that may stand for a failure.
- The three helpers of `src/routes/youtube.js:6-43` are textually the same as those of `src/services/youtubeMap.js:4-39`. They are therefore modelled once, by the `YouTubeMatch` members. `YouTubeRoute` models only what differs: the query, the error handling and the best-pick without fallback.
- Where the code changes state in place, the model does too. `Jobs.JobManager`, `Storage.PlaylistDir` and `Player.PlayerState` are classes whose methods update their fields. The loops are `while` loops. The TTS attach loop writes into an `array`. Each method's contract ties its new state to a pure function, and the lemmas are proved about that function.

Behaviour of the code worth noting:

- The matching service throws when a search or details call answers 403 with `quota` in its body, and so fails the whole mapping.
- The service has no confidence threshold and no alternates. It takes the first best-scoring candidate, and falls back to the first candidate when none scores above 0.
- `completeJob` and `failJob` do not stop later `updateProgress` calls from emitting.
- `savePlaylist` drops the `narrationAlbumArtUrl` passed by the run. The run's own `updatePlaylist` then adds it back.
- A topic made only of blanks passes the `POST /api/jobs` validation and is stored trimmed to `''`.

## Model

| member | source | states |
|---|---|---|
| Text.ToLower | src/services/youtubeMap.js:16 | `toLowerCase()` keeps the length, lowers each character and leaves no upper-case letter |
| Text.IndexOf | src/services/youtubeMap.js:29-32 | found exactly when `includes` holds, at the first position where the word occurs |
| Text.ReplaceFirst | public/player.js:476 | a string pattern replaces only its first occurrence, and nothing without one |
| Text.Trim | src/services/youtubeMap.js:21 | the trimmed text is an infix of the input that starts and ends with non-whitespace |
| Text.TrimIsInfix | src/services/youtubeMap.js:21 | what `trim()` removes is whitespace at either end |
| Text.TrimEmptyIffBlank | src/routes/jobs.js:84 | `trim()` is empty exactly when the text is all whitespace |
| Text.TrimOfUnpadded | src/services/openaiMock.js:7 | a text without leading or trailing whitespace is its own trim |
| Text.NatToString | src/services/openaiMock.js:31 | decimal digits without a leading zero; one digit exactly below 10 |
| Text.DigitsValueOfNatToString | src/services/youtubeMap.js:8-10 | `parseInt` of the decimal rendering gives the number back |
| Text.JsRem | public/player.js:1598 | for a non-negative dividend the JavaScript `%` agrees with the mathematical remainder |
| Text.PadStart2 | public/player.js:1599 | `padStart(2, '0')` pads with zeros on the left to length 2 and keeps the text at the end |
| Text.LexLeTotal | src/services/storage.js:50 | any two texts are comparable by code units |
| Text.LexLeTrans | src/services/storage.js:50 | the code-unit order is transitive |
| Text.LexLeAntisymmetric | src/services/storage.js:50 | texts ordered both ways are equal |
| Timeline.TargetIndices | src/routes/jobs.js:82-87 | the positions of the TTS targets, increasing, and all of them |
| Timeline.CollectTargets | src/routes/jobs.js:82-87 | the `for` loop collects exactly the targets, in order |
| Sorting.InsertSorted | src/services/storage.js:50 | inserting into an ordered list keeps it ordered |
| YouTubeMatch.ParseIsoDuration | src/services/youtubeMap.js:4-12 | no duration exactly for a missing or empty string or text without `PT` |
| YouTubeMatch.ParseFormatted | src/services/youtubeMap.js:4-12 | `PT<h>H<m>M<s>S` (zero parts omitted) parses back to `h*3600 + m*60 + s` |
| YouTubeMatch.ParseThreeMinutesFortyFive | src/services/youtubeMap.js:4-12 | `PT3M45S` parses to 225 seconds |
| YouTubeMatch.Component | src/services/youtubeMap.js:6-10 | one optional `(\d+)X` group never consumes more than the text it reads |
| YouTubeMatch.DigitRunEnd | src/services/youtubeMap.js:6 | the greedy `\d+` run ends at the first non-digit |
| YouTubeMatch.StripBracketsFrom | src/services/youtubeMap.js:17 | removing bracketed groups introduces no upper-case letter |
| YouTubeMatch.CloseFrom | src/services/youtubeMap.js:17 | the lazy `.*?` stops at the first closing bracket, and fails on a line terminator before it |
| YouTubeMatch.Dashes | src/services/youtubeMap.js:18 | every `-` and `_` becomes a space and nothing else changes |
| YouTubeMatch.NoiseLen | src/services/youtubeMap.js:19 | a noise word that matches lies inside the text |
| YouTubeMatch.StripNoiseFrom | src/services/youtubeMap.js:19 | removing noise words keeps the text free of upper case, `-` and `_` |
| YouTubeMatch.CollapseFrom | src/services/youtubeMap.js:20 | whitespace runs become one space, so no two whitespace characters are adjacent |
| YouTubeMatch.Normalize | src/services/youtubeMap.js:14-22 | definition of `normalize`: `null` read as `''`, lower-cased, then the bracket, dash, noise, whitespace and trim passes in source order; NormalizeShape and NormalizeEmpty state what it guarantees |
| YouTubeMatch.NormalizeShape | src/services/youtubeMap.js:14-22 | `normalize` output has no upper case, `-` or `_`, no whitespace at either end and no whitespace run |
| YouTubeMatch.NormalizeEmpty | src/services/youtubeMap.js:15 | a null or empty input normalises to `''` |
| YouTubeMatch.DurationPoints | src/services/youtubeMap.js:33-37 | 25 within 10 s, 15 within 20 s, 0 further away or when either duration is unknown |
| YouTubeMatch.Total | src/services/youtubeMap.js:25-38 | the capped sum lies in [0, 100] in steps of 5; 0 exactly when no test passed |
| YouTubeMatch.Score | src/services/youtubeMap.js:24-39 | `scoreCandidate` lies in [0, 1] (hundredths 0..100) |
| YouTubeMatch.ScoreWeights | src/services/youtubeMap.js:29-38 | a title hit gives at least 0.6, no title hit at most 0.6; title, artist and close duration give 1; the score is 0 exactly when every test fails |
| YouTubeMatch.EmptyTargetsScoreHigh | src/services/youtubeMap.js:29-32 | empty target title and artist make every containment test succeed, so the score is at least 0.95 |
| YouTubeMatch.Scores | src/services/youtubeMap.js:110-111 | one score per candidate, in order |
| YouTubeMatch.NoBestMeansNoPositive | src/services/youtubeMap.js:109-113 | when the loop keeps no candidate, none scored above 0 |
| YouTubeMatch.BestIndex | src/services/youtubeMap.js:109-113 | the strict `>` loop keeps the first candidate of maximal score, if that score is positive |
| YouTubeMatch.NoBestMeansFirst | src/services/youtubeMap.js:114-119 | with no positive score, the first candidate is maximal with score 0 |
| YouTubeMatch.PickBest | src/services/youtubeMap.js:109-113 | the loop's `best` and `bestScore` are the first maximal positive candidate and its score, or none and 0 |
| YouTubeMatch.ServiceChoice | src/services/youtubeMap.js:109-129 | no candidates give the null-video shape; otherwise a first candidate of maximal score with that score as confidence |
| YouTubeMatch.FallbackUsesFirstCandidate | src/services/youtubeMap.js:114-119 | if every candidate scores 0 the first one is used with confidence 0 |
| YouTubeMatch.TruthyIds | src/services/youtubeMap.js:80 | `.filter(Boolean)` keeps every truthy id and only those |
| YouTubeMatch.VideoIds | src/services/youtubeMap.js:80-81 | at most the first 6 truthy ids; empty exactly when no id is truthy |
| YouTubeMatch.Candidates | src/services/youtubeMap.js:101-107 | one candidate per video item, with its duration parsed |
| YouTubeMatch.RoundedSeconds | src/services/youtubeMap.js:51 | `Math.round(ms/1000)` is the nearest whole second |
| YouTubeMatch.ServiceQuery | src/services/youtubeMap.js:49-54 | definition of the search query: the quoted title when non-empty, the artist and the hint, trimmed; QueryLeadsWithQuotedTitle and EmptyQuery state its properties |
| YouTubeMatch.QueryLeadsWithQuotedTitle | src/services/youtubeMap.js:49-54 | a non-empty title opens the query, in double quotes |
| YouTubeMatch.EmptyQuery | src/services/youtubeMap.js:54 | no title, artist or hint gives the empty query |
| YouTubeMatch.ServiceRef | src/services/youtubeMap.js:66-130 | a quota 403 from either call fails the song; another failed search, or no ids, gives the null-video shape; a failed details call scores no candidates |
| YouTubeMatch.ServiceTimeline | src/services/youtubeMap.js:46-132 | succeeds exactly when every item maps; then it has the input's length and the k-th output is the k-th item's mapping |
| YouTubeMatch.ServiceTimelineStep | src/services/youtubeMap.js:47-131 | one more item extends the mapped prefix by that item's mapping, or fails |
| YouTubeMatch.ServiceTimelineShape | src/services/youtubeMap.js:46-132 | same length and order; non-songs unchanged; songs keep every field and gain `youtube` |
| YouTubeMatch.ServiceTimelineFails | src/services/youtubeMap.js:72-99 | the mapping fails exactly when some song's search or details call hit the quota |
| YouTubeMatch.MapSong | src/services/youtubeMap.js:49-130 | the loop body computes the song's reference as specified |
| YouTubeMatch.MapTimelineToYouTube | src/services/youtubeMap.js:41-133 | the missing key and non-array errors, in that order; then the mapped timeline or `YouTube quota exceeded` |
| YouTubeMatch.MapEntries | src/services/youtubeMap.js:46-132 | the loop returns the specified mapped timeline, stopping at the first quota error |
| YouTubeRoute.RouteQuery | src/routes/youtube.js:65-68 | definition of the route's query `${title} ${artist}` trimmed; RouteQueryJoins and RouteQueryEmpty state its properties |
| YouTubeRoute.RouteQueryJoins | src/routes/youtube.js:65-68 | a title and an artist with no outer whitespace are searched as `<title> <artist>` |
| YouTubeRoute.RouteQueryEmpty | src/routes/youtube.js:65-68 | no title and no artist give the empty query |
| YouTubeRoute.RouteChoice | src/routes/youtube.js:106-121 | all-zero scores give the null-video shape; otherwise a first candidate of maximal positive score |
| YouTubeRoute.RouteAgreesWithServiceOnPositive | src/routes/youtube.js:106-111 | when some candidate scores above 0 the route picks the same video as the service |
| YouTubeRoute.RouteHasNoFallback | src/routes/youtube.js:106-121 | with every score 0 the route has no match, while the service takes the first candidate |
| YouTubeRoute.RouteRef | src/routes/youtube.js:78-121 | any failed search, no ids, or a failed details call gives the null-video shape; the confidence lies in [0, 1] |
| YouTubeRoute.RouteRefChoice | src/routes/youtube.js:96-121 | with usable ids the reference is the best-pick among the returned details |
| YouTubeRoute.RoutePicked | src/routes/youtube.js:107-121 | the loop's best index and score give the route's best-pick |
| YouTubeRoute.RouteTimeline | src/routes/youtube.js:62-124 | definition of the route's output timeline, each song mapped by RouteRef and every other item kept; RouteTimelineStep and RouteTimelineShape state its properties, and MapTracks is proved equal to it |
| YouTubeRoute.RouteTimelineStep | src/routes/youtube.js:63-123 | one more item appends that item's mapping to the output |
| YouTubeRoute.RouteTimelineShape | src/routes/youtube.js:62-124 | same length and order; non-songs unchanged; songs keep every field and gain `youtube` with confidence in [0, 1] |
| YouTubeRoute.MapRouteSong | src/routes/youtube.js:65-122 | the loop body computes the song's route reference |
| YouTubeRoute.MapTracks | src/routes/youtube.js:53-124 | 500 without an API key, 400 when `timeline` is not an array, else 200 with the mapped timeline |
| Jobs.ActiveJobs | src/services/jobManager.js:28-31 | only pending or running jobs that exist; every existing active job of the ids is included |
| Jobs.ExistingJobs | src/services/jobManager.js:78-80 | exactly the existing jobs among the ids; missing ids are dropped |
| Jobs.GetJob | src/services/jobManager.js:69-71 | a job exactly for a known id, and that job |
| Jobs.AddId | src/services/jobManager.js:57-60 | adding to the user's set keeps its members and adds the id |
| Jobs.AfterCreate | src/services/jobManager.js:26-64 | refused with the limit message exactly when the user has 2 or more active jobs; otherwise a pending job at stage 0 and progress 0 with null result, error and completion time, filed under the id and the user, nothing else changed |
| Jobs.Merged | src/services/jobManager.js:91-94 | each supplied field overrides, the others are kept, and `updatedAt` is refreshed |
| Jobs.AfterProgress | src/services/jobManager.js:87-104 | unknown id: no change; otherwise the merged job and exactly one progress event with the merged fields and the update's `detail` |
| Jobs.AfterComplete | src/services/jobManager.js:117-133 | unknown id: no change; otherwise completed at 100 with result and completion time, and one `complete` event to the complete listeners |
| Jobs.ErrorText | src/services/jobManager.js:143 | `error.message` when truthy, else `String(error)` |
| Jobs.AfterFail | src/services/jobManager.js:138-158 | unknown id: no change; otherwise failed with the error text and completion time; an `error` event only when an error listener is attached |
| Jobs.RemoveLast | src/services/jobManager.js:172-176 | `off` removes one instance of a present listener and leaves the list alone otherwise |
| Jobs.RemoveLastUndoesAdd | src/services/jobManager.js:167-176 | removing a listener undoes its addition, whatever was added later |
| Jobs.AfterSubscribe | src/services/jobManager.js:163-170 | `null` for an unknown job; otherwise the three listeners appended to their lists |
| Jobs.AfterUnsubscribe | src/services/jobManager.js:172-176 | the returned function takes each of the three listeners off its list |
| Jobs.Without | src/services/jobManager.js:196 | deleting ids from a user's set keeps exactly the others |
| Jobs.AfterCleanup | src/services/jobManager.js:182-211 | exactly the jobs that are not finished over an hour ago remain, unchanged |
| Jobs.CountsPartition | src/services/jobManager.js:233-235 | the four status counts add up to the number of jobs counted |
| Jobs.StatsOf | src/services/jobManager.js:223-238 | definition of the `getStats` totals: the job count, one count per status and the user count; CountsPartition and StatsAddUp state how they relate |
| Jobs.StatsAddUp | src/services/jobManager.js:223-238 | `pending + running + completed + failed == total` |
| Jobs.WithoutWithout | src/services/jobManager.js:187-206 | deleting two batches in turn is deleting their union |
| Jobs.ReapedNothing | src/services/jobManager.js:182-211 | a cleanup that deletes nothing changes nothing |
| Jobs.DeleteJobStep | src/services/jobManager.js:193-204 | one loop pass on an expired job extends the deleted batch by that job |
| Jobs.UserEntryStep | src/services/jobManager.js:194-200 | the same step for one user's entry, including dropping an emptied entry |
| Jobs.DeleteJobUsers | src/services/jobManager.js:194-200 | one deletion touches only its owner's entry, dropped when it becomes empty |
| Jobs.JobManager.constructor | src/services/jobManager.js:11-18 | empty job table, user index and event log |
| Jobs.JobManager.CreateJob | src/services/jobManager.js:26-64 | result and new state are those of `AfterCreate` |
| Jobs.JobManager.GetJob | src/services/jobManager.js:69-71 | the job exactly for a known id |
| Jobs.UserJobs | src/services/jobManager.js:76-82 | definition of `getUserJobs` on the registry: the existing jobs of the user's ids, stably sorted newest first; UserJobsAreOwnJobsNewestFirst states what it lists |
| Jobs.JobManager.GetUserJobs | src/services/jobManager.js:76-82 | the user's existing jobs sorted newest first |
| Jobs.JobManager.UpdateProgress | src/services/jobManager.js:87-112 | the new state is `AfterProgress` |
| Jobs.JobManager.CompleteJob | src/services/jobManager.js:117-133 | the new state is `AfterComplete` |
| Jobs.JobManager.FailJob | src/services/jobManager.js:138-158 | the new state is `AfterFail` |
| Jobs.JobManager.Subscribe | src/services/jobManager.js:163-177 | result and new state are those of `AfterSubscribe` |
| Jobs.JobManager.Unsubscribe | src/services/jobManager.js:172-176 | the new state is `AfterUnsubscribe` |
| Jobs.JobManager.Cleanup | src/services/jobManager.js:182-211 | the loop leaves the state `AfterCleanup` |
| Jobs.JobManager.CleanupOne | src/services/jobManager.js:188-205 | the loop body deletes the visited job exactly when it expired |
| Jobs.JobManager.GetStats | src/services/jobManager.js:223-238 | the counted totals per status, the job count and the user count |
| Jobs.NewRegistryValid | src/services/jobManager.js:11-15 | the empty registry is consistent |
| Jobs.CreatePreservesValid | src/services/jobManager.js:37-60 | creating under a fresh id keeps every job filed under its id and owner, with non-empty duplicate-free user sets |
| Jobs.EditPreservesValid | src/services/jobManager.js:91-94 | replacing a job by one with the same id and owner keeps the registry consistent |
| Jobs.JobUpdatesPreserveValid | src/services/jobManager.js:87-177 | progress, completion, failure, subscribe and unsubscribe keep the registry consistent |
| Jobs.WithoutNoDup | src/services/jobManager.js:196 | deleting from a set without repeats leaves one without repeats |
| Jobs.ReapedValid | src/services/jobManager.js:187-206 | deleting any batch of jobs keeps the registry consistent |
| Jobs.ReapedJobFiled | src/services/jobManager.js:193-203 | a job that survives is still filed under its owner |
| Jobs.ReapedEntryNonEmpty | src/services/jobManager.js:197-199 | a user entry that survives is non-empty and duplicate-free |
| Jobs.FiledIsOwned | src/services/jobManager.js:56-60 | a consistent registry files under a user only that user's jobs |
| Jobs.ReapedEntryOwned | src/services/jobManager.js:194-203 | a surviving entry files only surviving jobs of its user |
| Jobs.CleanupPreservesValid | src/services/jobManager.js:182-211 | cleanup keeps the registry consistent |
| Jobs.ActiveStep | src/services/jobManager.js:29-31 | one more id grows the active list and the active id set together |
| Jobs.ActiveJobsCount | src/services/jobManager.js:29-31 | without repeated ids the active list is as long as the set of active ids |
| Jobs.ActiveCountIsUserActive | src/services/jobManager.js:28-33 | in a consistent registry the creation check counts exactly the user's pending and running jobs |
| Jobs.CreateAddsOneActive | src/services/jobManager.js:33-60 | a successful creation adds exactly the new job to the user's active jobs, so there are at most 2 |
| Jobs.ThirdConcurrentJobRefused | src/services/jobManager.js:33-35 | from no active jobs, two creations succeed and the third is refused without a change |
| Jobs.CreateStep | src/services/jobManager.js:33-60 | below the limit a creation succeeds and adds one active job |
| Jobs.FinishingFreesSlot | src/services/jobManager.js:121-142 | completing or failing a job removes it from its owner's active jobs |
| Jobs.CreatedNewestFirstIsTotalPreorder | src/services/jobManager.js:81 | the newest-first comparator is a total preorder |
| Jobs.UserJobsAreOwnJobsNewestFirst | src/services/jobManager.js:76-82 | `getUserJobs` lists exactly the user's jobs, each once, newest first |
| Jobs.UnsubscribeUndoesSubscribe | src/services/jobManager.js:163-177 | unsubscribing right after subscribing restores the registry |
| Jobs.SubscriberReceivesProgress | src/services/jobManager.js:97-167 | a subscriber gets the next progress event of its job |
| Sorting.Sort | src/services/storage.js:50 | `Array.prototype.sort` returns a permutation of its input of the same length |
| Sorting.SortSorted | src/services/jobManager.js:81 | under a comparator that is a total preorder the sorted array is ordered by it, and a permutation of the input |
| Storage.SavedRecord | src/services/storage.js:17-26 | only `id`, `ownerId`, `title`, `topic`, `summary`, `timeline`, `source` and `createdAt` are kept; `source` is `null` when falsy; every other input field is dropped |
| Storage.Merge | src/services/storage.js:60 | the partial's fields win, the current record's other fields are kept, and `updatedAt` is set |
| Storage.MergeIdempotent | src/services/storage.js:60 | applying the same partial twice at the same time is applying it once |
| Storage.NewestFirstIsTotalPreorder | src/services/storage.js:50 | the `createdAt` descending comparator, with `''` for a missing value, is a total preorder |
| Storage.OwnedRecords | src/services/storage.js:38-48 | only parsed `.json` records with that `ownerId`; every such record of the listing is included |
| Storage.PlaylistDir.constructor | src/services/storage.js:6-11 | an empty playlists directory |
| Storage.PlaylistDir.SavePlaylist | src/services/storage.js:17-26 | writes the saved record under `<id>.json` and changes no other file |
| Storage.PlaylistDir.GetPlaylist | src/services/storage.js:28-33 | the record exactly when the file exists and parses; an error otherwise |
| Storage.PlaylistDir.ListPlaylistsByOwner | src/services/storage.js:35-52 | the owner's parsed records from the listing, sorted newest first |
| Storage.PlaylistDir.UpdatePlaylist | src/services/storage.js:54-64 | `null` for a missing or empty file; a parse error for bad text; otherwise the merged record, also written back |
| Storage.ListedNewestFirst | src/services/storage.js:35-52 | the listing holds only the owner's records, all of them, with `createdAt` non-increasing |
| Storage.SavedIsListed | src/services/storage.js:17-52 | a saved playlist is listed under its owner once its file is in the listing |
| JobsRoute.NarrationProgress | src/routes/jobs.js:94-96 | `70 + Math.round(idx/n*25)` in exact arithmetic: the integer nearest to `70 + 25*idx/n`, halves rounded up; 95 when there are no targets (the floating-point product is listed under Left out) |
| JobsRoute.NarrationProgressBounds | src/routes/jobs.js:93-96 | for `0 <= idx < n` the value lies in [70, 95] |
| JobsRoute.NarrationProgressMonotone | src/routes/jobs.js:106-109 | the per-target value never goes down as `idx` grows |
| JobsRoute.Sanitize | src/routes/jobs.js:117 | the same length; kept characters stay, every character outside `[A-Za-z0-9_-]` becomes `-` |
| JobsRoute.SanitizeIdempotent | src/routes/jobs.js:117 | sanitising twice is sanitising once |
| JobsRoute.TtsFileName | src/routes/jobs.js:117-118 | `tts_` + the sanitised id + `_<idx>.mp3`, with only id characters and `.` |
| JobsRoute.SuccessTraceShape | src/routes/jobs.js:18-144 | a complete run sets `running` first, then stages 1, 2, 3 (once plus once per target), 4, 5 with progress 5, 30, 70, the per-target values, 96, 100; neither ever goes down |
| JobsRoute.SuccessTraceProgressStep | src/routes/jobs.js:93-133 | progress never goes down between any two updates of a complete run |
| JobsRoute.UpdatesEmitInOrder | src/routes/jobs.js:18-144 | each update emits one progress event, in order, with the stage, label and progress it set |
| JobsRoute.WithTtsUrls | src/routes/jobs.js:103-124 | attaching urls keeps the timeline's length and every item's text |
| JobsRoute.WithTtsUrlsEffect | src/routes/jobs.js:93-125 | the `i`-th target gains the `i`-th url and keeps its other fields; every other item is unchanged |
| JobsRoute.TtsAttachedToNarrationTargets | src/routes/jobs.js:82-124 | every narration item with non-blank text gets the url for its rank among them; all other items are untouched |
| JobsRoute.PlanArtUrl | src/routes/jobs.js:31-33 | when both plan and art came back, the art's `publicUrl` if truthy, otherwise its `dataUrl` |
| JobsRoute.FirstTtsFailure | src/routes/jobs.js:106-125 | the first target whose synthesis throws, or none if none does |
| JobsRoute.ApplyUpdatesAppend | src/routes/jobs.js:18-144 | applying two runs of updates in turn is applying their concatenation |
| JobsRoute.NarrateTargets | src/routes/jobs.js:91-126 | the loop sends one update per target reached; it stops at the first failing synthesis with its error, and otherwise every target has its url |
| JobsRoute.NarrateOne | src/routes/jobs.js:93-125 | one pass sends the target's update, then sets the placeholder or the `/tts/` url unless synthesis failed |
| JobsRoute.TrackStep | src/routes/jobs.js:97-115 | one more per-target update extends the applied prefix by one |
| JobsRoute.RunSpec | src/routes/jobs.js:15-153 | definition of a run as values: the progress updates it sends, how it ends, and the record it stores; RunEnds, RunUpdatesFollowTrace, FailedRunStopsBeforeFinalizing and CompletedRunRecord state its properties, and RunYouTubeDocJob is proved to follow it |
| JobsRoute.RunYouTubeDocJob | src/routes/jobs.js:15-153 | the registry and the store end as the run's specification lays out: its updates in order, then one `completeJob` or one `failJob` |
| JobsRoute.RunAfterGeneration | src/routes/jobs.js:53-149 | after generation the playlist is saved and the run continues from stage 3, leaving the stored record in the directory |
| JobsRoute.NarrateAndFinish | src/routes/jobs.js:71-152 | from stage 3 on: the narration stage, then failure with the first synthesis error or finalisation |
| JobsRoute.NarrationStage | src/routes/jobs.js:71-126 | the stage-3 update, the targets of the saved timeline and the narration loop |
| JobsRoute.NarratedFails | src/routes/jobs.js:122-152 | a failing synthesis ends the run with its error after that target's update |
| JobsRoute.NarratedCompletes | src/routes/jobs.js:128-149 | with no synthesis failure the run sends stage 4 and 5 and completes with the updated record |
| JobsRoute.Finalize | src/routes/jobs.js:128-149 | stage 4, the merge into the stored record, stage 5 and `completeJob` with the merged record |
| JobsRoute.NarratedUpdatesFollowTrace | src/routes/jobs.js:71-149 | from stage 3 on a run sends a non-empty prefix of the complete trace, all of it exactly when it completes |
| JobsRoute.TailTracePrefix | src/routes/jobs.js:71-115 | a prefix of the stage-3 trace is stage 3 itself and the first per-target updates |
| JobsRoute.RunUpdatesFollowTrace | src/routes/jobs.js:15-153 | every run sends a non-empty prefix of the complete run's updates, all of them exactly when it completes |
| JobsRoute.RunEnds | src/routes/jobs.js:15-153 | a run completes exactly when generation succeeded and no synthesis failed; otherwise it fails with the first error; the store is written exactly when generation succeeded; the result carries the playlist id |
| JobsRoute.MockedRunCompletes | src/routes/jobs.js:91-104 | with mocked synthesis a run completes whenever generation succeeds |
| JobsRoute.FailedRunStopsBeforeFinalizing | src/routes/jobs.js:128-152 | `completeJob` is reached only after the stage-5 update; a failed run never went past stage 3 |
| JobsRoute.SavedOfFields | src/routes/jobs.js:58-67 | the saved record has exactly the saved keys: fresh id, owner `anonymous`, source `youtube`, creation time, stitched title or `Music history: <topic>` |
| JobsRoute.NarratedRecord | src/routes/jobs.js:135-149 | the completed record is the saved one with the url-carrying timeline, the art url or `null`, and `updatedAt` |
| JobsRoute.CompletedRunRecord | src/routes/jobs.js:58-149 | the record `completeJob` gets: saved fields, both timestamps, the url-carrying timeline and the art url or `null`; no debug object |
| JobsRoute.RunSpecGenerated | src/routes/jobs.js:18-56 | a run that passed generation is the two generation updates followed by the stage-3 run |
| JobsRoute.KeptFields | src/routes/jobs.js:135-138 | merging the final patch keeps the saved id, owner, source, creation time and title |
| JobsRoute.EndLeavesJob | src/routes/jobs.js:140-152 | after the updates the job ends completed with the result and one `complete` event, or failed with the error's text |
| JobsRoute.RunLeavesJob | src/routes/jobs.js:15-153 | after a run the job has emitted one progress event per update and ends completed at stage 5 and 100, or failed with the error's text |
| JobsApi.TopicOf | src/routes/jobs.js:166-169 | a topic exactly when the body's `topic` is a non-empty string |
| JobsApi.PromptOf | src/routes/jobs.js:173 | a prompt exactly when the body's `prompt` is a string |
| JobsApi.PostJob | src/routes/jobs.js:160-190 | 500 without an OpenAI key and 400 without a string topic, both changing nothing; a refused creation gives 500 with the limit message as details; otherwise the job is created with the trimmed topic, marked running at stage 0 `Queued` with progress 0, and its id is returned |
| JobsApi.PostedJobIsQueued | src/routes/jobs.js:171-182 | an accepted job is stored running at stage 0 `Queued`, progress 0, with the trimmed topic and no result, error or completion time; other jobs are kept |
| JobsApi.BlankTopicIsAccepted | src/routes/jobs.js:167-172 | a topic of blanks passes validation and becomes `''` |
| JobsApi.GetJobStatus | src/routes/jobs.js:252-272 | 404 for an unknown job; otherwise its id, status, stage, label, progress, result, error and timestamps |
| JobsApi.ListJobs | src/routes/jobs.js:278-295 | the anonymous user's jobs, newest first, as summaries |
| JobsApi.PostedJobIsListed | src/routes/jobs.js:171-280 | an accepted job is at once in the anonymous user's listing |
| JobsApi.OpenStream | src/routes/jobs.js:196-239 | 404 for an unknown job; otherwise an `init` frame with its current status, stage, label and progress, and the client's three listeners subscribed |
| JobsApi.ClientFramesOfProgress | src/routes/jobs.js:226-228 | each progress event the client hears becomes one frame, in order, without ending the stream |
| JobsApi.UpdatesReachListeners | src/services/jobManager.js:97-104 | progress updates keep the job's listeners and each event reaches them |
| JobsApi.SubscribedClientHearsRun | src/routes/jobs.js:223-239 | a subscribed client gets one progress frame per update, then the `complete` or `error` frame that ends the stream |
| OpenAiMock.LineEnd | src/services/openaiMock.js:6 | the end of the line `.+` may run over: no line terminator before it, and one at it unless the text ends |
| OpenAiMock.LastNonTerminator | src/services/openaiMock.js:6 | the last position in a range that is not a line terminator, or none when every position in it is one (the backtracking of `\s*`) |
| OpenAiMock.Capture | src/services/openaiMock.js:6 | the group of `/Topic:\s*(.+)/i` exists only when the lowered text contains `topic:`, and is non-empty and free of line terminators |
| OpenAiMock.ExtractTopic | src/services/openaiMock.js:3-11 | `Test Topic` when no user text message matches; otherwise the trimmed capture of the first one that does |
| OpenAiMock.CaptureOfPrompt | src/services/openaiMock.js:6 | on `Topic: <t>` followed by a newline, the capture is exactly `t` when `t` starts with a non-blank and holds no line terminator |
| OpenAiMock.TopicLabelFirst | src/services/openaiMock.js:6 | the case-insensitive search finds a leading `Topic:` at position 0 |
| OpenAiMock.LineEndAfter | src/services/openaiMock.js:6 | a line holding `t` and then a line terminator ends right after `t` |
| OpenAiMock.TopicRoundTrip | src/services/openaiMock.js:3-11 | a trimmed one-line topic written as `Topic: <t>` in a user message is extracted unchanged, whatever comes on later lines |
| OpenAiMock.BlankTopic | src/services/openaiMock.js:6-7 | `Topic:` followed only by blanks matches (by backtracking) and yields the empty topic, not the default |
| OpenAiMock.Brackets | src/services/openaiMock.js:15 | every match of `/\[[\s\S]*?\]/g` starts with `[`, ends with `]` and has no `]` before its end |
| OpenAiMock.BracketPiece | src/services/openaiMock.js:15 | the text from a `[` to the first `]` after it is one lazy match |
| OpenAiMock.FirstArray | src/services/openaiMock.js:17-25 | none exactly when no match parses as an array; otherwise the array of the first match that does, earlier ones being skipped |
| OpenAiMock.ExtractFirstJsonArray | src/services/openaiMock.js:13-26 | `null` for a missing or empty text; otherwise `null` exactly when no bracketed match parses as an array, and the result is the parse of one of the matches |
| OpenAiMock.FirstBracketed | src/services/openaiMock.js:15 | the first match is `[body]` when no `[` precedes it and no `]` is inside, whatever follows |
| OpenAiMock.BuildPlan | src/services/openaiMock.js:28-53 | the topic is the given one or `Test Topic` when missing or empty; title and summary are derived from it; five slots, each without alternates and with the artist `<topic> Artist` |
| OpenAiMock.PlanSlotsAndYears | src/services/openaiMock.js:30-44 | the slot ids are `slot-1` … `slot-5` and the years `2010` … `2014` |
| OpenAiMock.DefaultSlots | src/services/openaiMock.js:56-59 | there are five default slots |
| OpenAiMock.SegmentOf | src/services/openaiMock.js:59-63 | definition of one song segment: the slot id kept as it is, the title `<title, label or Chapter> narration` and the text using title, label or id, each rendered as the template literal renders it; DefaultSlotSegment and NullSlotIdNarrated state instances |
| OpenAiMock.NullSlotIdNarrated | src/services/openaiMock.js:59-62 | a slot whose `slot_id` is `null` keeps the `null` id and is narrated as `Narration for null.` |
| OpenAiMock.BuildNarration | src/services/openaiMock.js:55-70 | throws exactly when a slot is `null`; otherwise fixed intro and outro and one segment per slot (five defaults for none), with the slots' ids in order |
| OpenAiMock.DefaultNarration | src/services/openaiMock.js:56-63 | with no slots the first and last segments are `Slot 1 narration` / `Narration for Slot 1.` and `Slot 5 narration` / `Narration for Slot 5.`, five in all |
| OpenAiMock.DefaultSlotSegment | src/services/openaiMock.js:56-63 | the segment of default slot k is titled and worded after `Slot k+1` |
| OpenAiMock.NarrationOfPlan | src/services/openaiMock.js:28-70 | narrating the plan's own slots (which have no `title`) gives each segment the slot's id and a title and text built from its chapter label |
| OpenAiMock.FormatName | src/services/openaiMock.js:74-76 | a name found is non-empty, and `response_format.name` wins when it is set |
| OpenAiMock.FirstUserText | src/services/openaiMock.js:83 | none exactly when no message is a user message with string content; otherwise the content of the first one |
| OpenAiMock.ParseCompletion | src/services/openaiMock.js:72-89 | definition of the mock's answer from the format name; Dispatch, PlanForPrompt and NarrationWithoutSlots state its properties |
| OpenAiMock.Dispatch | src/services/openaiMock.js:72-89 | `music_story_plan` gets the plan for the extracted topic, `music_story_narration` a narration or the `null`-slot error, anything else `{ ok: true }`; only a narration request can fail |
| OpenAiMock.PlanForPrompt | src/services/openaiMock.js:72-80 | a plan request carrying the client's `Topic:` prompt gets the plan for exactly that topic |
| OpenAiMock.NarrationWithoutSlots | src/services/openaiMock.js:82-86 | a narration request without a user text message gets the five default segments |
| Player.TwoDigits | public/player.js:1599 | two decimal digits spelling a number of seconds below 60 |
| Player.PadSeconds | public/player.js:1599 | `padStart(2, '0')` of the decimal seconds gives those two digits |
| Player.FormatTime | public/player.js:1595-1600 | definition of `formatTime` with floor division and the truncating `%`; FormatTimeShape, ClockRoundTrip and FormatNegative state its properties |
| Player.FormatTimeShape | public/player.js:1595-1600 | a non-negative time renders as its whole minutes, a colon and two digits of the remaining seconds |
| Player.ClockRoundTrip | public/player.js:1595-1600 | reading the rendered `m:ss` back gives the time in whole seconds, `floor(ms / 1000)` |
| Player.ParseClockOf | public/player.js:1599 | digits, a colon and two digits below 60 read back as minutes times 60 plus seconds |
| Player.ColonAfterDigits | public/player.js:1599 | the first colon of `<digits>:<ss>` is the one after the minutes |
| Player.FormatThreeFortyFive | public/player.js:1595-1600 | 225000 ms renders as `3:45` |
| Player.FormatNegative | public/player.js:1596-1599 | -1 ms renders as `-1:-1`: floor gives -1 seconds and the truncating remainder keeps the sign |
| Player.RedirectUri | public/player.js:473-478 | always ends in `/callback`; an origin without `localhost` is kept; otherwise only the first `localhost` becomes `127.0.0.1` |
| Player.RedirectOfLocalhost | public/player.js:473-478 | `http://localhost:3000` gives `http://127.0.0.1:3000/callback` |
| Player.LocalhostReplaced | public/player.js:476 | replacing the first `localhost` of `http://localhost:3000` gives `http://127.0.0.1:3000` |
| Player.NextIndex | public/player.js:1497-1500 | `NaN` (none) exactly for an empty playlist; inside the playlist the next index, wrapping from the last to 0 |
| Player.PreviousIndex | public/player.js:1503-1506 | `NaN` (none) exactly for an empty playlist; inside the playlist the previous index, wrapping from 0 to the last |
| Player.StepsInverse | public/player.js:1497-1506 | inside a playlist both steps stay in it and each undoes the other |
| Player.NullIfEmpty | public/player.js:391 | the `or null` fallback keeps exactly the truthy strings |
| Player.TimelineTrack | public/player.js:722-768 | an entry yields an item exactly when it is a song, or a narration with a truthy audio url |
| Player.TrackSources | public/player.js:722-768 | the positions of the entries that yield items, increasing, and all of them |
| Player.TimelineTracks | public/player.js:719-769 | definition of the timeline playlist, entry by entry, numbering narrations by all earlier ones; TimelineTracksAt states it position by position, and BuildTimelinePlaylist is proved equal to it |
| Player.TimelineTracksAt | public/player.js:719-769 | the k-th playlist item is the item of the k-th kept entry, numbered by the narrations before it: timeline order and nothing else |
| Player.SilentNarrationSkipped | public/player.js:724-730 | a narration without audio adds no item but still advances the narration counter |
| Player.SecondNarrationNumbered | public/player.js:721-741 | after a narration without audio, a narration with audio is the only item and has id `narration-1` |
| Player.BuildTimelinePlaylist | public/player.js:719-769 | the `forEach` builds exactly the timeline playlist |
| Player.LegacyTrack | public/player.js:772-807 | a narration item yields an `mp3` item `narration-<index>` exactly when its segment exists and has audio; a song item yields the Spotify item of its track exactly when the track exists; any other kind yields nothing |
| Player.LegacyTracks | public/player.js:770-808 | throws exactly when a structure item is `null`; otherwise at most one item per structure item |
| Player.LegacySkip | public/player.js:775-794 | an item whose lookup finds nothing adds nothing |
| Player.BuildLegacyPlaylist | public/player.js:770-808 | the `forEach` builds exactly the legacy playlist, or throws on a `null` item |
| Player.NullItemThrows | public/player.js:773 | a `null` structure item makes the whole legacy build throw |
| Player.Built | public/player.js:713-813 | a timeline document gives its timeline playlist; no document throws; a legacy playlist needs `structure`, `tracks` and `narration_segments` |
| Player.SpotifyPositions | public/player.js:77-79 | the positions of the `spotify` items, increasing |
| Player.RankOfPosition | public/player.js:77-79 | the k-th `spotify` item has exactly k `spotify` items before it |
| Player.PositionOfRank | public/player.js:77-79 | a `spotify` item is found among the positions at its rank |
| Player.MappingRequest | public/player.js:82-87 | one song per `spotify` item, in order, with its name, artist and duration |
| Player.MappedAt | public/player.js:103-104 | the k-th result's video exactly when that result exists and has a truthy `videoId` |
| Player.Merged | public/player.js:101-115 | the merged playlist has the playlist's length |
| Player.MergeByRank | public/player.js:101-115 | the k-th `spotify` item becomes a `youtube` item with the k-th result's video when it has one; every other item is unchanged |
| Player.MergeStep | public/player.js:102-114 | one iteration of the merge loop extends its invariant to the next `spotify` item |
| Player.MergeDone | public/player.js:101-115 | at the end of the loop the playlist is the merged one |
| Player.DocMergeAsWritten | public/player.js:118-129 | the document update as written keeps the timeline's length, ranking every song |
| Player.DocMerge | public/player.js:118-129 | the corrected document update keeps the timeline's length, ranking only songs without a video |
| Player.DocMergeMisaligned | public/player.js:77-129 | with `[A mapped to a, B unmapped]` and result `[b]` the playlist gives `b` to B, while the document as written gives `b` to A and leaves B without a video |
| Player.SpotifyCountIsUnmapped | public/player.js:742-767 | the playlist has one `spotify` item per timeline song without a video |
| Player.DocMergePrefix | public/player.js:121-129 | the merged document's first n entries are the merge of its first n entries |
| Player.MergedPrefix | public/player.js:101-115 | appending items does not change how the earlier ones are merged |
| Player.DocMergeAgrees | public/player.js:101-129 | with the corrected update, the playlist rebuilt from the merged document has item by item the kinds and videos of the merged playlist |
| Player.LastShape | public/player.js:101-129 | the step of the agreement for the last timeline entry |
| Player.TargetRank | public/player.js:349-362 | the k-th narration target has exactly k targets before it |
| Player.TargetOfRank | public/player.js:349-362 | a target is found among the targets at its rank |
| Player.SpokenTexts | public/player.js:349-363 | one trimmed text per target, in order |
| Player.SpokenTextsNotEmpty | public/player.js:351-358 | no text sent for synthesis is empty |
| Player.UrlAt | public/player.js:391 | the k-th url exactly when it exists and is truthy |
| Player.WithUrls | public/player.js:389-395 | attaching urls keeps the list's length |
| Player.WithUrlsByRank | public/player.js:389-395 | the k-th target gets `tts_url` set to the k-th url exactly when that url is truthy |
| Player.WithUrlsKeepsOthers | public/player.js:389-395 | entries that are not targets are unchanged |
| Player.AttachedNarrationPlays | public/player.js:389-395 | a timeline narration that received a url becomes a playlist item playing that url |
| Player.AttachTtsUrls | public/player.js:349-395 | the texts sent are the trimmed target texts; the list is left as it was when there are no targets or the batch fails, and otherwise has the urls attached by rank |
| Player.SetUrl | public/player.js:392-394 | `target.tts_url = url` changes that entry only, and only when the url is truthy |
| Player.AttachStep | public/player.js:390-395 | one iteration of the attach loop extends its invariant to the next target |
| Player.AttachStepAt | public/player.js:390-395 | the same, entry by entry |
| Player.AttachDone | public/player.js:389-395 | at the end of the loop every target has its url |
| Player.GenerateTtsForDoc | public/player.js:344-405 | uses the timeline's narrations when there is a timeline, else the legacy segments; no document or neither list returns it unchanged with nothing sent |
| Player.PlayerState.constructor | public/player.js:408-443 | an empty playlist, index 0, no track, the Spotify flag set, nothing started, no document |
| Player.PlayerState.BuildPlaylistFromDoc | public/player.js:713-851 | keeps the document; a non-empty playlist replaces the old one and selects its first item, not yet started; a throw or an empty playlist changes nothing else |
| Player.PlayerState.PlayTrack | public/player.js:1222-1230 | an index inside the playlist selects and starts that item with the Spotify flag following it; any other index changes nothing |
| Player.PlayerState.PlayNext | public/player.js:1497-1500 | selects and starts the next item, wrapping to the first |
| Player.PlayerState.PlayPrevious | public/player.js:1503-1506 | selects and starts the previous item, wrapping to the last |
| Player.PlayerState.MapYouTubeForCurrentPlaylist | public/player.js:75-129 | with no `spotify` item or a failed request nothing changes; otherwise the playlist is the merged one and a timeline document gets the corrected update; the selection is kept |

## Left out

- File-system errors, `mkdir`, and the TTS file write. The playlists directory is a map from file name to file text, and the listing order is a parameter.
- `setInterval` and `setImmediate` scheduling, the clock, and `generateJobId`/`genId`. Times and fresh ids are parameters, and the reaper is the `cleanup` call itself.
- The job manager's `shutdown`, and the server bootstrap and configuration. They hold no modelled logic.
- The `/api/youtube-config` route, and the catch-all handlers that turn any unexpected exception into a 500 (for example `src/routes/youtube.js:125-128`). The modelled error paths are the ones the code raises itself.
- JobsRoute.NarrationProgress: rounds the exact value `25*idx/n`. The source rounds the floating-point product `(idx / n) * 25`, which can fall just below an exact half: `idx = 29, n = 50` gives 14.499999999999998, so the source reports 84 where the model gives 85. Away from exact halves the rounding error is far too small to change the result. The bounds and the monotonicity proved about it hold for both.
- Concurrency. Each asynchronous operation is modelled as running alone, with nothing interleaved at its `await`s:
  - `Player.PlayerState.MapYouTubeForCurrentPlaylist` reads the songs, then awaits the request and its JSON, and only then writes `state.playlist`. A `buildPlaylistFromDoc` that runs in between has its new playlist overwritten with results for the old one. The model applies the response to the unchanged playlist.
  - `JobsRoute.RunYouTubeDocJob` awaits between its updates. Its end-state contract assumes that no other request and no cleanup touches the registry or the playlists directory during the run.
  - The handlers of `src/routes/jobs.js` and `src/routes/youtube.js` are each modelled as one call that finishes before the next begins.
- Floating-point arithmetic. Scores are exact hundredths. Every sum the scorer can form, added in its order (title, artist, channel, duration) and capped at 1, is a double that orders and rounds like those hundredths (0.9500000000000001 for 95), so the strict `>` and the two-decimal rounding pick and report the same candidate.
- Text encodings and locales:
  - `toLowerCase` folds ASCII letters only;
  - `localeCompare` is taken as code-unit order, which it is for the ISO timestamps compared;
  - strings are sequences of characters, with no UTF-16 surrogates.
- `parseInt` of digit runs too long for a double, which loses precision in JavaScript.
- Fields of unexpected JavaScript types, beyond the missing, `null` and string cases the code tests for.
- `createdAt` of a job is an integer number of milliseconds.
- `JSON.parse` and the deep copy of the timeline are abstracted: a parameter classifies text, and a copy is the same value.
- `stitchTimeline`, `generateMusicPlan`, `generateNarrationScript` and `mapTrackSlotsToYouTube` are not defined in the files of this model. The run treats each as one oracle outcome, a value or a failure.
- The server-sent-events transport. The stream is the sequence of frames the handler writes, with no model of a client disconnecting.
- The DOM, the Spotify and YouTube players, media session, volume and progress bars, and `localStorage`. Only the player's state fields and the helpers listed in the table are modelled.
- The built-in narration artwork. `DEFAULT_ALBUM_ART` is the value `NarrationArt`.
- Player.PlayerState.PlayNext: on an empty playlist the source computes a `NaN` index, stores it, and throws while reading the missing track. The model keeps the index and leaves no track selected.
- Player.PlayerState.PlayPrevious: the same for an empty playlist.
- Player.PlayerState.MapYouTubeForCurrentPlaylist:
  - it takes the mapping response as a value: `None` stands for a failed request;
  - it does not model the `PATCH` of the playlist or `updateYouTubeLinkForTrack`;
  - it updates the document with the corrected `DocMerge` (see Findings).
- Player.PlayerState.BuildPlaylistFromDoc: in YouTube mode the source also starts `mapYouTubeForCurrentPlaylist`, which is modelled as its own method; the UI updates are not modelled.
- JobsRoute: the fallback of `updatePlaylist` returning `null` (`src/routes/jobs.js:148`) cannot happen right after the save and is not modelled separately. `narrationTargetSecs` is passed through as an integer.

## Findings

| source | as written | input that shows it | evidently intended | confidence | as-written member | corrected member |
|---|---|---|---|---|---|---|
| public/player.js:118-129 | the mapped results are given to the timeline's songs by their rank among all songs, while the request held only the songs without a video | timeline `[song A with video a, song B without video]`, mapped `[B with video b]`: the playlist gives `b` to B, the document gives `b` to A and leaves B without a video | rank only the songs without a video, as the playlist merge does, so that the saved document and the playlist agree | not executed | Player.DocMergeAsWritten, Player.DocMergeMisaligned | Player.DocMerge, Player.DocMergeAgrees |
