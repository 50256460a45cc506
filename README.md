# cut-video.js, modelled in Dafny

The program is a small Express server with three POST routes:
- `/cut-video` fetches a YouTube video and trims a clip out of it.
- `/create-portrait-video` fetches the video, trims a clip and stacks it over a fixed secondary video in portrait layout.
- `/add-text-video` fetches the video, transcribes its audio with whisper and burns the captions into the video.

Every route does the same work in the same order:
1. It checks the request body.
2. It cuts a video id out of the URL.
3. It names its per-job files after that id.
4. It runs yt-dlp and ffmpeg one command at a time, pushing lines onto a `logs` array.
5. It leaves its try block at the first thrown error and answers 500 with the log.
6. Otherwise it sends the output file, with the log in a header, and unlinks the route's cleanup files in the download callback (for /cut-video and the portrait route, the sent output too; for /cut-video, also its download).

The model covers that core:

- `JsValues`: a body field as a JavaScript value. It covers truthiness (`!x`) and template interpolation (`${x}`) of integers, with the decimal text proved exact.
- `VideoId`:
  - `url.split('v=')[1]?.split('&')[0]`, written over `seq<char>`;
  - request admission. A body leads to one of four outcomes: 400 missing parameters, no reply at all, 400 invalid URL, or admitted with `(url, id)`.
- `Artifacts`: per-job file paths, one fixed suffix per kind in the downloads or outputs folder, kept as unresolved (folder, name) values. Distinct (id, kind) pairs give distinct path values.
- `Captions`: the drawtext filter builder. It covers the `'` → `\'` escaping, one clause per segment, and the `,`-join.
- `Commands`: the spawned commands as structured values, with the exact command line each route's template string builds.
- `StageLog`: how one command's result is folded into the log. It covers `execWithLogs` and the inline promise of `/cut-video`.
- `Messages`: the fixed log lines and thrown error messages, with their exact text.
- `Recipes`: each route's try block as a list of steps, and a pure interpreter for them. This is the specification:
  - steps run in order;
  - the first thrown error ends the run;
  - `Respond` is the catch block or the download with its cleanup callback;
  - `Handle` is a whole request.
- `Server`: class `Job` holds `logs` and the set of files on disk. Its methods are the handlers as the source writes them: push, await, throw, catch, unlink. Each handler method is proved equal to `Recipes.Handle`.
- `Guarantees`: what the routes promise, proved from `Handle`:
  - the cache skip and the download order;
  - the short-circuits at failures and missing files;
  - exact logs on the `/cut-video` paths;
  - which files survive a request.

External tools are one function value, `Tool`. It maps a command and the files present to a `ToolRun`: whether the command failed, its stdout, its stderr, its error message and the files it wrote. A command can only add files (`ToolRun.writes`), never remove one; "only adds files" in `Recipes.RunStepsGrows` and the survival guarantees rest on that. The filesystem is a set of paths. The whisper model is a function from the audio path to a transcript or a thrown message.

## Model

| member | source | states |
|---|---|---|
| JsValues.NatText | cut-video.js:55 | the decimal text of an integer start time or duration (in the range where JavaScript prints integers as plain digits) is a non-empty string of digits with no leading zero (only 0 itself starts with `0`), one digit exactly for values below ten |
| JsValues.NatTextValue | cut-video.js:55 | reading the digits back yields the number; with `NatText`'s no-leading-zero clause this fixes the text as the one decimal numeral of the number |
| VideoId.FindSeparator | cut-video.js:28 | the first `v=` at or after a position, as `split('v=')` finds it: it is a `v=`, none occurs before it, and `None` means there is none |
| VideoId.FirstPiece | cut-video.js:28 | `split('v=')[0]` is a prefix of the text that contains no `v=` and ends where the first `v=` starts |
| VideoId.BeforeAmp | cut-video.js:28 | `split('&')[0]` is a prefix without `&`, and ends at the first `&` |
| VideoId.ExtractIdDefined | cut-video.js:28-31 | an id exists exactly when the URL holds `v=` and the text after the first `v=` is non-empty and starts with neither `&` nor `v=` |
| VideoId.PieceShape | cut-video.js:28 | the id cut from the text after `v=` is well formed, opens that text, and is ended by `&`, a second `v=` or the end |
| VideoId.ExtractIdShape | cut-video.js:28-31 | an extracted id is non-empty, holds no `&` and no `v=`, is the text right after the first `v=`, and is followed by `&`, `v=` or the end |
| VideoId.PieceOfComposed | cut-video.js:28 | a well-formed id followed by `&`, `v=` or nothing is what the two splits cut out |
| VideoId.ExtractIdOfComposed | cut-video.js:28-31 | conversely, a well-formed id placed after the URL's first `v=` and ended by `&`, `v=` or the end is exactly the id extracted |
| VideoId.ExtractIdStable | cut-video.js:28-31 | re-extracting from `watch?v=<id>` gives the same id back |
| VideoId.Admit | cut-video.js:22-31 | 400 "Missing required parameters." exactly when `youtubeUrl` is falsy or a time field is `undefined`; no reply when a truthy URL is not a string; 400 "Invalid YouTube URL." exactly when extraction gives nothing; otherwise admitted with a well-formed id |
| VideoId.ZeroStartAdmitted | cut-video.js:24 | a start time of 0 is accepted, because only `undefined` is refused |
| Artifacts.ArtifactPathInjective | cut-video.js:33-34 | equal per-job path values (folder and file name, before any resolution of `/` or `..`) come from the same id and the same kind |
| Artifacts.ArtifactsApart | cut-video.js:105-106 | one job's files of different kinds have different paths |
| Captions.UnescapeEscape | cut-video.js:217-219 | removing the backslash before each `\'` of the escaped text recovers the segment text |
| Captions.EscapedQuotesPreceded | cut-video.js:217-219 | in the escaped text every `'` directly follows a `\`, and exactly one character is added per quote |
| Captions.ClauseEmbedsSegment | cut-video.js:216-220 | a clause opens with the fixed `drawtext=enable='between(t,` head, then the start, then the end, and between its lead and its fixed tail holds text that unescapes to the segment text |
| Captions.Clauses | cut-video.js:214-221 | `segments.map(...)` gives one clause per segment, clause `i` for segment `i` |
| Captions.JoinLength | cut-video.js:222 | joining no parts gives the empty filter; otherwise the filter is exactly as long as the parts plus one `,` between each pair |
| Captions.PartAt | cut-video.js:222 | part `i` sits at its offset in the `,`-joined string, and a `,` follows every part but the last |
| Captions.FilterLayout | cut-video.js:213-222 | the filter lays out clause `i` at its offset, in transcript order, with a `,` after every clause but the last and nothing else |
| Captions.FilterAppend | cut-video.js:213-222 | appending a segment appends `,` and its clause to the filter |
| StageLog.ExecEntries | cut-video.js:82-84 | one run adds 1 to 3 entries: `Command: <cmd>` first, then `STDOUT: ` and `STDERR: ` entries, in that order, each only when its stream is non-empty |
| StageLog.ExecEntriesExact | cut-video.js:82-84 | each stream entry appears exactly when its stream is non-empty, and nothing but stream entries follows the command entry |
| StageLog.FailureReason | cut-video.js:85 | the rejection message is stderr if non-empty, else stdout if non-empty, else the error's message; it is empty only when all three are |
| StageLog.Settle | cut-video.js:85-86 | `execWithLogs` rejects exactly when the command fails, with the failure reason, and otherwise resolves with stdout |
| StageLog.InlineEntry | cut-video.js:43-47 | the inline promise logs `stderr \|\| stdout` on failure and `stdout` on success |
| Recipes.RunFromSuffix | cut-video.js:37-72 | running the try block by position from step `k` is running its suffix from `k` |
| Recipes.RunStepsGrows | cut-video.js:37-72 | running steps only appends to the log, only adds files, and spawns only commands that its own steps name |
| Recipes.RunStepsAppend | cut-video.js:110-161 | a try block made of two parts runs the second part only if the first threw nothing |
| Recipes.ShortCircuit | cut-video.js:73-76 | nothing after a failing part of the try block runs |
| Recipes.FirstFailure | cut-video.js:162-165 | a run that throws is a prefix that threw nothing followed by exactly one failing step, which is not a log line |
| Recipes.Respond | cut-video.js:66-76 | every run ends in a 500, a file download, or (when the output is not on disk) nothing sent |
| Recipes.RespondOutcome | cut-video.js:66-76 | the log only grows: on failure by the steps' entries and then exactly one `Error: <message>` entry, with the 500 carrying the log and the disk exactly as the steps left it; on success the disk is what the steps left minus exactly the cleanup files, and the route's output file is sent, under its own file name and with the log as header, exactly when the steps left it on disk |
| Recipes.Handle | cut-video.js:21-31 | a body that is not admitted gets 400 "Missing required parameters." or 400 "Invalid YouTube URL." exactly in those cases, and no reply exactly when a truthy `youtubeUrl` is not a string (the `.split` throws outside the try block); it runs no command and touches no state |
| Server.Job.constructor | cut-video.js:35 | a job starts with an empty log over the given files |
| Server.Job.ExecWithLogs | cut-video.js:79-88 | logs the command line and each non-empty stream, records the command's files, and settles as `Settle` says |
| Server.Job.ExecInline | cut-video.js:40-50 | logs `stderr \|\| stdout` or `stdout`, and rejects with the route's fixed message exactly when the command fails (it resolves with no value) |
| Server.Job.Push | cut-video.js:39 | appends one fixed log line and changes nothing else |
| Server.Job.Fail | cut-video.js:73-76 | the catch block appends `Error: <message>` and answers 500 with the whole log, touching no file |
| Server.Job.Deliver | cut-video.js:68-72 | sends the output under its file name with the log as header when it is on disk, and otherwise sends nothing; then removes exactly the two cleanup files |
| Server.Job.Answer | cut-video.js:66-76 | whichever way the try block ended, the response and state are what `Respond` gives |
| Server.Job.CutVideo | cut-video.js:21-77 | the /cut-video handler's response and final state are those of `Handle` for that route |
| Server.Job.ServeCut | cut-video.js:33-76 | an admitted /cut-video request behaves as `Handle` says |
| Server.Job.CutSteps | cut-video.js:37-67 | the try block of /cut-video (download, then cut, each through the inline promise) is the run of its steps |
| Server.Job.CreatePortraitVideo | cut-video.js:90-166 | the /create-portrait-video handler's response and final state are those of `Handle` for that route |
| Server.Job.ServePortrait | cut-video.js:102-165 | an admitted portrait request behaves as `Handle` says, with the cache decided on the state at arrival |
| Server.Job.PortraitSteps | cut-video.js:110-156 | the portrait try block is the run of fetch, cut and combine, each stage only after the previous one threw nothing |
| Server.Job.FetchPortraitSource | cut-video.js:111-126 | reuses `<id>.webm` when present; otherwise downloads it and throws "YouTube video download failed." when it did not appear |
| Server.Job.CutClip | cut-video.js:128-136 | cuts the clip and throws "Cut video file not created." when it did not appear |
| Server.Job.CombinePortrait | cut-video.js:138-156 | stacks the clip over the secondary video, throws "Portrait video file not created." when no result appeared, and otherwise logs the send line |
| Server.Job.AddTextVideo | cut-video.js:171-241 | the /add-text-video handler's response and final state are those of `Handle` for that route |
| Server.Job.ServeAddText | cut-video.js:183-240 | an admitted add-text request behaves as `Handle` says |
| Server.Job.AddTextSteps | cut-video.js:189-229 | the add-text try block is the run of fetch, transcribe and overlay, each stage only after the previous one threw nothing |
| Server.Job.FetchMp4Source | cut-video.js:190-197 | downloads `<id>.mp4` unless it is on disk, in which case it logs the reuse line instead |
| Server.Job.TranscribeAudio | cut-video.js:199-209 | extracts the audio, then either throws whisper's error or saves the transcription, yielding exactly whisper's segments |
| Server.Job.BurnInCaptions | cut-video.js:211-229 | burns the filter built from those segments into the video |
| Guarantees.AddTextCachedFetchesNothing | cut-video.js:191-197 | a cached add-text try block has no download step |
| Guarantees.RecipeOpening | cut-video.js:39-41 | every try block opens with a log line; uncached (and always for /cut-video) that line is "Starting video download..." and the next step downloads; cached it is the route's "already exists" line |
| Guarantees.RunWithoutDownloads | cut-video.js:113-114 | a try block without download steps runs no download |
| Guarantees.OpensWithNote | cut-video.js:39 | a try block that opens with a log line logs it first |
| Guarantees.SpawnsSecond | cut-video.js:39-42 | a log line followed by a command always spawns that command first, whatever it reports |
| Guarantees.AdmittedResponse | cut-video.js:66-76 | an admitted request ends in a 500 exactly when its steps threw, carrying the log and keeping every file, including those it wrote; otherwise exactly the route's cleanup files are removed from what the steps left, and the route's output file is sent under its own name exactly when the steps left it on disk |
| Guarantees.QuietRun | cut-video.js:113-114 | a try block that opens with a log line and downloads nothing logs that line first, runs no download, and keeps any file outside its cleanup set |
| Guarantees.CachedRecipe | cut-video.js:112-114 | a cached try block opens with its "already exists" line, downloads nothing, and its cleanup never includes the source |
| Guarantees.CachedSourceReused | cut-video.js:191-197 | when the source is on disk, the portrait and add-text routes log their "already exists" line first, run no download, and the source survives the request |
| Guarantees.DownloadFirst | cut-video.js:38-42 | /cut-video always downloads, and so do the others when their source is absent: the first command run is the download and the log opens with "Starting video download..." |
| Guarantees.ThrowsAtFailedTranscription | cut-video.js:206-207 | a run that reaches a failed transcription throws |
| Guarantees.TranscribeBurnsNothing | cut-video.js:190-209 | nothing before the overlay steps burns captions |
| Guarantees.AddTextStopsAtTranscription | cut-video.js:204-227 | when whisper throws, the add-text try block throws before any caption-burning command runs |
| Guarantees.TranscriptionFailureStops | cut-video.js:204-240 | when whisper throws, /add-text-video answers 500 and never spawns a caption-burning command |
| Guarantees.PortraitFetchStops | cut-video.js:116-125 | a failed download or a missing `.webm` throws the failure reason or "YouTube video download failed.", and the download is the only command run |
| Guarantees.PortraitMissingDownloadStops | cut-video.js:122-125 | then the request ends in a 500 whose last entry is `Error: ` with that message, and only the download's files are added |
| Guarantees.CutRecipeSucceeds | cut-video.js:37-67 | when both commands succeed, /cut-video logs exactly the three fixed lines and the two stdouts, in order |
| Guarantees.CutVideoDelivered | cut-video.js:66-72 | it then sends `<id>_short.mp4` with that five-entry log if the cut left that file (nothing is sent otherwise), and both the download and the clip are removed |
| Guarantees.CutRecipeDownloadFails | cut-video.js:39-46 | a failed download logs the opening line and `stderr \|\| stdout`, and throws "Failed to download video." |
| Guarantees.CutVideoDownloadFailed | cut-video.js:40-46 | it then answers 500 with exactly three log entries, and no cut runs |

## What the code does that one might not expect

The model follows the code in each of these cases:
- **Empty transcript.** An empty transcript builds the empty filter, and the code still runs ffmpeg with `-vf ""`. The overlay step is not skipped.
- **Files left after a failure.** On failure no file is removed, including files an earlier stage of the same job created.
- **/cut-video deletes its download.** The /cut-video download callback removes the downloaded source `<id>.mp4` along with the clip, although the add-text route may later reuse that file as cached.
- **Id sanitising.** The id is not sanitised beyond the two splits. It can contain `/`, quotes or shell metacharacters, which then appear inside the command lines.
- **Ids that name other files.** `path.join` resolves `/` and `..` in the id, so an id can name a file outside its job. For example, `watch?v=../entertainment_video` makes /cut-video download to, and on success unlink, the portrait route's secondary video `entertainment_video.mp4`, and the ids `../outputs/a_short` (as a source) and `a` (as a clip) name the same file. The model keeps paths unresolved and does not show these collisions.

## Left out

- Express, body parsing, CORS and `app.listen`: the HTTP response is a value, `Response`.
- Spawning processes, the 60-second timeout and killing processes: each command's result comes from the `Tool` function.
- yt-dlp and ffmpeg semantics: the files a command writes are part of what `Tool` reports, and are not derived from the command.
- The whisper model: `Whisper` is a function from the audio path to a transcript or a thrown message. `load_model` is not modelled.
- Floating-point numbers: body numbers are integers, and `NaN` is not modelled. Segment start and end times are carried as the text JavaScript renders for them.
- `__dirname`: paths are relative to the server directory, under a `downloads` or `outputs` folder. The start-up `mkdirSync` of those folders is not modelled.
- `JSON.stringify` and `encodeURIComponent` of the log header: the header carries the log itself.
- `Render`: arrays in the body render as `[object Object]`, where JavaScript joins their elements.
- Non-string transcript segments: a segment whose text is not a string (so that `.replace` throws) is not modelled.
- Synchronous I/O failures: `unlinkSync` of a file that is already gone throws in the download callback (in /cut-video this happens whenever the output is missing, at its second unlink), and `writeFileSync` of the transcription can fail. Removal is set difference, and the write always succeeds.
- JsValues.Render: body numbers are integers printed as plain digits. JavaScript numbers are doubles: integers beyond 2^53 are rounded before interpolation, and magnitudes of 10^21 or more print in exponent form (`1e+21`), which the model does not reproduce.
- Delivery timing: the download callback runs after delivery. The model removes the cleanup files as the response is produced.
- Concurrency: concurrent requests that share the downloads folder are not modelled. Each `Handle` runs alone from a given state.
- A truthy `youtubeUrl` that is not a string: `.split` throws outside the try block, so no response is sent. It is modelled as `NoReply`, and the unhandled rejection itself is not modelled.
- Artifacts.ArtifactPath: it has no contract of its own. What matters about it is stated by `ArtifactPathInjective` and `ArtifactsApart`.
- Artifacts.ArtifactPathInjective: `path.join` resolution is not modelled. Ids holding `/` or `..` can name another folder's file or another job's file, so injectivity holds for the unresolved path values only, not for the files the program touches.
