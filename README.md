# Stock tagger backend: the image pipeline, modelled in Dafny

This project models the sequential logic of a small Express backend. The backend enlarges uploaded
stock images with Real-ESRGAN and sends them to an SFTP server. It also runs a reverse image
search that suggests captions. The model covers five pieces:

- **Running external commands** (`src/services/helper.ts`, `src/services/upscalerService.ts`).
  Commands are joined with `" && "`. In `helper.ts`, standard output and standard error are
  gathered chunk by chunk, and the promise resolves with the output or rejects with the error text
  on `close`, depending on the exit code. The upscaler's own `runCommands` only logs the chunks,
  and its rejection carries the command alone. `Helper.CommandRun` is a
  class whose handlers update its fields. `Helper.RunToClose` drives one run to its end.
- **The upscaler's output naming** (`upscale`). The output path is `<dir>/<name>_out<ext>`. A
  lemma proves that the suffix goes before the extension.
- **The caption search parser** (`generateCaptions`). The output is split into lines. Parsing
  starts after the first line holding `index created!`. Blank lines are dropped. Each line is
  split at `(similarity:`. A line without the tag fails the whole call, because looking up
  `substring` on the missing piece throws.
- **The controller's batches** (`src/controllers/imageController.ts`). `Controller.ImageController`
  is a class holding the log of emitted `progress` events and the log of deleted files.
  - Each upload task first upscales, outside the `try`. Then it emits two progress events and one
    event per transfer callback. Its `finally` deletes the source and the upscaled file.
  - Each caption task deletes its image in a `finally`.
  - A batch runs every task and then settles like `Promise.all`.
  - Caption results are flattened and sorted by similarity, highest first.
- **The `/events` progress stream** (`src/routes/imageRouter.ts`, `src/routes/imageRoutes.ts`).
  One emitter holds one listener per connection, and no listener is ever removed. Each
  connection is first written `data: Connected\n\n`. After that it gets one
  `event: progress\ndata: <json>\n\n` frame per later emission. In `ImageRouter` the emitter is
  the `EventEmitter` instance injected into its constructor, and the same instance is injected
  into `ImageController`'s. So an `ImageRouter` connection receives the frames of every event
  the controller emits after it connected. `imageRoutes`' own `/events` route frames its
  module-level emitter the same way, but that emitter never receives the controller's events
  (see "## Left out"). The model also covers how `ImageRouter` stores uploads on disk and how
  `imageRoutes` forwards upload errors.

The external world comes in as **parameters**. A process run is its stdout chunks, stderr chunks
and exit code (`Helper.ProcessRun`). A transfer is its progress callbacks and how it settled
(`Controller.TransferOutcome`). `JSON.stringify` of an event is a function argument `json`. `String(Number(text))`, the text a
query value becomes on the command line, is a function argument `number`. `parseFloat` of
a similarity text is a function argument `similarity: string -> real`. `Math.random` is a sequence
of draws. The four environment variables are a `Helper.Config` value.

Modules: `Wrappers` and `Errors` (shared types); `Seqs`, `JsStrings` and `Paths` (the flattening,
string and path operations of JavaScript and Node that the source relies on); `Helper`,
`Upscaler`, `Captioning` and `Controller`, one per source file; `ImageRouter` (upload storage and
the `/events` stream of both router files, whose headers, frames and listener registration are
the same); and `Routes` (the
wiring of the routes to the controller and the shared emitter).

The code does not isolate failures per image. `Promise.all` (`imageController.ts:62` and `:124`)
rejects the request on the first rejection, and the request goes to the error handler, while the
other images' tasks run on to their end. `Controller.UploadBatchAllOrNothing` and
`Controller.CaptionBatchSpec` state this. In `getImageCaptions`, the search runs inside the
`try`, so every image is deleted, even when its search fails. In `uploadImage`, the upscale runs
before the `try`, so a failed upscale deletes nothing. `Controller.UploadItemCleanup` states this.

## Model

| member | source | states |
|---|---|---|
| JsStrings.IndexOf | src/services/captioningService.ts:44-46 | the result is the first position where the needle occurs, or none when it occurs nowhere (`includes` is the Some case) |
| JsStrings.Split | src/services/captioningService.ts:43 | `split(sep)`: the pieces between consecutive occurrences of the separator, at least one piece |
| JsStrings.Join | src/services/helper.ts:18 | `join(sep)`: the parts with the separator between neighbours; `JoinSplit` and `SplitJoin` relate it to `Split` |
| JsStrings.JoinSplit | src/services/captioningService.ts:43 | joining the pieces of a split with the separator gives back the original text |
| JsStrings.SplitJoin | src/services/captioningService.ts:43 | splitting at a character that occurs in no line gives back exactly those lines |
| JsStrings.Trim | src/services/captioningService.ts:54 | a trimmed string is empty or starts and ends with a non-whitespace character |
| JsStrings.TrimEmptyIffBlank | src/services/captioningService.ts:54 | `trim()` is empty exactly when every character is whitespace |
| JsStrings.TrimIsInfix | src/services/captioningService.ts:61 | the trimmed text is the original minus whitespace-only ends |
| JsStrings.EndsWith | src/services/helper.ts:67 | `endsWith(suffix)`: the suffix fits and the last characters are exactly the suffix; `Helper.RemoveEndingDot` is stated with it |
| Paths.ParseFileName | src/services/upscalerService.ts:48 | name followed by extension is the file name; a non-empty extension is a dot plus dot-free text after a non-empty name; an empty extension means no dot after the first character, or the name `..` |
| Paths.PathJoin | src/services/upscalerService.ts:50 | `path.join(dir, name)` for a plain name: the directory, one separator unless it already ends with one, then the name |
| Paths.PathJoinInjective | src/routes/imageRouter.ts:13-20 | joining distinct names to one directory gives distinct paths |
| Seqs.FlattenMultiset | src/controllers/imageController.ts:66-67 | `flatMap(x => x)` keeps every element of every list, no more and no fewer |
| Seqs.FlattenLength | src/controllers/imageController.ts:66-67 | the flattened length is the sum of the lengths |
| Helper.JoinTwoCommands | src/services/helper.ts:18 | two commands make `first && second` |
| Helper.ActivateCondaCommand | src/services/helper.ts:5-11 | the conda activation ends with ` activate ` and the environment name |
| Helper.JoinCommands | src/services/helper.ts:18 | the commands joined with ` && `; `JoinTwoCommands` gives the two-command case |
| Helper.SpawnCwd | src/services/helper.ts:23 | a working directory is passed to the spawn exactly when it is given and non-empty |
| Helper.CloseOutcome | src/services/helper.ts:37-43 | resolves exactly on exit code 0, with the gathered output; any other code, null included, rejects with `Commands failed: <cmd>: <stderr>` |
| Helper.RunCommands | src/services/helper.ts:13-45 | what `runCommands` settles to given the chunks and the exit code; `RunCommandsOutcome` states its outcome |
| Helper.RunCommandsOutcome | src/services/helper.ts:13-45 | the resolved value is all stdout chunks in arrival order, its length their total length; the rejection names the joined commands and all stderr chunks |
| Helper.CommandRun.constructor | src/services/helper.ts:18-27 | the command string is the joined commands, the cwd is chosen as above, nothing is gathered and nothing is settled |
| Helper.CommandRun.OnStdout | src/services/helper.ts:30-32 | appends the chunk to the output; the output stays the concatenation of every stdout chunk so far |
| Helper.CommandRun.OnStderr | src/services/helper.ts:33-35 | appends the chunk to the error text; the error stays the concatenation of every stderr chunk so far |
| Helper.CommandRun.OnClose | src/services/helper.ts:37-43 | the first close settles from the chunks received and the code; later closes change nothing |
| Helper.RunToClose | src/services/helper.ts:13-45 | a run fed its chunks one by one and then closed settles exactly to `RunCommands` of the whole run |
| Helper.RemoveEndingDot | src/services/helper.ts:66-68 | one final dot is removed, if there is one; otherwise the text is unchanged |
| Helper.RemoveEndingDotNotIdempotent | src/services/helper.ts:66-68 | only one dot goes per call: `a..` becomes `a.`, and a second call gives `a` |
| Helper.FieldValues | src/services/helper.ts:53 | `Object.values` keeps each field's file list, in field order |
| Helper.GetImagesFromRequest | src/services/helper.ts:47-54 | missing files give the empty list; an array is returned as it is |
| Helper.GetImagesFromFieldMap | src/services/helper.ts:51-53 | a field map gives all files of all fields, field after field, every file exactly once |
| Helper.GenerateRandomString | src/services/helper.ts:56-64 | the result has the requested length; character i is the charset character picked by draw i, so every character is a letter or digit |
| Upscaler.OutputFileNameParses | src/services/upscalerService.ts:48-49 | parsing the output name gives the input's name plus `_out`, and the input's extension, for every name but `..` (which becomes `.._out`) |
| Upscaler.PhotoOutputName | src/services/upscalerService.ts:48-49 | `photo.jpg` becomes `photo_out.jpg` |
| Upscaler.OutputFileName | src/services/upscalerService.ts:48-49 | `${parsed.name}_out${parsed.ext}`; `OutputFileNameParses` states what it means |
| Upscaler.PythonCommand | src/services/upscalerService.ts:40-45 | the python invocation starts with `python ` and ends with ` --tile 256` |
| Upscaler.UpscaleCommands | src/services/upscalerService.ts:38-46 | the two commands of `upscale`, the conda activation then the python invocation; `UpscaleCommandLine` gives their joined line |
| Upscaler.UpscaleCommandLine | src/services/upscalerService.ts:38-46 | the command line is the conda activation, ` && `, then the python invocation with input, output, model path and `--tile 256` |
| Upscaler.UpscalerCwd | src/services/upscalerService.ts:64 | when a non-empty working directory is given, the fixed Real-ESRGAN directory is used whatever its value; otherwise none |
| Upscaler.RunSpawn | src/services/upscalerService.ts:54-65 | the upscaler's own `runCommands` spawns the commands joined with ` && `, with the working directory chosen as above |
| Upscaler.UpscaleSpawn | src/services/upscalerService.ts:38-46 | the spawn `upscale` makes: the two commands and no working-directory argument |
| Upscaler.UpscaleHasNoCwd | src/services/upscalerService.ts:38-46 | the process `upscale` spawns runs without a working directory, and its command string is the conda activation, ` && `, then the python invocation |
| Upscaler.SettleUpscale | src/services/upscalerService.ts:74-80 | resolves exactly on exit code 0; otherwise rejects with `Commands failed: <cmd>` and without the stderr text |
| Upscaler.Upscale | src/services/upscalerService.ts:30-52 | succeeds exactly on exit code 0, returning `<outputDirectory>/<name>_out<ext>` |
| Upscaler.UpscaleFailure | src/services/upscalerService.ts:38-46 | a failed enhancement rejects naming the full two-command line |
| Upscaler.UpscalePathIndependent | src/services/upscalerService.ts:48-51 | the returned path depends only on the output directory and the file name |
| Captioning.OrDefault | src/services/captioningService.ts:28-30 | an undefined argument takes its default; a given one is used as it is |
| Captioning.SearchFlags | src/services/captioningService.ts:39 | the three flags with their values or defaults; `DefaultSearchFlags` and `Controller.QueryReachesFlags` state what reaches them |
| Captioning.SearchCommands | src/services/captioningService.ts:32-42 | the conda activation, then the python search command; `SearchCommandEndsWithFlags` states its end |
| Captioning.CaptioningDirectory | src/services/captioningService.ts:67-68 | `path.join('src', 'captioning', localPath)`, the location of the search script and of the annotations |
| Captioning.DefaultSearchFlags | src/services/captioningService.ts:28-39 | undefined arguments give exactly the flags of batch size 32, 600 annotations and 10 results |
| Captioning.SearchCommandEndsWithFlags | src/services/captioningService.ts:35-39 | the python command line ends with the three flags |
| Captioning.FindMarkerLine | src/services/captioningService.ts:44-46 | the first line holding `index created!`, or none when no line holds it |
| Captioning.IsBlank | src/services/captioningService.ts:54 | a line is blank when its `trim()` is empty; `JsStrings.TrimEmptyIffBlank` makes that every character being white space |
| Captioning.NonBlank | src/services/captioningService.ts:54 | keeps exactly the lines whose trim is non-empty: the result has as many lines as the input has non-blank ones, and contains a line exactly when the input does and it is not blank |
| Captioning.CountNonBlank | src/services/captioningService.ts:54 | the number of lines that survive the blank-line filter is at most the number of lines |
| Captioning.CountNonBlankZero | src/services/captioningService.ts:54 | no line survives the blank-line filter exactly when every line is blank |
| Captioning.CountNonBlankFull | src/services/captioningService.ts:54 | every line survives the blank-line filter exactly when none is blank |
| Captioning.NonBlankMultiplicity | src/services/captioningService.ts:54 | every non-blank line is kept as many times as it occurs, and no blank line is kept |
| Captioning.NonBlankAppend | src/services/captioningService.ts:54 | the filter keeps order: filtering a concatenation filters each part |
| Captioning.DropLastTwo | src/services/captioningService.ts:57-59 | removes the last two characters; text shorter than two becomes empty, because a negative end counts as 0 |
| Captioning.ParseLine | src/services/captioningService.ts:55-64 | a line fails only with the undefined-similarity error |
| Captioning.ParseLineSpec | src/services/captioningService.ts:55-64 | a line parses exactly when it holds `(similarity:`; the caption is the trimmed text before the first tag minus one final dot; the similarity text follows the tag, up to a second tag, minus two characters |
| Captioning.ParseLines | src/services/captioningService.ts:55-64 | `map` succeeds exactly when every line parses, giving each line's parse in order; otherwise it fails with the undefined-similarity error |
| Captioning.MissingMarkerSpec | src/services/captioningService.ts:43-50 | the call fails with the index message exactly when no line of the output holds the marker |
| Captioning.ParsesAfterFirstMarker | src/services/captioningService.ts:43-54 | with the first marker at line k, the result is the parse of the non-blank lines after k, one caption per non-blank line |
| Captioning.MarkerAfter | src/services/captioningService.ts:44-46 | the marker search stops at the first marker line |
| Captioning.IgnoresPreamble | src/services/captioningService.ts:43-54 | whatever comes before the first marker line, and that line itself, does not affect the result |
| Captioning.ParseSearchOutput | src/services/captioningService.ts:43-64 | the parse of the search output after `runCommands` resolved; `MissingMarkerSpec`, `ParsesAfterFirstMarker` and `IgnoresPreamble` state it |
| Captioning.GenerateCaptionsSpec | src/services/captioningService.ts:25-65 | a failed search rejects with the command and its stderr; a successful one parses the whole concatenated stdout |
| Captioning.GenerateCaptions | src/services/captioningService.ts:25-65 | the outcome of `generateCaptions` for one process run; `GenerateCaptionsSpec` states it |
| Controller.PromiseAll | src/controllers/imageController.ts:124 | resolves exactly when every task resolved, with their values in input order; otherwise rejects with the first rejection in input order |
| Controller.QueryNumber | src/controllers/imageController.ts:34-42 | an absent or empty query parameter becomes undefined; any other value is converted with `Number` |
| Controller.SearchArgsOf | src/controllers/imageController.ts:34-50 | the query turned into the three `generateCaptions` arguments, each by `QueryNumber`; `QueryReachesFlags` states what reaches the command line |
| Controller.FlagValue | src/controllers/imageController.ts:34-42 | the text a query parameter puts on the command line: its converted value, or the default for an absent or empty one |
| Controller.QueryReachesFlags | src/controllers/imageController.ts:34-50 | for every query, each search flag carries its converted parameter, or that flag's default when the parameter is absent or empty |
| Controller.EmptyQueryUsesDefaults | src/controllers/imageController.ts:34-42 | for every query whose three parameters are absent or empty, the search runs with exactly the flags of a call without arguments |
| Controller.InsertByKey | src/controllers/imageController.ts:68 | inserting into a list sorted by descending key keeps it sorted, adding exactly the new element |
| Controller.InsertBehindHead | src/controllers/imageController.ts:68 | inserting behind a head with a greater key keeps the list sorted and adds exactly the new element |
| Controller.SortByKey | src/controllers/imageController.ts:68 | the result is sorted by descending key and is a permutation of the input |
| Controller.SortByKeyStable | src/controllers/imageController.ts:68 | the sort is stable: the elements with any one key keep their relative order |
| Controller.InsertKeyFilter | src/controllers/imageController.ts:68 | an insertion goes ahead of every element with its own key and leaves the order of each key's elements unchanged |
| Controller.CaptionResponse | src/controllers/imageController.ts:65-69 | the per-image lists flattened in input order, then sorted by similarity; `CaptionResponseSpec` and `CaptionResponseStable` state it |
| Controller.CaptionResponseSpec | src/controllers/imageController.ts:65-69 | the response holds exactly the captions of all images, as many as there are, most similar first |
| Controller.CaptionResponseStable | src/controllers/imageController.ts:65-69 | captions of equal similarity keep the order they had across the images' lists |
| Controller.TransferEvents | src/controllers/imageController.ts:107-113 | one event per transfer callback: the callback's file name, `0.5 + p/2`, `ftp_upload` |
| Controller.TransferEvent | src/controllers/imageController.ts:107-113 | the event of one SFTP callback keeps the callback's file name and is `ftp_upload`; a fraction in [0, 1] gives a progress in [0.5, 1] |
| Controller.TaskTrace | src/controllers/imageController.ts:93-120 | a task resolves exactly when its upscale and its transfer did; it deletes two files and emits two events plus one per callback after a successful upscale, and nothing otherwise |
| Controller.UploadItemTrace | src/controllers/imageController.ts:86-121 | the task of one image: its upscale, then the rest of the task; `UploadItemCleanup` and `UploadItemEvents` state it |
| Controller.UploadItemCleanup | src/controllers/imageController.ts:86-121 | after a successful upscale, the source and then the output file are deleted and the task settles as the transfer did; a failed upscale emits nothing, deletes nothing and rejects |
| Controller.UploadItemEvents | src/controllers/imageController.ts:94-113 | events in order: `upscale` at 0.1, `ftp_upload` at 0.5, then one per callback |
| Controller.ItemProgressBounds | src/controllers/imageController.ts:82-113 | with callback fractions in [0, 1], every event is in [0.1, 1], and every event after the first is at least 0.5 |
| Controller.ItemProgressMonotone | src/controllers/imageController.ts:94-113 | with non-decreasing fractions in [0, 1], one task's progress never goes back |
| Controller.UploadTraces | src/controllers/imageController.ts:86 | one task per image, in input order |
| Controller.UploadImageResult | src/controllers/imageController.ts:75-131 | how `uploadImage` settles: missing files reject, otherwise `Promise.all` over the tasks; `UploadBatchAllOrNothing` states it |
| Controller.UploadBatchAllOrNothing | src/controllers/imageController.ts:124 | the upload request succeeds exactly when every task does; otherwise it fails with the error of a failing task |
| Controller.ResultsSettle | src/controllers/imageController.ts:124 | for any tasks, `Promise.all` resolves exactly when every task did, and otherwise rejects with some task's error |
| Controller.CaptionResults | src/controllers/imageController.ts:32 | one search per image, in input order |
| Controller.CaptionItemResult | src/controllers/imageController.ts:32-60 | one caption task: the search over the image with the annotations path and the query's arguments; its deletion is in `ImageController.GetImageCaptions` |
| Controller.ImagePaths | src/controllers/imageController.ts:57-59 | the path of every image, in order |
| Controller.GetImageCaptionsResult | src/controllers/imageController.ts:19-73 | how `getImageCaptions` settles; `CaptionBatchSpec` states it |
| Controller.CaptionBatchSpec | src/controllers/imageController.ts:19-73 | the caption request succeeds exactly when every search does; its value is all captions, each kept once, sorted by descending similarity |
| Controller.Payloads | src/routes/imageRouter.ts:67-68 | the JSON of each event, in order |
| Controller.ImageController.constructor | src/controllers/imageController.ts:12-17 | the controller is given the shared emitter, on which nothing has been emitted; nothing emitted, nothing deleted |
| Controller.ImageController.Emit | src/controllers/imageController.ts:94-103 | appends one event to the emitted log and publishes its JSON on the shared emitter: every connected stream gets its frame, and the emitter's payloads stay the JSON of exactly the emitted events |
| Controller.ImageController.DeleteFile | src/controllers/imageController.ts:133-137 | appends one path to the deleted log |
| Controller.ImageController.EmitTransferEvents | src/controllers/imageController.ts:107-113 | emits the transfer events of the callbacks, in order |
| Controller.ImageController.RunTask | src/controllers/imageController.ts:93-120 | a task's emissions, deletions and result after its upscale settled |
| Controller.ImageController.UploadItem | src/controllers/imageController.ts:86-121 | one image's task appends exactly its trace's events and deletions and returns its result |
| Controller.ImageController.RunUploadTasks | src/controllers/imageController.ts:86-121 | every task runs, in input order; the logs grow by the concatenation of their events and deletions |
| Controller.ImageController.UploadImage | src/controllers/imageController.ts:75-131 | missing files reject before any task runs, with nothing emitted or deleted; otherwise every task runs and the request settles as `Promise.all` |
| Controller.ImageController.GetImageCaptions | src/controllers/imageController.ts:19-73 | every image is deleted exactly once, in order, whatever its search did; the result is the batch result above |
| ImageRouter.ProgressFrame | src/routes/imageRouter.ts:67-69 | the frame is `event: progress\ndata: `, the payload, then a blank line |
| ImageRouter.FramesAppend | src/routes/imageRouter.ts:67-69 | writing two runs of emissions is writing their concatenation |
| ImageRouter.Frames | src/routes/imageRouter.ts:67-69 | what a listener writes for a run of emissions: empty exactly when there were none; `FramesAppend` and `FramesLength` state the rest |
| ImageRouter.FramesLength | src/routes/imageRouter.ts:68 | the written length is 24 characters of framing per emission plus the total length of the payloads |
| ImageRouter.ProgressBus.constructor | src/routes/imageRouter.ts:24-27 | the shared emitter starts with no listeners and no connections |
| ImageRouter.ProgressBus.Connect | src/routes/imageRouter.ts:51-74 | a new connection is written the connected message, and exactly one listener is added; no other stream changes and nothing is replayed |
| ImageRouter.ProgressBus.Publish | src/routes/imageRouter.ts:67-69 | every connection gets the frame appended, and no listener is added or removed |
| ImageRouter.StreamContents | src/routes/imageRouter.ts:64-69 | a stream is the connected message and then the frames of exactly the emissions since it connected, in emission order |
| ImageRouter.SharedSuffix | src/routes/imageRouter.ts:64-69 | an earlier connection's stream is a later one's with the frames emitted between their connections inserted |
| ImageRouter.StoredUploadPathCollides | src/routes/imageRouter.ts:13-20 | two uploads are stored at the same path under `uploads/` exactly when their original names are equal |
| ImageRouter.StoredUploadPath | src/routes/imageRouter.ts:13-20 | an upload is stored at `uploads/` followed by its original name |
| Routes.ForwardUploadError | src/routes/imageRoutes.ts:19-24 | whatever the upload middleware reports goes to `next` unchanged; only a `MulterError` is logged |
| Routes.OpenEventStream | src/routes/imageRouter.ts:51-74 | `GET /events` on the controller's emitter: the new stream is written the connected message and is registered at the current end of the controller's events |
| Routes.SubscribersSeeEmittedEvents | src/routes/imageRouter.ts:24-74 | on the emitter that `ImageRouter` and `ImageController` are both given (`imageController.ts:12-17`), every stream is the connected message and then the frames of the JSON of exactly the events the controller emitted since it connected, in order |
| Routes.ConnectThenUpload | src/routes/imageRouter.ts:24-74 | a client that opens `ImageRouter`'s `/events` and then posts to its `/upload` (handled by `ImageController.uploadImage`) is written the connected message and the frames of exactly that upload's events, in the order the tasks emitted them |

## Left out

- Real concurrency: `Promise.all` runs the tasks concurrently, and their events interleave. The model runs the tasks one after another in input order. When several tasks reject, the real request fails with the first rejection in time; the model takes the first in input order.
- Controller.UploadBatchAllOrNothing: says only that the rejection is the error of some failing task, not of the first to fail in time, because timing is not modelled.
- The SFTP client (`src/services/sftpService.ts`): connecting, `fastPut` with 64 chunks in flight of 32768 bytes, and disconnecting. The file is not part of this model. A transfer is its sequence of callbacks and its completion. The controller calls it with `(outputFilePath, originalname, (fileName, progress) => …)`, while the file declares `(file, (transferred, total) => …)`. The model follows the controller's call.
- Process spawning, `cmd.exe`, and the console logging of `runCommands` and of the upscaler's own `runCommands`. Only the joined command string, the chosen `cwd` and how `close` settles are modelled.
- `installDependencies` of the upscaler and of the captioning service: fixed command lists handed to `runCommands`. No file of this model calls them.
- A chunk's `toString()`: stdout and stderr chunks arrive already as text.
- Numbers: `String(Number(text))` of a query value is the uninterpreted argument `number`. The model does not say what it gives (`abc` gives `NaN`, `1e2` gives `100`, ` 7` gives `7`, `0x10` gives `16`); only for a canonical decimal numeral is it the text itself. `parseFloat` of a similarity text is an uninterpreted function argument, so `NaN` comparisons in the sort are not modelled. Sort keys and progress fractions are `real`, not IEEE doubles.
- Strings: a Dafny `char` is one Unicode scalar value (a code point), while JavaScript's `length`, `substring` and indices count UTF-16 code units. A character outside the Basic Multilingual Plane is one element of a model string and two units in JavaScript. So on a caption that ends in such a character, `DropLastTwo` drops two code points where `substring(0, length - 2)` drops two units. For example, the model gives `a` for `ab😀` and JavaScript gives `ab`. The model never cuts a surrogate pair in half. The indices of `JsStrings.IndexOf` and the pieces of `JsStrings.Split` are counted in code points in the same way.
- `JSON.stringify` of a progress event is an uninterpreted payload string.
- `path.join` is modelled as joining with a single `/`, without normalising `..`, `.` or repeated separators. `path.parse` is modelled on a base name: the extension starts at the last dot unless that dot is the first character or the name is `..`. The name is not split at directory separators, and trailing separators are not stripped.
- ImageRouter.StoredUploadPathCollides: its only-if half relies on `PathJoin` not normalising. Node's `path.join` maps `./a.jpg`, `x/../a.jpg` and `a.jpg` under `uploads/` to one path, so distinct original names that normalise alike also collide.
- `Math.random`: its draws are given as a sequence of charset indices. A negative or fractional `length` is not modelled (`length` is a `nat`).
- Helper.GenerateRandomString: requires draws below the charset size, which `Math.floor(Math.random() * 62)` always gives.
- The `unlink` callbacks and their errors: deletion is recorded as the request, and its outcome is ignored, as it is in the code.
- The upload route of `imageRoutes.ts`. It calls a named `uploadImage(req, res, emitter)` import from `imageController.ts`, which exports only the `ImageController` class, whose `uploadImage` emits on its injected emitter and takes `next` as its third argument. So no event of the modelled controller reaches `imageRoutes`' module-level emitter, even though `src/server.ts` mounts `imageRoutes` and not `ImageRouter`. `Routes.SubscribersSeeEmittedEvents` and `Routes.ConnectThenUpload` describe `ImageRouter` only; of `imageRoutes` the model keeps the error forwarding (`Routes.ForwardUploadError`) and the `/events` framing, which is the same.
- The Express and multer plumbing: routing, headers, `res.status` and `res.json`, the random file names of `imageRoutes`' `dest: 'uploads/'` storage, the error-handling middleware (`src/middleware/errorHandling.ts`), the `try`/`catch` that hands an exception in `imageRouter.ts`' `/events` handler to `next(error)` (`imageRoutes.ts` has none), and `src/server.ts`. A query parameter given as an array is not modelled.
- Closing an `/events` connection: the code never removes the listener, so the model keeps writing to every stream that ever connected.
