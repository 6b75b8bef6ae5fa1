# Upscayl main process: naming rules and job control

This project models the core of `electron/index.ts`, the Electron main
process of Upscayl. The renderer sends it IPC requests. It answers by
spawning the external upscaler (`realesrgan`), reading what the tool prints
on stderr and post-processing what the tool wrote.

The model covers:

- **Naming and validation** (`Naming`, `Selection`, `RegExp`):
  - `escapeRegExp`;
  - the default model list and `getModels`;
  - the image-extension whitelist of SELECT_FILE and the "models" folder
    check of SELECT_CUSTOM_MODEL_FOLDER;
  - the scale derived from a model name, and how input paths are split;
  - the single-image, double-pass and batch output names;
  - which output folder wins;
  - the name of the png the tool leaves for a batch file.
- **Stderr classification** (`Classifier`): the three substring rules that
  mark a pass failed or note an alpha channel.
- **Job control** (`Jobs`, `JobProperties`, `Controller`):
  - the `childProcesses` registry and the `stopped` flag;
  - the per-handler `failed`, `isAlpha` and `failed2` flags captured by
    each handler's closures;
  - the state machine driven by the UPSCAYL, FOLDER_UPSCAYL,
    DOUBLE_UPSCAYL and STOP requests and by each process's `data`, `error`
    and `close` events.

`Jobs` states each handler and each listener as a pure step function over a
`Session` value. The module-level variables are `Session` fields. Every
spawned process is a `Child(job, pass)` in `children`, and its index there
is its process id. What a handler's closures captured, with their flags, is
a `Job`. What the handlers send to the renderer, the tool or the file system
is appended to `actions`.

`JobProperties` proves the promises of the controller over these functions:

- the registry and the log only grow, and flags never reset;
- a dispatch registers exactly one process and clears `stopped`;
- STOP kills every registered process;
- once stopped, no process event reports done, starts anything, or
  rewrites or removes a file;
- a new dispatch clears `stopped` for every job, including the ones STOP
  killed (see Findings); in the model, STOP also cancels every process it
  killed, and the close of a cancelled process stays quiet whatever
  follows;
- a close reports done exactly when its pass ran clean, and rewrites or
  removes files only then;
- a second pass starts only after a clean first pass.

`Controller.MainProcess` is the same state as an object. Its fields are
updated in place by one method per handler. Each method is proved to reach
exactly the session the matching step function computes, and to keep the
registry well formed. Its STOP and batch post-processing are loops.

Inputs the code reads from outside become parameters:

- the dialog result becomes `picked`, with `None` for a cancelled dialog;
- `fs.readdirSync` becomes `listing`;
- `fs.existsSync` becomes `disk`;
- the outcome of an image job's Jimp post-processing becomes a
  `PostOutcome`;
- which paths Jimp can read during a batch's post-processing becomes
  `readable`;
- the stored preferences read at start-up become `Preferences`.

The extension check of SELECT_FILE accepts endings written all in lower
case or all in upper case, so `photo.Png` is refused
(`Selection.MixedCaseRefused`).

## Model

| member | source | states |
|---|---|---|
| Strings.LastIndexIn | electron/index.ts:379 | the greedy `(.*)[\/\\]` stops at a separator after which no separator follows; finding none means the path holds no separator |
| Strings.LastIndexInJoin | electron/index.ts:379 | in `dir + sep + name` with a separator-free name, the last separator is the one after `dir` |
| Strings.ParseDecimalOfDecimal | electron/index.ts:486-487 | `parseInt` of the scale written in decimal gives the scale back |
| Strings.DecimalInjective | electron/index.ts:405-406 | two different scales are written differently |
| Naming.Slash | electron/index.ts:57 | the platform separator is one of the two characters the path patterns treat as separators |
| Naming.ScaleOf | electron/index.ts:392-399 | the scale given to the tool is always "2", "3" or "4" |
| Naming.ScaleOfX2 | electron/index.ts:393-394 | every model name containing "x2" scales by 2, whatever else it contains |
| Naming.ScaleOfX3 | electron/index.ts:395-396 | a name containing "x3" and no "x2" scales by 3 |
| Naming.ScaleOfUntagged | electron/index.ts:397-399 | a name in which no 'x' is followed by '2' or '3' scales by 4 |
| Naming.DefaultModelsScaleBy4 | electron/index.ts:183-189 | every one of the five bundled models scales by 4 |
| Naming.ModelsDir | electron/index.ts:434 | a bundled model uses the bundled folder; another model uses the custom folder once one was set, else the bundled one |
| Naming.SplitRebuilds | electron/index.ts:379-388 | a path with a separator is its input folder, that separator and its separator-free file name |
| Naming.SplitOfJoin | electron/index.ts:379-388 | joining a folder and a separator-free name splits back into exactly that folder and name |
| Naming.LastSegmentAgrees | electron/index.ts:652 | DOUBLE_UPSCAYL's `split(slash)` and UPSCAYL's regex take the same file name when only the platform separator occurs |
| Naming.StemOfExtended | electron/index.ts:389 | `parse(name).name` of `base.ext` is `base` for a dot-free extension |
| Naming.StemOfPhoto | electron/index.ts:389 | the stem of "photo.png" is "photo" |
| Naming.Produced | electron/index.ts:478-479 | the produced path starts with the output file and is longer exactly when an alpha channel was reported |
| Naming.SingleOutFileSplits | electron/index.ts:401-410 | the single-image output splits back into the output folder and the tagged name, whose stem runs up to the extension |
| Naming.SingleOutFileDistinguishesScale | electron/index.ts:401-410 | two requested scales never name the same single-image output |
| Naming.SingleOutFileExample | electron/index.ts:401-410 | photo.png with model ultrasharp, scale 4 and folder /out becomes /out/photo_upscayl_4x_ultrasharp.png |
| Naming.BatchOutputDirDistinguishesScale | electron/index.ts:541 | two requested scales never name the same batch output folder |
| Naming.OutputDirPriority | electron/index.ts:380-384 | the remembered folder wins for every kind of job when the preference is on; otherwise a batch or double job uses the request's folder, and a single image the last batch folder when there is one |
| Naming.JpegQuality | electron/index.ts:484 | the library's quality is within 0 to 100 exactly when the stored preference is |
| Naming.PngNameForReplacesExtension | electron/index.ts:609 | the png the tool writes for `base.ext` is `base.png`, for an extension of any length |
| Naming.SwapToPngAgreesOnThreeLetterExtensions | electron/index.ts:609 | cutting three characters finds that png for every three-letter extension |
| Naming.SwapToPngMissesJpeg | electron/index.ts:609 | cutting three characters turns "photo.jpeg" into "photo.jpng", not "photo.png" |
| RegExp.EscapeRegExp | electron/index.ts:41-43 | escaping never shortens a string |
| RegExp.EscapeMatchesItself | electron/index.ts:41-43 | the escaped string is a pattern of literal atoms that matches exactly the original string |
| RegExp.EscapePlain | electron/index.ts:41-43 | a string without metacharacters is left unchanged |
| Classifier.InvalidDoesNotFailSecondPass | electron/index.ts:777 | a chunk with "invalid" but neither "invalid gpu" nor "failed" does not fail the second pass of a double upscale, though it fails a batch |
| Classifier.FolderFailureIsBroader | electron/index.ts:581 | every chunk that fails an image pass fails a batch |
| Classifier.InvalidFilesFailOnlyFolders | electron/index.ts:581 | a chunk with "invalid" but neither "invalid gpu" nor "failed" fails a batch and no image pass |
| Classifier.BothRulesApply | electron/index.ts:455-463 | a chunk carrying both tokens raises both the failure and the alpha flag |
| Classifier.ProgressChunkRaisesNothing | electron/index.ts:455-463 | a bare progress percentage raises no flag |
| Classifier.GpuLoadFailureFails | electron/index.ts:455 | "failed to load gpu" fails the pass |
| Selection.ImagePathByEndings | electron/index.ts:284-293 | the eight `endsWith` tests of the loop body hold exactly when the path has an accepted ending |
| Selection.AnyImage | electron/index.ts:280-296 | `isValid` ends true exactly when some picked path has one of the eight accepted endings |
| Selection.SelectedImage | electron/index.ts:278-312 | SELECT_FILE returns a path exactly when some picked path is an image, and that path is always the first one |
| Selection.MixedCaseRefused | electron/index.ts:284-293 | "photo.Png" is refused |
| Selection.MixedSelectionAccepted | electron/index.ts:278-312 | any first path is returned when a later pick is an image |
| Selection.EndsWithSegment | electron/index.ts:345-348 | for a separator-free last segment, ending in separator + name is the same as the segment being that name |
| Selection.ModelsFolderIffNamedModels | electron/index.ts:345-348 | a folder passes the check exactly when its last segment is "models", with or without a trailing separator |
| Selection.ModelNameOf | electron/index.ts:208 | a non-empty file name never gives an empty model name |
| Selection.ModelNameDropsExtension | electron/index.ts:208 | the model name of `base.ext` is `base` |
| Selection.GetModels | electron/index.ts:194-230 | the loop returns the listing's model list, or null |
| Selection.CollectedNamesOccur | electron/index.ts:199-213 | a name is collected exactly when some file with a model ending has that name |
| Selection.CollectedNamesDistinct | electron/index.ts:209-211 | no model name is collected twice |
| Selection.CollectedInFirstOccurrenceOrder | electron/index.ts:209-211 | names come out in the order of their first model file |
| Selection.ModelListMeaning | electron/index.ts:194-230 | `getModels` is null exactly when no file has a model ending; otherwise the list is non-empty and holds exactly the names of the model files |
| Selection.ReadmeOnlyIsInvalid | electron/index.ts:214-226 | a folder holding only a text file gives null |
| JobProperties.SpawnGrows | electron/index.ts:443 | spawning only appends to the registry and the log |
| JobProperties.FailJobGrows | electron/index.ts:465-471 | `onError` appends exactly the progress message and the kill |
| JobProperties.FinishGrows | electron/index.ts:472-504 | the image post-processing only appends |
| JobProperties.ReportGrows | electron/index.ts:449-464 | `onData` appends the progress message, then the kill exactly on failure |
| JobProperties.OnDataGrows | electron/index.ts:449-464 | every stderr chunk only appends, and flags only turn on |
| JobProperties.OnErrorGrows | electron/index.ts:465-471 | every error event only appends, and flags only turn on |
| JobProperties.CloseImageGrows | electron/index.ts:472-504 | the close of an image pass only appends |
| JobProperties.CloseFolderGrows | electron/index.ts:597-627 | the close of a batch only appends |
| JobProperties.CloseDoubleGrows | electron/index.ts:750-794 | the close of a first double pass only appends |
| JobProperties.OnCloseGrows | electron/index.ts:472-504 | every close only appends |
| JobProperties.UpscaleImageGrows | electron/index.ts:372-510 | UPSCAYL only appends |
| JobProperties.UpscaleFolderGrows | electron/index.ts:513-632 | FOLDER_UPSCAYL only appends |
| JobProperties.UpscaleDoubleGrows | electron/index.ts:635-795 | DOUBLE_UPSCAYL only appends |
| JobProperties.PickGrows | electron/index.ts:249-314 | SELECT_FILE and SELECT_FOLDER keep the registry and the log append-only |
| JobProperties.PickModelsFolderGrows | electron/index.ts:332-369 | SELECT_CUSTOM_MODEL_FOLDER only appends |
| JobProperties.ListModelsGrows | electron/index.ts:317-329 | GET_MODELS_LIST only appends |
| JobProperties.StopGrows | electron/index.ts:239-246 | STOP only appends |
| JobProperties.StepGrows | electron/index.ts:239-795 | every request and process event keeps the registry and log append-only, and never clears a flag |
| JobProperties.RunGrows | electron/index.ts:239-795 | any sequence of events does the same |
| JobProperties.SpawnWellFormed | electron/index.ts:443 | registering a new job's process keeps every process tied to its job |
| JobProperties.FailJobWellFormed | electron/index.ts:465-471 | marking a pass failed keeps the registry well formed |
| JobProperties.AddSecondPassWellFormed | electron/index.ts:768 | registering a double job's second pass keeps the registry well formed |
| JobProperties.OnCloseWellFormed | electron/index.ts:750-794 | every close keeps the registry well formed |
| JobProperties.CancellableCloseWellFormed | electron/index.ts:750-794 | every close, cancelled or not, keeps the registry well formed |
| JobProperties.UpscaleImageWellFormed | electron/index.ts:372-510 | UPSCAYL keeps the registry well formed |
| JobProperties.UpscaleFolderWellFormed | electron/index.ts:513-632 | FOLDER_UPSCAYL keeps the registry well formed |
| JobProperties.UpscaleDoubleWellFormed | electron/index.ts:635-795 | DOUBLE_UPSCAYL keeps the registry well formed |
| JobProperties.OnDataWellFormed | electron/index.ts:449-464 | stderr chunks keep the registry well formed |
| JobProperties.OnErrorWellFormed | electron/index.ts:465-471 | error events keep the registry well formed |
| JobProperties.StepWellFormed | electron/index.ts:239-795 | every request and event keeps every process tied to its job, second passes only to double jobs, and each job's first process registered |
| JobProperties.RunWellFormed | electron/index.ts:239-795 | any sequence of events does the same |
| JobProperties.InitialWellFormed | electron/index.ts:34-54 | the main process starts with no processes, not stopped and well formed |
| JobProperties.UpscaleImageOutcome | electron/index.ts:372-510 | UPSCAYL:<br>• an unsplittable path only sets `overwrite`;<br>• an existing output without overwrite is reported done at once;<br>• otherwise exactly one clean first pass starts and `stopped` is cleared;<br>• the output is named with the requested scale, and the tool runs with the model's scale |
| JobProperties.ImageTargetsSeparateScales | electron/index.ts:401-410 | two UPSCAYL requests differing only in scale never share an output |
| JobProperties.UpscaleFolderOutcome | electron/index.ts:513-632 | FOLDER_UPSCAYL always starts exactly one clean process, writing into the model-and-scale folder and asking the tool for png with the model's scale, and clears `stopped` |
| JobProperties.UpscaleDoubleOutcome | electron/index.ts:635-686 | DOUBLE_UPSCAYL starts exactly one clean first pass when the path splits, and does nothing otherwise |
| JobProperties.DoubleIgnoresRequestedScale | electron/index.ts:653-655 | the double output name and what is spawned do not depend on the requested scale |
| JobProperties.KillAllKillsEach | electron/index.ts:242-245 | the STOP loop kills process 0, 1, … in order, each once |
| JobProperties.StopKillsEveryChild | electron/index.ts:239-246 | STOP raises `stopped`, cancels and kills every registered process once, and touches neither registry nor jobs |
| JobProperties.KillAllQuiet | electron/index.ts:242-245 | the STOP loop neither reports done, spawns, nor rewrites or removes a file |
| JobProperties.ReadIndicesMeaning | electron/index.ts:604-610 | the files a batch converts are, in increasing listing position, exactly those whose original and produced png can both be read |
| JobProperties.PngFolderRewritesEachFile | electron/index.ts:604-621 | a png batch rewrites, in listing order, exactly the listed files whose two reads succeed, from the png the tool produced to the file's own name, and does nothing else |
| JobProperties.OtherFolderRewritesAndRemoves | electron/index.ts:604-621 | any other batch rewrites, in listing order, exactly the listed files whose two reads succeed, removes each one's produced png right after its rewrite, and does nothing else |
| JobProperties.FolderConversionsOnlyFileWork | electron/index.ts:604-621 | the batch post-processing only rewrites and removes files: it neither reports done nor spawns |
| JobProperties.PickEffect | electron/index.ts:249-369 | the pickers leave the registry, the jobs and `stopped` alone, and neither report done, spawn, nor touch a file |
| JobProperties.StoppedDataQuiet | electron/index.ts:449-464 | after STOP a stderr chunk neither reports done, spawns, nor rewrites or removes a file |
| JobProperties.StoppedErrorQuiet | electron/index.ts:465-471 | after STOP an error event neither reports done, spawns, nor rewrites or removes a file |
| JobProperties.StoppedCloseQuiet | electron/index.ts:473 | after STOP a close neither reports done, spawns, nor runs any post-processing: no rewrite and no removal |
| JobProperties.StoppedStopQuiet | electron/index.ts:239-246 | a repeated STOP keeps the session stopped and quiet |
| JobProperties.StoppedStepQuiet | electron/index.ts:239-795 | once stopped, every event but a new dispatch keeps `stopped` and neither reports done, starts a process, nor rewrites or removes a file |
| JobProperties.StoppedRunQuiet | electron/index.ts:239-795 | the same for any run of such events |
| JobProperties.CancelledCloseQuiet | electron/index.ts:239-246 | the close of a process STOP killed neither reports done, spawns, nor rewrites or removes a file, even when `stopped` was cleared since |
| JobProperties.CancelledCloseEffect | electron/index.ts:239-246 | the close of a process STOP killed only kills a batch's process again, and otherwise changes nothing |
| JobProperties.StepMovesMarkOnlyOnStop | electron/index.ts:239-246 | only STOP moves the cancellation mark, and it moves it to the end of the registry |
| JobProperties.RunKeepsCancelled | electron/index.ts:239-246 | no run of events lowers the cancellation mark, and it never passes the end of the registry |
| JobProperties.StopCancelsForGood | electron/index.ts:239-246 | whatever follows a STOP, new dispatches included, the close of a process it killed neither reports done, spawns, nor rewrites or removes a file |
| JobProperties.DispatchReopensStoppedPass | electron/index.ts:445 | as written, after STOP and a new dispatch, the handler's close of a clean image pass STOP killed rewrites its output and reports done; the cancellable close of that process does neither |
| JobProperties.RememberedFolderIgnoredAsWritten | electron/index.ts:154-159 | as written, `saveOutputFolder === true` never holds after the startup read, so the remembered output folder never wins for any job |
| JobProperties.RememberedFolderWinsWhenStored | electron/index.ts:380-384 | read as intended, a stored "true" turns the preference on and the remembered folder, once set, wins for every job; any other stored value leaves it off |
| JobProperties.FinishEffect | electron/index.ts:474-503 | the post-processing appends exactly its rewrite and done report, nothing, or the `onError` path |
| JobProperties.CloseImagePass | electron/index.ts:472-504 | an image close reports done exactly when not stopped, not failed and the post-processing succeeded; the report is last and names the produced file; it rewrites a file only when not stopped and not failed |
| JobProperties.CloseFolderPass | electron/index.ts:597-627 | a batch close reports its folder done exactly when not stopped and not failed, and converts or removes files only then |
| JobProperties.CloseDoubleFirstPass | electron/index.ts:750-794 | the close of a first double pass never reports done |
| JobProperties.CloseReportsOnlyCleanRuns | electron/index.ts:472-504 | every close reports done exactly when its pass ran clean, the run was not stopped, and it is the job's last pass with a successful post-processing; it rewrites or removes a file only when its pass ran clean, the run was not stopped and it is the last pass |
| JobProperties.FirstPassCloseStartsSecond | electron/index.ts:750-768 | a double job's first pass starts the second exactly when it closes clean and not stopped; the second pass carries the first pass's alpha flag, output file, model, GPU id, output format and scale, and uses the models folder worked out from the session at the close |
| JobProperties.CancellableCloseGrows | electron/index.ts:472-504 | every close, cancelled or not, only appends |
| JobProperties.CloseAddsSecondPass | electron/index.ts:750-768 | a close registers a second pass only for a clean double first pass |
| JobProperties.DispatchAddsFirstPass | electron/index.ts:443 | dispatch registers only first passes |
| JobProperties.SecondPassOnlyAfterCleanFirst | electron/index.ts:750-768 | no event but the clean, uncancelled close of a double job's first pass registers a second pass, and that one registers it for the same job |
| JobProperties.SecondPassIgnoresFirstFailure | electron/index.ts:716-718 | the second close's outcome does not depend on the first pass's `failed` flag |
| JobProperties.ReportEffect | electron/index.ts:449-464 | a report appends the progress message and, on failure, the kill; it stores the job's new flags; registry, `stopped`, paths and preferences are unchanged |
| JobProperties.ReportSecondPass | electron/index.ts:770-781 | on a second pass the job becomes itself with `failed2` turned on exactly on failure; no other job, flag or session field changes |
| JobProperties.ReportFirstPass | electron/index.ts:449-464 | on a first pass the job becomes itself with `failed` turned on on failure and `isAlpha` on alpha; no other job, flag or session field changes |
| JobProperties.DataOnSecondPass | electron/index.ts:770-781 | a second-pass chunk is forwarded; the pass is killed and `failed2` set exactly on "invalid gpu" or "failed" |
| JobProperties.DataOnFolder | electron/index.ts:574-586 | a batch chunk is forwarded; the process is killed and `failed` set exactly on "invalid" or "failed" |
| JobProperties.DataOnImage | electron/index.ts:449-464 | an image chunk is forwarded; the process is killed and `failed` set exactly on failure; `isAlpha` is set exactly on "has alpha channel" |
| JobProperties.DataFailureKills | electron/index.ts:449-464 | every stderr chunk is forwarded; the process is killed and its pass failed exactly when the rule for that pass matches; only a first image pass learns alpha |
| JobProperties.ErrorFailsPass | electron/index.ts:465-471 | an error event always forwards the message, kills the process and fails its pass |
| Controller.MainProcess.constructor | electron/index.ts:34-54 | the main process starts with an empty registry, not stopped, with the stored preferences |
| Controller.MainProcess.SelectFile | electron/index.ts:266-314 | SELECT_FILE remembers the first path and answers as `PickImage` does |
| Controller.MainProcess.SelectFolder | electron/index.ts:249-263 | SELECT_FOLDER remembers and returns the first path; a cancelled dialog changes nothing |
| Controller.MainProcess.SelectCustomModelsFolder | electron/index.ts:332-369 | SELECT_CUSTOM_MODEL_FOLDER remembers the folder before checking it, and sends the model list only for a "models" folder |
| Controller.MainProcess.RequestModelsList | electron/index.ts:317-329 | GET_MODELS_LIST with a non-empty folder remembers it and sends its model list |
| Controller.MainProcess.Launch | electron/index.ts:428-447 | spawn, push onto `childProcesses`, clear `stopped`, start the job with clean flags |
| Controller.MainProcess.Upscayl | electron/index.ts:372-510 | UPSCAYL moves the object to `UpscaleImage` of its old state |
| Controller.MainProcess.FolderUpscayl | electron/index.ts:513-632 | FOLDER_UPSCAYL moves the object to `UpscaleFolder` of its old state |
| Controller.MainProcess.DoubleUpscayl | electron/index.ts:635-686 | DOUBLE_UPSCAYL moves the object to `UpscaleDouble` of its old state |
| Controller.MainProcess.Record | electron/index.ts:449-464 | forwards the chunk, kills on failure, stores the new flags |
| Controller.MainProcess.OnData | electron/index.ts:449-464 | a stderr chunk moves the object to `Jobs.OnData` of its old state |
| Controller.MainProcess.Fail | electron/index.ts:465-471 | `onError` forwards the message, marks the pass failed and kills the process |
| Controller.MainProcess.OnError | electron/index.ts:465-471 | an error event moves the object to `Jobs.OnError` of its old state |
| Controller.MainProcess.FinishImage | electron/index.ts:474-503 | the post-processing rewrites and reports the produced file, does nothing when the original is unreadable, and takes the `onError` path on a conversion error |
| Controller.MainProcess.OnClose | electron/index.ts:472-504 | a close moves the object to `Jobs.CancellableClose` of its old state: the handler's close, run as stopped for a process STOP killed |
| Controller.MainProcess.Stop | electron/index.ts:239-246 | the STOP loop raises `stopped`, cancels every registered process and kills each in order |
| Controller.ConvertFolder | electron/index.ts:604-621 | the batch loop produces exactly the specified rewrites and removals, in listing order, skipping a file when either read fails |

## Left out

- The window, the dialogs, the `mainWindow` null checks, the logging and
  `setProgressBar` are left out. Their only effect on the modelled state
  is an early return when the window is gone, and the model assumes the
  window exists.
- The IPC wiring is left out. Each handler is a function or method that
  takes the payload's fields as a request record.
- The stored preferences read asynchronously at start-up become
  constructor parameters. That includes the `length > 0` checks and
  `parseInt` of the stored quality. The "rememberOutputFolder" item is
  read as intended, as a boolean that is on when the item is "true"; as
  written it never turns the preference on (see Findings).
- The asynchronous reload of `overwrite` from storage inside UPSCAYL is
  left out. It resolves after the existence check it would influence.
- `spawnUpscayl` and the argument builders are not modelled beyond the
  arguments handed to them. A spawn is a `Spawned(pid, args)` action.
- `kill` is a `Killed(pid)` action.
- Jimp is not modelled. Its read, resize and write become a `Converted`
  action. Whether the image post-processing succeeds is the
  `PostOutcome` input of the close event. For a batch, the set of paths
  Jimp can read is the `readable` input of the close event.
- Jobs.FolderConversions: the batch close looks for each file's png under
  the corrected name `PngNameFor`, not under `file.slice(0, -3) + "png"`
  as written. So a `.jpeg` or `.webp` input whose png exists is converted
  in the model, while the code as written finds no such png and skips the
  file. A file is skipped in both when either read fails (see Findings).
- Jobs.CancellableClose: a process STOP killed closes as in a stopped
  run even after a new dispatch has cleared `stopped`. As written, its
  close runs the post-processing again once `stopped` is cleared (see
  Findings). Every other close is the handler's own `Jobs.OnClose`.
- The `fs.mkdirSync` of the batch output folder and the deletion of
  `.DS_Store` files before a batch are left out. Neither touches the job
  state.
- FOLDER_UPSCAYL's close sends its done report before the asynchronous
  `forEach` conversions finish. The model orders the conversions before
  the report, and does not capture how they interleave with later events.
- Events are delivered one at a time. Concurrent interleavings are
  represented only as orderings of the event sequence.
- In the regular expressions, `.` does not match line terminators. The
  model treats paths as having none.
- Under Windows, `path.parse` follows win32 rules. `Naming.Stem` follows
  the POSIX rules for a separator-free name.
- Requested scales are natural numbers written in decimal. A non-numeric
  scale from the renderer is not modelled.
- Jobs.PickModelsFolder: a dialog that was not cancelled but returned no
  folder is answered with no folder. The code would throw at
  `folderPaths[0].endsWith`. The dialog never returns an empty list
  unless cancelled.
- OPEN_FOLDER and the auto-updater are left out. They only call
  `shell.openPath` and show a dialog.

## Findings

| source | as written | input that shows it | evidently intended | confidence | as-written member | corrected member |
|---|---|---|---|---|---|---|
| electron/index.ts:609 | the batch post-processing looks for the tool's png as `file.slice(0, -3) + "png"` | a batch input named `photo.jpeg` is looked up as `photo.jpng`, but the tool wrote `photo.png` | the input's name with its last extension replaced by `.png` | high; not executed | Naming.SwapToPng (Naming.SwapToPngMissesJpeg) | Naming.PngNameFor (Naming.PngNameForReplacesExtension, used by Jobs.FolderConversions) |
| electron/index.ts:154-159 | the stored "rememberOutputFolder" item, which local storage returns as a string, is assigned to `saveOutputFolder` as is, and the handlers test `saveOutputFolder === true` | any stored item, such as "true", leaves `saveOutputFolder === true` false, so the remembered output folder is never used | the stored "true" turns the preference on | high; not executed | Jobs.StoredSaveOutputFolder (JobProperties.RememberedFolderIgnoredAsWritten) | Jobs.RememberOutputFolder (JobProperties.RememberedFolderWinsWhenStored, used by Jobs.Initial) |
| electron/index.ts:445 | every dispatch sets the module-wide `stopped = false` (also lines 571 and 684), and each close tests only `!failed && !stopped` | STOP while an image job runs, then a new FOLDER_UPSCAYL before the killed process closes: its close finds `stopped` false, rewrites the output and reports the stopped job done | a job STOP killed is never post-processed nor reported done, whatever is dispatched afterwards | medium; not executed | Jobs.OnClose (JobProperties.DispatchReopensStoppedPass) | Jobs.CancellableClose (JobProperties.StopCancelsForGood, used by Jobs.Step and Controller.MainProcess.OnClose) |
