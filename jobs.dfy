/**
 * The job controller of electron/index.ts as a pure state machine. A
 * `Session` holds the module-level state (the `childProcesses` registry,
 * the `stopped` flag, the remembered paths and preferences) together with
 * the flags each job's closures capture (`failed`, `isAlpha`, `failed2`),
 * and a log of everything sent out: spawns, kills, progress and done
 * notifications, image rewrites. Each IPC handler and each process event
 * is one function from session to session.
 */
module Jobs {
  import opened Optional
  import opened Strings
  import opened Naming
  import Classifier
  import Selection

  /** Which handler started a job; it also names the channels the job reports on. */
  datatype JobKind = SingleImage | Folder | DoubleImage

  datatype Pass = FirstPass | SecondPass

  /** An entry of `childProcesses`: the job whose closures listen to the
      process and which pass it runs. Its index in the registry is its id. */
  datatype Child = Child(job: nat, pass: Pass)

  /** The arguments handed to the argument builders, one shape per builder. */
  datatype SpawnArgs =
    | SingleArgs(inputDir: string, fileName: string, outFile: string, modelsDir: string,
                 model: string, scale: string, gpuId: string, saveImageAs: string)
    | BatchArgs(inputDir: string, outputDir: string, modelsDir: string, model: string,
                gpuId: string, format: string, scale: string)
    | DoubleArgs(inputDir: string, fileName: string, outFile: string, modelsDir: string,
                 model: string, gpuId: string, saveImageAs: string, scale: string)
    | DoubleSecondArgs(isAlpha: bool, outFile: string, modelsDir: string, model: string,
                       gpuId: string, saveImageAs: string, scale: string)

  /** What the main process does to the outside world. */
  datatype Action =
    | Spawned(pid: nat, args: SpawnArgs)
    | Killed(pid: nat)
    | Progress(channel: JobKind, text: string)
    | Done(channel: JobKind, path: string)
    | Converted(source: string, target: string, quality: int, factor: nat)
    | Deleted(path: string)
    | ModelsListed(models: Option<seq<string>>)

  /** One dispatched job: what its closures captured, and its flags. `target`
      is the output file of an image job and the output folder of a batch;
      `inputDir` is the folder the input came from. */
  datatype Job = Job(
    kind: JobKind, first: nat, target: string, inputDir: string, model: string,
    gpuId: string, saveImageAs: string, scale: string, factor: nat,
    failed: bool, isAlpha: bool, failed2: bool)

  /** How the image library's read, resize and write went after a clean exit. */
  datatype PostOutcome =
    | Rewritten
    | OriginalUnreadable          // rejected outside any try: nothing follows
    | ConversionFailed(error: string)   // caught: the job's onError runs

  /** The UPSCAYL and DOUBLE_UPSCAYL payloads (DOUBLE_UPSCAYL ignores `overwrite`). */
  datatype ImageRequest = ImageRequest(
    imagePath: string, outputPath: string, model: string, gpuId: string,
    saveImageAs: string, scale: nat, overwrite: bool)

  /** The FOLDER_UPSCAYL payload. */
  datatype FolderRequest = FolderRequest(
    batchFolderPath: string, outputPath: string, model: string, gpuId: string,
    saveImageAs: string, scale: nat)

  /** The values the startup reads of local storage leave behind;
      `rememberOutputFolder` is the stored item as local storage returns it,
      a string or nothing. */
  datatype Preferences = Preferences(
    imagePath: Option<string>, folderPath: Option<string>, customModelsFolderPath: Option<string>,
    outputFolderPath: Option<string>, rememberOutputFolder: Option<string>, quality: int)

  /** A value of the JavaScript variable `saveOutputFolder`. */
  datatype JsValue = JsBool(b: bool) | JsString(text: string)

  /** `saveOutputFolder` as the startup read leaves it: its initial `false`
      when nothing is stored, otherwise the stored item itself, a string. */
  function StoredSaveOutputFolder(stored: Option<string>): JsValue {
    match stored
    case None => JsBool(false)
    case Some(text) => JsString(text)
  }

  /** `saveOutputFolder === true` as the handlers test it. */
  predicate StrictlyTrue(v: JsValue) {
    v == JsBool(true)
  }

  /** The evidently intended reading of the stored item: the preference is
      on exactly when the item reads "true". */
  function RememberOutputFolder(stored: Option<string>): bool {
    stored == Some("true")
  }

  /** `cancelledBelow` is not in the handlers: every process whose id is
      below it was registered when STOP came, and its close is handled as
      a stopped one (see `CancellableClose`). `overwrite` only mirrors the
      module variable UPSCAYL writes; no handler reads it back. */
  datatype Session = Session(
    platform: Platform, modelsPath: string,
    children: seq<Child>, jobs: seq<Job>, stopped: bool, cancelledBelow: nat, actions: seq<Action>,
    imagePath: Option<string>, folderPath: Option<string>, customModelsFolderPath: Option<string>,
    outputFolderPath: Option<string>, saveOutputFolder: bool, quality: int, overwrite: bool)

  function Initial(platform: Platform, modelsPath: string, prefs: Preferences): Session {
    Session(platform, modelsPath, [], [], false, 0, [],
            prefs.imagePath, prefs.folderPath, prefs.customModelsFolderPath,
            prefs.outputFolderPath, RememberOutputFolder(prefs.rememberOutputFolder), prefs.quality, false)
  }

  /** Every child belongs to a job, second passes only to double-pass jobs,
      and every job's first process is registered as its first pass. */
  predicate WellFormed(s: Session) {
    && (forall pid :: 0 <= pid < |s.children| ==>
          s.children[pid].job < |s.jobs| &&
          (s.children[pid].pass == SecondPass ==> s.jobs[s.children[pid].job].kind == DoubleImage))
    && (forall j :: 0 <= j < |s.jobs| ==>
          s.jobs[j].first < |s.children| && s.children[s.jobs[j].first] == Child(j, FirstPass))
  }

  // ------------------------------------------------------------ dispatch

  /** Spawn, push onto `childProcesses`, then reset `stopped`: the common
      tail of the three upscale handlers. */
  function Spawn(s: Session, job: Job, args: SpawnArgs): Session {
    var pid := |s.children|;
    s.(children := s.children + [Child(|s.jobs|, FirstPass)],
       jobs := s.jobs + [job.(first := pid, failed := false, isAlpha := false, failed2 := false)],
       actions := s.actions + [Spawned(pid, args)],
       stopped := false)
  }

  /** The output file UPSCAYL computes for a request. */
  function ImageOutFile(s: Session, r: ImageRequest): string {
    SingleOutFile(SingleOutputDir(s.saveOutputFolder, s.outputFolderPath, s.folderPath, r.outputPath),
                  Slash(s.platform), Stem(FileNameOf(r.imagePath)), r.scale, r.model, r.saveImageAs)
  }

  /** The UPSCAYL handler; `disk` is the set of files that exist. */
  function UpscaleImage(s: Session, r: ImageRequest, disk: set<string>): Session {
    var s1 := s.(overwrite := r.overwrite);
    match InputDirOf(r.imagePath)
    case None => s1
    case Some(inputDir) =>
      var outFile := ImageOutFile(s, r);
      if outFile in disk && !r.overwrite then
        s1.(actions := s1.actions + [Done(SingleImage, outFile)])
      else
        var modelsDir := ModelsDir(r.model, s.customModelsFolderPath, s.modelsPath);
        var scale := ScaleOf(r.model);
        Spawn(s1, Job(SingleImage, 0, outFile, inputDir, r.model, r.gpuId, r.saveImageAs, scale, r.scale, false, false, false),
              SingleArgs(inputDir, FileNameOf(r.imagePath), outFile, modelsDir, r.model, scale, r.gpuId, r.saveImageAs))
  }

  /** The FOLDER_UPSCAYL handler. */
  function UpscaleFolder(s: Session, r: FolderRequest): Session {
    var outputDir := BatchOutputDir(RequestOutputDir(s.saveOutputFolder, s.outputFolderPath, r.outputPath), r.model, r.scale);
    var modelsDir := ModelsDir(r.model, s.customModelsFolderPath, s.modelsPath);
    var scale := ScaleOf(r.model);
    Spawn(s, Job(Folder, 0, outputDir, r.batchFolderPath, r.model, r.gpuId, r.saveImageAs, scale, r.scale, false, false, false),
          BatchArgs(r.batchFolderPath, outputDir, modelsDir, r.model, r.gpuId, "png", scale))
  }

  /** The output file DOUBLE_UPSCAYL computes for a request. */
  function DoubleOutFileFor(s: Session, r: ImageRequest): string {
    DoubleOutFile(RequestOutputDir(s.saveOutputFolder, s.outputFolderPath, r.outputPath),
                  Slash(s.platform), Stem(LastSegment(r.imagePath, Slash(s.platform))), r.model, r.saveImageAs)
  }

  /** The DOUBLE_UPSCAYL handler: spawns the first pass. */
  function UpscaleDouble(s: Session, r: ImageRequest): Session {
    match InputDirOf(r.imagePath)
    case None => s
    case Some(inputDir) =>
      var outFile := DoubleOutFileFor(s, r);
      var modelsDir := ModelsDir(r.model, s.customModelsFolderPath, s.modelsPath);
      var scale := ScaleOf(r.model);
      Spawn(s, Job(DoubleImage, 0, outFile, inputDir, r.model, r.gpuId, r.saveImageAs, scale, r.scale, false, false, false),
            DoubleArgs(inputDir, LastSegment(r.imagePath, Slash(s.platform)), outFile, modelsDir, r.model, r.gpuId, r.saveImageAs, scale))
  }

  // ------------------------------------------------------ process events

  /** The event comes from a registered process whose job exists. */
  predicate Live(s: Session, pid: nat) {
    pid < |s.children| && s.children[pid].job < |s.jobs|
  }

  /** Forward `text` on `channel`, kill process `pid` when `fail`, and
      record the job's updated flags. */
  function Report(s: Session, job: nat, pid: nat, channel: JobKind, text: string, fail: bool, updated: Job): Session
    requires job < |s.jobs|
  {
    s.(actions := s.actions + [Progress(channel, text)] + (if fail then [Killed(pid)] else []),
       jobs := s.jobs[job := updated])
  }

  /** A chunk on a process's stderr. */
  function OnData(s: Session, pid: nat, chunk: string): Session {
    if !Live(s, pid) then s
    else
      var c := s.children[pid];
      var j := s.jobs[c.job];
      if c.pass == SecondPass then
        var fail := Classifier.SecondPassFailure(chunk);
        Report(s, c.job, pid, DoubleImage, chunk, fail, j.(failed2 := j.failed2 || fail))
      else if j.kind == Folder then
        var fail := Classifier.FolderFailure(chunk);
        Report(s, c.job, pid, Folder, chunk, fail, j.(failed := j.failed || fail))
      else
        var sig := Classifier.ImageSignals(chunk);
        Report(s, c.job, pid, j.kind, chunk, sig.failure,
               j.(failed := j.failed || sig.failure, isAlpha := j.isAlpha || sig.alpha))
  }

  /** A first-pass job's `onError`: report, mark failed, kill its process. */
  function FailJob(s: Session, job: nat, pid: nat, message: string): Session
    requires job < |s.jobs|
  {
    s.(actions := s.actions + [Progress(s.jobs[job].kind, message), Killed(pid)],
       jobs := s.jobs[job := s.jobs[job].(failed := true)])
  }

  /** A process's "error" event. */
  function OnError(s: Session, pid: nat, message: string): Session {
    if !Live(s, pid) then s
    else
      var c := s.children[pid];
      var j := s.jobs[c.job];
      if c.pass == SecondPass then
        s.(actions := s.actions + [Progress(DoubleImage, message), Killed(pid)],
           jobs := s.jobs[c.job := j.(failed2 := true)])
      else FailJob(s, c.job, pid, message)
  }

  /** The post-processing of an image job after a clean exit; a failure runs
      the first pass's `onError`, which kills `errorPid`. */
  function Finish(s: Session, job: nat, errorPid: nat, post: PostOutcome): Session
    requires job < |s.jobs|
  {
    var j := s.jobs[job];
    var path := Produced(j.target, j.isAlpha);
    match post
    case Rewritten =>
      s.(actions := s.actions + [Converted(path, path, JpegQuality(s.quality), j.factor), Done(j.kind, path)])
    case OriginalUnreadable => s
    case ConversionFailed(error) => FailJob(s, job, errorPid, error)
  }

  /** The png the external tool leaves for each file of a batch listing. */
  function PngNames(files: seq<string>): seq<string> {
    seq(|files|, i requires 0 <= i < |files| => PngNameFor(files[i]))
  }

  /** What the post-processing of a batch works with: the input and output
      folders, the separator, the requested format, the quality preference
      and the requested scale. */
  datatype Batch = Batch(inputDir: string, outputDir: string, slash: char,
                         saveImageAs: string, quality: int, factor: nat)

  /** Both image reads of a batch file succeed: the original in the input
      folder and the png produced for it in the output folder; `readable`
      is the set of paths the image library can read. */
  predicate ReadsSucceed(b: Batch, file: string, png: string, readable: set<string>) {
    b.inputDir + [b.slash] + file in readable && b.outputDir + [b.slash] + png in readable
  }

  /** The post-processing of one file of a batch: when both reads succeed,
      the png the tool produced is rewritten under the file's own name, then
      removed unless png was asked for; when either read fails, nothing. */
  function Conversion(b: Batch, file: string, png: string, readable: set<string>): seq<Action> {
    if !ReadsSucceed(b, file, png, readable) then []
    else
      var produced := b.outputDir + [b.slash] + png;
      [Converted(produced, b.outputDir + [b.slash] + file, JpegQuality(b.quality), b.factor)]
      + (if b.saveImageAs != "png" then [Deleted(produced)] else [])
  }

  /** The post-processing of the first `n` files of a batch listing, file
      by file in listing order; `pngs[i]` is the png produced for `files[i]`. */
  function ConversionsUpTo(b: Batch, files: seq<string>, pngs: seq<string>, readable: set<string>, n: nat): seq<Action>
    requires n <= |files| == |pngs|
  {
    if n == 0 then []
    else ConversionsUpTo(b, files, pngs, readable, n - 1) + Conversion(b, files[n - 1], pngs[n - 1], readable)
  }

  /** The batch post-processing of the whole input listing. */
  function FolderConversions(b: Batch, files: seq<string>, readable: set<string>): seq<Action> {
    ConversionsUpTo(b, files, PngNames(files), readable, |files|)
  }

  /** The arguments of the second pass: what the first pass captured, and
      the models folder as the session holds it when the first pass closes. */
  function SecondArgs(j: Job, modelsDir: string): SpawnArgs {
    DoubleSecondArgs(j.isAlpha, j.target, modelsDir, j.model, j.gpuId, j.saveImageAs, j.scale)
  }

  /** A process's "close" event; `post` is how an image job's
      post-processing went, `listing` the input folder's files when a batch
      is post-processed, and `readable` the paths the image library reads. */
  function OnClose(s: Session, pid: nat, post: PostOutcome, listing: seq<string>, readable: set<string>): Session {
    if !Live(s, pid) then s
    else
      var c := s.children[pid];
      var j := s.jobs[c.job];
      if c.pass == SecondPass then
        if !j.failed2 && !s.stopped then Finish(s, c.job, j.first, post) else s
      else match j.kind
        case SingleImage =>
          if !j.failed && !s.stopped then Finish(s, c.job, pid, post) else s
        case Folder =>
          if !j.failed && !s.stopped then
            s.(actions := s.actions
                 + FolderConversions(BatchOf(s, j), listing, readable)
                 + [Done(Folder, j.target)])
          else s.(actions := s.actions + [Killed(pid)])
        case DoubleImage =>
          if !j.failed && !s.stopped then
            var pid2 := |s.children|;
            s.(children := s.children + [Child(c.job, SecondPass)],
               actions := s.actions + [Spawned(pid2, SecondArgs(j, ModelsDir(j.model, s.customModelsFolderPath, s.modelsPath)))])
          else s
  }

  /** The batch post-processing of job `j` in session `s`. */
  function BatchOf(s: Session, j: Job): Batch {
    Batch(j.inputDir, j.target, Slash(s.platform), j.saveImageAs, s.quality, j.factor)
  }

  /** Kills of every registry entry, in registry order. */
  function KillAll(n: nat): seq<Action> {
    if n == 0 then [] else KillAll(n - 1) + [Killed(n - 1)]
  }

  /** The STOP handler; it also cancels every process registered so far. */
  function Stop(s: Session): Session {
    s.(stopped := true, cancelledBelow := |s.children|, actions := s.actions + KillAll(|s.children|))
  }

  /** A "close" event as the handlers evidently intend it: the close of a
      process STOP killed is handled as in a stopped run, even when a new
      dispatch has cleared `stopped` since; any other close is `OnClose`. */
  function CancellableClose(s: Session, pid: nat, post: PostOutcome, listing: seq<string>, readable: set<string>): Session {
    if pid < s.cancelledBelow then OnClose(s.(stopped := true), pid, post, listing, readable).(stopped := s.stopped)
    else OnClose(s, pid, post, listing, readable)
  }

  // -------------------------------------------------------- path pickers

  /** SELECT_FILE, given the dialog's answer (`None` when cancelled). */
  function PickImage(s: Session, picked: Option<seq<string>>): (Session, Option<string>) {
    match picked
    case None => (s, None)
    case Some(paths) => (s.(imagePath := First(paths)), Selection.SelectedImage(paths))
  }

  /** SELECT_FOLDER. */
  function PickFolder(s: Session, picked: Option<seq<string>>): (Session, Option<string>) {
    match picked
    case None => (s, None)
    case Some(paths) => (s.(folderPath := First(paths)), First(paths))
  }

  /** SELECT_CUSTOM_MODEL_FOLDER; the folder is remembered before it is checked. */
  function PickModelsFolder(s: Session, picked: Option<seq<string>>, listing: seq<string>): (Session, Option<string>) {
    match picked
    case None => (s, None)
    case Some(paths) =>
      var s1 := s.(customModelsFolderPath := First(paths));
      if paths == [] || !Selection.IsModelsFolder(paths[0], Slash(s.platform)) then (s1, None)
      else (s1.(actions := s1.actions + [ModelsListed(Selection.ModelList(listing))]), Some(paths[0]))
  }

  /** GET_MODELS_LIST. */
  function ListModels(s: Session, payload: Option<string>, listing: seq<string>): Session {
    if Truthy(payload) then
      s.(customModelsFolderPath := payload, actions := s.actions + [ModelsListed(Selection.ModelList(listing))])
    else s
  }

  // ---------------------------------------------------------------- runs

  datatype Event =
    | ChooseImage(picked: Option<seq<string>>)
    | ChooseFolder(picked: Option<seq<string>>)
    | ChooseModelsFolder(picked: Option<seq<string>>, listing: seq<string>)
    | RequestModels(payload: Option<string>, listing: seq<string>)
    | Upscayl(image: ImageRequest, disk: set<string>)
    | FolderUpscayl(folder: FolderRequest)
    | DoubleUpscayl(image: ImageRequest)
    | Stderr(pid: nat, chunk: string)
    | ProcessError(pid: nat, message: string)
    | ProcessClose(pid: nat, post: PostOutcome, listing: seq<string>, readable: set<string>)
    | StopAll

  function Step(s: Session, e: Event): Session {
    match e
    case ChooseImage(picked) => PickImage(s, picked).0
    case ChooseFolder(picked) => PickFolder(s, picked).0
    case ChooseModelsFolder(picked, listing) => PickModelsFolder(s, picked, listing).0
    case RequestModels(payload, listing) => ListModels(s, payload, listing)
    case Upscayl(r, disk) => UpscaleImage(s, r, disk)
    case FolderUpscayl(r) => UpscaleFolder(s, r)
    case DoubleUpscayl(r) => UpscaleDouble(s, r)
    case Stderr(pid, chunk) => OnData(s, pid, chunk)
    case ProcessError(pid, message) => OnError(s, pid, message)
    case ProcessClose(pid, post, listing, readable) => CancellableClose(s, pid, post, listing, readable)
    case StopAll => Stop(s)
  }

  /** The session after the events, in order. */
  function Run(s: Session, events: seq<Event>): Session
    decreases |events|
  {
    if events == [] then s else Run(Step(s, events[0]), events[1..])
  }
}
