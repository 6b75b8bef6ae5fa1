/**
 * The main process as an object: the module-level variables of
 * electron/index.ts become fields that the IPC handlers and the process
 * listeners update in place. Every method is proved to move the object to
 * exactly the session the matching step function of `Jobs` computes, so the
 * properties proved about those functions hold of the object too.
 */
module Controller {
  import opened Optional
  import opened Naming
  import Classifier
  import Selection
  import opened Jobs
  import JobProperties

  class MainProcess {
    const platform: Platform
    const modelsPath: string
    /** `childProcesses`: every spawned process, in spawn order. */
    var childProcesses: seq<Child>
    /** What each handler invocation's closures captured, and their flags. */
    var jobs: seq<Job>
    var stopped: bool
    /** Processes with a lower id were registered when STOP came. */
    var cancelledBelow: nat
    /** Everything sent to the renderer, the tool or the file system. */
    var outbox: seq<Action>
    var imagePath: Option<string>
    var folderPath: Option<string>
    var customModelsFolderPath: Option<string>
    var outputFolderPath: Option<string>
    var saveOutputFolder: bool
    var quality: int
    var overwrite: bool

    function State(): Session
      reads this
    {
      Session(platform, modelsPath, childProcesses, jobs, stopped, cancelledBelow, outbox,
              imagePath, folderPath, customModelsFolderPath, outputFolderPath,
              saveOutputFolder, quality, overwrite)
    }

    predicate Valid()
      reads this
    {
      WellFormed(State())
    }

    constructor(platform: Platform, modelsPath: string, prefs: Preferences)
      ensures Valid() && State() == Initial(platform, modelsPath, prefs)
    {
      this.platform := platform;
      this.modelsPath := modelsPath;
      childProcesses := [];
      jobs := [];
      stopped := false;
      cancelledBelow := 0;
      outbox := [];
      imagePath := prefs.imagePath;
      folderPath := prefs.folderPath;
      customModelsFolderPath := prefs.customModelsFolderPath;
      outputFolderPath := prefs.outputFolderPath;
      saveOutputFolder := RememberOutputFolder(prefs.rememberOutputFolder);
      quality := prefs.quality;
      overwrite := false;
    }

    /** SELECT_FILE: remember the first path, accept it when any path is an image. */
    method SelectFile(picked: Option<seq<string>>) returns (r: Option<string>)
      requires Valid()
      modifies this
      ensures Valid()
      ensures State() == PickImage(old(State()), picked).0 && r == PickImage(old(State()), picked).1
    {
      if picked.None? {
        return None;
      }
      var paths := picked.value;
      imagePath := First(paths);
      var isValid := Selection.AnyImage(paths);
      if !isValid {
        return None;
      }
      r := Some(paths[0]);
    }

    /** SELECT_FOLDER. */
    method SelectFolder(picked: Option<seq<string>>) returns (r: Option<string>)
      requires Valid()
      modifies this
      ensures Valid()
      ensures State() == PickFolder(old(State()), picked).0 && r == PickFolder(old(State()), picked).1
    {
      if picked.None? {
        return None;
      }
      folderPath := First(picked.value);
      r := First(picked.value);
    }

    /** SELECT_CUSTOM_MODEL_FOLDER; `listing` is the folder's file list. */
    method SelectCustomModelsFolder(picked: Option<seq<string>>, listing: seq<string>) returns (r: Option<string>)
      requires Valid()
      modifies this
      ensures Valid()
      ensures State() == PickModelsFolder(old(State()), picked, listing).0
      ensures r == PickModelsFolder(old(State()), picked, listing).1
    {
      if picked.None? {
        return None;
      }
      var paths := picked.value;
      customModelsFolderPath := First(paths);
      if paths == [] || !Selection.IsModelsFolder(paths[0], Slash(platform)) {
        return None;
      }
      var models := Selection.GetModels(listing);
      outbox := outbox + [ModelsListed(models)];
      r := Some(paths[0]);
    }

    /** GET_MODELS_LIST. */
    method RequestModelsList(payload: Option<string>, listing: seq<string>)
      requires Valid()
      modifies this
      ensures Valid()
      ensures State() == ListModels(old(State()), payload, listing)
    {
      if Truthy(payload) {
        customModelsFolderPath := payload;
        var models := Selection.GetModels(listing);
        outbox := outbox + [ModelsListed(models)];
      }
    }

    /** Spawn, register, clear `stopped`: the tail of every upscale handler. */
    method Launch(job: Job, args: SpawnArgs)
      requires Valid()
      modifies this
      ensures Valid()
      ensures State() == Spawn(old(State()), job, args)
    {
      ghost var s0 := State();
      var pid := |childProcesses|;
      childProcesses := childProcesses + [Child(|jobs|, FirstPass)];
      jobs := jobs + [job.(first := pid, failed := false, isAlpha := false, failed2 := false)];
      outbox := outbox + [Spawned(pid, args)];
      stopped := false;
      JobProperties.SpawnWellFormed(s0, job, args);
    }

    /** UPSCAYL; `disk` is the set of files that exist. */
    method Upscayl(r: ImageRequest, disk: set<string>)
      requires Valid()
      modifies this
      ensures Valid()
      ensures State() == UpscaleImage(old(State()), r, disk)
    {
      ghost var s0 := State();
      overwrite := r.overwrite;
      var inputDir := InputDirOf(r.imagePath);
      if inputDir.None? {
        return;
      }
      var outputDir := SingleOutputDir(saveOutputFolder, outputFolderPath, folderPath, r.outputPath);
      var outFile := SingleOutFile(outputDir, Slash(platform), Stem(FileNameOf(r.imagePath)), r.scale, r.model, r.saveImageAs);
      assert outFile == ImageOutFile(s0, r);
      if outFile in disk && !overwrite {
        outbox := outbox + [Done(SingleImage, outFile)];
        return;
      }
      var modelsDir := ModelsDir(r.model, customModelsFolderPath, modelsPath);
      var scale := ScaleOf(r.model);
      Launch(Job(SingleImage, 0, outFile, inputDir.value, r.model, r.gpuId, r.saveImageAs, scale, r.scale, false, false, false),
             SingleArgs(inputDir.value, FileNameOf(r.imagePath), outFile, modelsDir, r.model, scale, r.gpuId, r.saveImageAs));
    }

    /** FOLDER_UPSCAYL. */
    method FolderUpscayl(r: FolderRequest)
      requires Valid()
      modifies this
      ensures Valid()
      ensures State() == UpscaleFolder(old(State()), r)
    {
      var outputDir := BatchOutputDir(RequestOutputDir(saveOutputFolder, outputFolderPath, r.outputPath), r.model, r.scale);
      var modelsDir := ModelsDir(r.model, customModelsFolderPath, modelsPath);
      var scale := ScaleOf(r.model);
      Launch(Job(Folder, 0, outputDir, r.batchFolderPath, r.model, r.gpuId, r.saveImageAs, scale, r.scale, false, false, false),
             BatchArgs(r.batchFolderPath, outputDir, modelsDir, r.model, r.gpuId, "png", scale));
    }

    /** DOUBLE_UPSCAYL: starts the first pass. */
    method DoubleUpscayl(r: ImageRequest)
      requires Valid()
      modifies this
      ensures Valid()
      ensures State() == UpscaleDouble(old(State()), r)
    {
      var inputDir := InputDirOf(r.imagePath);
      if inputDir.None? {
        return;
      }
      var fullFileName := LastSegment(r.imagePath, Slash(platform));
      var outputDir := RequestOutputDir(saveOutputFolder, outputFolderPath, r.outputPath);
      var outFile := DoubleOutFile(outputDir, Slash(platform), Stem(fullFileName), r.model, r.saveImageAs);
      var modelsDir := ModelsDir(r.model, customModelsFolderPath, modelsPath);
      var scale := ScaleOf(r.model);
      Launch(Job(DoubleImage, 0, outFile, inputDir.value, r.model, r.gpuId, r.saveImageAs, scale, r.scale, false, false, false),
             DoubleArgs(inputDir.value, fullFileName, outFile, modelsDir, r.model, r.gpuId, r.saveImageAs, scale));
    }

    /** Forward `text`, kill `pid` on failure, store the job's new flags. */
    method Record(job: nat, pid: nat, channel: JobKind, text: string, fail: bool, updated: Job)
      requires job < |jobs|
      modifies this
      ensures State() == Report(old(State()), job, pid, channel, text, fail, updated)
    {
      outbox := outbox + [Progress(channel, text)];
      if fail {
        outbox := outbox + [Killed(pid)];
      }
      jobs := jobs[job := updated];
    }

    /** A chunk on the stderr of process `pid`. */
    method OnData(pid: nat, chunk: string)
      requires Valid()
      modifies this
      ensures Valid()
      ensures State() == Jobs.OnData(old(State()), pid, chunk)
    {
      ghost var s0 := State();
      if pid >= |childProcesses| {
        return;
      }
      var c := childProcesses[pid];
      var j := jobs[c.job];
      if c.pass == SecondPass {
        var fail := Classifier.SecondPassFailure(chunk);
        Record(c.job, pid, DoubleImage, chunk, fail, j.(failed2 := j.failed2 || fail));
      } else if j.kind == Folder {
        var fail := Classifier.FolderFailure(chunk);
        Record(c.job, pid, Folder, chunk, fail, j.(failed := j.failed || fail));
      } else {
        var sig := Classifier.ImageSignals(chunk);
        Record(c.job, pid, j.kind, chunk, sig.failure, j.(failed := j.failed || sig.failure, isAlpha := j.isAlpha || sig.alpha));
      }
      JobProperties.OnDataWellFormed(s0, pid, chunk);
    }

    /** A first pass's `onError`: report, mark failed, kill its process. */
    method Fail(job: nat, pid: nat, message: string)
      requires Valid() && job < |jobs|
      modifies this
      ensures Valid()
      ensures State() == FailJob(old(State()), job, pid, message)
    {
      ghost var s0 := State();
      outbox := outbox + [Progress(jobs[job].kind, message), Killed(pid)];
      jobs := jobs[job := jobs[job].(failed := true)];
      JobProperties.FailJobWellFormed(s0, job, pid, message);
    }

    /** An "error" event of process `pid`. */
    method OnError(pid: nat, message: string)
      requires Valid()
      modifies this
      ensures Valid()
      ensures State() == Jobs.OnError(old(State()), pid, message)
    {
      ghost var s0 := State();
      if pid >= |childProcesses| {
        return;
      }
      var c := childProcesses[pid];
      if c.pass == SecondPass {
        outbox := outbox + [Progress(DoubleImage, message), Killed(pid)];
        jobs := jobs[c.job := jobs[c.job].(failed2 := true)];
        JobProperties.OnErrorWellFormed(s0, pid, message);
      } else {
        Fail(c.job, pid, message);
      }
    }

    /** An image job's post-processing after a clean exit. */
    method FinishImage(job: nat, errorPid: nat, post: PostOutcome)
      requires Valid() && job < |jobs|
      modifies this
      ensures Valid()
      ensures State() == Finish(old(State()), job, errorPid, post)
    {
      var j := jobs[job];
      var path := Produced(j.target, j.isAlpha);
      match post
      case Rewritten =>
        outbox := outbox + [Converted(path, path, JpegQuality(quality), j.factor), Done(j.kind, path)];
      case OriginalUnreadable =>
      case ConversionFailed(error) =>
        Fail(job, errorPid, error);
    }

    /** A "close" event of process `pid`; a process STOP killed closes as in
        a stopped run. */
    method OnClose(pid: nat, post: PostOutcome, listing: seq<string>, readable: set<string>)
      requires Valid()
      modifies this
      ensures Valid()
      ensures State() == Jobs.CancellableClose(old(State()), pid, post, listing, readable)
    {
      ghost var s0 := State();
      if pid >= |childProcesses| {
        return;
      }
      var c := childProcesses[pid];
      var j := jobs[c.job];
      if pid < cancelledBelow {
        JobProperties.CancelledCloseEffect(s0, pid, post, listing, readable);
        if c.pass == FirstPass && j.kind == Folder {
          outbox := outbox + [Killed(pid)];
        }
        return;
      }
      if c.pass == SecondPass {
        if !j.failed2 && !stopped {
          FinishImage(c.job, j.first, post);
        }
      } else if j.kind == SingleImage {
        if !j.failed && !stopped {
          FinishImage(c.job, pid, post);
        }
      } else if j.kind == Folder {
        if !j.failed && !stopped {
          var conversions := ConvertFolder(Batch(j.inputDir, j.target, Slash(platform), j.saveImageAs, quality, j.factor),
                                            listing, readable);
          outbox := outbox + conversions + [Done(Folder, j.target)];
        } else {
          outbox := outbox + [Killed(pid)];
        }
      } else if !j.failed && !stopped {
        var pid2 := |childProcesses|;
        childProcesses := childProcesses + [Child(c.job, SecondPass)];
        outbox := outbox + [Spawned(pid2, SecondArgs(j, ModelsDir(j.model, customModelsFolderPath, modelsPath)))];
        JobProperties.OnCloseWellFormed(s0, pid, post, listing, readable);
      }
    }

    /** STOP: raise `stopped`, cancel every registered process, then kill
        each in turn. */
    method Stop()
      requires Valid()
      modifies this
      ensures Valid()
      ensures State() == Jobs.Stop(old(State()))
    {
      stopped := true;
      cancelledBelow := |childProcesses|;
      var i := 0;
      while i < |childProcesses|
        invariant 0 <= i <= |childProcesses|
        invariant State() == old(State()).(stopped := true, cancelledBelow := |childProcesses|,
                                           actions := old(outbox) + KillAll(i))
      {
        outbox := outbox + [Killed(i)];
        i := i + 1;
      }
    }
  }

  /** The batch post-processing, file by file: when both of a file's reads
      succeed, the png the tool wrote for it is rewritten under the file's
      name and, unless png was asked for, removed. */
  method ConvertFolder(b: Batch, files: seq<string>, readable: set<string>) returns (acts: seq<Action>)
    ensures acts == FolderConversions(b, files, readable)
  {
    ghost var pngs := PngNames(files);
    acts := [];
    var i := 0;
    while i < |files|
      invariant 0 <= i <= |files|
      invariant acts == ConversionsUpTo(b, files, pngs, readable, i)
    {
      var png := PngNameFor(files[i]);
      var original := b.inputDir + [b.slash] + files[i];
      var produced := b.outputDir + [b.slash] + png;
      var step: seq<Action> := [];
      if original in readable && produced in readable {
        step := [Converted(produced, b.outputDir + [b.slash] + files[i], JpegQuality(b.quality), b.factor)];
        if b.saveImageAs != "png" {
          step := step + [Deleted(produced)];
        }
      }
      assert pngs[i] == png;
      assert step == Conversion(b, files[i], png, readable);
      JobProperties.ConversionsStep(b, files, pngs, readable, i);
      acts := acts + step;
      i := i + 1;
    }
  }
}
