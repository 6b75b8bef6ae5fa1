/**
 * What the job controller promises, proved over the step functions of
 * `Jobs`: the registry and the log only grow and the per-job flags never
 * reset; dispatch registers exactly one process and clears `stopped`;
 * after STOP no process event finishes or starts anything; a job reports
 * done only when its pass ran clean; a second pass starts only after a
 * clean first pass.
 */
module JobProperties {
  import opened Optional
  import opened Strings
  import opened Naming
  import Classifier
  import Selection
  import opened Jobs

  /** The actions appended going from `s` to `t`. */
  function NewActions(s: Session, t: Session): seq<Action>
    requires |s.actions| <= |t.actions|
  {
    t.actions[|s.actions|..]
  }

  /** A job after some events: the same job, with flags that only turned on. */
  predicate Sticky(a: Job, b: Job) {
    && b == a.(failed := b.failed, isAlpha := b.isAlpha, failed2 := b.failed2)
    && (a.failed ==> b.failed) && (a.isAlpha ==> b.isAlpha) && (a.failed2 ==> b.failed2)
  }

  /** `t` extends `s`: registry and log are append-only, jobs keep what they captured. */
  predicate Grows(s: Session, t: Session) {
    && t.platform == s.platform && t.modelsPath == s.modelsPath
    && |s.children| <= |t.children| && t.children[..|s.children|] == s.children
    && |s.jobs| <= |t.jobs| && (forall j :: 0 <= j < |s.jobs| ==> Sticky(s.jobs[j], t.jobs[j]))
    && |s.actions| <= |t.actions| && t.actions[..|s.actions|] == s.actions
  }

  lemma GrowsTransitive(s: Session, t: Session, u: Session)
    requires Grows(s, t) && Grows(t, u)
    ensures Grows(s, u)
    ensures NewActions(s, u) == NewActions(s, t) + NewActions(t, u)
  {
    assert u.children[..|s.children|] == u.children[..|t.children|][..|s.children|];
    assert u.actions[..|s.actions|] == u.actions[..|t.actions|][..|s.actions|];
    forall j | 0 <= j < |s.jobs| ensures Sticky(s.jobs[j], u.jobs[j]) {
      assert Sticky(t.jobs[j], u.jobs[j]);
    }
  }

  /** Appending to the log, with registry and jobs untouched, is growth,
      and what was appended is what is new. */
  lemma AppendGrows(s: Session, t: Session, extra: seq<Action>)
    requires t.platform == s.platform && t.modelsPath == s.modelsPath
    requires t.children == s.children && t.jobs == s.jobs && t.actions == s.actions + extra
    ensures Grows(s, t) && NewActions(s, t) == extra
  {
  }

  /** Replacing one job by a sticky successor and appending to the log is growth. */
  lemma MarkGrows(s: Session, t: Session, k: nat, b: Job, extra: seq<Action>)
    requires k < |s.jobs| && Sticky(s.jobs[k], b)
    requires t == s.(jobs := s.jobs[k := b], actions := s.actions + extra)
    ensures Grows(s, t) && NewActions(s, t) == extra
  {
    forall i | 0 <= i < |s.jobs| ensures Sticky(s.jobs[i], t.jobs[i]) {
      if i == k {
        assert t.jobs[i] == b;
      } else {
        assert t.jobs[i] == s.jobs[i];
      }
    }
  }

  lemma SpawnGrows(s: Session, job: Job, args: SpawnArgs)
    ensures Grows(s, Spawn(s, job, args))
  {
    var t := Spawn(s, job, args);
    forall i | 0 <= i < |s.jobs| ensures Sticky(s.jobs[i], t.jobs[i]) {
      assert t.jobs[i] == s.jobs[i];
    }
  }

  lemma FailJobGrows(s: Session, job: nat, pid: nat, message: string)
    requires job < |s.jobs|
    ensures Grows(s, FailJob(s, job, pid, message))
    ensures NewActions(s, FailJob(s, job, pid, message)) == [Progress(s.jobs[job].kind, message), Killed(pid)]
  {
    MarkGrows(s, FailJob(s, job, pid, message), job, s.jobs[job].(failed := true),
              [Progress(s.jobs[job].kind, message), Killed(pid)]);
  }

  lemma FinishGrows(s: Session, job: nat, errorPid: nat, post: PostOutcome)
    requires job < |s.jobs|
    ensures Grows(s, Finish(s, job, errorPid, post))
  {
    var j := s.jobs[job];
    var path := Produced(j.target, j.isAlpha);
    match post
    case Rewritten =>
      AppendGrows(s, Finish(s, job, errorPid, post), [Converted(path, path, JpegQuality(s.quality), j.factor), Done(j.kind, path)]);
    case OriginalUnreadable =>
    case ConversionFailed(error) => FailJobGrows(s, job, errorPid, error);
  }

  lemma ReportGrows(s: Session, job: nat, pid: nat, channel: JobKind, text: string, fail: bool, updated: Job)
    requires job < |s.jobs| && Sticky(s.jobs[job], updated)
    ensures var t := Report(s, job, pid, channel, text, fail, updated);
      Grows(s, t) && NewActions(s, t) == [Progress(channel, text)] + (if fail then [Killed(pid)] else [])
  {
    MarkGrows(s, Report(s, job, pid, channel, text, fail, updated), job, updated,
              [Progress(channel, text)] + (if fail then [Killed(pid)] else []));
  }

  lemma OnDataGrows(s: Session, pid: nat, chunk: string)
    ensures Grows(s, OnData(s, pid, chunk))
  {
    if Live(s, pid) {
      var c := s.children[pid];
      var j := s.jobs[c.job];
      if c.pass == SecondPass {
        var fail := Classifier.SecondPassFailure(chunk);
        ReportGrows(s, c.job, pid, DoubleImage, chunk, fail, j.(failed2 := j.failed2 || fail));
      } else if j.kind == Folder {
        var fail := Classifier.FolderFailure(chunk);
        ReportGrows(s, c.job, pid, Folder, chunk, fail, j.(failed := j.failed || fail));
      } else {
        var sig := Classifier.ImageSignals(chunk);
        ReportGrows(s, c.job, pid, j.kind, chunk, sig.failure,
                    j.(failed := j.failed || sig.failure, isAlpha := j.isAlpha || sig.alpha));
      }
    }
  }

  lemma OnErrorGrows(s: Session, pid: nat, message: string)
    ensures Grows(s, OnError(s, pid, message))
  {
    if Live(s, pid) {
      var c := s.children[pid];
      var j := s.jobs[c.job];
      if c.pass == SecondPass {
        MarkGrows(s, OnError(s, pid, message), c.job, j.(failed2 := true), [Progress(DoubleImage, message), Killed(pid)]);
      } else {
        FailJobGrows(s, c.job, pid, message);
      }
    }
  }

  /** Registering a process and appending to the log is growth. */
  lemma AddChildGrows(s: Session, t: Session, child: Child, extra: seq<Action>)
    requires t == s.(children := s.children + [child], actions := s.actions + extra)
    ensures Grows(s, t) && NewActions(s, t) == extra
  {
  }

  lemma CloseImageGrows(s: Session, pid: nat, post: PostOutcome, listing: seq<string>, readable: set<string>)
    requires Live(s, pid)
    requires s.children[pid].pass == SecondPass || s.jobs[s.children[pid].job].kind == SingleImage
    ensures Grows(s, OnClose(s, pid, post, listing, readable))
  {
    var c := s.children[pid];
    var j := s.jobs[c.job];
    var errorPid := if c.pass == SecondPass then j.first else pid;
    if !s.stopped && !PassFailed(s, pid) {
      FinishEffect(s, c.job, errorPid, post);
    }
  }

  lemma CloseFolderGrows(s: Session, pid: nat, post: PostOutcome, listing: seq<string>, readable: set<string>)
    requires Live(s, pid)
    requires s.children[pid].pass == FirstPass && s.jobs[s.children[pid].job].kind == Folder
    ensures Grows(s, OnClose(s, pid, post, listing, readable))
  {
    var t := OnClose(s, pid, post, listing, readable);
    var j := s.jobs[s.children[pid].job];
    if !s.stopped && !j.failed {
      AppendGrows(s, t, FolderConversions(BatchOf(s, j), listing, readable) + [Done(Folder, j.target)]);
    } else {
      AppendGrows(s, t, [Killed(pid)]);
    }
  }

  lemma CloseDoubleGrows(s: Session, pid: nat, post: PostOutcome, listing: seq<string>, readable: set<string>)
    requires Live(s, pid)
    requires s.children[pid].pass == FirstPass && s.jobs[s.children[pid].job].kind == DoubleImage
    ensures Grows(s, OnClose(s, pid, post, listing, readable))
  {
    var c := s.children[pid];
    var j := s.jobs[c.job];
    if !s.stopped && !j.failed {
      AddChildGrows(s, OnClose(s, pid, post, listing, readable), Child(c.job, SecondPass), [Spawned(|s.children|, SecondArgs(j, ModelsDir(j.model, s.customModelsFolderPath, s.modelsPath)))]);
    }
  }

  lemma OnCloseGrows(s: Session, pid: nat, post: PostOutcome, listing: seq<string>, readable: set<string>)
    ensures Grows(s, OnClose(s, pid, post, listing, readable))
  {
    if Live(s, pid) {
      var c := s.children[pid];
      var j := s.jobs[c.job];
      if c.pass == SecondPass || j.kind == SingleImage {
        CloseImageGrows(s, pid, post, listing, readable);
      } else if j.kind == Folder {
        CloseFolderGrows(s, pid, post, listing, readable);
      } else {
        CloseDoubleGrows(s, pid, post, listing, readable);
      }
    }
  }

  /** The close of a cancelled process only kills a batch's process again;
      anything else is left as it was. */
  lemma CancelledCloseEffect(s: Session, pid: nat, post: PostOutcome, listing: seq<string>, readable: set<string>)
    requires Live(s, pid) && pid < s.cancelledBelow
    ensures CancellableClose(s, pid, post, listing, readable)
         == if s.children[pid].pass == FirstPass && s.jobs[s.children[pid].job].kind == Folder
            then s.(actions := s.actions + [Killed(pid)])
            else s
  {
  }

  lemma CancellableCloseGrows(s: Session, pid: nat, post: PostOutcome, listing: seq<string>, readable: set<string>)
    ensures Grows(s, CancellableClose(s, pid, post, listing, readable))
  {
    if pid < s.cancelledBelow {
      OnCloseGrows(s.(stopped := true), pid, post, listing, readable);
    } else {
      OnCloseGrows(s, pid, post, listing, readable);
    }
  }

  lemma UpscaleImageGrows(s: Session, r: ImageRequest, disk: set<string>)
    ensures Grows(s, UpscaleImage(s, r, disk))
  {
    if InputDirOf(r.imagePath).Some? && (ImageOutFile(s, r) !in disk || r.overwrite) {
      var modelsDir := ModelsDir(r.model, s.customModelsFolderPath, s.modelsPath);
      var scale := ScaleOf(r.model);
      SpawnGrows(s.(overwrite := r.overwrite),
        Job(SingleImage, 0, ImageOutFile(s, r), InputDirOf(r.imagePath).value, r.model, r.gpuId, r.saveImageAs, scale, r.scale, false, false, false),
        SingleArgs(InputDirOf(r.imagePath).value, FileNameOf(r.imagePath), ImageOutFile(s, r), modelsDir, r.model, scale, r.gpuId, r.saveImageAs));
    }
  }

  lemma UpscaleFolderGrows(s: Session, r: FolderRequest)
    ensures Grows(s, UpscaleFolder(s, r))
  {
    var outputDir := BatchOutputDir(RequestOutputDir(s.saveOutputFolder, s.outputFolderPath, r.outputPath), r.model, r.scale);
    var modelsDir := ModelsDir(r.model, s.customModelsFolderPath, s.modelsPath);
    var scale := ScaleOf(r.model);
    SpawnGrows(s, Job(Folder, 0, outputDir, r.batchFolderPath, r.model, r.gpuId, r.saveImageAs, scale, r.scale, false, false, false),
               BatchArgs(r.batchFolderPath, outputDir, modelsDir, r.model, r.gpuId, "png", scale));
  }

  lemma UpscaleDoubleGrows(s: Session, r: ImageRequest)
    ensures Grows(s, UpscaleDouble(s, r))
  {
    if InputDirOf(r.imagePath).Some? {
      var outFile := DoubleOutFileFor(s, r);
      var modelsDir := ModelsDir(r.model, s.customModelsFolderPath, s.modelsPath);
      var scale := ScaleOf(r.model);
      var full := LastSegment(r.imagePath, Slash(s.platform));
      SpawnGrows(s, Job(DoubleImage, 0, outFile, InputDirOf(r.imagePath).value, r.model, r.gpuId, r.saveImageAs, scale, r.scale, false, false, false),
                 DoubleArgs(InputDirOf(r.imagePath).value, full, outFile, modelsDir, r.model, r.gpuId, r.saveImageAs, scale));
    }
  }

  lemma PickGrows(s: Session, e: Event)
    requires e.ChooseImage? || e.ChooseFolder?
    ensures Grows(s, Step(s, e))
  {
    AppendGrows(s, Step(s, e), []);
  }

  lemma PickModelsFolderGrows(s: Session, picked: Option<seq<string>>, listing: seq<string>)
    ensures Grows(s, PickModelsFolder(s, picked, listing).0)
  {
    var t := PickModelsFolder(s, picked, listing).0;
    if t.actions == s.actions {
      AppendGrows(s, t, []);
    } else {
      AppendGrows(s, t, [ModelsListed(Selection.ModelList(listing))]);
    }
  }

  lemma ListModelsGrows(s: Session, payload: Option<string>, listing: seq<string>)
    ensures Grows(s, ListModels(s, payload, listing))
  {
    if Truthy(payload) {
      AppendGrows(s, ListModels(s, payload, listing), [ModelsListed(Selection.ModelList(listing))]);
    }
  }

  lemma StopGrows(s: Session)
    ensures Grows(s, Stop(s))
  {
    AppendGrows(s, Stop(s), KillAll(|s.children|));
  }

  lemma StepGrows(s: Session, e: Event)
    ensures Grows(s, Step(s, e))
  {
    match e
    case ChooseImage(picked) => PickGrows(s, e);
    case ChooseFolder(picked) => PickGrows(s, e);
    case ChooseModelsFolder(picked, listing) => PickModelsFolderGrows(s, picked, listing);
    case RequestModels(payload, listing) => ListModelsGrows(s, payload, listing);
    case Upscayl(r, disk) => UpscaleImageGrows(s, r, disk);
    case FolderUpscayl(r) => UpscaleFolderGrows(s, r);
    case DoubleUpscayl(r) => UpscaleDoubleGrows(s, r);
    case Stderr(pid, chunk) => OnDataGrows(s, pid, chunk);
    case ProcessError(pid, message) => OnErrorGrows(s, pid, message);
    case ProcessClose(pid, post, listing, readable) => CancellableCloseGrows(s, pid, post, listing, readable);
    case StopAll => StopGrows(s);
  }

  lemma {:induction false} RunGrows(s: Session, events: seq<Event>)
    ensures Grows(s, Run(s, events))
    decreases |events|
  {
    if events != [] {
      StepGrows(s, events[0]);
      RunGrows(Step(s, events[0]), events[1..]);
      GrowsTransitive(s, Step(s, events[0]), Run(s, events));
    }
  }

  /** Changing a job's flags or the log keeps the registry well formed. */
  lemma MarkWellFormed(s: Session, t: Session, k: nat, b: Job)
    requires WellFormed(s) && k < |s.jobs|
    requires b.kind == s.jobs[k].kind && b.first == s.jobs[k].first
    requires t.children == s.children && t.jobs == s.jobs[k := b]
    ensures WellFormed(t)
  {
  }

  lemma SpawnWellFormed(s: Session, job: Job, args: SpawnArgs)
    requires WellFormed(s)
    ensures WellFormed(Spawn(s, job, args))
  {
    var t := Spawn(s, job, args);
    forall pid | 0 <= pid < |t.children|
      ensures t.children[pid].job < |t.jobs|
      ensures t.children[pid].pass == SecondPass ==> t.jobs[t.children[pid].job].kind == DoubleImage
    {
      if pid < |s.children| {
        assert t.children[pid] == s.children[pid];
        assert t.jobs[s.children[pid].job] == s.jobs[s.children[pid].job];
      }
    }
    forall j | 0 <= j < |t.jobs|
      ensures t.jobs[j].first < |t.children| && t.children[t.jobs[j].first] == Child(j, FirstPass)
    {
      if j < |s.jobs| {
        assert t.jobs[j] == s.jobs[j];
        assert t.children[s.jobs[j].first] == s.children[s.jobs[j].first];
      }
    }
  }

  lemma FailJobWellFormed(s: Session, job: nat, pid: nat, message: string)
    requires WellFormed(s) && job < |s.jobs|
    ensures WellFormed(FailJob(s, job, pid, message))
  {
    MarkWellFormed(s, FailJob(s, job, pid, message), job, s.jobs[job].(failed := true));
  }

  /** Registering a second pass for a double-pass job keeps the registry well formed. */
  lemma AddSecondPassWellFormed(s: Session, t: Session, job: nat, extra: seq<Action>)
    requires WellFormed(s) && job < |s.jobs| && s.jobs[job].kind == DoubleImage
    requires t.children == s.children + [Child(job, SecondPass)] && t.jobs == s.jobs
    ensures WellFormed(t)
  {
    forall p | 0 <= p < |t.children|
      ensures t.children[p].job < |t.jobs|
      ensures t.children[p].pass == SecondPass ==> t.jobs[t.children[p].job].kind == DoubleImage
    {
      if p < |s.children| {
        assert t.children[p] == s.children[p];
      }
    }
    forall k | 0 <= k < |t.jobs|
      ensures t.jobs[k].first < |t.children| && t.children[t.jobs[k].first] == Child(k, FirstPass)
    {
      assert t.children[s.jobs[k].first] == s.children[s.jobs[k].first];
    }
  }

  lemma OnCloseWellFormed(s: Session, pid: nat, post: PostOutcome, listing: seq<string>, readable: set<string>)
    requires WellFormed(s)
    ensures WellFormed(OnClose(s, pid, post, listing, readable))
  {
    var t := OnClose(s, pid, post, listing, readable);
    if Live(s, pid) {
      var c := s.children[pid];
      var j := s.jobs[c.job];
      var errorPid := if c.pass == SecondPass then j.first else pid;
      if c.pass == SecondPass || j.kind == SingleImage {
        if !s.stopped && !PassFailed(s, pid) && post.ConversionFailed? {
          FailJobWellFormed(s, c.job, errorPid, post.error);
        }
      } else if j.kind == DoubleImage && !j.failed && !s.stopped {
        AddSecondPassWellFormed(s, t, c.job, [Spawned(|s.children|, SecondArgs(j, ModelsDir(j.model, s.customModelsFolderPath, s.modelsPath)))]);
      }
    }
  }

  lemma CancellableCloseWellFormed(s: Session, pid: nat, post: PostOutcome, listing: seq<string>, readable: set<string>)
    requires WellFormed(s)
    ensures WellFormed(CancellableClose(s, pid, post, listing, readable))
  {
    if pid < s.cancelledBelow {
      OnCloseWellFormed(s.(stopped := true), pid, post, listing, readable);
    } else {
      OnCloseWellFormed(s, pid, post, listing, readable);
    }
  }

  lemma UpscaleImageWellFormed(s: Session, r: ImageRequest, disk: set<string>)
    requires WellFormed(s)
    ensures WellFormed(UpscaleImage(s, r, disk))
  {
    if InputDirOf(r.imagePath).Some? && (ImageOutFile(s, r) !in disk || r.overwrite) {
      var modelsDir := ModelsDir(r.model, s.customModelsFolderPath, s.modelsPath);
      var scale := ScaleOf(r.model);
      SpawnWellFormed(s.(overwrite := r.overwrite),
        Job(SingleImage, 0, ImageOutFile(s, r), InputDirOf(r.imagePath).value, r.model, r.gpuId, r.saveImageAs, scale, r.scale, false, false, false),
        SingleArgs(InputDirOf(r.imagePath).value, FileNameOf(r.imagePath), ImageOutFile(s, r), modelsDir, r.model, scale, r.gpuId, r.saveImageAs));
    }
  }

  lemma UpscaleFolderWellFormed(s: Session, r: FolderRequest)
    requires WellFormed(s)
    ensures WellFormed(UpscaleFolder(s, r))
  {
    var outputDir := BatchOutputDir(RequestOutputDir(s.saveOutputFolder, s.outputFolderPath, r.outputPath), r.model, r.scale);
    var modelsDir := ModelsDir(r.model, s.customModelsFolderPath, s.modelsPath);
    var scale := ScaleOf(r.model);
    SpawnWellFormed(s, Job(Folder, 0, outputDir, r.batchFolderPath, r.model, r.gpuId, r.saveImageAs, scale, r.scale, false, false, false),
                    BatchArgs(r.batchFolderPath, outputDir, modelsDir, r.model, r.gpuId, "png", scale));
  }

  lemma UpscaleDoubleWellFormed(s: Session, r: ImageRequest)
    requires WellFormed(s)
    ensures WellFormed(UpscaleDouble(s, r))
  {
    if InputDirOf(r.imagePath).Some? {
      var outFile := DoubleOutFileFor(s, r);
      var modelsDir := ModelsDir(r.model, s.customModelsFolderPath, s.modelsPath);
      var scale := ScaleOf(r.model);
      var full := LastSegment(r.imagePath, Slash(s.platform));
      SpawnWellFormed(s, Job(DoubleImage, 0, outFile, InputDirOf(r.imagePath).value, r.model, r.gpuId, r.saveImageAs, scale, r.scale, false, false, false),
                      DoubleArgs(InputDirOf(r.imagePath).value, full, outFile, modelsDir, r.model, r.gpuId, r.saveImageAs, scale));
    }
  }

  lemma OnDataWellFormed(s: Session, pid: nat, chunk: string)
    requires WellFormed(s)
    ensures WellFormed(OnData(s, pid, chunk))
  {
    if Live(s, pid) {
      var c := s.children[pid];
      var j := s.jobs[c.job];
      if c.pass == SecondPass {
        var fail := Classifier.SecondPassFailure(chunk);
        MarkWellFormed(s, OnData(s, pid, chunk), c.job, j.(failed2 := j.failed2 || fail));
      } else if j.kind == Folder {
        var fail := Classifier.FolderFailure(chunk);
        MarkWellFormed(s, OnData(s, pid, chunk), c.job, j.(failed := j.failed || fail));
      } else {
        var sig := Classifier.ImageSignals(chunk);
        MarkWellFormed(s, OnData(s, pid, chunk), c.job, j.(failed := j.failed || sig.failure, isAlpha := j.isAlpha || sig.alpha));
      }
    }
  }

  lemma OnErrorWellFormed(s: Session, pid: nat, message: string)
    requires WellFormed(s)
    ensures WellFormed(OnError(s, pid, message))
  {
    if Live(s, pid) {
      var c := s.children[pid];
      var j := s.jobs[c.job];
      if c.pass == SecondPass {
        MarkWellFormed(s, OnError(s, pid, message), c.job, j.(failed2 := true));
      } else {
        FailJobWellFormed(s, c.job, pid, message);
      }
    }
  }

  /** Only the registry and the jobs matter to well-formedness. */
  lemma SameRegistryWellFormed(s: Session, t: Session)
    requires WellFormed(s) && t.children == s.children && t.jobs == s.jobs
    ensures WellFormed(t)
  {
  }

  lemma StepWellFormed(s: Session, e: Event)
    requires WellFormed(s)
    ensures WellFormed(Step(s, e))
  {
    match e
    case ChooseImage(picked) => PickEffect(s, e); SameRegistryWellFormed(s, Step(s, e));
    case ChooseFolder(picked) => PickEffect(s, e); SameRegistryWellFormed(s, Step(s, e));
    case ChooseModelsFolder(picked, listing) => PickEffect(s, e); SameRegistryWellFormed(s, Step(s, e));
    case RequestModels(payload, listing) => PickEffect(s, e); SameRegistryWellFormed(s, Step(s, e));
    case Upscayl(r, disk) => UpscaleImageWellFormed(s, r, disk);
    case FolderUpscayl(r) => UpscaleFolderWellFormed(s, r);
    case DoubleUpscayl(r) => UpscaleDoubleWellFormed(s, r);
    case Stderr(pid, chunk) => OnDataWellFormed(s, pid, chunk);
    case ProcessError(pid, message) => OnErrorWellFormed(s, pid, message);
    case ProcessClose(pid, post, listing, readable) => CancellableCloseWellFormed(s, pid, post, listing, readable);
    case StopAll => SameRegistryWellFormed(s, Stop(s));
  }

  lemma {:induction false} RunWellFormed(s: Session, events: seq<Event>)
    requires WellFormed(s)
    ensures WellFormed(Run(s, events))
    decreases |events|
  {
    if events != [] {
      StepWellFormed(s, events[0]);
      RunWellFormed(Step(s, events[0]), events[1..]);
    }
  }

  lemma InitialWellFormed(platform: Platform, modelsPath: string, prefs: Preferences)
    ensures WellFormed(Initial(platform, modelsPath, prefs))
    ensures !Initial(platform, modelsPath, prefs).stopped
    ensures Initial(platform, modelsPath, prefs).children == []
  {
  }

  // ------------------------------------------------------------ dispatch

  /** `t` is `s` plus one freshly registered first pass of a new job of the
      given kind and target, with clean flags, and `stopped` cleared. */
  predicate SpawnedOne(s: Session, t: Session, kind: JobKind, target: string) {
    && |t.children| == |s.children| + 1 && t.children[..|s.children|] == s.children
    && t.children[|s.children|] == Child(|s.jobs|, FirstPass)
    && |t.jobs| == |s.jobs| + 1 && t.jobs[..|s.jobs|] == s.jobs
    && t.jobs[|s.jobs|].kind == kind && t.jobs[|s.jobs|].target == target
    && t.jobs[|s.jobs|].first == |s.children|
    && !t.jobs[|s.jobs|].failed && !t.jobs[|s.jobs|].isAlpha && !t.jobs[|s.jobs|].failed2
    && !t.stopped && t.cancelledBelow == s.cancelledBelow
    && |t.actions| == |s.actions| + 1 && t.actions[..|s.actions|] == s.actions
    && t.actions[|s.actions|].Spawned? && t.actions[|s.actions|].pid == |s.children|
  }

  /** UPSCAYL: an unsplittable path does nothing; an existing output without
      overwrite is reported done at once; otherwise one process starts,
      named with the requested scale and run with the model's scale. */
  lemma UpscaleImageOutcome(s: Session, r: ImageRequest, disk: set<string>)
    ensures var t := UpscaleImage(s, r, disk);
      && t.overwrite == r.overwrite
      && (InputDirOf(r.imagePath).None? ==> t == s.(overwrite := r.overwrite))
      && (InputDirOf(r.imagePath).Some? && ImageOutFile(s, r) in disk && !r.overwrite ==>
            t == s.(overwrite := r.overwrite, actions := s.actions + [Done(SingleImage, ImageOutFile(s, r))]))
      && (InputDirOf(r.imagePath).Some? && (ImageOutFile(s, r) !in disk || r.overwrite) ==>
            SpawnedOne(s, t, SingleImage, ImageOutFile(s, r))
            && t.actions[|s.actions|].args.SingleArgs?
            && t.actions[|s.actions|].args.outFile == ImageOutFile(s, r)
            && t.actions[|s.actions|].args.scale == ScaleOf(r.model)
            && t.jobs[|s.jobs|].factor == r.scale)
  {
  }

  /** Two UPSCAYL requests that differ only in scale never share an output file. */
  lemma ImageTargetsSeparateScales(s: Session, r: ImageRequest, k: nat)
    requires k != r.scale
    ensures ImageOutFile(s, r) != ImageOutFile(s, r.(scale := k))
  {
    SingleOutFileDistinguishesScale(
      SingleOutputDir(s.saveOutputFolder, s.outputFolderPath, s.folderPath, r.outputPath),
      Slash(s.platform), Stem(FileNameOf(r.imagePath)), r.scale, k, r.model, r.saveImageAs);
  }

  /** FOLDER_UPSCAYL always starts exactly one process, into a folder named
      after the model and the requested scale. */
  lemma UpscaleFolderOutcome(s: Session, r: FolderRequest)
    ensures var t := UpscaleFolder(s, r);
      var outputDir := BatchOutputDir(RequestOutputDir(s.saveOutputFolder, s.outputFolderPath, r.outputPath), r.model, r.scale);
      && SpawnedOne(s, t, Folder, outputDir)
      && t.actions[|s.actions|].args.BatchArgs?
      && t.actions[|s.actions|].args.outputDir == outputDir
      && t.actions[|s.actions|].args.format == "png"
      && t.actions[|s.actions|].args.scale == ScaleOf(r.model)
  {
  }

  /** DOUBLE_UPSCAYL starts one first pass when the path splits, and nothing otherwise. */
  lemma UpscaleDoubleOutcome(s: Session, r: ImageRequest)
    ensures var t := UpscaleDouble(s, r);
      && (InputDirOf(r.imagePath).None? ==> t == s)
      && (InputDirOf(r.imagePath).Some? ==>
            SpawnedOne(s, t, DoubleImage, DoubleOutFileFor(s, r))
            && t.actions[|s.actions|].args.DoubleArgs?
            && t.jobs[|s.jobs|].factor == r.scale)
  {
  }

  /** The double-pass output name and what is spawned do not depend on the
      requested scale; only the final resize does. */
  lemma DoubleIgnoresRequestedScale(s: Session, r: ImageRequest, k: nat)
    ensures var t1 := UpscaleDouble(s, r);
      var t2 := UpscaleDouble(s, r.(scale := k));
      && t1.children == t2.children && t1.actions == t2.actions && t1.stopped == t2.stopped
      && |t1.jobs| == |t2.jobs|
      && (forall j :: 0 <= j < |t1.jobs| ==> t1.jobs[j].target == t2.jobs[j].target)
  {
  }

  // ----------------------------------------------------------------- STOP

  lemma {:induction false} KillAllKillsEach(n: nat)
    ensures |KillAll(n)| == n
    ensures forall i :: 0 <= i < n ==> KillAll(n)[i] == Killed(i)
  {
    if n > 0 {
      KillAllKillsEach(n - 1);
    }
  }

  /** STOP raises `stopped`, cancels and kills every registered process,
      each once, and touches neither the registry nor any job. */
  lemma StopKillsEveryChild(s: Session)
    ensures var t := Stop(s);
      && Grows(s, t) && t.stopped && t.cancelledBelow == |s.children|
      && t.children == s.children && t.jobs == s.jobs
      && |NewActions(s, t)| == |s.children|
      && (forall pid :: 0 <= pid < |s.children| ==> NewActions(s, t)[pid] == Killed(pid))
  {
    KillAllKillsEach(|s.children|);
  }

  // ------------------------------------------------ batch post-processing

  /** The positions among the first `n` listed files whose two reads
      succeed; see `ReadIndicesMeaning`. */
  function ReadIndices(b: Batch, files: seq<string>, pngs: seq<string>, readable: set<string>, n: nat): seq<nat>
    requires n <= |files| == |pngs|
  {
    if n == 0 then []
    else
      var prev := ReadIndices(b, files, pngs, readable, n - 1);
      if ReadsSucceed(b, files[n - 1], pngs[n - 1], readable) then prev + [n - 1] else prev
  }

  /** `ReadIndices` lists, in increasing order, exactly the positions below
      `n` whose two reads succeed. */
  lemma {:induction false} ReadIndicesMeaning(b: Batch, files: seq<string>, pngs: seq<string>,
                                              readable: set<string>, n: nat)
    requires n <= |files| == |pngs|
    ensures var r := ReadIndices(b, files, pngs, readable, n);
      && (forall k :: 0 <= k < |r| ==> r[k] < n && ReadsSucceed(b, files[r[k]], pngs[r[k]], readable))
      && (forall i :: 0 <= i < n && ReadsSucceed(b, files[i], pngs[i], readable) ==> i in r)
      && (forall k, l :: 0 <= k < l < |r| ==> r[k] < r[l])
  {
    if n > 0 {
      ReadIndicesMeaning(b, files, pngs, readable, n - 1);
    }
  }

  /** The post-processing of the first `n + 1` files is that of the first
      `n` followed by that of file `n`. */
  lemma ConversionsStep(b: Batch, files: seq<string>, pngs: seq<string>, readable: set<string>, n: nat)
    requires n < |files| == |pngs|
    ensures ConversionsUpTo(b, files, pngs, readable, n + 1)
            == ConversionsUpTo(b, files, pngs, readable, n) + Conversion(b, files[n], pngs[n], readable)
  {
  }

  /** The rewrite of the png produced for `file` under the file's own name. */
  function RewriteOf(b: Batch, file: string, png: string): Action {
    Converted(b.outputDir + [b.slash] + png, b.outputDir + [b.slash] + file, JpegQuality(b.quality), b.factor)
  }

  /** `acts` rewrites the files at positions `idx`, in that order, and holds
      nothing else. */
  predicate RewritesEach(b: Batch, files: seq<string>, pngs: seq<string>, acts: seq<Action>, idx: seq<nat>) {
    && |acts| == |idx|
    && forall k :: 0 <= k < |idx| ==>
         idx[k] < |files| && idx[k] < |pngs| && acts[k] == RewriteOf(b, files[idx[k]], pngs[idx[k]])
  }

  lemma RewritesEachExtend(b: Batch, files: seq<string>, pngs: seq<string>,
                           acts: seq<Action>, idx: seq<nat>, i: nat)
    requires RewritesEach(b, files, pngs, acts, idx) && i < |files| && i < |pngs|
    ensures RewritesEach(b, files, pngs, acts + [RewriteOf(b, files[i], pngs[i])], idx + [i])
  {
    var acts2 := acts + [RewriteOf(b, files[i], pngs[i])];
    var idx2 := idx + [i];
    forall k | 0 <= k < |idx2|
      ensures idx2[k] < |files| && idx2[k] < |pngs| && acts2[k] == RewriteOf(b, files[idx2[k]], pngs[idx2[k]])
    {
      if k < |idx| {
        assert idx2[k] == idx[k] && acts2[k] == acts[k];
      }
    }
  }

  /** A png batch rewrites exactly those of the first `n` listed files whose
      reads succeed, in listing order, and does nothing else. */
  lemma {:induction false} PngFolderRewritesEachFile(b: Batch, files: seq<string>, pngs: seq<string>,
                                                     readable: set<string>, n: nat)
    requires n <= |files| == |pngs| && b.saveImageAs == "png"
    ensures RewritesEach(b, files, pngs, ConversionsUpTo(b, files, pngs, readable, n),
                         ReadIndices(b, files, pngs, readable, n))
  {
    if n > 0 {
      PngFolderRewritesEachFile(b, files, pngs, readable, n - 1);
      var prev := ConversionsUpTo(b, files, pngs, readable, n - 1);
      var acts := ConversionsUpTo(b, files, pngs, readable, n);
      var last := n - 1;
      if ReadsSucceed(b, files[last], pngs[last], readable) {
        assert acts == prev + [RewriteOf(b, files[last], pngs[last])];
        assert ReadIndices(b, files, pngs, readable, n) == ReadIndices(b, files, pngs, readable, n - 1) + [last];
        RewritesEachExtend(b, files, pngs, prev, ReadIndices(b, files, pngs, readable, n - 1), last);
      } else {
        assert acts == prev;
        assert ReadIndices(b, files, pngs, readable, n) == ReadIndices(b, files, pngs, readable, n - 1);
      }
    }
  }

  /** `acts` rewrites the files at positions `idx`, in that order, each
      followed by the removal of its png, and holds nothing else. */
  predicate RewritesAndRemoves(b: Batch, files: seq<string>, pngs: seq<string>, acts: seq<Action>, idx: seq<nat>) {
    && |acts| == 2 * |idx|
    && forall k :: 0 <= k < |idx| ==>
         && idx[k] < |files| && idx[k] < |pngs|
         && acts[2 * k] == RewriteOf(b, files[idx[k]], pngs[idx[k]])
         && acts[2 * k + 1] == Deleted(b.outputDir + [b.slash] + pngs[idx[k]])
  }

  lemma RewritesAndRemovesExtend(b: Batch, files: seq<string>, pngs: seq<string>,
                                 acts: seq<Action>, idx: seq<nat>, i: nat)
    requires RewritesAndRemoves(b, files, pngs, acts, idx) && i < |files| && i < |pngs|
    ensures RewritesAndRemoves(b, files, pngs,
              acts + [RewriteOf(b, files[i], pngs[i]), Deleted(b.outputDir + [b.slash] + pngs[i])], idx + [i])
  {
    var acts2 := acts + [RewriteOf(b, files[i], pngs[i]), Deleted(b.outputDir + [b.slash] + pngs[i])];
    var idx2 := idx + [i];
    forall k | 0 <= k < |idx2|
      ensures && idx2[k] < |files| && idx2[k] < |pngs|
              && acts2[2 * k] == RewriteOf(b, files[idx2[k]], pngs[idx2[k]])
              && acts2[2 * k + 1] == Deleted(b.outputDir + [b.slash] + pngs[idx2[k]])
    {
      if k < |idx| {
        assert idx2[k] == idx[k] && acts2[2 * k] == acts[2 * k] && acts2[2 * k + 1] == acts[2 * k + 1];
      }
    }
  }

  /** Any other batch rewrites exactly those of the first `n` listed files
      whose reads succeed, in listing order, removes each produced png right
      after its rewrite, and does nothing else. */
  lemma {:induction false} OtherFolderRewritesAndRemoves(b: Batch, files: seq<string>, pngs: seq<string>,
                                                         readable: set<string>, n: nat)
    requires n <= |files| == |pngs| && b.saveImageAs != "png"
    ensures RewritesAndRemoves(b, files, pngs, ConversionsUpTo(b, files, pngs, readable, n),
                               ReadIndices(b, files, pngs, readable, n))
  {
    if n > 0 {
      OtherFolderRewritesAndRemoves(b, files, pngs, readable, n - 1);
      var prev := ConversionsUpTo(b, files, pngs, readable, n - 1);
      var acts := ConversionsUpTo(b, files, pngs, readable, n);
      var last := n - 1;
      if ReadsSucceed(b, files[last], pngs[last], readable) {
        assert acts == prev + [RewriteOf(b, files[last], pngs[last]), Deleted(b.outputDir + [b.slash] + pngs[last])];
        assert ReadIndices(b, files, pngs, readable, n) == ReadIndices(b, files, pngs, readable, n - 1) + [last];
        RewritesAndRemovesExtend(b, files, pngs, prev, ReadIndices(b, files, pngs, readable, n - 1), last);
      } else {
        assert acts == prev;
        assert ReadIndices(b, files, pngs, readable, n) == ReadIndices(b, files, pngs, readable, n - 1);
      }
    }
  }

  /** The actions only rewrite and remove files. */
  predicate OnlyFileWork(acts: seq<Action>) {
    forall i :: 0 <= i < |acts| ==> acts[i].Converted? || acts[i].Deleted?
  }

  /** The batch post-processing only rewrites and removes files: it neither
      reports nor spawns. */
  lemma {:induction false} FolderConversionsOnlyFileWork(b: Batch, files: seq<string>, pngs: seq<string>,
                                                         readable: set<string>, n: nat)
    requires n <= |files| == |pngs|
    ensures OnlyFileWork(ConversionsUpTo(b, files, pngs, readable, n))
  {
    if n > 0 {
      FolderConversionsOnlyFileWork(b, files, pngs, readable, n - 1);
      var prev := ConversionsUpTo(b, files, pngs, readable, n - 1);
      var step := Conversion(b, files[n - 1], pngs[n - 1], readable);
      assert OnlyFileWork(step);
      assert ConversionsUpTo(b, files, pngs, readable, n) == prev + step;
    }
  }

  // -------------------------------------------------- silence after STOP

  /** Nothing reported done, nothing started, and no file rewritten or
      removed. */
  predicate Quiet(acts: seq<Action>) {
    forall i :: 0 <= i < |acts| ==>
      !acts[i].Done? && !acts[i].Spawned? && !acts[i].Converted? && !acts[i].Deleted?
  }

  predicate IsDispatch(e: Event) {
    e.Upscayl? || e.FolderUpscayl? || e.DoubleUpscayl?
  }

  lemma {:induction false} KillAllQuiet(n: nat)
    ensures Quiet(KillAll(n))
  {
    KillAllKillsEach(n);
  }

  /** The path pickers change neither the registry, the jobs nor `stopped`,
      and log at most a models list. */
  lemma PickEffect(s: Session, e: Event)
    requires e.ChooseImage? || e.ChooseFolder? || e.ChooseModelsFolder? || e.RequestModels?
    ensures var t := Step(s, e);
      && Grows(s, t) && t.children == s.children && t.jobs == s.jobs && t.stopped == s.stopped
      && Quiet(NewActions(s, t))
  {
    var t := Step(s, e);
    if e.ChooseImage? || e.ChooseFolder? {
      AppendGrows(s, t, []);
    } else if e.ChooseModelsFolder? {
      PickModelsFolderGrows(s, e.picked, e.listing);
      assert NewActions(s, t) == [] || NewActions(s, t) == [ModelsListed(Selection.ModelList(e.listing))];
    } else {
      ListModelsGrows(s, e.payload, e.listing);
      assert NewActions(s, t) == [] || NewActions(s, t) == [ModelsListed(Selection.ModelList(e.listing))];
    }
  }

  lemma StoppedDataQuiet(s: Session, pid: nat, chunk: string)
    requires s.stopped
    ensures var t := OnData(s, pid, chunk);
      t.stopped && Grows(s, t) && Quiet(NewActions(s, t))
  {
    if Live(s, pid) {
      DataFailureKills(s, pid, chunk);
    }
  }

  lemma StoppedErrorQuiet(s: Session, pid: nat, message: string)
    requires s.stopped
    ensures var t := OnError(s, pid, message);
      t.stopped && Grows(s, t) && Quiet(NewActions(s, t))
  {
    OnErrorGrows(s, pid, message);
    if Live(s, pid) {
      var t := OnError(s, pid, message);
      assert NewActions(s, t) == [Progress(t.actions[|s.actions|].channel, message), Killed(pid)];
    }
  }

  lemma StoppedCloseQuiet(s: Session, pid: nat, post: PostOutcome, listing: seq<string>, readable: set<string>)
    requires s.stopped
    ensures var t := OnClose(s, pid, post, listing, readable);
      t.stopped && Grows(s, t) && Quiet(NewActions(s, t))
  {
    var t := OnClose(s, pid, post, listing, readable);
    if Live(s, pid) && s.children[pid].pass == FirstPass && s.jobs[s.children[pid].job].kind == Folder {
      AppendGrows(s, t, [Killed(pid)]);
    } else {
      assert t == s;
      AppendGrows(s, t, []);
    }
  }

  lemma StoppedStopQuiet(s: Session)
    ensures Stop(s).stopped && Grows(s, Stop(s)) && Quiet(NewActions(s, Stop(s)))
  {
    AppendGrows(s, Stop(s), KillAll(|s.children|));
    KillAllQuiet(|s.children|);
  }

  /** Once stopped, any event but a new dispatch leaves the session stopped
      and neither reports done nor starts a process. */
  lemma StoppedStepQuiet(s: Session, e: Event)
    requires s.stopped && !IsDispatch(e)
    ensures Step(s, e).stopped
    ensures Grows(s, Step(s, e)) && Quiet(NewActions(s, Step(s, e)))
  {
    match e
    case ChooseImage(picked) => PickEffect(s, e);
    case ChooseFolder(picked) => PickEffect(s, e);
    case ChooseModelsFolder(picked, listing) => PickEffect(s, e);
    case RequestModels(payload, listing) => PickEffect(s, e);
    case Stderr(pid, chunk) => StoppedDataQuiet(s, pid, chunk);
    case ProcessError(pid, message) => StoppedErrorQuiet(s, pid, message);
    case ProcessClose(pid, post, listing, readable) =>
      assert s.(stopped := true) == s;
      StoppedCloseQuiet(s, pid, post, listing, readable);
    case StopAll => StoppedStopQuiet(s);
  }

  lemma {:induction false} StoppedRunQuiet(s: Session, events: seq<Event>)
    requires s.stopped
    requires forall i :: 0 <= i < |events| ==> !IsDispatch(events[i])
    ensures Run(s, events).stopped
    ensures Grows(s, Run(s, events)) && Quiet(NewActions(s, Run(s, events)))
    decreases |events|
  {
    RunGrows(s, events);
    if events != [] {
      var t := Step(s, events[0]);
      StoppedStepQuiet(s, events[0]);
      StoppedRunQuiet(t, events[1..]);
      GrowsTransitive(s, t, Run(s, events));
    }
  }

  // --------------------------------------------------------- cancellation

  /** The close of a process STOP killed neither reports done, starts a
      process nor rewrites or removes a file, and leaves `stopped` alone. */
  lemma CancelledCloseQuiet(s: Session, pid: nat, post: PostOutcome, listing: seq<string>, readable: set<string>)
    requires pid < s.cancelledBelow
    ensures var t := Step(s, ProcessClose(pid, post, listing, readable));
      t.stopped == s.stopped && Grows(s, t) && Quiet(NewActions(s, t))
  {
    StoppedCloseQuiet(s.(stopped := true), pid, post, listing, readable);
  }

  /** Only STOP moves the cancellation mark, and it sets it to the end of
      the registry. */
  lemma StepMovesMarkOnlyOnStop(s: Session, e: Event)
    ensures var t := Step(s, e);
      t.cancelledBelow == (if e.StopAll? then |s.children| else s.cancelledBelow)
  {
    if IsDispatch(e) {
      DispatchKeepsMark(s, e);
    } else if e.Stderr? || e.ProcessError? || e.ProcessClose? {
      ProcessEventKeepsMark(s, e);
    }
  }

  lemma DispatchKeepsMark(s: Session, e: Event)
    requires IsDispatch(e)
    ensures Step(s, e).cancelledBelow == s.cancelledBelow
  {
  }

  lemma ProcessEventKeepsMark(s: Session, e: Event)
    requires e.Stderr? || e.ProcessError? || e.ProcessClose?
    ensures Step(s, e).cancelledBelow == s.cancelledBelow
  {
    if e.ProcessClose? {
      CloseKeepsMark(s, e.pid, e.post, e.listing, e.readable);
    }
  }

  lemma CloseKeepsMark(s: Session, pid: nat, post: PostOutcome, listing: seq<string>, readable: set<string>)
    ensures CancellableClose(s, pid, post, listing, readable).cancelledBelow == s.cancelledBelow
  {
  }

  /** No run lowers the cancellation mark, and the mark never passes the
      end of the registry: no event lets a cancelled process go. */
  lemma {:induction false} RunKeepsCancelled(s: Session, events: seq<Event>)
    requires s.cancelledBelow <= |s.children|
    ensures var t := Run(s, events);
      s.cancelledBelow <= t.cancelledBelow <= |t.children|
    decreases |events|
  {
    if events != [] {
      StepGrows(s, events[0]);
      StepMovesMarkOnlyOnStop(s, events[0]);
      RunKeepsCancelled(Step(s, events[0]), events[1..]);
    }
  }

  /** Whatever follows a STOP, new dispatches included, the close of a
      process it killed neither reports done, starts a process nor rewrites
      or removes a file. */
  lemma StopCancelsForGood(s: Session, events: seq<Event>, pid: nat, post: PostOutcome, listing: seq<string>, readable: set<string>)
    requires pid < |s.children|
    ensures var t := Run(Stop(s), events);
      var u := Step(t, ProcessClose(pid, post, listing, readable));
      Grows(t, u) && Quiet(NewActions(t, u))
  {
    RunKeepsCancelled(Stop(s), events);
    CancelledCloseQuiet(Run(Stop(s), events), pid, post, listing, readable);
  }

  /** As written, a dispatch clears `stopped` for every job: after STOP and
      a FOLDER_UPSCAYL, the handler's own close of a clean image pass STOP
      killed rewrites the output and reports done; the cancellable close of
      the same process does neither. */
  lemma DispatchReopensStoppedPass(s: Session, r: FolderRequest, pid: nat)
    requires Live(s, pid) && s.children[pid].pass == FirstPass
    requires s.jobs[s.children[pid].job].kind == SingleImage && !s.jobs[s.children[pid].job].failed
    ensures var t := UpscaleFolder(Stop(s), r);
      && Reports(NewActions(t, OnClose(t, pid, Rewritten, [], {})))
      && TouchesFiles(NewActions(t, OnClose(t, pid, Rewritten, [], {})))
      && Quiet(NewActions(t, Step(t, ProcessClose(pid, Rewritten, [], {}))))
  {
    var s1 := Stop(s);
    var t := UpscaleFolder(s1, r);
    UpscaleFolderOutcome(s1, r);
    var c := s.children[pid];
    assert t.children[pid] == c && t.jobs[c.job] == s.jobs[c.job];
    var j := s.jobs[c.job];
    var path := Produced(j.target, j.isAlpha);
    var u := OnClose(t, pid, Rewritten, [], {});
    assert u.actions == t.actions + [Converted(path, path, JpegQuality(t.quality), j.factor), Done(j.kind, path)];
    assert NewActions(t, u)[0].Converted? && NewActions(t, u)[1].Done?;
    CancelledCloseQuiet(t, pid, Rewritten, [], {});
  }

  // ---------------------------------------------------------- preferences

  /** As written, the remembered output folder never wins: whatever the
      stored item is, `saveOutputFolder === true` fails, so a single image
      goes to the last batch folder or to the request's folder, and every
      other job to the request's folder. */
  lemma RememberedFolderIgnoredAsWritten(stored: Option<string>, remembered: Option<string>,
                                         folderPath: Option<string>, outputPath: string)
    ensures var on := StrictlyTrue(StoredSaveOutputFolder(stored));
      && !on
      && SingleOutputDir(on, remembered, folderPath, outputPath)
         == (if Truthy(folderPath) then folderPath.value else outputPath)
      && RequestOutputDir(on, remembered, outputPath) == outputPath
  {
  }

  /** Read as intended, the stored item "true" turns the preference on, and
      then the remembered folder, once set, wins for every kind of job; any
      other stored item leaves the preference off. */
  lemma RememberedFolderWinsWhenStored(platform: Platform, modelsPath: string, prefs: Preferences,
                                       outputPath: string)
    ensures var s := Initial(platform, modelsPath, prefs);
      && (s.saveOutputFolder <==> prefs.rememberOutputFolder == Some("true"))
      && (prefs.rememberOutputFolder == Some("true") && Truthy(prefs.outputFolderPath) ==>
            && SingleOutputDir(s.saveOutputFolder, s.outputFolderPath, s.folderPath, outputPath)
               == prefs.outputFolderPath.value
            && RequestOutputDir(s.saveOutputFolder, s.outputFolderPath, outputPath)
               == prefs.outputFolderPath.value)
  {
  }

  // ---------------------------------------------------------- close gate

  /** The flag that gates the close of process `pid`: `failed2` for a
      second pass, `failed` otherwise. */
  predicate PassFailed(s: Session, pid: nat)
    requires Live(s, pid)
  {
    var c := s.children[pid];
    if c.pass == SecondPass then s.jobs[c.job].failed2 else s.jobs[c.job].failed
  }

  /** The path a finished job reports: a batch its folder, an image job the
      file the tool wrote (a `.png` appended when alpha was seen). */
  function ReportedPath(j: Job): string {
    if j.kind == Folder then j.target else Produced(j.target, j.isAlpha)
  }

  predicate Reports(acts: seq<Action>) {
    exists i :: 0 <= i < |acts| && acts[i].Done?
  }

  /** Some action rewrites or removes a file. */
  predicate TouchesFiles(acts: seq<Action>) {
    exists i :: 0 <= i < |acts| && (acts[i].Converted? || acts[i].Deleted?)
  }

  /** The actions an image job's post-processing appends. */
  function FinishActions(s: Session, job: nat, errorPid: nat, post: PostOutcome): seq<Action>
    requires job < |s.jobs|
  {
    var j := s.jobs[job];
    var path := Produced(j.target, j.isAlpha);
    match post
    case Rewritten => [Converted(path, path, JpegQuality(s.quality), j.factor), Done(j.kind, path)]
    case OriginalUnreadable => []
    case ConversionFailed(error) => [Progress(j.kind, error), Killed(errorPid)]
  }

  lemma FinishEffect(s: Session, job: nat, errorPid: nat, post: PostOutcome)
    requires job < |s.jobs|
    ensures var t := Finish(s, job, errorPid, post);
      Grows(s, t) && t.stopped == s.stopped && t.children == s.children
      && NewActions(s, t) == FinishActions(s, job, errorPid, post)
  {
    var j := s.jobs[job];
    var path := Produced(j.target, j.isAlpha);
    match post
    case Rewritten =>
      AppendGrows(s, Finish(s, job, errorPid, post), [Converted(path, path, JpegQuality(s.quality), j.factor), Done(j.kind, path)]);
    case OriginalUnreadable =>
    case ConversionFailed(error) => FailJobGrows(s, job, errorPid, error);
  }

  /** The close of process `pid` is gated: it reports done exactly when the
      run was not stopped, its pass did not fail, and it is the last pass
      with post-processing that succeeded (a batch has none that can fail);
      the done notification is the last action and names the job's output;
      and it rewrites or removes a file only when the run was not stopped,
      its pass did not fail and it is the last pass. */
  predicate CloseGate(s: Session, t: Session, pid: nat, post: PostOutcome)
    requires WellFormed(s) && pid < |s.children|
  {
    var c := s.children[pid];
    var j := s.jobs[c.job];
    var last := c.pass == SecondPass || j.kind != DoubleImage;
    && Grows(s, t) && t.stopped == s.stopped
    && (Reports(NewActions(s, t)) <==>
          !s.stopped && !PassFailed(s, pid) && last && (j.kind == Folder || post == Rewritten))
    && (Reports(NewActions(s, t)) ==>
          |NewActions(s, t)| > 0 && NewActions(s, t)[|NewActions(s, t)| - 1] == Done(j.kind, ReportedPath(j)))
    && (TouchesFiles(NewActions(s, t)) ==> !s.stopped && !PassFailed(s, pid) && last)
  }

  lemma CloseImagePass(s: Session, pid: nat, post: PostOutcome, listing: seq<string>, readable: set<string>)
    requires WellFormed(s) && pid < |s.children|
    requires s.children[pid].pass == SecondPass || s.jobs[s.children[pid].job].kind == SingleImage
    ensures CloseGate(s, OnClose(s, pid, post, listing, readable), pid, post)
  {
    var t := OnClose(s, pid, post, listing, readable);
    var c := s.children[pid];
    var j := s.jobs[c.job];
    var errorPid := if c.pass == SecondPass then j.first else pid;
    if !s.stopped && !PassFailed(s, pid) {
      assert t == Finish(s, c.job, errorPid, post);
      FinishEffect(s, c.job, errorPid, post);
      var added := NewActions(s, t);
      if post.Rewritten? {
        assert added[1].Done?;
      } else {
        assert added == FinishActions(s, c.job, errorPid, post);
        assert !Reports(added) && !TouchesFiles(added);
      }
    } else {
      assert t == s;
      assert NewActions(s, t) == [];
    }
  }

  lemma CloseFolderPass(s: Session, pid: nat, post: PostOutcome, listing: seq<string>, readable: set<string>)
    requires WellFormed(s) && pid < |s.children|
    requires s.children[pid].pass == FirstPass && s.jobs[s.children[pid].job].kind == Folder
    ensures CloseGate(s, OnClose(s, pid, post, listing, readable), pid, post)
  {
    var t := OnClose(s, pid, post, listing, readable);
    var c := s.children[pid];
    var j := s.jobs[c.job];
    if !s.stopped && !j.failed {
      var conv := FolderConversions(BatchOf(s, j), listing, readable);
      AppendGrows(s, t, conv + [Done(Folder, j.target)]);
      var added := NewActions(s, t);
      assert added[|added| - 1] == Done(Folder, j.target);
    } else {
      AppendGrows(s, t, [Killed(pid)]);
      assert !Reports(NewActions(s, t)) && !TouchesFiles(NewActions(s, t));
    }
  }

  lemma CloseDoubleFirstPass(s: Session, pid: nat, post: PostOutcome, listing: seq<string>, readable: set<string>)
    requires WellFormed(s) && pid < |s.children|
    requires s.children[pid].pass == FirstPass && s.jobs[s.children[pid].job].kind == DoubleImage
    ensures CloseGate(s, OnClose(s, pid, post, listing, readable), pid, post)
  {
    var t := OnClose(s, pid, post, listing, readable);
    CloseDoubleGrows(s, pid, post, listing, readable);
    var added := NewActions(s, t);
    assert |added| <= 1 && (|added| == 1 ==> added[0].Spawned?);
    assert !Reports(added) && !TouchesFiles(added);
  }

  /** A close reports done only when its run is clean; see `CloseGate`. */
  lemma CloseReportsOnlyCleanRuns(s: Session, pid: nat, post: PostOutcome, listing: seq<string>, readable: set<string>)
    requires WellFormed(s) && pid < |s.children|
    ensures CloseGate(s, OnClose(s, pid, post, listing, readable), pid, post)
  {
    var c := s.children[pid];
    var j := s.jobs[c.job];
    if c.pass == SecondPass || j.kind == SingleImage {
      CloseImagePass(s, pid, post, listing, readable);
    } else if j.kind == Folder {
      CloseFolderPass(s, pid, post, listing, readable);
    } else {
      CloseDoubleFirstPass(s, pid, post, listing, readable);
    }
  }

  /** The first pass of a double-pass job starts the second exactly when it
      closes clean and the run was not stopped; the second pass carries the
      alpha flag the first one found and uses the models folder the session
      holds at the close, and `stopped` is left as it was. */
  lemma FirstPassCloseStartsSecond(s: Session, pid: nat, post: PostOutcome, listing: seq<string>, readable: set<string>)
    requires Live(s, pid)
    requires s.children[pid].pass == FirstPass && s.jobs[s.children[pid].job].kind == DoubleImage
    ensures var t := OnClose(s, pid, post, listing, readable);
      var c := s.children[pid];
      var j := s.jobs[c.job];
      && t.stopped == s.stopped && t.jobs == s.jobs
      && (|t.children| > |s.children| <==> !j.failed && !s.stopped)
      && (|t.children| > |s.children| ==>
            t.children == s.children + [Child(c.job, SecondPass)]
            && |NewActions(s, t)| == 1 && NewActions(s, t)[0].Spawned?
            && NewActions(s, t)[0].pid == |s.children|
            && var args := NewActions(s, t)[0].args;
               && args.DoubleSecondArgs? && args.isAlpha == j.isAlpha && args.outFile == j.target
               && args.modelsDir == ModelsDir(j.model, s.customModelsFolderPath, s.modelsPath)
               && args.model == j.model && args.gpuId == j.gpuId
               && args.saveImageAs == j.saveImageAs && args.scale == j.scale)
  {
  }

  /** No process registered going from `s` to `t` is a second pass. */
  predicate NoSecondPassAdded(s: Session, t: Session) {
    forall pid :: |s.children| <= pid < |t.children| ==> t.children[pid].pass == FirstPass
  }

  lemma CloseAddsSecondPass(s: Session, pid: nat, post: PostOutcome, listing: seq<string>, readable: set<string>)
    requires WellFormed(s)
    ensures var t := OnClose(s, pid, post, listing, readable);
      || NoSecondPassAdded(s, t)
      || (&& pid < |s.children| && s.children[pid].pass == FirstPass
          && s.jobs[s.children[pid].job].kind == DoubleImage
          && !s.jobs[s.children[pid].job].failed && !s.stopped
          && t.children == s.children + [Child(s.children[pid].job, SecondPass)])
  {
    var t := OnClose(s, pid, post, listing, readable);
    if Live(s, pid) && s.children[pid].pass == FirstPass && s.jobs[s.children[pid].job].kind == DoubleImage {
      FirstPassCloseStartsSecond(s, pid, post, listing, readable);
    } else if Live(s, pid) && (s.children[pid].pass == SecondPass || s.jobs[s.children[pid].job].kind == SingleImage) {
      CloseImageGrows(s, pid, post, listing, readable);
      var c := s.children[pid];
      var errorPid := if c.pass == SecondPass then s.jobs[c.job].first else pid;
      if !s.stopped && !PassFailed(s, pid) {
        FinishEffect(s, c.job, errorPid, post);
      }
    }
  }

  lemma DispatchAddsFirstPass(s: Session, e: Event)
    requires IsDispatch(e)
    ensures NoSecondPassAdded(s, Step(s, e))
  {
    match e
    case Upscayl(r, disk) => UpscaleImageOutcome(s, r, disk);
    case FolderUpscayl(r) => UpscaleFolderOutcome(s, r);
    case DoubleUpscayl(r) => UpscaleDoubleOutcome(s, r);
  }

  /** No event but the clean close of a double job's first pass registers a
      second pass, and that one registers it for the same job. */
  lemma SecondPassOnlyAfterCleanFirst(s: Session, e: Event)
    requires WellFormed(s)
    ensures var t := Step(s, e);
      || NoSecondPassAdded(s, t)
      || (&& e.ProcessClose? && s.cancelledBelow <= e.pid < |s.children|
          && s.children[e.pid].pass == FirstPass
          && s.jobs[s.children[e.pid].job].kind == DoubleImage
          && !s.jobs[s.children[e.pid].job].failed && !s.stopped
          && t.children == s.children + [Child(s.children[e.pid].job, SecondPass)])
  {
    match e
    case ChooseImage(picked) => PickEffect(s, e);
    case ChooseFolder(picked) => PickEffect(s, e);
    case ChooseModelsFolder(picked, listing) => PickEffect(s, e);
    case RequestModels(payload, listing) => PickEffect(s, e);
    case Upscayl(r, disk) => DispatchAddsFirstPass(s, e);
    case FolderUpscayl(r) => DispatchAddsFirstPass(s, e);
    case DoubleUpscayl(r) => DispatchAddsFirstPass(s, e);
    case Stderr(pid, chunk) => if Live(s, pid) { DataFailureKills(s, pid, chunk); }
    case ProcessError(pid, message) => if Live(s, pid) { ErrorFailsPass(s, pid, message); }
    case ProcessClose(pid, post, listing, readable) =>
      if pid < s.cancelledBelow {
        CloseAddsSecondPass(s.(stopped := true), pid, post, listing, readable);
      } else {
        CloseAddsSecondPass(s, pid, post, listing, readable);
      }
    case StopAll =>
  }

  /** Whether the second pass's close succeeds does not depend on the first
      pass's `failed` flag. */
  lemma SecondPassIgnoresFirstFailure(s: Session, pid: nat, post: PostOutcome, listing: seq<string>, readable: set<string>, b: bool)
    requires Live(s, pid) && s.children[pid].pass == SecondPass
    ensures var c := s.children[pid];
      var s2 := s.(jobs := s.jobs[c.job := s.jobs[c.job].(failed := b)]);
      NewActions(s, OnClose(s, pid, post, listing, readable)) == NewActions(s2, OnClose(s2, pid, post, listing, readable))
  {
  }

  // ----------------------------------------------------------- stderr

  /** The failure rule that applies to process `pid`. */
  predicate FailureSignal(s: Session, pid: nat, chunk: string)
    requires Live(s, pid)
  {
    var c := s.children[pid];
    if c.pass == SecondPass then Classifier.SecondPassFailure(chunk)
    else if s.jobs[c.job].kind == Folder then Classifier.FolderFailure(chunk)
    else Classifier.ImageSignals(chunk).failure
  }

  /** What one `Report` does, for any flag update that keeps the job. */
  lemma ReportEffect(s: Session, job: nat, pid: nat, channel: JobKind, text: string, fail: bool, updated: Job)
    requires job < |s.jobs| && Sticky(s.jobs[job], updated)
    ensures var t := Report(s, job, pid, channel, text, fail, updated);
      && Grows(s, t) && t == s.(jobs := t.jobs, actions := t.actions)
      && t.jobs == s.jobs[job := updated]
      && NewActions(s, t) == [Progress(channel, text)] + (if fail then [Killed(pid)] else [])
  {
    ReportGrows(s, job, pid, channel, text, fail, updated);
  }

  /** Whether the chunk tells the job of process `pid` that the image has an
      alpha channel: only the first pass of an image job looks. */
  predicate AlphaSignal(s: Session, pid: nat, chunk: string)
    requires Live(s, pid)
  {
    var c := s.children[pid];
    c.pass == FirstPass && s.jobs[c.job].kind != Folder && Classifier.ImageSignals(chunk).alpha
  }

  /** What a stderr chunk on process `pid` does, given whether it signals
      failure and alpha: it is forwarded as progress; the process is killed
      and its pass marked failed exactly on failure; the alpha flag turns on
      exactly on alpha; nothing else changes. */
  predicate DataEffect(s: Session, t: Session, pid: nat, chunk: string, fail: bool, alpha: bool)
    requires Live(s, pid)
  {
    var c := s.children[pid];
    var j := s.jobs[c.job];
    && Grows(s, t) && Live(t, pid)
    && t == s.(jobs := t.jobs, actions := t.actions)
    && NewActions(s, t) == [Progress(if c.pass == SecondPass then DoubleImage else j.kind, chunk)]
                           + (if fail then [Killed(pid)] else [])
    && t.jobs == s.jobs[c.job := if c.pass == SecondPass then j.(failed2 := j.failed2 || fail)
                                 else j.(failed := j.failed || fail, isAlpha := j.isAlpha || alpha)]
    && (PassFailed(t, pid) <==> PassFailed(s, pid) || fail)
    && (t.jobs[c.job].isAlpha <==> j.isAlpha || alpha)
  }

  /** The effect of `Report` on a second pass: only `failed2` can change. */
  lemma ReportSecondPass(s: Session, pid: nat, chunk: string, fail: bool)
    requires Live(s, pid) && s.children[pid].pass == SecondPass
    ensures var c := s.children[pid];
      var j := s.jobs[c.job];
      DataEffect(s, Report(s, c.job, pid, DoubleImage, chunk, fail, j.(failed2 := j.failed2 || fail)), pid, chunk, fail, false)
  {
    var c := s.children[pid];
    var j := s.jobs[c.job];
    var updated := j.(failed2 := j.failed2 || fail);
    ReportEffect(s, c.job, pid, DoubleImage, chunk, fail, updated);
    var t := Report(s, c.job, pid, DoubleImage, chunk, fail, updated);
    assert |t.jobs| == |s.jobs| && t.jobs[c.job] == updated;
  }

  /** The effect of `Report` on a first pass: `failed` and `isAlpha` can change. */
  lemma ReportFirstPass(s: Session, pid: nat, chunk: string, fail: bool, alpha: bool)
    requires Live(s, pid) && s.children[pid].pass == FirstPass
    ensures var c := s.children[pid];
      var j := s.jobs[c.job];
      DataEffect(s, Report(s, c.job, pid, j.kind, chunk, fail, j.(failed := j.failed || fail, isAlpha := j.isAlpha || alpha)),
                 pid, chunk, fail, alpha)
  {
    var c := s.children[pid];
    var j := s.jobs[c.job];
    var updated := j.(failed := j.failed || fail, isAlpha := j.isAlpha || alpha);
    ReportEffect(s, c.job, pid, j.kind, chunk, fail, updated);
    var t := Report(s, c.job, pid, j.kind, chunk, fail, updated);
    assert |t.jobs| == |s.jobs| && t.jobs[c.job] == updated;
  }

  lemma DataOnSecondPass(s: Session, pid: nat, chunk: string)
    requires Live(s, pid) && s.children[pid].pass == SecondPass
    ensures DataEffect(s, OnData(s, pid, chunk), pid, chunk, Classifier.SecondPassFailure(chunk), false)
  {
    var j := s.jobs[s.children[pid].job];
    var fail := Classifier.SecondPassFailure(chunk);
    ReportSecondPass(s, pid, chunk, fail);
  }

  lemma DataOnFolder(s: Session, pid: nat, chunk: string)
    requires Live(s, pid) && s.children[pid].pass == FirstPass && s.jobs[s.children[pid].job].kind == Folder
    ensures DataEffect(s, OnData(s, pid, chunk), pid, chunk, Classifier.FolderFailure(chunk), false)
  {
    var j := s.jobs[s.children[pid].job];
    var fail := Classifier.FolderFailure(chunk);
    assert j.(failed := j.failed || fail) == j.(failed := j.failed || fail, isAlpha := j.isAlpha || false);
    ReportFirstPass(s, pid, chunk, fail, false);
  }

  lemma DataOnImage(s: Session, pid: nat, chunk: string)
    requires Live(s, pid) && s.children[pid].pass == FirstPass && s.jobs[s.children[pid].job].kind != Folder
    ensures var sig := Classifier.ImageSignals(chunk);
      DataEffect(s, OnData(s, pid, chunk), pid, chunk, sig.failure, sig.alpha)
  {
    var j := s.jobs[s.children[pid].job];
    var sig := Classifier.ImageSignals(chunk);
    ReportFirstPass(s, pid, chunk, sig.failure, sig.alpha);
  }

  /** A stderr chunk is forwarded as progress; the process is killed and its
      pass marked failed exactly when the chunk matches the rule that applies
      to it; only the first pass of an image job learns alpha. */
  lemma DataFailureKills(s: Session, pid: nat, chunk: string)
    requires Live(s, pid)
    ensures DataEffect(s, OnData(s, pid, chunk), pid, chunk, FailureSignal(s, pid, chunk), AlphaSignal(s, pid, chunk))
  {
    if s.children[pid].pass == SecondPass {
      DataOnSecondPass(s, pid, chunk);
    } else if s.jobs[s.children[pid].job].kind == Folder {
      DataOnFolder(s, pid, chunk);
    } else {
      DataOnImage(s, pid, chunk);
    }
  }

  /** A process error always kills the process and fails its pass. */
  lemma ErrorFailsPass(s: Session, pid: nat, message: string)
    requires WellFormed(s) && pid < |s.children|
    ensures var t := OnError(s, pid, message);
      && Grows(s, t) && Live(t, pid) && PassFailed(t, pid)
      && NewActions(s, t) == [Progress(s.jobs[s.children[pid].job].kind, message), Killed(pid)]
      && t.children == s.children && t.stopped == s.stopped
  {
    var c := s.children[pid];
    var j := s.jobs[c.job];
    if c.pass == SecondPass {
      MarkGrows(s, OnError(s, pid, message), c.job, j.(failed2 := true), [Progress(DoubleImage, message), Killed(pid)]);
    } else {
      FailJobGrows(s, c.job, pid, message);
    }
  }

}
