/** The `Producer` object. Its saved progress lives in fields that its methods
    update, and `RunPipeline` runs the steps one after another. Each step is
    proved against the functions of `Pipeline`, whose laws say what a whole run
    does. */
module Producer {
  import opened Base
  import opened Plan
  import opened Files
  import opened Config
  import opened Retry
  import opened Validator
  import opened Progress
  import opened Pipeline

  class Producer {
    const config: Config
    /** Automatic mode, driven by a weekly guide: no question is asked. */
    const scheduled: bool
    /** The project folder project setup chose. */
    const projectPath: string
    /** `status["completed_steps"]` */
    var completedSteps: seq<string>
    /** `hash_status["file_hashes"]` */
    var fileHashes: map<string, string>

    /** A producer for a project folder; no saved state is loaded yet. */
    constructor (config: Config, scheduled: bool, projectPath: string)
      ensures this.config == config && this.scheduled == scheduled && this.projectPath == projectPath
      ensures completedSteps == [] && fileHashes == map[]
    {
      this.config := config;
      this.scheduled := scheduled;
      this.projectPath := projectPath;
      completedSteps := [];
      fileHashes := map[];
    }

    method LoadStatus(fs: Fs)
      modifies this
      ensures completedSteps == LoadedSteps(fs, projectPath)
      ensures fileHashes == old(fileHashes)
    {
      var saved := SavedSteps(fs, projectPath);
      completedSteps := if saved.Some? then saved.value else [];
    }

    method LoadHashStatus(fs: Fs)
      modifies this
      ensures fileHashes == LoadedHashes(fs, projectPath)
      ensures completedSteps == old(completedSteps)
    {
      var saved := SavedHashes(fs, projectPath);
      fileHashes := if saved.Some? then saved.value else map[];
    }

    predicate IsStepComplete(step: string)
      reads this
    {
      step in completedSteps
    }

    /** `complete_step`: the step is recorded once, the files given are hashed
        into the digest table, the status is saved, and the digests are saved
        when files were given. */
    method CompleteStep(step: string, files: seq<string>, fs: Fs) returns (saved: Fs)
      modifies this
      ensures completedSteps == CompletedSteps(old(completedSteps), step)
      ensures fileHashes == Hashed(old(fileHashes), fs, files)
      ensures saved == SaveProgress(fs, projectPath, completedSteps, fileHashes, files != [])
    {
      if step !in completedSteps {
        completedSteps := completedSteps + [step];
      }
      var i := 0;
      while i < |files|
        invariant 0 <= i <= |files|
        invariant fileHashes == Hashed(old(fileHashes), fs, files[..i])
        invariant completedSteps == CompletedSteps(old(completedSteps), step)
      {
        assert files[..i + 1][..i] == files[..i];
        var path := files[i];
        if Exists(fs, path) {
          var digest := Digest(fs, path);
          if digest.Some? && digest.value != "" {
            fileHashes := fileHashes[path := digest.value];
          }
        }
        i := i + 1;
      }
      assert files[..i] == files;
      saved := WriteFile(fs, StatusPath(projectPath), JsonFile(Some(completedSteps), None));
      if files != [] {
        saved := WriteFile(saved, IntegrityPath(projectPath), JsonFile(None, Some(fileHashes)));
      }
    }

    /** `verify_file_integrity`: every recorded file is present with its
        recorded digest. */
    method VerifyFileIntegrity(fs: Fs) returns (ok: bool)
      ensures ok <==> Intact(fs, fileHashes)
    {
      if fileHashes == map[] {
        return true;
      }
      var unchecked := fileHashes.Keys;
      while unchecked != {}
        invariant unchecked <= fileHashes.Keys
        invariant forall path :: path in fileHashes && path !in unchecked ==> Digest(fs, path) == Some(fileHashes[path])
        decreases |unchecked|
      {
        var path :| path in unchecked;
        if !Exists(fs, path) {
          return false;
        }
        var current := Digest(fs, path);
        if current != Some(fileHashes[path]) {
          return false;
        }
        unchecked := unchecked - {path};
      }
      return true;
    }

    /** The reset after a failed integrity check: the project folder is
        removed and made again, and nothing is recorded. */
    method Reset(fs: Fs) returns (cleared: Fs)
      modifies this
      ensures completedSteps == [] && fileHashes == map[]
      ensures cleared == MakeDirs(RemoveTree(fs, projectPath), projectPath)
    {
      cleared := RemoveTree(fs, projectPath);
      cleared := MakeDirs(cleared, projectPath);
      completedSteps := [];
      fileHashes := map[];
    }

    /** `run_module_with_retry` */
    method RunModuleWithRetry(name: string, outcomes: nat -> ProcessResult) returns (ok: bool)
      ensures ok == ModuleSucceeds(config, name, outcomes)
    {
      var run := ExecuteWithRetry(config, ModuleAttempts(name, outcomes));
      ok := run.ending.Returned?;
    }

    /** `check_incomplete_projects` */
    method CheckIncompleteProjects(fs: Fs, channelSlug: string) returns (projects: seq<Unfinished>)
      ensures projects == UnfinishedProjects(fs, channelSlug)
    {
      var folder := ChannelFolder(channelSlug);
      if !Exists(fs, folder) {
        return [];
      }
      var listing := ListDir(fs, folder);
      if listing.Err? {
        return [];
      }
      var names := listing.value;
      projects := [];
      var i := 0;
      while i < |names|
        invariant 0 <= i <= |names|
        invariant projects == ConcatMap(names[..i], UnfinishedEntry(fs, folder))
      {
        ConcatMapStep(names, i, UnfinishedEntry(fs, folder));
        var path := Join(folder, names[i]);
        if IsDir(fs, path) {
          var saved := SavedSteps(fs, path);
          if saved.Some? {
            var steps := saved.value;
            if steps != [] && "upload" !in steps {
              projects := projects + [Unfinished(names[i], path, steps[|steps| - 1])];
            }
          }
        }
        i := i + 1;
      }
      assert names[..i] == names;
    }

    /** One of the steps made of a single module. */
    method RunModuleStep(w: World, r: Run, step: string, name: string, failure: string, files: seq<string>)
      returns (s: Stage)
      requires r.steps == completedSteps && r.hashes == fileHashes
      modifies this
      ensures s == ModuleStep(config, w, projectPath, r, step, name, failure, files)
      ensures completedSteps == s.run.steps && fileHashes == s.run.hashes
    {
      if IsStepComplete(step) {
        return Go(r);
      }
      var ok := RunModuleWithRetry(name, w.outcomes(name));
      var invoked := r.invoked + [name];
      if !ok {
        return Stop(Failed(failure), r.(invoked := invoked));
      }
      var saved := CompleteStep(step, files, w.effects(name)(r.fs));
      s := Go(Run(completedSteps, fileHashes, saved, invoked));
    }

    /** Step 3: asset production. */
    method RunAssetProduction(w: World, r: Run) returns (s: Stage)
      requires r.steps == completedSteps && r.hashes == fileHashes
      modifies this
      ensures s == AssetStep(config, w, projectPath, r)
      ensures completedSteps == s.run.steps && fileHashes == s.run.hashes
    {
      if IsStepComplete("asset_production") {
        return Go(r);
      }
      var audioFolder, imageFolder := AudioFolder(projectPath), ImageFolder(projectPath);
      var fs := r.fs;
      if Exists(fs, audioFolder) && !IsDir(fs, audioFolder) {
        return Stop(Failed("[Errno 17] File exists: '" + audioFolder + "'"), r);
      }
      fs := MakeDirs(fs, audioFolder);
      if Exists(fs, imageFolder) && !IsDir(fs, imageFolder) {
        return Stop(Failed("[Errno 17] File exists: '" + imageFolder + "'"), r.(fs := fs));
      }
      fs := MakeDirs(fs, imageFolder);
      ghost var modules := AssetModules(config, w, r.(fs := fs));
      var ok := RunModuleWithRetry("narrator", w.outcomes("narrator"));
      var invoked := r.invoked + ["narrator"];
      if !ok {
        return Stop(Failed("Narrator module failed"), r.(fs := fs, invoked := invoked));
      }
      fs := w.effects("narrator")(fs);
      ok := RunModuleWithRetry("image_director", w.outcomes("image_director"));
      invoked := invoked + ["image_director"];
      if !ok {
        return Stop(Failed("Image Director module failed"), r.(fs := fs, invoked := invoked));
      }
      fs := w.effects("image_director")(fs);
      assert modules == Go(r.(fs := fs, invoked := invoked));
      var audio := ListDir(fs, audioFolder);
      if audio.Err? {
        return Stop(Failed(audio.error), r.(fs := fs, invoked := invoked));
      }
      var images := ListDir(fs, imageFolder);
      if images.Err? {
        return Stop(Failed(images.error), r.(fs := fs, invoked := invoked));
      }
      var files := Listed(audioFolder, audio.value, ".wav") + Listed(imageFolder, images.value, ".png");
      var saved := CompleteStep("asset_production", files, fs);
      s := Go(Run(completedSteps, fileHashes, saved, invoked));
    }

    /** Step 4: the validation gate before editing. */
    method RunValidationGate(w: World, r: Run) returns (s: Stage)
      ensures s == Gate(config, w, projectPath, r)
    {
      var ok, issues := ValidateAllAssets(config, r.fs, ProjectFile(projectPath),
        AudioFolder(projectPath), ImageFolder(projectPath), w.now);
      if !ok {
        return Stop(Invalid(issues), r);
      }
      s := Go(r);
    }

    /** Step 6: upload. */
    method RunUpload(w: World, r: Run) returns (s: Stage)
      requires r.steps == completedSteps && r.hashes == fileHashes
      modifies this
      ensures s == UploadStep(config, w, projectPath, r)
      ensures completedSteps == s.run.steps && fileHashes == s.run.hashes
    {
      if IsStepComplete("upload") {
        return Go(r);
      }
      if !Exists(r.fs, ServiceAccount) {
        return Stop(Failed("YouTube service account file not found"), r);
      }
      s := RunModuleStep(w, r, "upload", "uploader", "Uploader module failed", []);
    }

    /** Loading the saved state and the integrity check of a resumed project. */
    method Resume(w: World, fs: Fs) returns (s: Stage)
      modifies this
      ensures s == Prepare(scheduled, projectPath, w.answer, fs)
      ensures completedSteps == s.run.steps && fileHashes == s.run.hashes
    {
      LoadStatus(fs);
      LoadHashStatus(fs);
      var loaded := Run(completedSteps, fileHashes, fs, []);
      if completedSteps != [] {
        var intact := VerifyFileIntegrity(fs);
        if !intact {
          var reset := if scheduled then "y" else Lower(w.answer);
          if reset == "y" {
            var cleared := Reset(fs);
            return Go(Run(completedSteps, fileHashes, cleared, []));
          }
          return Stop(Cancelled, loaded);
        }
      }
      s := Go(loaded);
    }

    /** One step of the schedule on a run that is still going. */
    method Advance(k: StepKind, w: World, s: Stage) returns (next: Stage)
      requires s.run.steps == completedSteps && s.run.hashes == fileHashes
      modifies this
      ensures next == AndThen(config, w, projectPath, k, s)
      ensures completedSteps == next.run.steps && fileHashes == next.run.hashes
    {
      if s.Stop? {
        return s;
      }
      var p := projectPath;
      match k {
        case Scriptwriting =>
          next := RunModuleStep(w, s.run, "scriptwriting", "scriptwriter", "Scriptwriter module failed", [ScriptPath(p)]);
        case Direction =>
          next := RunModuleStep(w, s.run, "direction", "director", "Director module failed", [ProjectFile(p)]);
        case AssetProduction =>
          next := RunAssetProduction(w, s.run);
        case AssetValidation =>
          next := RunValidationGate(w, s.run);
        case Editing =>
          next := RunModuleStep(w, s.run, "editing", "editor", "Editor module failed", [FinalVideo(p)]);
        case Upload =>
          next := RunUpload(w, s.run);
      }
    }

    /** `run_pipeline` after project setup: it ends as the pipeline's
        specification says, with the saved progress in the fields. */
    method RunPipeline(w: World, fs: Fs) returns (ending: RunEnd, r: Run)
      modifies this
      ensures (ending, r) == PipelineRun(config, w, projectPath, scheduled, fs)
      ensures completedSteps == r.steps && fileHashes == r.hashes
    {
      var s := Resume(w, fs);
      ghost var s0 := s;
      s := Advance(Scriptwriting, w, s);
      s := Advance(Direction, w, s);
      s := Advance(AssetProduction, w, s);
      s := Advance(AssetValidation, w, s);
      s := Advance(Editing, w, s);
      s := Advance(Upload, w, s);
      ScheduleUnrolled(config, w, projectPath, s0);
      ending := if s.Go? then Completed else s.ending;
      r := s.run;
    }
  }
}
