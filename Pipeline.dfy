/** The production pipeline as a function of what it meets: the resume check,
    then six steps in a fixed order. Each module step is skipped when its name
    is already recorded, and the asset validation gate before editing runs on
    every pass. A module's failure, or a failed gate, ends the run. */
module Pipeline {
  import opened Base
  import opened Files
  import opened Config
  import opened Errors
  import opened Retry
  import opened Validator
  import opened Progress

  /** What `safe_subprocess_run` reports for one run of a module's command. */
  datatype ProcessResult = ProcessResult(success: bool, output: string)

  /** What the pipeline does not compute itself: the result of the `i`-th run
      of each module's command, what a module that succeeded did to the
      filesystem, the answer typed at the reset prompt, and the current time. */
  datatype World = World(
    outcomes: string -> nat -> ProcessResult,
    effects: string -> Fs -> Fs,
    answer: string,
    now: int)

  // ---------------------------------------------------------------------------
  // Running one module

  /** One call of `run_command`: a failed run raises a plain `Exception`. */
  function ModuleAttempt(name: string, p: ProcessResult): Outcome<string> {
    if p.success then Succeeds(p.output) else Raises(PyError(Exception, name + " failed: " + p.output))
  }

  function ModuleAttempts(name: string, outcomes: nat -> ProcessResult): nat -> Outcome<string> {
    (i: nat) => ModuleAttempt(name, outcomes(i))
  }

  /** `run_module_with_retry`: whether the retried command ever succeeded. */
  function ModuleSucceeds(c: Config, name: string, outcomes: nat -> ProcessResult): bool {
    RetrySpec(c, ModuleAttempts(name, outcomes)).ending.Returned?
  }

  /** A module succeeds when a run of its command succeeded after runs that
      all failed; with no attempt allowed it never succeeds; a first run that
      succeeds is the only one; and a first failure whose output names no
      retryable kind is final, since it is raised as a plain `Exception`. */
  lemma ModuleRetryMeaning(c: Config, name: string, outcomes: nat -> ProcessResult)
    ensures var r := RetrySpec(c, ModuleAttempts(name, outcomes));
      ModuleSucceeds(c, name, outcomes) ==>
        && r.calls >= 1
        && outcomes(r.calls - 1).success
        && forall j :: 0 <= j < r.calls - 1 ==> !outcomes(j).success
    ensures MaxRetries(c, SYSTEM) <= 0 ==> !ModuleSucceeds(c, name, outcomes)
    ensures MaxRetries(c, SYSTEM) >= 1 && outcomes(0).success ==>
      ModuleSucceeds(c, name, outcomes) && RetrySpec(c, ModuleAttempts(name, outcomes)).calls == 1
    ensures MaxRetries(c, SYSTEM) >= 1 && !outcomes(0).success
      && NoKeyword(QuotaKeywords(c), name + " failed: " + outcomes(0).output)
      ==> !ModuleSucceeds(c, name, outcomes) && RetrySpec(c, ModuleAttempts(name, outcomes)).calls == 1
  {
    var run := ModuleAttempts(name, outcomes);
    var r := RetrySpec(c, run);
    RetryReturnsFirstSuccess(c, run);
    RetryCallsBounded(c, run);
    if r.ending.Returned? {
      assert run(r.calls - 1) == ModuleAttempt(name, outcomes(r.calls - 1));
      forall j | 0 <= j < r.calls - 1 ensures !outcomes(j).success {
        assert run(j) == ModuleAttempt(name, outcomes(j));
      }
    }
    if MaxRetries(c, SYSTEM) >= 1 && !outcomes(0).success
      && NoKeyword(QuotaKeywords(c), name + " failed: " + outcomes(0).output)
    {
      assert run(0) == Raises(PyError(Exception, name + " failed: " + outcomes(0).output));
      PlainExceptionIsCodeBug(QuotaKeywords(c), name + " failed: " + outcomes(0).output);
      RetryFailsFast(c, run);
    }
  }

  // ---------------------------------------------------------------------------
  // The state a run carries

  /** The recorded steps and digests, the filesystem, and the modules run so
      far, in order. */
  datatype Run = Run(steps: seq<string>, hashes: map<string, string>, fs: Fs, invoked: seq<string>)

  /** How `run_pipeline` ends: production completed, reset declined, a step
      raised (its message), or the validation gate failed (its issues). */
  datatype RunEnd = Completed | Cancelled | Failed(message: string) | Invalid(issues: seq<string>)

  /** A run still going, or stopped with its ending. */
  datatype Stage = Go(run: Run) | Stop(ending: RunEnd, run: Run)

  function ScriptPath(p: string): string { Join(p, "script.txt") }
  function ProjectFile(p: string): string { Join(p, "project.json") }
  function AudioFolder(p: string): string { Join(p, "audio") }
  function ImageFolder(p: string): string { Join(p, "images") }
  function FinalVideo(p: string): string { Join(p, "final_video.mp4") }

  /** Looked up relative to the working directory, not the project. */
  const ServiceAccount := "service_account.json"

  /** `complete_step(step, files)` on a run. */
  function Complete(r: Run, p: string, step: string, files: seq<string>): Run {
    var steps := CompletedSteps(r.steps, step);
    var hashes := Hashed(r.hashes, r.fs, files);
    Run(steps, hashes, SaveProgress(r.fs, p, steps, hashes, files != []), r.invoked)
  }

  /** Running a module; its failure raises `failure`. */
  function Invoke(c: Config, w: World, r: Run, name: string, failure: string): Stage {
    var ran := r.(invoked := r.invoked + [name]);
    if ModuleSucceeds(c, name, w.outcomes(name)) then Go(ran.(fs := w.effects(name)(r.fs)))
    else Stop(Failed(failure), ran)
  }

  /** A step made of one module: skipped when recorded, else the module runs
      and the step is recorded with the digests of `files`. */
  function ModuleStep(c: Config, w: World, p: string, r: Run, step: string, name: string, failure: string, files: seq<string>): Stage {
    if step in r.steps then Go(r)
    else match Invoke(c, w, r, name, failure)
      case Stop(e, ran) => Stop(e, ran)
      case Go(ran) => Go(Complete(ran, p, step, files))
  }

  /** `os.makedirs(path, exist_ok=True)`, which raises when `path` is a file. */
  function MakeFolder(fs: Fs, path: string): Result<Fs, string> {
    if Exists(fs, path) && !IsDir(fs, path) then Err("[Errno 17] File exists: '" + path + "'")
    else Ok(MakeDirs(fs, path))
  }

  /** The paths of the listed names that end with `ext`, in listing order. */
  function Listed(folder: string, names: seq<string>, ext: string): (r: seq<string>)
    ensures forall q :: q in r <==> exists n :: n in names && EndsWith(n, ext) && q == Join(folder, n)
    decreases |names|
  {
    if names == [] then []
    else
      var init, last := names[..|names| - 1], names[|names| - 1];
      assert forall n :: n in names <==> n in init || n == last;
      Listed(folder, init, ext) + (if EndsWith(last, ext) then [Join(folder, last)] else [])
  }

  /** The narrator, then the image director. */
  function AssetModules(c: Config, w: World, r: Run): Stage {
    match Invoke(c, w, r, "narrator", "Narrator module failed")
    case Stop(e, ran) => Stop(e, ran)
    case Go(ran) => Invoke(c, w, ran, "image_director", "Image Director module failed")
  }

  /** The step is recorded with the digests of every `.wav` and `.png` file. */
  function AssetRecord(p: string, r: Run): Stage {
    match ListDir(r.fs, AudioFolder(p))
    case Err(e) => Stop(Failed(e), r)
    case Ok(audio) =>
      match ListDir(r.fs, ImageFolder(p))
      case Err(e) => Stop(Failed(e), r)
      case Ok(images) =>
        Go(Complete(r, p, "asset_production",
          Listed(AudioFolder(p), audio, ".wav") + Listed(ImageFolder(p), images, ".png")))
  }

  /** Asset production: both folders, the two modules, then the record. */
  function AssetStep(c: Config, w: World, p: string, r: Run): Stage {
    if "asset_production" in r.steps then Go(r)
    else match MakeFolder(r.fs, AudioFolder(p))
      case Err(e) => Stop(Failed(e), r)
      case Ok(fs1) =>
        match MakeFolder(fs1, ImageFolder(p))
        case Err(e) => Stop(Failed(e), r.(fs := fs1))
        case Ok(fs2) =>
          match AssetModules(c, w, r.(fs := fs2))
          case Stop(e, ran) => Stop(e, ran)
          case Go(ran) => AssetRecord(p, ran)
  }

  /** The validation gate: its issues stop the run. */
  function Gate(c: Config, w: World, p: string, r: Run): Stage {
    var result := Validation(c, r.fs, ProjectFile(p), AudioFolder(p), ImageFolder(p), w.now);
    if result.0 then Go(r) else Stop(Invalid(result.1), r)
  }

  /** Upload needs the service account file before the module runs; it hashes nothing. */
  function UploadStep(c: Config, w: World, p: string, r: Run): Stage {
    if "upload" in r.steps then Go(r)
    else if !Exists(r.fs, ServiceAccount) then Stop(Failed("YouTube service account file not found"), r)
    else ModuleStep(c, w, p, r, "upload", "uploader", "Uploader module failed", [])
  }

  // ---------------------------------------------------------------------------
  // The schedule

  datatype StepKind = Scriptwriting | Direction | AssetProduction | AssetValidation | Editing | Upload

  /** The name a step is recorded under; the gate is never recorded. */
  function StepName(k: StepKind): string {
    match k
    case Scriptwriting => "scriptwriting"
    case Direction => "direction"
    case AssetProduction => "asset_production"
    case AssetValidation => ""
    case Editing => "editing"
    case Upload => "upload"
  }

  /** The place of a step in the schedule. */
  function KindIndex(k: StepKind): nat {
    match k
    case Scriptwriting => 0
    case Direction => 1
    case AssetProduction => 2
    case AssetValidation => 3
    case Editing => 4
    case Upload => 5
  }

  /** The place of a module in the schedule; 6 for a name no step runs. */
  function Rank(m: string): nat {
    if m == "scriptwriter" then 0
    else if m == "director" then 1
    else if m == "narrator" then 2
    else if m == "image_director" then 3
    else if m == "editor" then 4
    else if m == "uploader" then 5
    else 6
  }

  predicate IsModule(m: string) {
    Rank(m) < 6
  }

  /** The step that runs a module. */
  function KindOf(m: string): StepKind {
    if m == "scriptwriter" then Scriptwriting
    else if m == "director" then Direction
    else if m == "narrator" || m == "image_director" then AssetProduction
    else if m == "editor" then Editing
    else Upload
  }

  /** Modules appear in schedule order, each at most once. */
  predicate InOrder(invoked: seq<string>) {
    forall i, j :: 0 <= i < j < |invoked| ==> Rank(invoked[i]) < Rank(invoked[j])
  }

  function RunStep(c: Config, w: World, p: string, k: StepKind, r: Run): Stage {
    match k
    case Scriptwriting => ModuleStep(c, w, p, r, "scriptwriting", "scriptwriter", "Scriptwriter module failed", [ScriptPath(p)])
    case Direction => ModuleStep(c, w, p, r, "direction", "director", "Director module failed", [ProjectFile(p)])
    case AssetProduction => AssetStep(c, w, p, r)
    case AssetValidation => Gate(c, w, p, r)
    case Editing => ModuleStep(c, w, p, r, "editing", "editor", "Editor module failed", [FinalVideo(p)])
    case Upload => UploadStep(c, w, p, r)
  }

  /** A stopped run stays stopped. */
  function AndThen(c: Config, w: World, p: string, k: StepKind, s: Stage): Stage {
    if s.Stop? then s else RunStep(c, w, p, k, s.run)
  }

  function RunAll(c: Config, w: World, p: string, ks: seq<StepKind>, s: Stage): Stage
    decreases |ks|
  {
    if ks == [] then s else RunAll(c, w, p, ks[1..], AndThen(c, w, p, ks[0], s))
  }

  const Schedule := [Scriptwriting, Direction, AssetProduction, AssetValidation, Editing, Upload]

  /** The steps before the gate. */
  const Production := [Scriptwriting, Direction, AssetProduction]

  /** Loading the saved state and, when a resumed project's files changed,
      resetting it: always in scheduled mode, on the answer "y" otherwise. */
  function Prepare(scheduled: bool, p: string, answer: string, fs: Fs): Stage {
    var r := Run(LoadedSteps(fs, p), LoadedHashes(fs, p), fs, []);
    if r.steps != [] && !Intact(fs, r.hashes) then
      var reset := if scheduled then "y" else Lower(answer);
      if reset == "y" then Go(Run([], map[], MakeDirs(RemoveTree(fs, p), p), []))
      else Stop(Cancelled, r)
    else Go(r)
  }

  /** `run_pipeline` after project setup. */
  function PipelineRun(c: Config, w: World, p: string, scheduled: bool, fs: Fs): (RunEnd, Run) {
    var s := RunAll(c, w, p, Schedule, Prepare(scheduled, p, w.answer, fs));
    (if s.Go? then Completed else s.ending, s.run)
  }

  // ---------------------------------------------------------------------------
  // Laws

  /** A resumed project whose recorded files are unchanged keeps its state; a
      changed one is reset (emptied folder, no steps, no digests) in scheduled
      mode or on "y", and otherwise the run is cancelled with nothing changed. */
  lemma PrepareMeaning(scheduled: bool, p: string, answer: string, fs: Fs)
    ensures var s := Prepare(scheduled, p, answer, fs);
      var loaded := LoadedSteps(fs, p);
      var hashes := LoadedHashes(fs, p);
      var changed := loaded != [] && !Intact(fs, hashes);
      && s.run.invoked == []
      && (!changed ==> s == Go(Run(loaded, hashes, fs, [])))
      && (changed && (scheduled || Lower(answer) == "y") ==>
            && s.Go? && s.run.steps == [] && s.run.hashes == map[]
            && IsDir(s.run.fs, p)
            && forall q :: q in s.run.fs.entries && q != p ==> !Under(q, p) && s.run.fs.entries[q] == fs.entries[q])
      && (changed && !(scheduled || Lower(answer) == "y") ==> s == Stop(Cancelled, Run(loaded, hashes, fs, [])))
  {
    var removed := RemoveTree(fs, p);
    assert p !in removed.entries;
  }

  lemma InOrderJoin(a: seq<string>, b: seq<string>)
    requires InOrder(a) && InOrder(b)
    requires forall i, j :: 0 <= i < |a| && 0 <= j < |b| ==> Rank(a[i]) < Rank(b[j])
    ensures InOrder(a + b)
  {
  }

  /** What running the steps `ks` may do to a run: modules are only appended,
      each one of a step in `ks` whose name was not recorded, in schedule
      order; recorded steps stay recorded, and free of repetitions. */
  predicate Grows(ks: seq<StepKind>, r: Run, t: Run) {
    && |r.invoked| <= |t.invoked|
    && t.invoked[..|r.invoked|] == r.invoked
    && (forall i :: |r.invoked| <= i < |t.invoked| ==>
          IsModule(t.invoked[i]) && KindOf(t.invoked[i]) in ks && StepName(KindOf(t.invoked[i])) !in r.steps)
    && InOrder(t.invoked[|r.invoked|..])
    && (forall x :: x in r.steps ==> x in t.steps)
    && (NoDup(r.steps) ==> NoDup(t.steps))
  }

  lemma GrowsNothing(ks: seq<StepKind>, r: Run)
    ensures Grows(ks, r, r)
  {
    assert r.invoked[|r.invoked|..] == [];
  }

  lemma GrowsThen(k: StepKind, ks: seq<StepKind>, r: Run, m: Run, t: Run)
    requires Grows([k], r, m) && Grows(ks, m, t)
    requires forall k' :: k' in ks ==> KindIndex(k) < KindIndex(k')
    ensures Grows([k] + ks, r, t)
  {
    var a := m.invoked[|r.invoked|..];
    var b := t.invoked[|m.invoked|..];
    assert t.invoked[..|r.invoked|] == r.invoked by {
      assert t.invoked[..|m.invoked|][..|r.invoked|] == m.invoked[..|r.invoked|];
    }
    assert t.invoked[|r.invoked|..] == a + b;
    forall i, j | 0 <= i < |a| && 0 <= j < |b| ensures Rank(a[i]) < Rank(b[j]) {
      assert a[i] == m.invoked[|r.invoked| + i];
      assert b[j] == t.invoked[|m.invoked| + j];
    }
    InOrderJoin(a, b);
    forall i | |r.invoked| <= i < |t.invoked|
      ensures IsModule(t.invoked[i]) && KindOf(t.invoked[i]) in [k] + ks && StepName(KindOf(t.invoked[i])) !in r.steps
    {
      if i < |m.invoked| {
        assert t.invoked[i] == m.invoked[i];
      }
    }
  }

  /** One step grows the run by its own modules, a module step that lets the
      run go on has its name recorded, and a step that stops the run neither
      cancels nor completes it. */
  predicate StepShape(k: StepKind, r: Run, s: Stage) {
    && Grows([k], r, s.run)
    && (s.Go? && k != AssetValidation ==> StepName(k) in s.run.steps)
    && (s.Stop? ==> s.ending != Cancelled && s.ending != Completed)
  }

  lemma InvokeGrows(c: Config, w: World, r: Run, name: string, failure: string)
    requires IsModule(name) && StepName(KindOf(name)) !in r.steps
    ensures Grows([KindOf(name)], r, Invoke(c, w, r, name, failure).run)
    ensures Invoke(c, w, r, name, failure).run.steps == r.steps
  {
    var t := Invoke(c, w, r, name, failure).run;
    assert t.invoked == r.invoked + [name];
    assert t.invoked[|r.invoked|..] == [name];
  }

  lemma CompleteGrows(k: StepKind, r: Run, p: string, files: seq<string>)
    ensures Grows([k], r, Complete(r, p, StepName(k), files))
    ensures StepName(k) in Complete(r, p, StepName(k), files).steps
  {
    assert Complete(r, p, StepName(k), files).invoked == r.invoked;
    assert r.invoked[|r.invoked|..] == [];
  }

  lemma GrowsChain(k: StepKind, r: Run, m: Run, t: Run)
    requires Grows([k], r, m) && Grows([k], m, t)
    requires forall x, y :: x in m.invoked[|r.invoked|..] && y in t.invoked[|m.invoked|..] ==> Rank(x) < Rank(y)
    requires forall x :: x in m.steps ==> x in r.steps
    ensures Grows([k], r, t)
  {
    var a := m.invoked[|r.invoked|..];
    var b := t.invoked[|m.invoked|..];
    assert t.invoked[..|r.invoked|] == r.invoked by {
      assert t.invoked[..|m.invoked|][..|r.invoked|] == m.invoked[..|r.invoked|];
    }
    assert t.invoked[|r.invoked|..] == a + b;
    forall i, j | 0 <= i < |a| && 0 <= j < |b| ensures Rank(a[i]) < Rank(b[j]) {
      assert a[i] in a && b[j] in b;
    }
    InOrderJoin(a, b);
    forall i | |r.invoked| <= i < |t.invoked|
      ensures IsModule(t.invoked[i]) && KindOf(t.invoked[i]) in [k] && StepName(KindOf(t.invoked[i])) !in r.steps
    {
      if i < |m.invoked| {
        assert t.invoked[i] == m.invoked[i];
      }
    }
  }

  lemma GrowsChainDone(r: Run, m: Run, t: Run)
    requires Grows([AssetProduction], r, m) && Grows([AssetProduction], m, t)
    requires t.invoked == m.invoked
    requires forall x :: x in m.steps ==> x in r.steps
    ensures Grows([AssetProduction], r, t)
  {
    assert t.invoked[|m.invoked|..] == [];
    GrowsChain(AssetProduction, r, m, t);
  }

  lemma ModuleStepShape(c: Config, w: World, p: string, k: StepKind, r: Run, name: string, failure: string, files: seq<string>)
    requires IsModule(name) && KindOf(name) == k && k != AssetValidation
    ensures StepShape(k, r, ModuleStep(c, w, p, r, StepName(k), name, failure, files))
  {
    if StepName(k) in r.steps {
      GrowsNothing([k], r);
    } else {
      var ran := Invoke(c, w, r, name, failure);
      InvokeGrows(c, w, r, name, failure);
      if ran.Go? {
        CompleteGrows(k, ran.run, p, files);
        var done := Complete(ran.run, p, StepName(k), files);
        assert done.invoked == ran.run.invoked;
        assert done.invoked[|ran.run.invoked|..] == [];
        GrowsChain(k, r, ran.run, done);
      }
    }
  }

  lemma AssetModulesShape(c: Config, w: World, r: Run)
    requires "asset_production" !in r.steps
    ensures Grows([AssetProduction], r, AssetModules(c, w, r).run)
    ensures AssetModules(c, w, r).run.steps == r.steps
  {
    var s3 := Invoke(c, w, r, "narrator", "Narrator module failed");
    InvokeGrows(c, w, r, "narrator", "Narrator module failed");
    if s3.Go? {
      var s4 := Invoke(c, w, s3.run, "image_director", "Image Director module failed");
      InvokeGrows(c, w, s3.run, "image_director", "Image Director module failed");
      assert s3.run.invoked[|r.invoked|..] == ["narrator"];
      assert s4.run.invoked[|s3.run.invoked|..] == ["image_director"];
      GrowsChain(AssetProduction, r, s3.run, s4.run);
    }
  }

  lemma AssetRecordShape(p: string, r: Run)
    ensures StepShape(AssetProduction, r, AssetRecord(p, r))
  {
    var s := AssetRecord(p, r);
    if s.Go? {
      var audio := ListDir(r.fs, AudioFolder(p)).value;
      var images := ListDir(r.fs, ImageFolder(p)).value;
      var files := Listed(AudioFolder(p), audio, ".wav") + Listed(ImageFolder(p), images, ".png");
      CompleteGrows(AssetProduction, r, p, files);
    } else {
      GrowsNothing([AssetProduction], r);
    }
  }

  /** Asset production as a whole: a step that goes on after running ran the
      narrator and then the image director, both successfully, and recorded
      `asset_production` with the digests of the `.wav` files of the audio
      folder and the `.png` files of the image folder, as they stand after the
      two modules. */
  lemma AssetStepShape(c: Config, w: World, p: string, r: Run)
    ensures StepShape(AssetProduction, r, AssetStep(c, w, p, r))
    ensures "asset_production" !in r.steps && AssetStep(c, w, p, r).Go? ==>
      AssetStepRecorded(c, w, p, r, AssetStep(c, w, p, r).run)
  {
    AssetStepGrows(c, w, p, r);
    if "asset_production" !in r.steps && AssetStep(c, w, p, r).Go? {
      AssetStepGo(c, w, p, r);
    }
  }

  /** The filesystem after both folders are made and both asset modules ran. */
  function AfterAssetModules(w: World, p: string, fs: Fs): Fs {
    w.effects("image_director")(w.effects("narrator")(MakeDirs(MakeDirs(fs, AudioFolder(p)), ImageFolder(p))))
  }

  /** `t` is `r` after both asset modules succeeded and the step was recorded
      with the digests of the `.wav` and `.png` files they left. */
  predicate AssetStepRecorded(c: Config, w: World, p: string, r: Run, t: Run) {
    var after := AfterAssetModules(w, p, r.fs);
    && t.invoked == r.invoked + ["narrator", "image_director"]
    && ModuleSucceeds(c, "narrator", w.outcomes("narrator"))
    && ModuleSucceeds(c, "image_director", w.outcomes("image_director"))
    && ListDir(after, AudioFolder(p)).Ok? && ListDir(after, ImageFolder(p)).Ok?
    && t.steps == CompletedSteps(r.steps, "asset_production")
    && t.hashes ==
         Hashed(r.hashes, after, Listed(AudioFolder(p), ListDir(after, AudioFolder(p)).value, ".wav")
                               + Listed(ImageFolder(p), ListDir(after, ImageFolder(p)).value, ".png"))
  }

  lemma AssetStepGo(c: Config, w: World, p: string, r: Run)
    requires "asset_production" !in r.steps && AssetStep(c, w, p, r).Go?
    ensures AssetStepRecorded(c, w, p, r, AssetStep(c, w, p, r).run)
  {
    var fs1 := MakeDirs(r.fs, AudioFolder(p));
    assert MakeFolder(r.fs, AudioFolder(p)) == Ok(fs1);
    var fs2 := MakeDirs(fs1, ImageFolder(p));
    assert MakeFolder(fs1, ImageFolder(p)) == Ok(fs2);
    var s3 := Invoke(c, w, r.(fs := fs2), "narrator", "Narrator module failed");
    assert s3.Go?;
    var s4 := Invoke(c, w, s3.run, "image_director", "Image Director module failed");
    assert AssetModules(c, w, r.(fs := fs2)) == s4 && s4.Go?;
    assert s4.run.fs == AfterAssetModules(w, p, r.fs);
    assert AssetStep(c, w, p, r) == AssetRecord(p, s4.run);
  }

  lemma AssetStepGrows(c: Config, w: World, p: string, r: Run)
    ensures StepShape(AssetProduction, r, AssetStep(c, w, p, r))
  {
    var s := AssetStep(c, w, p, r);
    if "asset_production" in r.steps {
      GrowsNothing([AssetProduction], r);
      return;
    }
    var made := MakeFolder(r.fs, AudioFolder(p));
    if made.Err? {
      GrowsNothing([AssetProduction], r);
      return;
    }
    var made2 := MakeFolder(made.value, ImageFolder(p));
    if made2.Err? {
      assert s.run == r.(fs := made.value);
      assert r.invoked[|r.invoked|..] == [];
      return;
    }
    var r2 := r.(fs := made2.value);
    var ran := AssetModules(c, w, r2);
    AssetModulesShape(c, w, r2);
    assert Grows([AssetProduction], r, ran.run);
    if ran.Go? {
      AssetRecordShape(p, ran.run);
      var done := AssetRecord(p, ran.run);
      assert done == s;
      GrowsChainDone(r, ran.run, done.run);
    }
  }

  lemma StepLaws(c: Config, w: World, p: string, k: StepKind, r: Run)
    ensures StepShape(k, r, RunStep(c, w, p, k, r))
  {
    match k
    case Scriptwriting =>
      ModuleStepShape(c, w, p, k, r, "scriptwriter", "Scriptwriter module failed", [ScriptPath(p)]);
    case Direction =>
      ModuleStepShape(c, w, p, k, r, "director", "Director module failed", [ProjectFile(p)]);
    case AssetProduction =>
      AssetStepShape(c, w, p, r);
    case AssetValidation =>
      assert RunStep(c, w, p, k, r).run == r;
      GrowsNothing([k], r);
    case Editing =>
      ModuleStepShape(c, w, p, k, r, "editor", "Editor module failed", [FinalVideo(p)]);
    case Upload =>
      if "upload" !in r.steps && Exists(r.fs, ServiceAccount) {
        ModuleStepShape(c, w, p, k, r, "uploader", "Uploader module failed", []);
      } else {
        assert RunStep(c, w, p, k, r).run == r;
        GrowsNothing([k], r);
      }
  }

  /** Steps in schedule order, from a stage `s`: the run grows by the steps'
      modules only; a stopped run stays as it was; and a run that goes on to
      the end has every module step recorded. */
  lemma {:induction false} RunAllLaws(c: Config, w: World, p: string, ks: seq<StepKind>, s: Stage)
    requires forall i, j :: 0 <= i < j < |ks| ==> KindIndex(ks[i]) < KindIndex(ks[j])
    ensures var t := RunAll(c, w, p, ks, s);
      && Grows(ks, s.run, t.run)
      && (s.Stop? ==> t == s)
      && (t.Go? ==> s.Go? && forall k :: k in ks && k != AssetValidation ==> StepName(k) in t.run.steps)
      && (t.Stop? && (t.ending == Cancelled || t.ending == Completed) ==> t == s)
    decreases |ks|
  {
    if ks == [] {
      GrowsNothing(ks, s.run);
    } else {
      var mid := AndThen(c, w, p, ks[0], s);
      if s.Go? {
        StepLaws(c, w, p, ks[0], s.run);
      } else {
        GrowsNothing([ks[0]], s.run);
      }
      RunAllLaws(c, w, p, ks[1..], mid);
      forall k' | k' in ks[1..] ensures KindIndex(ks[0]) < KindIndex(k') {
        var n :| 0 <= n < |ks[1..]| && ks[1..][n] == k';
        assert ks[n + 1] == k';
      }
      GrowsThen(ks[0], ks[1..], s.run, mid.run, RunAll(c, w, p, ks, s).run);
      assert [ks[0]] + ks[1..] == ks;
    }
  }

  lemma {:induction false} RunAllSplit(c: Config, w: World, p: string, a: seq<StepKind>, b: seq<StepKind>, s: Stage)
    ensures RunAll(c, w, p, a + b, s) == RunAll(c, w, p, b, RunAll(c, w, p, a, s))
    decreases |a|
  {
    if a == [] {
      assert a + b == b;
    } else {
      assert (a + b)[0] == a[0] && (a + b)[1..] == a[1..] + b;
      RunAllSplit(c, w, p, a[1..], b, AndThen(c, w, p, a[0], s));
    }
  }

  lemma ScheduleOrdered()
    ensures forall i, j :: 0 <= i < j < |Schedule| ==> KindIndex(Schedule[i]) < KindIndex(Schedule[j])
    ensures forall i, j :: 0 <= i < j < |Production| ==> KindIndex(Production[i]) < KindIndex(Production[j])
    ensures Schedule == Production + [AssetValidation, Editing, Upload]
  {
  }

  /** Over a whole run: every module runs at most once and in schedule order;
      no module runs whose step the resumed project had recorded; a completed
      run has every module step recorded; the step list never gains a
      repetition; and a cancelled run ran nothing. */
  lemma PipelineLaws(c: Config, w: World, p: string, scheduled: bool, fs: Fs)
    ensures var s0 := Prepare(scheduled, p, w.answer, fs);
      var (ending, r) := PipelineRun(c, w, p, scheduled, fs);
      && InOrder(r.invoked)
      && (forall m :: m in r.invoked ==> IsModule(m) && StepName(KindOf(m)) !in s0.run.steps)
      && (ending == Completed ==>
            forall k :: k in Schedule && k != AssetValidation ==> StepName(k) in r.steps)
      && (NoDup(LoadedSteps(fs, p)) ==> NoDup(r.steps))
      && (ending == Cancelled ==> r.invoked == [])
  {
    var s0 := Prepare(scheduled, p, w.answer, fs);
    ScheduleOrdered();
    RunAllLaws(c, w, p, Schedule, s0);
    PrepareMeaning(scheduled, p, w.answer, fs);
    var t := RunAll(c, w, p, Schedule, s0);
    assert s0.run.invoked == [];
    assert t.run.invoked[|s0.run.invoked|..] == t.run.invoked;
    forall m | m in t.run.invoked ensures IsModule(m) && StepName(KindOf(m)) !in s0.run.steps {
      var i :| 0 <= i < |t.run.invoked| && t.run.invoked[i] == m;
    }
    if NoDup(LoadedSteps(fs, p)) {
      assert NoDup(s0.run.steps);
    }
  }

  /** The run after production is the gate, then editing and upload. */
  lemma AfterProduction(c: Config, w: World, p: string, scheduled: bool, fs: Fs)
    ensures var g := RunAll(c, w, p, Production, Prepare(scheduled, p, w.answer, fs));
      var gated := AndThen(c, w, p, AssetValidation, g);
      var t := RunAll(c, w, p, Schedule, Prepare(scheduled, p, w.answer, fs));
      && t == RunAll(c, w, p, [Editing, Upload], gated)
      && (gated.Stop? ==> t == gated)
      && (t.Go? ==> gated.Go?)
  {
    var s0 := Prepare(scheduled, p, w.answer, fs);
    var g := RunAll(c, w, p, Production, s0);
    ScheduleOrdered();
    RunAllSplit(c, w, p, Production, [AssetValidation, Editing, Upload], s0);
    var gated := AndThen(c, w, p, AssetValidation, g);
    assert RunAll(c, w, p, [AssetValidation, Editing, Upload], g) == RunAll(c, w, p, [Editing, Upload], gated);
    RunAllLaws(c, w, p, [Editing, Upload], gated);
  }

  /** Once production has gone through, a failed validation ends the run with
      its issues, and nothing after the gate runs. The gate runs even when
      editing and upload are already recorded. */
  lemma GateStopsRun(c: Config, w: World, p: string, scheduled: bool, fs: Fs)
    ensures var g := RunAll(c, w, p, Production, Prepare(scheduled, p, w.answer, fs));
      var check := Validation(c, g.run.fs, ProjectFile(p), AudioFolder(p), ImageFolder(p), w.now);
      g.Go? && !check.0 ==> PipelineRun(c, w, p, scheduled, fs) == (Invalid(check.1), g.run)
  {
    AfterProduction(c, w, p, scheduled, fs);
  }

  /** The gate step on its own: it lets the run go on exactly when validation
      passes, and changes nothing else. */
  lemma GateThen(c: Config, w: World, p: string, g: Stage)
    ensures var gated := AndThen(c, w, p, AssetValidation, g);
      var check := Validation(c, g.run.fs, ProjectFile(p), AudioFolder(p), ImageFolder(p), w.now);
      && gated.run == g.run
      && (gated.Go? <==> g.Go? && check.0)
      && (gated.Stop? && g.Go? ==> gated.ending == Invalid(check.1))
      && (g.Stop? ==> gated == g)
  {
  }

  lemma ProductionModules(invoked: seq<string>)
    requires forall i :: 0 <= i < |invoked| ==> KindOf(invoked[i]) in Production
    ensures "editor" !in invoked && "uploader" !in invoked
  {
  }

  /** What a run that stops at or before the gate looks like: production's
      modules only, and not a completed run. */
  lemma StoppedBeforeEditing(c: Config, w: World, p: string, scheduled: bool, fs: Fs)
    ensures var g := RunAll(c, w, p, Production, Prepare(scheduled, p, w.answer, fs));
      var gated := AndThen(c, w, p, AssetValidation, g);
      gated.Stop? ==>
        && gated.ending != Completed
        && "editor" !in gated.run.invoked && "uploader" !in gated.run.invoked
  {
    var s0 := Prepare(scheduled, p, w.answer, fs);
    var g := RunAll(c, w, p, Production, s0);
    GateThen(c, w, p, g);
    ScheduleOrdered();
    RunAllLaws(c, w, p, Production, s0);
    assert s0.Stop? ==> s0.ending == Cancelled;
    assert s0.run.invoked == [];
    ProductionModules(g.run.invoked);
  }

  /** The editor or the uploader runs, or the run completes, only after the
      gate passed on the filesystem production left. */
  lemma GateBeforeEditing(c: Config, w: World, p: string, scheduled: bool, fs: Fs)
    ensures var g := RunAll(c, w, p, Production, Prepare(scheduled, p, w.answer, fs));
      var check := Validation(c, g.run.fs, ProjectFile(p), AudioFolder(p), ImageFolder(p), w.now);
      var (ending, r) := PipelineRun(c, w, p, scheduled, fs);
      "editor" in r.invoked || "uploader" in r.invoked || ending == Completed ==> g.Go? && check.0
  {
    var s0 := Prepare(scheduled, p, w.answer, fs);
    var g := RunAll(c, w, p, Production, s0);
    AfterProduction(c, w, p, scheduled, fs);
    GateThen(c, w, p, g);
    StoppedBeforeEditing(c, w, p, scheduled, fs);
  }

  /** The schedule, one step after the other. */
  lemma ScheduleUnrolled(c: Config, w: World, p: string, s0: Stage)
    ensures RunAll(c, w, p, Schedule, s0) ==
      AndThen(c, w, p, Upload, AndThen(c, w, p, Editing, AndThen(c, w, p, AssetValidation,
        AndThen(c, w, p, AssetProduction, AndThen(c, w, p, Direction, AndThen(c, w, p, Scriptwriting, s0))))))
  {
    var s1 := AndThen(c, w, p, Scriptwriting, s0);
    var s2 := AndThen(c, w, p, Direction, s1);
    var s3 := AndThen(c, w, p, AssetProduction, s2);
    var s4 := AndThen(c, w, p, AssetValidation, s3);
    var s5 := AndThen(c, w, p, Editing, s4);
    var s6 := AndThen(c, w, p, Upload, s5);
    assert RunAll(c, w, p, [Upload], s5) == s6;
    assert RunAll(c, w, p, [Editing, Upload], s4) == RunAll(c, w, p, [Upload], s5);
    assert RunAll(c, w, p, [AssetValidation, Editing, Upload], s3) == RunAll(c, w, p, [Editing, Upload], s4);
    assert RunAll(c, w, p, [AssetProduction, AssetValidation, Editing, Upload], s2)
      == RunAll(c, w, p, [AssetValidation, Editing, Upload], s3);
    assert RunAll(c, w, p, [Direction, AssetProduction, AssetValidation, Editing, Upload], s1)
      == RunAll(c, w, p, [AssetProduction, AssetValidation, Editing, Upload], s2);
  }
}
