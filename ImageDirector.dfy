/** The image stage: one `<id>.png` per segment, generated only when the
    existing file fails verification, with the aspect ratio normalised, each
    generation retried and checked again after it is saved. */
module ImageDirector {
  import opened Base
  import opened Plan
  import opened Files
  import opened Config
  import opened Errors
  import opened Verifier
  import opened Retry
  import opened AssetStage

  datatype ImageJob = ImageJob(id: string, prompt: string, aspectRatio: string)

  function ImageJobId(j: ImageJob): string {
    j.id
  }

  /** The `{"id", "prompt", "aspect_ratio"}` entry of a segment, or the key whose
      absence raises the `KeyError`; a missing ratio reads as "16:9". */
  function ImageJobOf(s: Segment): Result<ImageJob, string> {
    if s.segmentId.None? then Err("segment_id")
    else if s.visualPrompt.None? then Err("visual_prompt")
    else Ok(ImageJob(s.segmentId.value, s.visualPrompt.value, s.aspectRatio.GetOr("16:9")))
  }

  /** `list_required_images`: the entries in walk order, or the missing key. */
  function RequiredImages(plan: Plan): Result<seq<ImageJob>, string> {
    var w := WalkPlan(plan, ImageJobOf);
    if w.missing.Some? then Err(w.missing.value) else Ok(w.jobs)
  }

  /** The listing succeeds exactly when no structural key is missing and every
      segment has an id and a visual prompt; it then yields one entry per
      segment, in walk order, with the ratio defaulting to "16:9". */
  lemma RequiredImagesMeaning(plan: Plan)
    ensures var segs := AllSegments(plan);
      RequiredImages(plan).Ok? <==>
        StructureComplete(plan) && forall k :: 0 <= k < |segs| ==> segs[k].segmentId.Some? && segs[k].visualPrompt.Some?
    ensures var segs := AllSegments(plan);
      RequiredImages(plan).Ok? ==>
        && |RequiredImages(plan).value| == |segs|
        && forall k :: 0 <= k < |segs| ==>
             RequiredImages(plan).value[k] ==
               ImageJob(segs[k].segmentId.value, segs[k].visualPrompt.value, segs[k].aspectRatio.GetOr("16:9"))
  {
    WalkPlanMeaning(plan, ImageJobOf);
  }

  method ListRequiredImages(plan: Plan) returns (r: Result<seq<ImageJob>, string>)
    ensures r == RequiredImages(plan)
  {
    var w := CollectJobs(plan, ImageJobOf);
    if w.missing.Some? {
      return Err(w.missing.value);
    }
    return Ok(w.jobs);
  }

  function ImagePath(folder: string, j: ImageJob): string {
    Join(folder, j.id + ".png")
  }

  /** "The entry's image is already valid", as `check_existing_images` decides it. */
  function ImageValid(c: Config, fs: Fs, folder: string, now: int): ImageJob -> bool {
    (j: ImageJob) => VerifyImage(c, fs, ImagePath(folder, j), now).valid
  }

  /** `check_existing_images` keeps exactly the entries whose image is not
      acceptable, and counts the others. */
  lemma PendingImagesMeaning(c: Config, fs: Fs, folder: string, now: int, jobs: seq<ImageJob>)
    ensures forall j :: j in Pending(jobs, ImageValid(c, fs, folder, now)) <==>
      j in jobs && !ImageAcceptable(c, fs, ImagePath(folder, j), now)
    ensures |Pending(jobs, ImageValid(c, fs, folder, now))| + Count(jobs, ImageValid(c, fs, folder, now)) == |jobs|
  {
    PendingMeaning(jobs, ImageValid(c, fs, folder, now));
  }

  // ---------------------------------------------------------------------------
  // One generation.

  const ValidRatios := ["1:1", "4:3", "3:4", "16:9", "9:16"]

  /** The ratio sent to the model: the requested one when it is supported, else "16:9". */
  function NormalizeRatio(ratio: string): string {
    if ratio in ValidRatios then ratio else "16:9"
  }

  /** The model is only ever asked for a supported ratio; a supported ratio is
      kept, any other becomes "16:9", and normalising twice changes nothing. */
  lemma NormalizeRatioMeaning(ratio: string)
    ensures NormalizeRatio(ratio) in ValidRatios
    ensures ratio in ValidRatios ==> NormalizeRatio(ratio) == ratio
    ensures ratio !in ValidRatios ==> NormalizeRatio(ratio) == "16:9"
    ensures NormalizeRatio(NormalizeRatio(ratio)) == NormalizeRatio(ratio)
  {
  }

  /** What the image model is asked for. */
  datatype ImageRequest = ImageRequest(prompt: string, aspectRatio: string)

  /** One call to the image model: it raises, returns no image, or returns an
      image that is saved as the given file. */
  datatype ImageReply = Failed(error: PyError) | NoImages | Image(rec: FileRecord)

  /** One call of `generate_image`: ask, save, verify what was saved. */
  function ImageAttempt(c: Config, fs: Fs, id: string, path: string, now: int, reply: ImageReply): Outcome<bool> {
    match reply
    case Failed(e) => Raises(e)
    case NoImages => Raises(PyError(Exception, "AI returned no images for: " + id))
    case Image(rec) =>
      var v := VerifyImage(c, WriteFile(fs, path, rec), path, now);
      if v.valid then Succeeds(true)
      else Raises(PyError(Exception, "Generated image failed verification: " + v.message))
  }

  function ImageAttempts(c: Config, fs: Fs, id: string, path: string, now: int, replies: nat -> ImageReply): nat -> Outcome<bool> {
    (i: nat) => ImageAttempt(c, fs, id, path, now, replies(i))
  }

  function RequestOf(j: ImageJob): ImageRequest {
    ImageRequest(j.prompt, NormalizeRatio(j.aspectRatio))
  }

  /** `generate_single_image(image_info, folder)`, where `ai(request)(i)` is the
      model's reply to call `i` for that request. */
  function ImageGenerated(c: Config, fs: Fs, j: ImageJob, folder: string, ai: ImageRequest -> nat -> ImageReply, now: int): bool {
    RetrySpec(c, ImageAttempts(c, fs, j.id, ImagePath(folder, j), now, ai(RequestOf(j)))).ending.Returned?
  }

  method GenerateSingleImage(c: Config, fs: Fs, j: ImageJob, folder: string, ai: ImageRequest -> nat -> ImageReply, now: int)
    returns (ok: bool)
    ensures ok == ImageGenerated(c, fs, j, folder, ai, now)
  {
    var ratio := j.aspectRatio;
    if ratio !in ValidRatios {
      ratio := "16:9";
    }
    var path := ImagePath(folder, j);
    var r := ExecuteWithRetry(c, ImageAttempts(c, fs, j.id, path, now, ai(ImageRequest(j.prompt, ratio))));
    ok := r.ending.Returned?;
  }

  /** An image counts as generated only when some call saved a file that passes
      `verify_image_file`. */
  lemma GeneratedOnlyIfVerified(c: Config, fs: Fs, j: ImageJob, folder: string, ai: ImageRequest -> nat -> ImageReply, now: int)
    ensures var replies := ai(RequestOf(j)); var path := ImagePath(folder, j);
      ImageGenerated(c, fs, j, folder, ai, now) ==>
        exists i: nat :: replies(i).Image? && ImageAcceptable(c, WriteFile(fs, path, replies(i).rec), path, now)
  {
    var replies := ai(RequestOf(j));
    var path := ImagePath(folder, j);
    var run := ImageAttempts(c, fs, j.id, path, now, replies);
    RetryReturnsFirstSuccess(c, run);
    var r := RetrySpec(c, run);
    if r.ending.Returned? {
      var i: nat := r.calls - 1;
      assert run(i) == ImageAttempt(c, fs, j.id, path, now, replies(i));
      assert replies(i).Image? && ImageAcceptable(c, WriteFile(fs, path, replies(i).rec), path, now);
    }
  }

  // ---------------------------------------------------------------------------
  // The whole stage.

  function Generated(c: Config, fs: Fs, folder: string, ai: ImageRequest -> nat -> ImageReply, now: int): ImageJob -> bool {
    (j: ImageJob) => ImageGenerated(c, fs, j, folder, ai, now)
  }

  /** `generate_all_images(project_file, image_folder)`. */
  function ImageGeneration(c: Config, fs: Fs, projectPath: string, folder: string, ai: ImageRequest -> nat -> ImageReply, now: int): StageRun {
    match ReadProjectFile(fs, projectPath)
    case Err(message) => Exited(message)
    case Ok(plan) =>
      if Exists(fs, folder) && !IsDir(fs, folder) then Exited("[Errno 17] File exists: '" + folder + "'")
      else
        var fs' := MakeDirs(fs, folder);
        match RequiredImages(plan)
        case Err(key) => Exited("Malformed project file, missing key: '" + key + "'")
        case Ok(jobs) =>
          RunOf(Pending(jobs, ImageValid(c, fs', folder, now)), ImageJobId, Generated(c, fs', folder, ai, now))
  }

  /** The stage attempts every pending image once, even after failures;
      successes and failures add up to the pending count; and it exits non-zero
      exactly when a generation failed. With nothing pending no generation is
      attempted. */
  lemma ImageGenerationAccounting(c: Config, fs: Fs, projectPath: string, folder: string, ai: ImageRequest -> nat -> ImageReply, now: int)
    ensures var r := ImageGeneration(c, fs, projectPath, folder, ai, now);
      r.Ran? ==>
        && r.tally.attempted == r.pending
        && r.tally.succeeded + |r.tally.failed| == |r.pending|
        && (forall id :: id in r.tally.failed ==> id in r.pending)
        && (ExitCode(r) == 0 <==> r.tally.failed == [])
        && (r.pending == [] ==> r.tally == Tally([], 0, []))
  {
    var r := ImageGeneration(c, fs, projectPath, folder, ai, now);
    if r.Ran? {
      var plan := ReadProjectFile(fs, projectPath).value;
      var fs' := MakeDirs(fs, folder);
      var pending := Pending(RequiredImages(plan).value, ImageValid(c, fs', folder, now));
      var ok := Generated(c, fs', folder, ai, now);
      RunAccounting(pending, ImageJobId, ok);
      TallyAccounting(pending, ImageJobId, ok);
    }
  }

  /** The images the stage works on are exactly those that, after the folder is
      made, are not acceptable, in walk order. */
  lemma ImageGenerationPending(c: Config, fs: Fs, projectPath: string, folder: string, ai: ImageRequest -> nat -> ImageReply, now: int)
    ensures var r := ImageGeneration(c, fs, projectPath, folder, ai, now);
      r.Ran? ==>
        && ReadProjectFile(fs, projectPath).Ok?
        && var plan := ReadProjectFile(fs, projectPath).value;
        && RequiredImages(plan).Ok?
        && var pending := Pending(RequiredImages(plan).value, ImageValid(c, MakeDirs(fs, folder), folder, now));
        && r.pending == Ids(pending, ImageJobId)
        && forall j :: j in pending <==>
             j in RequiredImages(plan).value && !ImageAcceptable(c, MakeDirs(fs, folder), ImagePath(folder, j), now)
  {
    var r := ImageGeneration(c, fs, projectPath, folder, ai, now);
    if r.Ran? {
      var plan := ReadProjectFile(fs, projectPath).value;
      var fs' := MakeDirs(fs, folder);
      var jobs := RequiredImages(plan).value;
      var pending := Pending(jobs, ImageValid(c, fs', folder, now));
      RunAccounting(pending, ImageJobId, Generated(c, fs', folder, ai, now));
      PendingImagesMeaning(c, fs', folder, now, jobs);
    }
  }

  method GenerateAllImages(c: Config, fs: Fs, projectPath: string, folder: string, ai: ImageRequest -> nat -> ImageReply, now: int)
    returns (r: StageRun)
    ensures r == ImageGeneration(c, fs, projectPath, folder, ai, now)
  {
    var read := ReadProjectFile(fs, projectPath);
    if read.Err? {
      return Exited(read.error);
    }
    var plan := read.value;
    if Exists(fs, folder) && !IsDir(fs, folder) {
      return Exited("[Errno 17] File exists: '" + folder + "'");
    }
    var fs' := MakeDirs(fs, folder);
    var required := ListRequiredImages(plan);
    if required.Err? {
      return Exited("Malformed project file, missing key: '" + required.error + "'");
    }
    var pending, existing := CheckExisting(required.value, ImageValid(c, fs', folder, now));
    if pending == [] {
      return Ran([], Tally([], 0, []), 0);
    }
    var ok := Generated(c, fs', folder, ai, now);
    var tally := Tally([], 0, []);
    var k := 0;
    while k < |pending|
      invariant 0 <= k <= |pending|
      invariant tally == TallyOf(pending[..k], ImageJobId, ok)
    {
      TallyStep(pending, k, ImageJobId, ok);
      var job := pending[k];
      var generated := GenerateSingleImage(c, fs', job, folder, ai, now);
      if generated {
        tally := tally.(attempted := tally.attempted + [job.id], succeeded := tally.succeeded + 1);
      } else {
        tally := tally.(attempted := tally.attempted + [job.id], failed := tally.failed + [job.id]);
      }
      k := k + 1;
    }
    assert pending[..k] == pending;
    r := Ran(Ids(pending, ImageJobId), tally, if tally.failed == [] then 0 else 1);
  }
}
