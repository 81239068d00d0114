/** The narration stage: one `<id>.wav` per segment, generated only when the
    existing file fails verification, each generation retried and checked again
    after it is written. */
module Narrator {
  import opened Base
  import opened Plan
  import opened Files
  import opened Config
  import opened Errors
  import opened Verifier
  import opened Retry
  import opened AssetStage

  datatype AudioJob = AudioJob(id: string, text: string)

  function AudioJobId(j: AudioJob): string {
    j.id
  }

  /** The `{"id", "text"}` entry of a segment, or the key whose absence raises
      the `KeyError` (the id is read first). */
  function AudioJobOf(s: Segment): Result<AudioJob, string> {
    if s.segmentId.None? then Err("segment_id")
    else if s.text.None? then Err("text")
    else Ok(AudioJob(s.segmentId.value, s.text.value))
  }

  /** `_extract_required_audio`: the entries in walk order, or the missing key. */
  function RequiredAudio(plan: Plan): Result<seq<AudioJob>, string> {
    var w := WalkPlan(plan, AudioJobOf);
    if w.missing.Some? then Err(w.missing.value) else Ok(w.jobs)
  }

  /** The extraction succeeds exactly when no structural key is missing and every
      segment has an id and a text; it then yields one entry per segment, in walk
      order. */
  lemma RequiredAudioMeaning(plan: Plan)
    ensures var segs := AllSegments(plan);
      RequiredAudio(plan).Ok? <==>
        StructureComplete(plan) && forall k :: 0 <= k < |segs| ==> segs[k].segmentId.Some? && segs[k].text.Some?
    ensures var segs := AllSegments(plan);
      RequiredAudio(plan).Ok? ==>
        && |RequiredAudio(plan).value| == |segs|
        && forall k :: 0 <= k < |segs| ==>
             RequiredAudio(plan).value[k] == AudioJob(segs[k].segmentId.value, segs[k].text.value)
  {
    WalkPlanMeaning(plan, AudioJobOf);
  }

  method ExtractRequiredAudio(plan: Plan) returns (r: Result<seq<AudioJob>, string>)
    ensures r == RequiredAudio(plan)
  {
    var w := CollectJobs(plan, AudioJobOf);
    if w.missing.Some? {
      return Err(w.missing.value);
    }
    return Ok(w.jobs);
  }

  function AudioPath(folder: string, j: AudioJob): string {
    Join(folder, j.id + ".wav")
  }

  /** "The entry's file is already valid", as `_check_existing_audio` decides it. */
  function AudioValid(c: Config, fs: Fs, folder: string, now: int): AudioJob -> bool {
    (j: AudioJob) => VerifyAudio(c, fs, AudioPath(folder, j), now).valid
  }

  /** `_check_existing_audio` keeps exactly the entries whose file is not an
      acceptable narration, and counts the others. */
  lemma PendingAudioMeaning(c: Config, fs: Fs, folder: string, now: int, jobs: seq<AudioJob>)
    ensures forall j :: j in Pending(jobs, AudioValid(c, fs, folder, now)) <==>
      j in jobs && !AudioAcceptable(c, fs, AudioPath(folder, j), now)
    ensures |Pending(jobs, AudioValid(c, fs, folder, now))| + Count(jobs, AudioValid(c, fs, folder, now)) == |jobs|
  {
    PendingMeaning(jobs, AudioValid(c, fs, folder, now));
  }

  // ---------------------------------------------------------------------------
  // One generation.

  /** What the speech model is asked for. */
  datatype AudioRequest = AudioRequest(text: string, voice: string)

  /** One call to the speech model: it raises, returns no audio part, or returns
      audio that `_save_wave_file` writes as the given file. */
  datatype Reply = Failed(error: PyError) | NoAudio | Audio(rec: FileRecord)

  function Head(text: string, n: nat): string {
    if |text| <= n then text else text[..n]
  }

  /** One call of `generate_audio`: ask, write the file, verify what was written. */
  function AudioAttempt(c: Config, fs: Fs, text: string, path: string, now: int, reply: Reply): Outcome<bool> {
    match reply
    case Failed(e) => Raises(e)
    case NoAudio => Raises(PyError(Exception, "AI returned no audio for text: '" + Head(text, 50) + "...'"))
    case Audio(rec) =>
      var v := VerifyAudio(c, WriteFile(fs, path, rec), path, now);
      if v.valid then Succeeds(true)
      else Raises(PyError(Exception, "Generated audio file failed verification: " + v.message))
  }

  function AudioAttempts(c: Config, fs: Fs, text: string, path: string, now: int, replies: nat -> Reply): nat -> Outcome<bool> {
    (i: nat) => AudioAttempt(c, fs, text, path, now, replies(i))
  }

  /** `narrate_segment(text, voice, path)`, where `ai(request)(i)` is the model's
      reply to call `i` for that request: true when the retried generation
      returned, false when it raised. */
  function SegmentNarrated(c: Config, fs: Fs, text: string, voice: string, path: string,
                           ai: AudioRequest -> nat -> Reply, now: int): bool
  {
    RetrySpec(c, AudioAttempts(c, fs, text, path, now, ai(AudioRequest(text, voice)))).ending.Returned?
  }

  method NarrateSegment(c: Config, fs: Fs, text: string, voice: string, path: string,
                        ai: AudioRequest -> nat -> Reply, now: int) returns (ok: bool)
    ensures ok == SegmentNarrated(c, fs, text, voice, path, ai, now)
  {
    var r := ExecuteWithRetry(c, AudioAttempts(c, fs, text, path, now, ai(AudioRequest(text, voice))));
    ok := r.ending.Returned?;
  }

  /** A segment counts as narrated only when some call wrote a file that passes
      `verify_audio_file`. */
  lemma NarratedOnlyIfVerified(c: Config, fs: Fs, text: string, voice: string, path: string,
                               ai: AudioRequest -> nat -> Reply, now: int)
    ensures var replies := ai(AudioRequest(text, voice));
      SegmentNarrated(c, fs, text, voice, path, ai, now) ==>
        exists i: nat :: replies(i).Audio? && AudioAcceptable(c, WriteFile(fs, path, replies(i).rec), path, now)
  {
    var replies := ai(AudioRequest(text, voice));
    var run := AudioAttempts(c, fs, text, path, now, replies);
    RetryReturnsFirstSuccess(c, run);
    var r := RetrySpec(c, run);
    if r.ending.Returned? {
      var i: nat := r.calls - 1;
      assert run(i) == AudioAttempt(c, fs, text, path, now, replies(i));
      AttemptSucceedsVerified(c, fs, text, path, now, replies(i));
    }
  }

  lemma AttemptSucceedsVerified(c: Config, fs: Fs, text: string, path: string, now: int, reply: Reply)
    requires AudioAttempt(c, fs, text, path, now, reply).Succeeds?
    ensures reply.Audio? && AudioAcceptable(c, WriteFile(fs, path, reply.rec), path, now)
  {
  }

  /** A first reply that writes an acceptable file narrates the segment at once. */
  lemma GoodFirstReplyNarrates(c: Config, fs: Fs, text: string, voice: string, path: string,
                               ai: AudioRequest -> nat -> Reply, now: int)
    requires MaxRetries(c, SYSTEM) >= 1
    requires ai(AudioRequest(text, voice))(0).Audio?
    requires AudioAcceptable(c, WriteFile(fs, path, ai(AudioRequest(text, voice))(0).rec), path, now)
    ensures SegmentNarrated(c, fs, text, voice, path, ai, now)
  {
    var run := AudioAttempts(c, fs, text, path, now, ai(AudioRequest(text, voice)));
    assert run(0) == Succeeds(true);
    RetryReturnsFirstSuccess(c, run);
  }

  // ---------------------------------------------------------------------------
  // The whole stage.

  function Voice(plan: Plan): Option<string> {
    if plan.metadata.Some? then plan.metadata.value.narrator else None
  }

  function Narrated(c: Config, fs: Fs, voice: string, folder: string, ai: AudioRequest -> nat -> Reply, now: int): AudioJob -> bool {
    (j: AudioJob) => SegmentNarrated(c, fs, j.text, voice, AudioPath(folder, j), ai, now)
  }

  /** `narrate_all_segments(project_file, output_folder)`. */
  function Narration(c: Config, fs: Fs, projectPath: string, folder: string, ai: AudioRequest -> nat -> Reply, now: int): StageRun {
    match ReadProjectFile(fs, projectPath)
    case Err(message) => Exited(message)
    case Ok(plan) =>
      if Exists(fs, folder) && !IsDir(fs, folder) then Exited("[Errno 17] File exists: '" + folder + "'")
      else
        var fs' := MakeDirs(fs, folder);
        match Voice(plan)
        case None => Exited("'youtube_metadata.narrator' not found in project file!")
        case Some(voice) =>
          match RequiredAudio(plan)
          case Err(key) => Exited("Malformed project file, missing key: '" + key + "'")
          case Ok(jobs) =>
            RunOf(Pending(jobs, AudioValid(c, fs', folder, now)), AudioJobId, Narrated(c, fs', voice, folder, ai, now))
  }

  /** The stage's accounting: it attempts every pending entry once, even after
      failures; successes and failures add up to the pending count; and it exits
      non-zero exactly when a generation failed. With nothing pending no
      generation is attempted. */
  lemma NarrationAccounting(c: Config, fs: Fs, projectPath: string, folder: string, ai: AudioRequest -> nat -> Reply, now: int)
    ensures var r := Narration(c, fs, projectPath, folder, ai, now);
      r.Ran? ==>
        && r.tally.attempted == r.pending
        && r.tally.succeeded + |r.tally.failed| == |r.pending|
        && (forall id :: id in r.tally.failed ==> id in r.pending)
        && (ExitCode(r) == 0 <==> r.tally.failed == [])
        && (r.pending == [] ==> r.tally == Tally([], 0, []))
  {
    var r := Narration(c, fs, projectPath, folder, ai, now);
    if r.Ran? {
      var plan := ReadProjectFile(fs, projectPath).value;
      var fs' := MakeDirs(fs, folder);
      var pending := Pending(RequiredAudio(plan).value, AudioValid(c, fs', folder, now));
      var ok := Narrated(c, fs', Voice(plan).value, folder, ai, now);
      RunAccounting(pending, AudioJobId, ok);
      TallyAccounting(pending, AudioJobId, ok);
    }
  }

  /** The entries the stage works on are exactly those whose file, after the
      output folder is made, is not an acceptable narration, in walk order. */
  lemma NarrationPending(c: Config, fs: Fs, projectPath: string, folder: string, ai: AudioRequest -> nat -> Reply, now: int)
    ensures var r := Narration(c, fs, projectPath, folder, ai, now);
      r.Ran? ==>
        && ReadProjectFile(fs, projectPath).Ok?
        && var plan := ReadProjectFile(fs, projectPath).value;
        && Voice(plan).Some?
        && RequiredAudio(plan).Ok?
        && var pending := Pending(RequiredAudio(plan).value, AudioValid(c, MakeDirs(fs, folder), folder, now));
        && r.pending == Ids(pending, AudioJobId)
        && forall j :: j in pending <==>
             j in RequiredAudio(plan).value && !AudioAcceptable(c, MakeDirs(fs, folder), AudioPath(folder, j), now)
  {
    var r := Narration(c, fs, projectPath, folder, ai, now);
    if r.Ran? {
      var plan := ReadProjectFile(fs, projectPath).value;
      var fs' := MakeDirs(fs, folder);
      var jobs := RequiredAudio(plan).value;
      var pending := Pending(jobs, AudioValid(c, fs', folder, now));
      RunAccounting(pending, AudioJobId, Narrated(c, fs', Voice(plan).value, folder, ai, now));
      PendingAudioMeaning(c, fs', folder, now, jobs);
    }
  }

  /** Without `youtube_metadata.narrator` the stage exits before any generation. */
  lemma VoiceRequired(c: Config, fs: Fs, projectPath: string, folder: string, ai: AudioRequest -> nat -> Reply, now: int)
    requires ReadProjectFile(fs, projectPath).Ok?
    requires Voice(ReadProjectFile(fs, projectPath).value).None?
    ensures Narration(c, fs, projectPath, folder, ai, now).Exited?
  {
  }

  method NarrateAllSegments(c: Config, fs: Fs, projectPath: string, folder: string, ai: AudioRequest -> nat -> Reply, now: int)
    returns (r: StageRun)
    ensures r == Narration(c, fs, projectPath, folder, ai, now)
  {
    var read := ReadProjectFile(fs, projectPath);
    if read.Err? {
      return Exited(read.error);
    }
    var plan := read.value;
    if Exists(fs, folder) && !IsDir(fs, folder) {
      return Exited("[Errno 17] File exists: '" + folder + "'");
    }
    var fs' := MakeDirs(fs, folder);
    var voice := Voice(plan);
    if voice.None? {
      return Exited("'youtube_metadata.narrator' not found in project file!");
    }
    var required := ExtractRequiredAudio(plan);
    if required.Err? {
      return Exited("Malformed project file, missing key: '" + required.error + "'");
    }
    var pending, existing := CheckExisting(required.value, AudioValid(c, fs', folder, now));
    if pending == [] {
      return Ran([], Tally([], 0, []), 0);
    }
    var ok := Narrated(c, fs', voice.value, folder, ai, now);
    var tally := Tally([], 0, []);
    var k := 0;
    while k < |pending|
      invariant 0 <= k <= |pending|
      invariant tally == TallyOf(pending[..k], AudioJobId, ok)
    {
      TallyStep(pending, k, AudioJobId, ok);
      var job := pending[k];
      var narrated := NarrateSegment(c, fs', job.text, voice.value, AudioPath(folder, job), ai, now);
      if narrated {
        tally := tally.(attempted := tally.attempted + [job.id], succeeded := tally.succeeded + 1);
      } else {
        tally := tally.(attempted := tally.attempted + [job.id], failed := tally.failed + [job.id]);
      }
      k := k + 1;
    }
    assert pending[..k] == pending;
    r := Ran(Ids(pending, AudioJobId), tally, if tally.failed == [] then 0 else 1);
  }
}
