/** The assembly stage's decisions: the ffmpeg video filter chosen for a
    segment's effect, the asset check made before anything is rendered, and the
    chain of cross-fades that joins the clips. */
module Editor {
  import opened Base
  import opened Plan
  import opened Files
  import opened Config
  import opened Verifier
  import opened Validator

  // ---------------------------------------------------------------------------
  // The video filter.

  /** Fit into 1920x1080, pad with black, convert to yuv420p. */
  const BaseFilter := "scale=1920:1080:force_original_aspect_ratio=decrease,pad=1920:1080:(ow-iw)/2:(oh-ih)/2:black,format=yuv420p"

  const ZoomRates: map<string, string> := map["very_slow" := "0.0005", "slow" := "0.001", "normal" := "0.0015", "fast" := "0.002"]

  /** The zoom step per frame for a speed; an unknown speed zooms at the normal rate. */
  function ZoomRate(speed: string): (r: string)
    ensures r in ZoomRates.Values
    ensures speed !in ZoomRates ==> r == ZoomRates["normal"]
  {
    assert ZoomRates["normal"] == "0.0015";
    if speed in ZoomRates then ZoomRates[speed] else "0.0015"
  }

  const PanSpeeds: map<string, nat> := map["very_slow" := 10, "slow" := 20, "normal" := 30, "fast" := 40]

  /** The pan speed in pixels per second; an unknown speed pans at 30. */
  function PanSpeed(speed: string): (r: nat)
    ensures r in PanSpeeds.Values
    ensures speed !in PanSpeeds ==> r == 30 && r == PanSpeeds["normal"]
  {
    assert PanSpeeds["normal"] == 30;
    if speed in PanSpeeds then PanSpeeds[speed] else 30
  }

  function ZoomExpression(direction: string, rate: string): string {
    if direction == "in" then "min(zoom+" + rate + ",1.5)" else "max(1.0,zoom-" + rate + ")"
  }

  /** The pan window's position when the direction names no side: centred. */
  const Centred := "x='iw/2-(iw/zoom/2)':y='ih/2-(ih/zoom/2)'"

  function PanExpression(direction: string, speed: nat): string {
    var t := "(t*" + NatText(speed) + ")";
    if direction == "left" then "x='iw/2-(iw/zoom/2) - " + t + "':y='ih/2-(ih/zoom/2)'"
    else if direction == "right" then "x='iw/2-(iw/zoom/2) + " + t + "':y='ih/2-(ih/zoom/2)'"
    else if direction == "up" then "x='iw/2-(iw/zoom/2)':y='ih/2-(ih/zoom/2) - " + t + "'"
    else if direction == "down" then "x='iw/2-(iw/zoom/2)':y='ih/2-(ih/zoom/2) + " + t + "'"
    else Centred
  }

  /** Duration in frames, output size and rate, common to both moving effects. */
  function FrameTail(frames: nat): string {
    ":d=" + NatText(frames) + ":s=1920x1080:fps=30"
  }

  /** The base filter, a comma, and the start of the `zoompan` filter both
      moving effects use. */
  const ZoomPan := BaseFilter + ",zoompan=z="

  /** `_build_video_filter(effect, duration)`, `frames` being `int(duration*30)`.
      A still image, a missing or unknown effect type gets the base filter
      alone; a zoom or a pan is the base filter, a comma, then the `zoompan`
      filter lasting `frames` frames. A pan always zooms by 1.1, and a pan in a
      direction that names no side stays centred. */
  function BuildVideoFilter(e: Effect, frames: nat): (r: string)
    ensures e.effectType != Some("zoom") && e.effectType != Some("pan") ==> r == BaseFilter
    ensures e.effectType == Some("zoom") || e.effectType == Some("pan") ==>
      StartsWith(r, ZoomPan) && EndsWith(r, FrameTail(frames))
    ensures e.effectType == Some("pan") && e.direction.GetOr("left") !in ["left", "right", "up", "down"] ==>
      r == ZoomPan + ("1.1:" + Centred) + FrameTail(frames)
  {
    if e.effectType == Some("still") then BaseFilter
    else if e.effectType == Some("zoom") then
      var zoom := ZoomExpression(e.direction.GetOr("in"), ZoomRate(e.speed.GetOr("normal")));
      Framed(ZoomPan, "'" + zoom + "'", FrameTail(frames));
      ZoomPan + ("'" + zoom + "'") + FrameTail(frames)
    else if e.effectType == Some("pan") then
      var pan := PanExpression(e.direction.GetOr("left"), PanSpeed(e.speed.GetOr("normal")));
      Framed(ZoomPan, "1.1:" + pan, FrameTail(frames));
      ZoomPan + ("1.1:" + pan) + FrameTail(frames)
    else BaseFilter
  }

  /** A filter built as head, middle, tail starts with the head and ends with the tail. */
  lemma Framed(h: string, m: string, t: string)
    ensures StartsWith(h + m + t, h) && EndsWith(h + m + t, t)
  {
    assert (h + m + t)[..|h|] == h;
    assert (h + m + t)[|h + m|..] == t;
  }

  /** ... and with the head followed by any prefix of the middle ... */
  lemma FramedExtends(h: string, m: string, t: string, b: string)
    requires |b| <= |m| && m[..|b|] == b
    ensures StartsWith(h + m + t, h + b)
  {
    assert (h + m + t)[..|h + b|] == h + b;
  }

  /** ... and not with the head followed by a text the middle differs from. */
  lemma FramedDiffers(h: string, m: string, t: string, b: string, i: nat)
    requires i < |b| && i < |m| && m[i] != b[i]
    ensures !StartsWith(h + m + t, h + b)
  {
    if |h + b| <= |h + m + t| {
      assert (h + m + t)[..|h + b|][|h| + i] == m[i];
      assert (h + b)[|h| + i] == b[i];
    }
  }

  /** What the camera does, as the plan asks for it. */
  datatype Motion = Still | ZoomIn | ZoomOut | Pan

  function MotionOf(e: Effect): Motion {
    if e.effectType == Some("zoom") then (if e.direction.GetOr("in") == "in" then ZoomIn else ZoomOut)
    else if e.effectType == Some("pan") then Pan
    else Still
  }

  /** The camera motion read back from a filter string. */
  function ReadMotion(filter: string): Motion {
    if StartsWith(filter, ZoomPan + "'min(") then ZoomIn
    else if StartsWith(filter, ZoomPan + "'max(") then ZoomOut
    else if StartsWith(filter, ZoomPan + "1.1:") then Pan
    else Still
  }

  /** The filter carries the motion the plan asked for: reading it back gives
      the effect's motion, a zoom without a direction zooming in. */
  lemma ReadMotionInverse(e: Effect, frames: nat)
    ensures ReadMotion(BuildVideoFilter(e, frames)) == MotionOf(e)
  {
    var t := FrameTail(frames);
    if e.effectType == Some("zoom") {
      var rate := ZoomRate(e.speed.GetOr("normal"));
      if e.direction.GetOr("in") == "in" {
        ZoomInRead(rate, t);
      } else {
        ZoomOutRead(rate, t);
      }
    } else if e.effectType == Some("pan") {
      PanRead(PanExpression(e.direction.GetOr("left"), PanSpeed(e.speed.GetOr("normal"))), t);
    } else {
      StillRead();
    }
  }

  /** The filter carries the parameters the plan asked for: a zoom steps by its
      speed's rate, up to 1.5 when zooming in and down to 1.0 otherwise; a pan
      moves along the axis and in the sense its direction names, at its speed's
      pixels per second. */
  lemma FilterParameters(e: Effect, frames: nat)
    ensures var r := BuildVideoFilter(e, frames);
      var rate := ZoomRate(e.speed.GetOr("normal"));
      e.effectType == Some("zoom") ==>
        && (e.direction.GetOr("in") == "in" ==> Contains(r, "'min(zoom+" + rate + ",1.5)'"))
        && (e.direction.GetOr("in") != "in" ==> Contains(r, "'max(1.0,zoom-" + rate + ")'"))
    ensures var r := BuildVideoFilter(e, frames);
      var t := "(t*" + NatText(PanSpeed(e.speed.GetOr("normal"))) + ")";
      var d := e.direction.GetOr("left");
      e.effectType == Some("pan") ==>
        && (d == "left" ==> Contains(r, "x='iw/2-(iw/zoom/2) - " + t + "':y='ih/2-(ih/zoom/2)'"))
        && (d == "right" ==> Contains(r, "x='iw/2-(iw/zoom/2) + " + t + "':y='ih/2-(ih/zoom/2)'"))
        && (d == "up" ==> Contains(r, "x='iw/2-(iw/zoom/2)':y='ih/2-(ih/zoom/2) - " + t + "'"))
        && (d == "down" ==> Contains(r, "x='iw/2-(iw/zoom/2)':y='ih/2-(ih/zoom/2) + " + t + "'"))
  {
    if e.effectType == Some("zoom") {
      ZoomFilterParameters(e, frames);
    } else if e.effectType == Some("pan") {
      PanFilterParameters(e, frames);
    }
  }

  lemma ZoomFilterParameters(e: Effect, frames: nat)
    requires e.effectType == Some("zoom")
    ensures var r := BuildVideoFilter(e, frames);
      var rate := ZoomRate(e.speed.GetOr("normal"));
      && (e.direction.GetOr("in") == "in" ==> Contains(r, "'min(zoom+" + rate + ",1.5)'"))
      && (e.direction.GetOr("in") != "in" ==> Contains(r, "'max(1.0,zoom-" + rate + ")'"))
  {
    var rate := ZoomRate(e.speed.GetOr("normal"));
    var zoom := ZoomExpression(e.direction.GetOr("in"), rate);
    if e.direction.GetOr("in") == "in" {
      assert "'" + zoom + "'" == "'min(zoom+" + rate + ",1.5)'";
    } else {
      assert "'" + zoom + "'" == "'max(1.0,zoom-" + rate + ")'";
    }
    InfixContained(ZoomPan, "'" + zoom + "'", FrameTail(frames));
  }

  lemma PanFilterParameters(e: Effect, frames: nat)
    requires e.effectType == Some("pan")
    ensures var r := BuildVideoFilter(e, frames);
      var t := "(t*" + NatText(PanSpeed(e.speed.GetOr("normal"))) + ")";
      var d := e.direction.GetOr("left");
      && (d == "left" ==> Contains(r, "x='iw/2-(iw/zoom/2) - " + t + "':y='ih/2-(ih/zoom/2)'"))
      && (d == "right" ==> Contains(r, "x='iw/2-(iw/zoom/2) + " + t + "':y='ih/2-(ih/zoom/2)'"))
      && (d == "up" ==> Contains(r, "x='iw/2-(iw/zoom/2)':y='ih/2-(ih/zoom/2) - " + t + "'"))
      && (d == "down" ==> Contains(r, "x='iw/2-(iw/zoom/2)':y='ih/2-(ih/zoom/2) + " + t + "'"))
  {
    var tail := FrameTail(frames);
    var pan := PanExpression(e.direction.GetOr("left"), PanSpeed(e.speed.GetOr("normal")));
    assert BuildVideoFilter(e, frames) == ZoomPan + ("1.1:" + pan) + tail;
    assert ZoomPan + ("1.1:" + pan) + tail == (ZoomPan + "1.1:") + pan + tail;
    InfixContained(ZoomPan + "1.1:", pan, tail);
  }

  lemma ZoomInRead(rate: string, t: string)
    ensures ReadMotion(ZoomPan + ("'" + ZoomExpression("in", rate) + "'") + t) == ZoomIn
  {
    var m := "'" + ZoomExpression("in", rate) + "'";
    assert m[..5] == "'min(";
    FramedExtends(ZoomPan, m, t, "'min(");
  }

  lemma ZoomOutRead(rate: string, t: string)
    ensures forall d :: d != "in" ==> ReadMotion(ZoomPan + ("'" + ZoomExpression(d, rate) + "'") + t) == ZoomOut
  {
    var m := "'" + ZoomExpression("out", rate) + "'";
    assert m[2] == 'a';
    FramedDiffers(ZoomPan, m, t, "'min(", 2);
    assert m[..5] == "'max(";
    FramedExtends(ZoomPan, m, t, "'max(");
    forall d | d != "in" ensures ZoomExpression(d, rate) == ZoomExpression("out", rate) { }
  }

  lemma PanRead(pan: string, t: string)
    ensures ReadMotion(ZoomPan + ("1.1:" + pan) + t) == Pan
  {
    var m := "1.1:" + pan;
    assert m[0] == '1';
    FramedDiffers(ZoomPan, m, t, "'min(", 0);
    FramedDiffers(ZoomPan, m, t, "'max(", 0);
    assert m[..4] == "1.1:";
    FramedExtends(ZoomPan, m, t, "1.1:");
  }

  lemma StillRead()
    ensures ReadMotion(BaseFilter) == Still
  {
    assert |ZoomPan + "1.1:"| > |BaseFilter|;
    assert |ZoomPan + "'min("| > |BaseFilter|;
    assert |ZoomPan + "'max("| > |BaseFilter|;
  }

  // ---------------------------------------------------------------------------
  // The asset check before rendering.

  /** `segment["segment_id"]`, or the key whose absence raises. */
  function SegmentIdOf(s: Segment): Result<string, string> {
    if s.segmentId.None? then Err("segment_id") else Ok(s.segmentId.value)
  }

  /** The segment ids the editor collects (those read before a missing key stopped the walk). */
  function RequiredSegments(plan: Plan): seq<string> {
    WalkPlan(plan, SegmentIdOf).jobs
  }

  /** The issue, if any, for the `<id><ext>` file of one segment. */
  function IdIssues(k: AssetKind, c: Config, fs: Fs, folder: string, now: int, ext: string): string -> seq<string> {
    (id: string) => FileIssue(k, c, fs, folder, now, id + ext)
  }

  /** A name `glob("*.mp3")` (and `.wav`, `.m4a`, `.aac`) matches: not hidden, exact-case extension. */
  predicate GlobMusic(name: string) {
    !StartsWith(name, ".") && (EndsWith(name, ".mp3") || EndsWith(name, ".wav") || EndsWith(name, ".m4a") || EndsWith(name, ".aac"))
  }

  predicate HasMusicFiles(fs: Fs, folder: string) {
    ListDir(fs, folder).Ok? && exists n :: n in ListDir(fs, folder).value && GlobMusic(n)
  }

  function StructureError(plan: Plan): seq<string> {
    var w := WalkPlan(plan, SegmentIdOf);
    if w.missing.Some? then ["Invalid project structure: missing '" + w.missing.value + "'"] else []
  }

  function MusicError(fs: Fs, music: Option<string>): seq<string> {
    if music.Some? && !HasMusicFiles(fs, music.value) then ["No valid music files found in music folder"] else []
  }

  /** The errors `_validate_all_assets_before_start` collects, `music` being the
      folder `_find_music_folder` found: the structure error, then one per
      failing audio file, then one per failing image, then the music error. */
  function StartErrors(c: Config, fs: Fs, plan: Plan, audioFolder: string, imageFolder: string, music: Option<string>, now: int): seq<string> {
    var ids := RequiredSegments(plan);
    StructureError(plan)
      + ConcatMap(ids, IdIssues(AudioAsset, c, fs, audioFolder, now, ".wav"))
      + ConcatMap(ids, IdIssues(ImageAsset, c, fs, imageFolder, now, ".png"))
      + MusicError(fs, music)
  }

  /** Nothing is reported exactly when the plan's structure is complete, every
      segment has an id, every segment's `.wav` and `.png` pass verification,
      and a found music folder holds at least one music file. */
  lemma StartErrorsEmpty(c: Config, fs: Fs, plan: Plan, audioFolder: string, imageFolder: string, music: Option<string>, now: int)
    ensures StartErrors(c, fs, plan, audioFolder, imageFolder, music, now) == [] <==>
      && StructureComplete(plan)
      && (forall s :: s in AllSegments(plan) ==> s.segmentId.Some?)
      && (forall id :: id in RequiredSegments(plan) ==>
            AudioAcceptable(c, fs, Join(audioFolder, id + ".wav"), now)
            && ImageAcceptable(c, fs, Join(imageFolder, id + ".png"), now))
      && (music.Some? ==> HasMusicFiles(fs, music.value))
  {
    WalkPlanMeaning(plan, SegmentIdOf);
    IdIssuesEmpty(AudioAsset, c, fs, audioFolder, now, ".wav", RequiredSegments(plan));
    IdIssuesEmpty(ImageAsset, c, fs, imageFolder, now, ".png", RequiredSegments(plan));
    SegmentIdsPresent(AllSegments(plan));
  }

  /** No segment's file has an issue exactly when every one passes its verifier. */
  lemma IdIssuesEmpty(k: AssetKind, c: Config, fs: Fs, folder: string, now: int, ext: string, ids: seq<string>)
    ensures ConcatMap(ids, IdIssues(k, c, fs, folder, now, ext)) == [] <==>
      forall id :: id in ids ==> Acceptable(k, c, fs, Join(folder, id + ext), now)
  {
    var f := IdIssues(k, c, fs, folder, now, ext);
    ConcatMapEmpty(ids, f);
    forall id | id in ids
      ensures f(id) == [] <==> Acceptable(k, c, fs, Join(folder, id + ext), now)
    {
      CheckMeaning(k, c, fs, Join(folder, id + ext), now);
    }
  }

  /** Every segment's id is read exactly when every segment has one. */
  lemma SegmentIdsPresent(segs: seq<Segment>)
    ensures AllOk(segs, SegmentIdOf) <==> forall s :: s in segs ==> s.segmentId.Some?
  {
    if AllOk(segs, SegmentIdOf) {
      forall s | s in segs ensures s.segmentId.Some? {
        var k :| 0 <= k < |segs| && segs[k] == s;
        assert SegmentIdOf(segs[k]).Ok?;
      }
    }
    if forall s :: s in segs ==> s.segmentId.Some? {
      forall k | 0 <= k < |segs| ensures SegmentIdOf(segs[k]).Ok? {
        assert segs[k] in segs;
      }
    }
  }

  /** `_validate_all_assets_before_start()`: true exactly when no error was collected. */
  method ValidateAssetsBeforeStart(c: Config, fs: Fs, plan: Plan, audioFolder: string, imageFolder: string, music: Option<string>, now: int)
    returns (ok: bool, errors: seq<string>)
    ensures errors == StartErrors(c, fs, plan, audioFolder, imageFolder, music, now)
    ensures ok <==> errors == []
  {
    var w := CollectJobs(plan, SegmentIdOf);
    var structure: seq<string> := [];
    if w.missing.Some? {
      structure := ["Invalid project structure: missing '" + w.missing.value + "'"];
    }
    assert structure == StructureError(plan);
    var audio := CheckSegmentFiles(AudioAsset, c, fs, w.jobs, audioFolder, now, ".wav");
    var images := CheckSegmentFiles(ImageAsset, c, fs, w.jobs, imageFolder, now, ".png");
    var musicError: seq<string> := [];
    if music.Some? {
      var found := FindMusic(fs, music.value);
      if !found {
        musicError := ["No valid music files found in music folder"];
      }
    }
    assert musicError == MusicError(fs, music);
    // A check that passes contributes nothing, so the four parts are simply joined.
    errors := structure + audio + images + musicError;
    ok := errors == [];
  }

  /** One of the editor's per-segment loops: verify `<id><ext>` in `folder` for
      every id, recording `"Audio: "` / `"Image: "` and the verdict for each
      failure, in order. */
  method CheckSegmentFiles(k: AssetKind, c: Config, fs: Fs, ids: seq<string>, folder: string, now: int, ext: string)
    returns (issues: seq<string>)
    ensures issues == ConcatMap(ids, IdIssues(k, c, fs, folder, now, ext))
  {
    var f := IdIssues(k, c, fs, folder, now, ext);
    issues := [];
    var i := 0;
    while i < |ids|
      invariant 0 <= i <= |ids|
      invariant issues == ConcatMap(ids[..i], f)
    {
      ConcatMapStep(ids, i, f);
      var v := Check(k, c, fs, Join(folder, ids[i] + ext), now);
      assert f(ids[i]) == FileIssue(k, c, fs, folder, now, ids[i] + ext);
      if !v.valid {
        issues := issues + [KindLabel(k) + ": " + v.message];
      }
      i := i + 1;
    }
    assert ids[..i] == ids;
  }

  /** `_get_music_files()` is non-empty. */
  method FindMusic(fs: Fs, folder: string) returns (found: bool)
    ensures found <==> HasMusicFiles(fs, folder)
  {
    var listing := ListDir(fs, folder);
    if listing.Err? {
      return false;
    }
    var names := listing.value;
    found := false;
    var k := 0;
    while k < |names| && !found
      invariant 0 <= k <= |names|
      invariant found <==> exists j :: 0 <= j < k && GlobMusic(names[j])
    {
      found := GlobMusic(names[k]);
      k := k + 1;
    }
    if !found {
      forall n | n in names ensures !GlobMusic(n) {
        var j :| 0 <= j < |names| && names[j] == n;
      }
    }
  }

  // ---------------------------------------------------------------------------
  // The transition chain.

  /** One `xfade` run: `first` fades into `second` into the file `output`. */
  datatype Xfade = Xfade(first: string, second: string, transition: string, output: string)

  /** How the silent clips are joined: the cross-fades in order, the file that is
      then moved (or, for a single clip, copied) to `output`. */
  datatype Joining = Joining(steps: seq<Xfade>, last: string, copied: bool, output: string)

  function StepOutput(temp: string, i: nat): string {
    Join(temp, "transition_step_" + NatText(i) + ".mp4")
  }

  function JoinedOutput(temp: string): string {
    Join(temp, "concatenated_silent_video.mp4")
  }

  /** The ffmpeg transition for a plan's transition name; unmapped names fade. */
  function XfadeName(transitions: map<string, string>, name: string): string {
    if name in transitions then transitions[name] else "fade"
  }

  /** `steps` are the first `n` cross-fades of `clips`: fade `j` joins the
      result so far (the first clip for the first fade) with clip `j + 1`,
      using the mapped transition of segment `j`, into `transition_step_<j+1>`. */
  predicate FadesUpTo(clips: seq<string>, segs: seq<Segment>, transitions: map<string, string>, temp: string, steps: seq<Xfade>, n: nat) {
    && |steps| == n && n < |clips| && n <= |segs|
    && forall j {:trigger steps[j]} {:trigger segs[j]} :: 0 <= j < n ==>
         && segs[j].transitionEffect.Some?
         && steps[j] == Xfade(if j == 0 then clips[0] else steps[j - 1].output, clips[j + 1],
                              XfadeName(transitions, segs[j].transitionEffect.value), StepOutput(temp, j + 1))
  }

  /** One more cross-fade, built as the loop builds it, extends `FadesUpTo`. */
  lemma FadesExtend(clips: seq<string>, segs: seq<Segment>, transitions: map<string, string>, temp: string, steps: seq<Xfade>, n: nat, fade: Xfade)
    requires FadesUpTo(clips, segs, transitions, temp, steps, n)
    requires n + 1 < |clips| && n < |segs| && segs[n].transitionEffect.Some?
    requires fade == Xfade(if n == 0 then clips[0] else steps[n - 1].output, clips[n + 1],
                           XfadeName(transitions, segs[n].transitionEffect.value), StepOutput(temp, n + 1))
    ensures FadesUpTo(clips, segs, transitions, temp, steps + [fade], n + 1)
  {
    var next := steps + [fade];
    forall j | 0 <= j < n + 1
      ensures segs[j].transitionEffect.Some?
      ensures next[j] == Xfade(if j == 0 then clips[0] else next[j - 1].output, clips[j + 1],
                               XfadeName(transitions, segs[j].transitionEffect.value), StepOutput(temp, j + 1))
    {
      if j > 0 {
        assert next[j - 1] == steps[j - 1];
      }
      if j < n {
        assert next[j] == steps[j];
      }
    }
  }

  /** `_concatenate_silent_videos_with_transitions(clip_paths, segments_info)`,
      `transitions` being `transition_effects_map` and `segs[i]` the segment of
      `clips[i]`. `n` clips give the `n - 1` cross-fades of `FadesUpTo` and the
      last fade's file becomes the output; a single clip is copied instead. No
      clip at all fails on `clip_paths[0]`, and a missing `transition_effect`
      among the segments read fails with that key; the last segment's is never
      read. */
  method ConcatenateWithTransitions(clips: seq<string>, segs: seq<Segment>, transitions: map<string, string>, temp: string)
    returns (r: Result<Joining, string>)
    requires |clips| <= |segs| + 1
    ensures r.Ok? <==> |clips| >= 1 && forall i :: 0 <= i < |clips| - 1 ==> segs[i].transitionEffect.Some?
    ensures |clips| == 0 ==> r == Err("list index out of range")
    ensures r.Err? && |clips| >= 1 ==> r.error == "'transition_effect'"
    ensures r.Ok? ==>
      && FadesUpTo(clips, segs, transitions, temp, r.value.steps, |clips| - 1)
      && r.value.output == JoinedOutput(temp)
      && (|clips| == 1 ==> r.value.copied && r.value.last == clips[0])
      && (|clips| > 1 ==> !r.value.copied && r.value.last == r.value.steps[|clips| - 2].output)
  {
    if |clips| == 0 {
      return Err("list index out of range");
    }
    if |clips| == 1 {
      return Ok(Joining([], clips[0], true, JoinedOutput(temp)));
    }
    var current := clips[0];
    var steps: seq<Xfade> := [];
    var i := 1;
    while i < |clips|
      invariant 1 <= i <= |clips|
      invariant FadesUpTo(clips, segs, transitions, temp, steps, i - 1)
      invariant current == if i == 1 then clips[0] else steps[i - 2].output
    {
      var name := segs[i - 1].transitionEffect;
      if name.None? {
        return Err("'transition_effect'");
      }
      var fade := Xfade(current, clips[i], XfadeName(transitions, name.value), StepOutput(temp, i));
      var next := steps + [fade];
      FadesExtend(clips, segs, transitions, temp, steps, i - 1, fade);
      steps := next;
      current := fade.output;
      i := i + 1;
    }
    r := Ok(Joining(steps, current, false, JoinedOutput(temp)));
  }
}
