/** `PreEditorValidator`: the gate before assembly. It checks the plan's
    structure, derives the `<id>.wav` / `<id>.png` file lists, verifies every
    asset and the music folder, and sorts the issues into recovery hints. */
module Validator {
  import opened Base
  import opened Config
  import opened Plan
  import opened Files
  import opened Verifier

  // ---------------------------------------------------------------------------
  // Accumulating loops: `issues.extend(f(x))` for each `x`, in order.

  lemma ConcatMapStep<X, Y>(xs: seq<X>, k: nat, f: X -> seq<Y>)
    requires k < |xs|
    ensures ConcatMap(xs[..k + 1], f) == ConcatMap(xs[..k], f) + f(xs[k])
  {
    assert xs[..k + 1][..k] == xs[..k];
  }

  lemma {:induction false} ConcatMapEmpty<X, Y>(xs: seq<X>, f: X -> seq<Y>)
    ensures ConcatMap(xs, f) == [] <==> forall x :: x in xs ==> f(x) == []
    decreases |xs|
  {
    if xs != [] {
      var init := xs[..|xs| - 1];
      ConcatMapEmpty(init, f);
      assert forall x :: x in xs ==> x in init || x == xs[|xs| - 1];
      assert forall x :: x in init ==> x in xs;
    }
  }

  // ---------------------------------------------------------------------------
  // The project file's structure.

  const RequiredKeys := ["story_structure", "youtube_metadata", "ffmpeg_settings"]
  const RequiredSections := ["intro", "development", "conclusion"]
  const SegmentKeys := ["segment_id", "text", "visual_prompt"]

  predicate HasKey(plan: Plan, key: string) {
    if key == "story_structure" then plan.story.Some?
    else if key == "youtube_metadata" then plan.metadata.Some?
    else key == "ffmpeg_settings" && plan.hasFfmpegSettings
  }

  predicate SegmentHasKey(s: Segment, key: string) {
    if key == "segment_id" then s.segmentId.Some?
    else if key == "text" then s.text.Some?
    else key == "visual_prompt" && s.visualPrompt.Some?
  }

  function KeyIssue(plan: Plan, key: string): seq<string> {
    if HasKey(plan, key) then [] else ["Missing required key in project file: " + key]
  }

  function KeyIssues(plan: Plan): string -> seq<string> {
    (key: string) => KeyIssue(plan, key)
  }

  function SegmentKeyIssue(s: Segment, key: string): seq<string> {
    if SegmentHasKey(s, key) then [] else ["Missing " + key + " in segment: " + s.segmentId.GetOr("unknown")]
  }

  function SegmentKeyIssues(s: Segment): string -> seq<string> {
    (key: string) => SegmentKeyIssue(s, key)
  }

  function SegmentIssues(s: Segment): seq<string> {
    ConcatMap(SegmentKeys, SegmentKeyIssues(s))
  }

  function ParagraphIssues(p: Paragraph): seq<string> {
    if p.segments.None? then ["Missing segments in paragraph: " + p.paragraphId.GetOr("unknown")]
    else ConcatMap(p.segments.value, SegmentIssues)
  }

  function SectionIssue(story: seq<(string, Section)>, name: string): seq<string> {
    match Lookup(story, name)
    case None => ["Missing story section: " + name]
    case Some(section) =>
      if section.paragraphs.None? then ["Missing paragraphs in section: " + name]
      else ConcatMap(section.paragraphs.value, ParagraphIssues)
  }

  function SectionIssues(story: seq<(string, Section)>): string -> seq<string> {
    (name: string) => SectionIssue(story, name)
  }

  /** The issues `_validate_project_file` reports about a parsed plan: missing
      top-level keys, then section by section (a missing `story_structure` reads
      as an empty one). */
  function StructureIssues(plan: Plan): seq<string> {
    ConcatMap(RequiredKeys, KeyIssues(plan)) + ConcatMap(RequiredSections, SectionIssues(plan.story.GetOr([])))
  }

  /** Reading the project file: the plan, or the one issue that stops the check. */
  function ReadPlan(fs: Fs, path: string): (r: Result<Plan, string>)
    ensures r.Ok? <==> Exists(fs, path) && fs.entries[path].File? && fs.entries[path].rec.plan.Ok?
  {
    if !Exists(fs, path) then Err("Project file not found: " + path)
    else match fs.entries[path]
      case Dir(_, _) => Err("Cannot read project file: " + IsADirectoryText(path))
      case File(r) =>
        match r.plan
        case Err(e) => Err("Invalid JSON in project file: " + e)
        case Ok(plan) => Ok(plan)
  }

  function ProjectIssues(fs: Fs, path: string): seq<string> {
    match ReadPlan(fs, path)
    case Err(issue) => [issue]
    case Ok(plan) => StructureIssues(plan)
  }

  // What a well-formed plan is, stated independently of the issue lists.

  predicate SegmentComplete(s: Segment) {
    s.segmentId.Some? && s.text.Some? && s.visualPrompt.Some?
  }

  predicate ParagraphComplete(p: Paragraph) {
    p.segments.Some? && forall s :: s in p.segments.value ==> SegmentComplete(s)
  }

  predicate SectionComplete(story: seq<(string, Section)>, name: string) {
    && Lookup(story, name).Some?
    && Lookup(story, name).value.paragraphs.Some?
    && forall p :: p in Lookup(story, name).value.paragraphs.value ==> ParagraphComplete(p)
  }

  predicate WellFormed(plan: Plan) {
    && plan.story.Some?
    && plan.metadata.Some?
    && plan.hasFfmpegSettings
    && SectionComplete(plan.story.value, "intro")
    && SectionComplete(plan.story.value, "development")
    && SectionComplete(plan.story.value, "conclusion")
  }

  lemma SegmentIssuesEmpty(s: Segment)
    ensures SegmentIssues(s) == [] <==> SegmentComplete(s)
  {
    ConcatMapEmpty(SegmentKeys, SegmentKeyIssues(s));
    assert SegmentKeyIssues(s)("segment_id") == SegmentKeyIssue(s, "segment_id");
    assert SegmentKeyIssues(s)("text") == SegmentKeyIssue(s, "text");
    assert SegmentKeyIssues(s)("visual_prompt") == SegmentKeyIssue(s, "visual_prompt");
  }

  lemma ParagraphIssuesEmpty(p: Paragraph)
    ensures ParagraphIssues(p) == [] <==> ParagraphComplete(p)
  {
    if p.segments.Some? {
      ConcatMapEmpty(p.segments.value, SegmentIssues);
      forall s | s in p.segments.value ensures SegmentIssues(s) == [] <==> SegmentComplete(s) {
        SegmentIssuesEmpty(s);
      }
    }
  }

  lemma SectionIssueEmpty(story: seq<(string, Section)>, name: string)
    ensures SectionIssue(story, name) == [] <==> SectionComplete(story, name)
  {
    var found := Lookup(story, name);
    if found.Some? && found.value.paragraphs.Some? {
      var paras := found.value.paragraphs.value;
      ConcatMapEmpty(paras, ParagraphIssues);
      forall p | p in paras ensures ParagraphIssues(p) == [] <==> ParagraphComplete(p) {
        ParagraphIssuesEmpty(p);
      }
    }
  }

  /** `_validate_project_file` passes a parsed plan exactly when the plan is
      well formed: every top-level key present, and every required section
      with its paragraphs, segments and segment keys. */
  lemma StructureIssuesEmpty(plan: Plan)
    ensures StructureIssues(plan) == [] <==> WellFormed(plan)
  {
    var story := plan.story.GetOr([]);
    ConcatMapEmpty(RequiredKeys, KeyIssues(plan));
    ConcatMapEmpty(RequiredSections, SectionIssues(story));
    assert KeyIssues(plan)("story_structure") == KeyIssue(plan, "story_structure");
    assert KeyIssues(plan)("youtube_metadata") == KeyIssue(plan, "youtube_metadata");
    assert KeyIssues(plan)("ffmpeg_settings") == KeyIssue(plan, "ffmpeg_settings");
    SectionIssueEmpty(story, "intro");
    SectionIssueEmpty(story, "development");
    SectionIssueEmpty(story, "conclusion");
    assert SectionIssues(story)("intro") == SectionIssue(story, "intro");
    assert SectionIssues(story)("development") == SectionIssue(story, "development");
    assert SectionIssues(story)("conclusion") == SectionIssue(story, "conclusion");
  }

  /** A section the story lacks is reported by name. */
  lemma MissingSectionReported(plan: Plan, name: string)
    requires name in RequiredSections
    requires Lookup(plan.story.GetOr([]), name).None?
    ensures "Missing story section: " + name in StructureIssues(plan)
  {
    var story := plan.story.GetOr([]);
    ConcatMapContains(RequiredSections, name, SectionIssues(story), "Missing story section: " + name);
  }

  /** An issue of one element is among the issues of the whole list. */
  lemma {:induction false} ConcatMapContains<X, Y>(xs: seq<X>, x: X, f: X -> seq<Y>, y: Y)
    requires x in xs && y in f(x)
    ensures y in ConcatMap(xs, f)
    decreases |xs|
  {
    var init := xs[..|xs| - 1];
    if x != xs[|xs| - 1] {
      assert x in init by {
        var i :| 0 <= i < |xs| && xs[i] == x;
        assert init[i] == x;
      }
      ConcatMapContains(init, x, f, y);
    }
  }

  // The loops of `_validate_project_file`.

  /** The `seg_key` loop over one segment. */
  method CheckSegment(s: Segment) returns (issues: seq<string>)
    ensures issues == SegmentIssues(s)
    ensures issues == [] <==> SegmentComplete(s)
  {
    var f := SegmentKeyIssues(s);
    issues := [];
    var k := 0;
    while k < |SegmentKeys|
      invariant 0 <= k <= |SegmentKeys|
      invariant issues == ConcatMap(SegmentKeys[..k], f)
    {
      ConcatMapStep(SegmentKeys, k, f);
      if !SegmentHasKey(s, SegmentKeys[k]) {
        issues := issues + ["Missing " + SegmentKeys[k] + " in segment: " + s.segmentId.GetOr("unknown")];
      }
      k := k + 1;
    }
    assert SegmentKeys[..k] == SegmentKeys;
    SegmentIssuesEmpty(s);
  }

  /** The segment loop over one paragraph. */
  method CheckParagraph(p: Paragraph) returns (issues: seq<string>)
    ensures issues == ParagraphIssues(p)
    ensures issues == [] <==> ParagraphComplete(p)
  {
    ParagraphIssuesEmpty(p);
    if p.segments.None? {
      return ["Missing segments in paragraph: " + p.paragraphId.GetOr("unknown")];
    }
    var segs := p.segments.value;
    issues := [];
    var k := 0;
    while k < |segs|
      invariant 0 <= k <= |segs|
      invariant issues == ConcatMap(segs[..k], SegmentIssues)
    {
      ConcatMapStep(segs, k, SegmentIssues);
      var more := CheckSegment(segs[k]);
      issues := issues + more;
      k := k + 1;
    }
    assert segs[..k] == segs;
  }

  /** One required section: present, with paragraphs, each checked in turn. */
  method CheckSection(story: seq<(string, Section)>, name: string) returns (issues: seq<string>)
    ensures issues == SectionIssue(story, name)
    ensures issues == [] <==> SectionComplete(story, name)
  {
    SectionIssueEmpty(story, name);
    var found := Lookup(story, name);
    if found.None? {
      return ["Missing story section: " + name];
    }
    if found.value.paragraphs.None? {
      return ["Missing paragraphs in section: " + name];
    }
    var paras := found.value.paragraphs.value;
    issues := [];
    var k := 0;
    while k < |paras|
      invariant 0 <= k <= |paras|
      invariant issues == ConcatMap(paras[..k], ParagraphIssues)
    {
      ConcatMapStep(paras, k, ParagraphIssues);
      var more := CheckParagraph(paras[k]);
      issues := issues + more;
      k := k + 1;
    }
    assert paras[..k] == paras;
  }

  /** The required-key loop, then the required-section loop. */
  method CheckStructure(plan: Plan) returns (issues: seq<string>)
    ensures issues == StructureIssues(plan)
    ensures issues == [] <==> WellFormed(plan)
  {
    var keys := KeyIssues(plan);
    issues := [];
    var k := 0;
    while k < |RequiredKeys|
      invariant 0 <= k <= |RequiredKeys|
      invariant issues == ConcatMap(RequiredKeys[..k], keys)
    {
      ConcatMapStep(RequiredKeys, k, keys);
      if !HasKey(plan, RequiredKeys[k]) {
        issues := issues + ["Missing required key in project file: " + RequiredKeys[k]];
      }
      k := k + 1;
    }
    assert RequiredKeys[..k] == RequiredKeys;
    var story := plan.story.GetOr([]);
    var sections := SectionIssues(story);
    var tail: seq<string> := [];
    var j := 0;
    while j < |RequiredSections|
      invariant 0 <= j <= |RequiredSections|
      invariant tail == ConcatMap(RequiredSections[..j], sections)
    {
      ConcatMapStep(RequiredSections, j, sections);
      var more := CheckSection(story, RequiredSections[j]);
      tail := tail + more;
      j := j + 1;
    }
    assert RequiredSections[..j] == RequiredSections;
    issues := issues + tail;
    StructureIssuesEmpty(plan);
  }

  /** `_validate_project_file(path)`. */
  method ValidateProjectFile(fs: Fs, path: string) returns (ok: bool, issues: seq<string>)
    ensures issues == ProjectIssues(fs, path)
    ensures ok <==> ReadPlan(fs, path).Ok? && WellFormed(ReadPlan(fs, path).value)
    ensures ok <==> issues == []
    ensures ok ==> ReadPlan(fs, path).Ok? && StructureIssues(ReadPlan(fs, path).value) == []
  {
    match ReadPlan(fs, path) {
      case Err(issue) =>
        return false, [issue];
      case Ok(plan) =>
        issues := CheckStructure(plan);
        ok := issues == [];
    }
  }

  // ---------------------------------------------------------------------------
  // Required asset files.

  /** The truthy `segment_id`s among `segs`, in order. */
  function TruthyIds(segs: seq<Segment>): seq<string>
    decreases |segs|
  {
    if segs == [] then []
    else
      var s := segs[|segs| - 1];
      TruthyIds(segs[..|segs| - 1]) + (if s.segmentId.Some? && Truthy(s.segmentId.value) then [s.segmentId.value] else [])
  }

  /** An id is listed exactly when some segment carries it and it is non-empty. */
  lemma {:induction false} TruthyIdsMeaning(segs: seq<Segment>, id: string)
    ensures id in TruthyIds(segs) <==> Truthy(id) && exists s :: s in segs && s.segmentId == Some(id)
    decreases |segs|
  {
    if segs != [] {
      var init := segs[..|segs| - 1];
      TruthyIdsMeaning(init, id);
      assert forall s :: s in segs ==> s in init || s == segs[|segs| - 1];
      assert forall s :: s in init ==> s in segs;
    }
  }

  /** `_extract_required_assets`: the lenient walk (`.get` with empty defaults)
      over every segment, adding `<id>.wav` and `<id>.png` for each truthy id. */
  method ExtractRequiredAssets(plan: Plan) returns (audio: seq<string>, images: seq<string>)
    ensures var ids := TruthyIds(AllSegments(plan));
      && |audio| == |ids| && |images| == |ids|
      && (forall i :: 0 <= i < |ids| ==> audio[i] == ids[i] + ".wav" && images[i] == ids[i] + ".png")
    ensures audio == AudioNames(plan) && images == ImageNames(plan)
  {
    var segs := AllSegments(plan);
    audio, images := [], [];
    var k := 0;
    while k < |segs|
      invariant 0 <= k <= |segs|
      invariant var ids := TruthyIds(segs[..k]);
        && |audio| == |ids| && |images| == |ids|
        && (forall i :: 0 <= i < |ids| ==> audio[i] == ids[i] + ".wav" && images[i] == ids[i] + ".png")
    {
      assert segs[..k + 1][..k] == segs[..k];
      var id := segs[k].segmentId;
      if id.Some? && Truthy(id.value) {
        audio := audio + [id.value + ".wav"];
        images := images + [id.value + ".png"];
      }
      k := k + 1;
    }
    assert segs[..k] == segs;
    SuffixedEq(TruthyIds(segs), ".wav", audio);
    SuffixedEq(TruthyIds(segs), ".png", images);
  }

  lemma SuffixedEq(ids: seq<string>, suffix: string, r: seq<string>)
    requires |r| == |ids| && forall i :: 0 <= i < |ids| ==> r[i] == ids[i] + suffix
    ensures r == Suffixed(ids, suffix)
  {
  }

  function AudioNames(plan: Plan): seq<string> {
    Suffixed(TruthyIds(AllSegments(plan)), ".wav")
  }

  function ImageNames(plan: Plan): seq<string> {
    Suffixed(TruthyIds(AllSegments(plan)), ".png")
  }

  function Suffixed(ids: seq<string>, suffix: string): (r: seq<string>)
    ensures |r| == |ids| && forall i :: 0 <= i < |ids| ==> r[i] == ids[i] + suffix
    decreases |ids|
  {
    if ids == [] then [] else Suffixed(ids[..|ids| - 1], suffix) + [ids[|ids| - 1] + suffix]
  }

  // ---------------------------------------------------------------------------
  // Audio and image files.

  datatype AssetKind = AudioAsset | ImageAsset

  function KindLabel(k: AssetKind): string {
    match k
    case AudioAsset => "Audio"
    case ImageAsset => "Image"
  }

  function Check(k: AssetKind, c: Config, fs: Fs, path: string, now: int): Verdict {
    match k
    case AudioAsset => VerifyAudio(c, fs, path, now)
    case ImageAsset => VerifyImage(c, fs, path, now)
  }

  predicate Acceptable(k: AssetKind, c: Config, fs: Fs, path: string, now: int) {
    match k
    case AudioAsset => AudioAcceptable(c, fs, path, now)
    case ImageAsset => ImageAcceptable(c, fs, path, now)
  }

  function FileIssue(k: AssetKind, c: Config, fs: Fs, folder: string, now: int, name: string): seq<string> {
    var v := Check(k, c, fs, Join(folder, name), now);
    if v.valid then [] else [KindLabel(k) + ": " + v.message]
  }

  function FileIssues(k: AssetKind, c: Config, fs: Fs, folder: string, now: int): string -> seq<string> {
    (name: string) => FileIssue(k, c, fs, folder, now, name)
  }

  /** What `_validate_audio_assets` / `_validate_image_assets` report. */
  function AssetIssues(k: AssetKind, c: Config, fs: Fs, names: seq<string>, folder: string, now: int): seq<string> {
    if !Exists(fs, folder) then [KindLabel(k) + " folder not found: " + folder]
    else ConcatMap(names, FileIssues(k, c, fs, folder, now))
  }

  /** The files among `names` that fail verification, in order. */
  function Failing(k: AssetKind, c: Config, fs: Fs, names: seq<string>, folder: string, now: int): seq<string>
    decreases |names|
  {
    if names == [] then []
    else
      var n := names[|names| - 1];
      Failing(k, c, fs, names[..|names| - 1], folder, now)
        + (if Acceptable(k, c, fs, Join(folder, n), now) then [] else [n])
  }

  lemma CheckMeaning(k: AssetKind, c: Config, fs: Fs, path: string, now: int)
    ensures Check(k, c, fs, path, now).valid <==> Acceptable(k, c, fs, path, now)
  {
  }

  /** With the folder present there is exactly one issue per failing file, in
      order, and it carries that file's verdict. */
  lemma {:induction false} AssetIssuesPerFile(k: AssetKind, c: Config, fs: Fs, names: seq<string>, folder: string, now: int)
    requires Exists(fs, folder)
    ensures var issues := AssetIssues(k, c, fs, names, folder, now);
      var failing := Failing(k, c, fs, names, folder, now);
      && |issues| == |failing|
      && forall i :: 0 <= i < |failing| ==>
           issues[i] == KindLabel(k) + ": " + Check(k, c, fs, Join(folder, failing[i]), now).message
    decreases |names|
  {
    if names != [] {
      var init := names[..|names| - 1];
      var n := names[|names| - 1];
      AssetIssuesPerFile(k, c, fs, init, folder, now);
      CheckMeaning(k, c, fs, Join(folder, n), now);
    }
  }

  /** The asset check passes exactly when the folder exists and every listed file
      is acceptable. */
  lemma AssetIssuesEmpty(k: AssetKind, c: Config, fs: Fs, names: seq<string>, folder: string, now: int)
    ensures AssetIssues(k, c, fs, names, folder, now) == [] <==>
      Exists(fs, folder) && forall n :: n in names ==> Acceptable(k, c, fs, Join(folder, n), now)
  {
    if Exists(fs, folder) {
      var f := FileIssues(k, c, fs, folder, now);
      ConcatMapEmpty(names, f);
      forall n | n in names ensures f(n) == [] <==> Acceptable(k, c, fs, Join(folder, n), now) {
        CheckMeaning(k, c, fs, Join(folder, n), now);
      }
    }
  }

  /** `_validate_audio_assets` / `_validate_image_assets`: a missing folder is one
      issue and stops; otherwise each file is verified in turn. */
  method ValidateAssets(k: AssetKind, c: Config, fs: Fs, names: seq<string>, folder: string, now: int)
    returns (ok: bool, issues: seq<string>)
    ensures issues == AssetIssues(k, c, fs, names, folder, now)
    ensures ok <==> issues == []
  {
    if !Exists(fs, folder) {
      return false, [KindLabel(k) + " folder not found: " + folder];
    }
    var f := FileIssues(k, c, fs, folder, now);
    issues := [];
    var i := 0;
    while i < |names|
      invariant 0 <= i <= |names|
      invariant issues == ConcatMap(names[..i], f)
    {
      ConcatMapStep(names, i, f);
      var v := Check(k, c, fs, Join(folder, names[i]), now);
      if !v.valid {
        issues := issues + [KindLabel(k) + ": " + v.message];
      }
      i := i + 1;
    }
    assert names[..i] == names;
    ok := |issues| == 0;
  }

  // ---------------------------------------------------------------------------
  // Music.

  /** A music file by its name's extension, ignoring case. */
  predicate IsMusicName(name: string) {
    var l := Lower(name);
    EndsWith(l, ".mp3") || EndsWith(l, ".wav") || EndsWith(l, ".m4a") || EndsWith(l, ".aac")
  }

  function MusicFiles(names: seq<string>): (r: seq<string>)
    ensures forall n :: n in r <==> n in names && IsMusicName(n)
    decreases |names|
  {
    if names == [] then []
    else
      var init, n := names[..|names| - 1], names[|names| - 1];
      assert forall m :: m in names <==> m in init || m == n;
      MusicFiles(init) + (if IsMusicName(n) then [n] else [])
  }

  /** The loop over `os.listdir(music_folder)`. */
  method CollectMusicFiles(names: seq<string>) returns (files: seq<string>)
    ensures files == MusicFiles(names)
  {
    files := [];
    var i := 0;
    while i < |names|
      invariant 0 <= i <= |names|
      invariant files == MusicFiles(names[..i])
    {
      assert names[..i + 1][..i] == names[..i];
      if IsMusicName(names[i]) {
        files := files + [names[i]];
      }
      i := i + 1;
    }
    assert names[..i] == names;
  }

  function MusicIssues(c: Config, fs: Fs): (r: seq<string>)
    ensures |r| <= 1
  {
    var folder := MusicFolder(c);
    if !Exists(fs, folder) then ["Music folder not found: " + folder]
    else match ListDir(fs, folder)
      case Err(e) => ["Cannot read music folder: " + e]
      case Ok(names) => if MusicFiles(names) == [] then ["No music files found in: " + folder] else []
  }

  /** The music check passes exactly when the configured folder is a directory
      holding an entry with a music extension, in any case. */
  lemma MusicIssuesEmpty(c: Config, fs: Fs)
    ensures MusicIssues(c, fs) == [] <==>
      IsDir(fs, MusicFolder(c)) && exists n :: n in fs.entries[MusicFolder(c)].names && IsMusicName(n)
  {
    var folder := MusicFolder(c);
    if IsDir(fs, folder) {
      var names := fs.entries[folder].names;
      if MusicFiles(names) != [] {
        assert MusicFiles(names)[0] in MusicFiles(names);
      }
    }
  }

  /** `_validate_music_assets`. */
  method ValidateMusic(c: Config, fs: Fs) returns (ok: bool, issues: seq<string>)
    ensures issues == MusicIssues(c, fs)
    ensures ok <==> issues == []
  {
    var folder := MusicFolder(c);
    if !Exists(fs, folder) {
      return false, ["Music folder not found: " + folder];
    }
    match ListDir(fs, folder) {
      case Err(e) =>
        return false, ["Cannot read music folder: " + e];
      case Ok(names) =>
        var files := CollectMusicFiles(names);
        if files == [] {
          return false, ["No music files found in: " + folder];
        }
        return true, [];
    }
  }

  // ---------------------------------------------------------------------------
  // The whole gate.

  /** What `validate_all_assets` returns. The project file is read once: when
      `_validate_project_file` passes, the second read at lines 55-60 sees the
      same file and cannot fail. */
  function Validation(c: Config, fs: Fs, projectPath: string, audioFolder: string, imageFolder: string, now: int)
    : (bool, seq<string>)
  {
    if !VerifyBeforeEditor(c) then (true, [])
    else match ReadPlan(fs, projectPath)
      case Err(issue) => (false, [issue])
      case Ok(plan) =>
        if StructureIssues(plan) != [] then (false, StructureIssues(plan))
        else
          var issues := FileCheckIssues(c, fs, plan, audioFolder, imageFolder, now);
          (issues == [], issues)
  }

  /** Audio issues, then image issues, then music issues. */
  function FileCheckIssues(c: Config, fs: Fs, plan: Plan, audioFolder: string, imageFolder: string, now: int): seq<string> {
    AssetIssues(AudioAsset, c, fs, AudioNames(plan), audioFolder, now)
      + AssetIssues(ImageAsset, c, fs, ImageNames(plan), imageFolder, now)
      + MusicIssues(c, fs)
  }

  /** Every asset the gate accepts, stated without the issue lists. */
  predicate AllAssetsValid(c: Config, fs: Fs, plan: Plan, audioFolder: string, imageFolder: string, now: int) {
    && Exists(fs, audioFolder)
    && (forall n :: n in AudioNames(plan) ==> AudioAcceptable(c, fs, Join(audioFolder, n), now))
    && Exists(fs, imageFolder)
    && (forall n :: n in ImageNames(plan) ==> ImageAcceptable(c, fs, Join(imageFolder, n), now))
    && IsDir(fs, MusicFolder(c))
    && exists n :: n in fs.entries[MusicFolder(c)].names && IsMusicName(n)
  }

  /** When enabled, the gate passes exactly when the project file parses to a
      well-formed plan and every required audio file, every required image and the
      music folder are valid; a disabled gate passes with no issue. */
  lemma ValidationMeaning(c: Config, fs: Fs, projectPath: string, audioFolder: string, imageFolder: string, now: int)
    ensures !VerifyBeforeEditor(c) ==> Validation(c, fs, projectPath, audioFolder, imageFolder, now) == (true, [])
    ensures VerifyBeforeEditor(c) ==>
      (Validation(c, fs, projectPath, audioFolder, imageFolder, now).0 <==>
        && ReadPlan(fs, projectPath).Ok?
        && WellFormed(ReadPlan(fs, projectPath).value)
        && AllAssetsValid(c, fs, ReadPlan(fs, projectPath).value, audioFolder, imageFolder, now))
    ensures Validation(c, fs, projectPath, audioFolder, imageFolder, now).0 <==>
      Validation(c, fs, projectPath, audioFolder, imageFolder, now).1 == []
  {
    if VerifyBeforeEditor(c) && ReadPlan(fs, projectPath).Ok? {
      var plan := ReadPlan(fs, projectPath).value;
      StructureIssuesEmpty(plan);
      AssetIssuesEmpty(AudioAsset, c, fs, AudioNames(plan), audioFolder, now);
      AssetIssuesEmpty(ImageAsset, c, fs, ImageNames(plan), imageFolder, now);
      MusicIssuesEmpty(c, fs);
    }
  }

  /** An invalid project file ends the gate with the project issues alone: no
      asset or music issue is added. */
  lemma InvalidProjectStops(c: Config, fs: Fs, projectPath: string, audioFolder: string, imageFolder: string, now: int)
    requires VerifyBeforeEditor(c)
    requires ProjectIssues(fs, projectPath) != []
    ensures Validation(c, fs, projectPath, audioFolder, imageFolder, now) == (false, ProjectIssues(fs, projectPath))
  {
  }

  /** `validate_all_assets(project_file_path, audio_folder, image_folder)`. */
  method ValidateAllAssets(c: Config, fs: Fs, projectPath: string, audioFolder: string, imageFolder: string, now: int)
    returns (ok: bool, issues: seq<string>)
    ensures (ok, issues) == Validation(c, fs, projectPath, audioFolder, imageFolder, now)
  {
    if !VerifyBeforeEditor(c) {
      return true, [];
    }
    var projectOk, projectIssues := ValidateProjectFile(fs, projectPath);
    if !projectOk {
      InvalidProjectStops(c, fs, projectPath, audioFolder, imageFolder, now);
      return false, projectIssues;
    }
    var plan := ReadPlan(fs, projectPath).value;
    ok, issues := CheckFiles(c, fs, plan, audioFolder, imageFolder, now);
    ValidationOfWellFormed(c, fs, projectPath, audioFolder, imageFolder, now, plan);
  }

  /** Steps 2 to 5 of `validate_all_assets`, once the project file passed. */
  method CheckFiles(c: Config, fs: Fs, plan: Plan, audioFolder: string, imageFolder: string, now: int)
    returns (ok: bool, issues: seq<string>)
    ensures issues == FileCheckIssues(c, fs, plan, audioFolder, imageFolder, now)
    ensures ok <==> issues == []
  {
    var audio, images := ExtractRequiredAssets(plan);
    var audioOk, audioIssues := ValidateAssets(AudioAsset, c, fs, audio, audioFolder, now);
    var imageOk, imageIssues := ValidateAssets(ImageAsset, c, fs, images, imageFolder, now);
    var musicOk, musicIssues := ValidateMusic(c, fs);
    // A check that passed has no issues, so extending by its list only when it
    // failed is extending by every list.
    issues := audioIssues + imageIssues + musicIssues;
    ok := |issues| == 0;
  }

  lemma ValidationOfWellFormed(c: Config, fs: Fs, projectPath: string, audioFolder: string, imageFolder: string, now: int, plan: Plan)
    requires VerifyBeforeEditor(c)
    requires ReadPlan(fs, projectPath).Ok? && ReadPlan(fs, projectPath).value == plan
    requires StructureIssues(plan) == []
    ensures var issues := FileCheckIssues(c, fs, plan, audioFolder, imageFolder, now);
      Validation(c, fs, projectPath, audioFolder, imageFolder, now) == (issues == [], issues)
  {
  }

  // ---------------------------------------------------------------------------
  // Reporting.

  datatype Report = Report(audioMissing: seq<string>, imagesMissing: seq<string>, otherIssues: seq<string>)

  predicate IsAudioMissing(issue: string) {
    Contains(issue, "Audio:") && Contains(issue, "not found")
  }

  predicate IsImageMissing(issue: string) {
    !IsAudioMissing(issue) && Contains(issue, "Image:") && Contains(issue, "not found")
  }

  const AudioMissingPrefix := "Audio: Audio file not found: "
  const ImageMissingPrefix := "Image: Image file not found: "

  /** The report of `generate_missing_asset_report`, built from the end. */
  function ReportOf(issues: seq<string>): Report
    decreases |issues|
  {
    if issues == [] then Report([], [], [])
    else
      var r := ReportOf(issues[..|issues| - 1]);
      var x := issues[|issues| - 1];
      if IsAudioMissing(x) then r.(audioMissing := r.audioMissing + [RemoveAll(x, AudioMissingPrefix)])
      else if IsImageMissing(x) then r.(imagesMissing := r.imagesMissing + [RemoveAll(x, ImageMissingPrefix)])
      else r.(otherIssues := r.otherIssues + [x])
  }

  /** Every issue lands in exactly one bucket: the bucket sizes add up, the
      missing-file buckets are non-empty exactly when such an issue occurs, and
      the other bucket holds exactly the remaining issues. */
  lemma {:induction false} ReportPartition(issues: seq<string>)
    ensures var r := ReportOf(issues);
      && |r.audioMissing| + |r.imagesMissing| + |r.otherIssues| == |issues|
      && (r.audioMissing != [] <==> exists i :: 0 <= i < |issues| && IsAudioMissing(issues[i]))
      && (r.imagesMissing != [] <==> exists i :: 0 <= i < |issues| && IsImageMissing(issues[i]))
      && (forall x :: x in r.otherIssues <==> x in issues && !IsAudioMissing(x) && !IsImageMissing(x))
    decreases |issues|
  {
    if issues != [] {
      var init := issues[..|issues| - 1];
      var x := issues[|issues| - 1];
      ReportPartition(init);
      assert forall i :: 0 <= i < |init| ==> init[i] == issues[i];
      assert forall y :: y in issues <==> y in init || y == x;
      if exists i :: 0 <= i < |issues| && IsAudioMissing(issues[i]) {
        var i :| 0 <= i < |issues| && IsAudioMissing(issues[i]);
        if i < |init| { assert IsAudioMissing(init[i]); }
      }
      if exists i :: 0 <= i < |issues| && IsImageMissing(issues[i]) {
        var i :| 0 <= i < |issues| && IsImageMissing(issues[i]);
        if i < |init| { assert IsImageMissing(init[i]); }
      }
    }
  }

  /** A missing-audio issue as the gate words it goes back to the file's path. */
  lemma MissingAudioPathRecovered(path: string)
    requires !Contains(path, AudioMissingPrefix)
    ensures IsAudioMissing(AudioMissingPrefix + path)
    ensures ReportOf([AudioMissingPrefix + path]).audioMissing == [path]
  {
    var issue := AudioMissingPrefix + path;
    assert OccursAt(issue, "Audio:", 0);
    assert OccursAt(issue, "not found", 18);
    RemovePrefixOnce(AudioMissingPrefix, path);
  }

  /** `generate_missing_asset_report(issues)`. */
  method GenerateMissingAssetReport(issues: seq<string>) returns (r: Report)
    ensures r == ReportOf(issues)
  {
    r := Report([], [], []);
    var i := 0;
    while i < |issues|
      invariant 0 <= i <= |issues|
      invariant r == ReportOf(issues[..i])
    {
      assert issues[..i + 1][..i] == issues[..i];
      var x := issues[i];
      if IsAudioMissing(x) {
        r := r.(audioMissing := r.audioMissing + [RemoveAll(x, AudioMissingPrefix)]);
      } else if IsImageMissing(x) {
        r := r.(imagesMissing := r.imagesMissing + [RemoveAll(x, ImageMissingPrefix)]);
      } else {
        r := r.(otherIssues := r.otherIssues + [x]);
      }
      i := i + 1;
    }
    assert issues[..i] == issues;
  }

  const AudioHint := "\U{11F}\U{178}\U{A4} Run narrator module to generate missing audio files"
  const ImageHint := "\U{11F}\U{178}\U{A8} Run image_director module to generate missing images"
  const MusicHint := "\U{11F}\U{178}\U{B5} Create music folder and add background music files"
  const PlanHint := "\U{11F}\U{178}\U{201C}\U{2039} Fix project.json file structure or regenerate with director module"

  /** The hints whose condition holds, in the fixed order. */
  function Hints(audio: bool, images: bool, music: bool, plan: bool): seq<string> {
    (if audio then [AudioHint] else [])
      + (if images then [ImageHint] else [])
      + (if music then [MusicHint] else [])
      + (if plan then [PlanHint] else [])
  }

  /** Each hint is listed exactly when its condition holds, and at most once. */
  lemma HintsMeaning(audio: bool, images: bool, music: bool, plan: bool)
    ensures var r := Hints(audio, images, music, plan);
      && NoDup(r)
      && (AudioHint in r <==> audio) && (ImageHint in r <==> images)
      && (MusicHint in r <==> music) && (PlanHint in r <==> plan)
  {
    // The four hints differ in length.
    assert |AudioHint| == 55 && |ImageHint| == 56 && |MusicHint| == 54 && |PlanHint| == 71;
  }

  /** `suggest_recovery_actions(issues)`: one hint per kind of trouble, in a
      fixed order. The music hint needs "Music folder" and the plan hint the
      capitalised "Project file" in an issue outside the missing-file buckets. */
  function SuggestRecoveryActions(issues: seq<string>): (r: seq<string>)
    ensures NoDup(r)
    ensures AudioHint in r <==> exists i :: 0 <= i < |issues| && IsAudioMissing(issues[i])
    ensures ImageHint in r <==> exists i :: 0 <= i < |issues| && IsImageMissing(issues[i])
    ensures MusicHint in r <==> exists x :: x in issues && !IsAudioMissing(x) && !IsImageMissing(x) && Contains(x, "Music folder")
    ensures PlanHint in r <==> exists x :: x in issues && !IsAudioMissing(x) && !IsImageMissing(x) && Contains(x, "Project file")
  {
    var report := ReportOf(issues);
    ReportPartition(issues);
    var other := report.otherIssues;
    var music := other != [] && exists x :: x in other && Contains(x, "Music folder");
    var plan := other != [] && exists x :: x in other && Contains(x, "Project file");
    HintsMeaning(report.audioMissing != [], report.imagesMissing != [], music, plan);
    Hints(report.audioMissing != [], report.imagesMissing != [], music, plan)
  }
}
