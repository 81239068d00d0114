/** What the producer keeps about a project between runs: the completed steps
    (`status.json`), the digests of the files each step produced
    (`integrity.json`), and how a project folder is named and found again. */
module Progress {
  import opened Base
  import opened Plan
  import opened Files

  // ---------------------------------------------------------------------------
  // Project slug

  /** `str.isalnum` on the characters project topics use: ASCII letters and
      digits, and the Latin letters U+00C0..U+024F (which hold the Turkish
      ones) except the signs U+00D7 and U+00F7. */
  predicate IsAlnum(c: char) {
    || 'a' <= c <= 'z' || 'A' <= c <= 'Z' || '0' <= c <= '9'
    || ('À' <= c <= 'ɏ' && c != '×' && c != '÷')
  }

  /** The characters the slug keeps: alphanumerics, space, `_` and `-`. */
  predicate Kept(c: char) {
    IsAlnum(c) || c == ' ' || c == '_' || c == '-'
  }

  /** A character a finished slug may hold. */
  predicate SlugChar(c: char) {
    IsAlnum(c) || c == '_' || c == '-'
  }

  function KeepChars(s: string): string {
    if s == [] then [] else (if Kept(s[0]) then [s[0]] else []) + KeepChars(s[1..])
  }

  /** `str.rstrip()` on a string whose only white space is the space. */
  function TrimEnd(s: string): string {
    if s != [] && s[|s| - 1] == ' ' then TrimEnd(s[..|s| - 1]) else s
  }

  /** `str.replace(" ", "_")` */
  function Underscored(s: string): string {
    seq(|s|, i requires 0 <= i < |s| => if s[i] == ' ' then '_' else s[i])
  }

  /** `_slugify` */
  function Slugify(text: string): string {
    Underscored(TrimEnd(KeepChars(text)))
  }

  /** The folder name of a new project: the first 50 characters of the slug
      (all of it when it is shorter), so it holds no space either. */
  function ProjectSlug(topic: string): (r: string)
    ensures |r| == (if |Slugify(topic)| <= 50 then |Slugify(topic)| else 50)
    ensures r == Slugify(topic)[..|r|]
    ensures forall i :: 0 <= i < |r| ==> SlugChar(r[i])
  {
    SlugifyMeaning(topic);
    var s := Slugify(topic);
    if |s| <= 50 then s else s[..50]
  }

  /** `channels/<channel slug>/<project slug>` */
  function NewProjectPath(channelSlug: string, topic: string): string {
    Join(Join("channels", channelSlug), ProjectSlug(topic))
  }

  lemma {:induction false} KeepCharsKept(s: string)
    ensures forall i :: 0 <= i < |KeepChars(s)| ==> Kept(KeepChars(s)[i])
    ensures |KeepChars(s)| <= |s|
    ensures (forall i :: 0 <= i < |s| ==> Kept(s[i])) ==> KeepChars(s) == s
  {
    if s != [] {
      KeepCharsKept(s[1..]);
      var head := if Kept(s[0]) then [s[0]] else [];
      assert KeepChars(s) == head + KeepChars(s[1..]);
      forall i | 0 <= i < |KeepChars(s)| ensures Kept(KeepChars(s)[i]) {
        if i >= |head| {
          assert KeepChars(s)[i] == KeepChars(s[1..])[i - |head|];
        }
      }
    }
  }

  lemma {:induction false} TrimEndPrefix(s: string)
    ensures |TrimEnd(s)| <= |s| && TrimEnd(s) == s[..|TrimEnd(s)|]
    ensures TrimEnd(s) == [] || TrimEnd(s)[|TrimEnd(s)| - 1] != ' '
    decreases |s|
  {
    if s != [] && s[|s| - 1] == ' ' {
      TrimEndPrefix(s[..|s| - 1]);
    }
  }

  /** A slug holds only alphanumerics, `_` and `-`, so it has no space; it is
      no longer than the topic; slugifying it again leaves it as it is; and a
      topic made only of alphanumerics is its own slug. */
  lemma SlugifyMeaning(text: string)
    ensures forall i :: 0 <= i < |Slugify(text)| ==> SlugChar(Slugify(text)[i])
    ensures |Slugify(text)| <= |text|
    ensures Slugify(Slugify(text)) == Slugify(text)
    ensures (forall i :: 0 <= i < |text| ==> IsAlnum(text[i])) ==> Slugify(text) == text
  {
    var kept := KeepChars(text);
    KeepCharsKept(text);
    TrimEndPrefix(kept);
    var trimmed := TrimEnd(kept);
    assert forall i :: 0 <= i < |trimmed| ==> trimmed[i] == kept[i];
    var r := Slugify(text);
    assert r == Underscored(trimmed);
    assert forall i :: 0 <= i < |r| ==> SlugChar(r[i]);
    // Slugifying `r` again: every character is kept, nothing is trimmed, and
    // there is no space to replace.
    KeepCharsKept(r);
    assert KeepChars(r) == r;
    assert r == [] || r[|r| - 1] != ' ';
    assert TrimEnd(r) == r;
    assert Underscored(r) == r;
    if forall i :: 0 <= i < |text| ==> IsAlnum(text[i]) {
      assert kept == text;
      assert text == [] || text[|text| - 1] != ' ';
      assert trimmed == text;
      assert Underscored(text) == text;
    }
  }

  // ---------------------------------------------------------------------------
  // Saved state

  function StatusPath(projectPath: string): string {
    Join(projectPath, "status.json")
  }

  function IntegrityPath(projectPath: string): string {
    Join(projectPath, "integrity.json")
  }

  /** `read_json` of a project's `status.json`, as the step list it holds:
      `None` when the file is missing, cannot be read or holds no object. */
  function SavedSteps(fs: Fs, projectPath: string): Option<seq<string>> {
    var path := StatusPath(projectPath);
    if path in fs.entries && fs.entries[path].File? then fs.entries[path].rec.steps else None
  }

  function SavedHashes(fs: Fs, projectPath: string): Option<map<string, string>> {
    var path := IntegrityPath(projectPath);
    if path in fs.entries && fs.entries[path].File? then fs.entries[path].rec.hashes else None
  }

  /** `load_status`: the saved steps, or none. */
  function LoadedSteps(fs: Fs, projectPath: string): seq<string> {
    SavedSteps(fs, projectPath).GetOr([])
  }

  /** `load_hash_status`: the saved digests, or none. */
  function LoadedHashes(fs: Fs, projectPath: string): map<string, string> {
    SavedHashes(fs, projectPath).GetOr(map[])
  }

  /** A JSON file the producer writes. Only the attribute read back from it is
      given; the others are those of a file that is not an image, a WAVE file
      or a production plan. */
  function JsonFile(steps: Option<seq<string>>, hashes: Option<map<string, string>>): FileRecord {
    FileRecord(0, 0, Err("cannot identify image file"), Err("file does not start with RIFF id"),
      None, Err("not a production plan"), steps, hashes)
  }

  /** `verify_file_integrity`: every recorded file still has the digest it was
      recorded with (a missing or unreadable file has none). */
  predicate Intact(fs: Fs, hashes: map<string, string>) {
    forall path :: path in hashes ==> Digest(fs, path) == Some(hashes[path])
  }

  /** The digest `complete_step` records for a file: present and non-empty. */
  predicate Hashable(fs: Fs, path: string) {
    Exists(fs, path) && Digest(fs, path).Some? && Digest(fs, path).value != ""
  }

  /** The digest table after `complete_step` hashed `files`, in order. */
  function Hashed(hashes: map<string, string>, fs: Fs, files: seq<string>): map<string, string>
    decreases |files|
  {
    if files == [] then hashes
    else
      var before := Hashed(hashes, fs, files[..|files| - 1]);
      var path := files[|files| - 1];
      if Hashable(fs, path) then before[path := Digest(fs, path).value] else before
  }

  /** Hashing records exactly the hashable files among `files`, with their
      current digests, and keeps every other entry as it was. */
  lemma {:induction false} HashedMeaning(hashes: map<string, string>, fs: Fs, files: seq<string>)
    ensures forall p :: p in Hashed(hashes, fs, files) <==> p in hashes || (p in files && Hashable(fs, p))
    ensures forall p :: p in files && Hashable(fs, p) ==> Hashed(hashes, fs, files)[p] == Digest(fs, p).value
    ensures forall p :: p in hashes && !(p in files && Hashable(fs, p)) ==> Hashed(hashes, fs, files)[p] == hashes[p]
    decreases |files|
  {
    if files != [] {
      var init := files[..|files| - 1];
      HashedMeaning(hashes, fs, init);
      assert forall p :: p in files <==> p in init || p == files[|files| - 1];
    }
  }

  /** The step list after `complete_step(step)`: the step is recorded once, the
      earlier steps keep their order, and a list free of repetitions stays so. */
  function CompletedSteps(steps: seq<string>, step: string): (r: seq<string>)
    ensures forall s :: s in r <==> s in steps || s == step
    ensures |steps| <= |r| <= |steps| + 1 && r[..|steps|] == steps
    ensures NoDup(steps) ==> NoDup(r)
  {
    if step in steps then steps else steps + [step]
  }

  /** `save_status`, then `save_hash_status` when files were given. */
  function SaveProgress(fs: Fs, projectPath: string, steps: seq<string>, hashes: map<string, string>, hashed: bool): Fs {
    var saved := WriteFile(fs, StatusPath(projectPath), JsonFile(Some(steps), None));
    if hashed then WriteFile(saved, IntegrityPath(projectPath), JsonFile(None, Some(hashes))) else saved
  }

  /** The saved state, read back from a filesystem `SaveProgress` wrote: the
      steps always, the digests when they were written. */
  lemma SaveProgressReloads(fs: Fs, projectPath: string, steps: seq<string>, hashes: map<string, string>, hashed: bool)
    ensures LoadedSteps(SaveProgress(fs, projectPath, steps, hashes, hashed), projectPath) == steps
    ensures hashed ==> LoadedHashes(SaveProgress(fs, projectPath, steps, hashes, hashed), projectPath) == hashes
    ensures !hashed ==> LoadedHashes(SaveProgress(fs, projectPath, steps, hashes, hashed), projectPath) == LoadedHashes(fs, projectPath)
  {
    assert |StatusPath(projectPath)| != |IntegrityPath(projectPath)|;
  }

  // ---------------------------------------------------------------------------
  // Unfinished projects

  /** An entry of the list `check_incomplete_projects` returns. */
  datatype Unfinished = Unfinished(name: string, path: string, lastStep: string)

  /** The entry one listed name contributes: a project folder whose status has
      steps, none of them `upload`. */
  function UnfinishedEntry(fs: Fs, folder: string): string -> seq<Unfinished> {
    (name: string) =>
      var path := Join(folder, name);
      if !IsDir(fs, path) then []
      else match SavedSteps(fs, path)
        case None => []
        case Some(steps) =>
          if steps != [] && "upload" !in steps then [Unfinished(name, path, steps[|steps| - 1])] else []
  }

  function ChannelFolder(channelSlug: string): string {
    Join("channels", channelSlug)
  }

  /** `check_incomplete_projects`: the folder's listing, kept in order; a
      missing or unreadable channel folder yields nothing. */
  function UnfinishedProjects(fs: Fs, channelSlug: string): seq<Unfinished> {
    var folder := ChannelFolder(channelSlug);
    if !Exists(fs, folder) then []
    else match ListDir(fs, folder)
      case Err(_) => []
      case Ok(names) => ConcatMap(names, UnfinishedEntry(fs, folder))
  }

  lemma {:induction false} ConcatMapUnfinished(fs: Fs, folder: string, names: seq<string>)
    ensures forall u :: u in ConcatMap(names, UnfinishedEntry(fs, folder)) <==>
      exists name :: name in names && u in UnfinishedEntry(fs, folder)(name)
    decreases |names|
  {
    if names != [] {
      var init, last := names[..|names| - 1], names[|names| - 1];
      ConcatMapUnfinished(fs, folder, init);
      assert forall name :: name in names <==> name in init || name == last;
    }
  }

  /** A project is listed exactly when it is a folder in the channel folder's
      listing whose saved steps are non-empty and do not include `upload`; it
      is listed with its path and its last completed step. */
  lemma UnfinishedProjectsMeaning(fs: Fs, channelSlug: string, u: Unfinished)
    ensures u in UnfinishedProjects(fs, channelSlug) <==>
      && IsDir(fs, ChannelFolder(channelSlug))
      && u.name in fs.entries[ChannelFolder(channelSlug)].names
      && u.path == Join(ChannelFolder(channelSlug), u.name)
      && IsDir(fs, u.path)
      && SavedSteps(fs, u.path).Some?
      && var steps := SavedSteps(fs, u.path).value;
         steps != [] && "upload" !in steps && u.lastStep == steps[|steps| - 1]
  {
    var folder := ChannelFolder(channelSlug);
    if IsDir(fs, folder) {
      ConcatMapUnfinished(fs, folder, fs.entries[folder].names);
      if u in UnfinishedProjects(fs, channelSlug) {
        var name :| name in fs.entries[folder].names && u in UnfinishedEntry(fs, folder)(name);
        assert u.name == name;
      }
    }
  }
}
