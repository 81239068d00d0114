/** The publishing stage: the checks made before a video is sent (file size,
    the project's `youtube_metadata`, the upload body with its defaults) and
    the check on what the video service answers. */
module Uploader {
  import opened Base
  import opened Plan
  import opened Files
  import opened Config
  import opened Errors
  import opened Verifier
  import opened Retry

  const MiB: nat := 1024 * 1024

  /** The largest accepted video, in MiB (10 GiB). */
  const MaxVideoMiB: nat := 10240

  /** What `_validate_video_file` returns for an accepted file. */
  datatype VideoInfo = VideoInfo(sizeBytes: nat, path: string)

  /** `_validate_video_file(video_path)`, sizes compared in bytes. */
  function ValidateVideoFile(fs: Fs, path: string): (r: Result<VideoInfo, string>)
    ensures r.Ok? <==> Exists(fs, path) && MiB <= GetSize(fs, path) <= MaxVideoMiB * MiB
    ensures r.Ok? ==> r.value == VideoInfo(GetSize(fs, path), path)
    ensures !Exists(fs, path) ==> r == Err("Video file not found: " + path)
    ensures Exists(fs, path) && GetSize(fs, path) == 0 ==> r == Err("Video file is empty: " + path)
  {
    if !Exists(fs, path) then Err("Video file not found: " + path)
    else
      var size := GetSize(fs, path);
      if size == 0 then Err("Video file is empty: " + path)
      else if size > MaxVideoMiB * MiB then Err("Video file too large: " + Fixed(size, MiB, 2) + "MB (max 10GB)")
      else if size < MiB then Err("Video file too small: " + Fixed(size, MiB, 2) + "MB (min 1MB)")
      else Ok(VideoInfo(size, path))
  }

  /** The uploader's `read_project_file`: the plan must load and carry a
      `youtube_metadata` section. */
  function ReadUploadProject(fs: Fs, path: string): (r: Result<Plan, string>)
    ensures r.Ok? <==>
      && Exists(fs, path) && fs.entries[path].File?
      && fs.entries[path].rec.plan.Ok? && fs.entries[path].rec.plan.value.metadata.Some?
    ensures r.Ok? ==> r.value == fs.entries[path].rec.plan.value
  {
    if !Exists(fs, path) then Err("Project file not found: " + path)
    else match fs.entries[path]
      case Dir(_, _) => Err("Could not read project file: " + path)
      case File(rec) =>
        match rec.plan
        case Err(_) => Err("Could not read project file: " + path)
        case Ok(plan) =>
          if plan.metadata.None? then Err("'youtube_metadata' section missing from project file")
          else Ok(plan)
  }

  // ---------------------------------------------------------------------------
  // The upload body.

  /** The request body sent with the video. */
  datatype UploadBody = UploadBody(
    title: string,
    description: string,
    tags: seq<string>,
    categoryId: string,
    privacyStatus: string,
    madeForKids: bool)

  const CategoryIds: map<string, string> := map[
    "Film & Animation" := "1",
    "Autos & Vehicles" := "2",
    "Music" := "10",
    "Pets & Animals" := "15",
    "Sports" := "17",
    "Gaming" := "20",
    "People & Blogs" := "22",
    "Comedy" := "23",
    "Entertainment" := "24",
    "News & Politics" := "25",
    "Howto & Style" := "26",
    "Education" := "27",
    "Science & Technology" := "28"]

  /** The numeric category of a category name; an unknown name is Education. */
  function CategoryId(name: string): string {
    if name in CategoryIds then CategoryIds[name] else "27"
  }

  /** Every name gets one of the listed ids; only "Education" and unknown names
      get "27"; and two listed names never share an id, so a listed name is
      recovered from its id. */
  lemma CategoryIdMeaning(name: string, other: string)
    ensures CategoryId(name) in CategoryIds.Values
    ensures CategoryId(name) == "27" <==> name == "Education" || name !in CategoryIds
    ensures name in CategoryIds && other in CategoryIds && CategoryId(name) == CategoryId(other) ==> name == other
  {
    assert CategoryIds["Education"] == "27";
  }

  const NoMetadata := Metadata(None, None, None, None, None, None)

  /** `metadata.get(key)` is truthy. */
  predicate Given(v: Option<string>) {
    v.Some? && Truthy(v.value)
  }

  /** The category name: the plan's, else the configured default, else "Education". */
  function CategoryName(c: Config, m: Metadata): string {
    if Given(m.category) then m.category.value else c.defaultCategory.GetOr("Education")
  }

  /** The privacy status: the plan's, else the configured default, else "private". */
  function PrivacyName(c: Config, m: Metadata): string {
    if Given(m.privacyStatus) then m.privacyStatus.value else c.defaultPrivacyStatus.GetOr("private")
  }

  const ValidPrivacyStatuses := ["private", "public", "unlisted"]

  /** `_validate_and_prepare_metadata(project_data)`. A body is produced
      exactly when the plan has a non-empty title and description and the
      chosen privacy status is one of the three accepted; the title is checked
      before the description. The body carries that title and description, the
      plan's tags (none by default), the id of the chosen category, the chosen
      privacy status, and is never declared made for kids; with neither the plan
      nor the configuration naming them, the video is filed under Education and
      kept private. */
  function PrepareMetadata(c: Config, plan: Plan): (r: Result<UploadBody, string>)
    ensures var m := plan.metadata.GetOr(NoMetadata);
      && (r.Ok? <==> Given(m.title) && Given(m.description) && PrivacyName(c, m) in ValidPrivacyStatuses)
      && (!Given(m.title) ==> r == Err("Required metadata field 'title' is missing or empty"))
      && (Given(m.title) && !Given(m.description) ==> r == Err("Required metadata field 'description' is missing or empty"))
      && (r.Ok? ==>
            && r.value.title == m.title.value && r.value.description == m.description.value
            && r.value.tags == (if m.tags.Some? then m.tags.value else [])
            && r.value.categoryId == CategoryId(CategoryName(c, m))
            && r.value.privacyStatus == PrivacyName(c, m)
            && r.value.privacyStatus in ValidPrivacyStatuses
            && !r.value.madeForKids)
      && (r.Ok? && !Given(m.category) && c.defaultCategory.None? ==> r.value.categoryId == "27")
      && (r.Ok? && !Given(m.privacyStatus) && c.defaultPrivacyStatus.None? ==> r.value.privacyStatus == "private")
  {
    var m := plan.metadata.GetOr(NoMetadata);
    if !Given(m.title) then Err("Required metadata field 'title' is missing or empty")
    else if !Given(m.description) then Err("Required metadata field 'description' is missing or empty")
    else
      var privacy := PrivacyName(c, m);
      if privacy !in ValidPrivacyStatuses then
        Err("Invalid privacy status '" + privacy + "'. Must be: ['private', 'public', 'unlisted']")
      else
        Ok(UploadBody(m.title.value, m.description.value, m.tags.GetOr([]),
                      CategoryId(CategoryName(c, m)), privacy, false))
  }

  // ---------------------------------------------------------------------------
  // One upload.

  /** What one upload call ends in: one of its three steps raises, or the
      polling ends with a response that may or may not carry an `id`. */
  datatype UploadReply =
    | MediaFailed(error: string)
    | RequestFailed(error: string)
    | ChunkFailed(error: string)
    | Responded(id: Option<string>)

  datatype UploadResult = UploadResult(videoId: string, videoUrl: string)

  const WatchPrefix := "https://www.youtube.com/watch?v="

  /** One call of `perform_upload`; every failure is re-raised as a plain `Exception`. */
  function UploadAttempt(reply: UploadReply): Outcome<UploadResult> {
    match reply
    case MediaFailed(e) => Raises(PyError(Exception, "Failed to create media upload object: " + e))
    case RequestFailed(e) => Raises(PyError(Exception, "Failed to create upload request: " + e))
    case ChunkFailed(e) => Raises(PyError(Exception, "Upload execution failed: " + e))
    case Responded(id) =>
      if Given(id) then Succeeds(UploadResult(id.value, WatchPrefix + id.value))
      else Raises(PyError(Exception, "Upload execution failed: Upload completed but no video ID received"))
  }

  /** An upload succeeds exactly when the response carries a non-empty id; the
      URL is the watch address of that id, from which the id is read back.
      Every failure is a plain `Exception`, so the classifier retries it only
      when its message names a retryable kind. */
  lemma UploadAttemptMeaning(reply: UploadReply)
    ensures var o := UploadAttempt(reply);
      && (o.Succeeds? <==> reply.Responded? && Given(reply.id))
      && (o.Succeeds? ==>
            && o.value.videoId == reply.id.value
            && StartsWith(o.value.videoUrl, WatchPrefix)
            && o.value.videoUrl[|WatchPrefix|..] == o.value.videoId)
      && (o.Raises? ==> o.error.cls == Exception)
  {
    var o := UploadAttempt(reply);
    if o.Succeeds? {
      assert o.value.videoUrl[..|WatchPrefix|] == WatchPrefix;
      assert o.value.videoUrl[|WatchPrefix|..] == o.value.videoId;
    }
  }

  /** A failed upload call whose message names no retryable kind ends the retry
      loop at once: the upload is not repeated. */
  lemma PlainUploadFailureNotRetried(c: Config, replies: nat -> UploadReply)
    requires UploadAttempt(replies(0)).Raises?
    requires NoKeyword(QuotaKeywords(c), UploadAttempt(replies(0)).error.message)
    ensures MaxRetries(c, SYSTEM) >= 1 ==>
      RetrySpec(c, UploadAttempts(replies)) == RetryRun(Reraised(UploadAttempt(replies(0)).error), 1, [])
  {
    var run := UploadAttempts(replies);
    UploadAttemptMeaning(replies(0));
    PlainExceptionIsCodeBug(QuotaKeywords(c), run(0).error.message);
    if MaxRetries(c, SYSTEM) >= 1 {
      RetryFailsFast(c, run);
    }
  }

  function UploadAttempts(replies: nat -> UploadReply): nat -> Outcome<UploadResult> {
    (i: nat) => UploadAttempt(replies(i))
  }

  /** What the process reports when the retry loop gives up. */
  function FailureText(e: Ending<UploadResult>): string {
    match e
    case Reraised(err) => err.message
    case _ => "exceptions must derive from BaseException"
  }

  /** `upload_video(video_path, project_file_path)`, where `service(body)(i)` is
      how upload call `i` of that body ends. */
  function UploadVideo(c: Config, fs: Fs, videoPath: string, projectPath: string, service: UploadBody -> nat -> UploadReply): Result<UploadResult, string> {
    match ValidateVideoFile(fs, videoPath)
    case Err(e) => Err(e)
    case Ok(_) =>
      match ReadUploadProject(fs, projectPath)
      case Err(e) => Err(e)
      case Ok(plan) =>
        match PrepareMetadata(c, plan)
        case Err(e) => Err(e)
        case Ok(body) =>
          var run := RetrySpec(c, UploadAttempts(service(body)));
          if run.ending.Returned? then Ok(run.ending.value)
          else Err("Video upload failed permanently: " + FailureText(run.ending))
  }

  /** The checks come first and in order: an unacceptable video stops the stage
      before the project is read, an unusable project before the metadata is
      prepared; and a published video has a non-empty id that some upload call
      of the prepared body returned. */
  lemma UploadVideoMeaning(c: Config, fs: Fs, videoPath: string, projectPath: string, service: UploadBody -> nat -> UploadReply)
    ensures var r := UploadVideo(c, fs, videoPath, projectPath, service);
      && (ValidateVideoFile(fs, videoPath).Err? ==> r == Err(ValidateVideoFile(fs, videoPath).error))
      && (ValidateVideoFile(fs, videoPath).Ok? && ReadUploadProject(fs, projectPath).Err? ==>
            r == Err(ReadUploadProject(fs, projectPath).error))
      && (r.Ok? ==>
            && ValidateVideoFile(fs, videoPath).Ok?
            && ReadUploadProject(fs, projectPath).Ok?
            && PrepareMetadata(c, ReadUploadProject(fs, projectPath).value).Ok?
            && Given(Some(r.value.videoId))
            && r.value.videoUrl == WatchPrefix + r.value.videoId
            && exists i: nat ::
                 service(PrepareMetadata(c, ReadUploadProject(fs, projectPath).value).value)(i)
                   == Responded(Some(r.value.videoId)))
  {
    var r := UploadVideo(c, fs, videoPath, projectPath, service);
    if r.Ok? {
      var body := PrepareMetadata(c, ReadUploadProject(fs, projectPath).value).value;
      var replies := service(body);
      var run := UploadAttempts(replies);
      RetryReturnsFirstSuccess(c, run);
      var i: nat := RetrySpec(c, run).calls - 1;
      assert run(i) == UploadAttempt(replies(i));
      UploadAttemptMeaning(replies(i));
      assert replies(i) == Responded(Some(r.value.videoId));
    }
  }

  method Upload(c: Config, fs: Fs, videoPath: string, projectPath: string, service: UploadBody -> nat -> UploadReply)
    returns (r: Result<UploadResult, string>)
    ensures r == UploadVideo(c, fs, videoPath, projectPath, service)
  {
    var video := ValidateVideoFile(fs, videoPath);
    if video.Err? {
      return Err(video.error);
    }
    var project := ReadUploadProject(fs, projectPath);
    if project.Err? {
      return Err(project.error);
    }
    var body := PrepareMetadata(c, project.value);
    if body.Err? {
      return Err(body.error);
    }
    var run := ExecuteWithRetry(c, UploadAttempts(service(body.value)));
    if run.ending.Returned? {
      return Ok(run.ending.value);
    }
    return Err("Video upload failed permanently: " + FailureText(run.ending));
  }
}
