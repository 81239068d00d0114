# Oktabot production pipeline, modelled in Dafny

Oktabot turns a topic into a published video. It writes a script, directs it
into a production plan (`project.json`), narrates each segment, generates an
image per segment, checks every asset, assembles the video with ffmpeg and
uploads it. This project models the control layer of that pipeline and the
decision procedures around it, and proves properties of the model:

- **Errors, retries, rate limiting and asset verification** (`Errors`, `Retry`,
  `RateLimit`, `Verifier`).
  - The error classifier matches keywords in a fixed priority and then falls
    back on the exception's class.
  - The retry loop is bounded by the SYSTEM policy and cut off by each error
    type's own policy.
  - The rate limiter is a class with a per-minute window and a cool-down.
  - The image and audio verifiers are ordered guard chains over a file's
    attributes.
- **Producer state** (`Progress`, `Producer`). It covers the project slug, the
  saved `completed_steps` and `file_hashes`, the integrity check, the reset and
  the incomplete-project listing. `Producer.Producer` is a class whose fields
  are the two records; its methods update them in place.
- **The pipeline** (`Pipeline`). It models the resume check and then six steps
  in a fixed order: scriptwriting, direction, asset production, the validation
  gate, editing and upload. Each step is skipped when it is already recorded.
  The gate runs on every pass. `Producer.Producer.RunPipeline` is the method
  that runs it; it is proved to end as `Pipeline.PipelineRun` says.
- **The pre-editor validator** (`Validator`). It checks the plan's structure,
  derives the `<id>.wav`/`<id>.png` lists, verifies the files and the music
  folder, sorts issues into buckets and suggests recovery hints.
- **The asset stages** (`Plan`, `AssetStage`, `Narrator`, `ImageDirector`).
  - The strict section → paragraph → segment walk of a plan.
  - The split of required assets into already valid and to generate.
  - The verify-after-write rule.
  - The success and failure accounting of the generation loop.
- **The uploader** (`Uploader`). It covers the size bounds, the project and
  metadata checks with their defaults, and the response-id check.
- **The editor** (`Editor`). It covers the video filter chosen for an effect,
  the asset check before rendering and the chain of cross-fades.

The outside world is a parameter, never computed:

- **The filesystem** is `Files.Fs`, a map from path to entry. What the code
  learns by decoding a file is an attribute of the file's record: the image
  size from PIL, the WAVE length from mutagen, the SHA-256 digest, the parsed
  plan, and the parsed `status.json`/`integrity.json`.
- **Module subprocesses** are `Pipeline.World`:
  - the result of the `i`-th run of each module's command;
  - what a module that succeeded did to the filesystem;
  - the answer typed at the reset prompt;
  - the clock.
- **The AI and upload services** are functions from a request and a call
  number to a reply.

Sizes are whole bytes, durations whole milliseconds and times whole seconds.
The three verification thresholds of `config.json` (`min_image_size_kb`,
`min_audio_duration_seconds`, `max_file_age_days`) keep whether they were given
as an integer or a float, and a float is held in thousandths.
The `now` argument is the clock.

## Model

| member | source | states |
|---|---|---|
| Errors.ClassifyError | utils/common.py:107-140 | the keyword groups decide in the order quota, network, disk, system, each before the class: QUOTA exactly when a quota keyword occurs in the lower-cased message, otherwise NETWORK when a network keyword occurs, otherwise DISK when a disk keyword occurs, otherwise SYSTEM when a system keyword occurs; any keyword at all gives one of those four |
| Errors.KeywordsBeforeClass | utils/common.py:111-137 | with no quota keyword, a "timeout" message raised as an OSError is NETWORK, and a "permission denied" message with no network keyword raised as a MemoryError is DISK |
| Errors.QuotaBeforeOtherKeywords | utils/common.py:111-125 | a message mentioning "quota" is QUOTA under the default keywords, whatever other keyword or class it has |
| Errors.ClassFallback | utils/common.py:127-140 | with no keyword in the message, the class decides by Python's class hierarchy (ConnectionError/TimeoutError → NETWORK, other OSErrors → DISK, MemoryError → SYSTEM, value/JSON/key/type errors → CONFIG, anything else → CODE_BUG); with no class the error is CODE_BUG |
| Errors.FileNotFoundIsNeverConfig | utils/common.py:129-137 | a FileNotFoundError is never CONFIG, and is DISK when no keyword matches |
| Errors.ConfigOnlyFromConfigClasses | utils/common.py:127-140 | a CONFIG result implies no keyword matched and the class is a ValueError, JSONDecodeError, UnicodeDecodeError, KeyError or TypeError |
| Errors.PlainExceptionIsCodeBug | utils/common.py:139-140 | a plain Exception whose message has no keyword is a CODE_BUG |
| Errors.RetryableUnlessConfigOrBug | utils/common.py:142-145 | a type is retryable exactly when it is neither CONFIG nor CODE_BUG |
| Retry.PolicyFor | utils/common.py:339-344 | the type's own `<value>_errors` policy, else the `system_errors` policy, else an empty policy |
| Retry.WaitTimeGrowth | utils/common.py:346-358 | with exponential back-off each wait doubles the previous one; without it every wait is the base; the first wait is the base delay (default 30) |
| Retry.DefaultPolicy | utils/common.py:339-358 | with no retry policies, every type allows 3 attempts and waits 30·2^attempt seconds |
| Retry.SystemPolicyFallback | utils/common.py:341-350 | a type without its own policy has the SYSTEM policy's bound and waits |
| Retry.ExecuteWithRetry | utils/common.py:292-337 | the loop's ending, number of calls and sleeps are those of the recursive specification `RetrySpec` |
| Retry.RetryFailsFast | utils/common.py:316-324 | a CODE_BUG or CONFIG error on the first call is re-raised after exactly one call and no sleep |
| Retry.RetryReturnsFirstSuccess | utils/common.py:308-313 | a returned value is the unchanged result of the first call that did not raise; every earlier call raised a retryable error; a first call that succeeds is the only call |
| Retry.RetryCallsBounded | utils/common.py:306-337 | at most `_get_max_retries(SYSTEM)` calls are made; the loop ends in `raise None` exactly when that bound is 0 or less |
| Retry.RetrySleepSchedule | utils/common.py:326-334 | sleep j follows call j, whose error is retryable and under its type's cut-off, and lasts that type's wait time for attempt j; only the call that ends the loop is not followed by a sleep, unless the loop ran out of iterations, in which case its exception is re-raised |
| Retry.RetryStopsAtCutoff | utils/common.py:312-334 | an exception re-raised right after a call is that call's, and its type is CODE_BUG or CONFIG or the attempt reached `max_retries(type) - 1` |
| RateLimit.RateLimiter.constructor | utils/common.py:50-55 | the limits are kept, no request has been made, and the window starts now |
| RateLimit.RateLimiter.WaitForWindow | utils/common.py:63-75 | a window 60 seconds old or older is restarted at the clock; a full window then sleeps once, for the rest of its minute, and a new window with no requests starts when the sleep ends; otherwise nothing sleeps and the count and start are kept; the last request time is untouched |
| RateLimit.RateLimiter.WaitIfNeeded | utils/common.py:58-85 | after the window is reset once it is 60 seconds old, a full window sleeps until the minute is over and starts a new one; a request within the cool-down sleeps for the rest of it; the counter is then 1 or one more and stays within the limit; the last request time is the clock after all sleeps |
| Verifier.VerifyImage | utils/common.py:159-186 | the image is valid exactly when it is an existing file of at least `min_image_size_kb` KiB that decodes to at least 100x100 and is at most `max_file_age_days` old; the first failing guard names itself: "Image file not found: " exactly for a missing path, then "Image too small: ", then "Image verification failed: " for a directory or an undecodable file, then "Image resolution too low: ", then "Image file too old: "; a valid image gets "Valid image file" |
| Verifier.ImageRecordVerdict | utils/common.py:171-186 | on a regular file past the size guard: valid exactly when it decodes to at least 100x100 and is not too old, with the failure message of the first guard that fails |
| Verifier.VerifyAudio | utils/common.py:188-214 | the narration is valid exactly when it is an existing file of at least 1 KiB that decodes as WAVE, lasts at least `min_audio_duration_seconds` and is at most `max_file_age_days` old; the first failing guard names itself: "Audio file not found: " exactly for a missing path, then "Audio file too small: ", then "Audio verification failed: " for a directory or an undecodable file, then "Audio too short: " ending in the minimum as configured (`1s` for an integer, `0.1s` for a float), then "Audio file too old: "; a valid file gets "Valid audio file (" |
| Verifier.AudioRecordVerdict | utils/common.py:199-214 | on a regular file past the size guard: valid exactly when it decodes as WAVE, is long enough and is not too old, with the failure message of the first guard that fails |
| Files.Digest | utils/common.py:216-229 | a digest is only ever found for an existing path |
| Plan.Lookup | utils/pre_editor_validator.py:121-126 | a section is found exactly when the story has an entry with that name |
| Plan.WalkPlanMeaning | modules/narrator.py:95-107 | the strict walk's jobs are those of the first segments in section → paragraph → segment order, index by index; it runs to the end exactly when no `story_structure`/`paragraphs`/`segments` key is missing and every segment yields a job |
| Plan.CollectSegmentJobs | modules/narrator.py:99-103 | the segment loop computes the strict walk of a paragraph's segments |
| Plan.CollectSectionJobs | modules/narrator.py:98-103 | the paragraph loop computes the strict walk of a section |
| Plan.CollectJobs | modules/narrator.py:95-107 | the three nested loops compute the strict walk of the plan |
| AssetStage.ReadProjectFile | modules/narrator.py:72-90 | the plan is read exactly when the path is an existing file that parses as a plan, and it is that plan |
| AssetStage.PendingMeaning | modules/narrator.py:113-131 | the pending list holds exactly the jobs whose asset is not valid, and with the valid count it makes up the whole list |
| AssetStage.CheckExisting | modules/image_director.py:96-128 | the loop returns the pending jobs in order and the count of valid ones, adding up to the number required |
| AssetStage.TallyAccounting | modules/narrator.py:219-236 | every pending job is attempted in order even after a failure; the failures are exactly the jobs that did not succeed, in order; successes plus failures equal the pending count |
| AssetStage.RunAccounting | modules/image_director.py:205-235 | the generation loop attempts every pending job once; every failure is a pending job; the exit code is non-zero exactly when some job failed |
| Narrator.RequiredAudioMeaning | modules/narrator.py:92-107 | extraction succeeds exactly when the structure is complete and every segment has an id and a text, and then yields one `{id, text}` per segment in walk order |
| Narrator.ExtractRequiredAudio | modules/narrator.py:92-107 | the nested loops compute that extraction |
| Narrator.PendingAudioMeaning | modules/narrator.py:109-141 | the entries kept are exactly those whose `<id>.wav` fails `verify_audio_file`; kept plus valid equals required |
| Narrator.NarrateSegment | modules/narrator.py:143-185 | the segment is narrated exactly as the retried generate-write-verify call specifies |
| Narrator.NarratedOnlyIfVerified | modules/narrator.py:166-178 | a segment counts as narrated only when some call wrote a file that passes `verify_audio_file` |
| Narrator.GoodFirstReplyNarrates | modules/narrator.py:166-182 | a first reply that writes an acceptable file narrates the segment |
| Narrator.NarrationAccounting | modules/narrator.py:212-252 | every pending segment is attempted once even after failures; successes plus failures equal the pending count; the exit code is non-zero exactly when one failed; with nothing pending nothing is generated |
| Narrator.NarrationPending | modules/narrator.py:191-210 | the segments worked on are exactly those whose file is not a valid narration once the folder is made, in walk order |
| Narrator.VoiceRequired | modules/narrator.py:197-203 | without `youtube_metadata.narrator` the stage exits before any generation |
| Narrator.NarrateAllSegments | modules/narrator.py:187-252 | the stage's outcome is that of its specification `Narration` |
| ImageDirector.RequiredImagesMeaning | modules/image_director.py:78-94 | listing succeeds exactly when the structure is complete and every segment has an id and a visual prompt, and then yields one entry per segment with the ratio defaulting to "16:9" |
| ImageDirector.ListRequiredImages | modules/image_director.py:78-94 | the nested loops compute that listing |
| ImageDirector.PendingImagesMeaning | modules/image_director.py:96-128 | the entries kept are exactly those whose `<id>.png` fails `verify_image_file`; kept plus valid equals required |
| ImageDirector.NormalizeRatioMeaning | modules/image_director.py:136-140 | the ratio requested is always a supported one; a supported ratio is kept and any other becomes "16:9"; normalising twice changes nothing |
| ImageDirector.GenerateSingleImage | modules/image_director.py:130-179 | the image is generated exactly as the retried generate-save-verify call specifies |
| ImageDirector.GeneratedOnlyIfVerified | modules/image_director.py:160-172 | an image counts as generated only when some call saved a file that passes `verify_image_file` |
| ImageDirector.ImageGenerationAccounting | modules/image_director.py:198-235 | every pending image is attempted once even after failures; successes plus failures equal the pending count; the exit code is non-zero exactly when one failed; with nothing pending nothing is generated |
| ImageDirector.ImageGenerationPending | modules/image_director.py:185-196 | the images worked on are exactly those that are not valid once the folder is made, in walk order |
| ImageDirector.GenerateAllImages | modules/image_director.py:181-235 | the stage's outcome is that of its specification `ImageGeneration` |
| Validator.ReadPlan | utils/pre_editor_validator.py:98-110 | the plan is read exactly when the path is an existing file that parses as a plan |
| Validator.SegmentIssuesEmpty | utils/pre_editor_validator.py:136-140 | a segment has no issue exactly when it has `segment_id`, `text` and `visual_prompt` |
| Validator.ParagraphIssuesEmpty | utils/pre_editor_validator.py:131-140 | a paragraph has no issue exactly when it has segments and each is complete |
| Validator.SectionIssueEmpty | utils/pre_editor_validator.py:121-140 | a required section has no issue exactly when it is present, has paragraphs and each is complete |
| Validator.StructureIssuesEmpty | utils/pre_editor_validator.py:112-142 | a parsed plan has no issue exactly when every top-level key and every required section is present, with complete paragraphs and segments |
| Validator.MissingSectionReported | utils/pre_editor_validator.py:121-124 | a required section the story lacks is reported by name |
| Validator.CheckSegment | utils/pre_editor_validator.py:137-140 | the segment-key loop returns the segment's issues, empty exactly when it is complete |
| Validator.CheckParagraph | utils/pre_editor_validator.py:131-140 | the segment loop returns the paragraph's issues, empty exactly when it is complete |
| Validator.CheckSection | utils/pre_editor_validator.py:121-140 | one required section's issues, empty exactly when the section is complete |
| Validator.CheckStructure | utils/pre_editor_validator.py:112-141 | the key loop then the section loop; no issue exactly when the plan is well formed |
| Validator.ValidateProjectFile | utils/pre_editor_validator.py:94-142 | valid exactly when the file parses to a well-formed plan, which is exactly when no issue was emitted |
| Validator.TruthyIdsMeaning | utils/pre_editor_validator.py:151-158 | an id is listed exactly when it is non-empty and some segment carries it |
| Validator.ExtractRequiredAssets | utils/pre_editor_validator.py:144-160 | the audio and image lists have one entry per truthy id, in walk order, and correspond index by index as `<id>.wav` and `<id>.png` |
| Validator.AssetIssuesPerFile | utils/pre_editor_validator.py:173-178 | with the folder present there is one "Audio: "/"Image: " issue per failing file, in order, carrying that file's verdict |
| Validator.AssetIssuesEmpty | utils/pre_editor_validator.py:162-204 | the check passes exactly when the folder exists and every listed file is valid |
| Validator.ValidateAssets | utils/pre_editor_validator.py:162-204 | a missing folder gives its one issue and no per-file check; otherwise each file is verified in turn; ok exactly when there is no issue |
| Validator.MusicFiles | utils/pre_editor_validator.py:217-223 | exactly the listed names with a music extension, in any case |
| Validator.CollectMusicFiles | utils/pre_editor_validator.py:218-223 | the listing loop keeps exactly the music files |
| Validator.MusicIssues | utils/pre_editor_validator.py:206-233 | at most one music issue |
| Validator.MusicIssuesEmpty | utils/pre_editor_validator.py:206-233 | the music check passes exactly when the configured folder is a directory holding a music file |
| Validator.ValidateMusic | utils/pre_editor_validator.py:206-233 | the check returns the music issue, ok exactly when there is none |
| Validator.ValidationMeaning | utils/pre_editor_validator.py:27-92 | a disabled gate passes with no issue; an enabled one passes exactly when the project file is a well-formed plan and every required audio file, image and the music folder are valid; it passes exactly when it reports no issue |
| Validator.InvalidProjectStops | utils/pre_editor_validator.py:48-52 | an invalid project file ends the gate with its own issues only |
| Validator.CheckFiles | utils/pre_editor_validator.py:62-83 | the audio, image and music issues in that order; ok exactly when there is none |
| Validator.ValidationOfWellFormed | utils/pre_editor_validator.py:54-92 | once the project file passed, the gate's issues are the file issues and it passes exactly when there are none |
| Validator.ValidateAllAssets | utils/pre_editor_validator.py:27-92 | the method returns the gate's specification `Validation` |
| Validator.ReportPartition | utils/pre_editor_validator.py:242-256 | every issue lands in exactly one bucket; the missing-file buckets are non-empty exactly when such an issue occurs; the other bucket holds exactly the remaining issues |
| Validator.MissingAudioPathRecovered | utils/pre_editor_validator.py:249-250 | a missing-audio issue as the gate words it is bucketed back to the file's path |
| Validator.GenerateMissingAssetReport | utils/pre_editor_validator.py:235-256 | the loop builds the report of `ReportOf` |
| Validator.HintsMeaning | utils/pre_editor_validator.py:264-275 | each hint appears exactly when its condition holds, and at most once |
| Validator.SuggestRecoveryActions | utils/pre_editor_validator.py:258-277 | no hint repeats; the audio/image hints appear exactly when a missing-audio/missing-image issue occurs; the music/plan hints appear exactly when an issue outside those buckets contains "Music folder"/"Project file" |
| Uploader.ValidateVideoFile | modules/uploader.py:136-171 | a video is accepted exactly when it exists and its size lies between 1 MiB and 10240 MiB; a missing or empty file gets its own message |
| Uploader.ReadUploadProject | modules/uploader.py:115-134 | the project is accepted exactly when it is a file that parses as a plan with a `youtube_metadata` section |
| Uploader.CategoryIdMeaning | modules/uploader.py:186-205 | every name gets a listed id; only "Education" and unknown names get "27"; two listed names never share an id |
| Uploader.PrepareMetadata | modules/uploader.py:173-235 | a body is produced exactly when title and description are non-empty and the chosen privacy is private/public/unlisted, with the title checked first; the body carries them, the plan's tags (default none), the id of the chosen category, the privacy status and not-made-for-kids; with nothing configured the video is filed under Education and kept private |
| Uploader.UploadAttemptMeaning | modules/uploader.py:280-305 | an upload succeeds exactly when the response carries a non-empty id; the URL is the watch prefix followed by that id; every failure is a plain Exception |
| Uploader.PlainUploadFailureNotRetried | modules/uploader.py:304-309 | a failed upload whose message names no retryable kind is not repeated |
| Uploader.UploadVideoMeaning | modules/uploader.py:237-324 | the video is checked before the project is read, and the project before the metadata is prepared; a published video has a non-empty id that some upload call of the prepared body returned |
| Uploader.Upload | modules/uploader.py:237-324 | the method returns the outcome of `UploadVideo` |
| Editor.ZoomRate | modules/editor.py:302-303 | the rate is one of the listed ones; an unknown speed zooms at the normal rate |
| Editor.PanSpeed | modules/editor.py:317-318 | the speed is one of the listed ones; an unknown speed pans at 30, the normal speed |
| Editor.BuildVideoFilter | modules/editor.py:291-332 | a still or unknown effect gets the base filter alone; a zoom or pan is the base filter, a comma and a `zoompan` filter ending in the frame count; a pan in an unnamed direction zooms by 1.1 and stays centred |
| Editor.FilterParameters | modules/editor.py:300-326 | a zoom's expression steps by its speed's rate (`min(zoom+rate,1.5)` inward, `max(1.0,zoom-rate)` otherwise); a pan left, right, up or down moves the x or y term by minus or plus `t` times its speed's pixels per second |
| Editor.ReadMotionInverse | modules/editor.py:296-329 | reading the camera motion back from the filter gives the effect's motion: zoom in (also when no direction is given), zoom out for any other direction, pan, or still |
| Editor.StartErrorsEmpty | modules/editor.py:199-250 | nothing is reported exactly when the structure is complete, every segment has an id, every `.wav` and `.png` is valid, and a music folder that was found holds a music file |
| Editor.ValidateAssetsBeforeStart | modules/editor.py:199-250 | the errors are the structure error, then the audio issues, then the image issues, then the music error; true exactly when there is none |
| Editor.CheckSegmentFiles | modules/editor.py:222-234 | one per-segment loop: the issue of each failing file, in order |
| Editor.FindMusic | modules/editor.py:252-262 | music is found exactly when the folder lists a name matching one of the four glob patterns |
| Editor.ConcatenateWithTransitions | modules/editor.py:347-389 | n clips give n−1 cross-fades, step i fading the previous output into clip i with the transition of segment i−1 (mapped, default "fade"); one clip is copied; no clip fails on `clip_paths[0]`, and a missing `transition_effect` fails with that key |
| Progress.ProjectSlug | producer.py:255 | a project folder name is the first 50 characters of the slug, or the whole slug when it is shorter, so it holds only alphanumerics, `_` and `-` |
| Progress.SlugifyMeaning | producer.py:281-283 | a slug holds only alphanumerics, `_` and `-` (so no space); it is no longer than the text; slugifying it again changes nothing; an all-alphanumeric text is its own slug |
| Progress.HashedMeaning | producer.py:174-179 | the files recorded are exactly the earlier ones plus the listed files that exist and hash, with their current digests; other entries are untouched |
| Progress.CompletedSteps | producer.py:170-171 | the step is recorded once; the earlier steps keep their order; a list without repetition stays so |
| Progress.SaveProgressReloads | producer.py:142-162 | what was saved loads back: the steps always, the digests when they were written, otherwise the old digests |
| Progress.UnfinishedProjectsMeaning | producer.py:87-116 | a project is listed exactly when it is a folder in the channel folder's listing whose saved steps are non-empty and lack "upload"; it is listed with its path and its last step |
| Pipeline.ModuleRetryMeaning | producer.py:210-224 | a module succeeds only when a run succeeded after runs that all failed; it never succeeds when no attempt is allowed; a first success is the only run; a first failure naming no retryable kind is final |
| Pipeline.Listed | producer.py:379-382 | exactly the listed names ending in the extension, joined to the folder |
| Pipeline.PrepareMeaning | producer.py:293-312 | an unchanged or fresh project keeps its state; a changed one is reset (folder emptied and remade, no steps, no digests) when scheduled or on "y", and is otherwise cancelled with nothing changed; nothing has run yet |
| Pipeline.StepLaws | producer.py:323-436 | each step grows the run only by its own modules, in order, records its name when it goes on, and never stops as cancelled or completed |
| Pipeline.ModuleStepShape | producer.py:323-335 | a single-module step runs only its own module, records its step when it goes on, keeps the earlier steps and never stops as cancelled or completed |
| Pipeline.AssetStepShape | producer.py:353-386 | the step grows the run only by asset modules in rank order and stops without cancelling or completing; when not yet recorded and the run goes on, the narrator and then the image director ran, both succeeded, `asset_production` is recorded once, and the new digests are those of the `.wav` files in the audio folder and the `.png` files in the image folder as the two modules left them |
| Pipeline.RunAllLaws | producer.py:321-436 | steps in schedule order grow the run by their modules only; a stopped run stays as it was; a run that goes on to the end has every module step recorded |
| Pipeline.ScheduleOrdered | producer.py:321-436 | the schedule is production (scriptwriting, direction, asset production), then the gate, editing and upload, in that order |
| Pipeline.PipelineLaws | producer.py:285-436 | every module runs at most once and in schedule order; no module runs whose step the resumed project had recorded; a completed run has every module step recorded; the step list never gains a repetition; a cancelled run ran nothing |
| Pipeline.AfterProduction | producer.py:388-436 | after production the run is the gate, then editing and upload; a stopped gate ends the run |
| Pipeline.GateThen | producer.py:388-406 | the gate lets the run go on exactly when validation passes and changes nothing else; a failure stops with its issues |
| Pipeline.GateStopsRun | producer.py:388-406 | once production has gone through, a failed validation ends the run with its issues and nothing after it runs, even when editing and upload were recorded |
| Pipeline.StoppedBeforeEditing | producer.py:394-420 | a run that stops at or before the gate ran neither the editor nor the uploader and is not completed |
| Pipeline.GateBeforeEditing | producer.py:388-436 | the editor or the uploader runs, or the run completes, only when the gate passed on the state production left |
| Pipeline.ScheduleUnrolled | producer.py:321-436 | running the schedule is the six steps one after the other |
| Producer.Producer.constructor | producer.py:30-47 | a producer for a project folder starts with no steps and no digests |
| Producer.Producer.LoadStatus | producer.py:142-146 | the steps are those saved in `status.json`, or none |
| Producer.Producer.LoadHashStatus | producer.py:148-152 | the digests are those saved in `integrity.json`, or none |
| Producer.Producer.CompleteStep | producer.py:168-188 | the step is recorded as `CompletedSteps`, the files are hashed in as `Hashed`, and the status (and the digests when files were given) are saved |
| Producer.Producer.VerifyFileIntegrity | producer.py:190-208 | true exactly when every recorded file exists with its recorded digest, so true with nothing recorded |
| Producer.Producer.Reset | producer.py:304-309 | the folder is removed and made again, and no step or digest is recorded |
| Producer.Producer.RunModuleWithRetry | producer.py:210-224 | true exactly when the retried command succeeded, as `ModuleSucceeds` |
| Producer.Producer.CheckIncompleteProjects | producer.py:87-116 | the loop lists the unfinished projects of `UnfinishedProjects` |
| Producer.Producer.RunModuleStep | producer.py:323-335 | a single-module step as `ModuleStep`, with the fields holding the new records |
| Producer.Producer.RunAssetProduction | producer.py:353-386 | step 3 as `AssetStep`, with the fields holding the new records |
| Producer.Producer.RunValidationGate | producer.py:388-406 | the gate as `Gate`, changing no field |
| Producer.Producer.RunUpload | producer.py:422-436 | step 6 as `UploadStep`, with the fields holding the new records |
| Producer.Producer.Resume | producer.py:293-312 | the load and integrity check as `Prepare`, with the fields holding the loaded or reset records |
| Producer.Producer.Advance | producer.py:321-436 | one scheduled step as `AndThen`; a stopped run passes through unchanged |
| Producer.Producer.RunPipeline | producer.py:285-436 | the run ends as `PipelineRun` says, with the saved progress in the fields |

## Left out

- Network and AI services. The Gemini calls, OAuth, the pickled token and the upload request are functions from a request and a call number to a reply. Response polling is folded into one reply.
- Subprocesses. `safe_subprocess_run` is the `outcomes` oracle. What a module that succeeded did to the filesystem is the `effects` oracle. A failing module's partial writes are not modelled.
- SHA-256, PIL and mutagen are attributes of a file record and are not computed.
- Logging, `print` and the exit codes of `sys.exit` are not modelled. The recovery hints are only logged by the producer, so the run does not use them.
- `AtomicFileWriter.write_json` is taken always to succeed, so the warnings on a failed save are not modelled. The `upload_info.json` the uploader saves is not modelled.
- Project setup is not modelled: the channel menu, the topic prompt, the weekday lookup and the choice of an incomplete project. The project path is a parameter; the slug it is built from is modelled.
- `_find_music_folder` is not modelled. The folder it found is a parameter of the editor's check.
- The editor's rendering is not modelled: ffmpeg and ffprobe commands, clip durations, transition offsets, audio concatenation, background-music trimming and the disk-space check. The frame count `int(duration*30)` is a parameter.
- The `RateLimiter` lock is not modelled; calls are sequential. Its floating-point times are whole seconds. The stages' calls to the limiter are not composed into their attempts.
- The scriptwriter and director modules are not modelled. Their plan is an attribute of `project.json`'s record.
- JSON `null` and an absent key are both `None`.
- `os.path.join` always inserts one `/`.
- Base.Lower: only ASCII letters are folded, where Python's `str.lower` folds all of Unicode.
- Progress.SlugifyMeaning: `str.isalnum` is approximated by ASCII letters and digits plus the Latin letters from U+00C0 to U+024F.
- Verifier.VerifyImage: the messages print the exact quotient rounded half to even. Python formats the float, which can differ in the last digit. The same holds for Verifier.VerifyAudio.
- Verifier.VerifyAudio: a float threshold with more than three decimals cannot be configured, and a float too large for Python's plain notation is not printed in exponent form. The same holds for Verifier.VerifyImage.
- Pipeline.PrepareMeaning: a `status.json` that loads but has no `completed_steps` key counts as no steps. The code then raises a KeyError at `self.status["completed_steps"]`. The same holds for Producer.Producer.Resume.
- Producer.Producer.CompleteStep: an `integrity.json` that loads as a non-empty object without `file_hashes` counts as no digests. The code then raises a KeyError at `self.hash_status["file_hashes"]` (producer.py:179) once a listed file exists and hashes. The same holds for Producer.Producer.LoadHashStatus and Pipeline.Complete.
- Uploader.ReadUploadProject: a project file holding the empty object `{}` is read as a plan without `youtube_metadata`, so the message is "'youtube_metadata' section missing from project file". The code rejects it earlier, with "Could not read project file" (modules/uploader.py:124-126), since an empty dict is falsy. A parsed plan does not record whether it had any key at all.
- Editor.StartErrorsEmpty: a plan without `story_structure` is reported as the structure error with no segment checked. As written, the code leaves `required_segments` unbound and raises `UnboundLocalError` at the audio loop.
- Editor.ConcatenateWithTransitions: every clip is taken to have a segment, which is how the editor builds the two lists.
- The `Image` name the editor's `check_image_file` uses without importing it is not modelled.
- The text of the recovery hints holds the characters the source file's emoji bytes spell when read as text, not the emoji themselves.
