/** The keys of `config.json` that the core reads, each with the default the
    code falls back to when the key is absent. */
module Config {
  import opened Base

  /** A number as `config.json` gives it: an integer, or a float, held in
      thousandths. Python prints the two differently (`1` against `1.0`). */
  datatype Number = IntValue(n: nat) | FloatValue(milli: nat)

  /** The value of a number in thousandths. */
  function Milli(x: Number): nat {
    match x
    case IntValue(n) => 1000 * n
    case FloatValue(m) => m
  }

  /** One entry of `retry_policies`; every key of a policy is optional. */
  datatype RetryPolicy = RetryPolicy(maxRetries: Option<int>, baseDelaySeconds: Option<nat>, exponentialBackoff: Option<bool>)

  datatype Config = Config(
    quotaErrors: Option<seq<string>>,
    retryPolicies: map<string, RetryPolicy>,
    minImageSizeKb: Option<Number>,
    minAudioDurationSeconds: Option<Number>,
    maxFileAgeDays: Option<Number>,
    verifyBeforeEditor: Option<bool>,
    musicFolderPath: Option<string>,
    defaultCategory: Option<string>,
    defaultPrivacyStatus: Option<string>,
    transitionEffectsMap: map<string, string>)

  /** The quota keywords the classifier uses when `quota_errors` is absent. */
  const DefaultQuotaKeywords: seq<string> := ["quota", "rate limit", "429", "too many requests", "resource exhausted"]

  function QuotaKeywords(c: Config): (r: seq<string>)
    ensures c.quotaErrors.None? ==> r == DefaultQuotaKeywords
    ensures c.quotaErrors.Some? ==> r == c.quotaErrors.value
  {
    c.quotaErrors.GetOr(DefaultQuotaKeywords)
  }

  /** `min_image_size_kb`, default 1. */
  function MinImageSizeKb(c: Config): Number {
    c.minImageSizeKb.GetOr(IntValue(1))
  }

  /** `min_audio_duration_seconds`, default 0.1. */
  function MinAudioDuration(c: Config): Number {
    c.minAudioDurationSeconds.GetOr(FloatValue(100))
  }

  /** `max_file_age_days`, default 30. */
  function MaxFileAgeDays(c: Config): Number {
    c.maxFileAgeDays.GetOr(IntValue(30))
  }

  /** `asset_verification.verify_before_editor`, default true. */
  function VerifyBeforeEditor(c: Config): bool {
    c.verifyBeforeEditor.GetOr(true)
  }

  /** `music_folder_path`, default "./music". */
  function MusicFolder(c: Config): string {
    c.musicFolderPath.GetOr("./music")
  }
}
