/** `AssetVerifier`: ordered guard chains over a file's attributes. The first
    failing guard decides the verdict and its message. */
module Verifier {
  import opened Base
  import opened Config
  import opened Files

  datatype Verdict = Verdict(valid: bool, message: string)

  function Pow10(n: nat): (r: nat)
    ensures r >= 1
  {
    if n == 0 then 1 else 10 * Pow10(n - 1)
  }

  /** `n` in decimal, left-padded with zeros to `width` digits. */
  function Padded(n: nat, width: nat): string
    decreases width
  {
    if width == 0 then "" else Padded(n / 10, width - 1) + [DigitChar(n % 10)]
  }

  /** The quotient `num / den` printed with `places` decimals, rounding half to even
      (what `f"{x:.Nf}"` prints when `x` is exactly `num / den`). */
  function Fixed(num: nat, den: nat, places: nat): string
    requires den > 0
  {
    var unit := Pow10(places);
    var rounded := RoundHalfEven(num * unit, den);
    NatText(Whole(rounded, unit)) + "." + Padded(Frac(rounded, unit), places)
  }

  function Whole(n: nat, unit: nat): nat
    requires unit > 0
  {
    n / unit
  }

  function Frac(n: nat, unit: nat): nat
    requires unit > 0
  {
    n % unit
  }

  /** `n / d` rounded to the nearest integer, ties to even. */
  function RoundHalfEven(n: nat, d: nat): nat
    requires d > 0
  {
    var q := n / d;
    var r := n % d;
    if 2 * r > d || (2 * r == d && q % 2 == 1) then q + 1 else q
  }

  /** A number held in thousandths printed as Python prints a float: at least
      one decimal, no trailing zeros after the first. */
  function FloatText(milli: nat): string {
    var frac := milli % 1000;
    NatText(milli / 1000) + "."
      + (if frac == 0 then "0"
         else if frac % 100 == 0 then Padded(frac / 100, 1)
         else if frac % 10 == 0 then Padded(frac / 10, 2)
         else Padded(frac, 3))
  }

  /** A configured number as an f-string prints it. */
  function NumberText(x: Number): string {
    match x
    case IntValue(n) => NatText(n)
    case FloatValue(m) => FloatText(m)
  }

  const SecondsPerDay := 24 * 3600

  /** `file_size / 1024 < min_image_size_kb`, with the size in bytes. */
  predicate ImageTooSmall(c: Config, size: nat) {
    size * 1000 < Milli(MinImageSizeKb(c)) * 1024
  }

  /** `file_age_days > max_file_age_days`, with the age in seconds. */
  predicate TooOld(c: Config, age: int) {
    age * 1000 > Milli(MaxFileAgeDays(c)) * SecondsPerDay
  }

  /** The age of a file that is too old, printed in days. */
  function AgeText(c: Config, age: int): string
    requires TooOld(c, age)
  {
    Fixed(age, SecondsPerDay, 1) + " days"
  }

  // ---------------------------------------------------------------------------
  // Images.

  /** What a valid image is: an existing regular file of at least
      `min_image_size_kb` KiB that decodes to at least 100x100 pixels and is at
      most `max_file_age_days` days old. */
  predicate ImageAcceptable(c: Config, fs: Fs, path: string, now: int) {
    && path in fs.entries
    && fs.entries[path].File?
    && var r := fs.entries[path].rec;
    && !ImageTooSmall(c, r.sizeBytes)
    && r.image.Ok?
    && r.image.value.0 >= 100 && r.image.value.1 >= 100
    && !TooOld(c, now - r.mtime)
  }

  /** A decoded image is at least 100 pixels on each side. */
  predicate LargeEnough(r: FileRecord)
    requires r.image.Ok?
  {
    r.image.value.0 >= 100 && r.image.value.1 >= 100
  }

  /** The guards of `verify_image_file` after the size check, on a regular file. */
  function ImageRecordVerdict(c: Config, r: FileRecord, now: int): (v: Verdict)
    ensures v.valid <==> r.image.Ok? && LargeEnough(r) && !TooOld(c, now - r.mtime)
    ensures !StartsWith(v.message, "Image file not found: ")
    ensures r.image.Err? ==> StartsWith(v.message, "Image verification failed: ")
    ensures (r.image.Ok? && !LargeEnough(r)) ==> StartsWith(v.message, "Image resolution too low: ")
    ensures (r.image.Ok? && LargeEnough(r) && TooOld(c, now - r.mtime)) ==>
      StartsWith(v.message, "Image file too old: ")
    ensures v.valid ==> v.message == "Valid image file"
  {
    match r.image
    case Err(e) =>
      NotFoundPrefixDiffers("Image verification failed: ", e, "Image file not found: ", 6);
      PrefixStarts("Image verification failed: ", e);
      Verdict(false, "Image verification failed: " + e)
    case Ok((w, h)) =>
      if w < 100 || h < 100 then
        var rest := NatText(w) + "x" + NatText(h);
        NotFoundPrefixDiffers("Image resolution too low: ", rest, "Image file not found: ", 6);
        PrefixStarts("Image resolution too low: ", rest);
        Verdict(false, "Image resolution too low: " + rest)
      else if TooOld(c, now - r.mtime) then
        var rest := AgeText(c, now - r.mtime);
        NotFoundPrefixDiffers("Image file too old: ", rest, "Image file not found: ", 11);
        PrefixStarts("Image file too old: ", rest);
        Verdict(false, "Image file too old: " + rest)
      else
        NotFoundPrefixDiffers("Valid image file", "", "Image file not found: ", 0);
        Verdict(true, "Valid image file")
  }

  /** `verify_image_file(path)` at time `now`. The guards run in order, and the
      first that fails names itself at the head of the message. */
  function VerifyImage(c: Config, fs: Fs, path: string, now: int): (v: Verdict)
    ensures v.valid <==> ImageAcceptable(c, fs, path, now)
    ensures StartsWith(v.message, "Image file not found: ") <==> !Exists(fs, path)
    ensures (Exists(fs, path) && ImageTooSmall(c, GetSize(fs, path))) ==>
      StartsWith(v.message, "Image too small: ")
    ensures (Exists(fs, path) && !ImageTooSmall(c, GetSize(fs, path)) && fs.entries[path].Dir?) ==>
      StartsWith(v.message, "Image verification failed: ")
    ensures (Exists(fs, path) && !ImageTooSmall(c, GetSize(fs, path)) && fs.entries[path].File?) ==>
      var r := fs.entries[path].rec;
      && (r.image.Err? ==> StartsWith(v.message, "Image verification failed: "))
      && ((r.image.Ok? && !LargeEnough(r)) ==> StartsWith(v.message, "Image resolution too low: "))
      && ((r.image.Ok? && LargeEnough(r) && TooOld(c, now - r.mtime)) ==>
            StartsWith(v.message, "Image file too old: "))
    ensures v.valid ==> v.message == "Valid image file"
  {
    if !Exists(fs, path) then
      PrefixStarts("Image file not found: ", path);
      Verdict(false, "Image file not found: " + path)
    else
      var size := GetSize(fs, path);
      if ImageTooSmall(c, size) then
        var rest := Fixed(size, 1024, 1) + "KB < " + NumberText(MinImageSizeKb(c)) + "KB";
        NotFoundPrefixDiffers("Image too small: ", rest, "Image file not found: ", 6);
        PrefixStarts("Image too small: ", rest);
        Verdict(false, "Image too small: " + rest)
      else match fs.entries[path]
        case Dir(_, _) =>
          NotFoundPrefixDiffers("Image verification failed: ", IsADirectoryText(path), "Image file not found: ", 6);
          PrefixStarts("Image verification failed: ", IsADirectoryText(path));
          Verdict(false, "Image verification failed: " + IsADirectoryText(path))
        case File(r) => ImageRecordVerdict(c, r, now)
  }

  // ---------------------------------------------------------------------------
  // Audio.

  /** What a valid narration file is: an existing regular file of at least 1 KiB
      that decodes as WAVE, lasts at least `min_audio_duration_seconds` and is at
      most `max_file_age_days` days old. */
  predicate AudioAcceptable(c: Config, fs: Fs, path: string, now: int) {
    && path in fs.entries
    && fs.entries[path].File?
    && var r := fs.entries[path].rec;
    && r.sizeBytes >= 1024
    && r.audioMillis.Ok?
    && r.audioMillis.value >= Milli(MinAudioDuration(c))
    && !TooOld(c, now - r.mtime)
  }

  /** A decoded narration lasts at least `min_audio_duration_seconds`. */
  predicate LongEnough(c: Config, r: FileRecord)
    requires r.audioMillis.Ok?
  {
    r.audioMillis.value >= Milli(MinAudioDuration(c))
  }

  /** The message for a narration of `ms` milliseconds that is too short: its
      length, then the minimum as it was configured. */
  function ShortAudioMessage(c: Config, ms: nat): (m: string)
    ensures StartsWith(m, "Audio too short: ") && !StartsWith(m, "Audio file not found: ")
    ensures EndsWith(m, " < " + NumberText(MinAudioDuration(c)) + "s")
  {
    var length := Fixed(ms, 1000, 2) + "s";
    var minimum := " < " + NumberText(MinAudioDuration(c)) + "s";
    FramedMessage("Audio too short: ", length, minimum, "Audio file not found: ", 6);
    "Audio too short: " + length + minimum
  }

  /** The guards of `verify_audio_file` after the size check, on a regular file. */
  function AudioRecordVerdict(c: Config, r: FileRecord, now: int): (v: Verdict)
    ensures v.valid <==> r.audioMillis.Ok? && LongEnough(c, r) && !TooOld(c, now - r.mtime)
    ensures !StartsWith(v.message, "Audio file not found: ")
    ensures r.audioMillis.Err? ==> StartsWith(v.message, "Audio verification failed: ")
    ensures (r.audioMillis.Ok? && !LongEnough(c, r)) ==>
      StartsWith(v.message, "Audio too short: ") && EndsWith(v.message, " < " + NumberText(MinAudioDuration(c)) + "s")
    ensures (r.audioMillis.Ok? && LongEnough(c, r) && TooOld(c, now - r.mtime)) ==>
      StartsWith(v.message, "Audio file too old: ")
    ensures v.valid ==> StartsWith(v.message, "Valid audio file (")
  {
    match r.audioMillis
    case Err(e) =>
      NotFoundPrefixDiffers("Audio verification failed: ", e, "Audio file not found: ", 6);
      PrefixStarts("Audio verification failed: ", e);
      Verdict(false, "Audio verification failed: " + e)
    case Ok(ms) =>
      if ms < Milli(MinAudioDuration(c)) then
        Verdict(false, ShortAudioMessage(c, ms))
      else if TooOld(c, now - r.mtime) then
        var rest := AgeText(c, now - r.mtime);
        NotFoundPrefixDiffers("Audio file too old: ", rest, "Audio file not found: ", 11);
        PrefixStarts("Audio file too old: ", rest);
        Verdict(false, "Audio file too old: " + rest)
      else
        var rest := Fixed(ms, 1000, 2) + "s)";
        NotFoundPrefixDiffers("Valid audio file (", rest, "Audio file not found: ", 0);
        PrefixStarts("Valid audio file (", rest);
        Verdict(true, "Valid audio file (" + rest)
  }

  /** `verify_audio_file(path)` at time `now`. The guards run in order, and the
      first that fails names itself at the head of the message; a too-short
      narration prints the minimum as it was configured. */
  function VerifyAudio(c: Config, fs: Fs, path: string, now: int): (v: Verdict)
    ensures v.valid <==> AudioAcceptable(c, fs, path, now)
    ensures StartsWith(v.message, "Audio file not found: ") <==> !Exists(fs, path)
    ensures (Exists(fs, path) && GetSize(fs, path) < 1024) ==>
      StartsWith(v.message, "Audio file too small: ")
    ensures (Exists(fs, path) && GetSize(fs, path) >= 1024 && fs.entries[path].Dir?) ==>
      StartsWith(v.message, "Audio verification failed: ")
    ensures (Exists(fs, path) && GetSize(fs, path) >= 1024 && fs.entries[path].File?) ==>
      var r := fs.entries[path].rec;
      && (r.audioMillis.Err? ==> StartsWith(v.message, "Audio verification failed: "))
      && ((r.audioMillis.Ok? && !LongEnough(c, r)) ==>
            StartsWith(v.message, "Audio too short: ")
            && EndsWith(v.message, " < " + NumberText(MinAudioDuration(c)) + "s"))
      && ((r.audioMillis.Ok? && LongEnough(c, r) && TooOld(c, now - r.mtime)) ==>
            StartsWith(v.message, "Audio file too old: "))
    ensures v.valid ==> StartsWith(v.message, "Valid audio file (")
  {
    if !Exists(fs, path) then
      PrefixStarts("Audio file not found: ", path);
      Verdict(false, "Audio file not found: " + path)
    else
      var size := GetSize(fs, path);
      if size < 1024 then
        var rest := Fixed(size, 1024, 1) + "KB";
        NotFoundPrefixDiffers("Audio file too small: ", rest, "Audio file not found: ", 11);
        PrefixStarts("Audio file too small: ", rest);
        Verdict(false, "Audio file too small: " + rest)
      else match fs.entries[path]
        case Dir(_, _) =>
          NotFoundPrefixDiffers("Audio verification failed: ", IsADirectoryText(path), "Audio file not found: ", 6);
          PrefixStarts("Audio verification failed: ", IsADirectoryText(path));
          Verdict(false, "Audio verification failed: " + IsADirectoryText(path))
        case File(r) => AudioRecordVerdict(c, r, now)
  }

  // ---------------------------------------------------------------------------
  // Prefix facts used by the contracts above.

  lemma PrefixStarts(p: string, rest: string)
    ensures StartsWith(p + rest, p)
  {
    assert (p + rest)[..|p|] == p;
  }

  lemma SuffixEnds(p: string, rest: string)
    ensures EndsWith(p + rest, rest)
  {
    assert (p + rest)[|p|..] == rest;
  }

  /** A message made of a fixed head, a middle and a tail starts with the head,
      ends with the tail, and does not start with a text the head differs from. */
  lemma FramedMessage(q: string, mid: string, tail: string, p: string, i: nat)
    requires i < |p| && i < |q| && p[i] != q[i]
    ensures StartsWith(q + mid + tail, q) && EndsWith(q + mid + tail, tail)
    ensures !StartsWith(q + mid + tail, p)
  {
    assert q + mid + tail == q + (mid + tail);
    PrefixStarts(q, mid + tail);
    SuffixEnds(q + mid, tail);
    NotFoundPrefixDiffers(q, mid + tail, p, i);
  }

  /** A message built on a different fixed prefix does not start with `p`. */
  lemma NotFoundPrefixDiffers(q: string, rest: string, p: string, i: nat)
    requires i < |p| && i < |q| && p[i] != q[i]
    ensures !StartsWith(q + rest, p)
  {
    if |p| <= |q + rest| {
      assert (q + rest)[..|p|][i] == q[i];
    }
  }
}
