/**
 * backend/src/services/transcription.service.ts: the size check on the
 * audio file, then one call to the speech-to-text API. The API is an oracle
 * of type `Whisper`; the file sizes come from the temporary directory.
 */
module Transcription {
  import opened Wrappers
  import opened Text
  import opened AppErrors

  /** The largest file the API accepts: 25 MiB. */
  const MaxFileSize: nat := 25 * 1024 * 1024

  /** The API transcribing the file at a path: the text, or the message of the error it threw. */
  type Whisper = string -> Result<string, string>

  const TooLargeText: string := "Audio file too large (max 25MB). Video may be too long."

  /** The message `stat` fails with on a missing file. */
  function MissingFileMessage(path: string): string {
    "ENOENT: no such file or directory, stat '" + path + "'"
  }

  /** The TranscriptionError text for a caught error message, by the phrase it contains. */
  function FailureText(message: string): (t: string)
    ensures Contains(message, "Invalid file format") ==> t == "Invalid audio format"
    ensures !Contains(message, "Invalid file format") && Contains(message, "rate limit") ==>
      t == "Rate limit exceeded. Please try again later."
    ensures !Contains(message, "Invalid file format") && !Contains(message, "rate limit") ==>
      t == (if message == "" then "Failed to transcribe audio" else message)
  {
    if Contains(message, "Invalid file format") then "Invalid audio format"
    else if Contains(message, "rate limit") then "Rate limit exceeded. Please try again later."
    else if message == "" then "Failed to transcribe audio"
    else message
  }

  /**
   * `transcribeAudio`: a missing or oversized file fails before the API is
   * called; every failure, the size error included, is caught and rethrown as
   * a TranscriptionError built from the caught message.
   */
  function TranscribeAudio(sizes: map<string, nat>, whisper: Whisper, audioPath: string): (r: Result<string, Error>)
    ensures audioPath !in sizes ==> r == Err(TranscriptionError(FailureText(MissingFileMessage(audioPath))))
    ensures audioPath in sizes && sizes[audioPath] > MaxFileSize ==>
      r == Err(TranscriptionError(FailureText(TranscriptionError(TooLargeText).Message())))
    ensures audioPath in sizes && sizes[audioPath] <= MaxFileSize ==>
      (r.Ok? <==> whisper(audioPath).Ok?)
      && (r.Ok? ==> r.value == whisper(audioPath).value)
      && (r.Err? ==> r.error == TranscriptionError(FailureText(whisper(audioPath).error)))
  {
    var caught: Result<string, string> :=
      if audioPath !in sizes then Err(MissingFileMessage(audioPath))
      else if sizes[audioPath] > MaxFileSize then Err(TranscriptionError(TooLargeText).Message())
      else whisper(audioPath);
    match caught
    case Ok(text) => Ok(text)
    case Err(message) => Err(TranscriptionError(FailureText(message)))
  }

  /** Every failure is a TranscriptionError with status 500; a success is the API text. */
  lemma FailuresAreTranscriptionErrors(sizes: map<string, nat>, whisper: Whisper, audioPath: string)
    ensures var r := TranscribeAudio(sizes, whisper, audioPath);
      r.Err? ==>
        r.error.App? && r.error.app.kind == Transcription && r.error.app.statusCode == 500
        && StartsWith(r.error.Message(), "Transcription Error: ")
    ensures TranscribeAudio(sizes, whisper, audioPath).Ok? ==>
      whisper(audioPath) == Ok(TranscribeAudio(sizes, whisper, audioPath).value)
  {
    var r := TranscribeAudio(sizes, whisper, audioPath);
    if r.Err? {
      var t := "Transcription Error: ";
      assert r.error.Message() == t + r.error.Message()[|t|..];
    }
  }

  /** The ceiling is inclusive: a file of exactly 25 MiB reaches the API. */
  lemma ExactLimitAccepted(sizes: map<string, nat>, whisper: Whisper, audioPath: string)
    requires audioPath in sizes && sizes[audioPath] == 25 * 1024 * 1024
    ensures TranscribeAudio(sizes, whisper, audioPath).Ok? <==> whisper(audioPath).Ok?
  {
  }

  /** An oversized file is refused without the API: any two APIs give the same result. */
  lemma OversizeSkipsApi(sizes: map<string, nat>, w1: Whisper, w2: Whisper, audioPath: string)
    requires audioPath in sizes && sizes[audioPath] > MaxFileSize
    ensures TranscribeAudio(sizes, w1, audioPath) == TranscribeAudio(sizes, w2, audioPath)
    ensures TranscribeAudio(sizes, w1, audioPath).Err?
  {
  }

  /**
   * The size error is wrapped twice: its text already starts with the
   * TranscriptionError prefix when the classifier keeps it, and the handler
   * prepends the prefix again.
   */
  lemma OversizeMessageWrappedTwice(sizes: map<string, nat>, whisper: Whisper, audioPath: string)
    requires audioPath in sizes && sizes[audioPath] > MaxFileSize
    requires FailureText(TranscriptionError(TooLargeText).Message()) == TranscriptionError(TooLargeText).Message()
    ensures var prefix := "Transcription Error: ";
      TranscribeAudio(sizes, whisper, audioPath).error.Message() == prefix + (prefix + TooLargeText)
  {
  }

  /** The classifier keeps any message that has text and neither phrase. */
  lemma FailureTextKeeps(message: string)
    requires message != "" && !Contains(message, "Invalid file format") && !Contains(message, "rate limit")
    ensures FailureText(message) == message
  {
  }
}
