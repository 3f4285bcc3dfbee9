/**
 * The voice chord extractor: the confidence it attaches to a chord heard in a transcript, the
 * gate that decides whether the chord is forwarded to the API server, and the events one
 * audio-analysis request emits. Transcription and chord extraction are remote calls whose
 * results are inputs.
 */
module ChordExtractor {
  import opened Wrappers
  import Text
  import opened JsValues

  /** The words whose presence marks the transcript as a question, matched ignoring ASCII case. */
  const QuestionWords: seq<string> := ["how", "what", "show", "play", "teach", "help"]

  predicate HasQuestionWord(transcript: string) {
    exists k :: 0 <= k < |QuestionWords| && Text.Contains(Text.ToLower(transcript), QuestionWords[k])
  }

  predicate ChordMentioned(transcript: string, chord: string) {
    Text.Contains(Text.ToLower(transcript), Text.ToLower(chord))
  }

  /**
   * The uncapped score in hundredths: 50, plus 30 for a mention of the chord, plus 20 for a
   * question word, plus 10 for a transcript longer than 10 characters, minus 20 for one
   * shorter than 5.
   */
  function RawScore(mentioned: bool, question: bool, length: nat): (s: int)
    ensures 30 <= s <= 110
    ensures mentioned && question && length >= 5 ==> s >= 100
    ensures s >= 100 ==> mentioned && question && length >= 5
    ensures mentioned && question && length < 5 ==> s == 80
    ensures !(mentioned && question) ==> s <= 90
  {
    50 + (if mentioned then 30 else 0) + (if question then 20 else 0)
       + (if length > 10 then 10 else 0) - (if length < 5 then 20 else 0)
  }

  /** The score clamped to [10, 99] hundredths, from the three signals. */
  function Confidence(mentioned: bool, question: bool, length: nat): (c: int)
    ensures 30 <= c <= 99
    ensures c == 99 <==> mentioned && question && length >= 5
    ensures c != 99 ==> c == RawScore(mentioned, question, length)
  {
    var raw := RawScore(mentioned, question, length);
    if raw > 99 then 99 else if raw < 10 then 10 else raw
  }

  /** `calculateConfidence`, in hundredths. */
  function CalculateConfidence(transcript: string, chord: string): (c: int)
    ensures 30 <= c <= 99
  {
    Confidence(ChordMentioned(transcript, chord), HasQuestionWord(transcript), |transcript|)
  }

  /**
   * The upper clamp matters exactly when the chord is mentioned, a question word is present
   * and the transcript has at least five characters; the lower clamp never does, since the
   * lowest raw score is 30.
   */
  lemma CapBindsExactly(transcript: string, chord: string)
    ensures CalculateConfidence(transcript, chord) == 99 <==>
      ChordMentioned(transcript, chord) && HasQuestionWord(transcript) && |transcript| >= 5
    ensures CalculateConfidence(transcript, chord) ==
      if ChordMentioned(transcript, chord) && HasQuestionWord(transcript) && |transcript| >= 5 then 99
      else RawScore(ChordMentioned(transcript, chord), HasQuestionWord(transcript), |transcript|)
  {
  }

  /** Each signal can only raise the confidence, the other inputs fixed. */
  lemma ConfidenceMonotone(m1: bool, q1: bool, m2: bool, q2: bool, length: nat)
    requires (m1 ==> m2) && (q1 ==> q2)
    ensures Confidence(m1, q1, length) <= Confidence(m2, q2, length)
  {
  }

  /** A longer transcript never gets a lower confidence, the other signals fixed. */
  lemma ConfidenceMonotoneInLength(m: bool, q: bool, l1: nat, l2: nat)
    requires l1 <= l2
    ensures Confidence(m, q, l1) <= Confidence(m, q, l2)
  {
  }

  /** A transcript that repeats the chord's name, ignoring case, mentions it. */
  lemma TranscriptOfChordMentionsIt(chord: string)
    ensures ChordMentioned(chord, chord)
  {
    assert Text.ToLower(chord) <= Text.ToLower(chord);
  }

  /** The chord is forwarded when it is non-empty, not "Unknown", and does not contain "error" in any case. */
  predicate ShouldForward(chord: string) {
    chord != "" && chord != "Unknown" && !Text.Contains(Text.ToLower(chord), "error")
  }

  /** What the two socket connections are sent. */
  datatype Emission =
    | ToFlaskChordDetected(chord: string, file: string, transcript: Option<string>, sessionId: string)
    | ToApiChordDetected(chord: string, sessionId: string, confidence: int, originalText: string)
    | ToApiDetectionFailed(reason: string, originalText: string, sessionId: string)
    | ToApiDetectionError(error: string, audioFile: string, sessionId: string)

  /** The request from the audio server: the recorded file and, optionally, the session id. */
  datatype AnalyzeRequest = AnalyzeRequest(audioPath: string, sessionId: Option<string>)

  const WhisperFailed: string := "Whisper transcription failed: "
  const ExtractionFailed: string := "GPT extraction failed: "
  const ErrorPrefix: string := "Error: "
  const NotDetected: string := "No chord detected"

  /** What a failing stage sends: the prefixed message to the audio server, the bare one to the API server. */
  function FailurePair(message: string, file: string, sessionId: string): (out: seq<Emission>)
    ensures |out| == 2 && out[0].ToFlaskChordDetected? && out[1].ToApiDetectionError?
    ensures out[0].chord == ErrorPrefix + message && out[1].error == message
    ensures out[0].file == out[1].audioFile == file && out[0].transcript == None
    ensures out[0].sessionId == out[1].sessionId == sessionId
  {
    [ToFlaskChordDetected(ErrorPrefix + message, file, None, sessionId),
     ToApiDetectionError(message, file, sessionId)]
  }

  /** What an answered extraction sends: the chord (or "Unknown") to the audio server, and the gated result to the API server. */
  function AnswerPair(transcript: string, chord: string, file: string, sessionId: string): (out: seq<Emission>)
    ensures |out| == 2 && out[0].ToFlaskChordDetected? && out[0].file == file
    ensures out[0].chord == (if chord == "" then "Unknown" else chord) && out[0].transcript == Some(transcript)
    ensures out[0].sessionId == out[1].sessionId == sessionId
    ensures out[1].ToApiChordDetected? <==> ShouldForward(chord)
    ensures !ShouldForward(chord) ==> out[1] == ToApiDetectionFailed(NotDetected, transcript, sessionId)
    ensures out[1].ToApiChordDetected? ==>
      out[1] == ToApiChordDetected(chord, sessionId, CalculateConfidence(transcript, chord), transcript)
  {
    var shown := if chord == "" then "Unknown" else chord;
    var second :=
      if ShouldForward(chord) then ToApiChordDetected(chord, sessionId, CalculateConfidence(transcript, chord), transcript)
      else ToApiDetectionFailed(NotDetected, transcript, sessionId);
    [ToFlaskChordDetected(shown, file, Some(transcript), sessionId), second]
  }

  /**
   * One `analyze-audio` request. `transcription` and `extraction` are the results of the two
   * remote calls (the extraction's text already trimmed); a failure carries the call's error
   * message, which is reported with the name of the failing stage in front.
   */
  function AnalyzeAudio(req: AnalyzeRequest, transcription: Result<string, string>,
                        extraction: Result<string, string>, now: nat): (out: seq<Emission>)
    ensures |out| == 2
    ensures out[0].ToFlaskChordDetected? && out[0].file == req.audioPath
    ensures out[0].sessionId == out[1].sessionId == SessionOr(req.sessionId, now)
    ensures out[0].chord != ""
    ensures out[1].ToApiChordDetected? <==>
      transcription.Success? && extraction.Success? && ShouldForward(extraction.value)
    ensures out[1].ToApiChordDetected? ==>
      && out[1].chord == extraction.value
      && out[0].chord == extraction.value
      && out[1].confidence == CalculateConfidence(transcription.value, extraction.value)
    ensures out[1].ToApiDetectionError? <==> transcription.Failure? || extraction.Failure?
    ensures transcription.Failure? ==> out[1].error == WhisperFailed + transcription.error
    ensures transcription.Success? && extraction.Failure? ==>
      out[1].error == ExtractionFailed + extraction.error
    ensures out[1].ToApiDetectionError? ==>
      && out[0].chord == ErrorPrefix + out[1].error
      && out[0].transcript == None
      && out[1].audioFile == req.audioPath
    ensures transcription.Success? && extraction.Success? ==>
      && out[0].chord == (if extraction.value == "" then "Unknown" else extraction.value)
      && out[0].transcript == Some(transcription.value)
    ensures transcription.Success? && extraction.Success? && !ShouldForward(extraction.value) ==>
      out[1] == ToApiDetectionFailed(NotDetected, transcription.value, SessionOr(req.sessionId, now))
    ensures out[1].ToApiChordDetected? ==> out[1].originalText == transcription.value
  {
    var sessionId := SessionOr(req.sessionId, now);
    match transcription
    case Failure(e) => FailurePair(WhisperFailed + e, req.audioPath, sessionId)
    case Success(transcript) =>
      match extraction
      case Failure(e) => FailurePair(ExtractionFailed + e, req.audioPath, sessionId)
      case Success(chord) => AnswerPair(transcript, chord, req.audioPath, sessionId)
  }

  /** "Unknown", and any answer mentioning an error, is never forwarded to the API server. */
  lemma UnknownIsNotForwarded(req: AnalyzeRequest, transcript: string, chord: string, now: nat)
    requires chord == "Unknown" || Text.Contains(Text.ToLower(chord), "error")
    ensures AnalyzeAudio(req, Success(transcript), Success(chord), now)[1].ToApiDetectionFailed?
  {
  }
}
