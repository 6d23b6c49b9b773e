/** The action interface of the text-to-speech node: the goal request as it arrives on
    the wire, the feedback stages, the result message and the answers of the admission
    and cancellation callbacks. */
module TtsAction {

  /** The feedback stages, in the order in which a goal passes them. */
  datatype Stage = Started | GeneratedAudio | WaitDone | AudioPlayed

  /** Position of a stage in the order STARTED < GENERATED_AUDIO < WAIT_DONE < AUDIO_PLAYED. */
  function Rank(s: Stage): (n: nat)
    ensures n < 4
  {
    match s
    case Started => 0
    case GeneratedAudio => 1
    case WaitDone => 2
    case AudioPlayed => 3
  }

  /** A goal request as the client sends it. Optional fields use sentinels: an empty
      string or a speed of 0.0 means "not set". Durations are seconds. */
  datatype GoalRequest = GoalRequest(
    text: string,
    speaker: string,
    language: string,
    speakerWave: string,
    emotion: string,
    speed: real,
    dontSplitSentences: bool,
    waitBeforeSpeaking: real)

  /** The result message of a goal. */
  datatype ActionResult = ActionResult(success: bool, message: string)

  /** Answer of the admission callback. */
  datatype GoalResponse = AcceptGoal | RejectGoal

  /** Answer of the cancellation callback. */
  datatype CancelResponse = AcceptCancel | RejectCancel

  const SUCCESS_MESSAGE: string := "TTS conversion and playback completed."
  const SYNTHESIS_FAILURE_PREFIX: string := "Failed to generate audio: "
  const PLAYBACK_FAILURE_PREFIX: string := "Failed to play audio: "

  /** The message of a goal aborted because synthesis raised `e`. */
  function SynthesisFailureMessage(e: string): string {
    SYNTHESIS_FAILURE_PREFIX + e
  }

  /** The message of a goal aborted because playback raised `e`. */
  function PlaybackFailureMessage(e: string): string {
    PLAYBACK_FAILURE_PREFIX + e
  }
}
