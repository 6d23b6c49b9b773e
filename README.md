# Coqui TTS ROS 2 node: goal execution model

This project models the text-to-speech action node of `coqui_tts_ros2`. A client sends a
goal with a text and synthesis options. The node answers with staged feedback
(STARTED, GENERATED_AUDIO, WAIT_DONE, AUDIO_PLAYED), publishes a "speaking" flag around
playback and ends the goal as succeeded or aborted.

The model covers:

- the execution routine `execute_callback`, as an imperative method on a `Node` class
  (`TtsNode.Node.ExecuteCallback`). It appends every externally visible action to a shared
  event log: feedback, speaking publishes, the engine call with its resolved arguments,
  the player call, the sleep, abort and succeed. It returns the result payload, or
  `None` for the silent empty-text abort. It reuses one `FeedbackMsg` object whose stage
  is overwritten, like the source does;
- the same routine as a pure specification, `TtsTrace.Trace` (the events) and
  `TtsTrace.Outcome` (the returned value). The method is proved to produce exactly these.
  The exit-path properties are lemmas about them: event kinds projected with
  `TtsTrace.Filter`, the order of feedback stages, one terminal transition, the wait rule,
  and the synthesize-then-play order on one file path;
- the sentinel mapping of the goal's optional fields (`TtsParams.Resolve`), stated as
  round trips against the inverse wire encoding `TtsParams.Encode`;
- the startup device check (`TtsDevice.CheckDevice`) and node startup (`TtsNode.Launch`);
- the admission and cancellation callbacks, which always accept. Also
  `TtsNode.CancelThenExecute`, which shows that an accepted cancel request does not
  change the trace or the result.

Synthesis and playback are oracles. A `TtsTrace.Environment` value gives, for one goal:

- the temporary file path;
- whether the engine returned or raised, and the exception's text;
- the seconds measured from the start of synthesis to the second clock read;
- whether the player returned or raised, and the exception's text.

Times are `real` seconds.

On playback failure the speaking flag stays true. The exception from the player call
(`coqui_tts_ros2/coqui_tts_ros2/coqui_tts_ros2_node.py:138`) skips the `False` publish on
line 139, and the handler on lines 145-152 never publishes it
(`TtsTrace.PlaybackFailure`).

The goal states `Executing`, `Canceling`, `Succeeded` and `Aborted`, and the rule that
only an executing or canceling goal may succeed or abort, come from the ROS 2 action
goal state machine. The framework is not part of this model.

## Model

| member | source | states |
|---|---|---|
| TtsParams.OptionalString | coqui_tts_ros2/coqui_tts_ros2/coqui_tts_ros2_node.py:75-89 | a string option is unset exactly when the wire value is empty, and otherwise holds that value unchanged |
| TtsParams.OptionalSpeed | coqui_tts_ros2/coqui_tts_ros2/coqui_tts_ros2_node.py:90-92 | the speed is unset exactly when the wire value is 0.0, and otherwise passes through unchanged |
| TtsParams.Resolve | coqui_tts_ros2/coqui_tts_ros2/coqui_tts_ros2_node.py:75-93 | the engine receives the request's text unchanged and split_sentences as the negation of dont_split_sentences; no resolved argument is ever an empty string or a zero speed |
| TtsParams.ResolveFields | coqui_tts_ros2/coqui_tts_ros2/coqui_tts_ros2_node.py:75-93 | the text is passed unchanged; each of speaker, language, speaker_wave and emotion is unset iff it is empty; speed is unset iff 0.0; split_sentences is the negation of dont_split_sentences |
| TtsParams.ResolveThenEncode | coqui_tts_ros2/coqui_tts_ros2/coqui_tts_ros2_node.py:75-94 | for every request, re-encoding the resolved arguments with the request's wait gives back the request |
| TtsParams.EncodeThenResolve | coqui_tts_ros2/coqui_tts_ros2/coqui_tts_ros2_node.py:75-93 | resolving an encoded argument set gives it back iff no argument holds its sentinel; the resolved arguments never hold an empty string or a zero speed |
| TtsParams.ResolveInjective | coqui_tts_ros2/coqui_tts_ros2/coqui_tts_ros2_node.py:75-93 | two requests give the same engine arguments iff they differ at most in wait_before_speaking |
| TtsParams.ZeroSpeedIsUnsetSpeed | coqui_tts_ros2/coqui_tts_ros2/coqui_tts_ros2_node.py:90-92 | a speed of 0.0 and an unset speed give identical engine arguments, with the speed left to the engine's default |
| TtsDevice.CheckDevice | coqui_tts_ros2/coqui_tts_ros2/coqui_tts_ros2_node.py:37-40 | the check succeeds iff the device is "cpu", or "cuda" with an accelerator; "cuda" without one gives the CUDA-unavailable error; any other name gives the unknown-device error for that name; a success names the device given |
| TtsDevice.CheckDeviceName | coqui_tts_ros2/coqui_tts_ros2/coqui_tts_ros2_node.py:37-40 | checking a device's own name gives that device back, except the CUDA-unavailable error for "cuda" without an accelerator |
| TtsDevice.ErrorMessage | coqui_tts_ros2/coqui_tts_ros2/coqui_tts_ros2_node.py:38-40 | the CUDA error's text is exactly "CUDA is not available, please set device=cpu"; the unknown-device text is "Unknown device: ", then exactly the refused name, then "\nSupported devices: [cpu, cuda]" |
| TtsDevice.CheckDeviceMessage | coqui_tts_ros2/coqui_tts_ros2/coqui_tts_ros2_node.py:37-40 | a refused start raises "CUDA is not available, please set device=cpu" for cuda without an accelerator, and otherwise "Unknown device: " + the name + "\nSupported devices: [cpu, cuda]" |
| TtsDevice.ErrorMessageInjective | coqui_tts_ros2/coqui_tts_ros2/coqui_tts_ros2_node.py:38-40 | two configuration errors raise the same text iff they are the same error, so the refused name can be read back from the message |
| TtsNode.Launch | coqui_tts_ros2/coqui_tts_ros2/coqui_tts_ros2_node.py:33-46 | the node starts iff the device check succeeds, failing with the check's error otherwise; a started node has a fresh empty log, the configured model and the checked device |
| TtsNode.Node.GoalCallback | coqui_tts_ros2/coqui_tts_ros2/coqui_tts_ros2_node.py:160-162 | every goal is accepted |
| TtsNode.Node.CancelCallback | coqui_tts_ros2/coqui_tts_ros2/coqui_tts_ros2_node.py:164-166 | every cancel request is accepted |
| TtsNode.CancelThenExecute | coqui_tts_ros2/coqui_tts_ros2/coqui_tts_ros2_node.py:62-166 | after an accepted cancel request the goal still produces exactly `Trace` and `Outcome` and ends succeeded or aborted, never left canceling |
| TtsNode.Node.GenerateAudio | coqui_tts_ros2/coqui_tts_ros2/coqui_tts_ros2_node.py:102-114 | the guarded synthesis block logs the engine call with the resolved arguments and the file path, then GENERATED_AUDIO only if the engine returned; the feedback message's stage is set to match |
| TtsNode.Node.PlayAudio | coqui_tts_ros2/coqui_tts_ros2/coqui_tts_ros2_node.py:135-143 | the guarded playback block logs speaking=true and the player call, then speaking=false and AUDIO_PLAYED only if the player returned |
| TtsNode.Node.ExecuteCallback | coqui_tts_ros2/coqui_tts_ros2/coqui_tts_ros2_node.py:62-158 | the routine appends exactly `Trace` to the log and returns exactly `Outcome`; the goal ends succeeded iff the result reports success, and aborted otherwise (also on the empty-text path) |
| TtsTrace.Trace | coqui_tts_ros2/coqui_tts_ros2/coqui_tts_ros2_node.py:62-158 | every execution publishes STARTED first and has at least one further event |
| TtsTrace.Outcome | coqui_tts_ros2/coqui_tts_ros2/coqui_tts_ros2_node.py:62-158 | the routine returns no result iff the text is empty; a result reports success iff both synthesis and playback returned normally |
| TtsTrace.WaitEvents | coqui_tts_ros2/coqui_tts_ros2/coqui_tts_ros2_node.py:127-130 | there is at most one sleep; there is one iff the remaining wait is positive, and then it lasts exactly the remaining wait |
| TtsTrace.EmptyTextAbortsSilently | coqui_tts_ros2/coqui_tts_ros2/coqui_tts_ros2_node.py:64-72 | an empty text gives exactly [STARTED feedback, abort]: no engine or player call, no speaking publish, no sleep, and no result payload |
| TtsTrace.SynthesisFailure | coqui_tts_ros2/coqui_tts_ros2/coqui_tts_ros2_node.py:102-123 | a raising engine gives feedback [STARTED] only, one engine call and no player call, no speaking publish, no sleep, one abort as the last event, and the result success=false with "Failed to generate audio: " followed by the exception's text |
| TtsTrace.PlaybackFailure | coqui_tts_ros2/coqui_tts_ros2/coqui_tts_ros2_node.py:135-152 | a raising player gives feedback STARTED, GENERATED_AUDIO, WAIT_DONE and no AUDIO_PLAYED; speaking=true directly before the player call, never followed by speaking=false; one abort as the last event; and the result success=false with "Failed to play audio: " followed by the exception's text |
| TtsTrace.SuccessPath | coqui_tts_ros2/coqui_tts_ros2/coqui_tts_ros2_node.py:102-158 | when both calls return, the feedback is exactly STARTED, GENERATED_AUDIO, WAIT_DONE, AUDIO_PLAYED; speaking is [true, false], directly before and after the player call; the engine and then the player are called on the same file; succeed happens once, as the last event; and the result is success=true with "TTS conversion and playback completed." |
| TtsTrace.WaitRule | coqui_tts_ros2/coqui_tts_ros2/coqui_tts_ros2_node.py:125-133 | once synthesis returned, the trace holds one sleep of exactly wait_before_speaking minus generation time iff that is positive, and no sleep otherwise; the sleep, if any, is the only event between GENERATED_AUDIO and WAIT_DONE |
| TtsTrace.FeedbackIsOrderedPrefix | coqui_tts_ros2/coqui_tts_ros2/coqui_tts_ros2_node.py:62-158 | on every path the feedback stages are a non-empty prefix of STARTED, GENERATED_AUDIO, WAIT_DONE, AUDIO_PLAYED and strictly increase |
| TtsTrace.ExactlyOneTerminal | coqui_tts_ros2/coqui_tts_ros2/coqui_tts_ros2_node.py:62-158 | on every path exactly one terminal transition happens, as the last event; it is succeed iff a result with success=true is returned, and abort otherwise |
| TtsTrace.GatewayOrder | coqui_tts_ros2/coqui_tts_ros2/coqui_tts_ros2_node.py:97-138 | the gateway calls are a prefix of [engine call, player call] on one file path; the engine is called iff the text is non-empty; the player is called iff additionally synthesis returned |

## Left out

- ROS plumbing is not modelled: node construction, parameter declaration, the action
  server wiring, publisher creation, `main` and spinning (lines 26-31, 49-60, 168-176).
  Their effects appear only as events in the log.
- The `torch.load` monkey-patch and the `builtins.input` patch (lines 10-15, 21-23) are
  library workarounds with no logic to state.
- Loading the TTS model and moving it to the device (line 46) is not modelled. Neither is
  the neural synthesis itself (lines 103-110): its outcome is an oracle. The model name is
  only carried along.
- The `aplay` subprocess (line 138) is an oracle outcome; a non-zero exit status and a
  missing player both count as "raised". The temporary file's creation and deletion
  (line 100) are not modelled either; only its path is, and the same path is passed to the
  engine and to the player.
- Wall-clock reads and sleeping (lines 97, 126, 130) become the oracle's generation time
  and a `Sleep` event; real time does not pass in the model.
- Two ways out of the routine that skip the abort are not modelled. `time.sleep`
  (line 130) is outside both guarded blocks and raises `OverflowError` for a wait beyond
  the platform's time range (or an infinite one); the exception would then leave the
  routine with no WAIT_DONE, no terminal transition and no result, whereas `Trace` emits
  the sleep and continues. And `except Exception` (lines 116, 145) does not catch
  `BaseException`s such as `KeyboardInterrupt` or `SystemExit` from the engine or the
  player; `CallOutcome.Raised` stands only for exceptions the handlers catch.
- Floating point is not modelled: the wait, the generation time and the speed are exact
  reals, so NaN, negative zero and rounding are left out.
- Logging calls are not observable behaviour and are left out.
- The model assumes that publishing feedback or a speaking value never raises. In the
  source, a raising publish inside one of the two guarded blocks would be reported as a
  synthesis or playback failure.
- What the action server does with the `None` returned on the empty-text path is
  framework behaviour and is not modelled.
- Concurrency is not modelled. A cancel request can arrive while the routine runs, and
  several goals can share the speaking topic. `TtsNode.CancelThenExecute` covers a cancel
  accepted once the goal is EXECUTING, before the routine publishes STARTED; since the
  routine never reads the goal's cancel state, the same holds at any point.
- `scripts/clone_model.py` is a one-shot model download script (network and file I/O) and
  is not part of this model.
