/** The behaviour of one goal execution as a trace of externally visible events.
    Synthesis and playback are oracles: an Environment says whether each call completes
    or raises (with the exception's text), how long synthesis took and which temporary
    file path was handed out. `Trace` gives the events of the execution routine and
    `Outcome` the value it returns; the lemmas state what the routine promises on each
    exit path. */
module TtsTrace {
  import opened Wrappers
  import opened TtsAction
  import opened TtsParams

  /** An externally visible action of the execution routine. */
  datatype Event =
    | Feedback(stage: Stage)                       // feedback published on the goal
    | Speaking(data: bool)                         // value published on the speaking topic
    | SynthCall(args: SynthArgs, filePath: string) // synthesis engine writes the audio file
    | PlayCall(filePath: string)                   // audio player run on the file
    | Sleep(seconds: real)                         // timed suspension before playback
    | AbortGoal                                    // goal moved to ABORTED
    | SucceedGoal                                  // goal moved to SUCCEEDED

  /** Events grouped by the channel they are observed on. */
  datatype EventKind = FeedbackKind | SpeakingKind | GatewayKind | SleepKind | TerminalKind

  function KindOf(e: Event): EventKind {
    match e
    case Feedback(_) => FeedbackKind
    case Speaking(_) => SpeakingKind
    case SynthCall(_, _) => GatewayKind
    case PlayCall(_) => GatewayKind
    case Sleep(_) => SleepKind
    case AbortGoal => TerminalKind
    case SucceedGoal => TerminalKind
  }

  /** What an opaque call did: returned normally, or raised an exception with this text. */
  datatype CallOutcome = Completed | Raised(message: string)

  /** The oracle answers for one goal: the temporary audio file's path, the outcome of
      synthesis, the seconds elapsed from the start of synthesis to the moment the
      routine reads the clock again, and the outcome of playback. */
  datatype Environment = Environment(
    wavPath: string,
    synthesis: CallOutcome,
    generationTime: real,
    playback: CallOutcome)

  const FEEDBACK_LADDER: seq<Event> :=
    [Feedback(Started), Feedback(GeneratedAudio), Feedback(WaitDone), Feedback(AudioPlayed)]

  /** The part of the requested wait that synthesis has not used up. */
  function RemainingWait(req: GoalRequest, env: Environment): real {
    req.waitBeforeSpeaking - env.generationTime
  }

  /** The suspension performed for a remaining wait: one sleep of exactly that length
      when it is positive, none otherwise. */
  function WaitEvents(remaining: real): (w: seq<Event>)
    ensures |w| <= 1
    ensures |w| == 1 <==> remaining > 0.0
    ensures forall e :: e in w ==> e == Sleep(remaining)
  {
    if remaining > 0.0 then [Sleep(remaining)] else []
  }

  /** The events of one kind, in trace order. */
  function Filter(t: seq<Event>, k: EventKind): (r: seq<Event>)
    ensures |r| <= |t|
    ensures forall i :: 0 <= i < |r| ==> KindOf(r[i]) == k
  {
    if t == [] then []
    else (if KindOf(t[0]) == k then [t[0]] else []) + Filter(t[1..], k)
  }

  lemma {:induction false} FilterAppend(a: seq<Event>, b: seq<Event>, k: EventKind)
    ensures Filter(a + b, k) == Filter(a, k) + Filter(b, k)
  {
    if a == [] {
      assert a + b == b;
    } else {
      assert (a + b)[0] == a[0];
      assert (a + b)[1..] == a[1..] + b;
      FilterAppend(a[1..], b, k);
    }
  }

  /** The events of one kind among the single event `e`. */
  function Keep(e: Event, k: EventKind): seq<Event> {
    if KindOf(e) == k then [e] else []
  }

  lemma FilterSingle(e: Event, k: EventKind)
    ensures Filter([e], k) == Keep(e, k)
  {
  }

  lemma FilterPair(a: Event, b: Event, k: EventKind)
    ensures Filter([a, b], k) == Keep(a, k) + Keep(b, k)
  {
  }

  lemma FilterTriple(a: Event, b: Event, c: Event, k: EventKind)
    ensures Filter([a, b, c], k) == Keep(a, k) + Keep(b, k) + Keep(c, k)
  {
    assert [a, b, c][1..] == [b, c];
    FilterPair(b, c, k);
  }

  lemma FilterWait(remaining: real, k: EventKind)
    ensures Filter(WaitEvents(remaining), k)
         == if remaining > 0.0 then Keep(Sleep(remaining), k) else []
  {
  }

  lemma FilterFive(a: seq<Event>, b: seq<Event>, c: seq<Event>, d: seq<Event>, e: seq<Event>, k: EventKind)
    ensures Filter(a + b + c + d + e, k)
         == Filter(a, k) + Filter(b, k) + Filter(c, k) + Filter(d, k) + Filter(e, k)
  {
    FilterAppend(a, b, k);
    FilterAppend(a + b, c, k);
    FilterAppend(a + b + c, d, k);
    FilterAppend(a + b + c + d, e, k);
  }

  function Last(t: seq<Event>): Event
    requires t != []
  {
    t[|t| - 1]
  }

  /** The events of the guarded synthesis block: the engine call and, when it
      returns normally, the GENERATED_AUDIO feedback. */
  function GenerationEvents(args: SynthArgs, wavPath: string, synthesis: CallOutcome): seq<Event> {
    [SynthCall(args, wavPath)] + (if synthesis.Completed? then [Feedback(GeneratedAudio)] else [])
  }

  /** The events of the guarded playback block: speaking=true and the player and, when
      the player returns normally, speaking=false and the AUDIO_PLAYED feedback. */
  function PlaybackEvents(wavPath: string, playback: CallOutcome): seq<Event> {
    [Speaking(true), PlayCall(wavPath)]
    + (if playback.Completed? then [Speaking(false), Feedback(AudioPlayed)] else [])
  }

  /** The events of the execution routine, from the STARTED feedback to the terminal
      transition of the goal. */
  function Trace(req: GoalRequest, env: Environment): (t: seq<Event>)
    ensures |t| >= 2 && t[0] == Feedback(Started)
  {
    if req.text == "" then
      [Feedback(Started), AbortGoal]
    else if env.synthesis.Raised? then
      [Feedback(Started)] + GenerationEvents(Resolve(req), env.wavPath, env.synthesis) + [AbortGoal]
    else
      [Feedback(Started)] + GenerationEvents(Resolve(req), env.wavPath, env.synthesis)
      + WaitEvents(RemainingWait(req, env)) + [Feedback(WaitDone)]
      + PlaybackEvents(env.wavPath, env.playback)
      + [if env.playback.Raised? then AbortGoal else SucceedGoal]
  }

  /** The value the execution routine returns: nothing for an empty text, otherwise
      the result message of the exit it takes. */
  function Outcome(req: GoalRequest, env: Environment): (r: Option<ActionResult>)
    ensures r.None? <==> req.text == ""
    ensures r.Some? ==> (r.value.success <==> env.synthesis == Completed && env.playback == Completed)
  {
    if req.text == "" then None
    else match env.synthesis
      case Raised(e) => Some(ActionResult(false, SynthesisFailureMessage(e)))
      case Completed =>
        match env.playback
        case Raised(e) => Some(ActionResult(false, PlaybackFailureMessage(e)))
        case Completed => Some(ActionResult(true, SUCCESS_MESSAGE))
  }

  /** The trace of a goal whose synthesis completed: the opening STARTED feedback and
      engine call, GENERATED_AUDIO, the wait, WAIT_DONE, speaking=true, the player,
      and then `tail`, which the playback outcome decides. */
  lemma PlayingTrace(req: GoalRequest, env: Environment)
    requires req.text != "" && env.synthesis == Completed
    ensures var t := Trace(req, env);
      var opening := [Feedback(Started), SynthCall(Resolve(req), env.wavPath)];
      var playing := [Feedback(WaitDone), Speaking(true), PlayCall(env.wavPath)];
      var tail := if env.playback.Raised? then [AbortGoal]
                  else [Speaking(false), Feedback(AudioPlayed), SucceedGoal];
      t == opening + [Feedback(GeneratedAudio)] + WaitEvents(RemainingWait(req, env)) + playing + tail
  {
  }

  /** An empty text is rejected after the STARTED feedback: the goal is aborted with no
      result payload, and neither the engine, the player, the speaking topic nor the
      clock is touched. */
  lemma EmptyTextAbortsSilently(req: GoalRequest, env: Environment)
    requires req.text == ""
    ensures var t := Trace(req, env);
      && t == [Feedback(Started), AbortGoal]
      && Filter(t, FeedbackKind) == [Feedback(Started)]
      && Filter(t, GatewayKind) == []
      && Filter(t, SpeakingKind) == []
      && Filter(t, SleepKind) == []
      && Filter(t, TerminalKind) == [AbortGoal]
    ensures Outcome(req, env) == None
  {
  }

  /** A failed synthesis aborts the goal after the STARTED feedback alone: the player
      is never run, nothing is published on the speaking topic, no sleep happens, and
      the result carries the exception's text. */
  lemma SynthesisFailure(req: GoalRequest, env: Environment, e: string)
    requires req.text != "" && env.synthesis == Raised(e)
    ensures var t := Trace(req, env);
      && Filter(t, FeedbackKind) == [Feedback(Started)]
      && Filter(t, GatewayKind) == [SynthCall(Resolve(req), env.wavPath)]
      && Filter(t, SpeakingKind) == []
      && Filter(t, SleepKind) == []
      && Filter(t, TerminalKind) == [AbortGoal]
      && Last(t) == AbortGoal
    ensures Outcome(req, env) == Some(ActionResult(false, SynthesisFailureMessage(e)))
  {
    var s := SynthCall(Resolve(req), env.wavPath);
    assert Trace(req, env) == [Feedback(Started), s, AbortGoal];
    forall k: EventKind
      ensures Filter([Feedback(Started), s, AbortGoal], k)
           == Keep(Feedback(Started), k) + Keep(s, k) + Keep(AbortGoal, k)
    {
      FilterTriple(Feedback(Started), s, AbortGoal, k);
    }
  }

  /** The events of kind `k` in the trace of a goal whose synthesis completed. */
  lemma FilterPlaying(req: GoalRequest, env: Environment, k: EventKind)
    requires req.text != "" && env.synthesis == Completed
    ensures Filter(Trace(req, env), k)
         == (Keep(Feedback(Started), k) + Keep(SynthCall(Resolve(req), env.wavPath), k))
            + Keep(Feedback(GeneratedAudio), k)
            + (if RemainingWait(req, env) > 0.0 then Keep(Sleep(RemainingWait(req, env)), k) else [])
            + (Keep(Feedback(WaitDone), k) + Keep(Speaking(true), k) + Keep(PlayCall(env.wavPath), k))
            + (if env.playback.Raised? then Keep(AbortGoal, k)
               else Keep(Speaking(false), k) + Keep(Feedback(AudioPlayed), k) + Keep(SucceedGoal, k))
  {
    var opening := [Feedback(Started), SynthCall(Resolve(req), env.wavPath)];
    var playing := [Feedback(WaitDone), Speaking(true), PlayCall(env.wavPath)];
    var tail := if env.playback.Raised? then [AbortGoal]
                else [Speaking(false), Feedback(AudioPlayed), SucceedGoal];
    var w := WaitEvents(RemainingWait(req, env));
    PlayingTrace(req, env);
    FilterFive(opening, [Feedback(GeneratedAudio)], w, playing, tail, k);
    FilterPair(opening[0], opening[1], k);
    FilterSingle(Feedback(GeneratedAudio), k);
    FilterWait(RemainingWait(req, env), k);
    FilterTriple(playing[0], playing[1], playing[2], k);
    if env.playback.Raised? {
      FilterSingle(AbortGoal, k);
    } else {
      FilterTriple(tail[0], tail[1], tail[2], k);
    }
  }

  /** Once synthesis has completed: STARTED, GENERATED_AUDIO and WAIT_DONE are
      published, and AUDIO_PLAYED follows exactly when playback completes. */
  lemma PlayingFeedback(req: GoalRequest, env: Environment)
    requires req.text != "" && env.synthesis == Completed
    ensures Filter(Trace(req, env), FeedbackKind)
         == [Feedback(Started), Feedback(GeneratedAudio), Feedback(WaitDone)]
            + (if env.playback.Raised? then [] else [Feedback(AudioPlayed)])
  {
    FilterPlaying(req, env, FeedbackKind);
  }

  /** Once synthesis has completed, the engine and then the player are called, both on
      the temporary file. */
  lemma PlayingGateway(req: GoalRequest, env: Environment)
    requires req.text != "" && env.synthesis == Completed
    ensures Filter(Trace(req, env), GatewayKind)
         == [SynthCall(Resolve(req), env.wavPath), PlayCall(env.wavPath)]
  {
    FilterPlaying(req, env, GatewayKind);
  }

  /** Once synthesis has completed, speaking=true is published, and speaking=false
      follows exactly when playback completes. */
  lemma PlayingSpeaking(req: GoalRequest, env: Environment)
    requires req.text != "" && env.synthesis == Completed
    ensures Filter(Trace(req, env), SpeakingKind)
         == [Speaking(true)] + (if env.playback.Raised? then [] else [Speaking(false)])
  {
    FilterPlaying(req, env, SpeakingKind);
  }

  /** Once synthesis has completed, the goal is aborted when playback raises and
      succeeds otherwise, exactly once either way. */
  lemma PlayingTerminal(req: GoalRequest, env: Environment)
    requires req.text != "" && env.synthesis == Completed
    ensures Filter(Trace(req, env), TerminalKind)
         == if env.playback.Raised? then [AbortGoal] else [SucceedGoal]
  {
    FilterPlaying(req, env, TerminalKind);
  }

  /** Once synthesis has completed, the only sleep is the one for a positive remaining
      wait. */
  lemma PlayingSleep(req: GoalRequest, env: Environment)
    requires req.text != "" && env.synthesis == Completed
    ensures Filter(Trace(req, env), SleepKind) == WaitEvents(RemainingWait(req, env))
  {
    FilterPlaying(req, env, SleepKind);
  }

  /** A failed playback aborts the goal after STARTED, GENERATED_AUDIO and WAIT_DONE:
      speaking=true is published right before the player runs and is never followed
      by speaking=false, there is no AUDIO_PLAYED, and the result carries the
      exception's text. */
  lemma PlaybackFailure(req: GoalRequest, env: Environment, e: string)
    requires req.text != "" && env.synthesis == Completed && env.playback == Raised(e)
    ensures var t := Trace(req, env);
      && Filter(t, FeedbackKind) == [Feedback(Started), Feedback(GeneratedAudio), Feedback(WaitDone)]
      && Filter(t, GatewayKind) == [SynthCall(Resolve(req), env.wavPath), PlayCall(env.wavPath)]
      && Filter(t, SpeakingKind) == [Speaking(true)]
      && Filter(t, TerminalKind) == [AbortGoal]
      && |t| >= 3 && t[|t| - 3] == Speaking(true) && t[|t| - 2] == PlayCall(env.wavPath)
      && Last(t) == AbortGoal
    ensures Outcome(req, env) == Some(ActionResult(false, PlaybackFailureMessage(e)))
  {
    PlayingFeedback(req, env);
    PlayingGateway(req, env);
    PlayingSpeaking(req, env);
    PlayingTerminal(req, env);
    PlayingTrace(req, env);
  }

  /** A goal whose synthesis and playback complete passes all four feedback stages in
      order, publishes speaking=true right before the player and speaking=false right
      after it, calls the engine and then the player on the same file, succeeds once
      and returns the success message. */
  lemma SuccessPath(req: GoalRequest, env: Environment)
    requires req.text != "" && env.synthesis == Completed && env.playback == Completed
    ensures var t := Trace(req, env);
      && Filter(t, FeedbackKind) == FEEDBACK_LADDER
      && Filter(t, GatewayKind) == [SynthCall(Resolve(req), env.wavPath), PlayCall(env.wavPath)]
      && Filter(t, SpeakingKind) == [Speaking(true), Speaking(false)]
      && Filter(t, TerminalKind) == [SucceedGoal]
      && Last(t) == SucceedGoal
      && exists j :: 0 < j < |t| - 1 && t[j - 1] == Speaking(true) && t[j] == PlayCall(env.wavPath)
                     && t[j + 1] == Speaking(false)
    ensures Outcome(req, env) == Some(ActionResult(true, SUCCESS_MESSAGE))
  {
    var t := Trace(req, env);
    PlayingFeedback(req, env);
    PlayingGateway(req, env);
    PlayingSpeaking(req, env);
    PlayingTerminal(req, env);
    PlayingTrace(req, env);
    var j := 2 + 1 + |WaitEvents(RemainingWait(req, env))| + 2;
    assert t[j - 1] == Speaking(true) && t[j] == PlayCall(env.wavPath) && t[j + 1] == Speaking(false);
  }

  /** The wait rule: once synthesis has completed, the routine sleeps for exactly the
      remaining wait when it is positive and not at all otherwise, and a sleep can only
      lie between the GENERATED_AUDIO and WAIT_DONE feedback, which nothing else
      separates. */
  lemma WaitRule(req: GoalRequest, env: Environment)
    requires req.text != "" && env.synthesis == Completed
    ensures var t := Trace(req, env);
      var remaining := req.waitBeforeSpeaking - env.generationTime;
      && Filter(t, SleepKind) == (if remaining > 0.0 then [Sleep(remaining)] else [])
      && exists i, k :: 0 <= i < k < |t| && t[i] == Feedback(GeneratedAudio)
                        && t[k] == Feedback(WaitDone) && t[i + 1..k] == Filter(t, SleepKind)
  {
    var t := Trace(req, env);
    var w := WaitEvents(RemainingWait(req, env));
    PlayingSleep(req, env);
    PlayingTrace(req, env);
    var k := 3 + |w|;
    assert t[2] == Feedback(GeneratedAudio) && t[k] == Feedback(WaitDone);
    assert t[3..k] == w;
  }

  /** On every path the feedback stages published are a non-empty prefix of
      STARTED, GENERATED_AUDIO, WAIT_DONE, AUDIO_PLAYED, so they strictly advance. */
  lemma FeedbackIsOrderedPrefix(req: GoalRequest, env: Environment)
    ensures var f := Filter(Trace(req, env), FeedbackKind);
      && 1 <= |f| <= |FEEDBACK_LADDER|
      && f == FEEDBACK_LADDER[..|f|]
      && forall i, j :: 0 <= i < j < |f| ==> Rank(f[i].stage) < Rank(f[j].stage)
  {
    var f := Filter(Trace(req, env), FeedbackKind);
    if req.text == "" {
      EmptyTextAbortsSilently(req, env);
    } else if env.synthesis.Raised? {
      SynthesisFailure(req, env, env.synthesis.message);
    } else {
      PlayingFeedback(req, env);
    }
    assert f == FEEDBACK_LADDER[..|f|];
  }

  /** On every path exactly one terminal transition happens, it is the last event, and
      it is SUCCEEDED exactly when the returned result reports success. */
  lemma ExactlyOneTerminal(req: GoalRequest, env: Environment)
    ensures var t := Trace(req, env);
      && Filter(t, TerminalKind) == [Last(t)]
      && (Last(t) == SucceedGoal <==> Outcome(req, env).Some? && Outcome(req, env).value.success)
      && (Last(t) == AbortGoal <==> !(Outcome(req, env).Some? && Outcome(req, env).value.success))
  {
    if req.text == "" {
      EmptyTextAbortsSilently(req, env);
    } else if env.synthesis.Raised? {
      SynthesisFailure(req, env, env.synthesis.message);
    } else {
      PlayingTerminal(req, env);
      PlayingTrace(req, env);
    }
  }

  /** The engine is called once for every non-empty text and the player only after the
      engine has completed, on the same file path: the gateway calls are a prefix of
      synthesize-then-play. */
  lemma GatewayOrder(req: GoalRequest, env: Environment)
    ensures var g := Filter(Trace(req, env), GatewayKind);
      var calls := [SynthCall(Resolve(req), env.wavPath), PlayCall(env.wavPath)];
      && |g| <= 2
      && g == calls[..|g|]
      && (|g| >= 1 <==> req.text != "")
      && (|g| == 2 <==> req.text != "" && env.synthesis == Completed)
  {
    var calls := [SynthCall(Resolve(req), env.wavPath), PlayCall(env.wavPath)];
    if req.text == "" {
      EmptyTextAbortsSilently(req, env);
    } else if env.synthesis.Raised? {
      SynthesisFailure(req, env, env.synthesis.message);
      assert calls[..1] == [calls[0]];
    } else {
      PlayingGateway(req, env);
    }
  }
}
