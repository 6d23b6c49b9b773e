/** The node itself: the shared event log standing for everything observable outside
    the node, the reused feedback message, the goal handle the action server passes to
    the execution routine, and the node with its callbacks and its execution routine,
    which is proved to produce exactly the trace and result of `TtsTrace`. */
module TtsNode {
  import opened Wrappers
  import opened TtsAction
  import opened TtsParams
  import opened TtsDevice
  import opened TtsTrace

  /** Everything the node and its goals make visible, in order. */
  class EventLog {
    var events: seq<Event>

    constructor ()
      ensures events == []
    {
      events := [];
    }

    method Record(e: Event)
      modifies this
      ensures events == old(events) + [e]
    {
      events := events + [e];
    }
  }

  /** The feedback message, allocated once per goal and re-published with a new stage. */
  class FeedbackMsg {
    var stage: Stage

    constructor (stage: Stage)
      ensures this.stage == stage
    {
      this.stage := stage;
    }
  }

  /** The states an action goal passes through once accepted. */
  datatype GoalStatus = Executing | Canceling | Succeeded | Aborted

  /** A goal that may still be completed: succeeding or aborting is allowed only here. */
  predicate Active(s: GoalStatus) {
    s == Executing || s == Canceling
  }

  /** An accepted goal: its request, its status and the log its feedback and status
      transitions are visible on. */
  class GoalHandle {
    const request: GoalRequest
    const log: EventLog
    var status: GoalStatus

    constructor (request: GoalRequest, log: EventLog)
      ensures this.request == request && this.log == log && status == Executing
    {
      this.request := request;
      this.log := log;
      status := Executing;
    }

    method PublishFeedback(msg: FeedbackMsg)
      modifies log
      ensures log.events == old(log.events) + [Feedback(msg.stage)]
    {
      log.Record(Feedback(msg.stage));
    }

    method Abort()
      requires Active(status)
      modifies this, log
      ensures status == Aborted
      ensures log.events == old(log.events) + [AbortGoal]
    {
      status := Aborted;
      log.Record(AbortGoal);
    }

    method Succeed()
      requires Active(status)
      modifies this, log
      ensures status == Succeeded
      ensures log.events == old(log.events) + [SucceedGoal]
    {
      status := Succeeded;
      log.Record(SucceedGoal);
    }

    /** The action server's reaction to an accepted cancel request: an executing goal
        is marked as canceling; nothing is published. */
    method MarkCanceling()
      modifies this
      ensures status == if old(status) == Executing then Canceling else old(status)
    {
      if status == Executing {
        status := Canceling;
      }
    }
  }

  class Node {
    const model: string
    const device: Device
    const log: EventLog

    constructor (model: string, device: Device, log: EventLog)
      ensures this.model == model && this.device == device && this.log == log
    {
      this.model := model;
      this.device := device;
      this.log := log;
    }

    /** Admission: every goal is accepted; an empty text is only rejected when the goal
        executes. */
    function GoalCallback(request: GoalRequest): (r: GoalResponse)
      ensures r == AcceptGoal
    {
      AcceptGoal
    }

    /** Every cancel request is accepted. */
    function CancelCallback(goal: GoalHandle): (r: CancelResponse)
      ensures r == AcceptCancel
    {
      AcceptCancel
    }

    /** Publish a value on the speaking topic. */
    method PublishSpeaking(data: bool)
      modifies log
      ensures log.events == old(log.events) + [Speaking(data)]
    {
      log.Record(Speaking(data));
    }

    /** Gateway to the synthesis engine: the call is recorded and its outcome is the
        oracle's. */
    method SynthesizeToFile(args: SynthArgs, filePath: string, oracle: CallOutcome)
      returns (outcome: CallOutcome)
      modifies log
      ensures outcome == oracle
      ensures log.events == old(log.events) + [SynthCall(args, filePath)]
    {
      log.Record(SynthCall(args, filePath));
      outcome := oracle;
    }

    /** Gateway to the audio player: the call is recorded and its outcome is the
        oracle's. */
    method Play(filePath: string, oracle: CallOutcome) returns (outcome: CallOutcome)
      modifies log
      ensures outcome == oracle
      ensures log.events == old(log.events) + [PlayCall(filePath)]
    {
      log.Record(PlayCall(filePath));
      outcome := oracle;
    }

    /** Suspend the routine; the suspension is recorded with its length. */
    method SleepFor(seconds: real)
      requires seconds > 0.0
      modifies log
      ensures log.events == old(log.events) + [Sleep(seconds)]
    {
      log.Record(Sleep(seconds));
    }

    /** The first guarded block of the execution routine: the engine writes the audio
        file and, if it returns normally, GENERATED_AUDIO is published. */
    method GenerateAudio(goal: GoalHandle, feedback: FeedbackMsg, args: SynthArgs, wavPath: string,
                         oracle: CallOutcome) returns (outcome: CallOutcome)
      requires goal.log == log
      modifies log, feedback
      ensures outcome == oracle
      ensures log.events == old(log.events) + GenerationEvents(args, wavPath, oracle)
      ensures feedback.stage == if oracle.Completed? then GeneratedAudio else old(feedback.stage)
    {
      outcome := SynthesizeToFile(args, wavPath, oracle);
      if outcome.Completed? {
        feedback.stage := GeneratedAudio;
        goal.PublishFeedback(feedback);
      }
    }

    /** The second guarded block: speaking=true, the player, and if it returns normally
        speaking=false and AUDIO_PLAYED. A raising player skips both. */
    method PlayAudio(goal: GoalHandle, feedback: FeedbackMsg, wavPath: string, oracle: CallOutcome)
      returns (outcome: CallOutcome)
      requires goal.log == log
      modifies log, feedback
      ensures outcome == oracle
      ensures log.events == old(log.events) + PlaybackEvents(wavPath, oracle)
      ensures feedback.stage == if oracle.Completed? then AudioPlayed else old(feedback.stage)
    {
      PublishSpeaking(true);
      outcome := Play(wavPath, oracle);
      if outcome.Completed? {
        PublishSpeaking(false);
        feedback.stage := AudioPlayed;
        goal.PublishFeedback(feedback);
      }
    }

    /** The execution routine. Its events are appended to the log in the order the
        routine performs them, and they are exactly `Trace` of the request and the
        oracle answers; the goal ends SUCCEEDED or ABORTED whether or not a cancel was
        accepted before, since the routine never looks at cancellation. */
    method ExecuteCallback(goal: GoalHandle, env: Environment) returns (result: Option<ActionResult>)
      requires goal.log == log
      requires Active(goal.status)
      modifies log, goal
      ensures log.events == old(log.events) + Trace(goal.request, env)
      ensures result == Outcome(goal.request, env)
      ensures goal.status == if result.Some? && result.value.success then Succeeded else Aborted
    {
      var feedback := new FeedbackMsg(Started);
      goal.PublishFeedback(feedback);

      var request := goal.request;
      if request.text == "" {
        goal.Abort();
        return None;
      }

      var args := Resolve(request);
      var waitBeforeSpeaking := request.waitBeforeSpeaking;
      var wavPath := env.wavPath;

      var synthesis := GenerateAudio(goal, feedback, args, wavPath, env.synthesis);
      if synthesis.Raised? {
        goal.Abort();
        return Some(ActionResult(false, SynthesisFailureMessage(synthesis.message)));
      }

      var remaining := waitBeforeSpeaking - env.generationTime;
      if remaining > 0.0 {
        SleepFor(remaining);
      }
      feedback.stage := WaitDone;
      goal.PublishFeedback(feedback);
      var playback := PlayAudio(goal, feedback, wavPath, env.playback);
      if playback.Raised? {
        goal.Abort();
        return Some(ActionResult(false, PlaybackFailureMessage(playback.message)));
      }
      goal.Succeed();
      return Some(ActionResult(true, SUCCESS_MESSAGE));
    }
  }

  /** Node startup: the device parameter is checked before anything else is set up,
      and a refused device stops the node from starting at all. */
  method Launch(model: string, deviceName: string, cudaAvailable: bool)
    returns (r: Result<Node, ConfigError>)
    ensures r.Failure? <==> CheckDevice(deviceName, cudaAvailable).Failure?
    ensures r.Failure? ==> r.error == CheckDevice(deviceName, cudaAvailable).error
    ensures r.Success? ==> && fresh(r.value) && fresh(r.value.log) && r.value.log.events == []
                           && r.value.model == model && DeviceName(r.value.device) == deviceName
  {
    var checked := CheckDevice(deviceName, cudaAvailable);
    if checked.Failure? {
      return Failure(checked.error);
    }
    var log := new EventLog();
    var node := new Node(model, checked.value, log);
    return Success(node);
  }

  /** A cancel request accepted once the goal is EXECUTING, before the routine publishes
      STARTED, does not change what the goal does: its events and its result are those
      of an execution without the request. */
  method CancelThenExecute(node: Node, goal: GoalHandle, env: Environment)
    returns (result: Option<ActionResult>)
    requires goal.log == node.log && goal.status == Executing
    modifies node.log, goal
    ensures goal.status == if result.Some? && result.value.success then Succeeded else Aborted
    ensures node.log.events == old(node.log.events) + Trace(goal.request, env)
    ensures result == Outcome(goal.request, env)
  {
    if node.CancelCallback(goal) == AcceptCancel {
      goal.MarkCanceling();
    }
    result := node.ExecuteCallback(goal, env);
  }
}
