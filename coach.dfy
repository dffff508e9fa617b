/**
 * The coach component as an object: its state variables are fields, the
 * browser's pending step timeouts are a map from handle to timeout, and each
 * handler is a method whose effect is the matching function of `Sequencer`.
 */
module Coach {
  import opened Wrappers
  import opened Sessions
  import opened Conversation
  import opened Intents
  import Sequencer

  class EchoBloomCoach {
    /** Whether the platform offers speech synthesis; fixed for the component's life. */
    const speechSupported: bool
    var currentSession: Option<Session>
    var input: string
    var conversationHistory: seq<Turn>
    var currentStep: nat
    var sessionProgress: real
    var isPlaying: bool
    var breathingActive: bool
    /** The `stepInterval` ref: the handle of the newest step timeout. */
    var stepInterval: Option<nat>
    /** The step timeouts still due, by handle. */
    var timers: map<nat, Sequencer.Timeout>
    /** The handle the next `setTimeout` returns. */
    var nextHandle: nat
    /** Every request made of the speech synthesizer, oldest first. */
    ghost var speech: seq<Sequencer.SpeechEvent>

    ghost function State(): Sequencer.CoachState
      reads this
    {
      Sequencer.CoachState(currentSession, input, conversationHistory, currentStep, sessionProgress,
                           isPlaying, breathingActive, stepInterval, timers, nextHandle, speech)
    }

    ghost predicate Valid()
      reads this
    {
      Sequencer.WellFormed(State())
    }

    constructor(supported: bool)
      ensures Valid() && State() == Sequencer.Initial() && speechSupported == supported
    {
      speechSupported := supported;
      currentSession := None;
      input := "";
      conversationHistory := [];
      currentStep := 0;
      sessionProgress := 0.0;
      isPlaying := false;
      breathingActive := false;
      stepInterval := None;
      timers := map[];
      nextHandle := 1;
      speech := [];
    }

    /** `playStep(stepIndex)` of the chain playing `script`. */
    method PlayStep(script: seq<string>, stepIndex: nat)
      modifies this
      ensures State() == Sequencer.PlayStep(old(State()), script, stepIndex)
    {
      if stepIndex >= |script| {
        isPlaying := false;
        sessionProgress := 100.0;
        return;
      }
      var instruction := script[stepIndex];
      speech := speech + [Sequencer.Speak(instruction)];
      currentStep := stepIndex;
      sessionProgress := Sequencer.Percent(stepIndex, |script|);
      var handle := nextHandle;
      nextHandle := nextHandle + 1;
      timers := timers[handle := Sequencer.Timeout(script, stepIndex + 1, Sequencer.Delay(instruction))];
      stepInterval := Some(handle);
    }

    /** `startAudioSession(session)`. */
    method StartAudioSession(session: Session)
      requires Valid()
      modifies this
      ensures Valid()
      ensures State() == Sequencer.Play(old(State()), session.instructions, speechSupported)
    {
      Sequencer.StepsKeepWellFormed(State(), session.instructions, speechSupported);
      if !speechSupported {
        return;
      }
      isPlaying := true;
      currentStep := 0;
      PlayStep(session.instructions, 0);
    }

    /** The step timeout with handle `id` elapses. */
    method StepTimeoutElapses(id: nat)
      requires Valid() && id in timers
      modifies this
      ensures Valid()
      ensures State() == Sequencer.Fire(old(State()), id)
    {
      Sequencer.StepsKeepWellFormed(State(), [], false);
      var pending := timers[id];
      timers := timers - {id};
      PlayStep(pending.script, pending.next);
    }

    /** `stopSession`. */
    method StopSession()
      requires Valid()
      modifies this
      ensures Valid()
      ensures State() == Sequencer.Stop(old(State()))
    {
      Sequencer.StepsKeepWellFormed(State(), [], false);
      isPlaying := false;
      breathingActive := false;
      speech := speech + [Sequencer.CancelSpeech];
      if stepInterval.Some? {
        timers := timers - {stepInterval.value};
      }
    }

    /** The Restart button. */
    method Restart()
      requires Valid()
      modifies this
      ensures Valid()
      ensures State() == Sequencer.Restart(old(State()))
    {
      currentStep := 0;
      sessionProgress := 0.0;
    }

    /** `generateSession(kind)`, the generator answering `reply` (`None`: the call threw). */
    method GenerateSession(kind: Kind, reply: Option<string>)
      requires Valid()
      modifies this
      ensures Valid()
      ensures State() == Sequencer.Generate(old(State()), kind, reply, speechSupported)
    {
      if kind == Breathing {
        breathingActive := true;
      }
      if reply.None? {
        return;
      }
      var text := reply.value;
      var session := Session(kind, text, ScriptFor(kind, text));
      currentSession := Some(session);
      currentStep := 0;
      sessionProgress := 0.0;
      StartAudioSession(session);
    }

    /**
     * `generateConversationalResponse(userInput)`: the prompt context is built
     * from the log first and returned; a reply then extends the log and is spoken.
     */
    method GenerateConversationalResponse(userInput: string, reply: Option<string>) returns (context: string)
      requires Valid()
      modifies this
      ensures Valid()
      ensures context == Context(old(conversationHistory))
      ensures State() == Sequencer.Converse(old(State()), userInput, reply, speechSupported)
    {
      context := Context(conversationHistory);
      if reply.None? {
        return;
      }
      var text := reply.value;
      var newHistory := conversationHistory + [Turn(User, userInput), Turn(Coach, text)];
      conversationHistory := Last(newHistory, HistoryLimit);
      if speechSupported {
        speech := speech + [Sequencer.Speak(text)];
      }
    }

    /** `handleVoiceInput(transcript)`; `reply` answers the generation it requests, if any. */
    method HandleVoiceInput(transcript: string, reply: Option<string>)
      requires Valid()
      modifies this
      ensures Valid()
      ensures State() == Sequencer.Dispatch(old(State()), transcript, reply, speechSupported)
    {
      match Route(transcript)
      case StartSession(kind) =>
        GenerateSession(kind, reply);
      case StopCommand =>
        StopSession();
      case Chat(_, ask) =>
        input := transcript;
        if ask {
          var _ := GenerateConversationalResponse(transcript, reply);
        }
    }
  }

  /**
   * A client of the component: a mindfulness session plays, a second session
   * is started over it (as a voice command does), and the user stops. The
   * first session's timeout is still due, and when it elapses the step moves
   * to 1 although nothing is playing.
   */
  method StopAfterSecondStart() returns (stepAfterStop: nat, playing: bool)
    ensures stepAfterStop == 1 && !playing
  {
    var coach := new EchoBloomCoach(true);
    coach.StartAudioSession(Session(Mindfulness, "", MindfulnessScript));
    coach.StartAudioSession(Session(Affirmation, "I am calm.", ["I am calm."]));
    coach.StopSession();
    assert 1 in coach.timers;
    coach.StepTimeoutElapses(1);
    stepAfterStop := coach.currentStep;
    playing := coach.isPlaying;
  }
}
