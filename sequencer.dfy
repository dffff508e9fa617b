/**
 * The step sequencer of the coach component (`startAudioSession` with its
 * self-rescheduling `playStep`, `stopSession`, the Restart button) and the
 * handlers that drive it (`generateSession`, `generateConversationalResponse`,
 * `handleVoiceInput`), as functions from one component state to the next.
 *
 * Timeouts are explicit: `timers` holds every `setTimeout` that is still
 * due, and `stepInterval` is the ref that remembers the newest handle.
 * A timeout elapsing is the step `Fire`; the generation service's outcome
 * is a parameter (`None` when the call throws).
 */
module Sequencer {
  import opened Wrappers
  import opened Sessions
  import opened Conversation
  import opened Intents

  /** A pending timeout of the step chain: when it elapses it plays step `next` of `script`. */
  datatype Timeout = Timeout(script: seq<string>, next: nat, delay: nat)

  /** A request to the speech synthesizer. */
  datatype SpeechEvent = Speak(text: string) | CancelSpeech

  /** The component's state, the timeouts still due, and what was asked of the speech output. */
  datatype CoachState = CoachState(
    session: Option<Session>,
    input: string,
    history: seq<Turn>,
    currentStep: nat,
    progress: real,
    isPlaying: bool,
    breathingActive: bool,
    stepInterval: Option<nat>,
    timers: map<nat, Timeout>,
    nextId: nat,
    speech: seq<SpeechEvent>)

  /** The state on first render: no session, nothing playing, nothing scheduled. */
  function Initial(): CoachState
  {
    CoachState(None, "", [], 0, 0.0, false, false, None, map[], 1, [])
  }

  /** The wait before the next step: an estimate of 80 ms per character, plus a 2 s pause. */
  function Delay(text: string): nat
  {
    |text| * 80 + 2000
  }

  lemma DelayGrowsWithLength(a: string, b: string)
    requires |a| <= |b|
    ensures 2000 <= Delay(a) <= Delay(b)
    ensures |a| < |b| ==> Delay(a) < Delay(b)
  {
  }

  /** `(i / len) * 100`, exactly. */
  function Percent(i: nat, len: nat): real
    requires len > 0
  {
    100.0 * (i as real) / (len as real)
  }

  lemma PercentBounds(i: nat, len: nat)
    requires i < len
    ensures 0.0 <= Percent(i, len) < 100.0
  {
    assert (i as real) / (len as real) < 1.0;
  }

  lemma PercentMonotone(i: nat, j: nat, len: nat)
    requires i <= j && len > 0
    ensures Percent(i, len) <= Percent(j, len)
  {
    assert (i as real) / (len as real) <= (j as real) / (len as real);
  }

  /**
   * `playStep(i)`: past the end, playback is over (not playing, progress 100);
   * otherwise the instruction is spoken, step and progress are set, and the
   * next step is scheduled, its handle overwriting the ref.
   */
  function PlayStep(s: CoachState, script: seq<string>, i: nat): CoachState
  {
    if i >= |script| then
      s.(isPlaying := false, progress := 100.0)
    else
      s.(speech := s.speech + [Speak(script[i])],
         currentStep := i,
         progress := Percent(i, |script|),
         stepInterval := Some(s.nextId),
         timers := s.timers[s.nextId := Timeout(script, i + 1, Delay(script[i]))],
         nextId := s.nextId + 1)
  }

  /**
   * `startAudioSession`: nothing at all without speech support; otherwise
   * playing from step 0. Any timeout already due is left running.
   */
  function Play(s: CoachState, script: seq<string>, supported: bool): CoachState
  {
    if !supported then s
    else PlayStep(s.(isPlaying := true, currentStep := 0), script, 0)
  }

  /** The timeout `id` elapses and plays the step it was scheduled for. */
  function Fire(s: CoachState, id: nat): CoachState
    requires id in s.timers
  {
    var t := s.timers[id];
    PlayStep(s.(timers := s.timers - {id}), t.script, t.next)
  }

  /** `stopSession`: stop playing and breathing, cancel speech, clear the timeout the ref holds. */
  function Stop(s: CoachState): CoachState
  {
    s.(isPlaying := false,
       breathingActive := false,
       speech := s.speech + [CancelSpeech],
       timers := if s.stepInterval.Some? then s.timers - {s.stepInterval.value} else s.timers)
  }

  /** The Restart button: step and progress back to 0, nothing else. */
  function Restart(s: CoachState): CoachState
  {
    s.(currentStep := 0, progress := 0.0)
  }

  /**
   * `generateSession(kind)` with the generator's outcome `reply`: a breathing
   * request turns the breathing visual on before generating; a reply makes
   * the new session current, resets step and progress and starts playing it;
   * a failed call changes nothing more.
   */
  function Generate(s: CoachState, kind: Kind, reply: Option<string>, supported: bool): CoachState
  {
    var armed := if kind == Breathing then s.(breathingActive := true) else s;
    match reply
    case None => armed
    case Some(text) =>
      var session := NewSession(kind, text);
      Play(armed.(session := Some(session), currentStep := 0, progress := 0.0), session.instructions, supported)
  }

  /** `generateConversationalResponse(userInput)` with the generator's outcome `reply`. */
  function Converse(s: CoachState, userInput: string, reply: Option<string>, supported: bool): CoachState
  {
    match reply
    case None => s
    case Some(text) =>
      s.(history := Respond(s.history, userInput, reply),
         speech := if supported then s.speech + [Speak(text)] else s.speech)
  }

  /** `handleVoiceInput(transcript)`; `reply` is the outcome of whichever generation it requests. */
  function Dispatch(s: CoachState, transcript: string, reply: Option<string>, supported: bool): CoachState
  {
    match Route(transcript)
    case StartSession(kind) => Generate(s, kind, reply, supported)
    case StopCommand => Stop(s)
    case Chat(_, ask) =>
      var typed := s.(input := transcript);
      if ask then Converse(typed, transcript, reply, supported) else typed
  }

  // ---------------------------------------------------------------------------
  // Invariants

  /**
   * Handles are fresh (below `nextId`), progress is a percentage, and every
   * pending timeout plays a step of its script or the end of it.
   */
  ghost predicate WellFormed(s: CoachState)
  {
    && (forall id :: id in s.timers ==> id < s.nextId && s.timers[id].next <= |s.timers[id].script|)
    && (s.stepInterval.Some? ==> s.stepInterval.value < s.nextId)
    && 0.0 <= s.progress <= 100.0
  }

  /**
   * At most one step chain is alive: the only pending timeout is the one the
   * ref holds, and a pending timeout means the session is playing. With this,
   * `stopSession` really stops playback.
   */
  ghost predicate Solo(s: CoachState)
  {
    && WellFormed(s)
    && (forall id :: id in s.timers ==> s.stepInterval == Some(id))
    && (s.timers != map[] ==> s.isPlaying)
  }

  lemma PlayStepWellFormed(s: CoachState, script: seq<string>, i: nat)
    requires WellFormed(s) && i <= |script|
    ensures WellFormed(PlayStep(s, script, i))
  {
    if i < |script| {
      PercentBounds(i, |script|);
    }
  }

  /** Every step keeps handles fresh, progress within 0..100 and timeouts within their scripts. */
  lemma StepsKeepWellFormed(s: CoachState, script: seq<string>, supported: bool)
    requires WellFormed(s)
    ensures WellFormed(Play(s, script, supported))
    ensures WellFormed(Stop(s)) && WellFormed(Restart(s))
    ensures forall id :: id in s.timers ==> WellFormed(Fire(s, id))
  {
    if supported {
      PlayStepWellFormed(s.(isPlaying := true, currentStep := 0), script, 0);
    }
    forall id | id in s.timers ensures WellFormed(Fire(s, id)) {
      PlayStepWellFormed(s.(timers := s.timers - {id}), s.timers[id].script, s.timers[id].next);
    }
  }

  /**
   * A step is only ever set to an index inside the script being played: a
   * timeout that sets `currentStep` sets it below its script's length.
   */
  lemma FireSetsStepInsideScript(s: CoachState, id: nat)
    requires id in s.timers
    ensures var r := Fire(s, id);
      r.currentStep == s.currentStep || r.currentStep < |s.timers[id].script|
    ensures Fire(s, id).isPlaying != s.isPlaying ==> !Fire(s, id).isPlaying && Fire(s, id).progress == 100.0
  {
  }

  /** The single-chain discipline survives every operation except starting while playing. */
  lemma SoloPreserved(s: CoachState, script: seq<string>, supported: bool, userInput: string, reply: Option<string>)
    requires Solo(s)
    ensures Solo(Stop(s)) && Solo(Restart(s))
    ensures forall id :: id in s.timers ==> Solo(Fire(s, id))
    ensures !s.isPlaying ==> Solo(Play(s, script, supported))
    ensures Solo(Converse(s, userInput, reply, supported))
  {
    StepsKeepWellFormed(s, script, supported);
    if supported && !s.isPlaying {
      PlayStepWellFormed(s.(isPlaying := true, currentStep := 0), script, 0);
      assert s.timers == map[];
    }
    forall id | id in s.timers ensures Solo(Fire(s, id)) {
      assert s.timers.Keys == {id};
      assert s.timers - {id} == map[];
    }
    if s.stepInterval.Some? {
      assert s.timers.Keys <= {s.stepInterval.value};
      assert Stop(s).timers == map[];
    } else {
      assert s.timers == map[];
    }
  }

  // ---------------------------------------------------------------------------
  // One playback

  /** The speech requests for a list of instructions, in order. */
  function Spoken(lines: seq<string>): seq<SpeechEvent>
  {
    seq(|lines|, i requires 0 <= i < |lines| => Speak(lines[i]))
  }

  /** The newest pending timeout elapses, if there is one. */
  function Advance(s: CoachState): CoachState
  {
    if s.stepInterval.Some? && s.stepInterval.value in s.timers then Fire(s, s.stepInterval.value) else s
  }

  /** `n` scheduled advances. */
  function Run(s: CoachState, n: nat): CoachState
  {
    if n == 0 then s else Advance(Run(s, n - 1))
  }

  /** The state while step `k` of `script` plays, for a playback started from `s`. */
  function Playing(s: CoachState, script: seq<string>, k: nat): CoachState
    requires k < |script|
  {
    s.(isPlaying := true,
       currentStep := k,
       progress := Percent(k, |script|),
       stepInterval := Some(s.nextId + k),
       timers := map[s.nextId + k := Timeout(script, k + 1, Delay(script[k]))],
       nextId := s.nextId + k + 1,
       speech := s.speech + Spoken(script[..k + 1]))
  }

  /** The state a playback started from `s` ends in. */
  function Finished(s: CoachState, script: seq<string>): CoachState
    requires |script| > 0
  {
    Playing(s, script, |script| - 1).(isPlaying := false, progress := 100.0, timers := map[])
  }

  lemma SpokenSnoc(lines: seq<string>, k: nat)
    requires k < |lines|
    ensures Spoken(lines[..k + 1]) == Spoken(lines[..k]) + [Speak(lines[k])]
  {
  }

  /**
   * Started with nothing pending, `k` advances after `startAudioSession`
   * (k below the script's length) leave step `k` playing: its instruction and
   * all earlier ones spoken in order, progress `100*k/len`, and exactly one
   * timeout due, for step `k + 1`.
   */
  lemma {:induction false} PlaybackAt(s: CoachState, script: seq<string>, k: nat)
    requires s.timers == map[] && |script| > 0 && k < |script|
    ensures Run(Play(s, script, true), k) == Playing(s, script, k)
  {
    if k == 0 {
      assert script[..1] == [script[0]];
    } else {
      PlaybackAt(s, script, k - 1);
      var prev := Playing(s, script, k - 1);
      var h := s.nextId + k - 1;
      assert prev.timers - {h} == map[];
      SpokenSnoc(script, k);
      assert script[..k + 1][..k] == script[..k];
    }
  }

  /**
   * A script of length `len` is played by exactly `len` scheduled advances:
   * the last one ends playback with progress 100, the step left at `len - 1`
   * and nothing scheduled, so further time changes nothing.
   */
  lemma {:induction false} PlaybackEnds(s: CoachState, script: seq<string>, extra: nat)
    requires s.timers == map[] && |script| > 0
    ensures Run(Play(s, script, true), |script| + extra) == Finished(s, script)
    ensures Finished(s, script).currentStep == |script| - 1
    ensures !Finished(s, script).isPlaying && Finished(s, script).progress == 100.0
    ensures Finished(s, script).speech == s.speech + Spoken(script)
  {
    if extra == 0 {
      PlaybackAt(s, script, |script| - 1);
      var h := s.nextId + |script| - 1;
      assert Playing(s, script, |script| - 1).timers - {h} == map[];
      assert script[..|script|] == script;
    } else {
      PlaybackEnds(s, script, extra - 1);
    }
  }

  /** The state after `n` advances of a playback started from `s`. */
  function PlaybackState(s: CoachState, script: seq<string>, n: nat): CoachState
    requires |script| > 0
  {
    if n < |script| then Playing(s, script, n) else Finished(s, script)
  }

  lemma PlaybackIs(s: CoachState, script: seq<string>, n: nat)
    requires s.timers == map[] && |script| > 0
    ensures Run(Play(s, script, true), n) == PlaybackState(s, script, n)
  {
    if n < |script| {
      PlaybackAt(s, script, n);
    } else {
      PlaybackEnds(s, script, n - |script|);
    }
  }

  /** Over one uninterrupted playback, step and progress never go back. */
  lemma PlaybackMonotone(s: CoachState, script: seq<string>, j: nat, k: nat)
    requires s.timers == map[] && |script| > 0 && j <= k
    ensures Run(Play(s, script, true), j).currentStep <= Run(Play(s, script, true), k).currentStep
    ensures Run(Play(s, script, true), j).progress <= Run(Play(s, script, true), k).progress
  {
    PlaybackIs(s, script, j);
    PlaybackIs(s, script, k);
    var len := |script|;
    if j < len {
      if k < len {
        PercentMonotone(j, k, len);
      } else {
        PercentBounds(j, len);
      }
    }
  }

  // ---------------------------------------------------------------------------
  // Stop and Restart

  /** Stopping twice is stopping once, except that speech is cancelled a second time. */
  lemma StopTwice(s: CoachState)
    ensures Stop(Stop(s)) == Stop(s).(speech := Stop(s).speech + [CancelSpeech])
  {
    if s.stepInterval.Some? {
      var h := s.stepInterval.value;
      assert (s.timers - {h}) - {h} == s.timers - {h};
    }
  }

  /**
   * Under the single-chain discipline, stopping leaves nothing scheduled, so
   * no amount of further time moves the step or the progress.
   */
  lemma {:induction false} StopIsFinal(s: CoachState, n: nat)
    requires Solo(s)
    ensures Stop(s).timers == map[] && Solo(Stop(s))
    ensures Run(Stop(s), n) == Stop(s)
    ensures Stop(s).currentStep == s.currentStep && Stop(s).progress == s.progress
  {
    SoloPreserved(s, [], false, "", None);
    if n > 0 {
      StopIsFinal(s, n - 1);
    }
  }

  /**
   * Restart neither stops nor starts playback, and while a step is still to
   * come the next advance overwrites what Restart set.
   */
  lemma RestartOverriddenByNextStep(s: CoachState, id: nat)
    requires id in s.timers && s.timers[id].next < |s.timers[id].script|
    ensures Restart(s).isPlaying == s.isPlaying && Restart(s).timers == s.timers
    ensures Restart(s).stepInterval == s.stepInterval && Restart(s).session == s.session
    ensures Fire(Restart(s), id) == Fire(s, id)
  {
  }

  // ---------------------------------------------------------------------------
  // Generating a session, conversation, voice input

  /**
   * A generated session starts at step 0 with progress 0 and, with speech
   * support, plays its first instruction and schedules its second step
   * beside whatever was already scheduled; breathing turns the visual on
   * even when the generation fails.
   */
  lemma GenerateStartsSession(s: CoachState, kind: Kind, reply: Option<string>, supported: bool)
    ensures reply.None? ==> Generate(s, kind, reply, supported)
                            == s.(breathingActive := s.breathingActive || kind == Breathing)
    ensures reply.Some? ==>
      var session := NewSession(kind, reply.value);
      var r := Generate(s, kind, reply, supported);
      && r.session == Some(session)
      && r.breathingActive == (s.breathingActive || kind == Breathing)
      && r.currentStep == 0
      && r.progress == 0.0
      && r.input == s.input && r.history == s.history
      && (supported ==>
            && r.isPlaying
            && r.speech == s.speech + [Speak(session.instructions[0])]
            && r.stepInterval == Some(s.nextId)
            && r.nextId == s.nextId + 1
            && r.timers == s.timers[s.nextId := Timeout(session.instructions, 1, Delay(session.instructions[0]))])
      && (!supported ==>
            && r.isPlaying == s.isPlaying && r.speech == s.speech
            && r.stepInterval == s.stepInterval && r.nextId == s.nextId
            && r.timers == s.timers)
  {
  }

  /**
   * A transcript that matches no command always becomes the input; a blank
   * one requests no reply, so the generator's outcome cannot matter.
   */
  lemma ChatSetsInput(s: CoachState, transcript: string, reply: Option<string>, supported: bool)
    requires Route(transcript).Chat?
    ensures Dispatch(s, transcript, reply, supported).input == transcript
    ensures Strings.IsBlank(transcript) ==>
      Dispatch(s, transcript, reply, supported) == s.(input := transcript)
  {
    if Strings.IsBlank(transcript) {
      BlankTranscriptAsksNothing(transcript);
    }
  }

  /** A stop word stops the session, and a failed conversational reply leaves the log as it was. */
  lemma DispatchStopAndFailure(s: CoachState, transcript: string, supported: bool)
    ensures Route(transcript) == StopCommand ==> Dispatch(s, transcript, None, supported) == Stop(s)
    ensures Route(transcript).Chat? ==> Dispatch(s, transcript, None, supported).history == s.history
  {
  }

  // ---------------------------------------------------------------------------
  // Starting while a chain is pending

  /**
   * As written, `startAudioSession` does not clear the pending timeout; it
   * only overwrites the ref. Starting a second session while the first is
   * still playing (a voice command reaches `generateSession` while playing)
   * leaves two chains, and `stopSession` then clears only the newer one: the
   * older chain's timeout is still due and, when it elapses, moves the step
   * and speaks again after the user stopped.
   */
  lemma SecondPlayOutlivesStop(s: CoachState, first: seq<string>, second: seq<string>)
    requires Solo(s) && !s.isPlaying && |first| >= 2 && |second| >= 1
    ensures var running := Play(s, first, true);
      var both := Play(running, second, true);
      var stopped := Stop(both);
      && Solo(running) && !Solo(both)
      && !stopped.isPlaying
      && s.nextId in stopped.timers
      && Fire(stopped, s.nextId).currentStep == 1
      && Fire(stopped, s.nextId).speech == stopped.speech + [Speak(first[1])]
  {
    assert s.timers == map[];
    SoloPreserved(s, first, true, "", None);
    var running := Play(s, first, true);
    PlaybackAt(s, first, 0);
    var both := Play(running, second, true);
    assert s.nextId in both.timers && s.nextId + 1 in both.timers;
  }

  /** The same through the voice path: a session keyword heard while playing forks the chain. */
  lemma VoiceCommandWhilePlayingForks(s: CoachState, transcript: string, text: string)
    requires Solo(s) && s.isPlaying && s.timers != map[]
    requires Route(transcript).StartSession?
    ensures !Solo(Dispatch(s, transcript, Some(text), true))
  {
    var kind := Route(transcript).kind;
    var id :| id in s.timers;
    var r := Dispatch(s, transcript, Some(text), true);
    assert id < s.nextId;
    assert id in r.timers && s.nextId in r.timers;
  }

  /** The pending timeout the ref holds, cleared. */
  function CancelPending(s: CoachState): CoachState
  {
    s.(timers := if s.stepInterval.Some? then s.timers - {s.stepInterval.value} else s.timers)
  }

  /** Starting that first clears the pending timeout, as the start of a new playback should. */
  function PlayExclusive(s: CoachState, script: seq<string>, supported: bool): CoachState
  {
    Play(CancelPending(s), script, supported)
  }

  /**
   * Clearing first keeps a single chain whether or not a session is playing,
   * so a later stop leaves nothing scheduled.
   */
  lemma PlayExclusiveKeepsSolo(s: CoachState, script: seq<string>, supported: bool)
    requires Solo(s)
    ensures Solo(PlayExclusive(s, script, supported))
    ensures Stop(PlayExclusive(s, script, supported)).timers == map[]
  {
    var c := CancelPending(s);
    if s.stepInterval.Some? {
      assert s.timers.Keys <= {s.stepInterval.value};
      assert c.timers == map[];
    } else {
      assert s.timers == map[];
    }
    assert Solo(c.(isPlaying := false));
    SoloPreserved(c.(isPlaying := false), script, supported, "", None);
    StepsKeepWellFormed(c, script, supported);
    if supported {
      assert PlayExclusive(s, script, supported) == Play(c.(isPlaying := false), script, supported);
    } else {
      assert Solo(c);
    }
    StopIsFinal(PlayExclusive(s, script, supported), 0);
  }
}
