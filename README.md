# EchoBloom coach: session timing, breathing clock and intent routing in Dafny

This project models the parts of the EchoBloom wellness coach that carry
behaviour rather than presentation:

- **Step sequencer** (`startAudioSession`/`playStep`, `stopSession`, the
  Restart button). It walks an ordered list of instructions. Step `i` speaks
  the instruction, sets `currentStep = i` and `sessionProgress = 100*i/len`,
  and schedules step `i+1` after `length*80 + 2000` ms. Index `len` ends
  playback with progress 100. Every pending `setTimeout` is explicit: a map
  from handle to the step it will play, plus the `stepInterval` ref holding
  the newest handle. A timeout elapsing is a step of its own.
- **Session catalog** (the `switch` in `generateSession`). Breathing and
  mindfulness have fixed 10- and 6-line scripts. Affirmation and motivation
  play the generated reply as a one-step script.
- **Intent router** (`handleVoiceInput`). The transcript is lower-cased and
  tested for keyword groups in a fixed order: breathing, affirmation,
  mindfulness, motivation, stop. Anything else is conversation, and a reply
  is requested only when the trimmed transcript is not empty.
- **Conversation log**. A reply appends the user/coach pair and keeps the
  last 10 entries. The prompt context is the last 6 entries, one
  `User: …`/`Coach: …` line each, oldest first.
- **Breathing phase clock** (the visualizer's one-second interval). `count`
  runs 1..16, and the phase is read off it (1-4 inhale, 5-8 hold, 9-14
  exhale, 15-16 pause). `onPhaseChange` fires only when the phase changes.
  The tick that would reach 17 adds a cycle and resets `count` to 0.

Files:

- `wrappers.dfy`: `Option`.
- `strings.dfy`: `toLowerCase` (ASCII), `includes`, and `trim` with the
  ECMAScript white-space set.
- `sessions.dfy`: session kinds and scripts.
- `intents.dfy`: the router and a table-driven reference for it.
- `conversation.dfy`: the log and the prompt context.
- `sequencer.dfy`: the component state as a datatype, each handler as a
  function from state to state, and the playback lemmas.
- `coach.dfy`: the component as a class. Its handlers are methods whose
  effect is the matching `Sequencer` function.
- `phase_clock.dfy`: the breathing tick as a function, and the visualizer as
  a class.

The generator's answer is a parameter: `Some(text)`, or `None` when the call
throws. Speech requests are recorded as events (`Speak`, `CancelSpeech`).

Where the design description and the code disagree, the model follows the
code:

- The breathing cycle is 17 ticks, not 16. After `t` ticks from rest,
  `t / 17` cycles are complete.
- Starting a session while one plays does not cancel the earlier timeout.
- Restart does not stop playback. The next step overwrites what it reset.
- A failed generation produces no fallback text and no session, even for the
  two fixed scripts. A breathing request still turns `breathingActive` on,
  because that happens before the call.
- Deactivating the visualizer keeps `cycle`.
- The conversation log always alternates user/coach, because every
  successful reply appends one pair.

## Model

| member | source | states |
|---|---|---|
| `Strings.ContainsIffOccurs` | src/components/EchoBloomCoach.tsx:239-255 | `includes` holds exactly when the keyword occurs at some offset of the text |
| `Strings.TrimEmptyIff` | src/components/EchoBloomCoach.tsx:262 | `trim()` is empty exactly when every character is ECMAScript white space |
| `Strings.LowerIdempotent` | src/components/EchoBloomCoach.tsx:236 | lower-casing twice is lower-casing once |
| `Sessions.ScriptFor` | src/components/EchoBloomCoach.tsx:109-167 | every session has at least one step: 10 for breathing, 6 for mindfulness, `[text]` for affirmation and motivation |
| `Sessions.FixedScriptIgnoresReply` | src/components/EchoBloomCoach.tsx:112-167 | breathing and mindfulness play their fixed script whatever the generator returned |
| `Sessions.NewSession` | src/components/EchoBloomCoach.tsx:164-169 | the session keeps the kind and generated text; the text is a step only for the generated kinds |
| `Intents.FirstMatchIsEarliest` | src/components/EchoBloomCoach.tsx:238-258 | the table lookup returns the command of the earliest matching group, and nothing when no group matches |
| `Intents.RouteIsFirstMatch` | src/components/EchoBloomCoach.tsx:235-265 | the handler's chain of tests is the priority-ordered table lookup; otherwise conversation, asking only for a non-blank transcript |
| `Intents.RouteIgnoresCase` | src/components/EchoBloomCoach.tsx:236 | transcripts equal up to ASCII case route to the same command |
| `Intents.BreathingWinsOverLaterGroups` | src/components/EchoBloomCoach.tsx:239-242 | any transcript mentioning "breath" starts breathing, whatever else it contains |
| `Intents.BreathingAndMotivationExample` | src/components/EchoBloomCoach.tsx:239-242 | "breathing and motivation" starts breathing |
| `Intents.PositiveExample` | src/components/EchoBloomCoach.tsx:243-246 | "positive" starts an affirmation session |
| `Intents.RouteStopsWithoutSessionWords` | src/components/EchoBloomCoach.tsx:236-258 | a transcript whose lower-cased form has a stop word and no session keyword routes to stop, in any letter case |
| `Intents.ShoutedStopStops` | src/components/EchoBloomCoach.tsx:236-256 | "STOP" is lower-cased first and so routes to stop |
| `Intents.SessionWordsNeedLetters` | src/components/EchoBloomCoach.tsx:239-252 | a transcript without the letters b, a, p, f, m, r holds none of the twelve session keywords |
| `Intents.StopWithoutSessionLetters` | src/components/EchoBloomCoach.tsx:236-256 | a transcript whose lower-cased form lacks b, a, p, f, m, r and has a stop word routes to stop |
| `Intents.WeekendStops` | src/components/EchoBloomCoach.tsx:255-258 | "weekend" is a stop command, because it contains "end" |
| `Intents.BlankTranscriptAsksNothing` | src/components/EchoBloomCoach.tsx:260-264 | white space alone is conversation that requests no reply |
| `Conversation.AppendKeepsNewest` | src/components/EchoBloomCoach.tsx:215-221 | after a reply the log has `min(n+2, 10)` entries, ends with the new pair and keeps the newest old entries in order |
| `Conversation.AppendAlternates` | src/components/EchoBloomCoach.tsx:215-221 | appending to an alternating log of at most 10 keeps it alternating, since eviction drops an even count |
| `Conversation.Respond` | src/components/EchoBloomCoach.tsx:215-230 | a failed call leaves the log unchanged; a success keeps it within 10 entries and alternating |
| `Conversation.ReplayBoundedAlternating` | src/components/EchoBloomCoach.tsx:215-221 | from the empty log, any run of attempts gives at most 10 entries, even in number, user first |
| `Conversation.JoinSnoc` | src/components/EchoBloomCoach.tsx:193 | `join('\n')` of one more line appends a newline and that line |
| `Conversation.ContextIgnoresOlder` | src/components/EchoBloomCoach.tsx:190-193 | only the last six entries reach the prompt |
| `Conversation.ContextGrowsAtEnd` | src/components/EchoBloomCoach.tsx:190-193 | below six entries, a new turn's line comes last (oldest first) |
| `Conversation.ContextOfShortLogs` | src/components/EchoBloomCoach.tsx:190-193 | the empty log gives an empty context; one turn gives its own labelled line |
| `Sequencer.DelayGrowsWithLength` | src/components/EchoBloomCoach.tsx:93-95 | the step delay is at least 2 s and grows with the instruction's length |
| `Sequencer.PercentBounds` | src/components/EchoBloomCoach.tsx:90 | progress for a step inside the script lies in `[0, 100)` |
| `Sequencer.PercentMonotone` | src/components/EchoBloomCoach.tsx:90 | progress does not decrease as the step index grows |
| `Sequencer.PlayStepWellFormed` | src/components/EchoBloomCoach.tsx:75-96 | `playStep` keeps handles fresh, progress within 0..100 and timeouts inside their script |
| `Sequencer.StepsKeepWellFormed` | src/components/EchoBloomCoach.tsx:62-99 | start, stop, Restart and every elapsed timeout keep that well-formedness |
| `Sequencer.FireSetsStepInsideScript` | src/components/EchoBloomCoach.tsx:76-89 | an elapsed timeout sets the step only to an index below its script's length; it ends playback only with progress 100 |
| `Sequencer.SoloPreserved` | src/components/EchoBloomCoach.tsx:62-99 | a single live chain stays single under stop, Restart, elapsed timeouts, conversation, and a start while not playing |
| `Sequencer.PlaybackAt` | src/components/EchoBloomCoach.tsx:75-98 | after `k < len` advances, step `k` plays at progress `100k/len`, steps `0..k` were spoken in order, and one timeout is due |
| `Sequencer.PlaybackEnds` | src/components/EchoBloomCoach.tsx:75-98 | exactly `len` advances end playback: not playing, progress 100, step `len-1`, all steps spoken, nothing further scheduled |
| `Sequencer.PlaybackIs` | src/components/EchoBloomCoach.tsx:75-98 | the state after any number of advances of one playback |
| `Sequencer.PlaybackMonotone` | src/components/EchoBloomCoach.tsx:78-90 | over one uninterrupted playback, step and progress never decrease |
| `Sequencer.StopTwice` | src/components/EchoBloomCoach.tsx:62-67 | stopping twice equals stopping once, apart from a second speech cancel |
| `Sequencer.StopIsFinal` | src/components/EchoBloomCoach.tsx:62-67 | with one chain, stop clears the last timeout; step and progress are kept, and later time changes nothing |
| `Sequencer.RestartOverriddenByNextStep` | src/components/EchoBloomCoach.tsx:514-517 | Restart leaves playing, timeouts, handle and session alone; the next step undoes it |
| `Sequencer.GenerateStartsSession` | src/components/EchoBloomCoach.tsx:101-184 | a reply makes the session current and starts it at step 0 with its first line spoken and its second step scheduled beside every timeout already pending, the ref now holding the new handle; without speech support nothing is scheduled; a failure changes only `breathingActive` for breathing |
| `Sequencer.ChatSetsInput` | src/components/EchoBloomCoach.tsx:260-264 | unmatched input always becomes `input`; blank input changes nothing else whatever the generator would answer |
| `Sequencer.DispatchStopAndFailure` | src/components/EchoBloomCoach.tsx:255-264 | a stop word is `stopSession`; a failed conversational reply leaves the log unchanged |
| `Sequencer.SecondPlayOutlivesStop` | src/components/EchoBloomCoach.tsx:69-98 | as written, a second start while playing forks the chain, and after stop the first chain's timeout still moves the step and speaks |
| `Sequencer.VoiceCommandWhilePlayingForks` | src/components/EchoBloomCoach.tsx:235-254 | a session keyword heard while playing leaves two chains alive |
| `Sequencer.PlayExclusiveKeepsSolo` | src/components/EchoBloomCoach.tsx:69-98 | starting after clearing the pending timeout keeps a single chain, so stop leaves nothing scheduled |
| `Coach.EchoBloomCoach.constructor` | src/components/EchoBloomCoach.tsx:35-48 | the initial component state |
| `Coach.EchoBloomCoach.PlayStep` | src/components/EchoBloomCoach.tsx:75-96 | the imperative `playStep` has the effect of `Sequencer.PlayStep` |
| `Coach.EchoBloomCoach.StartAudioSession` | src/components/EchoBloomCoach.tsx:69-99 | has the effect of `Sequencer.Play` and keeps the state well-formed |
| `Coach.EchoBloomCoach.StepTimeoutElapses` | src/components/EchoBloomCoach.tsx:93-95 | has the effect of `Sequencer.Fire` |
| `Coach.EchoBloomCoach.StopSession` | src/components/EchoBloomCoach.tsx:62-67 | has the effect of `Sequencer.Stop` |
| `Coach.EchoBloomCoach.Restart` | src/components/EchoBloomCoach.tsx:512-517 | has the effect of `Sequencer.Restart` |
| `Coach.EchoBloomCoach.GenerateSession` | src/components/EchoBloomCoach.tsx:101-184 | has the effect of `Sequencer.Generate` |
| `Coach.EchoBloomCoach.GenerateConversationalResponse` | src/components/EchoBloomCoach.tsx:186-233 | returns the last-six context and has the effect of `Sequencer.Converse` |
| `Coach.EchoBloomCoach.HandleVoiceInput` | src/components/EchoBloomCoach.tsx:235-265 | has the effect of `Sequencer.Dispatch` |
| `Coach.StopAfterSecondStart` | src/components/EchoBloomCoach.tsx:62-98 | a concrete run: two starts, a stop, then the first chain's timeout elapses and moves the step to 1 while nothing plays |
| `PhaseClock.Deactivate` | src/components/BreathingVisualizer.tsx:14-19 | deactivation gives pause, count 0, the same cycle |
| `PhaseClock.PhaseBands` | src/components/BreathingVisualizer.tsx:25-49 | counts 1-4 inhale, 5-8 hold, 9-14 exhale, 15-16 pause; the totals 4/4/6/2 sum to 16 |
| `PhaseClock.StepConsistent` | src/components/BreathingVisualizer.tsx:21-56 | every tick keeps `count` in 0..16 and the phase in step with it |
| `PhaseClock.StepNotifiesOnChange` | src/components/BreathingVisualizer.tsx:26-49 | `onPhaseChange` fires exactly when the phase changes, with the new phase |
| `PhaseClock.CycleOnlyOnWrap` | src/components/BreathingVisualizer.tsx:50-53 | only the tick from 16 changes `cycle`: +1, count 0, phase kept, no notification |
| `PhaseClock.FirstStepFromRest` | src/components/BreathingVisualizer.tsx:26-31 | the first tick from pause/0 enters inhale and notifies it once |
| `PhaseClock.PhaseCountInRange` | src/components/BreathingVisualizer.tsx:89-105 | for count 1..16 the phase count lies in `1..total`; at count 0 it is -14 |
| `PhaseClock.RunWithinCycle` | src/components/BreathingVisualizer.tsx:21-57 | `n <= 16` ticks from rest reach count `n` and report each phase entered once, in order |
| `PhaseClock.FullCycle` | src/components/BreathingVisualizer.tsx:21-57 | 17 ticks from rest return to rest with one more cycle, notifying inhale, hold, exhale, pause |
| `PhaseClock.RunFromRest` | src/components/BreathingVisualizer.tsx:21-57 | after `t` ticks from rest the count is `t % 17` and `t / 17` cycles are complete |
| `PhaseClock.ResetSecondCountsNegative` | src/components/BreathingVisualizer.tsx:50-53 | as written, the tick after 16 shows pause with phase count -14 |
| `PhaseClock.IntendedCycle` | src/components/BreathingVisualizer.tsx:25-53 | with the intended wrap to count 1, a cycle is 16 ticks and the phase count stays in `1..total` |
| `PhaseClock.BreathingVisualizer.constructor` | src/components/BreathingVisualizer.tsx:10-12 | starts at pause, count 0, cycle 0, no notifications |
| `PhaseClock.BreathingVisualizer.SetActive` | src/components/BreathingVisualizer.tsx:14-19 | turning inactive resets phase and count; cycles and notifications are kept |
| `PhaseClock.BreathingVisualizer.Tick` | src/components/BreathingVisualizer.tsx:21-57 | while active, a tick has the effect of `PhaseClock.Step` and logs its notification; while inactive nothing changes |

## Findings

| source | as written | input that shows it | evidently intended | confidence | as-written member | corrected member |
|---|---|---|---|---|---|---|
| src/components/EchoBloomCoach.tsx:69-98 | `startAudioSession` overwrites the `stepInterval` ref without clearing the timeout already due | a session with two or more steps is playing; a voice command starts a second session; the user presses Stop | starting a session clears the pending step timeout, so Stop ends all playback | not executed; high | `Sequencer.SecondPlayOutlivesStop` | `Sequencer.PlayExclusiveKeepsSolo` |
| src/components/BreathingVisualizer.tsx:50-53 | the tick after count 16 sets count to 0 and leaves the phase at pause, so a cycle lasts 17 s and the phase count shows -14 | 17 ticks from rest | a 16 s 4-4-6-2 cycle whose next tick is inhale at count 1 | not executed; medium | `PhaseClock.ResetSecondCountsNegative` | `PhaseClock.IntendedCycle` |

The corrected definitions are `Sequencer.PlayExclusive` and
`PhaseClock.StepIntended`. The component classes (`Coach.EchoBloomCoach`,
`PhaseClock.BreathingVisualizer`) keep the behaviour of the code as written.

## Left out

- Rendering is not modelled: JSX, tabs (`setActiveTab`), icons, colours and
  circle scales (`getSessionIcon`, `getSessionColor`, `getCircleScale`,
  `getCircleColor`, `getPhaseText`). It is presentation only.
- The text-generation service is a parameter. Its prompt wording, model name,
  token limits and the unused `duration` field are not modelled.
- Speech synthesis and recognition (`speak`, `cancel`, `listen`,
  `toggleListening`, `getCoachVoice`) are browser services. `speak` and
  `cancel` are recorded as events; listening, voice choice and the speaking
  rate are not modelled.
- Wall-clock time is not modelled. Each timeout or interval firing is an
  explicit step, and the delay is recorded but never waited on.
- React state batching and effect re-subscription are not modelled. This
  includes the interval being recreated on every phase change and `setPhase`
  running inside the `setCount` updater.
- Asynchrony is not modelled. Each handler runs atomically, so no timeout
  fires during the wait for the generator.
- The `isLoading` flag is not modelled. It is set and reset within each
  handler.
- The visualizer is not wired to the coach. On screen, `isActive` is
  `breathingActive && isPlaying`; the model keeps the two classes separate
  and drives the visualizer through `SetActive`.
- Progress is an exact `real`, not a JavaScript float. The `Math.round` on
  display is not modelled.
- Sequencer.Delay: an instruction's length is counted in characters
  (Unicode scalar values), not in the UTF-16 code units that JavaScript's
  `length` counts. A character outside the Basic Multilingual Plane, such
  as an emoji in a generated text, adds 80 ms once instead of twice.
- Lower-casing covers ASCII letters only. JavaScript's `toLowerCase` is
  Unicode-aware.
- Timeout handles are modelled as consecutive fresh naturals.
- The mood picker (`MoodTracker.tsx`) and the single-call demo
  (`EchoBloom.tsx`) are not modelled. They have no timing or routing logic.
- Sequencer.PlaybackAt: describes only playbacks started with no timeout
  pending. The Start button guarantees that, because it is disabled while
  playing. A start over a running chain is the first finding.
- Sequencer.PlaybackEnds: the same restriction as `Sequencer.PlaybackAt`.
