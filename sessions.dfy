/**
 * The session catalog: the four session kinds and the instruction list each
 * one plays (the `switch` in `generateSession`).
 */
module Sessions {

  datatype Kind = Breathing | Affirmation | Mindfulness | Motivation

  /** A coaching session: its kind, the generated text and the instructions the player walks. */
  datatype Session = Session(kind: Kind, content: string, instructions: seq<string>)

  /** The hand-written breathing script. */
  const BreathingScript: seq<string> := [
      "Welcome to your breathing session. Let's find a comfortable position and begin together.",
      "Place one hand on your chest, one on your belly. Feel your body settling.",
      "Now, let's breathe in slowly through your nose for 4 counts. Ready? 1... 2... 3... 4...",
      "Perfect. Now hold that breath gently for 4 counts. 1... 2... 3... 4...",
      "Beautiful. Now let's exhale slowly through your mouth for 6 counts. 1... 2... 3... 4... 5... 6...",
      "Wonderful. Let's pause for 2 counts. 1... 2... Feel your body relaxing.",
      "You're doing great. Let's continue this rhythm together. Notice how your shoulders are dropping.",
      "With each breath, feel tension melting away. Your jaw is softening, your mind is clearing.",
      "Keep following this gentle rhythm. You're creating space for peace and calm.",
      "Take a moment to appreciate this gift you're giving yourself. You deserve this peace."
    ]

  /** The hand-written grounding (5-4-3-2-1) script. */
  const MindfulnessScript: seq<string> := [
      "Let's ground ourselves in this moment. Sit comfortably and close your eyes if you'd like.",
      "First, let's notice 5 things you can hear around you. Take your time.",
      "Now, let's feel 4 things you can touch - your clothes, the chair, the air on your skin.",
      "Next, notice 3 things you can smell in your environment.",
      "Now 2 things you can taste - perhaps the lingering taste of something you drank.",
      "Finally, when you open your eyes, notice 1 thing you can see with fresh awareness."
    ]

  /** The fixed instructions of a kind; empty for the kinds whose script is generated. */
  function FixedScript(kind: Kind): seq<string>
  {
    match kind
    case Breathing => BreathingScript
    case Mindfulness => MindfulnessScript
    case Affirmation => []
    case Motivation => []
  }

  /**
   * The instructions of a session whose generated reply is `text`: the fixed
   * script when the kind has one, otherwise the one-step script `[text]`.
   */
  function ScriptFor(kind: Kind, text: string): (r: seq<string>)
    ensures |r| >= 1
    ensures kind == Breathing ==> |r| == 10
    ensures kind == Mindfulness ==> |r| == 6
    ensures kind == Affirmation || kind == Motivation ==> r == [text]
  {
    var fixed := FixedScript(kind);
    if |fixed| > 0 then fixed else [text]
  }

  /** The fixed scripts do not depend on the generated reply at all. */
  lemma FixedScriptIgnoresReply(kind: Kind, a: string, b: string)
    requires kind == Breathing || kind == Mindfulness
    ensures ScriptFor(kind, a) == ScriptFor(kind, b) == FixedScript(kind)
  {
  }

  /** The session built from a successful generation. */
  function NewSession(kind: Kind, text: string): (s: Session)
    ensures s.kind == kind && s.content == text
    ensures |s.instructions| >= 1
    ensures text !in FixedScript(kind) ==> (text in s.instructions <==> kind == Affirmation || kind == Motivation)
  {
    Session(kind, text, ScriptFor(kind, text))
  }
}
