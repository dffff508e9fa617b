/**
 * The intent router behind `handleVoiceInput`: a transcript is lower-cased
 * and tested against five keyword groups in a fixed order; the first group
 * with a keyword in the transcript decides the command, and anything else
 * is conversation.
 */
module Intents {
  import opened Wrappers
  import opened Strings
  import opened Sessions

  /**
   * What a transcript asks for. `Chat` always stores the transcript as the
   * pending input; `ask` says whether a conversational reply is requested.
   */
  datatype Intent =
    | StartSession(kind: Kind)
    | StopCommand
    | Chat(text: string, ask: bool)

  /** The ordered chain of `includes` tests, as the handler writes it. */
  function Route(transcript: string): Intent
  {
    var t := Lower(transcript);
    if Contains(t, "breathing") || Contains(t, "breathe") || Contains(t, "breath") then
      StartSession(Breathing)
    else if Contains(t, "affirmation") || Contains(t, "affirm") || Contains(t, "positive") then
      StartSession(Affirmation)
    else if Contains(t, "focus") || Contains(t, "mindfulness") || Contains(t, "meditation") then
      StartSession(Mindfulness)
    else if Contains(t, "motivation") || Contains(t, "motivate") || Contains(t, "energy") then
      StartSession(Motivation)
    else if Contains(t, "stop") || Contains(t, "pause") || Contains(t, "end") then
      StopCommand
    else
      Chat(transcript, Trim(transcript) != [])
  }

  /** One keyword group: its keywords and the command it stands for. */
  datatype Group = Group(keywords: seq<string>, command: Intent)

  /** The keyword groups in the order they are tested. */
  const Groups: seq<Group> := [
    Group(["breathing", "breathe", "breath"], StartSession(Breathing)),
    Group(["affirmation", "affirm", "positive"], StartSession(Affirmation)),
    Group(["focus", "mindfulness", "meditation"], StartSession(Mindfulness)),
    Group(["motivation", "motivate", "energy"], StartSession(Motivation)),
    Group(["stop", "pause", "end"], StopCommand)
  ]

  /** Some keyword of the group occurs in the (lower-cased) text. */
  predicate Matches(g: Group, t: string)
  {
    exists k :: 0 <= k < |g.keywords| && Contains(t, g.keywords[k])
  }

  /** The command of the first group in `groups` that matches, if any. */
  function FirstMatch(groups: seq<Group>, t: string): Option<Intent>
  {
    if groups == [] then None
    else if Matches(groups[0], t) then Some(groups[0].command)
    else FirstMatch(groups[1..], t)
  }

  /** `FirstMatch` finds exactly the earliest matching group, and nothing when none matches. */
  lemma {:induction false} FirstMatchIsEarliest(groups: seq<Group>, t: string)
    ensures FirstMatch(groups, t).None? <==> forall j :: 0 <= j < |groups| ==> !Matches(groups[j], t)
    ensures forall k :: 0 <= k < |groups| && Matches(groups[k], t)
                        && (forall j :: 0 <= j < k ==> !Matches(groups[j], t))
                        ==> FirstMatch(groups, t) == Some(groups[k].command)
  {
    if groups != [] {
      FirstMatchIsEarliest(groups[1..], t);
      forall k | 0 <= k < |groups| && Matches(groups[k], t)
                 && (forall j :: 0 <= j < k ==> !Matches(groups[j], t))
        ensures FirstMatch(groups, t) == Some(groups[k].command)
      {
        if k > 0 {
          assert !Matches(groups[0], t);
          assert groups[1..][k - 1] == groups[k];
          forall j | 0 <= j < k - 1 ensures !Matches(groups[1..][j], t) {
            assert groups[1..][j] == groups[j + 1];
          }
        }
      }
      if forall j :: 0 <= j < |groups| ==> !Matches(groups[j], t) {
        assert !Matches(groups[0], t);
        forall j | 0 <= j < |groups| - 1 ensures !Matches(groups[1..][j], t) {
          assert groups[1..][j] == groups[j + 1];
        }
      }
      if FirstMatch(groups, t).None? {
        forall j | 0 <= j < |groups| ensures !Matches(groups[j], t) {
          if j > 0 { assert groups[1..][j - 1] == groups[j]; }
        }
      }
    }
  }

  /**
   * The handler's chain of tests is the table lookup: the earliest matching
   * group decides, and a transcript no group matches is conversation, with a
   * reply requested only when it is not white space alone.
   */
  lemma RouteIsFirstMatch(transcript: string)
    ensures Route(transcript) ==
      match FirstMatch(Groups, Lower(transcript))
      case Some(command) => command
      case None => Chat(transcript, !IsBlank(transcript))
  {
    var t := Lower(transcript);
    TrimEmptyIff(transcript);
    FirstMatchIsEarliest(Groups, t);
    MatchesSpelledOut(t);
  }

  /** Each group of the table matches exactly when the handler's `||` chain for it holds. */
  lemma MatchesSpelledOut(t: string)
    ensures Matches(Groups[0], t) <==> Contains(t, "breathing") || Contains(t, "breathe") || Contains(t, "breath")
    ensures Matches(Groups[1], t) <==> Contains(t, "affirmation") || Contains(t, "affirm") || Contains(t, "positive")
    ensures Matches(Groups[2], t) <==> Contains(t, "focus") || Contains(t, "mindfulness") || Contains(t, "meditation")
    ensures Matches(Groups[3], t) <==> Contains(t, "motivation") || Contains(t, "motivate") || Contains(t, "energy")
    ensures Matches(Groups[4], t) <==> Contains(t, "stop") || Contains(t, "pause") || Contains(t, "end")
  {
    forall g | 0 <= g < 5
      ensures Matches(Groups[g], t) <==>
        Contains(t, Groups[g].keywords[0]) || Contains(t, Groups[g].keywords[1]) || Contains(t, Groups[g].keywords[2])
    {
      if Matches(Groups[g], t) {
        var k :| 0 <= k < |Groups[g].keywords| && Contains(t, Groups[g].keywords[k]);
      }
    }
  }

  /** Routing ignores ASCII case: transcripts equal up to case give the same command. */
  lemma RouteIgnoresCase(a: string, b: string)
    requires Lower(a) == Lower(b)
    ensures Route(a).Chat? <==> Route(b).Chat?
    ensures !Route(a).Chat? ==> Route(a) == Route(b)
  {
  }

  /** A breathing keyword wins over every later group, whatever else the transcript says. */
  lemma BreathingWinsOverLaterGroups(transcript: string)
    requires Contains(Lower(transcript), "breath")
    ensures Route(transcript) == StartSession(Breathing)
  {
  }

  /** "breathing and motivation" starts a breathing session: the earlier group wins. */
  lemma BreathingAndMotivationExample()
    ensures Route("breathing and motivation") == StartSession(Breathing)
  {
    var s := "breathing and motivation";
    LowerOfLowerCase(s);
    assert StartsWith(s, "breathing");
  }

  /** "positive" starts an affirmation session. */
  lemma PositiveExample()
    ensures Route("positive") == StartSession(Affirmation)
  {
    var s := "positive";
    LowerOfLowerCase(s);
    MissingCharNotContained(s, "breathing", 'b');
    MissingCharNotContained(s, "breathe", 'b');
    MissingCharNotContained(s, "breath", 'b');
    assert StartsWith(s, "positive");
  }

  /**
   * A transcript whose lower-cased form has none of the session keywords but
   * a stop keyword is a stop command, whatever the case it was spoken in.
   */
  lemma RouteStopsWithoutSessionWords(t: string)
    requires var l := Lower(t);
      !Contains(l, "breathing") && !Contains(l, "breathe") && !Contains(l, "breath")
    requires var l := Lower(t);
      !Contains(l, "affirmation") && !Contains(l, "affirm") && !Contains(l, "positive")
    requires var l := Lower(t);
      !Contains(l, "focus") && !Contains(l, "mindfulness") && !Contains(l, "meditation")
    requires var l := Lower(t);
      !Contains(l, "motivation") && !Contains(l, "motivate") && !Contains(l, "energy")
    requires var l := Lower(t); Contains(l, "stop") || Contains(l, "pause") || Contains(l, "end")
    ensures Route(t) == StopCommand
  {
  }

  /**
   * Every session keyword has one of the letters b, a, p, f, m, r, so a
   * transcript without any of them holds no session keyword.
   */
  lemma SessionWordsNeedLetters(t: string)
    requires 'b' !in t && 'a' !in t && 'p' !in t && 'f' !in t && 'm' !in t && 'r' !in t
    ensures !Contains(t, "breathing") && !Contains(t, "breathe") && !Contains(t, "breath")
    ensures !Contains(t, "affirmation") && !Contains(t, "affirm") && !Contains(t, "positive")
    ensures !Contains(t, "focus") && !Contains(t, "mindfulness") && !Contains(t, "meditation")
    ensures !Contains(t, "motivation") && !Contains(t, "motivate") && !Contains(t, "energy")
  {
    MissingCharNotContained(t, "breathing", 'b');
    MissingCharNotContained(t, "breathe", 'b');
    MissingCharNotContained(t, "breath", 'b');
    MissingCharNotContained(t, "affirmation", 'a');
    MissingCharNotContained(t, "affirm", 'a');
    MissingCharNotContained(t, "positive", 'p');
    MissingCharNotContained(t, "focus", 'f');
    MissingCharNotContained(t, "mindfulness", 'm');
    MissingCharNotContained(t, "meditation", 'm');
    MissingCharNotContained(t, "motivation", 'm');
    MissingCharNotContained(t, "motivate", 'm');
    MissingCharNotContained(t, "energy", 'r');
  }

  /**
   * A transcript whose lower-cased form lacks the letters b, a, p, f, m, r
   * but has a stop word is a stop command.
   */
  lemma StopWithoutSessionLetters(t: string)
    requires var l := Lower(t); 'b' !in l && 'a' !in l && 'p' !in l && 'f' !in l && 'm' !in l && 'r' !in l
    requires var l := Lower(t); Contains(l, "stop") || Contains(l, "pause") || Contains(l, "end")
    ensures Route(t) == StopCommand
  {
    SessionWordsNeedLetters(Lower(t));
    RouteStopsWithoutSessionWords(t);
  }

  /** "weekend" contains "end", so it is a stop command rather than conversation. */
  lemma WeekendStops()
    ensures Route("weekend") == StopCommand
  {
    assert Lower("weekend") == "weekend";
    OccursAtContains("weekend", "end", 4);
    StopWithoutSessionLetters("weekend");
  }

  /** An upper-case command is lower-cased before routing, so "STOP" stops too. */
  lemma ShoutedStopStops()
    ensures Route("STOP") == StopCommand
  {
    assert Lower("STOP") == "stop";
    assert StartsWith("stop", "stop");
    RouteStopsWithoutSessionWords("STOP");
  }

  /** White space contains no word that starts with a visible character. */
  lemma {:induction false} BlankContainsNoWord(t: string, w: string)
    requires IsBlank(t) && |w| > 0 && !IsSpace(w[0])
    ensures !Contains(t, w)
  {
    assert w[0] !in t;
    MissingCharNotContained(t, w, w[0]);
  }

  /** A transcript of white space alone is conversation that requests no reply. */
  lemma BlankTranscriptAsksNothing(transcript: string)
    requires IsBlank(transcript)
    ensures Route(transcript) == Chat(transcript, false)
  {
    TrimEmptyIff(transcript);
    var t := Lower(transcript);
    assert IsBlank(t);
    BlankContainsNoWord(t, "breathing");
    BlankContainsNoWord(t, "breathe");
    BlankContainsNoWord(t, "breath");
    BlankContainsNoWord(t, "affirmation");
    BlankContainsNoWord(t, "affirm");
    BlankContainsNoWord(t, "positive");
    BlankContainsNoWord(t, "focus");
    BlankContainsNoWord(t, "mindfulness");
    BlankContainsNoWord(t, "meditation");
    BlankContainsNoWord(t, "motivation");
    BlankContainsNoWord(t, "motivate");
    BlankContainsNoWord(t, "energy");
    BlankContainsNoWord(t, "stop");
    BlankContainsNoWord(t, "pause");
    BlankContainsNoWord(t, "end");
  }
}
