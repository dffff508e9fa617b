/**
 * The conversation log of the coach: a successful reply appends the
 * user's turn and the coach's turn and keeps the last ten entries; the
 * prompt context is the last six entries, one labelled line each.
 */
module Conversation {
  import opened Wrappers

  datatype Role = User | Coach
  datatype Turn = Turn(role: Role, content: string)

  /** How many turns the log keeps. */
  const HistoryLimit: nat := 10
  /** How many turns go into the prompt context. */
  const ContextSize: nat := 6

  /** `slice(-n)` for a positive `n`: the last `n` elements, or all of them when there are fewer. */
  function Last<T>(s: seq<T>, n: nat): seq<T>
  {
    if |s| <= n then s else s[|s| - n..]
  }

  /** The log after a successful reply `reply` to `userInput`. */
  function Append(history: seq<Turn>, userInput: string, reply: string): seq<Turn>
  {
    Last(history + [Turn(User, userInput), Turn(Coach, reply)], HistoryLimit)
  }

  /** The roles alternate user, coach, user, ... and the log ends on a coach turn. */
  ghost predicate Alternating(history: seq<Turn>)
  {
    && |history| % 2 == 0
    && forall i :: 0 <= i < |history| ==> history[i].role == (if i % 2 == 0 then User else Coach)
  }

  /**
   * Appending keeps at most ten entries, ends with the new pair, and keeps
   * the newest of the old entries in their order: eviction drops the oldest.
   */
  lemma AppendKeepsNewest(history: seq<Turn>, userInput: string, reply: string)
    ensures var r := Append(history, userInput, reply);
      && |r| == (if |history| + 2 <= HistoryLimit then |history| + 2 else HistoryLimit)
      && r[|r| - 2..] == [Turn(User, userInput), Turn(Coach, reply)]
      && r[..|r| - 2] == history[|history| - (|r| - 2)..]
  {
    var all := history + [Turn(User, userInput), Turn(Coach, reply)];
    var r := Append(history, userInput, reply);
    assert r == all[|all| - |r|..];
    assert r[|r| - 2..] == all[|all| - 2..];
    assert r[..|r| - 2] == all[|all| - |r|..|all| - 2];
  }

  lemma AlternatingExtend(history: seq<Turn>, userInput: string, reply: string)
    requires Alternating(history)
    ensures Alternating(history + [Turn(User, userInput), Turn(Coach, reply)])
  {
    var all := history + [Turn(User, userInput), Turn(Coach, reply)];
    forall i | 0 <= i < |all| ensures all[i].role == (if i % 2 == 0 then User else Coach) {
      if i < |history| { assert all[i] == history[i]; }
    }
  }

  /** Dropping an even number of the oldest entries keeps a log alternating. */
  lemma AlternatingDropEven(log: seq<Turn>, d: nat)
    requires Alternating(log) && d <= |log| && d % 2 == 0
    ensures Alternating(log[d..])
  {
    var r := log[d..];
    forall i | 0 <= i < |r| ensures r[i].role == (if i % 2 == 0 then User else Coach) {
      assert r[i] == log[d + i];
      assert (d + i) % 2 == i % 2 by {
        assert d == 2 * (d / 2);
      }
    }
  }

  /** Appending a pair to an alternating log of at most ten entries keeps it alternating. */
  lemma AppendAlternates(history: seq<Turn>, userInput: string, reply: string)
    requires Alternating(history) && |history| <= HistoryLimit
    ensures Alternating(Append(history, userInput, reply))
  {
    var all := history + [Turn(User, userInput), Turn(Coach, reply)];
    AlternatingExtend(history, userInput, reply);
    if |all| > HistoryLimit {
      AlternatingDropEven(all, |all| - HistoryLimit);
    }
  }

  lemma AppendAlternatesIfAlternating(history: seq<Turn>, userInput: string, reply: string)
    ensures Alternating(history) && |history| <= HistoryLimit ==> Alternating(Append(history, userInput, reply))
  {
    if Alternating(history) && |history| <= HistoryLimit {
      AppendAlternates(history, userInput, reply);
    }
  }

  /**
   * A generation attempt: a reply (`Some`) is appended with its question,
   * a failed call (`None`) leaves the log as it was.
   */
  function Respond(history: seq<Turn>, userInput: string, reply: Option<string>): (r: seq<Turn>)
    ensures reply == None ==> r == history
    ensures |history| <= HistoryLimit ==> |r| <= HistoryLimit
    ensures Alternating(history) && |history| <= HistoryLimit ==> Alternating(r)
  {
    match reply
    case None => history
    case Some(text) =>
      AppendKeepsNewest(history, userInput, text);
      AppendAlternatesIfAlternating(history, userInput, text);
      Append(history, userInput, text)
  }

  /** The log after a run of generation attempts, from the empty log. */
  function Replay(attempts: seq<(string, Option<string>)>): seq<Turn>
  {
    if attempts == [] then []
    else
      var last := attempts[|attempts| - 1];
      Respond(Replay(attempts[..|attempts| - 1]), last.0, last.1)
  }

  /** Whatever the attempts and their outcomes, the log holds at most ten alternating entries. */
  lemma {:induction false} ReplayBoundedAlternating(attempts: seq<(string, Option<string>)>)
    ensures |Replay(attempts)| <= HistoryLimit
    ensures Alternating(Replay(attempts))
  {
    if attempts != [] {
      ReplayBoundedAlternating(attempts[..|attempts| - 1]);
    }
  }

  /** The prompt line for one turn. */
  function Render(t: Turn): string
  {
    (if t.role == User then "User" else "Coach") + ": " + t.content
  }

  /** `join('\n')`. */
  function Join(lines: seq<string>): string
  {
    if |lines| == 0 then ""
    else if |lines| == 1 then lines[0]
    else lines[0] + "\n" + Join(lines[1..])
  }

  function RenderAll(turns: seq<Turn>): (r: seq<string>)
  {
    seq(|turns|, i requires 0 <= i < |turns| => Render(turns[i]))
  }

  /** The context handed to the generator: the last six turns, oldest first, one line each. */
  function Context(history: seq<Turn>): string
  {
    Join(RenderAll(Last(history, ContextSize)))
  }

  /** Joining one more line puts it at the end, after a newline. */
  lemma {:induction false} JoinSnoc(lines: seq<string>, line: string)
    requires lines != []
    ensures Join(lines + [line]) == Join(lines) + "\n" + line
  {
    if |lines| > 1 {
      assert (lines + [line])[1..] == lines[1..] + [line];
      JoinSnoc(lines[1..], line);
    }
  }

  /** Only the last six turns matter: older turns never reach the prompt. */
  lemma ContextIgnoresOlder(older: seq<Turn>, recent: seq<Turn>)
    requires |recent| >= ContextSize
    ensures Context(older + recent) == Context(recent)
  {
    var all := older + recent;
    assert all[|all| - ContextSize..] == recent[|recent| - ContextSize..];
  }

  /** While the window is not full, a new turn adds its line at the end: oldest first. */
  lemma ContextGrowsAtEnd(history: seq<Turn>, t: Turn)
    requires 0 < |history| < ContextSize
    ensures Context(history + [t]) == Context(history) + "\n" + Render(t)
  {
    assert RenderAll(history + [t]) == RenderAll(history) + [Render(t)];
    JoinSnoc(RenderAll(history), Render(t));
  }

  /** The empty log gives the empty context, and a single turn gives its own line. */
  lemma ContextOfShortLogs(t: Turn)
    ensures Context([]) == ""
    ensures Context([t]) == Render(t)
  {
  }
}
