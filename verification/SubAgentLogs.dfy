/** What sub-agent events do to the answer found after a crash
    (src/cli/run-stale-run-recovery.js, src/codex-exec/exec-event-summary.js).

    The live processor passes over the events of sub-agents.  The crash side falls back to
    a summary that knows nothing of sub-agents: it takes their turns and final messages for
    those of the run. */
module SubAgentLogs {
  import opened Options
  import opened ExecRecovery

  // ---------------------------------------------------------------------
  // The log as the crash side sees it
  // ---------------------------------------------------------------------

  predicate SeemsToStart(line: LogLine) {
    line.Logged? && line.event.TurnStarted?
  }

  predicate StatusIsCompleted(status: Option<string>) {
    status.None? || status.value == "" || status.value == "completed"
  }

  predicate SeemsToComplete(line: LogLine) {
    line.Logged? && line.event.TurnCompleted? && (line.primary || StatusIsCompleted(line.event.status))
  }

  predicate SeemsToFail(line: LogLine) {
    FailsTurn(line) || (line.Logged? && line.event.TurnCompleted? && !SeemsToComplete(line))
  }

  /** A final message of a sub-agent. */
  predicate SubAgentConcludes(line: LogLine) {
    && line.Logged? && !line.primary && line.event.AgentMessage? && line.event.completed
    && line.event.phase.FinalAnswer? && line.event.text.Some?
  }

  predicate SeemsToSpeak(line: LogLine) {
    Speaks(line) || SubAgentConcludes(line)
  }

  /** The last message since a turn seemed to start. */
  function SeenMessage(log: seq<LogLine>, n: nat): Option<Answer>
    requires n <= |log|
  {
    if n == 0 || SeemsToStart(log[n - 1]) then None
    else if SeemsToSpeak(log[n - 1]) then log[n - 1].event.text
    else SeenMessage(log, n - 1)
  }

  /** Where a turn seemed to end, since one seemed to start. */
  function SeenTerminal(log: seq<LogLine>, n: nat): (k: Option<nat>)
    requires n <= |log|
    ensures k.Some? ==> k.value < n && (SeemsToComplete(log[k.value]) || SeemsToFail(log[k.value]))
  {
    if n == 0 || SeemsToStart(log[n - 1]) then None
    else if SeemsToComplete(log[n - 1]) || SeemsToFail(log[n - 1]) then Some(n - 1)
    else SeenTerminal(log, n - 1)
  }

  /** The id of the turn that seemed to start last. */
  function SeenTurn(log: seq<LogLine>, n: nat): Option<Id>
    requires n <= |log|
  {
    if n == 0 then None
    else if SeemsToStart(log[n - 1]) then log[n - 1].event.turnId
    else SeenTurn(log, n - 1)
  }

  /** The id of the turn that the completion at k completed. */
  function CompletedTurn(log: seq<LogLine>, k: nat): Option<Id>
    requires k < |log| && SeemsToComplete(log[k])
  {
    log[k].event.turnId.Or(SeenTurn(log, k))
  }

  /** A sub-agent's final message after a completion, not known to be of another turn. */
  predicate ConcludesLate(log: seq<LogLine>, k: nat)
    requires k < |log|
  {
    && SubAgentConcludes(log[k])
    && var t := SeenTerminal(log, k);
      && t.Some? && SeemsToComplete(log[t.value])
      && (log[k].event.turnId.None? || CompletedTurn(log, t.value).None? || log[k].event.turnId == CompletedTurn(log, t.value))
  }

  /** The line that decides the answer: the last one since a turn seemed to start that
      seems to end a turn, or concludes late. */
  function Decider(log: seq<LogLine>, n: nat): (k: Option<nat>)
    requires n <= |log|
    ensures k.Some? ==> k.value < n && (SeemsToComplete(log[k.value]) || SeemsToFail(log[k.value]) || ConcludesLate(log, k.value))
  {
    if n == 0 || SeemsToStart(log[n - 1]) then None
    else if SeemsToComplete(log[n - 1]) || SeemsToFail(log[n - 1]) || ConcludesLate(log, n - 1) then Some(n - 1)
    else Decider(log, n - 1)
  }

  function AnswerBy(log: seq<LogLine>, k: nat): Option<Answer>
    requires k < |log|
  {
    if SeemsToComplete(log[k]) then SeenMessage(log, k)
    else if SubAgentConcludes(log[k]) then log[k].event.text
    else None
  }

  function SeenAnswer(log: seq<LogLine>, n: nat): Option<Answer>
    requires n <= |log|
  {
    var k := Decider(log, n);
    if k.Some? then AnswerBy(log, k.value) else None
  }

  lemma {:induction false} SeenAnswerIsAMessage(log: seq<LogLine>, n: nat)
    requires n <= |log| && SeenMessage(log, n).None?
    ensures SeenAnswer(log, n).None?
  {
    if n != 0 && !SeemsToStart(log[n - 1]) {
      SeenAnswerIsAMessage(log, n - 1);
    }
  }

  /** What the inspection holds after n lines. */
  predicate Follows(s: Inspection, log: seq<LogLine>, n: nat)
    requires n <= |log|
  {
    var t := SeenTerminal(log, n);
    var completed := t.Some? && SeemsToComplete(log[t.value]);
    && s.latestAgentMessageText == SeenMessage(log, n)
    && s.currentTurnId == SeenTurn(log, n)
    && s.sawCompletedTurn == completed
    && s.completedTurnId == (if completed then CompletedTurn(log, t.value) else None)
    && s.finalReplyText == SeenAnswer(log, n)
    && (s.hasFinalAnswer <==> s.finalReplyText.Some?)
  }

  lemma StartFollows(s: Inspection, log: seq<LogLine>, n: nat)
    requires n < |log| && Follows(s, log, n) && SeemsToStart(log[n])
    ensures Follows(InspectLine(s, log[n]), log, n + 1)
  {
  }

  lemma TerminalFollows(s: Inspection, log: seq<LogLine>, n: nat)
    requires n < |log| && Follows(s, log, n) && (SeemsToComplete(log[n]) || SeemsToFail(log[n]))
    ensures Follows(InspectLine(s, log[n]), log, n + 1)
  {
    if SeenMessage(log, n).None? {
      SeenAnswerIsAMessage(log, n);
    }
  }

  lemma MessageFollows(s: Inspection, log: seq<LogLine>, n: nat)
    requires n < |log| && Follows(s, log, n) && log[n].Logged? && log[n].event.AgentMessage?
    ensures Follows(InspectLine(s, log[n]), log, n + 1)
  {
  }

  lemma OtherFollows(s: Inspection, log: seq<LogLine>, n: nat)
    requires n < |log| && Follows(s, log, n) && !SeemsToStart(log[n]) && !SeemsToComplete(log[n]) && !SeemsToFail(log[n]) && !(log[n].Logged? && log[n].event.AgentMessage?)
    ensures Follows(InspectLine(s, log[n]), log, n + 1)
  {
  }

  lemma StepFollows(s: Inspection, log: seq<LogLine>, n: nat)
    requires n < |log| && Follows(s, log, n)
    ensures Follows(InspectLine(s, log[n]), log, n + 1)
  {
    hide InspectLine, Follows, SeemsToStart, SeemsToComplete, SeemsToFail;
    if SeemsToStart(log[n]) {
      StartFollows(s, log, n);
    } else if SeemsToComplete(log[n]) || SeemsToFail(log[n]) {
      TerminalFollows(s, log, n);
    } else if log[n].Logged? && log[n].event.AgentMessage? {
      MessageFollows(s, log, n);
    } else {
      OtherFollows(s, log, n);
    }
  }

  /** For every log the crash side answers as the deciding line of what it sees says. */
  lemma {:induction false} CrashAnswerIsTheSeenOne(fallback: Option<Id>, log: seq<LogLine>, n: nat)
    requires n <= |log|
    ensures Follows(Inspected(fallback, log, n), log, n)
  {
    hide InspectLine, Follows;
    if n != 0 {
      CrashAnswerIsTheSeenOne(fallback, log, n - 1);
      StepFollows(Inspected(fallback, log, n - 1), log, n - 1);
    } else {
      NothingSeen(fallback, log);
    }
  }

  lemma NothingSeen(fallback: Option<Id>, log: seq<LogLine>)
    ensures Follows(Uninspected(fallback), log, 0)
  {
  }

  /** For every log the two answers agree exactly when the message before the first
      answered completion of the run's own turn is what the deciding line says. */
  lemma AnswersAgreeInGeneral(fallback: Option<Id>, log: seq<LogLine>)
    ensures Inspected(fallback, log, |log|).finalReplyText == Ingested(log, |log|).Answered()
       <==> SeenAnswer(log, |log|) == MessageAt(log, FirstAnswered(log, |log|))
  {
    hide Ingested, Inspected, SeenAnswer;
    LiveAnswerIsTheFirst(log, |log|);
    CrashAnswerIsTheSeenOne(fallback, log, |log|);
  }

  // ---------------------------------------------------------------------
  // Sub-agents that start turns
  // ---------------------------------------------------------------------

  predicate SubAgentStarts(line: LogLine) {
    line.Logged? && !line.primary && line.event.TurnStarted?
  }

  predicate SubAgentEnds(line: LogLine) {
    line.Logged? && !line.primary && line.event.TurnCompleted?
  }

  /** Sub-agents start turns, and do nothing else that the crash side takes for the run's. */
  predicate OnlyStarts(log: seq<LogLine>) {
    forall k :: 0 <= k < |log| ==> Harmless(log[k]) || SubAgentStarts(log[k])
  }

  /** No sub-agent starts a turn from k up to n. */
  predicate Quiet(log: seq<LogLine>, k: nat, n: nat)
    requires n <= |log|
  {
    forall i :: k <= i < n ==> !SubAgentStarts(log[i])
  }

  /** Where the agent last spoke in the turn that the first n lines end in. */
  function LastSpoken(log: seq<LogLine>, n: nat): (k: Option<nat>)
    requires n <= |log|
    ensures k.Some? ==> k.value < n && Speaks(log[k.value]) && LastMessage(log, n) == log[k.value].event.text
    ensures k.None? ==> LastMessage(log, n).None?
  {
    if n == 0 || StartsTurn(log[n - 1]) then None
    else if Speaks(log[n - 1]) then Some(n - 1)
    else LastSpoken(log, n - 1)
  }

  lemma QuietStep(log: seq<LogLine>, k: nat, n: nat)
    requires k <= n < |log|
    ensures Quiet(log, k, n + 1) <==> Quiet(log, k, n) && !SubAgentStarts(log[n])
  {
  }

  lemma {:induction false} SeenWithStarts(log: seq<LogLine>, n: nat)
    requires n <= |log| && OnlyStarts(log)
    ensures var spoken := LastSpoken(log, n);
      SeenMessage(log, n) == (if spoken.Some? && Quiet(log, spoken.value, n) then log[spoken.value].event.text else None)
    ensures var last := LastTerminal(log, n);
      Decider(log, n) == (if last.Some? && Quiet(log, last.value, n) then last else None)
  {
    if n != 0 {
      hide Quiet;
      SeenWithStarts(log, n - 1);
      var spoken, last := LastSpoken(log, n - 1), LastTerminal(log, n - 1);
      if spoken.Some? {
        QuietStep(log, spoken.value, n - 1);
      }
      if last.Some? {
        QuietStep(log, last.value, n - 1);
      }
      QuietAtOnce(log, n - 1);
      assert Harmless(log[n - 1]) || SubAgentStarts(log[n - 1]);
    }
  }

  lemma QuietAtOnce(log: seq<LogLine>, n: nat)
    requires n < |log|
    ensures Quiet(log, n, n + 1) <==> !SubAgentStarts(log[n])
  {
  }

  /** If sub-agents only start turns, and each turn of the run ends at most once, the two
      answers agree exactly when none was announced, or no sub-agent started a turn after
      the agent had said the announced message. */
  lemma StartsHideTheAnswerExactly(fallback: Option<Id>, log: seq<LogLine>)
    requires OnlyStarts(log) && WellBracketed(log)
    ensures var first := FirstAnswered(log, |log|);
      Inspected(fallback, log, |log|).finalReplyText == Ingested(log, |log|).Answered()
      <==> first.None? || Quiet(log, LastSpoken(log, first.value).Or(Some(0)).value, |log|)
  {
    hide Ingested, Inspected, OnlyStarts, Quiet, WellBracketed;
    AnswersAgreeInGeneral(fallback, log);
    BracketedTerminal(log, |log|);
    SeenWithStarts(log, |log|);
    var first, last := FirstAnswered(log, |log|), LastTerminal(log, |log|);
    if last.Some? {
      SeenWithStarts(log, last.value);
    }
    if first.None? {
      UnansweredIsUnrecovered(log, |log|);
    } else {
      QuietSplits(log, LastSpoken(log, first.value).Or(Some(0)).value, first.value, |log|);
    }
  }

  lemma QuietSplits(log: seq<LogLine>, k: nat, m: nat, n: nat)
    requires k <= m <= n <= |log|
    ensures Quiet(log, k, n) <==> Quiet(log, k, m) && Quiet(log, m, n)
  {
  }

  // ---------------------------------------------------------------------
  // Sub-agents that end turns
  // ---------------------------------------------------------------------

  /** Sub-agents end turns, and do nothing else that the crash side takes for the run's. */
  predicate OnlyEnds(log: seq<LogLine>) {
    forall k :: 0 <= k < |log| ==> Harmless(log[k]) || SubAgentEnds(log[k])
  }

  lemma {:induction false} SeenWithEnds(log: seq<LogLine>, n: nat)
    requires n <= |log| && OnlyEnds(log)
    ensures SeenMessage(log, n) == LastMessage(log, n)
    ensures Decider(log, n) == SeenTerminal(log, n)
    ensures SeenTerminal(log, n).Some? && log[SeenTerminal(log, n).value].primary ==> LastTerminal(log, n) == SeenTerminal(log, n)
    ensures SeenTerminal(log, n).None? ==> LastTerminal(log, n).None?
  {
    if n != 0 {
      SeenWithEnds(log, n - 1);
      assert Harmless(log[n - 1]) || SubAgentEnds(log[n - 1]);
    }
  }

  /** If sub-agents only end turns, and each turn of the run ends at most once, the two
      answers agree exactly when the last end of a turn is the run's own, or it is a
      sub-agent's and the last message before it, where it counts as completed, is the
      announced one. */
  lemma EndsReplaceTheAnswerExactly(fallback: Option<Id>, log: seq<LogLine>)
    requires OnlyEnds(log) && WellBracketed(log)
    ensures var first, last := FirstAnswered(log, |log|), SeenTerminal(log, |log|);
      Inspected(fallback, log, |log|).finalReplyText == Ingested(log, |log|).Answered()
      <==> last.None? || log[last.value].primary
           || (if SeemsToComplete(log[last.value]) then LastMessage(log, last.value) else None) == MessageAt(log, first)
  {
    hide Ingested, Inspected, OnlyEnds, WellBracketed;
    AnswersAgreeInGeneral(fallback, log);
    BracketedTerminal(log, |log|);
    SeenWithEnds(log, |log|);
    var first, last := FirstAnswered(log, |log|), SeenTerminal(log, |log|);
    if last.Some? {
      SeenWithEnds(log, last.value);
    }
    if first.None? {
      UnansweredIsUnrecovered(log, |log|);
    }
  }

  // ---------------------------------------------------------------------
  // Sub-agents that say final messages
  // ---------------------------------------------------------------------

  /** Sub-agents say final messages, and do nothing else that the crash side takes for the run's. */
  predicate OnlyConclusions(log: seq<LogLine>) {
    forall k :: 0 <= k < |log| ==> Harmless(log[k]) || SubAgentConcludes(log[k])
  }

  lemma {:induction false} SeenWithConclusions(log: seq<LogLine>, n: nat)
    requires n <= |log| && OnlyConclusions(log)
    ensures SeenTerminal(log, n) == LastTerminal(log, n)
    ensures Decider(log, n).Some? && log[Decider(log, n).value].primary ==> Decider(log, n) == LastTerminal(log, n)
    ensures Decider(log, n).None? ==> LastTerminal(log, n).None?
    ensures Decider(log, n).Some? && !log[Decider(log, n).value].primary ==> SubAgentConcludes(log[Decider(log, n).value])
  {
    if n != 0 {
      SeenWithConclusions(log, n - 1);
      assert Harmless(log[n - 1]) || SubAgentConcludes(log[n - 1]);
    }
  }

  /** If sub-agents only say final messages, and each turn of the run ends at most once,
      the two answers agree exactly when nothing decides, or the run's own end of the turn
      decides and it failed or no final message came after the agent's last words with
      other words, or a late final message decides and repeats the announced one. */
  lemma ConclusionsReplaceTheAnswerExactly(fallback: Option<Id>, log: seq<LogLine>)
    requires OnlyConclusions(log) && WellBracketed(log)
    ensures var first, d := FirstAnswered(log, |log|), Decider(log, |log|);
      Inspected(fallback, log, |log|).finalReplyText == Ingested(log, |log|).Answered()
      <==> || d.None?
           || (log[d.value].primary && (FailsTurn(log[d.value]) || SeenMessage(log, d.value) == LastMessage(log, d.value)))
           || (!log[d.value].primary && log[d.value].event.text == MessageAt(log, first))
  {
    hide Ingested, Inspected, OnlyConclusions, WellBracketed;
    AnswersAgreeInGeneral(fallback, log);
    BracketedTerminal(log, |log|);
    SeenWithConclusions(log, |log|);
    var first := FirstAnswered(log, |log|);
    if first.None? {
      UnansweredIsUnrecovered(log, |log|);
    }
  }
}
