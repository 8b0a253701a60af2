/** The final answer of a run, live and after a crash
    (src/codex-exec/exec-jsonl-processor.js, src/codex-exec/exec-event-summary.js,
    src/cli/run-stale-run-recovery.js).

    While a run goes on, each line of its event stream is handled as it comes, and the
    final answer is announced when a turn completes.  After a crash the logged lines are
    read again, by another program, to find out whether there was a final answer. */
module ExecRecovery {
  import opened Options

  type Id = string
  type Answer = string

  datatype Phase = FinalAnswer | Commentary

  /** An event of the stream.  A message's text is None when there is only white space;
      a turn's status is in lower case, without white space. */
  datatype Event =
    | ThreadStarted(threadId: Option<Id>)
    | TurnStarted(turnId: Option<Id>)
    | TurnCompleted(turnId: Option<Id>, status: Option<string>)
    | TurnFailed(turnId: Option<Id>)
    | StreamError
    | AgentMessage(completed: bool, text: Option<Answer>, phase: Phase, threadId: Option<Id>, turnId: Option<Id>)
    | OtherItem
    | Unknown

  /** A line of the log; an event of a sub-agent is not primary. */
  datatype LogLine = BlankLine | Malformed | Logged(primary: bool, event: Event)

  datatype Summary =
    | ThreadSummary(threadId: Option<Id>)
    | TurnStartedSummary(turnId: Option<Id>)
    | TurnCompletedSummary(turnId: Option<Id>, status: Option<string>)
    | TurnFailedSummary(turnId: Option<Id>)
    | MessageSummary(text: Option<Answer>, phase: Phase, agentSource: bool, threadId: Option<Id>, turnId: Option<Id>)
    | OtherSummary

  function SummarizeCodexExecEvent(primary: bool, event: Event): Option<Summary> {
    if !primary then None
    else
      match event
      case ThreadStarted(threadId) => Some(ThreadSummary(threadId))
      case TurnStarted(turnId) => Some(TurnStartedSummary(turnId))
      case TurnCompleted(turnId, _) => Some(TurnCompletedSummary(turnId, Some("completed")))
      case TurnFailed(turnId) => Some(TurnFailedSummary(turnId))
      case StreamError => Some(OtherSummary)
      case AgentMessage(completed, text, _, _, _) =>
        if completed && text.Some? then Some(MessageSummary(text, Commentary, true, None, None)) else None
      case OtherItem => Some(OtherSummary)
      case Unknown => None
  }

  /** The summary of the other protocol, which knows nothing of sub-agents. */
  function SummarizeCodexEvent(event: Event): Option<Summary> {
    match event
    case ThreadStarted(threadId) => Some(ThreadSummary(threadId))
    case TurnStarted(turnId) => Some(TurnStartedSummary(turnId))
    case TurnCompleted(turnId, status) => Some(TurnCompletedSummary(turnId, status))
    case AgentMessage(completed, text, phase, threadId, turnId) =>
      if completed then Some(MessageSummary(text, phase, false, threadId, turnId)) else None
    case OtherItem => Some(OtherSummary)
    case _ => None
  }

  // ---------------------------------------------------------------------
  // The live processor
  // ---------------------------------------------------------------------

  /** The state of the processor, and the final answers it announced. */
  datatype Live = Live(
    latestThreadId: Option<Id>,
    sawTurnCompleted: bool,
    sawTurnFailed: bool,
    fatal: bool,
    latestAgentMessageText: Option<Answer>,
    emittedFinalAnswer: bool,
    malformedLineCount: nat,
    announced: seq<Answer>)
  {
    /** The final answer announced since the last turn started. */
    function Answered(): Option<Answer> {
      if emittedFinalAnswer && announced != [] then Some(announced[|announced| - 1]) else None
    }
  }

  const Fresh := Live(None, false, false, false, None, false, 0, [])

  function HandleEvent(s: Live, event: Event): Live {
    match event
    case ThreadStarted(threadId) => if threadId.Some? then s.(latestThreadId := threadId) else s
    case TurnStarted(_) => s.(latestAgentMessageText := None, emittedFinalAnswer := false)
    case TurnCompleted(_, _) =>
      var s := s.(sawTurnCompleted := true);
      if s.emittedFinalAnswer || s.latestAgentMessageText.None? then s
      else s.(emittedFinalAnswer := true, announced := s.announced + [s.latestAgentMessageText.value])
    case TurnFailed(_) => s.(sawTurnFailed := true, fatal := true)
    case StreamError => s.(fatal := true)
    case AgentMessage(completed, text, _, _, _) => if completed && text.Some? then s.(latestAgentMessageText := text) else s
    case _ => s
  }

  function Ingest(s: Live, line: LogLine): Live {
    match line
    case BlankLine => s
    case Malformed => s.(malformedLineCount := s.malformedLineCount + 1)
    case Logged(primary, event) => if primary then HandleEvent(s, event) else s
  }

  function Ingested(log: seq<LogLine>, n: nat): Live
    requires n <= |log|
  {
    if n == 0 then Fresh else Ingest(Ingested(log, n - 1), log[n - 1])
  }

  class JsonlProcessor {
    var state: Live

    constructor ()
      ensures state == Fresh
    {
      state := Fresh;
    }

    method IngestLine(line: LogLine)
      modifies this
      ensures state == Ingest(old(state), line)
    {
      if line.BlankLine? {
        return;
      }
      if line.Malformed? {
        state := state.(malformedLineCount := state.malformedLineCount + 1);
        return;
      }
      var event := line.event;
      var nonPrimary := !line.primary;
      if event.ThreadStarted? && event.threadId.Some? && !nonPrimary {
        state := state.(latestThreadId := event.threadId);
      }
      if event.TurnStarted? && !nonPrimary {
        state := state.(latestAgentMessageText := None, emittedFinalAnswer := false);
      } else if event.TurnCompleted? && !nonPrimary {
        state := state.(sawTurnCompleted := true);
      } else if event.TurnFailed? && !nonPrimary {
        state := state.(sawTurnFailed := true, fatal := true);
      } else if event.StreamError? && !nonPrimary {
        state := state.(fatal := true);
      }
      var summary := SummarizeCodexExecEvent(line.primary, event);
      if summary.Some? && summary.value.ThreadSummary? && summary.value.threadId.Some? {
        state := state.(latestThreadId := summary.value.threadId);
      }
      if summary.Some? && summary.value.MessageSummary? && summary.value.agentSource && summary.value.text.Some? {
        state := state.(latestAgentMessageText := summary.value.text);
      }
      if event.TurnCompleted? && !nonPrimary && !state.emittedFinalAnswer && state.latestAgentMessageText.Some? {
        state := state.(emittedFinalAnswer := true, announced := state.announced + [state.latestAgentMessageText.value]);
      }
    }
  }

  // ---------------------------------------------------------------------
  // Reading the log after a crash
  // ---------------------------------------------------------------------

  datatype Inspection = Inspection(
    threadId: Option<Id>,
    currentTurnId: Option<Id>,
    completedTurnId: Option<Id>,
    sawCompletedTurn: bool,
    latestAgentMessageText: Option<Answer>,
    finalReplyText: Option<Answer>,
    hasFinalAnswer: bool)

  function Uninspected(fallbackThreadId: Option<Id>): Inspection {
    Inspection(fallbackThreadId, None, None, false, None, None, false)
  }

  function InspectMessage(s: Inspection, m: Summary): Inspection
    requires m.MessageSummary?
  {
    if (m.agentSource || m.phase.FinalAnswer?) && m.text.Some? then
      var sameCompletedTurn := m.turnId.None? || s.completedTurnId.None? || m.turnId == s.completedTurnId;
      var s := s.(latestAgentMessageText := m.text);
      if s.sawCompletedTurn && sameCompletedTurn && m.phase.FinalAnswer? then s.(finalReplyText := m.text, hasFinalAnswer := true)
      else s
    else s
  }

  function Undecided(s: Inspection): Inspection {
    s.(completedTurnId := None, sawCompletedTurn := false, finalReplyText := None, hasFinalAnswer := false)
  }

  function InspectSummary(s: Inspection, summary: Summary): Inspection {
    match summary
    case ThreadSummary(threadId) => s.(threadId := threadId.Or(s.threadId))
    case MessageSummary(_, _, _, threadId, _) => InspectMessage(s.(threadId := threadId.Or(s.threadId)), summary)
    case TurnStartedSummary(turnId) => Undecided(s).(currentTurnId := turnId, latestAgentMessageText := None)
    case TurnCompletedSummary(turnId, status) =>
      if status.Some? && status.value != "" && status.value != "completed" then Undecided(s)
      else
        var s := s.(completedTurnId := turnId.Or(s.currentTurnId), sawCompletedTurn := true);
        if s.latestAgentMessageText.Some? then s.(finalReplyText := s.latestAgentMessageText, hasFinalAnswer := true) else s
    case TurnFailedSummary(_) => Undecided(s)
    case OtherSummary => s
  }

  function InspectLine(s: Inspection, line: LogLine): Inspection {
    if !line.Logged? then s
    else
      match SummarizeCodexExecEvent(line.primary, line.event).Or(SummarizeCodexEvent(line.event))
      case None => s
      case Some(summary) => InspectSummary(s, summary)
  }

  function Inspected(fallbackThreadId: Option<Id>, log: seq<LogLine>, n: nat): Inspection
    requires n <= |log|
  {
    if n == 0 then Uninspected(fallbackThreadId) else InspectLine(Inspected(fallbackThreadId, log, n - 1), log[n - 1])
  }

  /** The loop over the logged lines; a log that does not exist says nothing. */
  method InspectExecJsonRunLog(fallbackThreadId: Option<Id>, file: Option<seq<LogLine>>)
    returns (finalReplyText: Option<Answer>, hasFinalAnswer: bool, threadId: Option<Id>)
    ensures var log := file.Or(Some([])).value;
      var s := Inspected(fallbackThreadId, log, |log|);
      finalReplyText == s.finalReplyText && hasFinalAnswer == s.hasFinalAnswer && threadId == s.threadId
  {
    hide SummarizeCodexExecEvent, SummarizeCodexEvent;
    finalReplyText, hasFinalAnswer, threadId := None, false, fallbackThreadId;
    if file.None? {
      return;
    }
    var log := file.value;
    var currentTurnId: Option<Id>, completedTurnId: Option<Id>, sawCompletedTurn, latestAgentMessageText := None, None, false, None;
    for k := 0 to |log|
      invariant Inspected(fallbackThreadId, log, k)
             == Inspection(threadId, currentTurnId, completedTurnId, sawCompletedTurn, latestAgentMessageText, finalReplyText, hasFinalAnswer)
    {
      if !log[k].Logged? {
        continue;
      }
      var summary := SummarizeCodexExecEvent(log[k].primary, log[k].event).Or(SummarizeCodexEvent(log[k].event));
      if summary.None? {
        continue;
      }
      match summary.value
      case ThreadSummary(id) =>
        threadId := id.Or(threadId);
      case MessageSummary(text, phase, agentSource, id, turnId) =>
        threadId := id.Or(threadId);
        var sameCompletedTurn := turnId.None? || completedTurnId.None? || turnId == completedTurnId;
        if (agentSource || phase.FinalAnswer?) && text.Some? {
          latestAgentMessageText := text;
          if sawCompletedTurn && sameCompletedTurn && phase.FinalAnswer? {
            finalReplyText := text;
            hasFinalAnswer := true;
          }
        }
      case TurnStartedSummary(turnId) =>
        currentTurnId := turnId;
        completedTurnId, sawCompletedTurn, latestAgentMessageText, finalReplyText, hasFinalAnswer := None, false, None, None, false;
      case TurnCompletedSummary(turnId, status) =>
        if status.Some? && status.value != "" && status.value != "completed" {
          completedTurnId, sawCompletedTurn, finalReplyText, hasFinalAnswer := None, false, None, false;
          continue;
        }
        completedTurnId := turnId.Or(currentTurnId);
        sawCompletedTurn := true;
        if latestAgentMessageText.Some? {
          finalReplyText := latestAgentMessageText;
          hasFinalAnswer := true;
        }
      case TurnFailedSummary(_) =>
        completedTurnId, sawCompletedTurn, finalReplyText, hasFinalAnswer := None, false, None, false;
      case OtherSummary =>
    }
  }

  datatype RecoveryStatus = Completed | Interrupted | Failed

  function RecoveryStatusOf(s: Inspection): RecoveryStatus {
    if s.hasFinalAnswer then Completed else if s.threadId.Some? then Interrupted else Failed
  }

  // ---------------------------------------------------------------------
  // What a log says, told without either program
  // ---------------------------------------------------------------------

  predicate StartsTurn(line: LogLine) {
    line.Logged? && line.primary && line.event.TurnStarted?
  }

  predicate CompletesTurn(line: LogLine) {
    line.Logged? && line.primary && line.event.TurnCompleted?
  }

  predicate FailsTurn(line: LogLine) {
    line.Logged? && line.primary && line.event.TurnFailed?
  }

  predicate Speaks(line: LogLine) {
    line.Logged? && line.primary && line.event.AgentMessage? && line.event.completed && line.event.text.Some?
  }

  /** The last message of the agent in the turn that the first n lines end in. */
  function LastMessage(log: seq<LogLine>, n: nat): Option<Answer>
    requires n <= |log|
  {
    if n == 0 || StartsTurn(log[n - 1]) then None
    else if Speaks(log[n - 1]) then log[n - 1].event.text
    else LastMessage(log, n - 1)
  }

  /** Where that turn last completed or failed. */
  function LastTerminal(log: seq<LogLine>, n: nat): (k: Option<nat>)
    requires n <= |log|
    ensures k.Some? ==> k.value < n && (CompletesTurn(log[k.value]) || FailsTurn(log[k.value]))
  {
    if n == 0 || StartsTurn(log[n - 1]) then None
    else if CompletesTurn(log[n - 1]) || FailsTurn(log[n - 1]) then Some(n - 1)
    else LastTerminal(log, n - 1)
  }

  /** Where that turn first completed after a message. */
  function FirstAnswered(log: seq<LogLine>, n: nat): (k: Option<nat>)
    requires n <= |log|
    ensures k.Some? ==> k.value < n && CompletesTurn(log[k.value]) && LastMessage(log, k.value).Some?
  {
    if n == 0 || StartsTurn(log[n - 1]) then None
    else if FirstAnswered(log, n - 1).Some? then FirstAnswered(log, n - 1)
    else if CompletesTurn(log[n - 1]) && LastMessage(log, n - 1).Some? then Some(n - 1)
    else None
  }

  /** No event of a sub-agent that the crash-side summary takes for one of the run. */
  predicate Plain(log: seq<LogLine>) {
    forall k :: 0 <= k < |log| ==> Harmless(log[k])
  }

  predicate Harmless(line: LogLine) {
    !line.Logged? || line.primary
    || !(line.event.TurnStarted? || line.event.TurnCompleted?
         || (line.event.AgentMessage? && line.event.completed && line.event.phase.FinalAnswer? && line.event.text.Some?))
  }

  /** Each turn completes or fails at most once. */
  predicate WellBracketed(log: seq<LogLine>) {
    forall k :: 0 <= k < |log| && (CompletesTurn(log[k]) || FailsTurn(log[k])) ==> LastTerminal(log, k).None?
  }

  // ---------------------------------------------------------------------
  // Agreement
  // ---------------------------------------------------------------------

  function MessageAt(log: seq<LogLine>, k: Option<nat>): Option<Answer>
    requires k.Some? ==> k.value <= |log|
  {
    if k.None? then None else LastMessage(log, k.value)
  }

  /** The live processor announces the last message before the first completion that has one. */
  lemma {:induction false} LiveAnswerIsTheFirst(log: seq<LogLine>, n: nat)
    requires n <= |log|
    ensures Ingested(log, n).latestAgentMessageText == LastMessage(log, n)
    ensures Ingested(log, n).emittedFinalAnswer <==> FirstAnswered(log, n).Some?
    ensures Ingested(log, n).Answered() == MessageAt(log, FirstAnswered(log, n))
  {
    if n != 0 {
      LiveAnswerIsTheFirst(log, n - 1);
    }
  }

  function Recovered(log: seq<LogLine>, n: nat): Option<Answer>
    requires n <= |log|
  {
    var last := LastTerminal(log, n);
    if last.Some? && CompletesTurn(log[last.value]) then LastMessage(log, last.value) else None
  }

  lemma {:induction false} RecoveredIsAMessage(log: seq<LogLine>, n: nat)
    requires n <= |log| && LastMessage(log, n).None?
    ensures Recovered(log, n).None?
  {
    if n != 0 && !StartsTurn(log[n - 1]) {
      RecoveredIsAMessage(log, n - 1);
    }
  }

  lemma {:induction false} StepRecovers(s: Inspection, log: seq<LogLine>, n: nat)
    requires n < |log| && Harmless(log[n])
    requires s.latestAgentMessageText == LastMessage(log, n)
    requires s.finalReplyText == Recovered(log, n) && (s.hasFinalAnswer <==> s.finalReplyText.Some?)
    ensures var s' := InspectLine(s, log[n]);
      && s'.latestAgentMessageText == LastMessage(log, n + 1)
      && s'.finalReplyText == Recovered(log, n + 1)
      && (s'.hasFinalAnswer <==> s'.finalReplyText.Some?)
  {
    if LastMessage(log, n).None? {
      RecoveredIsAMessage(log, n);
    }
  }

  /** After a crash the answer is the last message before the last completion, if the turn
      did not fail after it. */
  lemma {:induction false} RecoveredAnswerIsTheLast(fallback: Option<Id>, log: seq<LogLine>, n: nat)
    requires n <= |log| && Plain(log)
    ensures var s := Inspected(fallback, log, n);
      && s.latestAgentMessageText == LastMessage(log, n)
      && s.finalReplyText == Recovered(log, n)
      && (s.hasFinalAnswer <==> s.finalReplyText.Some?)
  {
    hide InspectLine, Harmless;
    if n != 0 {
      RecoveredAnswerIsTheLast(fallback, log, n - 1);
      StepRecovers(Inspected(fallback, log, n - 1), log, n - 1);
    }
  }

  /** The two answers agree exactly when the live processor announced none, or the turn's
      last terminal event is a completion and the message before it is the announced one. */
  lemma AnswersAgreeExactly(fallback: Option<Id>, log: seq<LogLine>)
    requires Plain(log)
    ensures var first, last := FirstAnswered(log, |log|), LastTerminal(log, |log|);
      Inspected(fallback, log, |log|).finalReplyText == Ingested(log, |log|).Answered()
      <==> first.None? || (last.Some? && CompletesTurn(log[last.value]) && MessageAt(log, last) == MessageAt(log, first))
  {
    hide Ingested, Inspected, Plain;
    LiveAnswerIsTheFirst(log, |log|);
    RecoveredAnswerIsTheLast(fallback, log, |log|);
    AnsweredIsTerminal(log, |log|);
    if FirstAnswered(log, |log|).None? {
      UnansweredIsUnrecovered(log, |log|);
    }
  }

  lemma {:induction false} AnsweredIsTerminal(log: seq<LogLine>, n: nat)
    requires n <= |log|
    ensures FirstAnswered(log, n).Some? ==> LastTerminal(log, n).Some? && FirstAnswered(log, n).value <= LastTerminal(log, n).value
  {
    if n != 0 {
      AnsweredIsTerminal(log, n - 1);
    }
  }

  lemma {:induction false} UnansweredIsUnrecovered(log: seq<LogLine>, n: nat)
    requires n <= |log| && FirstAnswered(log, n).None?
    ensures Recovered(log, n).None?
  {
    if n != 0 && !StartsTurn(log[n - 1]) {
      UnansweredIsUnrecovered(log, n - 1);
    }
  }

  lemma {:induction false} BracketedTerminal(log: seq<LogLine>, n: nat)
    requires n <= |log| && WellBracketed(log)
    ensures FirstAnswered(log, n).Some? ==> FirstAnswered(log, n) == LastTerminal(log, n)
  {
    if n != 0 {
      BracketedTerminal(log, n - 1);
      AnsweredIsTerminal(log, n - 1);
    }
  }

  /** If each turn completes or fails at most once, the answer found after a crash is the
      one announced live. */
  lemma CrashFindsTheLiveAnswer(fallback: Option<Id>, log: seq<LogLine>)
    requires Plain(log) && WellBracketed(log)
    ensures var s := Inspected(fallback, log, |log|);
      && s.finalReplyText == Ingested(log, |log|).Answered()
      && (s.hasFinalAnswer <==> Ingested(log, |log|).emittedFinalAnswer)
  {
    hide Ingested, Inspected, Plain;
    AnswersAgreeExactly(fallback, log);
    BracketedTerminal(log, |log|);
    LiveAnswerIsTheFirst(log, |log|);
    RecoveredAnswerIsTheLast(fallback, log, |log|);
    if FirstAnswered(log, |log|).None? {
      UnansweredIsUnrecovered(log, |log|);
    }
  }

  /** A run is recovered as completed exactly when its last turn's last terminal event is a
      completion with a message before it in that turn. */
  lemma CompletedMeansAnswered(fallback: Option<Id>, log: seq<LogLine>)
    requires Plain(log)
    ensures var last := LastTerminal(log, |log|);
      RecoveryStatusOf(Inspected(fallback, log, |log|)).Completed?
      <==> last.Some? && CompletesTurn(log[last.value]) && LastMessage(log, last.value).Some?
  {
    hide Inspected, Plain;
    RecoveredAnswerIsTheLast(fallback, log, |log|);
  }

  // ---------------------------------------------------------------------
  // Threads and terminal flags
  // ---------------------------------------------------------------------

  /** The thread that a line names for the live processor, and for the crash side, which
      hears of threads also from sub-agents and from messages that it does not use. */
  function LiveThread(line: LogLine): Option<Id> {
    if line.Logged? && line.primary && line.event.ThreadStarted? then line.event.threadId else None
  }

  function NamedThread(line: LogLine): Option<Id> {
    if !line.Logged? then None
    else if line.event.ThreadStarted? then line.event.threadId
    else if line.event.AgentMessage? && line.event.completed && (!line.primary || line.event.text.None?) then line.event.threadId
    else None
  }

  /** The thread that the last of the first n lines to name one names. */
  function LastNamed(log: seq<LogLine>, n: nat, names: LogLine -> Option<Id>): Option<Id>
    requires n <= |log|
  {
    if n == 0 then None
    else if names(log[n - 1]).Some? then names(log[n - 1])
    else LastNamed(log, n - 1, names)
  }

  lemma StepNamesThread(live: Live, s: Inspection, line: LogLine)
    ensures Ingest(live, line).latestThreadId == if LiveThread(line).Some? then LiveThread(line) else live.latestThreadId
    ensures InspectLine(s, line).threadId == if NamedThread(line).Some? then NamedThread(line) else s.threadId
  {
  }

  /** Both sides know the thread that was named last; a run without an answer is recovered
      as interrupted exactly when a thread is known. */
  lemma {:induction false} ThreadIsTheLastNamed(fallback: Option<Id>, log: seq<LogLine>, n: nat)
    requires n <= |log|
    ensures Ingested(log, n).latestThreadId == LastNamed(log, n, LiveThread)
    ensures var s := Inspected(fallback, log, n);
      && s.threadId == (if LastNamed(log, n, NamedThread).Some? then LastNamed(log, n, NamedThread) else fallback)
      && (RecoveryStatusOf(s).Interrupted? <==> !s.hasFinalAnswer && (LastNamed(log, n, NamedThread).Some? || fallback.Some?))
  {
    hide Ingest, InspectLine, LiveThread, NamedThread;
    if n != 0 {
      ThreadIsTheLastNamed(fallback, log, n - 1);
      StepNamesThread(Ingested(log, n - 1), Inspected(fallback, log, n - 1), log[n - 1]);
    }
  }

  predicate BreaksStream(line: LogLine) {
    FailsTurn(line) || (line.Logged? && line.primary && line.event.StreamError?)
  }

  function MalformedIn(log: seq<LogLine>, n: nat): nat
    requires n <= |log|
  {
    if n == 0 then 0 else MalformedIn(log, n - 1) + if log[n - 1].Malformed? then 1 else 0
  }

  lemma StepFlags(s: Live, line: LogLine)
    ensures var s' := Ingest(s, line);
      && s'.sawTurnCompleted == (s.sawTurnCompleted || CompletesTurn(line))
      && s'.sawTurnFailed == (s.sawTurnFailed || FailsTurn(line))
      && s'.fatal == (s.fatal || BreaksStream(line))
      && s'.malformedLineCount == s.malformedLineCount + if line.Malformed? then 1 else 0
  {
  }

  /** The live flags tell which terminal events there were, and the count the broken lines. */
  lemma {:induction false} FlagsTellTheEvents(log: seq<LogLine>, n: nat)
    requires n <= |log|
    ensures var s := Ingested(log, n);
      && (s.sawTurnCompleted <==> exists k :: 0 <= k < n && CompletesTurn(log[k]))
      && (s.sawTurnFailed <==> exists k :: 0 <= k < n && FailsTurn(log[k]))
      && (s.fatal <==> exists k :: 0 <= k < n && BreaksStream(log[k]))
      && s.malformedLineCount == MalformedIn(log, n)
  {
    hide Ingest, CompletesTurn, FailsTurn, BreaksStream;
    if n != 0 {
      FlagsTellTheEvents(log, n - 1);
      StepFlags(Ingested(log, n - 1), log[n - 1]);
    }
  }

  // ---------------------------------------------------------------------
  // Where the two differ
  // ---------------------------------------------------------------------

  function Said(text: Answer): LogLine {
    Logged(true, AgentMessage(true, Some(text), Commentary, None, None))
  }

  const Done := Logged(true, TurnCompleted(None, None))

  /** A turn that completes again after it was answered: the two agree exactly when the
      agent's last words are the same at both completions. */
  lemma CompletedAgain(fallback: Option<Id>, log: seq<LogLine>)
    requires Plain(log) && log != [] && CompletesTurn(log[|log| - 1]) && FirstAnswered(log, |log| - 1).Some?
    ensures Inspected(fallback, log, |log|).finalReplyText == Ingested(log, |log|).Answered()
       <==> LastMessage(log, |log| - 1) == MessageAt(log, FirstAnswered(log, |log| - 1))
  {
    hide Ingested, Inspected, Plain;
    AnswersAgreeExactly(fallback, log);
  }

  /** Such a log: live, the first answer counts; after a crash, the second. */
  lemma SecondCompletionDiffers()
    ensures var log := [Said("one"), Done, Said("two"), Done];
      Ingested(log, 4).Answered() == Some("one") && Inspected(None, log, 4).finalReplyText == Some("two")
  {
    var log := [Said("one"), Done, Said("two"), Done];
    LiveAnswerIsTheFirst(log, 4);
    assert LastMessage(log, 1) == Some("one") && LastMessage(log, 3) == Some("two");
    assert FirstAnswered(log, 0).None? && FirstAnswered(log, 1).None? && FirstAnswered(log, 2) == Some(1) && FirstAnswered(log, 3) == Some(1);
    assert LastTerminal(log, 4) == Some(3);
    forall k | 0 <= k < |log| ensures Harmless(log[k]) {
    }
    RecoveredAnswerIsTheLast(None, log, 4);
  }

  /** A sub-agent that starts a turn after the run's answer hides it from the crash side. */
  lemma SubAgentTurnDiffers()
    ensures var log := [Said("one"), Done, Logged(false, TurnStarted(None))];
      Ingested(log, 3).Answered() == Some("one") && !Inspected(None, log, 3).hasFinalAnswer
  {
    var log := [Said("one"), Done, Logged(false, TurnStarted(None))];
    LiveAnswerIsTheFirst(log, 3);
    assert LastMessage(log, 1) == Some("one");
    assert FirstAnswered(log, 0).None? && FirstAnswered(log, 1).None? && FirstAnswered(log, 2) == Some(1);
  }
}
