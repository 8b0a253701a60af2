/** Deciding from rollout log lines how a run ended (src/pty-worker/codex-runner-recovery.js,
    src/pty-worker/codex-runner-lifecycle.js).

    Three paths read the log when the live connection is not to be trusted: the
    watcher, the follower after a disconnect, and the replay after a reconnect.
    They share one tracker of summaries already seen, so that each is shown once. */
module RolloutReplay {
  import opened Options
  import opened TokenUsage

  const FINAL_ANSWER := "final_answer"

  /** A parsed log line.  Blank ids, phases and reasons are None. */
  datatype RolloutEvent =
    | TaskStarted(turnId: Option<string>)
    | AgentMessage(message: string, phase: Option<string>)
    | TokenCount(usage: Usage)
    | TaskComplete(lastAgentMessage: string, turnId: Option<string>)
    | TurnAborted(turnId: Option<string>, reason: Option<string>)
    | OtherLine

  datatype EventType = AgentMessageSeen | TokenUsageUpdated | TaskCompleted | Aborted

  datatype Summary = Summary(
    eventType: EventType, text: string, messagePhase: Option<string>, threadId: Option<string>,
    turnId: Option<string>, usage: Option<Usage>, abortReason: Option<string>)

  /** What identifies a summary for the tracker; the abort reason is not part of it. */
  datatype Key = Key(
    eventType: EventType, text: string, messagePhase: Option<string>, threadId: Option<string>,
    turnId: Option<string>, usage: Option<Usage>)

  datatype Path = Watch | Follow | Replay

  datatype Verdict = RunCompleted(summary: Summary) | RunAborted(summary: Summary)

  /** A line as one path meets it, with whether the live connection has shown a final
      answer by then, and which keys the other paths remembered since the line before. */
  datatype Item = Item(event: RolloutEvent, hasFinalAnswer: bool, foreign: set<Key>)

  function SummarizeRolloutLine(e: RolloutEvent, thread: Option<string>, turn: Option<string>): Option<Summary> {
    match e
    case AgentMessage(message, phase) =>
      Some(Summary(AgentMessageSeen, message, phase, thread, None, None, None))
    case TokenCount(usage) =>
      Some(Summary(TokenUsageUpdated, "Codex token usage updated", None, thread, turn, Some(usage), None))
    case TaskComplete(last, turnId) =>
      Some(Summary(TaskCompleted, last, Some(FINAL_ANSWER), thread, turnId.Or(turn), None, None))
    case TurnAborted(turnId, reason) =>
      Some(Summary(Aborted, "Codex turn aborted", None, thread, turnId.Or(turn), None, reason))
    case _ => None
  }

  function ReplayKey(s: Summary): Key {
    Key(s.eventType, s.text, s.messagePhase, s.threadId, s.turnId, s.usage)
  }

  /** A terminal line of another turn than the current one. */
  predicate Superseded(path: Path, s: Summary, turn: Option<string>) {
    && (s.eventType == TaskCompleted || (s.eventType == Aborted && path != Watch))
    && turn.Some? && s.turnId.Some? && s.turnId != turn
  }

  predicate IsFinal(s: Summary) {
    s.eventType == TaskCompleted || s.messagePhase == Some(FINAL_ANSWER)
  }

  /** What a fresh summary says about the run. */
  function VerdictOf(s: Summary): Option<Verdict> {
    if s.eventType == Aborted then Some(RunAborted(s))
    else if IsFinal(s) then Some(RunCompleted(s))
    else None
  }

  predicate Emits(path: Path, hasFinalAnswer: bool, s: Summary) {
    match path
    case Watch => !hasFinalAnswer && s.text != ""
    case Follow => s.eventType != Aborted
    case Replay => true
  }

  /** The shared tracker, and the keys of the summaries the paths showed. */
  datatype Tracker = Tracker(seen: set<Key>, emitted: seq<Key>)

  /** Where one path stands: the turn it believes active, the verdict so far, and
      whether it has returned in the middle of its lines. */
  datatype Cursor = Cursor(turn: Option<string>, verdict: Option<Verdict>, stopped: bool)

  /** One line of one path. */
  function Step(path: Path, thread: Option<string>, c: Cursor, t: Tracker, item: Item): (Cursor, Tracker) {
    var t := t.(seen := t.seen + item.foreign);
    if c.stopped then (c, t)
    else if item.event.TaskStarted? then (Cursor(item.event.turnId.Or(c.turn), None, false), t)
    else
      var summary := SummarizeRolloutLine(item.event, thread, c.turn);
      if summary.None? || Superseded(path, summary.value, c.turn) || (path == Watch && !IsFinal(summary.value)) then (c, t)
      else
        var s, key := summary.value, ReplayKey(summary.value);
        if key in t.seen then (c, t)
        else
          (c.(verdict := VerdictOf(s).Or(c.verdict), stopped := path == Follow && s.eventType == Aborted),
           Tracker(t.seen + {key}, if Emits(path, item.hasFinalAnswer, s) then t.emitted + [key] else t.emitted))
  }

  /** A path reading lines, with the thread and the active turn it starts from. */
  datatype Reading = Reading(path: Path, thread: Option<string>, turn: Option<string>, items: seq<Item>)

  /** The first n lines of one path. */
  function Scan(r: Reading, t: Tracker, n: nat): (Cursor, Tracker)
    requires n <= |r.items|
  {
    if n == 0 then (Cursor(r.turn, None, false), t)
    else
      var (c', t') := Scan(r, t, n - 1);
      Step(r.path, r.thread, c', t', r.items[n - 1])
  }

  // ---------------------------------------------------------------------
  // The verdict, said without the scan
  // ---------------------------------------------------------------------

  /** The turn that is active when line i is read: that of the last task start before it. */
  function TurnAt(r: Reading, i: nat): Option<string>
    requires i <= |r.items|
  {
    if i == 0 then r.turn
    else if r.items[i - 1].event.TaskStarted? then r.items[i - 1].event.turnId.Or(TurnAt(r, i - 1))
    else TurnAt(r, i - 1)
  }

  function SummaryAt(r: Reading, i: nat): Option<Summary>
    requires i < |r.items|
  {
    SummarizeRolloutLine(r.items[i].event, r.thread, TurnAt(r, i))
  }

  /** Line i belongs to the current turn and is of a kind the path looks at. */
  predicate IsCandidate(r: Reading, i: nat)
    requires i < |r.items|
  {
    var s := SummaryAt(r, i);
    s.Some? && !Superseded(r.path, s.value, TurnAt(r, i)) && (r.path == Watch ==> IsFinal(s.value))
  }

  /** The keys that the tracker at the start, another path, or an earlier candidate
      line has made known before line i is looked up. */
  function KnownAt(r: Reading, seen: set<Key>, i: nat): set<Key>
    requires i <= |r.items|
  {
    var others := if i < |r.items| then r.items[i].foreign else {};
    if i == 0 then seen + others
    else KnownAt(r, seen, i - 1) + others
         + if IsCandidate(r, i - 1) then {ReplayKey(SummaryAt(r, i - 1).value)} else {}
  }

  /** Line i is a fresh line of the current turn that says how the run ended. */
  predicate Decides(r: Reading, seen: set<Key>, i: nat)
    requires i < |r.items|
  {
    && IsCandidate(r, i)
    && ReplayKey(SummaryAt(r, i).value) !in KnownAt(r, seen, i)
    && VerdictOf(SummaryAt(r, i).value).Some?
  }

  /** Line i is the last deciding line of the first n, and no task was started after it. */
  ghost predicate HasTheLastWord(r: Reading, seen: set<Key>, n: nat, i: nat)
    requires i < n <= |r.items|
  {
    && Decides(r, seen, i)
    && forall j :: i < j < n ==> !r.items[j].event.TaskStarted? && !Decides(r, seen, j)
  }

  lemma {:induction false} ScanState(r: Reading, t: Tracker, n: nat)
    requires n <= |r.items| && !Scan(r, t, n).0.stopped
    ensures var (c', t') := Scan(r, t, n);
            && c'.turn == TurnAt(r, n)
            && KnownAt(r, t.seen, n) == t'.seen + if n < |r.items| then r.items[n].foreign else {}
  {
    if n != 0 {
      ScanState(r, t, n - 1);
    }
  }

  /** The verdict is that of the last fresh, turn-matching terminal line after the last
      task start, and there is none if there is no such line. */
  lemma {:induction false} VerdictIsTheLastWord(r: Reading, t: Tracker, n: nat)
    requires n <= |r.items| && !Scan(r, t, n).0.stopped
    ensures var v := Scan(r, t, n).0.verdict;
            && (v.None? ==> forall i :: 0 <= i < n ==> !HasTheLastWord(r, t.seen, n, i))
            && (v.Some? ==> exists i :: 0 <= i < n && HasTheLastWord(r, t.seen, n, i)
                                        && v == VerdictOf(SummaryAt(r, i).value))
  {
    if n != 0 {
      VerdictIsTheLastWord(r, t, n - 1);
      ScanState(r, t, n - 1);
      var before, after := Scan(r, t, n - 1).0.verdict, Scan(r, t, n).0.verdict;
      if Decides(r, t.seen, n - 1) {
        assert HasTheLastWord(r, t.seen, n, n - 1);
      } else if before.Some? && !r.items[n - 1].event.TaskStarted? {
        var i :| 0 <= i < n - 1 && HasTheLastWord(r, t.seen, n - 1, i) && before == VerdictOf(SummaryAt(r, i).value);
        assert HasTheLastWord(r, t.seen, n, i);
      } else {
        forall i | 0 <= i < n ensures !HasTheLastWord(r, t.seen, n, i) {
          assert i < n - 1 && !r.items[n - 1].event.TaskStarted? ==> !HasTheLastWord(r, t.seen, n - 1, i);
        }
      }
    }
  }

  /** A line of a superseded turn never ends the run: the verdict's turn, when both are
      known, is the turn that is active after the last line. */
  lemma VerdictIsOfTheCurrentTurn(r: Reading, t: Tracker, n: nat)
    requires n <= |r.items| && !Scan(r, t, n).0.stopped
    requires Scan(r, t, n).0.verdict.Some?
    ensures var turn := Scan(r, t, n).0.verdict.value.summary.turnId;
            turn.None? || TurnAt(r, n).None? || turn == TurnAt(r, n)
  {
    VerdictIsTheLastWord(r, t, n);
    var v := Scan(r, t, n).0.verdict;
    var i :| 0 <= i < n && HasTheLastWord(r, t.seen, n, i) && v == VerdictOf(SummaryAt(r, i).value);
    TurnKept(r, i, n);
  }

  lemma {:induction false} TurnKept(r: Reading, i: nat, n: nat)
    requires i <= n <= |r.items| && forall j :: i <= j < n ==> !r.items[j].event.TaskStarted?
    ensures TurnAt(r, i) == TurnAt(r, n)
  {
    if i != n {
      TurnKept(r, i, n - 1);
    }
  }

  // ---------------------------------------------------------------------
  // The same, said of the lines themselves
  // ---------------------------------------------------------------------

  /** Which lines decide: a completion, or an abort that the path looks at, of a turn not
      known to be another than the active one, and a final answer; each only when it is new. */
  lemma DecidesByTheLine(r: Reading, seen: set<Key>, i: nat)
    requires i < |r.items|
    ensures Decides(r, seen, i) <==>
      && SummaryAt(r, i).Some? && ReplayKey(SummaryAt(r, i).value) !in KnownAt(r, seen, i)
      && match r.items[i].event
         case TaskComplete(_, turnId) => turnId.None? || TurnAt(r, i).None? || turnId == TurnAt(r, i)
         case TurnAborted(turnId, _) => r.path != Watch && (turnId.None? || TurnAt(r, i).None? || turnId == TurnAt(r, i))
         case AgentMessage(_, phase) => phase == Some("final_answer")
         case _ => false
  {
  }

  /** The verdict tells what its line says: a completion or a final answer with its own
      message, or an abort with its own reason; and a line that names another turn than the
      one active in the end never decides. */
  lemma VerdictTellsTheLine(r: Reading, t: Tracker, n: nat)
    requires n <= |r.items| && !Scan(r, t, n).0.stopped
    requires Scan(r, t, n).0.verdict.Some?
    ensures exists i :: 0 <= i < n && HasTheLastWord(r, t.seen, n, i)
              && IsToldBy(Scan(r, t, n).0.verdict.value, r.items[i].event, TurnAt(r, n))
  {
    hide Scan, SummarizeRolloutLine;
    VerdictIsTheLastWord(r, t, n);
    var v := Scan(r, t, n).0.verdict;
    var i :| 0 <= i < n && HasTheLastWord(r, t.seen, n, i) && v == VerdictOf(SummaryAt(r, i).value);
    DecidesByTheLine(r, t.seen, i);
    TurnKept(r, i, n);
    ToldByItsLine(r, i);
  }

  predicate IsToldBy(v: Verdict, e: RolloutEvent, turn: Option<string>) {
    match e
    case TaskComplete(message, turnId) =>
      v.RunCompleted? && v.summary.text == message && (turnId.Some? && turn.Some? ==> turnId == turn)
    case AgentMessage(message, phase) => v.RunCompleted? && v.summary.text == message && phase == Some("final_answer")
    case TurnAborted(turnId, reason) =>
      v.RunAborted? && v.summary.abortReason == reason && (turnId.Some? && turn.Some? ==> turnId == turn)
    case _ => false
  }

  lemma ToldByItsLine(r: Reading, i: nat)
    requires i < |r.items| && SummaryAt(r, i).Some? && VerdictOf(SummaryAt(r, i).value).Some?
    ensures var v := VerdictOf(SummaryAt(r, i).value).value;
      match r.items[i].event
      case TaskComplete(message, turnId) => v.RunCompleted? && v.summary.text == message && v.summary.turnId == turnId.Or(TurnAt(r, i))
      case AgentMessage(message, phase) => v.RunCompleted? && v.summary.text == message && phase == Some("final_answer")
      case TurnAborted(turnId, reason) => v.RunAborted? && v.summary.abortReason == reason && v.summary.turnId == turnId.Or(TurnAt(r, i))
      case _ => false
  {
  }

  /** Two lines of one thread have the same key exactly when they are of one kind and say
      the same, where a line without a turn id counts as one of the active turn; the reason
      of an abort, and the turn of a message, do not tell lines apart. */
  lemma SameKeyMeansSameLine(e1: RolloutEvent, e2: RolloutEvent, thread: Option<string>, turn1: Option<string>, turn2: Option<string>)
    requires SummarizeRolloutLine(e1, thread, turn1).Some? && SummarizeRolloutLine(e2, thread, turn2).Some?
    ensures ReplayKey(SummarizeRolloutLine(e1, thread, turn1).value) == ReplayKey(SummarizeRolloutLine(e2, thread, turn2).value)
      <==> match (e1, e2)
           case (AgentMessage(m1, p1), AgentMessage(m2, p2)) => m1 == m2 && p1 == p2
           case (TokenCount(u1), TokenCount(u2)) => u1 == u2 && turn1 == turn2
           case (TaskComplete(m1, t1), TaskComplete(m2, t2)) =>
             m1 == m2 && (if t1.Some? then t1 else turn1) == (if t2.Some? then t2 else turn2)
           case (TurnAborted(t1, _), TurnAborted(t2, _)) =>
             (if t1.Some? then t1 else turn1) == (if t2.Some? then t2 else turn2)
           case _ => false
  {
  }

  /** What is shown: the replay shows every fresh line that is not of another turn, the
      follower the same but for aborts, and the watcher only a final one that has a text,
      while the live connection has shown no final answer. */
  lemma FreshLinesAreShown(r: Reading, t: Tracker, n: nat)
    requires n < |r.items| && !Scan(r, t, n).0.stopped
    ensures var before, after, item := Scan(r, t, n).1, Scan(r, t, n + 1).1, r.items[n];
      var isNew := SummaryAt(r, n).Some? && ReplayKey(SummaryAt(r, n).value) !in KnownAt(r, t.seen, n);
      var ofTurn := (turnId: Option<string>) => turnId.None? || TurnAt(r, n).None? || turnId == TurnAt(r, n);
      var shown := isNew && match item.event
        case AgentMessage(message, phase) => r.path != Watch || (phase == Some("final_answer") && message != "" && !item.hasFinalAnswer)
        case TokenCount(_) => r.path != Watch
        case TaskComplete(message, turnId) => ofTurn(turnId) && (r.path != Watch || (message != "" && !item.hasFinalAnswer))
        case TurnAborted(turnId, _) => ofTurn(turnId) && r.path == Replay
        case _ => false;
      after.emitted == if shown then before.emitted + [ReplayKey(SummaryAt(r, n).value)] else before.emitted
  {
    ScanState(r, t, n);
  }

  predicate IsFreshAbort(r: Reading, seen: set<Key>, i: nat)
    requires i < |r.items|
  {
    Decides(r, seen, i) && SummaryAt(r, i).value.eventType == Aborted
  }

  /** The follower returns in the middle exactly at the first fresh abort of the turn
      that is then active, with that abort as the verdict. */
  lemma {:induction false} FollowerStopsAtTheFirstAbort(r: Reading, t: Tracker, n: nat)
    requires n <= |r.items| && r.path == Follow
    ensures var (c, t') := Scan(r, t, n);
            && (!c.stopped ==> forall i :: 0 <= i < n ==> !IsFreshAbort(r, t.seen, i))
            && (c.stopped ==> exists i :: 0 <= i < n && IsFreshAbort(r, t.seen, i)
                                && (forall j :: 0 <= j < i ==> !IsFreshAbort(r, t.seen, j))
                                && c.verdict == Some(RunAborted(SummaryAt(r, i).value)))
  {
    if n != 0 {
      FollowerStopsAtTheFirstAbort(r, t, n - 1);
      if !Scan(r, t, n - 1).0.stopped {
        ScanState(r, t, n - 1);
        if Scan(r, t, n).0.stopped {
          assert IsFreshAbort(r, t.seen, n - 1);
        }
      }
    }
  }

  // ---------------------------------------------------------------------
  // Each summary is shown at most once
  // ---------------------------------------------------------------------

  /** A step of the system: some path, in whatever state it is, reads one line. */
  datatype Action = Action(path: Path, thread: Option<string>, cursor: Cursor, item: Item)

  function Interleave(t: Tracker, actions: seq<Action>, n: nat): Tracker
    requires n <= |actions|
  {
    if n == 0 then t
    else
      var a := actions[n - 1];
      Step(a.path, a.thread, a.cursor, Interleave(t, actions, n - 1), a.item).1
  }

  ghost predicate ShownOnce(t: Tracker) {
    && (forall i :: 0 <= i < |t.emitted| ==> t.emitted[i] in t.seen)
    && (forall i, j :: 0 <= i < j < |t.emitted| ==> t.emitted[i] != t.emitted[j])
  }

  /** In any interleaving of watchers, followers and replays that share the tracker, no
      summary is shown twice, and none that the live connection had reported. */
  lemma {:induction false} EachSummaryIsShownOnce(t: Tracker, actions: seq<Action>, n: nat)
    requires n <= |actions| && ShownOnce(t)
    ensures var t' := Interleave(t, actions, n);
            && ShownOnce(t')
            && t.emitted <= t'.emitted && t.seen <= t'.seen
            && forall i :: |t.emitted| <= i < |t'.emitted| ==> t'.emitted[i] !in t.seen
  {
    if n != 0 {
      EachSummaryIsShownOnce(t, actions, n - 1);
    }
  }

  // ---------------------------------------------------------------------
  // The loops of the three paths
  // ---------------------------------------------------------------------

  class RolloutFallback {
    var seenSummaryKeys: set<Key>
    var emitted: seq<Key>  // the calls of onEvent made by the three paths

    function Shared(): Tracker
      reads this
    {
      Tracker(seenSummaryKeys, emitted)
    }

    constructor ()
      ensures Shared() == Tracker({}, [])
    {
      seenSummaryKeys, emitted := {}, [];
    }

    method RememberSummary(summary: Summary) returns (isNew: bool)
      modifies this`seenSummaryKeys
      ensures isNew == (ReplayKey(summary) !in old(seenSummaryKeys))
      ensures seenSummaryKeys == if isNew then old(seenSummaryKeys) + {ReplayKey(summary)} else old(seenSummaryKeys)
    {
      var replayKey := ReplayKey(summary);
      if replayKey in seenSummaryKeys {
        return false;
      }
      seenSummaryKeys := seenSummaryKeys + {replayKey};
      return true;
    }

    /** The loop of replayRolloutGapAfterReconnect over the lines it has read. */
    method ReplayRolloutGap(thread: Option<string>, activeTurnId: Option<string>, items: seq<Item>)
      returns (verdict: Option<Verdict>)
      modifies this
      ensures var r := Reading(Replay, thread, activeTurnId, items);
              (Scan(r, old(Shared()), |items|).0.verdict, Scan(r, old(Shared()), |items|).1) == (verdict, Shared())
    {
      var replayActiveTurnId := activeTurnId;
      verdict := None;
      ghost var r := Reading(Replay, thread, activeTurnId, items);
      for n := 0 to |items|
        invariant Scan(r, old(Shared()), n) == (Cursor(replayActiveTurnId, verdict, false), Shared())
      {
        seenSummaryKeys := seenSummaryKeys + items[n].foreign;
        var event := items[n].event;
        if event.TaskStarted? {
          verdict := None;
          replayActiveTurnId := event.turnId.Or(replayActiveTurnId);
          continue;
        }
        var summary := SummarizeRolloutLine(event, thread, replayActiveTurnId);
        if summary.None? {
          continue;
        }
        var s := summary.value;
        if (s.eventType == Aborted || s.eventType == TaskCompleted)
           && replayActiveTurnId.Some? && s.turnId.Some? && s.turnId != replayActiveTurnId {
          continue;
        }
        var isNew := RememberSummary(s);
        if !isNew {
          continue;
        }
        emitted := emitted + [ReplayKey(s)];
        if s.eventType == Aborted {
          verdict := Some(RunAborted(s));
          continue;
        }
        if s.messagePhase == Some(FINAL_ANSWER) {
          verdict := Some(RunCompleted(s));
        }
      }
    }

    /** The lines of one read of watchRolloutForTaskComplete. */
    method WatchDelta(thread: Option<string>, activeTurnId: Option<string>, items: seq<Item>)
      returns (verdict: Option<Verdict>)
      modifies this
      ensures var r := Reading(Watch, thread, activeTurnId, items);
              (Scan(r, old(Shared()), |items|).0.verdict, Scan(r, old(Shared()), |items|).1) == (verdict, Shared())
    {
      var currentActiveTurnId := activeTurnId;
      verdict := None;
      ghost var r := Reading(Watch, thread, activeTurnId, items);
      for n := 0 to |items|
        invariant Scan(r, old(Shared()), n) == (Cursor(currentActiveTurnId, verdict, false), Shared())
      {
        seenSummaryKeys := seenSummaryKeys + items[n].foreign;
        var event := items[n].event;
        if event.TaskStarted? {
          verdict := None;
          currentActiveTurnId := event.turnId.Or(currentActiveTurnId);
          continue;
        }
        var summary := SummarizeRolloutLine(event, thread, currentActiveTurnId);
        if summary.Some? && summary.value.eventType == TaskCompleted
           && currentActiveTurnId.Some? && summary.value.turnId.Some? && summary.value.turnId != currentActiveTurnId {
          continue;
        }
        var isTerminalSummary := summary.Some?
          && (summary.value.eventType == TaskCompleted || summary.value.messagePhase == Some(FINAL_ANSWER));
        if !isTerminalSummary {
          continue;
        }
        var shouldEmit := !items[n].hasFinalAnswer;
        var isNew := RememberSummary(summary.value);
        if !isNew {
          continue;
        }
        verdict := Some(RunCompleted(summary.value));
        if shouldEmit && summary.value.text != "" {
          emitted := emitted + [ReplayKey(summary.value)];
        }
      }
    }

    /** The lines of one read of followRolloutAfterDisconnect, those up to the replay
        floor already dropped; an abort returns in the middle. */
    method FollowDelta(thread: Option<string>, activeTurnId: Option<string>, items: seq<Item>)
      returns (verdict: Option<Verdict>, linesRead: nat)
      modifies this
      ensures linesRead <= |items|
      ensures var r := Reading(Follow, thread, activeTurnId, items);
              && Scan(r, old(Shared()), linesRead).0.verdict == verdict
              && Scan(r, old(Shared()), linesRead).1 == Shared()
              && (linesRead < |items| ==> Scan(r, old(Shared()), linesRead).0.stopped)
    {
      var currentActiveTurnId := activeTurnId;
      verdict := None;
      ghost var r := Reading(Follow, thread, activeTurnId, items);
      for n := 0 to |items|
        invariant Scan(r, old(Shared()), n) == (Cursor(currentActiveTurnId, verdict, false), Shared())
      {
        seenSummaryKeys := seenSummaryKeys + items[n].foreign;
        var event := items[n].event;
        if event.TaskStarted? {
          verdict := None;
          currentActiveTurnId := event.turnId.Or(currentActiveTurnId);
          continue;
        }
        var summary := SummarizeRolloutLine(event, thread, currentActiveTurnId);
        if summary.None? {
          continue;
        }
        var s := summary.value;
        if (s.eventType == TaskCompleted || s.eventType == Aborted)
           && currentActiveTurnId.Some? && s.turnId.Some? && s.turnId != currentActiveTurnId {
          continue;
        }
        var isNew := RememberSummary(s);
        if !isNew {
          continue;
        }
        if s.eventType == Aborted {
          return Some(RunAborted(s)), n + 1;
        }
        emitted := emitted + [ReplayKey(s)];
        if s.messagePhase == Some(FINAL_ANSWER) {
          verdict := Some(RunCompleted(s));
        }
      }
      linesRead := |items|;
    }
  }
}
