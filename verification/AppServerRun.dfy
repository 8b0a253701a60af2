/** How an app-server-v2 run is settled (src/app-server-v2/notifications.js,
    app-server-v2-runner.js, goal-continuation.js, thread-state.js).

    Notifications are handled one after the other on a promise chain.  A handler
    yields while it mirrors and reports an event and while it sets a goal; between
    two yields a callback runs to completion, and that is one step here. */
module AppServerRun {
  import opened Options

  type Id = string

  datatype TurnStatus = Absent | Completed | Failed | Interrupted | OtherStatus

  /** A notification, with the thread id that its summary or its params name. */
  datatype Notification =
    | TurnStarted(threadId: Option<Id>, turnId: Option<Id>)
    | TurnCompleted(threadId: Option<Id>, status: TurnStatus)
    | FinalAnswer(threadId: Option<Id>)
    | ThreadStarted(threadId: Option<Id>)
    | ErrorSeen(threadId: Option<Id>, willRetry: bool)
    | Summarized(threadId: Option<Id>)
    | Unsummarized(threadId: Option<Id>)

  datatype Outcome = Ok | NotOk(abortReason: string) | Rejected

  /** A link of the notification chain. */
  datatype Link = Handle(notification: Notification) | CheckTransportLoss(abortReason: string)

  datatype Handler = Idle | InCallbacks(notification: Notification, primary: bool) | SettingGoal

  /** Whether the run is settled, and the timers that can settle it. */
  datatype Core = Core(
    settled: bool,
    shuttingDown: bool,
    resolutions: seq<Outcome>,
    completionTimer: bool,
    goalTimer: bool)

  /** What the run knows about its thread and turn. */
  datatype Turn = Turn(
    goalStart: bool,
    latestThreadId: Option<Id>,
    primaryThreadId: Option<Id>,
    activeTurnId: Option<Id>,
    interruptRequested: bool,
    goalSetAfterMaterialization: bool,
    sawPrimaryFinalAnswer: bool,
    terminalTurnObserved: bool)

  /** An error of the child's streams closes the client, but lines go on coming until
      its stdout ends. */
  datatype Transport = Open | ClientClosed | StdoutEnded

  datatype State = State(core: Core, turn: Turn, transport: Transport, chain: seq<Link>, handler: Handler)

  function Initial(goalStart: bool, sessionThreadId: Option<Id>): State {
    State(Core(false, false, [], false, false),
          Turn(goalStart, sessionThreadId, sessionThreadId, None, false, false, false, false), Open, [], Idle)
  }

  // ---------------------------------------------------------------------
  // The pieces of the source
  // ---------------------------------------------------------------------

  function Finish(c: Core, outcome: Outcome): Core {
    if c.settled then c
    else Core(true, true, c.resolutions + [outcome], false, false)
  }

  /** Rejecting leaves a completion timer armed, unlike Finish. */
  function Fail(c: Core): Core {
    if c.settled then c
    else c.(settled := true, shuttingDown := true, goalTimer := false, resolutions := c.resolutions + [Rejected])
  }

  predicate IsPrimary(t: Turn, threadId: Option<Id>) {
    threadId.None? || t.primaryThreadId.None? || threadId == t.primaryThreadId
  }

  /** The first event that names a thread decides which one is the primary thread. */
  function AdoptThread(t: Turn, threadId: Option<Id>): Turn {
    if threadId.Some? && t.primaryThreadId.None? then t.(primaryThreadId := threadId, latestThreadId := threadId) else t
  }

  function MarkTerminalTurnObserved(t: Turn, n: Notification): Turn {
    if !n.TurnCompleted? then t
    else
      var t' := AdoptThread(t, n.threadId);
      if IsPrimary(t, n.threadId) then t'.(terminalTurnObserved := true, activeTurnId := None) else t'
  }

  function ScheduleCompletedTurnFinish(c: Core, t: Turn): Core {
    if t.sawPrimaryFinalAnswer && !t.goalStart then Finish(c, Ok) else c.(completionTimer := true)
  }

  /** setGoalAndWaitForContinuation up to its request; without a thread it throws first. */
  function SetGoal(t: Turn): Turn {
    if t.latestThreadId.None? then t else t.(terminalTurnObserved := false, sawPrimaryFinalAnswer := false)
  }

  function ScheduleGoalTimeout(c: Core, t: Turn): Core {
    if t.latestThreadId.None? || !t.goalStart || t.activeTurnId.Some? then c else c.(goalTimer := true)
  }

  predicate HasSummary(n: Notification) {
    !n.Unsummarized? && !n.ErrorSeen?
  }

  predicate BeginsTurn(n: Notification, primary: bool) {
    n.TurnStarted? && n.turnId.Some? && primary
  }

  function BeginTurn(t: Turn, n: Notification): Turn {
    var primary := IsPrimary(t, n.threadId);
    var t := AdoptThread(t, n.threadId);
    var t := if HasSummary(n) && n.threadId.Some? && primary then t.(latestThreadId := n.threadId) else t;
    if BeginsTurn(n, primary) then t.(sawPrimaryFinalAnswer := false, terminalTurnObserved := false, activeTurnId := n.turnId)
    else if n.FinalAnswer? && primary then t.(sawPrimaryFinalAnswer := true)
    else t
  }

  function BeginCore(c: Core, n: Notification, primary: bool): Core {
    if BeginsTurn(n, primary) then c.(completionTimer := false, goalTimer := false) else c
  }

  predicate CompletesTurn(n: Notification, primary: bool) {
    n.TurnCompleted? && primary && (n.status == Completed || n.status == Absent)
  }

  function CompleteTurn(t: Turn, n: Notification, primary: bool): Turn {
    if !n.TurnCompleted? || !primary then t
    else
      var t := t.(terminalTurnObserved := true, activeTurnId := None);
      if CompletesTurn(n, primary) && t.goalSetAfterMaterialization then SetGoal(t.(goalSetAfterMaterialization := false)) else t
  }

  function CompleteCore(c: Core, t: Turn, n: Notification, primary: bool): Core {
    if n.ErrorSeen? && primary then
      if n.willRetry then c else Finish(c, NotOk("error_notification"))
    else if !n.TurnCompleted? || !primary then c
    else
      match n.status
      case Failed => Finish(c, NotOk("turn_failed"))
      case Interrupted => Finish(c, NotOk("interrupted"))
      case OtherStatus => c
      case _ =>
        if t.goalSetAfterMaterialization then ScheduleGoalTimeout(c, t.(activeTurnId := None))
        else ScheduleCompletedTurnFinish(c, t)
  }

  /** The rest of a handler, after its callbacks. */
  function Complete(s: State, n: Notification, primary: bool): State {
    s.(core := CompleteCore(s.core, s.turn, n, primary),
       turn := CompleteTurn(s.turn, n, primary),
       handler := if CompletesTurn(n, primary) && s.turn.goalSetAfterMaterialization && s.turn.latestThreadId.Some?
                  then SettingGoal else Idle)
  }

  /** A handler up to its first yield; an event without a summary has none. */
  function Begin(s: State, n: Notification): State {
    var primary := IsPrimary(s.turn, n.threadId);
    var s := s.(core := BeginCore(s.core, n, primary), turn := BeginTurn(s.turn, n));
    if HasSummary(n) then s.(handler := InCallbacks(n, primary)) else Complete(s, n, primary)
  }

  /** The callback of a transport loss, once the chain has reached it. */
  function CheckLoss(c: Core, abortReason: string): Core {
    if c.settled || c.shuttingDown || c.completionTimer then c else Finish(c, NotOk(abortReason))
  }

  // ---------------------------------------------------------------------
  // Steps
  // ---------------------------------------------------------------------

  /** Learned is what the responses of startup, steering and thread refresh assign. */
  datatype Event =
    | Arrives(notification: Notification)
    | ChainAdvances
    | CallbacksReturn
    | GoalSetReturns(ok: bool)
    | CompletionTimerFires
    | GoalTimerFires
    | StreamErrs(abortReason: string)
    | StdoutEnds(abortReason: string)
    | ChildCloses(abortReason: string)
    | ChildErrs
    | StartupFails(recoverable: bool)
    | StartupSetsGoal
    | StartupGoalFails
    | StartupDefersGoal
    | InterruptRequested
    | Learned(activeTurnId: Option<Id>, latestThreadId: Option<Id>, primaryThreadId: Option<Id>)

  predicate Enabled(s: State, e: Event) {
    match e
    case Arrives(_) => !s.transport.StdoutEnded?
    case ChainAdvances => s.handler.Idle? && s.chain != []
    case CallbacksReturn => s.handler.InCallbacks?
    case GoalSetReturns(_) => s.handler.SettingGoal?
    case CompletionTimerFires => s.core.completionTimer
    case GoalTimerFires => s.core.goalTimer
    case StdoutEnds(_) => !s.transport.StdoutEnded?
    case _ => true
  }

  function AdvanceChain(s: State): State
    requires s.handler.Idle? && s.chain != []
  {
    var s' := s.(chain := s.chain[1..]);
    match s.chain[0]
    case Handle(n) => Begin(s', n)
    case CheckTransportLoss(abortReason) => s'.(core := CheckLoss(s.core, abortReason))
  }

  function FireGoalTimer(c: Core, t: Turn): Core {
    var c := c.(goalTimer := false);
    if c.settled || c.shuttingDown || t.activeTurnId.Some? then c else Finish(c, NotOk("goal_continuation_not_started"))
  }

  function FailStartup(c: Core, t: Turn, recoverable: bool): Core {
    if t.interruptRequested then Finish(c, NotOk("interrupted"))
    else if recoverable then Finish(c, NotOk("control_rpc_failed"))
    else Fail(c)
  }

  function WatchForLoss(s: State, abortReason: string): State {
    if s.core.shuttingDown || s.core.settled then s else s.(chain := s.chain + [CheckTransportLoss(abortReason)])
  }

  /** The client closes at the first of the two, and only then reports it. */
  function CloseClient(s: State, abortReason: string): State {
    if s.transport.Open? then WatchForLoss(s, abortReason).(transport := ClientClosed) else s
  }

  function Step(s: State, e: Event): State
    requires Enabled(s, e)
  {
    match e
    case Arrives(n) => s.(turn := MarkTerminalTurnObserved(s.turn, n), chain := s.chain + [Handle(n)])
    case ChainAdvances => AdvanceChain(s)
    case CallbacksReturn => Complete(s, s.handler.notification, s.handler.primary)
    case GoalSetReturns(ok) => s.(handler := Idle, core := s.core.(goalTimer := s.core.goalTimer && ok))
    case CompletionTimerFires => s.(core := Finish(s.core.(completionTimer := false), Ok))
    case GoalTimerFires => s.(core := FireGoalTimer(s.core, s.turn))
    case StreamErrs(abortReason) => CloseClient(s, abortReason)
    case StdoutEnds(abortReason) => CloseClient(s, abortReason).(transport := StdoutEnded)
    case ChildCloses(abortReason) => WatchForLoss(s, abortReason)
    case ChildErrs => s.(core := Fail(s.core))
    case StartupFails(recoverable) => s.(core := FailStartup(s.core, s.turn, recoverable))
    case StartupSetsGoal => s.(turn := SetGoal(s.turn), core := ScheduleGoalTimeout(s.core, s.turn))
    case StartupGoalFails => s.(core := s.core.(goalTimer := false))
    case StartupDefersGoal => s.(turn := s.turn.(goalSetAfterMaterialization := true))
    case InterruptRequested => s.(turn := s.turn.(interruptRequested := true))
    case Learned(activeTurnId, latestThreadId, primaryThreadId) =>
      s.(turn := s.turn.(activeTurnId := activeTurnId, latestThreadId := latestThreadId, primaryThreadId := primaryThreadId))
  }

  // ---------------------------------------------------------------------
  // The runner, whose callbacks update one shared state in place
  // ---------------------------------------------------------------------

  class Runner {
    var core: Core
    var turn: Turn
    var transport: Transport
    var notificationChain: seq<Link>
    var handler: Handler

    function Now(): State
      reads this
    {
      State(core, turn, transport, notificationChain, handler)
    }

    constructor (goalStart: bool, sessionThreadId: Option<Id>)
      ensures Now() == Initial(goalStart, sessionThreadId)
    {
      core := Core(false, false, [], false, false);
      turn := Turn(goalStart, sessionThreadId, sessionThreadId, None, false, false, false, false);
      transport, notificationChain, handler := Open, [], Idle;
    }

    method FinishRun(outcome: Outcome)
      modifies `core
      ensures core == Finish(old(core), outcome)
    {
      if core.settled {
        return;
      }
      core := core.(settled := true, shuttingDown := true);
      if core.completionTimer {
        core := core.(completionTimer := false);
      }
      core := core.(goalTimer := false);
      core := core.(resolutions := core.resolutions + [outcome]);
    }

    method FailRun()
      modifies `core
      ensures core == Fail(old(core))
    {
      if core.settled {
        return;
      }
      core := core.(settled := true, shuttingDown := true);
      core := core.(goalTimer := false);
      core := core.(resolutions := core.resolutions + [Rejected]);
    }

    method IsPrimaryThreadEvent(threadId: Option<Id>) returns (primary: bool)
      modifies `turn
      ensures primary == IsPrimary(old(turn), threadId) && turn == AdoptThread(old(turn), threadId)
    {
      if threadId.None? {
        return true;
      }
      if turn.primaryThreadId.None? {
        turn := turn.(primaryThreadId := threadId);
        turn := turn.(latestThreadId := threadId);
        return true;
      }
      return threadId == turn.primaryThreadId;
    }

    /** The client's onNotification callback. */
    method OnNotification(n: Notification)
      requires !transport.StdoutEnded?
      modifies this
      ensures Now() == Step(old(Now()), Arrives(n))
    {
      if n.TurnCompleted? {
        var primary := IsPrimaryThreadEvent(n.threadId);
        if primary {
          turn := turn.(terminalTurnObserved := true, activeTurnId := None);
        }
      }
      notificationChain := notificationChain + [Handle(n)];
    }

    /** The next link of the chain runs: a handler up to its first yield, or the
        callback of a transport loss. */
    method AdvanceNotificationChain()
      requires handler.Idle? && notificationChain != []
      modifies this
      ensures Now() == Step(old(Now()), ChainAdvances)
    {
      hide BeginTurn, BeginCore, CompleteCore, CompleteTurn;
      var link := notificationChain[0];
      notificationChain := notificationChain[1..];
      if link.CheckTransportLoss? {
        if core.settled || core.shuttingDown || core.completionTimer {
          return;
        }
        FinishRun(NotOk(link.abortReason));
        return;
      }
      var n := link.notification;
      var primary := BeginNotification(n);
      if HasSummary(n) {
        handler := InCallbacks(n, primary);
      } else {
        CompleteNotification(n, primary);
      }
    }

    /** handleNotification before its awaits. */
    method BeginNotification(n: Notification) returns (primary: bool)
      modifies `turn, `core
      ensures primary == IsPrimary(old(turn), n.threadId)
      ensures turn == BeginTurn(old(turn), n) && core == BeginCore(old(core), n, primary)
    {
      primary := IsPrimaryThreadEvent(n.threadId);
      if HasSummary(n) && n.threadId.Some? && primary {
        turn := turn.(latestThreadId := n.threadId);
      }
      if n.TurnStarted? && n.turnId.Some? && primary {
        core := core.(completionTimer := false, goalTimer := false);
        turn := turn.(sawPrimaryFinalAnswer := false, terminalTurnObserved := false);
        turn := turn.(activeTurnId := n.turnId);
      }
      if n.FinalAnswer? && primary {
        turn := turn.(sawPrimaryFinalAnswer := true);
      }
    }

    /** handleNotification after its awaits. */
    method CompleteNotification(n: Notification, primary: bool)
      modifies `core, `turn, `handler
      ensures Now() == Complete(old(Now()), n, primary)
    {
      handler := Idle;
      if n.ErrorSeen? && primary {
        if n.willRetry {
          return;
        }
        FinishRun(NotOk("error_notification"));
        return;
      }
      if !n.TurnCompleted? || !primary {
        return;
      }
      turn := turn.(terminalTurnObserved := true, activeTurnId := None);
      if n.status == Failed {
        FinishRun(NotOk("turn_failed"));
        return;
      }
      if n.status == Interrupted {
        FinishRun(NotOk("interrupted"));
        return;
      }
      if n.status == Completed || n.status == Absent {
        if turn.goalSetAfterMaterialization {
          turn := turn.(goalSetAfterMaterialization := false);
          handler := if turn.latestThreadId.Some? then SettingGoal else Idle;
          SetGoalAndWaitForContinuation();
          return;
        }
        ScheduleFinishOfCompletedTurn();
      }
    }

    method ScheduleFinishOfCompletedTurn()
      modifies `core
      ensures core == ScheduleCompletedTurnFinish(old(core), turn)
    {
      if turn.sawPrimaryFinalAnswer && !turn.goalStart {
        FinishRun(Ok);
        return;
      }
      if core.completionTimer {
        return;
      }
      core := core.(completionTimer := true);
    }

    method SetGoalAndWaitForContinuation()
      modifies `core, `turn
      ensures turn == SetGoal(old(turn)) && core == ScheduleGoalTimeout(old(core), old(turn))
    {
      if turn.latestThreadId.None? {
        return;
      }
      turn := turn.(terminalTurnObserved := false, sawPrimaryFinalAnswer := false);
      if !turn.goalStart || turn.activeTurnId.Some? || core.goalTimer {
        return;
      }
      core := core.(goalTimer := true);
    }

    method OnGoalSetReturn(ok: bool)
      requires handler.SettingGoal?
      modifies this
      ensures Now() == Step(old(Now()), GoalSetReturns(ok))
    {
      if !ok {
        core := core.(goalTimer := false);
      }
      handler := Idle;
    }

    method OnCompletionTimer()
      requires core.completionTimer
      modifies this
      ensures Now() == Step(old(Now()), CompletionTimerFires)
    {
      core := core.(completionTimer := false);
      FinishRun(Ok);
    }

    method OnGoalTimer()
      requires core.goalTimer
      modifies this
      ensures Now() == Step(old(Now()), GoalTimerFires)
    {
      core := core.(goalTimer := false);
      if core.settled || core.shuttingDown || turn.activeTurnId.Some? {
        return;
      }
      FinishRun(NotOk("goal_continuation_not_started"));
    }

    method OnStreamError(abortReason: string)
      modifies this
      ensures Now() == Step(old(Now()), StreamErrs(abortReason))
    {
      if !transport.Open? {
        return;
      }
      transport := ClientClosed;
      OnChildClose(abortReason);
    }

    method OnStdoutEnd(abortReason: string)
      requires !transport.StdoutEnded?
      modifies this
      ensures Now() == Step(old(Now()), StdoutEnds(abortReason))
    {
      OnStreamError(abortReason);
      transport := StdoutEnded;
    }

    method OnChildClose(abortReason: string)
      modifies this
      ensures Now() == Step(old(Now()), ChildCloses(abortReason))
    {
      if core.settled || core.shuttingDown {
        return;
      }
      notificationChain := notificationChain + [CheckTransportLoss(abortReason)];
    }

    method OnStartupError(recoverable: bool)
      modifies this
      ensures Now() == Step(old(Now()), StartupFails(recoverable))
    {
      if turn.interruptRequested {
        FinishRun(NotOk("interrupted"));
        return;
      }
      if recoverable {
        FinishRun(NotOk("control_rpc_failed"));
        return;
      }
      FailRun();
    }
  }

  // ---------------------------------------------------------------------
  // Runs, and what their steps do
  // ---------------------------------------------------------------------

  /** A run: the steps taken, and how it started. */
  datatype Trace = Trace(events: seq<Event>, goalStart: bool, sessionThreadId: Option<Id>)

  ghost predicate Run(r: Trace, n: nat)
    requires n <= |r.events|
  {
    n == 0 || (Run(r, n - 1) && Enabled(After(r, n - 1), r.events[n - 1]))
  }

  /** The state after n steps. */
  ghost function After(r: Trace, n: nat): State
    requires n <= |r.events|
  {
    if n == 0 then Initial(r.goalStart, r.sessionThreadId)
    else
      var s := After(r, n - 1);
      if Enabled(s, r.events[n - 1]) then Step(s, r.events[n - 1]) else s
  }

  /** The notification is about the primary thread: it names no thread, or that one, or it
      is the first to name one. */
  predicate AboutPrimary(n: Notification, primaryThreadId: Option<Id>) {
    n.threadId.Some? && primaryThreadId.Some? ==> n.threadId.value == primaryThreadId.value
  }

  /** A primary turn/started that carries a turn id is handled. */
  predicate Begins(s: State, e: Event) {
    && e.ChainAdvances? && s.handler.Idle? && s.chain != [] && s.chain[0].Handle?
    && s.chain[0].notification.TurnStarted? && s.chain[0].notification.turnId.Some?
    && AboutPrimary(s.chain[0].notification, s.turn.primaryThreadId)
  }

  /** A primary turn/completed with completed or absent status is handled. */
  predicate Completes(s: State, e: Event) {
    e.CallbacksReturn? && s.handler.InCallbacks? && CompletesTurn(s.handler.notification, s.handler.primary)
  }

  /** Such a completion, with no goal left to set for it. */
  predicate CompletesForGood(s: State, e: Event) {
    Completes(s, e) && !s.turn.goalSetAfterMaterialization
  }

  /** A transport loss is looked at. */
  predicate Checks(s: State, e: Event) {
    e.ChainAdvances? && s.handler.Idle? && s.chain != [] && s.chain[0].CheckTransportLoss?
  }

  /** Among the first n steps, a turn was completed, and none was begun since. */
  ghost predicate TurnIsDone(r: Trace, n: nat)
    requires n <= |r.events|
  {
    exists k :: 0 <= k < n && Completes(After(r, k), r.events[k]) && forall j :: k < j < n ==> !Begins(After(r, j), r.events[j])
  }

  /** Among the first n steps, a turn was begun, and since then no turn was completed for
      good and no transport loss looked at. */
  ghost predicate TurnIsOpen(r: Trace, n: nat)
    requires n <= |r.events|
  {
    exists k :: 0 <= k < n && Begins(After(r, k), r.events[k])
                && forall j :: k < j < n ==> !CompletesForGood(After(r, j), r.events[j]) && !Checks(After(r, j), r.events[j])
  }

  lemma TurnIsDoneStep(r: Trace, n: nat)
    requires n < |r.events|
    ensures TurnIsDone(r, n + 1)
       <==> Completes(After(r, n), r.events[n]) || (TurnIsDone(r, n) && !Begins(After(r, n), r.events[n]))
  {
    hide After, Completes, Begins;
    if TurnIsDone(r, n) && !Begins(After(r, n), r.events[n]) {
      var k :| 0 <= k < n && Completes(After(r, k), r.events[k]) && forall j :: k < j < n ==> !Begins(After(r, j), r.events[j]);
      assert forall j :: k < j < n + 1 ==> !Begins(After(r, j), r.events[j]);
    }
  }

  lemma TurnIsOpenStep(r: Trace, n: nat)
    requires n < |r.events|
    ensures TurnIsOpen(r, n + 1)
       <==> Begins(After(r, n), r.events[n])
            || (TurnIsOpen(r, n) && !CompletesForGood(After(r, n), r.events[n]) && !Checks(After(r, n), r.events[n]))
  {
    hide After, CompletesForGood, Begins, Checks;
    if TurnIsOpen(r, n) && !CompletesForGood(After(r, n), r.events[n]) && !Checks(After(r, n), r.events[n]) {
      var k :| 0 <= k < n && Begins(After(r, k), r.events[k])
               && forall j :: k < j < n ==> !CompletesForGood(After(r, j), r.events[j]) && !Checks(After(r, j), r.events[j]);
      assert forall j :: k < j < n + 1 ==> !CompletesForGood(After(r, j), r.events[j]) && !Checks(After(r, j), r.events[j]);
    }
  }

  // ---------------------------------------------------------------------
  // Settlement
  // ---------------------------------------------------------------------

  /** The run is settled at most once. */
  ghost predicate SettledOnce(c: Core) {
    c.shuttingDown == c.settled && |c.resolutions| == (if c.settled then 1 else 0)
  }

  /** What a step does to the part of the state that settlement is about. */
  lemma StepSettles(s: State, e: Event)
    requires SettledOnce(s.core) && Enabled(s, e)
    ensures var c, c' := s.core, Step(s, e).core;
      && SettledOnce(c')
      && (c.settled ==> c'.settled && c'.resolutions == c.resolutions)
      && (Ok in c'.resolutions ==> Ok in c.resolutions || Completes(s, e) || (e.CompletionTimerFires? && c.completionTimer))
      && (c'.completionTimer ==> CompletesForGood(s, e) || (c.completionTimer && !Begins(s, e)))
      && (c.completionTimer && !Begins(s, e) ==> c'.settled || c'.completionTimer)
      && (CompletesForGood(s, e) || Checks(s, e) ==> c'.settled || c'.completionTimer)
  {
    hide CompleteTurn, BeginTurn;
  }

  /** The settlement of the run with ok happens in step m: only after a primary turn was
      completed, with no primary turn begun between that and the settlement. */
  ghost predicate OkIsEarned(r: Trace, n: nat)
    requires n <= |r.events|
  {
    Ok in After(r, n).core.resolutions ==>
      exists m :: 0 <= m < n && Ok !in After(r, m).core.resolutions && Ok in After(r, m + 1).core.resolutions && TurnIsDone(r, m + 1)
  }

  /** In every run: at most one settlement, and an ok one only after a turn of the
      primary thread was completed and before any other turn began; an armed completion
      timer stands for such a turn. */
  lemma {:induction false} SettlementIsSound(r: Trace, n: nat)
    requires n <= |r.events| && Run(r, n)
    ensures SettledOnce(After(r, n).core) && OkIsEarned(r, n)
    ensures After(r, n).core.completionTimer ==> TurnIsDone(r, n)
  {
    hide Step, Completes, CompletesForGood, Begins, Checks, TurnIsDone, TurnIsOpen;
    if n != 0 {
      SettlementIsSound(r, n - 1);
      var s, e := After(r, n - 1), r.events[n - 1];
      StepSettles(s, e);
      TurnIsDoneStep(r, n - 1);
      ForGoodCompletes(s, e);
      TimerIsNoTurn(s, e);
      if Ok in After(r, n).core.resolutions && Ok in s.core.resolutions {
        var m :| 0 <= m < n - 1 && Ok !in After(r, m).core.resolutions && Ok in After(r, m + 1).core.resolutions && TurnIsDone(r, m + 1);
        assert m < n;
      }
    }
  }

  /** In step k the handler of a completed turn ends, whose notification named no thread,
      or the primary one, or the first one, when the chain came to it. */
  ghost predicate CompletesPrimaryTurn(r: Trace, k: nat)
    requires k < |r.events|
  {
    && r.events[k].CallbacksReturn?
    && exists b :: 0 <= b < k && BeginsHandler(r, b, k)
                   && var n := After(r, b).chain[0].notification;
                      && n.TurnCompleted? && (n.status == Completed || n.status == Absent)
                      && AboutPrimary(n, After(r, b).turn.primaryThreadId)
  }

  /** In step b the chain came to the notification whose handler still runs in step k. */
  ghost predicate BeginsHandler(r: Trace, b: nat, k: nat)
    requires b < k <= |r.events|
  {
    && r.events[b].ChainAdvances? && After(r, b).chain != [] && After(r, b).chain[0].Handle?
    && After(r, k).handler.InCallbacks?
    && After(r, k).handler.notification == After(r, b).chain[0].notification
    && forall j :: b < j <= k ==> After(r, j).handler == After(r, k).handler
  }

  lemma StepKeepsHandler(s: State, e: Event)
    requires Enabled(s, e) && Step(s, e).handler.InCallbacks?
    ensures || Step(s, e).handler == s.handler
            || (e.ChainAdvances? && s.chain[0].Handle?
                && var n := s.chain[0].notification;
                   && Step(s, e).handler.notification == n
                   && (Step(s, e).handler.primary <==> AboutPrimary(n, s.turn.primaryThreadId)))
  {
    hide CompleteCore, CompleteTurn, BeginCore, BeginTurn;
  }

  /** While a handler waits, it is known which step began it, and whether its notification
      was about the primary thread then. */
  lemma {:induction false} HandlerHasBegun(r: Trace, n: nat)
    requires n <= |r.events| && Run(r, n) && After(r, n).handler.InCallbacks?
    ensures exists b :: 0 <= b < n && BeginsHandler(r, b, n)
              && (After(r, n).handler.primary <==> AboutPrimary(After(r, n).handler.notification, After(r, b).turn.primaryThreadId))
  {
    hide Step;
    if n != 0 {
      var s, e := After(r, n - 1), r.events[n - 1];
      StepKeepsHandler(s, e);
      if After(r, n).handler == s.handler {
        HandlerHasBegun(r, n - 1);
        var b :| 0 <= b < n - 1 && BeginsHandler(r, b, n - 1)
                 && (s.handler.primary <==> AboutPrimary(s.handler.notification, After(r, b).turn.primaryThreadId));
        assert BeginsHandler(r, b, n);
      } else {
        assert BeginsHandler(r, n - 1, n);
      }
    }
  }

  lemma CompletesOfPrimary(r: Trace, k: nat)
    requires k < |r.events| && Run(r, k) && Completes(After(r, k), r.events[k])
    ensures CompletesPrimaryTurn(r, k)
  {
    hide After;
    HandlerHasBegun(r, k);
  }

  lemma {:induction false} RunPrefix(r: Trace, m: nat, n: nat)
    requires m <= n <= |r.events| && Run(r, n)
    ensures Run(r, m)
    decreases n
  {
    if m < n {
      RunPrefix(r, m, n - 1);
    }
  }

  ghost predicate SettlesWithOk(r: Trace, m: nat)
    requires m < |r.events|
  {
    Ok !in After(r, m).core.resolutions && Ok in After(r, m + 1).core.resolutions
  }

  ghost predicate PrimaryTurnIsDone(r: Trace, m: nat)
    requires m < |r.events|
  {
    exists k :: 0 <= k <= m && CompletesPrimaryTurn(r, k) && forall j :: k < j <= m ==> !Begins(After(r, j), r.events[j])
  }

  /** A settlement with ok, told by thread ids: it happens in a step m, some step k up to
      it handled a completed turn of the primary thread, and no step after k handled a
      turn/started of the primary thread with an id. */
  lemma OkNeedsThePrimaryTurn(r: Trace, n: nat)
    requires n <= |r.events| && Run(r, n) && Ok in After(r, n).core.resolutions
    ensures exists m :: 0 <= m < n && SettlesWithOk(r, m) && PrimaryTurnIsDone(r, m)
  {
    hide After, Completes, Begins, CompletesPrimaryTurn;
    SettlementIsSound(r, n);
    var m :| 0 <= m < n && Ok !in After(r, m).core.resolutions && Ok in After(r, m + 1).core.resolutions && TurnIsDone(r, m + 1);
    var k :| 0 <= k < m + 1 && Completes(After(r, k), r.events[k]) && forall j :: k < j < m + 1 ==> !Begins(After(r, j), r.events[j]);
    RunPrefix(r, k, n);
    CompletesOfPrimary(r, k);
    assert forall j :: k < j <= m ==> !Begins(After(r, j), r.events[j]);
    assert SettlesWithOk(r, m) && PrimaryTurnIsDone(r, m);
  }

  /** A notification of another thread than the primary one changes nothing: neither when
      it arrives, nor when its handler begins, nor when the handler ends. */
  lemma OtherThreadsChangeNothing(s: State, n: Notification)
    requires n.threadId.Some? && s.turn.primaryThreadId.Some? && n.threadId != s.turn.primaryThreadId
    ensures !s.transport.StdoutEnded? ==> Step(s, Arrives(n)) == s.(chain := s.chain + [Handle(n)])
    ensures s.handler.Idle? && s.chain != [] && s.chain[0] == Handle(n) ==>
              var begun := Step(s, ChainAdvances);
              && begun.core == s.core && begun.turn == s.turn
              && begun.handler == (if n.Unsummarized? || n.ErrorSeen? then Idle else InCallbacks(n, false))
    ensures s.handler == InCallbacks(n, false) ==> Step(s, CallbacksReturn) == s.(handler := Idle)
  {
  }

  /** The first thread that a completion, or a handled notification, names is the primary
      one from then on. */
  lemma FirstNamedThreadIsPrimary(s: State, n: Notification)
    requires n.threadId.Some? && s.turn.primaryThreadId.None?
    ensures n.TurnCompleted? && !s.transport.StdoutEnded? ==>
              Step(s, Arrives(n)).turn.primaryThreadId == n.threadId && Step(s, Arrives(n)).turn.latestThreadId == n.threadId
    ensures s.handler.Idle? && s.chain != [] && s.chain[0] == Handle(n) ==>
              Step(s, ChainAdvances).turn.primaryThreadId == n.threadId && Step(s, ChainAdvances).turn.latestThreadId == n.threadId
  {
    hide CompleteCore, BeginCore, BeginTurn, CompleteTurn;
    BeginAdopts(s.turn, n);
    CompleteKeepsThreads(BeginTurn(s.turn, n), n, IsPrimary(s.turn, n.threadId));
  }

  /** What a handled turn/started or final answer of the primary thread leaves behind. */
  lemma BeginningTakesEffect(s: State, n: Notification)
    requires AboutPrimary(n, s.turn.primaryThreadId) && s.handler.Idle? && s.chain != [] && s.chain[0] == Handle(n)
    ensures var s' := Step(s, ChainAdvances);
      && (n.TurnStarted? && n.turnId.Some? ==>
            && s'.turn.activeTurnId == n.turnId && !s'.turn.sawPrimaryFinalAnswer && !s'.turn.terminalTurnObserved
            && !s'.core.completionTimer && !s'.core.goalTimer && s'.handler == InCallbacks(n, true))
      && (n.FinalAnswer? ==> s'.turn.sawPrimaryFinalAnswer && s'.core == s.core && s'.handler == InCallbacks(n, true))
  {
    hide CompleteCore, CompleteTurn;
  }

  /** What a completed turn of the primary thread leaves behind: with a goal to set, the run
      waits for its turn; otherwise it is settled or on the timer. */
  lemma CompletionTakesEffect(s: State, n: Notification)
    requires s.handler == InCallbacks(n, true) && n.TurnCompleted? && (n.status == Completed || n.status == Absent)
    ensures var s' := Step(s, CallbacksReturn);
      && s'.turn.activeTurnId.None? && !s'.turn.goalSetAfterMaterialization
      && (s.turn.goalSetAfterMaterialization && s.turn.latestThreadId.Some? ==>
            && s'.handler.SettingGoal? && !s'.turn.sawPrimaryFinalAnswer && !s'.turn.terminalTurnObserved
            && s'.core == s.core.(goalTimer := s.core.goalTimer || s.turn.goalStart))
      && (!s.turn.goalSetAfterMaterialization && !s.core.settled ==>
            && s'.handler.Idle? && s'.turn.terminalTurnObserved
            && (if s.turn.sawPrimaryFinalAnswer && !s.turn.goalStart then s'.core.settled else s'.core == s.core.(completionTimer := true)))
  {
  }

  lemma BeginAdopts(t: Turn, n: Notification)
    requires n.threadId.Some? && t.primaryThreadId.None?
    ensures BeginTurn(t, n).primaryThreadId == n.threadId && BeginTurn(t, n).latestThreadId == n.threadId
  {
  }

  lemma CompleteKeepsThreads(t: Turn, n: Notification, primary: bool)
    ensures CompleteTurn(t, n, primary).primaryThreadId == t.primaryThreadId && CompleteTurn(t, n, primary).latestThreadId == t.latestThreadId
  {
  }

  /** A step in which a turn of the primary thread completed for good. */
  predicate Done(s: State, e: Event) {
    e.CallbacksReturn? && s.handler.InCallbacks? && s.handler.primary && s.handler.notification.TurnCompleted?
    && (s.handler.notification.status == Completed || s.handler.notification.status == Absent)
  }

  /** What arms and disarms the timers of a run that is not settled.  Settling disarms both,
      but for a completion timer when the run is rejected. */
  lemma StepArmsExactly(s: State, e: Event)
    requires SettledOnce(s.core) && !s.core.settled && Enabled(s, e)
    ensures var c, s', t := s.core, Step(s, e), s.turn;
      && (s'.core.completionTimer <==>
            if s'.core.settled then c.completionTimer && Rejected in s'.core.resolutions
            else if e.CompletionTimerFires? || Begins(s, e) then false
            else c.completionTimer || (Done(s, e) && !t.goalSetAfterMaterialization))
      && (s'.core.goalTimer <==>
            if s'.core.settled || e.GoalTimerFires? || e.StartupGoalFails? || e == GoalSetReturns(false) || Begins(s, e) then false
            else
              || c.goalTimer
              || (t.goalStart && t.latestThreadId.Some?
                  && ((e.StartupSetsGoal? && t.activeTurnId.None?) || (Done(s, e) && t.goalSetAfterMaterialization))))
  {
    hide CompleteTurn, BeginTurn;
    assert s.core.resolutions == [];
  }

  lemma BeginTellsTheTurn(t: Turn, n: Notification)
    ensures var t', primary := BeginTurn(t, n), AboutPrimary(n, t.primaryThreadId);
      var adopted := n.threadId.Some? && t.primaryThreadId.None?;
      && t'.primaryThreadId == (if adopted then n.threadId else t.primaryThreadId)
      && t'.latestThreadId == (if adopted || (primary && n.threadId.Some? && HasSummary(n)) then n.threadId else t.latestThreadId)
      && t'.activeTurnId == (if n.TurnStarted? && n.turnId.Some? && primary then n.turnId else t.activeTurnId)
      && t'.goalSetAfterMaterialization == t.goalSetAfterMaterialization
      && t'.interruptRequested == t.interruptRequested && t'.goalStart == t.goalStart
  {
  }

  lemma CompleteTellsTheTurn(t: Turn, n: Notification, primary: bool)
    ensures var t' := CompleteTurn(t, n, primary);
      && t'.primaryThreadId == t.primaryThreadId && t'.latestThreadId == t.latestThreadId
      && t'.activeTurnId == (if primary && n.TurnCompleted? then None else t.activeTurnId)
      && (t'.goalSetAfterMaterialization <==>
            t.goalSetAfterMaterialization && !(primary && n.TurnCompleted? && (n.status == Completed || n.status == Absent)))
      && t'.interruptRequested == t.interruptRequested && t'.goalStart == t.goalStart
  {
  }

  /** What changes the active turn, the threads, the deferred goal and the interrupt request. */
  lemma StepTellsTheTurn(s: State, e: Event)
    requires Enabled(s, e)
    ensures var t, t' := s.turn, Step(s, e).turn;
      var seen := if e.Arrives? && e.notification.TurnCompleted? then Some(e.notification)
                  else if e.ChainAdvances? && s.chain[0].Handle? then Some(s.chain[0].notification) else None;
      var primary := seen.Some? && AboutPrimary(seen.value, t.primaryThreadId);
      var adopted := seen.Some? && seen.value.threadId.Some? && t.primaryThreadId.None?;
      && (t'.primaryThreadId == if e.Learned? then e.primaryThreadId else if adopted then seen.value.threadId else t.primaryThreadId)
      && (t'.latestThreadId ==
            if e.Learned? then e.latestThreadId
            else if adopted || (e.ChainAdvances? && primary && seen.value.threadId.Some? && HasSummary(seen.value))
            then seen.value.threadId else t.latestThreadId)
      && (t'.activeTurnId ==
            if e.Learned? then e.activeTurnId
            else if Begins(s, e) then seen.value.turnId
            else if (e.Arrives? && primary) || (e.CallbacksReturn? && s.handler.primary && s.handler.notification.TurnCompleted?) then None
            else t.activeTurnId)
      && (t'.goalSetAfterMaterialization <==> e.StartupDefersGoal? || (t.goalSetAfterMaterialization && !Done(s, e)))
      && (t'.interruptRequested <==> t.interruptRequested || e.InterruptRequested?)
      && t'.goalStart == t.goalStart
  {
    hide BeginTurn, CompleteTurn, CompleteCore, BeginCore, ScheduleGoalTimeout, HasSummary, Finish, Fail;
    match e
    case ChainAdvances =>
      if s.chain[0].Handle? {
        var n := s.chain[0].notification;
        BeginTellsTheTurn(s.turn, n);
        CompleteTellsTheTurn(BeginTurn(s.turn, n), n, IsPrimary(s.turn, n.threadId));
        SummaryOrError(n);
      }
    case CallbacksReturn => CompleteTellsTheTurn(s.turn, s.handler.notification, s.handler.primary);
    case _ =>
  }

  lemma SummaryOrError(n: Notification)
    ensures n.TurnCompleted? || n.TurnStarted? ==> HasSummary(n)
  {
  }

  /** What settles a run, and how. */
  lemma StepSettlesExactly(s: State, e: Event)
    requires SettledOnce(s.core) && !s.core.settled && Enabled(s, e)
    ensures Step(s, e).core.resolutions ==
      match e
      case CallbacksReturn =>
        var n := s.handler.notification;
        if s.handler.primary && n.ErrorSeen? then (if n.willRetry then [] else [NotOk("error_notification")])
        else if !s.handler.primary || !n.TurnCompleted? then []
        else if n.status == Failed then [NotOk("turn_failed")]
        else if n.status == Interrupted then [NotOk("interrupted")]
        else if n.status == OtherStatus || s.turn.goalSetAfterMaterialization || !s.turn.sawPrimaryFinalAnswer || s.turn.goalStart then []
        else [Ok]
      case ChainAdvances =>
        (match s.chain[0]
         case CheckTransportLoss(abortReason) => if s.core.completionTimer then [] else [NotOk(abortReason)]
         case Handle(n) => if n.ErrorSeen? && !n.willRetry && AboutPrimary(n, s.turn.primaryThreadId) then [NotOk("error_notification")] else [])
      case CompletionTimerFires => [Ok]
      case GoalTimerFires => if s.turn.activeTurnId.Some? then [] else [NotOk("goal_continuation_not_started")]
      case ChildErrs => [Rejected]
      case StartupFails(recoverable) =>
        if s.turn.interruptRequested then [NotOk("interrupted")] else if recoverable then [NotOk("control_rpc_failed")] else [Rejected]
      case _ => []
  {
    hide CompleteTurn;
  }

  lemma ForGoodCompletes(s: State, e: Event)
    ensures CompletesForGood(s, e) ==> Completes(s, e)
  {
  }

  lemma TimerIsNoTurn(s: State, e: Event)
    ensures e.CompletionTimerFires? ==> !Begins(s, e)
  {
  }

  // ---------------------------------------------------------------------
  // After a disconnect
  // ---------------------------------------------------------------------

  /** No transport loss waits on the chain to be looked at. */
  predicate NoLossQueued(chain: seq<Link>) {
    forall i :: 0 <= i < |chain| ==> !chain[i].CheckTransportLoss?
  }

  /** The last look at a transport loss is that of this step, or there was none to come,
      unless the client was not closed yet. */
  lemma StepQueuesLoss(s: State, e: Event)
    requires SettledOnce(s.core) && Enabled(s, e)
    ensures var s' := Step(s, e);
      !s'.core.settled && !s'.transport.Open? && NoLossQueued(s'.chain)
      ==> Checks(s, e) || (!s.transport.Open? && NoLossQueued(s.chain))
  {
    hide CompleteCore, CompleteTurn, BeginCore, BeginTurn;
    var s' := Step(s, e);
    if e.ChainAdvances? {
      assert s.chain == [s.chain[0]] + s'.chain;
    } else {
      assert forall i :: 0 <= i < |s.chain| ==> s'.chain[i] == s.chain[i];
      if s.transport.Open? && !s'.transport.Open? && !s.core.settled {
        assert s'.chain[|s.chain|].CheckTransportLoss?;
      }
    }
  }

  /** Once the client is closed and every queued loss was looked at, an unsettled run
      holds an armed completion timer if and only if no turn was left open. */
  lemma {:induction false} LossIsCovered(r: Trace, n: nat)
    requires n <= |r.events| && Run(r, n)
    ensures var s := After(r, n);
      && SettledOnce(s.core)
      && (!s.core.settled && s.core.completionTimer ==> !TurnIsOpen(r, n))
      && (!s.core.settled && !s.transport.Open? && NoLossQueued(s.chain) ==> s.core.completionTimer || TurnIsOpen(r, n))
  {
    hide Step, CompletesForGood, Begins, Checks, TurnIsOpen, NoLossQueued;
    if n != 0 {
      LossIsCovered(r, n - 1);
      var s, e := After(r, n - 1), r.events[n - 1];
      StepSettles(s, e);
      StepQueuesLoss(s, e);
      TurnIsOpenStep(r, n - 1);
      BeginsOnly(s, e);
    }
  }

  lemma BeginsOnly(s: State, e: Event)
    ensures Begins(s, e) ==> !CompletesForGood(s, e) && !Checks(s, e)
  {
  }

  /** After a disconnect, once the chain is drained, the run is settled, or an armed
      completion timer settles it, exactly when it is settled or no primary turn with an
      id was begun after the loss was looked at and left open. */
  lemma DisconnectSettles(r: Trace, n: nat)
    requires n <= |r.events| && Run(r, n)
    requires !After(r, n).transport.Open? && After(r, n).chain == []
    ensures var s := After(r, n);
      s.core.settled || (s.core.completionTimer && Step(s, CompletionTimerFires).core.settled)
      <==> s.core.settled || !TurnIsOpen(r, n)
  {
    hide TurnIsOpen;
    LossIsCovered(r, n);
  }

  /** The close of the child settles what is left then. */
  lemma ChildCloseSettles(r: Trace, n: nat, abortReason: string)
    requires n <= |r.events| && Run(r, n)
    requires After(r, n).chain == [] && After(r, n).handler.Idle? && !After(r, n).core.settled
    ensures var s := Step(After(r, n), ChildCloses(abortReason));
      Enabled(s, ChainAdvances) && (Step(s, ChainAdvances).core.settled <==> !After(r, n).core.completionTimer)
  {
    SettlementIsSound(r, n);
  }

  /** The completion timer is armed, the loss is looked at and leaves the run to the
      timer; then a turn that the child still reports disarms it. */
  function StrandedRun(): Trace {
    Trace([Arrives(TurnCompleted(Some("t"), Completed)), ChainAdvances, CallbacksReturn,
           StreamErrs("transport_lost"), ChainAdvances,
           Arrives(TurnStarted(Some("t"), Some("u"))), ChainAdvances, CallbacksReturn],
          true, Some("t"))
  }

  function StrandedState(k: nat): State {
    var done, begun := TurnCompleted(Some("t"), Completed), TurnStarted(Some("t"), Some("u"));
    var plain, armed := Core(false, false, [], false, false), Core(false, false, [], true, false);
    var over := Turn(true, Some("t"), Some("t"), None, false, false, false, true);
    var open := Turn(true, Some("t"), Some("t"), Some("u"), false, false, false, false);
    match k
    case 0 => Initial(true, Some("t"))
    case 1 => State(plain, over, Open, [Handle(done)], Idle)
    case 2 => State(plain, over, Open, [], InCallbacks(done, true))
    case 3 => State(armed, over, Open, [], Idle)
    case 4 => State(armed, over, ClientClosed, [CheckTransportLoss("transport_lost")], Idle)
    case 5 => State(armed, over, ClientClosed, [], Idle)
    case 6 => State(armed, over, ClientClosed, [Handle(begun)], Idle)
    case 7 => State(plain, open, ClientClosed, [], InCallbacks(begun, true))
    case _ => State(plain, open, ClientClosed, [], Idle)
  }

  lemma StrandedStep(k: nat)
    requires k < 8
    ensures Enabled(StrandedState(k), StrandedRun().events[k])
    ensures Step(StrandedState(k), StrandedRun().events[k]) == StrandedState(k + 1)
  {
  }

  lemma {:induction false} StrandedAfter(n: nat)
    requires n <= 8
    ensures Run(StrandedRun(), n) && After(StrandedRun(), n) == StrandedState(n)
  {
    hide Step, Enabled;
    if n != 0 {
      StrandedAfter(n - 1);
      StrandedStep(n - 1);
    }
  }

  /** The run ends disconnected and drained, but neither settled nor holding a timer. */
  lemma DisconnectCanStrand()
    ensures Run(StrandedRun(), 8)
    ensures var s := After(StrandedRun(), 8);
      !s.transport.Open? && s.chain == [] && s.handler.Idle? && !s.core.settled && !s.core.completionTimer && !s.core.goalTimer
  {
    hide Step, After, Run;
    StrandedAfter(8);
  }

  /** The work left on the chain, in steps. */
  function Work(s: State): nat {
    3 * |s.chain| + match s.handler case Idle => 0 case InCallbacks(_, _) => 2 case SettingGoal => 1
  }

  /** The chain does drain: while there is work, some step of the chain is enabled, and
      each of them leaves less, whatever a goal request answers. */
  lemma ChainDrains(s: State, e: Event)
    ensures Work(s) > 0 ==> Enabled(s, ChainAdvances) || Enabled(s, CallbacksReturn) || Enabled(s, GoalSetReturns(false))
    ensures Enabled(s, e) && (e.ChainAdvances? || e.CallbacksReturn? || e.GoalSetReturns?) ==> Work(Step(s, e)) < Work(s)
    ensures Enabled(s, e) && s.transport.StdoutEnded? ==> Work(Step(s, e)) <= Work(s) + 3 && Step(s, e).transport.StdoutEnded?
  {
    hide CompleteCore, CompleteTurn, BeginCore, BeginTurn;
  }
}
