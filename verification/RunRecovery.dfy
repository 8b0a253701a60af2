/** The retry loop of a run (src/pty-worker/worker-pool-run-recovery.js, with the
    conditions of worker-pool-run-recovery/fallbacks.js).

    The loop starts an attempt, looks at how it ended, and either starts another one
    or leaves.  Six counters limit the restarts.  Everything the loop waits for is
    given by a script: how the n-th attempt ends, and what happens at each await. */
module RunRecovery {
  import opened Options

  type Id = string

  const MAX_THREAD_RESUME_RETRIES: nat := 1
  const MAX_UPSTREAM_INTERRUPT_RECOVERIES: nat := 2

  /** What the text of an error, or the messages of a result, say. */
  datatype Diagnosis = Diagnosis(contextWindow: bool, corruption: bool, streamDisconnect: bool, capacity: bool)

  datatype Replacement = Replacement(transportDisconnect: bool, replacementThreadId: Option<Id>)

  datatype Result = Result(
    ok: bool,
    interrupted: bool,
    sigint: bool,
    upstream: bool,
    abortedAsInterrupted: bool,
    sawFinalAnswer: bool,
    execJson: bool,
    messages: Diagnosis,
    resumeReplacement: Option<Replacement>,
    priorThreadId: Option<Id>)

  /** runAttempt throws, either before or after it set run.child, or gives a result. */
  datatype Outcome = Threw(launched: bool, error: Diagnosis) | Ended(result: Result)

  /** What happens while the loop waits: the user may ask for an interrupt, live steers
      may be accepted, and the awaited call may fail. */
  datatype Await = Await(interrupt: bool, steers: nat, fails: bool)

  /** One attempt and the awaits after it. */
  datatype Turn = Turn(
    outcome: Outcome,
    attempt: Await,
    recording: Await,
    contextFallback: Await,
    corruptionFallback: Await,
    notice: Await,
    restart: Await,
    stateThreadId: Option<Id>)

  datatype Config = Config(hasCompactor: bool, capacityDelays: nat)

  /** The six budgets, as spent so far. */
  datatype Spent = Spent(resume: nat, liveSteers: nat, interrupts: nat, contextWindows: nat, corruptions: nat, capacity: nat)

  /** What the user did so far. */
  datatype User = User(interruptRequested: bool, acceptedLiveSteers: nat) {
    function During(a: Await): User {
      User(interruptRequested || a.interrupt, acceptedLiveSteers + a.steers)
    }
  }

  /** The variables of the loop; attempts counts the calls of runAttempt. */
  datatype Loop = Loop(threadId: Option<Id>, spent: Spent, user: User, attempts: nat)

  datatype Exit = InterruptedBeforeAttempt | Returned(result: Result) | Failed | ResumePending

  datatype Status = Running(loop: Loop) | Left(exit: Exit, attempts: nat)

  datatype RecoveryKind = LiveSteerRestart | TransportResume | UpstreamRestart

  function Start(sessionThreadId: Option<Id>, user: User): Loop {
    Loop(sessionThreadId, Spent(0, 0, 0, 0, 0, 0), user, 0)
  }

  function ClassifyInterruptedRunRecovery(spent: Spent, user: User, r: Result): Option<RecoveryKind> {
    var transportResumePending := r.resumeReplacement.Some? && r.resumeReplacement.value.transportDisconnect;
    if user.interruptRequested then None
    else if r.execJson && user.acceptedLiveSteers > spent.liveSteers then Some(LiveSteerRestart)
    else if !(r.interrupted || r.sigint) || !r.upstream || (!transportResumePending && !r.abortedAsInterrupted) then None
    else if r.sawFinalAnswer then None
    else if spent.interrupts >= MAX_UPSTREAM_INTERRUPT_RECOVERIES then None
    else Some(if transportResumePending then TransportResume else UpstreamRestart)
  }

  /** A broken thread; a stream that broke off points to one only if a thread was resumed. */
  predicate CorruptionOfThread(d: Diagnosis, threadId: Option<Id>) {
    d.corruption && (!d.streamDisconnect || threadId.Some?)
  }

  predicate ShouldRecoverContextWindow(c: Config, spent: Spent, user: User, r: Result) {
    spent.contextWindows == 0 && !user.interruptRequested && c.hasCompactor && !r.ok && !r.interrupted && r.messages.contextWindow
  }

  predicate ShouldRecoverThreadCorruption(c: Config, spent: Spent, user: User, r: Result, requested: Option<Id>) {
    spent.corruptions == 0 && !user.interruptRequested && c.hasCompactor && !r.ok && !r.interrupted
    && CorruptionOfThread(r.messages, requested)
  }

  /** An attempt that threw. */
  function AfterThrow(c: Config, l: Loop, t: Turn, error: Diagnosis): Status {
    if !l.user.interruptRequested && l.spent.contextWindows == 0 && c.hasCompactor && error.contextWindow then
      if t.contextFallback.fails then Left(Failed, l.attempts)
      else Running(Loop(None, l.spent.(contextWindows := 1), l.user.During(t.contextFallback), l.attempts))
    else if !l.user.interruptRequested && l.spent.corruptions == 0 && c.hasCompactor && CorruptionOfThread(error, l.threadId) then
      if t.corruptionFallback.fails then Left(Failed, l.attempts)
      else Running(Loop(None, l.spent.(corruptions := 1), l.user.During(t.corruptionFallback), l.attempts))
    else if !l.user.interruptRequested && l.spent.capacity < c.capacityDelays && error.capacity then
      Running(Loop(t.stateThreadId.Or(l.threadId), l.spent.(capacity := l.spent.capacity + 1), l.user.During(t.restart), l.attempts))
    else Left(Failed, l.attempts)
  }

  /** A result, first step: too long a context is compacted, and a failure to do so is not fatal. */
  function AfterEnd(c: Config, l: Loop, t: Turn, r: Result): Status {
    if ShouldRecoverContextWindow(c, l.spent, l.user, r) then
      var paid := Loop(l.threadId, l.spent.(contextWindows := 1), l.user.During(t.contextFallback), l.attempts);
      if t.contextFallback.fails then AfterContext(c, paid, t, r) else Running(paid.(threadId := None))
    else AfterContext(c, l, t, r)
  }

  /** Second step: a broken thread is compacted likewise. */
  function AfterContext(c: Config, l: Loop, t: Turn, r: Result): Status {
    if ShouldRecoverThreadCorruption(c, l.spent, l.user, r, l.threadId) then
      var paid := Loop(l.threadId, l.spent.(corruptions := 1), l.user.During(t.corruptionFallback), l.attempts);
      if t.corruptionFallback.fails then AfterCorruption(paid, t, r) else Running(paid.(threadId := None))
    else AfterCorruption(l, t, r)
  }

  /** Third step: an interrupted run is restarted. */
  function AfterCorruption(l: Loop, t: Turn, r: Result): Status {
    var kind := ClassifyInterruptedRunRecovery(l.spent, l.user, r);
    if kind.None? then AfterInterrupt(l, t, r)
    else
      var noticed := l.user.During(t.notice);
      var spent := l.spent.(interrupts := l.spent.interrupts + 1,
                            liveSteers := if kind.value.LiveSteerRestart? then noticed.acceptedLiveSteers else l.spent.liveSteers);
      if t.restart.fails then Left(Failed, l.attempts)
      else Running(Loop(r.priorThreadId, spent, noticed.During(t.restart), l.attempts))
  }

  /** Last step: a result that names a replacement thread is resumed there once. */
  function AfterInterrupt(l: Loop, t: Turn, r: Result): Status {
    if r.resumeReplacement.None? || l.user.interruptRequested then Left(Returned(r), l.attempts)
    else
      var replacement := r.resumeReplacement.value.replacementThreadId;
      var moved := replacement.Some? && replacement != l.threadId;
      if moved && t.restart.fails then Left(Failed, l.attempts)
      else
        var threadId := if moved then replacement else l.threadId;
        var user := if moved then l.user.During(t.restart) else l.user;
        if threadId.Some? && l.spent.resume < MAX_THREAD_RESUME_RETRIES then
          Running(Loop(threadId, l.spent.(resume := l.spent.resume + 1), user, l.attempts))
        else if t.notice.fails then Left(Failed, l.attempts)
        else Left(ResumePending, l.attempts)
  }

  /** One turn of the loop. */
  function Iterate(c: Config, l: Loop, t: Turn): Status {
    if l.user.interruptRequested then Left(InterruptedBeforeAttempt, l.attempts)
    else
      var attempted := l.(user := l.user.During(t.attempt), attempts := l.attempts + 1);
      match t.outcome
      case Threw(_, error) => AfterThrow(c, attempted, t, error)
      case Ended(result) =>
        if t.recording.fails then Left(Failed, attempted.attempts)
        else AfterEnd(c, attempted.(user := attempted.user.During(t.recording)), t, result)
  }

  /** The loop after n turns. */
  function Iterations(c: Config, start: Loop, script: nat -> Turn, n: nat): Status {
    if n == 0 then Running(start)
    else
      match Iterations(c, start, script, n - 1)
      case Running(l) => Iterate(c, l, script(n - 1))
      case left => left
  }

  // ---------------------------------------------------------------------
  // The budgets
  // ---------------------------------------------------------------------

  function SpentOnRestarts(s: Spent): nat {
    s.resume + s.interrupts + s.contextWindows + s.corruptions + s.capacity
  }

  /** Restarts after an interrupt are paid for by two allowed ones and the live steers. */
  predicate WithinBudgets(c: Config, s: Spent, acceptedLiveSteers: nat) {
    && s.resume <= MAX_THREAD_RESUME_RETRIES
    && s.contextWindows <= 1
    && s.corruptions <= 1
    && s.capacity <= c.capacityDelays
    && s.interrupts <= MAX_UPSTREAM_INTERRUPT_RECOVERIES + s.liveSteers
    && s.liveSteers <= acceptedLiveSteers
  }

  /** The loop is about to pay for every attempt made: unpaid of them are not paid yet. */
  predicate Solvent(c: Config, l: Loop, unpaid: nat) {
    WithinBudgets(c, l.spent, l.user.acceptedLiveSteers) && l.attempts <= SpentOnRestarts(l.spent) + unpaid
  }

  function AttemptLimit(c: Config, liveSteers: nat): nat {
    6 + c.capacityDelays + liveSteers
  }

  /** The most live steers a turn can bring. */
  function SteersOf(t: Turn): nat {
    t.attempt.steers + t.recording.steers + t.contextFallback.steers + t.corruptionFallback.steers + t.notice.steers + t.restart.steers
  }

  /** The most live steers the first n turns can bring. */
  function SteersIn(script: nat -> Turn, n: nat): nat {
    if n == 0 then 0 else SteersIn(script, n - 1) + SteersOf(script(n - 1))
  }

  /** A turn from l either pays for its attempt or is the last one. */
  predicate Pays(c: Config, l: Loop, after: Status, steers: nat) {
    match after
    case Running(l') => Solvent(c, l', 0) && l'.attempts == l.attempts && l'.user.acceptedLiveSteers <= l.user.acceptedLiveSteers + steers
    case Left(exit, attempts) => attempts == l.attempts && !exit.InterruptedBeforeAttempt?
  }

  lemma ThrowPays(c: Config, l: Loop, t: Turn, error: Diagnosis)
    requires Solvent(c, l, 1)
    ensures Pays(c, l, AfterThrow(c, l, t, error), t.contextFallback.steers + t.corruptionFallback.steers + t.restart.steers)
  {
  }

  lemma InterruptPays(c: Config, l: Loop, t: Turn, r: Result)
    requires Solvent(c, l, 1)
    ensures Pays(c, l, AfterInterrupt(l, t, r), t.restart.steers)
  {
  }

  lemma CorruptionPays(c: Config, l: Loop, t: Turn, r: Result)
    requires Solvent(c, l, 1)
    ensures Pays(c, l, AfterCorruption(l, t, r), t.notice.steers + t.restart.steers)
  {
    hide AfterInterrupt;
    InterruptPays(c, l, t, r);
  }

  lemma ContextPays(c: Config, l: Loop, t: Turn, r: Result)
    requires Solvent(c, l, 1)
    ensures Pays(c, l, AfterContext(c, l, t, r), t.corruptionFallback.steers + t.notice.steers + t.restart.steers)
  {
    hide AfterCorruption;
    var paid := Loop(l.threadId, l.spent.(corruptions := 1), l.user.During(t.corruptionFallback), l.attempts);
    if ShouldRecoverThreadCorruption(c, l.spent, l.user, r, l.threadId) {
      CorruptionPays(c, paid, t, r);
    } else {
      CorruptionPays(c, l, t, r);
    }
  }

  lemma EndPays(c: Config, l: Loop, t: Turn, r: Result)
    requires Solvent(c, l, 1)
    ensures Pays(c, l, AfterEnd(c, l, t, r), t.contextFallback.steers + t.corruptionFallback.steers + t.notice.steers + t.restart.steers)
  {
    hide AfterContext;
    var paid := Loop(l.threadId, l.spent.(contextWindows := 1), l.user.During(t.contextFallback), l.attempts);
    if ShouldRecoverContextWindow(c, l.spent, l.user, r) {
      ContextPays(c, paid, t, r);
    } else {
      ContextPays(c, l, t, r);
    }
  }

  /** A turn that goes on made one attempt and paid for it out of one of the budgets; a
      turn that leaves made one attempt, or none if it found an interrupt request. */
  lemma IteratePays(c: Config, l: Loop, t: Turn)
    requires Solvent(c, l, 0)
    ensures var after := Iterate(c, l, t);
            && (after.Running? ==>
                  && !l.user.interruptRequested && Solvent(c, after.loop, 0) && after.loop.attempts == l.attempts + 1
                  && after.loop.user.acceptedLiveSteers <= l.user.acceptedLiveSteers + SteersOf(t))
            && (after.Left? ==>
                  && (after.exit.InterruptedBeforeAttempt? <==> l.user.interruptRequested)
                  && after.attempts == (if l.user.interruptRequested then l.attempts else l.attempts + 1))
  {
    hide AfterThrow, AfterEnd;
    if !l.user.interruptRequested {
      var attempted := l.(user := l.user.During(t.attempt), attempts := l.attempts + 1);
      match t.outcome
      case Threw(_, error) => ThrowPays(c, attempted, t, error);
      case Ended(result) => EndPays(c, attempted.(user := attempted.user.During(t.recording)), t, result);
    }
  }

  /** At most six attempts, and one more for each capacity delay and each live steer
      accepted in the turns made so far. */
  lemma {:induction false} AttemptsAreBounded(c: Config, threadId: Option<Id>, user: User, script: nat -> Turn, n: nat)
    ensures var after := Iterations(c, Start(threadId, user), script, n);
            var steers := user.acceptedLiveSteers + SteersIn(script, n);
            && (after.Running? ==>
                  && Solvent(c, after.loop, 0) && after.loop.attempts == n
                  && after.loop.user.acceptedLiveSteers <= steers && n < AttemptLimit(c, steers))
            && (after.Left? ==> after.attempts <= AttemptLimit(c, steers))
  {
    hide Iterate;
    if n != 0 {
      AttemptsAreBounded(c, threadId, user, script, n - 1);
      var before := Iterations(c, Start(threadId, user), script, n - 1);
      if before.Running? {
        IteratePays(c, before.loop, script(n - 1));
      }
    }
  }

  /** No attempt begins after an interrupt was requested, however long the loop is watched. */
  lemma {:induction false} NoAttemptAfterInterrupt(c: Config, start: Loop, script: nat -> Turn, n: nat, m: nat)
    requires n < m
    requires Iterations(c, start, script, n).Running? && Iterations(c, start, script, n).loop.user.interruptRequested
    ensures Iterations(c, start, script, m) == Left(InterruptedBeforeAttempt, Iterations(c, start, script, n).loop.attempts)
  {
    if n + 1 < m {
      NoAttemptAfterInterrupt(c, start, script, n, m - 1);
    }
  }

  /** An interrupt during an attempt, or while its result is recorded, ends the loop with that attempt. */
  lemma InterruptedAttemptIsTheLast(c: Config, l: Loop, t: Turn)
    requires !l.user.interruptRequested
    requires t.attempt.interrupt || (t.outcome.Ended? && t.recording.interrupt)
    ensures Iterate(c, l, t) == Left(if t.outcome.Ended? && !t.recording.fails then Returned(t.outcome.result) else Failed, l.attempts + 1)
  {
  }

  // ---------------------------------------------------------------------
  // When the loop goes on, and with what
  // ---------------------------------------------------------------------

  /** A turn whose attempt threw goes on exactly when no interrupt was asked for and the
      first of three things that applies works: a compaction for too long a context, one
      for a broken thread, and a retry of a model at capacity.  Each is paid for once. */
  lemma ThrowGoesOnExactly(c: Config, l: Loop, t: Turn)
    requires t.outcome.Threw?
    ensures var error, after, spent := t.outcome.error, Iterate(c, l, t), l.spent;
      var free := !l.user.interruptRequested && !t.attempt.interrupt;
      var context := free && spent.contextWindows == 0 && c.hasCompactor && error.contextWindow;
      var corruption := free && !context && spent.corruptions == 0 && c.hasCompactor && error.corruption
                        && (!error.streamDisconnect || l.threadId.Some?);
      var capacity := free && !context && !corruption && spent.capacity < c.capacityDelays && error.capacity;
      && (after.Running? <==> (context && !t.contextFallback.fails) || (corruption && !t.corruptionFallback.fails) || capacity)
      && (after.Running? ==>
            && after.loop.threadId == (if !capacity then None else if t.stateThreadId.Some? then t.stateThreadId else l.threadId)
            && after.loop.user.interruptRequested == (if context then t.contextFallback.interrupt
                                                      else if corruption then t.corruptionFallback.interrupt else t.restart.interrupt)
            && after.loop.spent == spent.(contextWindows := if context then 1 else spent.contextWindows,
                                          corruptions := if corruption then 1 else spent.corruptions,
                                          capacity := if capacity then spent.capacity + 1 else spent.capacity))
      && (after.Left? ==> after.exit == if l.user.interruptRequested then InterruptedBeforeAttempt else Failed)
  {
  }

  /** The user after the awaits of a recorded result, the compactions that are due included. */
  function Compacts(due: bool, u: User, a: Await): User {
    if due then User(u.interruptRequested || a.interrupt, u.acceptedLiveSteers + a.steers) else u
  }

  /** A result that was recorded goes on exactly when one of four things is due and works:
      a compaction for too long a context, one for a broken thread, the restart of a run
      that was interrupted upstream without a final answer or has live steers to serve, and
      the one resume of a replacement thread. */
  lemma ResultGoesOnExactly(c: Config, l: Loop, t: Turn)
    requires t.outcome.Ended? && !l.user.interruptRequested && !t.recording.fails
    ensures var r, after, spent := t.outcome.result, Iterate(c, l, t), l.spent;
      var u0 := User(t.attempt.interrupt || t.recording.interrupt, l.user.acceptedLiveSteers + t.attempt.steers + t.recording.steers);
      var bad := c.hasCompactor && !r.ok && !r.interrupted;
      var context := !u0.interruptRequested && bad && spent.contextWindows == 0 && r.messages.contextWindow;
      var u1 := Compacts(context, u0, t.contextFallback);
      var corruption := !u1.interruptRequested && bad && spent.corruptions == 0 && r.messages.corruption
                        && (!r.messages.streamDisconnect || l.threadId.Some?);
      var u2 := Compacts(corruption, u1, t.corruptionFallback);
      var replaced := r.resumeReplacement.Some?;
      var transport := replaced && r.resumeReplacement.value.transportDisconnect;
      var steers := !u2.interruptRequested && r.execJson && u2.acceptedLiveSteers > spent.liveSteers;
      var upstream := !u2.interruptRequested && (r.interrupted || r.sigint) && r.upstream && (transport || r.abortedAsInterrupted)
                      && !r.sawFinalAnswer && spent.interrupts < 2;
      var target := if replaced && r.resumeReplacement.value.replacementThreadId.Some? then r.resumeReplacement.value.replacementThreadId else l.threadId;
      var resumes := !u2.interruptRequested && replaced && target.Some? && spent.resume < 1 && (target == l.threadId || !t.restart.fails);
      var compacted := (context && !t.contextFallback.fails) || (corruption && !t.corruptionFallback.fails);
      && (after.Running? <==> if compacted then true else if steers || upstream then !t.restart.fails else resumes)
      && (after.Running? ==> after.loop.threadId == if compacted then None else if steers || upstream then r.priorThreadId else target)
      && (after.Running? ==>
            && after.loop.user.interruptRequested == (if context && !t.contextFallback.fails then u1.interruptRequested
                                                      else if compacted then u2.interruptRequested
                                                      else if steers || upstream then t.notice.interrupt || t.restart.interrupt
                                                      else target != l.threadId && t.restart.interrupt))
      && (after.Left? ==> (after.exit == Returned(r) <==> !compacted && !steers && !upstream && (!replaced || u2.interruptRequested)))
  {
    hide AfterEnd, AfterCorruption;
    var recorded := l.(user := l.user.During(t.attempt).During(t.recording), attempts := l.attempts + 1);
    AfterEndGoesOn(c, recorded, t, t.outcome.result);
    AfterCorruptionGoesOn(UncompactedLoop(c, recorded, t, t.outcome.result), t, t.outcome.result);
  }

  /** The loop when the compactions that were due have all failed. */
  function UncompactedLoop(c: Config, l: Loop, t: Turn, r: Result): Loop {
    var bad := c.hasCompactor && !r.ok && !r.interrupted;
    var context := !l.user.interruptRequested && bad && l.spent.contextWindows == 0 && r.messages.contextWindow;
    var u1 := Compacts(context, l.user, t.contextFallback);
    var corruption := !u1.interruptRequested && bad && l.spent.corruptions == 0 && r.messages.corruption
                      && (!r.messages.streamDisconnect || l.threadId.Some?);
    Loop(l.threadId, l.spent.(contextWindows := if context then 1 else l.spent.contextWindows,
                              corruptions := if corruption then 1 else l.spent.corruptions),
         Compacts(corruption, u1, t.corruptionFallback), l.attempts)
  }

  lemma AfterCorruptionGoesOn(l: Loop, t: Turn, r: Result)
    ensures var after, spent, u := AfterCorruption(l, t, r), l.spent, l.user;
      var replaced := r.resumeReplacement.Some?;
      var transport := replaced && r.resumeReplacement.value.transportDisconnect;
      var steers := !u.interruptRequested && r.execJson && u.acceptedLiveSteers > spent.liveSteers;
      var upstream := !u.interruptRequested && (r.interrupted || r.sigint) && r.upstream && (transport || r.abortedAsInterrupted)
                      && !r.sawFinalAnswer && spent.interrupts < 2;
      var target := if replaced && r.resumeReplacement.value.replacementThreadId.Some? then r.resumeReplacement.value.replacementThreadId else l.threadId;
      var resumes := !u.interruptRequested && replaced && target.Some? && spent.resume < 1 && (target == l.threadId || !t.restart.fails);
      && (after.Running? <==> if steers || upstream then !t.restart.fails else resumes)
      && (after.Running? ==> after.loop.threadId == if steers || upstream then r.priorThreadId else target)
      && (after.Running? ==>
            && after.loop.user.interruptRequested == (if steers || upstream then t.notice.interrupt || t.restart.interrupt
                                                      else target != l.threadId && t.restart.interrupt))
      && (after.Left? ==> (after.exit == Returned(r) <==> !steers && !upstream && (!replaced || u.interruptRequested)))
  {
  }

  lemma AfterContextGoesOn(c: Config, l: Loop, t: Turn, r: Result)
    ensures var due := !l.user.interruptRequested && c.hasCompactor && !r.ok && !r.interrupted && l.spent.corruptions == 0
                       && r.messages.corruption && (!r.messages.streamDisconnect || l.threadId.Some?);
      var l' := l.(user := Compacts(due, l.user, t.corruptionFallback), spent := l.spent.(corruptions := if due then 1 else l.spent.corruptions));
      AfterContext(c, l, t, r) == if due && !t.corruptionFallback.fails then Running(l'.(threadId := None)) else AfterCorruption(l', t, r)
  {
    hide AfterCorruption;
  }

  lemma AfterEndGoesOn(c: Config, l: Loop, t: Turn, r: Result)
    ensures var after, spent, u0 := AfterEnd(c, l, t, r), l.spent, l.user;
      var bad := c.hasCompactor && !r.ok && !r.interrupted;
      var context := !u0.interruptRequested && bad && spent.contextWindows == 0 && r.messages.contextWindow;
      var u1 := Compacts(context, u0, t.contextFallback);
      var corruption := !u1.interruptRequested && bad && spent.corruptions == 0 && r.messages.corruption
                        && (!r.messages.streamDisconnect || l.threadId.Some?);
      var u2 := Compacts(corruption, u1, t.corruptionFallback);
      && (context && !t.contextFallback.fails ==>
            after.Running? && after.loop.threadId == None && after.loop.user == u1)
      && (!(context && !t.contextFallback.fails) && corruption && !t.corruptionFallback.fails ==>
            after.Running? && after.loop.threadId == None && after.loop.user == u2)
      && (!(context && !t.contextFallback.fails) && !(corruption && !t.corruptionFallback.fails) ==>
            after == AfterCorruption(UncompactedLoop(c, l, t, r), t, r))
  {
    hide AfterCorruption, AfterContext;
    var context := !l.user.interruptRequested && c.hasCompactor && !r.ok && !r.interrupted && l.spent.contextWindows == 0 && r.messages.contextWindow;
    AfterContextGoesOn(c, l.(user := Compacts(context, l.user, t.contextFallback), spent := l.spent.(contextWindows := if context then 1 else l.spent.contextWindows)), t, r);
  }

  /** A run that was interrupted upstream before its final answer is restarted, up to two times. */
  lemma UpstreamInterruptIsRestarted(c: Config, l: Loop, t: Turn)
    requires t.outcome.Ended? && !l.user.interruptRequested && !t.recording.fails && !t.attempt.interrupt && !t.recording.interrupt
    requires t.outcome.result.interrupted && t.outcome.result.upstream && t.outcome.result.abortedAsInterrupted
    requires !t.outcome.result.sawFinalAnswer
    requires l.spent.interrupts < 2 && !t.restart.fails
    ensures Iterate(c, l, t).Running? && Iterate(c, l, t).loop.threadId == t.outcome.result.priorThreadId
  {
    hide Iterate;
    ResultGoesOnExactly(c, l, t);
  }

  /** A result with a final answer is returned when nothing else is due. */
  lemma AnswerIsReturned(c: Config, l: Loop, t: Turn)
    requires t.outcome.Ended? && !l.user.interruptRequested && !t.recording.fails
    requires t.outcome.result.sawFinalAnswer && !t.outcome.result.execJson
    requires t.outcome.result.resumeReplacement.None? && (t.outcome.result.ok || t.outcome.result.interrupted)
    ensures Iterate(c, l, t) == Left(Returned(t.outcome.result), l.attempts + 1)
  {
  }

  // ---------------------------------------------------------------------
  // The loop
  // ---------------------------------------------------------------------

  lemma StartsRunning(c: Config, threadId: Option<Id>, user: User, script: nat -> Turn)
    ensures Iterations(c, Start(threadId, user), script, 0) == Running(Loop(threadId, Spent(0, 0, 0, 0, 0, 0), user, 0))
  {
  }

  /** What the loop needs to know at its head. */
  lemma OneTurn(c: Config, threadId: Option<Id>, user: User, script: nat -> Turn, l: Loop, liveSteers: nat)
    requires Iterations(c, Start(threadId, user), script, l.attempts) == Running(l)
    requires forall n :: user.acceptedLiveSteers + SteersIn(script, n) <= liveSteers
    ensures Iterations(c, Start(threadId, user), script, l.attempts + 1) == Iterate(c, l, script(l.attempts))
    ensures l.attempts < AttemptLimit(c, liveSteers)
    ensures l.attempts <= 5 + c.capacityDelays + l.user.acceptedLiveSteers
  {
    hide Iterate;
    AttemptsAreBounded(c, threadId, user, script, l.attempts);
    assert user.acceptedLiveSteers + SteersIn(script, l.attempts) <= liveSteers;
  }

  class Run {
    var user: User
    var child: Option<nat>

    constructor (user: User)
      ensures this.user == user && child == None
    {
      this.user := user;
      child := None;
    }

    method Wait(a: Await)
      modifies `user
      ensures user == old(user).During(a)
    {
      user := user.During(a);
    }

    /** The bracket around a child process: run.child is set only while the task runs. */
    method RunAttempt(t: Turn, task: nat)
      requires child == None
      modifies this
      ensures child == None && user == old(user).During(t.attempt)
    {
      if t.outcome.Ended? || t.outcome.launched {
        child := Some(task);
      }
      Wait(t.attempt);
      if child == Some(task) {
        child := None;
      }
    }

    /** The handler of a throwing attempt: whether to try again, and with what. */
    method Catch(c: Config, threadId: Option<Id>, spent: Spent, ghost attempts: nat, t: Turn, error: Diagnosis)
      returns (again: bool, threadId': Option<Id>, spent': Spent)
      modifies `user
      ensures AfterThrow(c, Loop(threadId, spent, old(user), attempts), t, error)
           == if again then Running(Loop(threadId', spent', user, attempts)) else Left(Failed, attempts)
      ensures old(user).acceptedLiveSteers <= user.acceptedLiveSteers
    {
      threadId', spent' := threadId, spent;
      if !user.interruptRequested && spent.contextWindows == 0 && c.hasCompactor && error.contextWindow {
        spent' := spent.(contextWindows := spent.contextWindows + 1);
        Wait(t.contextFallback);
        if t.contextFallback.fails {
          return false, threadId', spent';
        }
        return true, None, spent';
      }
      if !user.interruptRequested && spent.corruptions == 0 && c.hasCompactor && CorruptionOfThread(error, threadId) {
        spent' := spent.(corruptions := spent.corruptions + 1);
        Wait(t.corruptionFallback);
        if t.corruptionFallback.fails {
          return false, threadId', spent';
        }
        return true, None, spent';
      }
      if !user.interruptRequested && spent.capacity < c.capacityDelays && error.capacity {
        spent' := spent.(capacity := spent.capacity + 1);
        threadId' := if t.stateThreadId.Some? then t.stateThreadId else threadId;
        Wait(t.restart);
        return true, threadId', spent';
      }
      return false, threadId', spent';
    }

    /** A recorded result: whether to try again and with what, or how to leave. */
    method Settle(c: Config, threadId: Option<Id>, spent: Spent, ghost attempts: nat, t: Turn, result: Result)
      returns (again: bool, exit: Exit, threadId': Option<Id>, spent': Spent)
      modifies `user
      ensures AfterEnd(c, Loop(threadId, spent, old(user), attempts), t, result)
           == if again then Running(Loop(threadId', spent', user, attempts)) else Left(exit, attempts)
      ensures old(user).acceptedLiveSteers <= user.acceptedLiveSteers
    {
      again, exit, threadId', spent' := true, Failed, threadId, spent;
      if ShouldRecoverContextWindow(c, spent', user, result) {
        spent' := spent'.(contextWindows := spent'.contextWindows + 1);
        Wait(t.contextFallback);
        if !t.contextFallback.fails {
          threadId' := None;
          return;
        }
      }
      if ShouldRecoverThreadCorruption(c, spent', user, result, threadId') {
        spent' := spent'.(corruptions := spent'.corruptions + 1);
        Wait(t.corruptionFallback);
        if !t.corruptionFallback.fails {
          threadId' := None;
          return;
        }
      }
      again, exit, threadId', spent' := Resume(threadId', spent', attempts, t, result);
    }

    /** What is left of a result once no compaction helps: a restart after an interrupt,
        a move to the replacement thread, or the end. */
    method Resume(threadId: Option<Id>, spent: Spent, ghost attempts: nat, t: Turn, result: Result)
      returns (again: bool, exit: Exit, threadId': Option<Id>, spent': Spent)
      modifies `user
      ensures AfterCorruption(Loop(threadId, spent, old(user), attempts), t, result)
           == if again then Running(Loop(threadId', spent', user, attempts)) else Left(exit, attempts)
      ensures old(user).acceptedLiveSteers <= user.acceptedLiveSteers
    {
      again, exit, threadId', spent' := true, Failed, threadId, spent;
      var kind := ClassifyInterruptedRunRecovery(spent, user, result);
      if kind.Some? {
        Wait(t.notice);
        spent' := spent'.(interrupts := spent'.interrupts + 1);
        if kind.value.LiveSteerRestart? {
          spent' := spent'.(liveSteers := user.acceptedLiveSteers);
        }
        Wait(t.restart);
        again := !t.restart.fails;
        threadId' := result.priorThreadId;
        return;
      }
      if result.resumeReplacement.None? || user.interruptRequested {
        again, exit := false, Returned(result);
        return;
      }
      var replacement := result.resumeReplacement.value.replacementThreadId;
      if replacement.Some? && replacement != threadId' {
        threadId' := replacement;
        Wait(t.restart);
        if t.restart.fails {
          again := false;
          return;
        }
      }
      if threadId'.Some? && spent'.resume < MAX_THREAD_RESUME_RETRIES {
        spent' := spent'.(resume := spent'.resume + 1);
        return;
      }
      again, exit := false, if t.notice.fails then Failed else ResumePending;
    }

    /** The loop leaves, for every script that brings boundedly many live steers, as its
        turns say, after at most six attempts and one more for each capacity delay and
        each live steer accepted by then. */
    method ExecuteRunAttempts(c: Config, sessionThreadId: Option<Id>, script: nat -> Turn, ghost liveSteers: nat)
      returns (exit: Exit, attempts: nat)
      requires child == None
      requires forall n :: user.acceptedLiveSteers + SteersIn(script, n) <= liveSteers
      modifies this
      ensures attempts <= 6 + c.capacityDelays + user.acceptedLiveSteers
      ensures exists n: nat :: Iterations(c, Start(sessionThreadId, old(user)), script, n) == Left(exit, attempts)
      ensures child == None
    {
      hide Iterations, SteersIn, SteersOf, AttemptLimit, Start, AfterThrow, AfterEnd;
      ghost var start := Start(sessionThreadId, user);
      StartsRunning(c, sessionThreadId, user, script);
      var threadId, spent := sessionThreadId, Spent(0, 0, 0, 0, 0, 0);
      attempts := 0;
      while true
        invariant child == None
        invariant Iterations(c, start, script, attempts) == Running(Loop(threadId, spent, user, attempts))
        decreases AttemptLimit(c, liveSteers) - attempts
      {
        ghost var before := Loop(threadId, spent, user, attempts);
        OneTurn(c, sessionThreadId, old(user), script, before, liveSteers);
        var t := script(attempts);
        if user.interruptRequested && child == None {
          exit := InterruptedBeforeAttempt;
          return;
        }
        attempts := attempts + 1;
        RunAttempt(t, attempts);
        if t.outcome.Threw? {
          var again, threadId', spent' := Catch(c, threadId, spent, attempts, t, t.outcome.error);
          threadId, spent := threadId', spent';
          if again {
            continue;
          }
          exit := Failed;
          return;
        }
        var result := t.outcome.result;
        Wait(t.recording);
        if t.recording.fails {
          exit := Failed;
          return;
        }
        var again, exit', threadId', spent' := Settle(c, threadId, spent, attempts, t, result);
        threadId, spent := threadId', spent';
        if !again {
          exit := exit';
          return;
        }
      }
    }
  }
}
