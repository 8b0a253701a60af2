/** The slots of the worker pool (src/pty-worker/worker-pool.js,
    src/pty-worker/worker-pool-lifecycle.js, src/pty-worker/worker-pool-run-lifecycle.js).

    A start reserves its session's slot, waits for the host and for the progress
    message, turns the reservation into an active run, and waits again before the run's
    lifecycle is attached.  Between two awaits the code runs undisturbed; the sections
    between awaits of any number of starts, finishes and a shutdown interleave freely. */
module WorkerPool {
  type Key = string

  /** A start, and the run that comes of it, is known by its number. */
  type Pid = nat

  datatype Slots = Slots(
    activeRuns: map<Key, Pid>,
    startingRuns: set<Key>,
    startingRunSessions: map<Key, Pid>,
    startingRunPromises: map<Key, Pid>,
    shuttingDown: bool)
  {
    /** The sessions that hold a slot. */
    function Taken(): set<Key> {
      activeRuns.Keys + startingRuns
    }
  }

  /** Where a start waits, or how it ended. */
  datatype Phase =
    | ResolvingHost
    | SendingProgress
    | NotingShutdown
    | PatchingSession
    | CleaningUp
    | Running
    | Finished
    | FailedStart

  /** The local variables of one start. */
  datatype Start = Start(key: Key, phase: Phase, reserved: bool, settled: bool)

  datatype Admission = Admitted | RefusedForShutdown | Busy | AtCapacity

  datatype HostOutcome = HostOk | HostUnavailable | HostThrows

  function CanStart(v: Slots, max: nat, key: Key): Admission {
    if v.shuttingDown then RefusedForShutdown
    else if key in v.activeRuns || key in v.startingRuns then Busy
    else if |v.activeRuns| + |v.startingRuns| >= max then AtCapacity
    else Admitted
  }

  // ---------------------------------------------------------------------
  // The sections between awaits
  // ---------------------------------------------------------------------

  function Reserve(v: Slots, key: Key, p: Pid): Slots {
    v.(startingRuns := v.startingRuns + {key}, startingRunSessions := v.startingRunSessions[key := p],
       startingRunPromises := v.startingRunPromises[key := p])
  }

  function ReleaseReservation(v: Slots, s: Start): Slots {
    if !s.reserved then v
    else v.(startingRuns := v.startingRuns - {s.key}, startingRunSessions := v.startingRunSessions - {s.key})
  }

  function SettleStart(v: Slots, s: Start, p: Pid): Slots {
    if s.settled || !(s.key in v.startingRunPromises && v.startingRunPromises[s.key] == p) then v
    else v.(startingRunPromises := v.startingRunPromises - {s.key})
  }

  function ReleaseAndSettle(v: Slots, s: Start, p: Pid): Slots {
    SettleStart(ReleaseReservation(v, s), s, p)
  }

  function DropRun(v: Slots, s: Start, p: Pid): Slots {
    if s.key in v.activeRuns && v.activeRuns[s.key] == p then v.(activeRuns := v.activeRuns - {s.key}) else v
  }

  /** What one section does to the slots, and where the start waits next. */
  datatype Section = Section(slots: Slots, phase: Phase, released: bool)

  function AfterHost(v: Slots, s: Start, p: Pid, host: HostOutcome, goalRefused: bool): Section {
    if host.HostOk? && !goalRefused then Section(v, SendingProgress, false)
    else Section(ReleaseAndSettle(v, s, p), FailedStart, true)
  }

  function AfterProgress(v: Slots, s: Start, p: Pid, throws: bool): Section {
    if throws then Section(v, CleaningUp, false)
    else if v.shuttingDown then Section(ReleaseAndSettle(v, s, p), NotingShutdown, true)
    else Section(ReleaseAndSettle(v.(activeRuns := v.activeRuns[s.key := p]), s, p), PatchingSession, true)
  }

  function AfterNotingShutdown(v: Slots, throws: bool): Section {
    Section(v, if throws then CleaningUp else FailedStart, false)
  }

  function AfterPatch(v: Slots, s: Start, p: Pid, throws: bool): Section {
    if throws then Section(DropRun(v, s, p), CleaningUp, false) else Section(v, Running, false)
  }

  function AfterCleanup(v: Slots, s: Start, p: Pid): Section {
    Section(ReleaseAndSettle(v, s, p), FailedStart, true)
  }

  function AfterRun(v: Slots, s: Start, p: Pid): Section {
    Section(DropRun(v, s, p), Finished, false)
  }

  datatype Event =
    | Begin(key: Key)
    | HostResolved(pid: Pid, host: HostOutcome, goalRefused: bool)
    | ProgressSent(pid: Pid, throws: bool)
    | ShutdownNoted(pid: Pid, throws: bool)
    | SessionPatched(pid: Pid, throws: bool)
    | CleanedUp(pid: Pid)
    | RunEnded(pid: Pid)
    | Shutdown

  datatype State = State(slots: Slots, starts: seq<Start>)

  /** The section that an event lets the start p run; an event that no start waits for is no section. */
  predicate Awaited(s: Start, e: Event) {
    match e
    case HostResolved(_, _, _) => s.phase.ResolvingHost?
    case ProgressSent(_, _) => s.phase.SendingProgress?
    case ShutdownNoted(_, _) => s.phase.NotingShutdown?
    case SessionPatched(_, _) => s.phase.PatchingSession?
    case CleanedUp(_) => s.phase.CleaningUp?
    case RunEnded(_) => s.phase.Running?
    case _ => false
  }

  function SectionOf(v: Slots, s: Start, e: Event): Section
    requires Awaited(s, e)
  {
    match e
    case HostResolved(p, host, goalRefused) => AfterHost(v, s, p, host, goalRefused)
    case ProgressSent(p, throws) => AfterProgress(v, s, p, throws)
    case ShutdownNoted(_, throws) => AfterNotingShutdown(v, throws)
    case SessionPatched(p, throws) => AfterPatch(v, s, p, throws)
    case CleanedUp(p) => AfterCleanup(v, s, p)
    case RunEnded(p) => AfterRun(v, s, p)
  }

  function Advance(s: Start, section: Section): Start {
    Start(s.key, section.phase, s.reserved && !section.released, s.settled || section.released)
  }

  function Step(max: nat, st: State, e: Event): State {
    match e
    case Begin(key) =>
      if CanStart(st.slots, max, key).Admitted? then
        State(Reserve(st.slots, key, |st.starts|), st.starts + [Start(key, ResolvingHost, true, false)])
      else st
    case Shutdown => st.(slots := st.slots.(shuttingDown := true))
    case _ =>
      if e.pid < |st.starts| && Awaited(st.starts[e.pid], e) then
        var section := SectionOf(st.slots, st.starts[e.pid], e);
        State(section.slots, st.starts[e.pid := Advance(st.starts[e.pid], section)])
      else st
  }

  /** The state after the first n events. */
  function Steps(max: nat, st: State, events: seq<Event>, n: nat): State
    requires n <= |events|
  {
    if n == 0 then st else Step(max, Steps(max, st, events, n - 1), events[n - 1])
  }

  const Idle := State(Slots(map[], {}, map[], map[], false), [])

  // ---------------------------------------------------------------------
  // Slot safety
  // ---------------------------------------------------------------------

  /** The three tables of starting runs agree, and the slots are not oversubscribed. */
  predicate SlotsAgree(v: Slots, max: nat) {
    && v.activeRuns.Keys !! v.startingRuns
    && |v.activeRuns| + |v.startingRuns| <= max
    && v.startingRunSessions.Keys == v.startingRuns
    && v.startingRunPromises.Keys == v.startingRuns
  }

  predicate HoldsReservation(v: Slots, key: Key, p: Pid) {
    && key in v.startingRuns
    && key in v.startingRunSessions && v.startingRunSessions[key] == p
    && key in v.startingRunPromises && v.startingRunPromises[key] == p
  }

  predicate HoldsRun(v: Slots, key: Key, p: Pid) {
    key in v.activeRuns && v.activeRuns[key] == p
  }

  /** What a start holds is told by where it waits. */
  predicate Consistent(v: Slots, s: Start, p: Pid) {
    && s.reserved == !s.settled
    && (s.reserved <==> HoldsReservation(v, s.key, p))
    && (s.phase.PatchingSession? || s.phase.Running? <==> HoldsRun(v, s.key, p))
    && (s.phase.ResolvingHost? || s.phase.SendingProgress? ==> s.reserved)
    && (s.phase.NotingShutdown? || s.phase.PatchingSession? || s.phase.Running? || s.phase.Finished? || s.phase.FailedStart? ==> !s.reserved)
  }

  /** Every entry of the tables belongs to a start of that session. */
  predicate Owned(st: State, key: Key) {
    && (key in st.slots.activeRuns ==> st.slots.activeRuns[key] < |st.starts| && st.starts[st.slots.activeRuns[key]].key == key)
    && (key in st.slots.startingRunPromises ==>
          st.slots.startingRunPromises[key] < |st.starts| && st.starts[st.slots.startingRunPromises[key]].key == key)
    && (key in st.slots.startingRunSessions ==>
          key in st.slots.startingRunPromises && st.slots.startingRunSessions[key] == st.slots.startingRunPromises[key])
  }

  ghost predicate Valid(max: nat, st: State) {
    && SlotsAgree(st.slots, max)
    && (forall p :: 0 <= p < |st.starts| ==> Consistent(st.slots, st.starts[p], p))
    && (forall key :: Owned(st, key))
  }

  /** The start p may run a section on e. */
  predicate Due(st: State, e: Event, p: Pid) {
    && !e.Begin? && !e.Shutdown? && e.pid == p && p < |st.starts| && Awaited(st.starts[p], e)
  }

  lemma ReleaseAgrees(max: nat, v: Slots, s: Start, p: Pid)
    requires SlotsAgree(v, max) && s.reserved == !s.settled
    requires s.reserved <==> HoldsReservation(v, s.key, p)
    ensures var w := ReleaseAndSettle(v, s, p);
            && SlotsAgree(w, max) && !HoldsReservation(w, s.key, p)
            && w.activeRuns == v.activeRuns && (HoldsRun(w, s.key, p) <==> HoldsRun(v, s.key, p))
            && (s.reserved ==> s.key in v.Taken() && s.key !in w.Taken() && |w.activeRuns| + |w.startingRuns| < max)
            && w.Taken() <= v.Taken() && w.shuttingDown == v.shuttingDown
  {
    if s.reserved {
      assert ReleaseAndSettle(v, s, p).startingRunSessions.Keys == v.startingRunSessions.Keys - {s.key};
      assert ReleaseAndSettle(v, s, p).startingRunPromises.Keys == v.startingRunPromises.Keys - {s.key};
    }
  }

  lemma ActivationCommutes(v: Slots, s: Start, p: Pid)
    ensures ReleaseAndSettle(v.(activeRuns := v.activeRuns[s.key := p]), s, p)
         == ReleaseAndSettle(v, s, p).(activeRuns := v.activeRuns[s.key := p])
  {
  }

  lemma RunAdded(max: nat, v: Slots, key: Key, p: Pid)
    requires SlotsAgree(v, max) && key !in v.Taken() && |v.activeRuns| + |v.startingRuns| < max
    ensures var w := v.(activeRuns := v.activeRuns[key := p]);
            && SlotsAgree(w, max) && HoldsRun(w, key, p) && w.Taken() <= v.Taken() + {key}
            && (HoldsReservation(w, key, p) <==> HoldsReservation(v, key, p))
  {
    var w := v.(activeRuns := v.activeRuns[key := p]);
    assert |w.activeRuns| == |v.activeRuns| + 1;
    assert w.activeRuns.Keys !! w.startingRuns;
  }

  lemma ActivationAgrees(max: nat, v: Slots, s: Start, p: Pid)
    requires SlotsAgree(v, max) && s.reserved && !s.settled && HoldsReservation(v, s.key, p)
    ensures var w := ReleaseAndSettle(v.(activeRuns := v.activeRuns[s.key := p]), s, p);
            && SlotsAgree(w, max) && !HoldsReservation(w, s.key, p) && HoldsRun(w, s.key, p)
            && w.Taken() <= v.Taken() && w.shuttingDown == v.shuttingDown
  {
    hide ReleaseAndSettle, SlotsAgree, HoldsReservation, HoldsRun, Slots.Taken;
    ReleaseAgrees(max, v, s, p);
    ActivationCommutes(v, s, p);
    RunAdded(max, ReleaseAndSettle(v, s, p), s.key, p);
  }

  lemma DropAgrees(max: nat, v: Slots, s: Start, p: Pid)
    requires SlotsAgree(v, max)
    ensures var w := DropRun(v, s, p);
            && SlotsAgree(w, max) && !HoldsRun(w, s.key, p)
            && (HoldsReservation(w, s.key, p) <==> HoldsReservation(v, s.key, p))
            && w.Taken() <= v.Taken() && w.shuttingDown == v.shuttingDown
  {
    if HoldsRun(v, s.key, p) {
      assert DropRun(v, s, p).activeRuns.Keys == v.activeRuns.Keys - {s.key};
    }
  }

  lemma SectionAgrees(max: nat, v: Slots, s: Start, e: Event)
    requires !e.Begin? && !e.Shutdown? && Awaited(s, e)
    requires SlotsAgree(v, max) && Consistent(v, s, e.pid)
    ensures SlotsAgree(SectionOf(v, s, e).slots, max)
    ensures Consistent(SectionOf(v, s, e).slots, Advance(s, SectionOf(v, s, e)), e.pid)
    ensures SectionOf(v, s, e).slots.Taken() <= v.Taken()
    ensures SectionOf(v, s, e).slots.shuttingDown == v.shuttingDown
  {
    hide SlotsAgree, ReleaseAndSettle, DropRun, HoldsReservation, HoldsRun, Slots.Taken;
    ReleaseAgrees(max, v, s, e.pid);
    DropAgrees(max, v, s, e.pid);
    if s.reserved {
      ActivationAgrees(max, v, s, e.pid);
    }
  }

  /** What the start q holds of a session is the same in v and in w. */
  predicate HoldsTheSame(v: Slots, w: Slots, key: Key, q: Pid) {
    (HoldsReservation(v, key, q) <==> HoldsReservation(w, key, q)) && (HoldsRun(v, key, q) <==> HoldsRun(w, key, q))
  }

  lemma ReleaseSparesOthers(v: Slots, s: Start, p: Pid, key: Key, q: Pid)
    requires q != p && (s.reserved ==> HoldsReservation(v, s.key, p))
    ensures HoldsTheSame(v, ReleaseAndSettle(v, s, p), key, q)
  {
  }

  lemma DropSparesOthers(v: Slots, s: Start, p: Pid, key: Key, q: Pid)
    requires q != p
    ensures HoldsTheSame(v, DropRun(v, s, p), key, q)
  {
  }

  lemma ActivationSparesOthers(max: nat, v: Slots, s: Start, p: Pid, key: Key, q: Pid)
    requires q != p && SlotsAgree(v, max) && HoldsReservation(v, s.key, p)
    ensures HoldsTheSame(v, v.(activeRuns := v.activeRuns[s.key := p]), key, q)
    ensures HoldsReservation(v.(activeRuns := v.activeRuns[s.key := p]), s.key, p)
  {
  }

  lemma SectionSparesOthers(max: nat, v: Slots, s: Start, e: Event, other: Start, q: Pid)
    requires !e.Begin? && !e.Shutdown? && Awaited(s, e)
    requires SlotsAgree(v, max) && Consistent(v, s, e.pid) && Consistent(v, other, q)
    requires q != e.pid
    ensures Consistent(SectionOf(v, s, e).slots, other, q)
  {
    hide SlotsAgree, ReleaseAndSettle, DropRun, HoldsReservation, HoldsRun;
    ReleaseSparesOthers(v, s, e.pid, other.key, q);
    DropSparesOthers(v, s, e.pid, other.key, q);
    if s.reserved {
      ActivationSparesOthers(max, v, s, e.pid, other.key, q);
      ReleaseSparesOthers(v.(activeRuns := v.activeRuns[s.key := e.pid]), s, e.pid, other.key, q);
    }
  }

  lemma SectionKeepsOwners(max: nat, st: State, e: Event, p: Pid, key: Key)
    requires Due(st, e, p) && SlotsAgree(st.slots, max) && Consistent(st.slots, st.starts[p], p) && Owned(st, key)
    ensures Owned(Step(max, st, e), key)
  {
  }

  lemma BeginIsSafe(max: nat, st: State, key: Key)
    requires Valid(max, st)
    ensures Valid(max, Step(max, st, Begin(key)))
  {
    var after := Step(max, st, Begin(key));
    if CanStart(st.slots, max, key).Admitted? {
      assert Owned(st, key);
      forall p | 0 <= p < |after.starts| ensures Consistent(after.slots, after.starts[p], p) {
        if p < |st.starts| {
          assert Consistent(st.slots, st.starts[p], p);
        }
      }
      forall k ensures Owned(after, k) {
        assert Owned(st, k);
      }
    }
  }

  /** Every step of every start keeps the slots safe, and none takes a slot once the
      pool is shutting down. */
  lemma StepIsSafe(max: nat, st: State, e: Event)
    requires Valid(max, st)
    ensures Valid(max, Step(max, st, e))
    ensures st.slots.shuttingDown ==> Step(max, st, e).slots.shuttingDown && Step(max, st, e).slots.Taken() <= st.slots.Taken()
  {
    hide SectionOf, SlotsAgree, Consistent, Owned;
    var after := Step(max, st, e);
    if e.Begin? {
      BeginIsSafe(max, st, e.key);
    } else if e.Shutdown? {
      ShutdownIsSafe(max, st);
    } else if e.pid < |st.starts| && Awaited(st.starts[e.pid], e) {
      SectionAgrees(max, st.slots, st.starts[e.pid], e);
      forall q | 0 <= q < |after.starts| ensures Consistent(after.slots, after.starts[q], q) {
        if q != e.pid {
          SectionSparesOthers(max, st.slots, st.starts[e.pid], e, st.starts[q], q);
        }
      }
      forall key ensures Owned(after, key) {
        SectionKeepsOwners(max, st, e, e.pid, key);
      }
    }
  }

  lemma ShutdownIsSafe(max: nat, st: State)
    requires Valid(max, st)
    ensures Valid(max, Step(max, st, Shutdown))
  {
    var after := Step(max, st, Shutdown);
    forall p | 0 <= p < |after.starts| ensures Consistent(after.slots, after.starts[p], p) {
      assert Consistent(st.slots, st.starts[p], p);
    }
    forall key ensures Owned(after, key) {
      assert Owned(st, key);
    }
  }

  lemma {:induction false} StepsAreSafe(max: nat, events: seq<Event>, n: nat)
    requires n <= |events|
    ensures Valid(max, Steps(max, Idle, events, n))
  {
    hide Step, Valid;
    if n == 0 {
      IdleIsSafe(max);
    } else {
      StepsAreSafe(max, events, n - 1);
      StepIsSafe(max, Steps(max, Idle, events, n - 1), events[n - 1]);
    }
  }

  lemma IdleIsSafe(max: nat)
    ensures Valid(max, Idle)
  {
  }

  /** At every yield point of every interleaving: no session is both active and
      starting, the limit is kept, and the three tables of starting runs have the same keys. */
  lemma SlotsAreSafe(max: nat, events: seq<Event>)
    ensures var v := Steps(max, Idle, events, |events|).slots;
            && v.activeRuns.Keys !! v.startingRuns
            && |v.activeRuns| + |v.startingRuns| <= max
            && v.startingRunSessions.Keys == v.startingRunPromises.Keys == v.startingRuns
  {
    hide Steps;
    StepsAreSafe(max, events, |events|);
  }

  /** A start that ended without a run, and a run that ended, left nothing in any table;
      a run that goes on holds its session's slot. */
  lemma EndedStartsLeaveNoTrace(max: nat, events: seq<Event>, p: Pid, key: Key)
    requires p < |Steps(max, Idle, events, |events|).starts|
    ensures var st := Steps(max, Idle, events, |events|);
            && (st.starts[p].phase.FailedStart? || st.starts[p].phase.Finished? || st.starts[p].phase.NotingShutdown? ==>
                  && (key in st.slots.activeRuns ==> st.slots.activeRuns[key] != p)
                  && (key in st.slots.startingRunSessions ==> st.slots.startingRunSessions[key] != p)
                  && (key in st.slots.startingRunPromises ==> st.slots.startingRunPromises[key] != p))
            && (st.starts[p].phase.Running? ==> HoldsRun(st.slots, st.starts[p].key, p))
  {
    hide Steps;
    StepsAreSafe(max, events, |events|);
    var st := Steps(max, Idle, events, |events|);
    assert Consistent(st.slots, st.starts[p], p);
    assert Owned(st, key) && Owned(st, st.starts[p].key);
  }

  predicate HoldsSlot(st: State, p: Pid) {
    p < |st.starts| && (HoldsRun(st.slots, st.starts[p].key, p) || HoldsReservation(st.slots, st.starts[p].key, p))
  }

  /** No two starts of one session hold its slot at the same time, and a session that is
      taken is held by one of its starts. */
  lemma OneStartPerSession(max: nat, events: seq<Event>, p: Pid, q: Pid, key: Key)
    ensures var st := Steps(max, Idle, events, |events|);
      && (HoldsSlot(st, p) && HoldsSlot(st, q) && st.starts[p].key == st.starts[q].key ==> p == q)
      && (key in st.slots.Taken() <==> exists r: Pid :: HoldsSlot(st, r) && st.starts[r].key == key)
  {
    hide Steps;
    StepsAreSafe(max, events, |events|);
    var st := Steps(max, Idle, events, |events|);
    assert Owned(st, key);
    if key in st.slots.activeRuns {
      assert HoldsSlot(st, st.slots.activeRuns[key]);
    }
    if key in st.slots.startingRuns {
      assert HoldsSlot(st, st.slots.startingRunPromises[key]);
    }
  }

  /** The pool shuts down from the first request to do so, and for no other reason. */
  lemma {:induction false} ShutdownIsForGood(max: nat, events: seq<Event>, n: nat)
    requires n <= |events|
    ensures Steps(max, Idle, events, n).slots.shuttingDown <==> exists k :: 0 <= k < n && events[k].Shutdown?
  {
    hide SectionOf;
    if n != 0 {
      ShutdownIsForGood(max, events, n - 1);
      SectionsDoNotShutDown(max, Steps(max, Idle, events, n - 1), events[n - 1]);
    }
  }

  lemma SectionsDoNotShutDown(max: nat, st: State, e: Event)
    ensures Step(max, st, e).slots.shuttingDown <==> st.slots.shuttingDown || e.Shutdown?
  {
  }

  /** After shutdown begins, the sessions that hold a slot only get fewer. */
  lemma {:induction false} ShutdownOnlyDrains(max: nat, events: seq<Event>, n: nat, m: nat)
    requires n <= m <= |events|
    requires Steps(max, Idle, events, n).slots.shuttingDown
    ensures Steps(max, Idle, events, m).slots.shuttingDown
    ensures Steps(max, Idle, events, m).slots.Taken() <= Steps(max, Idle, events, n).slots.Taken()
  {
    hide Step, Valid, Slots.Taken, Idle;
    if n < m {
      ShutdownOnlyDrains(max, events, n, m - 1);
      StepsAreSafe(max, events, m - 1);
      StepIsSafe(max, Steps(max, Idle, events, m - 1), events[m - 1]);
    }
  }

  /** Once a shutdown finds the pool drained, no session ever holds a slot again. */
  lemma DrainedStaysDrained(max: nat, events: seq<Event>, n: nat, m: nat)
    requires n <= m <= |events|
    requires Steps(max, Idle, events, n).slots.shuttingDown && Steps(max, Idle, events, n).slots.Taken() == {}
    ensures Steps(max, Idle, events, m).slots.Taken() == {}
  {
    ShutdownOnlyDrains(max, events, n, m);
  }

  // ---------------------------------------------------------------------
  // Starts get their slot
  // ---------------------------------------------------------------------

  /** A start of a session takes its slot exactly when the pool is not shutting down, the
      session is free and fewer sessions than the limit hold a slot. */
  lemma FreeSessionsAreAdmitted(max: nat, st: State, key: Key)
    requires Valid(max, st)
    ensures var after := Step(max, st, Begin(key));
      if !st.slots.shuttingDown && key !in st.slots.Taken() && |st.slots.Taken()| < max
      then after.slots.Taken() == st.slots.Taken() + {key} && |after.starts| == |st.starts| + 1
           && after.starts[|st.starts|] == Start(key, ResolvingHost, true, false)
      else after == st
    ensures CanStart(st.slots, max, key) ==
      if st.slots.shuttingDown then RefusedForShutdown
      else if key in st.slots.Taken() then Busy
      else if |st.slots.Taken()| >= max then AtCapacity
      else Admitted
  {
    TakenCounts(st.slots, max);
  }

  lemma TakenCounts(v: Slots, max: nat)
    requires SlotsAgree(v, max)
    ensures |v.Taken()| == |v.activeRuns| + |v.startingRuns|
  {
    assert v.Taken() == v.activeRuns.Keys + v.startingRuns;
  }

  /** A start whose host resolves, whose message is sent and whose session is patched runs,
      and holds its slot, unless a shutdown came before the message was sent. */
  lemma GoodStartsRun(max: nat, st: State, p: Pid)
    requires Valid(max, st) && p < |st.starts| && st.starts[p].phase.ResolvingHost?
    ensures var sent := Step(max, Step(max, st, HostResolved(p, HostOk, false)), ProgressSent(p, false));
      if st.slots.shuttingDown then sent.starts[p].phase.NotingShutdown?
      else sent.starts[p].phase.PatchingSession? && HoldsRun(sent.slots, st.starts[p].key, p)
           && var patched := Step(max, sent, SessionPatched(p, false));
              patched.starts[p].phase.Running? && HoldsRun(patched.slots, st.starts[p].key, p)
  {
    hide SlotsAgree, Owned, HoldsReservation;
    var resolved := Step(max, st, HostResolved(p, HostOk, false));
    StepIsSafe(max, st, HostResolved(p, HostOk, false));
    var sent := Step(max, resolved, ProgressSent(p, false));
    StepIsSafe(max, resolved, ProgressSent(p, false));
    StepIsSafe(max, sent, SessionPatched(p, false));
  }

  /** A step after which a start is over: its host or its backend refused, its run ended, or
      what had to be noted or taken back after a failure or a shutdown is done. */
  predicate Ends(s: Start, e: Event) {
    match e
    case HostResolved(_, host, goalRefused) => !host.HostOk? || goalRefused
    case ShutdownNoted(_, throws) => !throws
    case CleanedUp(_) => true
    case RunEnded(_) => true
    case _ => false
  }

  /** A step that frees the session: also the failed patch that takes back the run, and the
      message that was sent when the pool was shutting down already. */
  predicate Frees(s: Start, e: Event, shuttingDown: bool) {
    Ends(s, e) || (e.SessionPatched? && e.throws) || (e.ProgressSent? && !e.throws && shuttingDown)
  }

  lemma ReleaseFrees(max: nat, v: Slots, s: Start, p: Pid)
    requires SlotsAgree(v, max) && s.reserved == !s.settled && (s.reserved <==> HoldsReservation(v, s.key, p))
    ensures ReleaseAndSettle(v, s, p).Taken() == if s.reserved then v.Taken() - {s.key} else v.Taken()
    ensures ReleaseAndSettle(v, s, p).activeRuns == v.activeRuns
  {
    if s.reserved {
      assert s.key !in v.activeRuns;
    }
    hide HoldsReservation, SlotsAgree;
    assert SettleStart(ReleaseReservation(v, s), s, p).Taken() == ReleaseReservation(v, s).Taken();
  }

  lemma DropFrees(max: nat, v: Slots, s: Start, p: Pid)
    requires SlotsAgree(v, max)
    ensures DropRun(v, s, p).Taken() == if HoldsRun(v, s.key, p) then v.Taken() - {s.key} else v.Taken()
  {
  }

  /** A section frees the session of a start that holds its slot, or leaves all as taken as before. */
  lemma SectionFrees(max: nat, v: Slots, s: Start, e: Event)
    requires SlotsAgree(v, max) && Awaited(s, e) && !e.Begin? && !e.Shutdown? && Consistent(v, s, e.pid)
    requires HoldsRun(v, s.key, e.pid) || HoldsReservation(v, s.key, e.pid)
    ensures SectionOf(v, s, e).slots.Taken() == if Frees(s, e, v.shuttingDown) then v.Taken() - {s.key} else v.Taken()
  {
    hide SlotsAgree, HoldsReservation, HoldsRun, ReleaseAndSettle, DropRun;
    ReleaseFrees(max, v, s, e.pid);
    DropFrees(max, v, s, e.pid);
    if e.ProgressSent? && !e.throws && !v.shuttingDown {
      ActivationCommutes(v, s, e.pid);
      ReservedIsTaken(v, s.key, e.pid);
      var released := ReleaseAndSettle(v, s, e.pid);
      assert SectionOf(v, s, e).slots == released.(activeRuns := released.activeRuns[s.key := e.pid]);
      assert SectionOf(v, s, e).slots.Taken() == released.Taken() + {s.key};
    }
  }

  lemma ReservedIsTaken(v: Slots, key: Key, p: Pid)
    requires HoldsReservation(v, key, p)
    ensures key in v.Taken()
  {
  }

  /** When a start ends, and when its session is free for the next one: a failure of the
      message, of the notes of a shutdown or of the patch leads to the cleanup first. */
  lemma StartsEndAndFree(max: nat, st: State, e: Event, p: Pid)
    requires Valid(max, st) && Due(st, e, p)
    ensures var s, after := st.starts[p], Step(max, st, e);
      && (after.starts[p].phase.FailedStart? || after.starts[p].phase.Finished? <==> Ends(s, e))
      && (after.starts[p].phase.CleaningUp? <==> (e.ProgressSent? || e.ShutdownNoted? || e.SessionPatched?) && e.throws)
      && (HoldsSlot(st, p) ==>
            && (HoldsSlot(after, p) <==> !Frees(s, e, st.slots.shuttingDown))
            && after.slots.Taken() == if Frees(s, e, st.slots.shuttingDown) then st.slots.Taken() - {s.key} else st.slots.Taken())
  {
    hide Owned, HoldsReservation, HoldsRun, SlotsAgree, Slots.Taken, ReleaseAndSettle, DropRun;
    StepIsSafe(max, st, e);
    assert Consistent(st.slots, st.starts[p], p) && Consistent(Step(max, st, e).slots, Step(max, st, e).starts[p], p);
    if HoldsSlot(st, p) {
      SectionFrees(max, st.slots, st.starts[p], e);
    }
  }

  // ---------------------------------------------------------------------
  // The pool
  // ---------------------------------------------------------------------

  class CodexWorkerPool {
    const maxParallelSessions: nat
    var activeRuns: map<Key, Pid>
    var startingRuns: set<Key>
    var startingRunSessions: map<Key, Pid>
    var startingRunPromises: map<Key, Pid>
    var shuttingDown: bool

    constructor (maxParallelSessions: nat)
      ensures this.maxParallelSessions == maxParallelSessions && View() == Idle.slots
    {
      this.maxParallelSessions := maxParallelSessions;
      activeRuns, startingRuns, startingRunSessions, startingRunPromises := map[], {}, map[], map[];
      shuttingDown := false;
    }

    function View(): Slots
      reads this
    {
      Slots(activeRuns, startingRuns, startingRunSessions, startingRunPromises, shuttingDown)
    }

    method Admit(key: Key) returns (admission: Admission)
      ensures admission == CanStart(View(), maxParallelSessions, key)
    {
      if shuttingDown {
        return RefusedForShutdown;
      }
      if key in activeRuns || key in startingRuns {
        return Busy;
      }
      if |activeRuns| + |startingRuns| >= maxParallelSessions {
        return AtCapacity;
      }
      return Admitted;
    }

    method Close()
      modifies `shuttingDown
      ensures View() == old(View()).(shuttingDown := true)
    {
      shuttingDown := true;
    }

    /** One look of waitForShutdownDrain. */
    method Drained() returns (drained: bool)
      ensures drained <==> View().Taken() == {}
    {
      drained := |activeRuns| == 0 && |startingRuns| == 0;
      assert activeRuns.Keys <= View().Taken() && startingRuns <= View().Taken();
    }
  }

  /** One call of startPromptRun that was admitted, with the run that comes of it. */
  class PromptStart {
    const pool: CodexWorkerPool
    const sessionKey: Key
    const pid: Pid
    var phase: Phase
    var startReserved: bool
    var startingRunSettled: bool

    function Locals(): Start
      reads this
    {
      Start(sessionKey, phase, startReserved, startingRunSettled)
    }

    constructor (pool: CodexWorkerPool, sessionKey: Key, pid: Pid)
      modifies pool
      ensures this.pool == pool && this.sessionKey == sessionKey && this.pid == pid
      ensures pool.View() == Reserve(old(pool.View()), sessionKey, pid)
      ensures Locals() == Start(sessionKey, ResolvingHost, true, false)
    {
      this.pool, this.sessionKey, this.pid := pool, sessionKey, pid;
      phase, startReserved, startingRunSettled := ResolvingHost, true, false;
      new;
      pool.startingRuns := pool.startingRuns + {sessionKey};
      pool.startingRunSessions := pool.startingRunSessions[sessionKey := pid];
      pool.startingRunPromises := pool.startingRunPromises[sessionKey := pid];
    }

    method ReleaseStartReservation()
      modifies `startReserved, pool`startingRuns, pool`startingRunSessions
      ensures pool.View() == ReleaseReservation(old(pool.View()), old(Locals())) && !startReserved
    {
      if !startReserved {
        return;
      }
      pool.startingRuns := pool.startingRuns - {sessionKey};
      pool.startingRunSessions := pool.startingRunSessions - {sessionKey};
      startReserved := false;
    }

    method SettleStartingRun()
      modifies `startingRunSettled, pool`startingRunPromises
      ensures pool.View() == SettleStart(old(pool.View()), old(Locals()), pid) && startingRunSettled
    {
      if startingRunSettled {
        return;
      }
      startingRunSettled := true;
      if sessionKey in pool.startingRunPromises && pool.startingRunPromises[sessionKey] == pid {
        pool.startingRunPromises := pool.startingRunPromises - {sessionKey};
      }
    }

    method OnHostResolved(host: HostOutcome, goalRefused: bool)
      requires phase.ResolvingHost?
      modifies this, pool
      ensures var section := SectionOf(old(pool.View()), old(Locals()), HostResolved(pid, host, goalRefused));
              pool.View() == section.slots && Locals() == Advance(old(Locals()), section)
    {
      if !host.HostOk? || goalRefused {
        ReleaseStartReservation();
        SettleStartingRun();
        phase := FailedStart;
        return;
      }
      phase := SendingProgress;
    }

    method OnProgressSent(throws: bool)
      requires phase.SendingProgress?
      modifies this, pool
      ensures var section := SectionOf(old(pool.View()), old(Locals()), ProgressSent(pid, throws));
              pool.View() == section.slots && Locals() == Advance(old(Locals()), section)
    {
      if throws {
        phase := CleaningUp;
        return;
      }
      if pool.shuttingDown {
        ReleaseStartReservation();
        SettleStartingRun();
        phase := NotingShutdown;
        return;
      }
      pool.activeRuns := pool.activeRuns[sessionKey := pid];
      ReleaseStartReservation();
      SettleStartingRun();
      phase := PatchingSession;
    }

    method OnShutdownNoted(throws: bool)
      requires phase.NotingShutdown?
      modifies `phase
      ensures var section := SectionOf(pool.View(), old(Locals()), ShutdownNoted(pid, throws));
              pool.View() == section.slots && Locals() == Advance(old(Locals()), section)
    {
      phase := if throws then CleaningUp else FailedStart;
    }

    method OnSessionPatched(throws: bool)
      requires phase.PatchingSession?
      modifies `phase, pool`activeRuns
      ensures var section := SectionOf(old(pool.View()), old(Locals()), SessionPatched(pid, throws));
              pool.View() == section.slots && Locals() == Advance(old(Locals()), section)
    {
      if throws {
        if sessionKey in pool.activeRuns && pool.activeRuns[sessionKey] == pid {
          pool.activeRuns := pool.activeRuns - {sessionKey};
        }
        phase := CleaningUp;
        return;
      }
      phase := Running;
    }

    /** The end of the handler that every failure of a start passes through. */
    method OnCleanedUp()
      requires phase.CleaningUp?
      modifies this, pool
      ensures var section := SectionOf(old(pool.View()), old(Locals()), CleanedUp(pid));
              pool.View() == section.slots && Locals() == Advance(old(Locals()), section)
    {
      ReleaseStartReservation();
      SettleStartingRun();
      phase := FailedStart;
    }

    method OnRunEnded()
      requires phase.Running?
      modifies `phase, pool`activeRuns
      ensures var section := SectionOf(old(pool.View()), old(Locals()), RunEnded(pid));
              pool.View() == section.slots && Locals() == Advance(old(Locals()), section)
    {
      if sessionKey in pool.activeRuns && pool.activeRuns[sessionKey] == pid {
        pool.activeRuns := pool.activeRuns - {sessionKey};
      }
      phase := Finished;
    }
  }
}
