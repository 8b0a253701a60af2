/** The queue of live steering inputs of a run (src/app-server-v2/steering.js and the
    steer entry of app-server-v2-runner.js; src/pty-worker/codex-runner-steer.js is the
    same but for the guard of its entry).

    Inputs are buffered and flushed in batches.  Flushes run one after the other on a
    promise chain; each retries while the server knows no active turn.  A flush yields
    while it waits for an answer, sleeps, or refreshes the active turn, and anything
    may happen meanwhile. */
module SteerQueue {
  import opened Options

  type Id = string

  /** The flush that runs, between two yields: its batch, the attempt it makes (counted
      from 0) and the steer requests it has sent. */
  datatype Flight =
    | NoFlush
    | Requesting(input: seq<string>, attempt: nat, requests: nat)
    | Sleeping(input: seq<string>, attempt: nat, requests: nat)
    | Refreshing(input: seq<string>, attempt: nat, requests: nat)

  /** accepted and delivered are the inputs that callers handed in and that the server
      acknowledged; mostRequests is the most steer requests that one flush has sent. */
  datatype State = State(
    retryDelays: nat,
    threadKnown: bool,
    activeTurnId: Option<Id>,
    pending: seq<string>,
    queuedFlushes: nat,
    flight: Flight,
    accepted: seq<string>,
    delivered: seq<string>,
    mostRequests: nat)

  function Initial(retryDelays: nat): State {
    State(retryDelays, false, None, [], 0, NoFlush, [], [], 0)
  }

  function InFlight(f: Flight): seq<string> {
    if f.NoFlush? then [] else f.input
  }

  // ---------------------------------------------------------------------
  // The pieces of the source
  // ---------------------------------------------------------------------

  /** steer: refused while the run is finalizing, buffered while there is no turn. */
  function Steer(s: State, input: seq<string>, finalizing: bool, recovering: bool): State {
    if input == [] || finalizing then s
    else
      var s := s.(pending := s.pending + input, accepted := s.accepted + input);
      if recovering || !s.threadKnown || s.activeTurnId.None? then s else s.(queuedFlushes := s.queuedFlushes + 1)
  }

  /** The flush gives up: its batch goes back to the front of the queue. */
  function GiveUp(s: State, input: seq<string>): State {
    s.(pending := input + s.pending, flight := NoFlush)
  }

  /** One turn of the retry loop, up to its first yield. */
  function Attempt(s: State, input: seq<string>, attempt: nat, requests: nat): State {
    if s.threadKnown && s.activeTurnId.Some? then
      s.(flight := Requesting(input, attempt, requests + 1),
         mostRequests := if s.mostRequests < requests + 1 then requests + 1 else s.mostRequests)
    else if attempt >= s.retryDelays then GiveUp(s, input)
    else s.(flight := Sleeping(input, attempt, requests))
  }

  function StartFlush(s: State): State {
    var s := s.(queuedFlushes := if s.queuedFlushes > 0 then s.queuedFlushes - 1 else 0);
    if !s.threadKnown || s.activeTurnId.None? || s.pending == [] then s
    else Attempt(s.(pending := []), s.pending, 0, 0)
  }

  function SteerFails(s: State, noActiveTurn: bool): State
    requires s.flight.Requesting?
  {
    var Requesting(input, attempt, requests) := s.flight;
    if !noActiveTurn then GiveUp(s, input)
    else
      var s := s.(activeTurnId := None);
      if attempt >= s.retryDelays then GiveUp(s, input) else s.(flight := Sleeping(input, attempt, requests))
  }

  /** A refresh that fails leaves the turn as it was; either way the loop goes on. */
  function RefreshReturns(s: State, turn: Option<Option<Id>>): State
    requires s.flight.Refreshing?
  {
    var Refreshing(input, attempt, requests) := s.flight;
    var s := if turn.Some? then s.(activeTurnId := turn.value) else s;
    Attempt(s, input, attempt + 1, requests)
  }

  datatype Event =
    | SteerCalled(input: seq<string>, finalizing: bool, recovering: bool)
    | FlushScheduled
    | FlushBegins
    | SteerAccepted(turnId: Id)
    | SteerRefused(noActiveTurn: bool)
    | SleepEnds
    | RefreshEnds(turn: Option<Option<Id>>)
    | TurnChanges(activeTurnId: Option<Id>, threadKnown: bool)

  /** A queued flush begins when the one before it has ended. */
  predicate Enabled(s: State, e: Event) {
    match e
    case FlushBegins => s.flight.NoFlush? && s.queuedFlushes > 0
    case SteerAccepted(_) => s.flight.Requesting?
    case SteerRefused(_) => s.flight.Requesting?
    case SleepEnds => s.flight.Sleeping?
    case RefreshEnds(_) => s.flight.Refreshing?
    case _ => true
  }

  function Step(s: State, e: Event): State
    requires Enabled(s, e)
  {
    match e
    case SteerCalled(input, finalizing, recovering) => Steer(s, input, finalizing, recovering)
    case FlushScheduled => s.(queuedFlushes := s.queuedFlushes + 1)
    case FlushBegins => StartFlush(s)
    case SteerAccepted(turnId) =>
      s.(activeTurnId := Some(turnId), delivered := s.delivered + s.flight.input, flight := NoFlush)
    case SteerRefused(noActiveTurn) => SteerFails(s, noActiveTurn)
    case SleepEnds => s.(flight := Refreshing(s.flight.input, s.flight.attempt, s.flight.requests))
    case RefreshEnds(turn) => RefreshReturns(s, turn)
    case TurnChanges(activeTurnId, threadKnown) => s.(activeTurnId := activeTurnId, threadKnown := threadKnown)
  }

  // ---------------------------------------------------------------------
  // The queue, updated in place
  // ---------------------------------------------------------------------

  class Steering {
    const retryDelays: nat
    var threadKnown: bool
    var activeTurnId: Option<Id>
    var pendingSteerInputs: seq<string>
    var flushChain: nat  // flushes that wait for their turn
    var flight: Flight
    ghost var accepted: seq<string>
    ghost var delivered: seq<string>
    ghost var mostRequests: nat

    ghost function Now(): State
      reads this
    {
      State(retryDelays, threadKnown, activeTurnId, pendingSteerInputs, flushChain, flight, accepted, delivered, mostRequests)
    }

    constructor (retryDelays: nat)
      ensures Now() == Initial(retryDelays)
    {
      this.retryDelays := retryDelays;
      threadKnown, activeTurnId, pendingSteerInputs, flushChain, flight := false, None, [], 0, NoFlush;
      accepted, delivered, mostRequests := [], [], 0;
    }

    method SteerRun(input: seq<string>, finalizing: bool, recovering: bool) returns (ok: bool)
      modifies this
      ensures Now() == Step(old(Now()), SteerCalled(input, finalizing, recovering))
      ensures ok <==> accepted != old(accepted)
    {
      if input == [] {
        return false;
      }
      if finalizing {
        return false;
      }
      pendingSteerInputs := pendingSteerInputs + input;
      accepted := accepted + input;
      if recovering || !threadKnown || activeTurnId.None? {
        return true;
      }
      flushChain := flushChain + 1;
      return true;
    }

    /** flushPendingSteers up to its first yield. */
    method BeginFlush()
      requires flight.NoFlush? && flushChain > 0
      modifies this
      ensures Now() == Step(old(Now()), FlushBegins)
    {
      flushChain := flushChain - 1;
      if !threadKnown || activeTurnId.None? || pendingSteerInputs == [] {
        return;
      }
      var input := pendingSteerInputs;
      pendingSteerInputs := [];
      TryOnce(input, 0, 0);
    }

    method TryOnce(input: seq<string>, attempt: nat, requests: nat)
      modifies `pendingSteerInputs, `flight, `mostRequests
      ensures Now() == Attempt(old(Now()), input, attempt, requests)
    {
      if !threadKnown || activeTurnId.None? {
        if attempt >= retryDelays {
          PutBack(input);
          return;
        }
        flight := Sleeping(input, attempt, requests);
        return;
      }
      flight := Requesting(input, attempt, requests + 1);
      if mostRequests < requests + 1 {
        mostRequests := requests + 1;
      }
    }

    method PutBack(input: seq<string>)
      modifies `pendingSteerInputs, `flight
      ensures Now() == GiveUp(old(Now()), input)
    {
      pendingSteerInputs := input + pendingSteerInputs;
      flight := NoFlush;
    }

    method OnSteerAccepted(turnId: Id)
      requires flight.Requesting?
      modifies this
      ensures Now() == Step(old(Now()), SteerAccepted(turnId))
    {
      activeTurnId := Some(turnId);
      delivered := delivered + flight.input;
      flight := NoFlush;
    }

    method OnSteerRefused(noActiveTurn: bool)
      requires flight.Requesting?
      modifies this
      ensures Now() == Step(old(Now()), SteerRefused(noActiveTurn))
    {
      if !noActiveTurn {
        PutBack(flight.input);
        return;
      }
      activeTurnId := None;
      if flight.attempt >= retryDelays {
        PutBack(flight.input);
        return;
      }
      flight := Sleeping(flight.input, flight.attempt, flight.requests);
    }

    method OnSleepEnd()
      requires flight.Sleeping?
      modifies this
      ensures Now() == Step(old(Now()), SleepEnds)
    {
      flight := Refreshing(flight.input, flight.attempt, flight.requests);
    }

    method OnRefreshEnd(turn: Option<Option<Id>>)
      requires flight.Refreshing?
      modifies this
      ensures Now() == Step(old(Now()), RefreshEnds(turn))
    {
      if turn.Some? {
        activeTurnId := turn.value;
      }
      TryOnce(flight.input, flight.attempt + 1, flight.requests);
    }
  }

  // ---------------------------------------------------------------------
  // Nothing is lost, duplicated or reordered
  // ---------------------------------------------------------------------

  ghost predicate Run(events: seq<Event>, retryDelays: nat, n: nat)
    requires n <= |events|
  {
    n == 0 || (Run(events, retryDelays, n - 1) && Enabled(After(events, retryDelays, n - 1), events[n - 1]))
  }

  /** The state after n steps of a run. */
  function After(events: seq<Event>, retryDelays: nat, n: nat): State
    requires n <= |events|
  {
    if n == 0 then Initial(retryDelays)
    else
      var s := After(events, retryDelays, n - 1);
      if Enabled(s, events[n - 1]) then Step(s, events[n - 1]) else s
  }

  /** The accepted inputs are, in order, those delivered, those in flight and those
      that wait; a flush in its k-th attempt has sent at most k + 1 requests. */
  ghost predicate Conserved(s: State) {
    && s.accepted == s.delivered + InFlight(s.flight) + s.pending
    && (!s.flight.NoFlush? ==>
          && s.flight.input != []
          && s.flight.attempt <= s.retryDelays
          && s.flight.requests <= s.flight.attempt + 1
          && s.flight.requests <= s.mostRequests
          && (!s.flight.Requesting? ==> s.flight.attempt < s.retryDelays))
    && s.mostRequests <= s.retryDelays + 1
  }

  lemma AttemptConserves(s: State, input: seq<string>, attempt: nat, requests: nat)
    requires input != [] && attempt <= s.retryDelays && requests <= attempt && requests <= s.mostRequests <= s.retryDelays + 1
    requires s.accepted == s.delivered + input + s.pending
    ensures Conserved(Attempt(s, input, attempt, requests))
  {
    assert s.delivered + [] + (input + s.pending) == s.delivered + input + s.pending;
  }

  lemma StepConserves(s: State, e: Event)
    requires Conserved(s) && Enabled(s, e)
    ensures Conserved(Step(s, e))
  {
    match e
    case SteerCalled(input, _, _) =>
      assert s.delivered + InFlight(s.flight) + s.pending + input == s.delivered + InFlight(s.flight) + (s.pending + input);
    case FlushBegins =>
      if s.threadKnown && s.activeTurnId.Some? && s.pending != [] {
        assert s.delivered + [] + s.pending == s.delivered + s.pending + [];
        AttemptConserves(s.(queuedFlushes := s.queuedFlushes - 1, pending := []), s.pending, 0, 0);
      }
    case SteerAccepted(_) =>
      assert s.delivered + s.flight.input + [] + s.pending == s.delivered + s.flight.input + s.pending;
    case SteerRefused(_) =>
      assert s.delivered + [] + (s.flight.input + s.pending) == s.delivered + s.flight.input + s.pending;
    case RefreshEnds(turn) =>
      var s' := if turn.Some? then s.(activeTurnId := turn.value) else s;
      AttemptConserves(s', s.flight.input, s.flight.attempt + 1, s.flight.requests);
    case _ =>
  }

  /** In every interleaving of steer calls, turn changes, refreshes and flushes the
      inputs keep their order and none is lost or acknowledged twice, and no flush sends
      more steer requests than there are retry delays, plus one.  A batch that was put
      back is sent again, and the server may have taken it before. */
  lemma {:induction false} InputsAreConserved(events: seq<Event>, retryDelays: nat, n: nat)
    requires n <= |events| && Run(events, retryDelays, n)
    ensures var s := After(events, retryDelays, n);
            && Conserved(s)
            && s.retryDelays == retryDelays
            && s.delivered <= s.accepted
            && s.mostRequests <= retryDelays + 1
            && (!s.flight.NoFlush? ==> s.flight.requests <= s.mostRequests)
  {
    if n != 0 {
      InputsAreConserved(events, retryDelays, n - 1);
      StepConserves(After(events, retryDelays, n - 1), events[n - 1]);
    }
  }

  /** Acknowledged inputs stay acknowledged, the count of requests stays too, and a refused or buffered batch waits in
      front of everything that was handed in after it. */
  lemma {:induction false} DeliveryIsFifo(events: seq<Event>, retryDelays: nat, m: nat, n: nat)
    requires m <= n <= |events| && Run(events, retryDelays, n)
    ensures After(events, retryDelays, m).accepted <= After(events, retryDelays, n).accepted
    ensures After(events, retryDelays, m).delivered <= After(events, retryDelays, n).delivered
    ensures After(events, retryDelays, m).mostRequests <= After(events, retryDelays, n).mostRequests
    decreases n
  {
    if m != n {
      DeliveryIsFifo(events, retryDelays, m, n - 1);
    }
  }

  /** A call of steer: nothing is taken from an empty input or while the run is finalizing;
      otherwise it waits behind what waits already, and a flush is scheduled exactly when a
      thread and a turn are known and no recovery is under way. */
  lemma AcceptedInputsGetAFlush(s: State, input: seq<string>, finalizing: bool, recovering: bool)
    ensures var s' := Step(s, SteerCalled(input, finalizing, recovering));
      && (finalizing || input == [] ==> s' == s)
      && (!finalizing ==> s'.pending == s.pending + input && s'.accepted == s.accepted + input)
      && s'.queuedFlushes == (if input != [] && !finalizing && !recovering && s.threadKnown && s.activeTurnId.Some?
                              then s.queuedFlushes + 1 else s.queuedFlushes)
      && s'.flight == s.flight && s'.delivered == s.delivered && s'.activeTurnId == s.activeTurnId && s'.threadKnown == s.threadKnown
  {
  }

  /** A scheduled flush sends all that waits in one request, if a thread and a turn are
      known; the server's acceptance delivers it and tells the turn. */
  lemma FlushSendsAll(s: State, turnId: Id)
    requires Enabled(s, FlushBegins) && s.pending != []
    ensures var s' := Step(s, FlushBegins);
      && s'.queuedFlushes == s.queuedFlushes - 1
      && (if s.threadKnown && s.activeTurnId.Some? then
            && s'.flight == Requesting(s.pending, 0, 1) && s'.pending == []
            && var done := Step(s', SteerAccepted(turnId));
               done.delivered == s.delivered + s.pending && done.flight.NoFlush? && done.activeTurnId == Some(turnId)
          else s'.flight.NoFlush? && s'.pending == s.pending)
  {
  }

  /** A refusal for want of a turn forgets the turn; while delays are left, the same input
      is sent once more as soon as a refresh after the delay finds a turn, and with none
      left, or after any other refusal, the input waits in front again. */
  lemma RefusedInputIsRetried(s: State, turn: Option<Id>)
    requires s.flight.Requesting?
    ensures var f := s.flight;
      && Step(s, SteerRefused(false)) == s.(pending := f.input + s.pending, flight := NoFlush)
      && Step(s, SteerRefused(true)).activeTurnId.None?
      && (f.attempt >= s.retryDelays ==> Step(s, SteerRefused(true)).flight.NoFlush? && Step(s, SteerRefused(true)).pending == f.input + s.pending)
      && (f.attempt < s.retryDelays ==>
            && Step(s, SteerRefused(true)).flight.Sleeping?
            && var asleep := Step(Step(s, SteerRefused(true)), SleepEnds);
               asleep.flight.Refreshing?
               && var again := Step(asleep, RefreshEnds(Some(turn)));
                  && again.activeTurnId == turn
                  && (if s.threadKnown && turn.Some? then
                        again.flight == Requesting(f.input, f.attempt + 1, f.requests + 1) && again.pending == s.pending
                      else if f.attempt + 1 < s.retryDelays then
                        again.flight == Sleeping(f.input, f.attempt + 1, f.requests) && again.pending == s.pending
                      else again.flight.NoFlush? && again.pending == f.input + s.pending))
  {
  }

  /** What is buffered while no turn is known is sent once one is known and a flush is scheduled. */
  lemma BufferedInputIsSent(s: State, turnId: Id)
    requires s.flight.NoFlush? && s.pending != []
    ensures var told := Step(Step(s, TurnChanges(Some(turnId), true)), FlushScheduled);
      && Enabled(told, FlushBegins)
      && told.queuedFlushes == s.queuedFlushes + 1
      && Step(told, FlushBegins).flight == Requesting(s.pending, 0, 1)
  {
  }

  /** How many more yields the running flush can make. */
  function YieldsLeft(s: State): int {
    match s.flight
    case NoFlush => 0
    case Requesting(_, attempt, _) => 3 * (s.retryDelays - attempt) + 1
    case Sleeping(_, attempt, _) => 3 * (s.retryDelays - attempt)
    case Refreshing(_, attempt, _) => 3 * (s.retryDelays - attempt) - 1
  }

  /** A flush ends: each of its own steps brings its end closer, and nothing that
      happens meanwhile puts it off. */
  lemma FlushEnds(events: seq<Event>, retryDelays: nat, n: nat)
    requires n < |events| && Run(events, retryDelays, n + 1)
    ensures var s, s' := After(events, retryDelays, n), After(events, retryDelays, n + 1);
            !s.flight.NoFlush? ==>
              && YieldsLeft(s) > 0
              && YieldsLeft(s') >= 0
              && (if events[n].SteerAccepted? || events[n].SteerRefused? || events[n].SleepEnds? || events[n].RefreshEnds?
                  then YieldsLeft(s') < YieldsLeft(s) else YieldsLeft(s') == YieldsLeft(s))
  {
    InputsAreConserved(events, retryDelays, n);
    InputsAreConserved(events, retryDelays, n + 1);
  }
}
