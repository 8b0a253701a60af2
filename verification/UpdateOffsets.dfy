/** The update loop and its persisted offset (src/cli/run-update-processing.js,
    src/cli/run.js).

    The server keeps the updates and gives them out in order of their ids; it forgets
    those below an offset that was sent to it.  The gateway fetches a batch, dispatches
    the updates one by one, and saves the offset after each.  Dispatching and saving may
    fail, and the process may stop at any point and start again from the saved offset. */
module UpdateOffsets {
  import opened Options

  type UpdateId = nat

  const FETCH_LIMIT: nat := 100

  /** The ids of all updates that ever arrived, and the floor below which they are forgotten. */
  datatype Server = Server(arrived: seq<UpdateId>, floor: nat)

  /** The updates arrived[from..from + count], of which the first done are dispatched and
      saved, and the next one is dispatched if dispatched is set. */
  datatype Batch = Batch(from: nat, count: nat, done: nat, dispatched: bool)

  datatype Gateway = Gateway(persisted: Option<nat>, leading: bool, current: Option<nat>, batch: Option<Batch>)

  /** What happened so far: the updates dispatched or forwarded, the offset from which on
      updates count (those below were dropped when the gateway first started), and the
      last offset sent to the server. */
  datatype History = History(handled: set<UpdateId>, base: nat, sent: nat)

  datatype State = State(server: Server, gateway: Gateway, history: History)

  datatype Event =
    | Arrive(id: UpdateId)
    | Bootstrap(saveFails: bool)
    | Fetch(limit: nat, lost: bool)
    | Dispatch(fails: bool)
    | Save(fails: bool)
    | Stop

  const Initial := State(Server([], 0), Gateway(None, false, None, None), History({}, 0, 0))

  /** The first id that no update can have had yet. */
  function Top(arrived: seq<UpdateId>): nat {
    if arrived == [] then 0 else arrived[|arrived| - 1] + 1
  }

  /** How many of the first n ids are below the offset, the ids being in order. */
  function Below(arrived: seq<UpdateId>, offset: nat, n: nat): (k: nat)
    requires n <= |arrived|
    ensures k <= n
    ensures forall i :: k <= i < n ==> arrived[i] >= offset
    ensures 0 < k ==> arrived[k - 1] < offset
  {
    if n == 0 || arrived[n - 1] < offset then n else Below(arrived, offset, n - 1)
  }

  function Max(a: nat, b: nat): nat {
    if a < b then b else a
  }

  function Min(a: nat, b: nat): nat {
    if a < b then a else b
  }

  // ---------------------------------------------------------------------
  // The steps
  // ---------------------------------------------------------------------

  function OnArrive(s: Server, id: UpdateId): Server {
    if id >= Top(s.arrived) then s.(arrived := s.arrived + [id]) else s
  }

  /** Becoming leader: continue from the saved offset.  Without one, ask for the last
      update alone, which makes the server forget the ones before it, and drop it too. */
  function OnBootstrap(st: State, saveFails: bool): State {
    var g := st.gateway;
    var top := Top(st.server.arrived);
    if g.persisted.Some? || top == 0 || top - 1 < st.server.floor then
      st.(gateway := Gateway(g.persisted, true, g.persisted, None))
    else
      State(Server(st.server.arrived, top - 1),
            if saveFails then Gateway(None, false, None, None) else Gateway(Some(top), true, Some(top), None),
            st.history.(base := top))
  }

  /** Asking for updates from the current offset on, if there is one; the answer may be lost. */
  function OnFetch(st: State, limit: nat, lost: bool): State {
    var offset := st.gateway.current.Or(Some(0)).value;
    var floor := Max(st.server.floor, offset);
    var from := Below(st.server.arrived, floor, |st.server.arrived|);
    var count := Min(Min(limit, FETCH_LIMIT), |st.server.arrived| - from);
    State(Server(st.server.arrived, floor),
          st.gateway.(batch := if lost || count == 0 then None else Some(Batch(from, count, 0, false))),
          st.history.(sent := Max(st.history.sent, offset)))
  }

  /** The update that a batch has come to. */
  function Due(arrived: seq<UpdateId>, b: Batch): nat {
    if b.from + b.done < |arrived| then arrived[b.from + b.done] else 0
  }

  function OnDispatch(st: State, b: Batch, fails: bool): State {
    if fails then st.(gateway := st.gateway.(batch := None))
    else
      State(st.server, st.gateway.(batch := Some(b.(dispatched := true))),
            st.history.(handled := st.history.handled + {Due(st.server.arrived, b)}))
  }

  function OnSave(st: State, b: Batch, fails: bool): State {
    var next := Due(st.server.arrived, b) + 1;
    if fails then st.(gateway := st.gateway.(batch := None))
    else if b.done + 1 == b.count then st.(gateway := Gateway(Some(next), st.gateway.leading, Some(next), None))
    else st.(gateway := st.gateway.(persisted := Some(next), batch := Some(b.(done := b.done + 1, dispatched := false))))
  }

  function Step(st: State, e: Event): State {
    var g := st.gateway;
    match e
    case Arrive(id) => st.(server := OnArrive(st.server, id))
    case Bootstrap(saveFails) => if g.leading then st else OnBootstrap(st, saveFails)
    case Fetch(limit, lost) => if g.leading && g.batch.None? then OnFetch(st, limit, lost) else st
    case Dispatch(fails) => if g.batch.Some? && !g.batch.value.dispatched then OnDispatch(st, g.batch.value, fails) else st
    case Save(fails) => if g.batch.Some? && g.batch.value.dispatched then OnSave(st, g.batch.value, fails) else st
    case Stop => st.(gateway := Gateway(g.persisted, false, None, None))
  }

  function Steps(st: State, events: seq<Event>, n: nat): State
    requires n <= |events|
  {
    if n == 0 then st else Step(Steps(st, events, n - 1), events[n - 1])
  }

  // ---------------------------------------------------------------------
  // The invariant
  // ---------------------------------------------------------------------

  predicate Increasing(arrived: seq<UpdateId>) {
    forall i, j :: 0 <= i < j < |arrived| ==> arrived[i] < arrived[j]
  }

  /** Every update that counts is handled, if it is below the offset. */
  predicate HandledBelow(arrived: seq<UpdateId>, h: History, offset: nat) {
    forall i :: 0 <= i < |arrived| && h.base <= arrived[i] < offset ==> arrived[i] in h.handled
  }

  predicate ServerValid(s: Server, h: History) {
    && Increasing(s.arrived)
    && HandledBelow(s.arrived, h, s.floor)
    && h.base <= Top(s.arrived) && s.floor <= Top(s.arrived)
    && s.floor <= Max(h.base, h.sent)
  }

  predicate OffsetsValid(s: Server, g: Gateway, h: History) {
    && (g.persisted.Some? ==> g.persisted.value <= Top(s.arrived) && HandledBelow(s.arrived, h, g.persisted.value))
    && (0 < h.sent ==> g.persisted.Some? && h.sent <= g.persisted.value)
    && (g.current.Some? ==> g.persisted.Some? && h.sent <= g.current.value <= g.persisted.value)
    && (g.current.None? && g.leading ==> h.sent == 0)
  }

  predicate BatchValid(s: Server, g: Gateway, h: History, b: Batch) {
    && g.leading
    && b.done < b.count <= FETCH_LIMIT && b.from + b.count <= |s.arrived|
    && s.floor <= s.arrived[b.from] && (0 < b.from ==> s.arrived[b.from - 1] < s.floor)
    && (g.current.Some? ==> g.current.value <= s.floor)
    && (0 < b.done ==> g.persisted == Some(s.arrived[b.from + b.done - 1] + 1))
    && HandledBelow(s.arrived, h, s.arrived[b.from + b.done])
    && (b.dispatched ==> s.arrived[b.from + b.done] in h.handled)
  }

  predicate Valid(st: State) {
    && ServerValid(st.server, st.history)
    && OffsetsValid(st.server, st.gateway, st.history)
    && (st.gateway.batch.Some? ==> BatchValid(st.server, st.gateway, st.history, st.gateway.batch.value))
  }

  lemma ArriveIsSafe(st: State, id: UpdateId)
    requires Valid(st)
    ensures Valid(Step(st, Arrive(id)))
  {
    hide BatchValid;
    if id >= Top(st.server.arrived) && st.gateway.batch.Some? {
      ArriveKeepsBatch(st.server, st.gateway, st.history, st.gateway.batch.value, id);
    }
  }

  lemma ArriveKeepsBatch(s: Server, g: Gateway, h: History, b: Batch, id: UpdateId)
    requires Increasing(s.arrived) && BatchValid(s, g, h, b) && id >= Top(s.arrived)
    ensures BatchValid(OnArrive(s, id), g, h, b)
  {
    assert s.arrived[b.from + b.done] <= id;
  }

  lemma BootstrapIsSafe(st: State, saveFails: bool)
    requires Valid(st)
    ensures Valid(Step(st, Bootstrap(saveFails)))
  {
  }

  lemma FetchKeepsServer(s: Server, g: Gateway, h: History, offset: nat)
    requires ServerValid(s, h) && OffsetsValid(s, g, h) && g.leading && offset == g.current.Or(Some(0)).value
    ensures ServerValid(s.(floor := Max(s.floor, offset)), h.(sent := Max(h.sent, offset)))
    ensures OffsetsValid(s.(floor := Max(s.floor, offset)), g, h.(sent := Max(h.sent, offset)))
  {
  }

  lemma ValidOf(s: Server, g: Gateway, h: History)
    requires ServerValid(s, h) && OffsetsValid(s, g, h)
    requires g.batch.Some? ==> BatchValid(s, g, h, g.batch.value)
    ensures Valid(State(s, g, h))
  {
  }

  lemma FetchStep(st: State, limit: nat, lost: bool)
    requires st.gateway.leading && st.gateway.batch.None?
    ensures var s, g, h := st.server, st.gateway, st.history;
      var offset := g.current.Or(Some(0)).value;
      var s' := Server(s.arrived, Max(s.floor, offset));
      var from := Below(s.arrived, s'.floor, |s.arrived|);
      var count := Min(Min(limit, FETCH_LIMIT), |s.arrived| - from);
      var batch := if lost || count == 0 then None else Some(Batch(from, count, 0, false));
      Step(st, Fetch(limit, lost)) == State(s', g.(batch := batch), h.(sent := Max(h.sent, offset)))
  {
    hide Below, Max, Min;
  }

  lemma FetchIsSafe(st: State, limit: nat, lost: bool)
    requires Valid(st)
    ensures Valid(Step(st, Fetch(limit, lost)))
  {
    if st.gateway.leading && st.gateway.batch.None? {
      hide Step, ServerValid, OffsetsValid, BatchValid, Max, Min, Below;
      FetchStep(st, limit, lost);
      var g := st.gateway;
      var offset := g.current.Or(Some(0)).value;
      FetchKeepsServer(st.server, g, st.history, offset);
      var s := Server(st.server.arrived, Max(st.server.floor, offset));
      var h := st.history.(sent := Max(st.history.sent, offset));
      var batch := Step(st, Fetch(limit, lost)).gateway.batch;
      MaxIsAbove(st.server.floor, offset);
      FetchedIsValid(s, g, h, limit, offset);
      OffsetsIgnoreBatch(s, g, h, batch);
      ValidOf(s, g.(batch := batch), h);
    } else {
      assert Step(st, Fetch(limit, lost)) == st;
    }
  }

  lemma MaxIsAbove(a: nat, b: nat)
    ensures a <= Max(a, b) && b <= Max(a, b)
  {
  }

  lemma OffsetsIgnoreBatch(s: Server, g: Gateway, h: History, batch: Option<Batch>)
    requires OffsetsValid(s, g, h)
    ensures OffsetsValid(s, g.(batch := batch), h)
  {
  }

  lemma FetchedIsValid(s: Server, g: Gateway, h: History, limit: nat, offset: nat)
    requires ServerValid(s, h) && g.leading && offset == g.current.Or(Some(0)).value <= s.floor
    ensures var from := Below(s.arrived, s.floor, |s.arrived|);
      var count := Min(Min(limit, FETCH_LIMIT), |s.arrived| - from);
      var batch := Batch(from, count, 0, false);
      0 < count ==> BatchValid(s, g.(batch := Some(batch)), h, batch)
  {
    var from := Below(s.arrived, s.floor, |s.arrived|);
    if from < |s.arrived| {
      forall i | 0 <= i < |s.arrived| && h.base <= s.arrived[i] < s.arrived[from] ensures s.arrived[i] in h.handled {
        assert i < from;
        assert s.arrived[i] <= s.arrived[from - 1] < s.floor;
      }
    }
  }

  lemma HandlingKeeps(s: Server, g: Gateway, h: History, id: UpdateId)
    requires ServerValid(s, h) && OffsetsValid(s, g, h)
    ensures ServerValid(s, h.(handled := h.handled + {id})) && OffsetsValid(s, g, h.(handled := h.handled + {id}))
  {
  }

  lemma DispatchIsSafe(st: State, fails: bool)
    requires Valid(st)
    ensures Valid(Step(st, Dispatch(fails)))
  {
    hide ServerValid, OffsetsValid;
    var s, g, h := st.server, st.gateway, st.history;
    if g.batch.Some? && !g.batch.value.dispatched {
      HandlingKeeps(s, g, h, Due(s.arrived, g.batch.value));
      OffsetsIgnoreBatch(s, g, h, None);
      var after := Step(st, Dispatch(fails));
      OffsetsIgnoreBatch(s, g, after.history, after.gateway.batch);
    }
  }

  lemma SavedIsHandled(s: Server, g: Gateway, h: History, b: Batch)
    requires Increasing(s.arrived) && BatchValid(s, g, h, b) && b.dispatched
    ensures HandledBelow(s.arrived, h, s.arrived[b.from + b.done] + 1)
    ensures b.done + 1 < b.count ==> HandledBelow(s.arrived, h, s.arrived[b.from + b.done + 1])
    ensures s.arrived[b.from + b.done] < Top(s.arrived)
    ensures s.arrived[b.from] <= s.arrived[b.from + b.done]
  {
    var k := b.from + b.done;
    forall i | 0 <= i < |s.arrived| && h.base <= s.arrived[i] <= s.arrived[k] ensures s.arrived[i] in h.handled {
      assert i <= k;
    }
  }

  lemma SaveIsSafe(st: State, fails: bool)
    requires Valid(st)
    ensures Valid(Step(st, Save(fails)))
  {
    hide HandledBelow, Increasing, Top;
    var s, g, h := st.server, st.gateway, st.history;
    if g.batch.Some? && g.batch.value.dispatched {
      SavedIsHandled(s, g, h, g.batch.value);
    }
  }

  lemma StopIsSafe(st: State)
    requires Valid(st)
    ensures Valid(Step(st, Stop))
  {
  }

  lemma {:induction false} StepsAreSafe(events: seq<Event>, n: nat)
    requires n <= |events|
    ensures Valid(Steps(Initial, events, n))
  {
    hide Step, Valid;
    if n == 0 {
      InitialIsSafe();
    } else {
      StepsAreSafe(events, n - 1);
      var st := Steps(Initial, events, n - 1);
      match events[n - 1]
      case Arrive(id) => ArriveIsSafe(st, id);
      case Bootstrap(saveFails) => BootstrapIsSafe(st, saveFails);
      case Fetch(limit, lost) => FetchIsSafe(st, limit, lost);
      case Dispatch(fails) => DispatchIsSafe(st, fails);
      case Save(fails) => SaveIsSafe(st, fails);
      case Stop => StopIsSafe(st);
    }
  }

  lemma InitialIsSafe()
    ensures Valid(Initial)
  {
  }

  // ---------------------------------------------------------------------
  // No update is lost
  // ---------------------------------------------------------------------

  /** Whatever fails and whenever the process stops: an update that counts is handled, or
      the server still has it; it is handled if it is below the saved offset; and no
      offset was ever sent to the server beyond the saved one. */
  lemma NoUpdateIsLost(events: seq<Event>, id: UpdateId)
    ensures var st := Steps(Initial, events, |events|);
      && (id in st.server.arrived && st.history.base <= id ==>
            && (id in st.history.handled || st.server.floor <= id)
            && (st.gateway.persisted.Some? && id < st.gateway.persisted.value ==> id in st.history.handled))
      && (0 < st.history.sent ==> st.gateway.persisted.Some? && st.history.sent <= st.gateway.persisted.value)
      && (st.gateway.leading && st.gateway.current.Some? ==>
            st.gateway.persisted.Some? && st.gateway.current.value <= st.gateway.persisted.value)
  {
    hide Steps;
    StepsAreSafe(events, |events|);
  }

  /** Once an offset is saved, no update is dropped any more: the offset from which on
      updates count stays as it is. */
  lemma NothingIsDroppedLater(st: State, e: Event)
    requires st.gateway.persisted.Some?
    ensures Step(st, e).history.base == st.history.base && Step(st, e).gateway.persisted.Some?
  {
  }

  lemma {:induction false} BelowIs(arrived: seq<UpdateId>, offset: nat, n: nat, k: nat)
    requires k <= n <= |arrived| && Increasing(arrived)
    requires k < |arrived| ==> offset <= arrived[k]
    requires 0 < k ==> arrived[k - 1] < offset
    ensures Below(arrived, offset, n) == k
  {
    if k < n {
      assert arrived[k] <= arrived[n - 1];
      BelowIs(arrived, offset, n - 1, k);
    }
  }

  // ---------------------------------------------------------------------
  // Updates are brought and handled
  // ---------------------------------------------------------------------

  /** A fetch that gets its answer brings the next updates in order, at most a hundred and
      none that is below the current offset or forgotten, and leaves none of them out. */
  lemma FetchBringsTheNext(st: State, limit: nat)
    requires Valid(st) && st.gateway.leading && st.gateway.batch.None? && 0 < limit
    ensures var after := Step(st, Fetch(limit, false));
      var s, current := st.server, if st.gateway.current.Some? then st.gateway.current.value else 0;
      && (after.gateway.batch.None? <==> forall i :: 0 <= i < |s.arrived| ==> s.arrived[i] < current || s.arrived[i] < s.floor)
      && (after.gateway.batch.Some? ==>
            var b := after.gateway.batch.value;
            && b.done == 0 && !b.dispatched && 0 < b.count <= limit && b.count <= 100 && b.from + b.count <= |s.arrived|
            && (forall i :: 0 <= i < |s.arrived| ==> (b.from <= i <==> current <= s.arrived[i] && s.floor <= s.arrived[i]))
            && (b.count < limit && b.count < 100 ==> b.from + b.count == |s.arrived|))
  {
    hide HandledBelow, Below;
    var s := st.server;
    var floor := Max(s.floor, st.gateway.current.Or(Some(0)).value);
    var k := Below(s.arrived, floor, |s.arrived|);
    BelowSplits(s.arrived, floor);
  }

  lemma BelowSplits(arrived: seq<UpdateId>, offset: nat)
    requires Increasing(arrived)
    ensures var k := Below(arrived, offset, |arrived|);
      forall i :: 0 <= i < |arrived| ==> (k <= i <==> offset <= arrived[i])
  {
    var k := Below(arrived, offset, |arrived|);
    forall i | 0 <= i < k ensures arrived[i] < offset {
      assert arrived[i] <= arrived[k - 1];
    }
  }

  /** A batch in which nothing fails is handled as a whole, its last update saved, and the
      next fetch starts behind it. */
  lemma {:induction false} GoodBatchIsHandled(st: State, updates: seq<UpdateId>, fates: seq<Fate>, n: nat)
    requires Fetched(st, updates) && |fates| == |updates| && n <= |updates|
    requires forall k :: 0 <= k < n ==> fates[k].Handled?
    ensures var after := Processed(st, fates, n);
      && (forall k :: 0 <= k < n ==> updates[k] in after.history.handled)
      && (0 < n ==> after.gateway.persisted == Some(updates[n - 1] + 1))
      && (n < |updates| ==> InLoop(st, after, updates, n))
      && (n == |updates| ==> after.gateway.batch.None? && after.gateway.current == Some(updates[n - 1] + 1))
  {
    hide Process, Fetched, InLoop;
    if n == 0 {
      FetchedIsInLoop(st, updates);
    } else {
      GoodBatchIsHandled(st, updates, fates, n - 1);
      InLoopHasBatch(st, Processed(st, fates, n - 1), updates, n - 1);
      ProcessedOne(st, Processed(st, fates, n - 1), updates, fates[n - 1], n - 1);
    }
  }

  /** A restart with a saved offset forgets the batch and takes up that offset: the next
      fetch brings every update from there on that the server still has, the rest of an
      unfinished batch included, before any other. */
  lemma RestartTakesUpTheSavedOffset(st: State, limit: nat)
    requires Valid(st) && st.gateway.persisted.Some? && 0 < limit
    ensures var again := Step(Step(st, Stop), Bootstrap(false));
      && again == st.(gateway := Gateway(st.gateway.persisted, true, st.gateway.persisted, None))
      && var fetched, offset := Step(again, Fetch(limit, false)), st.gateway.persisted.value;
         fetched.gateway.batch.Some? ==>
           forall i :: 0 <= i < |st.server.arrived| ==>
             (fetched.gateway.batch.value.from <= i <==> offset <= st.server.arrived[i] && st.server.floor <= st.server.arrived[i])
  {
    hide HandledBelow, Increasing;
    StopIsSafe(st);
    BootstrapIsSafe(Step(st, Stop), false);
    FetchBringsTheNext(Step(Step(st, Stop), Bootstrap(false)), limit);
  }

  /** Becoming leader: a saved offset is taken over; without one, updates that wait are
      dropped but for the last, whose offset is saved, and with none nothing is dropped. */
  lemma BootstrapStarts(st: State)
    requires Valid(st) && !st.gateway.leading
    ensures var after := Step(st, Bootstrap(false));
      var waiting := exists i :: 0 <= i < |st.server.arrived| && st.server.floor <= st.server.arrived[i];
      && after.gateway.leading && after.gateway.batch.None? && after.gateway.current == after.gateway.persisted
      && (st.gateway.persisted.Some? || !waiting ==> after.gateway.persisted == st.gateway.persisted && after.history == st.history)
      && (st.gateway.persisted.None? && waiting ==>
            && after.gateway.persisted == Some(st.server.arrived[|st.server.arrived| - 1] + 1)
            && after.history == st.history.(base := st.server.arrived[|st.server.arrived| - 1] + 1))
  {
    hide HandledBelow;
    var s := st.server;
    if i :| 0 <= i < |s.arrived| && s.floor <= s.arrived[i] {
      assert s.arrived[i] <= s.arrived[|s.arrived| - 1];
    }
  }

  // ---------------------------------------------------------------------
  // When the saved offset goes back
  // ---------------------------------------------------------------------

  predicate GoesBack(before: Option<nat>, after: Option<nat>) {
    before.Some? && (after.None? || after.value < before.value)
  }

  /** The batch is about to save its first update, which is below the saved offset. */
  predicate ReplaysSaved(st: State, e: Event) {
    && e == Save(false) && st.gateway.batch.Some? && st.gateway.persisted.Some?
    && var b := st.gateway.batch.value;
      b.dispatched && b.done == 0 && Due(st.server.arrived, b) + 1 < st.gateway.persisted.value
  }

  lemma StepGoesBack(st: State, e: Event)
    requires Valid(st)
    ensures GoesBack(st.gateway.persisted, Step(st, e).gateway.persisted) <==> ReplaysSaved(st, e)
  {
    hide HandledBelow, ServerValid;
    var g := st.gateway;
    if e == Save(false) && g.batch.Some? && g.batch.value.dispatched && 0 < g.batch.value.done {
      var k := g.batch.value.from + g.batch.value.done;
      IncreasingAt(st, k - 1, k);
    }
  }

  lemma IncreasingAt(st: State, i: nat, j: nat)
    requires Valid(st) && i < j < |st.server.arrived|
    ensures st.server.arrived[i] < st.server.arrived[j]
  {
  }

  /** What counts starts at or below every offset that is in use. */
  predicate BaseValid(st: State) {
    var g, base := st.gateway, st.history.base;
    && (g.persisted.Some? ==> base <= g.persisted.value)
    && (g.persisted.None? && 0 < base ==> base == st.server.floor + 1)
    && (g.current.Some? ==> base <= g.current.value)
    && (g.leading && g.current.None? ==> base == 0)
  }

  /** A batch brings only updates that count. */
  lemma BatchCounts(st: State)
    requires Valid(st) && BaseValid(st) && st.gateway.batch.Some?
    ensures st.history.base <= st.server.arrived[st.gateway.batch.value.from] <= Due(st.server.arrived, st.gateway.batch.value)
  {
    hide HandledBelow, ServerValid;
    var b := st.gateway.batch.value;
    if 0 < b.done {
      IncreasingAt(st, b.from, b.from + b.done);
    }
  }

  lemma StepKeepsBase(st: State, e: Event)
    requires Valid(st) && BaseValid(st)
    ensures BaseValid(Step(st, e))
  {
    hide HandledBelow, Below, Min, BatchValid;
    if st.gateway.batch.Some? {
      BatchCounts(st);
    }
  }

  /** The offset was saved at some time, in the first n steps. */
  ghost predicate WasSaved(events: seq<Event>, n: nat, offset: nat)
    requires n <= |events|
  {
    exists k :: 0 <= k <= n && Steps(Initial, events, k).gateway.persisted == Some(offset)
  }

  /** Saving an update passes over no other that counts. */
  lemma SaveCovers(st: State, i: nat)
    requires Valid(st) && st.gateway.batch.Some?
    requires i < |st.server.arrived| && st.history.base <= st.server.arrived[i] < Due(st.server.arrived, st.gateway.batch.value)
    ensures st.gateway.persisted.Some? && st.server.arrived[i] < st.gateway.persisted.value
  {
    hide HandledBelow;
    var s, b := st.server, st.gateway.batch.value;
    if i < b.from {
      assert s.arrived[i] <= s.arrived[b.from - 1];
    }
  }

  /** Every update that counts and is below the saved offset had its own offset saved. */
  lemma {:induction false} EachOffsetWasSaved(events: seq<Event>, n: nat, id: UpdateId)
    requires n <= |events|
    ensures var st := Steps(Initial, events, n);
      && BaseValid(st)
      && (id in st.server.arrived && st.history.base <= id && st.gateway.persisted.Some? && id < st.gateway.persisted.value
          ==> WasSaved(events, n, id + 1))
  {
    hide Step, Valid, BaseValid;
    if n == 0 {
      InitialBase();
    } else {
      EachOffsetWasSaved(events, n - 1, id);
      StepsAreSafe(events, n - 1);
      var st := Steps(Initial, events, n - 1);
      StepKeepsBase(st, events[n - 1]);
      StepSavesNext(st, events[n - 1], id);
      if WasSaved(events, n - 1, id + 1) {
        var k :| 0 <= k <= n - 1 && Steps(Initial, events, k).gateway.persisted == Some(id + 1);
        assert WasSaved(events, n, id + 1);
      }
    }
  }

  lemma InitialBase()
    ensures BaseValid(Initial)
  {
  }

  /** What comes to be below the saved offset in a step is what the step saves. */
  lemma StepSavesNext(st: State, e: Event, id: UpdateId)
    requires Valid(st) && BaseValid(st)
    ensures var st' := Step(st, e);
      id in st'.server.arrived && st'.history.base <= id && st'.gateway.persisted.Some? && id < st'.gateway.persisted.value
      ==> st'.gateway.persisted == Some(id + 1)
          || (id in st.server.arrived && st.history.base <= id && st.gateway.persisted.Some? && id < st.gateway.persisted.value)
  {
    hide HandledBelow, Below;
    var st' := Step(st, e);
    if e == Save(false) && st.gateway.batch.Some? && id in st.server.arrived && st.history.base <= id < Due(st.server.arrived, st.gateway.batch.value) {
      var i :| 0 <= i < |st.server.arrived| && st.server.arrived[i] == id;
      SaveCovers(st, i);
    }
  }

  /** In every run the saved offset goes back exactly when a batch saves its first update
      and that is below the saved offset; the offset it goes back to was saved before. */
  lemma SavedOffsetGoesBackExactly(events: seq<Event>, n: nat)
    requires n < |events|
    ensures var st, st' := Steps(Initial, events, n), Steps(Initial, events, n + 1);
      && (GoesBack(st.gateway.persisted, st'.gateway.persisted) <==> ReplaysSaved(st, events[n]))
      && (ReplaysSaved(st, events[n]) ==> st'.gateway.persisted.Some? && WasSaved(events, n, st'.gateway.persisted.value))
  {
    hide Valid, BaseValid;
    StepsAreSafe(events, n);
    var st := Steps(Initial, events, n);
    StepGoesBack(st, events[n]);
    if ReplaysSaved(st, events[n]) {
      var id := Due(st.server.arrived, st.gateway.batch.value);
      EachOffsetWasSaved(events, n, id);
      BatchCounts(st);
      DueArrived(st);
    }
  }

  lemma DueArrived(st: State)
    requires Valid(st) && st.gateway.batch.Some?
    ensures Due(st.server.arrived, st.gateway.batch.value) in st.server.arrived
  {
  }

  /** After a failure the batch is fetched again and saves its first update again: with two
      updates saved before the failure the offset goes back, with one it stays. */
  lemma RefetchReplays(st: State, b: Batch, limit: nat)
    requires Valid(st) && st.gateway.batch == Some(b) && 1 <= b.done && !b.dispatched && 0 < limit
    ensures var failed := Step(st, Dispatch(true));
      var again := Step(Step(Step(failed, Fetch(limit, false)), Dispatch(false)), Save(false));
      && again.gateway.persisted == Some(st.server.arrived[b.from] + 1)
      && (GoesBack(st.gateway.persisted, again.gateway.persisted) <==> 2 <= b.done)
  {
    hide HandledBelow, Below;
    var s := st.server;
    BelowIs(s.arrived, s.floor, |s.arrived|, b.from);
    assert 2 <= b.done ==> s.arrived[b.from] < s.arrived[b.from + b.done - 1];
  }

  /** Three updates, the third of which fails once. */
  function ReplayedRun(): seq<Event> {
    [Bootstrap(false), Arrive(5), Arrive(6), Arrive(7), Fetch(100, false), Dispatch(false), Save(false), Dispatch(false), Save(false),
     Dispatch(true), Fetch(100, false), Dispatch(false), Save(false)]
  }

  function ReplayedState(k: nat): State {
    var s, full := (arrived: seq<nat>) => Server(arrived, 0), Server([5, 6, 7], 0);
    var g := (persisted: Option<nat>, batch: Option<Batch>) => Gateway(persisted, true, None, batch);
    match k
    case 0 => Initial
    case 1 => State(s([]), g(None, None), History({}, 0, 0))
    case 2 => State(s([5]), g(None, None), History({}, 0, 0))
    case 3 => State(s([5, 6]), g(None, None), History({}, 0, 0))
    case 4 => State(full, g(None, None), History({}, 0, 0))
    case 5 => State(full, g(None, Some(Batch(0, 3, 0, false))), History({}, 0, 0))
    case 6 => State(full, g(None, Some(Batch(0, 3, 0, true))), History({5}, 0, 0))
    case 7 => State(full, g(Some(6), Some(Batch(0, 3, 1, false))), History({5}, 0, 0))
    case 8 => State(full, g(Some(6), Some(Batch(0, 3, 1, true))), History({5, 6}, 0, 0))
    case 9 => State(full, g(Some(7), Some(Batch(0, 3, 2, false))), History({5, 6}, 0, 0))
    case 10 => State(full, g(Some(7), None), History({5, 6}, 0, 0))
    case 11 => State(full, g(Some(7), Some(Batch(0, 3, 0, false))), History({5, 6}, 0, 0))
    case 12 => State(full, g(Some(7), Some(Batch(0, 3, 0, true))), History({5, 6}, 0, 0))
    case _ => State(full, g(Some(6), Some(Batch(0, 3, 1, false))), History({5, 6}, 0, 0))
  }

  lemma ReplayedStep(k: nat)
    requires k < 13
    ensures Step(ReplayedState(k), ReplayedRun()[k]) == ReplayedState(k + 1)
  {
    hide Below;
    BelowIs([5, 6, 7], 0, 3, 0);
    assert {5} + {6} == {5, 6} && {5, 6} + {5} == {5, 6} && {} + {5} == {5};
  }

  lemma {:induction false} ReplayedAfter(n: nat)
    requires n <= 13
    ensures Steps(Initial, ReplayedRun(), n) == ReplayedState(n)
  {
    hide Step;
    if n != 0 {
      ReplayedAfter(n - 1);
      ReplayedStep(n - 1);
    }
  }

  /** The saved offset is not monotone: it is 7 before the last step of this run, and 6 after. */
  lemma SavedOffsetIsNotMonotone()
    ensures Steps(Initial, ReplayedRun(), 12).gateway.persisted == Some(7)
    ensures Steps(Initial, ReplayedRun(), 13).gateway.persisted == Some(6)
  {
    hide Steps, Step;
    ReplayedAfter(12);
    ReplayedAfter(13);
  }

  // ---------------------------------------------------------------------
  // The loop over a batch
  // ---------------------------------------------------------------------

  /** What becomes of an update: it cannot be dispatched, or not saved, or all is well. */
  datatype Fate = DispatchThrows | SaveThrows | Handled

  function Process(st: State, fate: Fate): State {
    match fate
    case DispatchThrows => Step(st, Dispatch(true))
    case SaveThrows => Step(Step(st, Dispatch(false)), Save(true))
    case Handled => Step(Step(st, Dispatch(false)), Save(false))
  }

  /** The steps of a batch up to its n-th update; a failure gives the batch up. */
  function Processed(st: State, fates: seq<Fate>, n: nat): State
    requires n <= |fates|
  {
    if n == 0 then st
    else
      var before := Processed(st, fates, n - 1);
      if before.gateway.batch.None? then before else Process(before, fates[n - 1])
  }

  /** A batch that was just fetched, with the updates it brought. */
  predicate Fetched(st: State, updates: seq<UpdateId>) {
    && st.gateway.batch.Some?
    && var b := st.gateway.batch.value;
      && b == Batch(b.from, |updates|, 0, false) && 0 < |updates|
      && b.from + |updates| <= |st.server.arrived|
      && st.server.arrived[b.from..b.from + |updates|] == updates
  }

  /** The state in the middle of the loop: n updates are done. */
  predicate InLoop(start: State, now: State, updates: seq<UpdateId>, n: nat) {
    && now.server == start.server && now.gateway.current == start.gateway.current
    && now.gateway.batch == Some(Batch(start.gateway.batch.Or(Some(Batch(0, 0, 0, false))).value.from, |updates|, n, false))
  }

  /** One turn of the loop, told without the batch. */
  lemma ProcessedOne(start: State, now: State, updates: seq<UpdateId>, fate: Fate, n: nat)
    requires Fetched(start, updates) && n < |updates| && InLoop(start, now, updates, n)
    ensures var after := Process(now, fate);
      && (fate.DispatchThrows? ==> after.history.handled == now.history.handled)
      && (!fate.DispatchThrows? ==> after.history.handled == now.history.handled + {updates[n]})
      && (!fate.Handled? ==> after.gateway == now.gateway.(batch := None))
      && (fate.Handled? ==> after.gateway.persisted == Some(updates[n] + 1))
      && (fate.Handled? && n + 1 < |updates| ==> InLoop(start, after, updates, n + 1))
      && (fate.Handled? && n + 1 == |updates| ==> after.gateway.batch.None? && after.gateway.current == Some(updates[n] + 1))
  {
    var b := start.gateway.batch.value;
    assert start.server.arrived[b.from + n] == updates[n];
  }

  lemma {:induction false} GivenUp(st: State, fates: seq<Fate>, k: nat, n: nat)
    requires k <= n <= |fates| && Processed(st, fates, k).gateway.batch.None?
    ensures Processed(st, fates, n) == Processed(st, fates, k)
  {
    if k < n {
      GivenUp(st, fates, k, n - 1);
    }
  }

  class Poller {
    var offset: Option<nat>
    var currentOffset: Option<nat>
    var handled: set<UpdateId>

    constructor ()
      ensures offset == Initial.gateway.persisted && currentOffset == Initial.gateway.current && handled == Initial.history.handled
    {
      offset, currentOffset, handled := None, None, {};
    }

    /** The loop does to the offset and the handled updates what the steps of the batch do. */
    method ProcessUpdates(updates: seq<UpdateId>, fates: seq<Fate>, ghost st: State) returns (threw: bool, nextOffset: Option<nat>)
      requires |fates| == |updates| && Fetched(st, updates)
      requires st.gateway.persisted == offset && st.history.handled == handled
      modifies `offset, `handled
      ensures var after := Processed(st, fates, |fates|);
        && after.gateway.persisted == offset && after.history.handled == handled && after.gateway.batch.None?
        && after.gateway.current == (if threw then st.gateway.current else nextOffset)
    {
      hide Process, Fetched, InLoop;
      threw, nextOffset := false, None;
      FetchedIsInLoop(st, updates);
      for k := 0 to |updates|
        invariant Processed(st, fates, k).gateway.persisted == offset
        invariant Processed(st, fates, k).history.handled == handled
        invariant !threw && (k < |updates| ==> InLoop(st, Processed(st, fates, k), updates, k))
        invariant k == |updates| ==> Processed(st, fates, k).gateway.batch.None? && Processed(st, fates, k).gateway.current == nextOffset
      {
        ghost var now := Processed(st, fates, k);
        InLoopHasBatch(st, now, updates, k);
        ProcessedOne(st, now, updates, fates[k], k);
        nextOffset := Some(updates[k] + 1);
        if fates[k].DispatchThrows? {
          GivenUp(st, fates, k + 1, |fates|);
          return true, None;
        }
        handled := handled + {updates[k]};
        if fates[k].SaveThrows? {
          GivenUp(st, fates, k + 1, |fates|);
          return true, None;
        }
        offset := nextOffset;
      }
    }

    /** One turn of the poll loop; a failure leaves the current offset as it was. */
    method PollCycle(updates: seq<UpdateId>, fates: seq<Fate>, ghost st: State)
      requires |fates| == |updates| && Fetched(st, updates)
      requires st.gateway.persisted == offset && st.history.handled == handled && st.gateway.current == currentOffset
      modifies this
      ensures var after := Processed(st, fates, |fates|);
        && after.gateway.persisted == offset && after.history.handled == handled
        && after.gateway.current == currentOffset && after.gateway.batch.None?
    {
      var threw, nextOffset := ProcessUpdates(updates, fates, st);
      if !threw {
        currentOffset := nextOffset;
      }
    }

    /** Becoming leader: the offset to start from, given the last update the server has. */
    method BootstrapOffset(last: Option<UpdateId>, saveThrows: bool, ghost st: State) returns (threw: bool)
      requires st.gateway.persisted == offset && !st.gateway.leading
      requires var top := Top(st.server.arrived);
        last == if top == 0 || top - 1 < st.server.floor then None else Some(top - 1)
      modifies this
      ensures var after := Step(st, Bootstrap(saveThrows));
        && after.gateway.persisted == offset && handled == old(handled)
        && after.gateway.leading == !threw
        && (!threw ==> after.gateway.current == currentOffset)
    {
      if offset.Some? {
        currentOffset := offset;
        return false;
      }
      if last.None? {
        currentOffset := None;
        return false;
      }
      if saveThrows {
        return true;
      }
      offset := Some(last.value + 1);
      currentOffset := offset;
      return false;
    }
  }

  lemma FetchedIsInLoop(st: State, updates: seq<UpdateId>)
    requires Fetched(st, updates)
    ensures InLoop(st, Processed(st, [], 0), updates, 0) && 0 < |updates|
  {
  }

  lemma InLoopHasBatch(start: State, now: State, updates: seq<UpdateId>, n: nat)
    requires InLoop(start, now, updates, n)
    ensures now.gateway.batch.Some? && now.gateway.current == start.gateway.current
  {
  }
}
