/** The JSON-RPC client over a child's stdio (src/app-server-v2/jsonl-rpc-client.js).

    A request is settled by a response, its timer, a failed write or the end of the
    transport.  Each is a callback of the event loop that runs to completion. */
module RpcClient {

  datatype Settlement = Resolved | RpcError | TimedOut | WriteFailed | TransportClosed

  datatype Reply = ResultReply | ErrorReply

  /** pending is the request table and timers the armed request timers.  settled logs
      every call of a request's resolve or reject; handling holds the server requests
      whose handler has not returned; replied logs the replies written for them. */
  datatype State = State(
    nextId: nat,
    closed: bool,
    pending: set<nat>,
    timers: set<nat>,
    settled: seq<(nat, Settlement)>,
    arrivals: nat,
    handling: set<nat>,
    replied: seq<(nat, Reply)>,
    disconnects: nat)

  const OPEN := State(1, false, {}, {}, [], 0, {}, [], 0)

  /** A callback.  writable says that the output stream takes a line, encodable that
      the handler's result can be written as JSON. */
  datatype Event =
    | Request(hasTimeout: bool, writable: bool)
    | Response(id: nat, isError: bool)
    | TimerFires(id: nat)
    | TransportEnds
    | Close
    | ServerRequest
    | HandlerReturns(token: nat, succeeded: bool, encodable: bool, writable: bool)

  /** Armed timers fire and running handlers return; everything else can always happen. */
  predicate Enabled(s: State, e: Event) {
    match e
    case TimerFires(id) => id in s.timers
    case HandlerReturns(token, _, _, _) => token in s.handling
    case _ => true
  }

  /** Rejecting the pending requests with ids below n, in the order they were made. */
  function Rejections(pending: set<nat>, n: nat): seq<(nat, Settlement)> {
    if n == 0 then []
    else Rejections(pending, n - 1) + if n - 1 in pending then [(n - 1, TransportClosed)] else []
  }

  function SettlePending(s: State): State {
    s.(settled := s.settled + Rejections(s.pending, s.nextId), timers := s.timers - s.pending, pending := {})
  }

  function Settle(s: State, id: nat, how: Settlement): State {
    s.(settled := s.settled + [(id, how)], pending := s.pending - {id}, timers := s.timers - {id})
  }

  function Step(s: State, e: Event): State {
    match e
    case Request(hasTimeout, writable) =>
      if s.closed then s
      else
        var id := s.nextId;
        var s := s.(nextId := id + 1, pending := s.pending + {id}, timers := if hasTimeout then s.timers + {id} else s.timers);
        if writable then s else Settle(s, id, WriteFailed)
    case Response(id, isError) =>
      if id in s.pending then Settle(s, id, if isError then RpcError else Resolved) else s
    case TimerFires(id) => Settle(s, id, TimedOut)
    case TransportEnds =>
      if s.closed then s else SettlePending(s.(closed := true)).(disconnects := s.disconnects + 1)
    case Close =>
      if s.closed then s else SettlePending(s.(closed := true))
    case ServerRequest => s.(handling := s.handling + {s.arrivals}, arrivals := s.arrivals + 1)
    case HandlerReturns(token, succeeded, encodable, writable) =>
      var s := s.(handling := s.handling - {token});
      if s.closed || !writable then s
      else s.(replied := s.replied + [(token, if succeeded && encodable then ResultReply else ErrorReply)])
  }

  // ---------------------------------------------------------------------
  // The client
  // ---------------------------------------------------------------------

  class JsonLineRpcClient {
    var nextId: nat
    var closed: bool
    var pending: set<nat>
    var timers: set<nat>
    var settled: seq<(nat, Settlement)>
    var arrivals: nat
    var handling: set<nat>
    var replied: seq<(nat, Reply)>
    var disconnects: nat

    function Now(): State
      reads this
    {
      State(nextId, closed, pending, timers, settled, arrivals, handling, replied, disconnects)
    }

    constructor ()
      ensures Now() == OPEN
    {
      nextId, closed, pending, timers, settled := 1, false, {}, {}, [];
      arrivals, handling, replied, disconnects := 0, {}, [], 0;
    }

    /** Whether the line was written; the source throws when it was not. */
    method WriteMessage(writable: bool) returns (written: bool)
      ensures written == (!closed && writable)
    {
      if closed || !writable {
        return false;
      }
      return true;
    }

    method Request(hasTimeout: bool, writable: bool)
      modifies this
      ensures Now() == Step(old(Now()), Event.Request(hasTimeout, writable))
    {
      if closed {
        return;
      }
      var id := nextId;
      nextId := nextId + 1;
      if hasTimeout {
        timers := timers + {id};
      }
      pending := pending + {id};
      var written := WriteMessage(writable);
      if !written {
        timers := timers - {id};
        pending := pending - {id};
        settled := settled + [(id, WriteFailed)];
      }
    }

    method OnResponse(id: nat, isError: bool)
      modifies this
      ensures Now() == Step(old(Now()), Response(id, isError))
    {
      if id !in pending {
        return;
      }
      pending := pending - {id};
      timers := timers - {id};
      settled := settled + [(id, if isError then RpcError else Resolved)];
    }

    method OnTimer(id: nat)
      requires id in timers
      modifies this
      ensures Now() == Step(old(Now()), TimerFires(id))
    {
      timers := timers - {id};
      pending := pending - {id};
      settled := settled + [(id, TimedOut)];
    }

    method RejectAllPending()
      modifies this`settled, this`timers, this`pending
      ensures Now() == SettlePending(old(Now()))
    {
      for id := 0 to nextId
        invariant settled == old(settled) + Rejections(pending, id)
        invariant timers == old(timers) - (set i | i in pending && i < id)
        invariant pending == old(pending)
      {
        if id in pending {
          timers := timers - {id};
          settled := settled + [(id, TransportClosed)];
        }
      }
      timers := timers - pending;
      pending := {};
    }

    method CloseWithError()
      modifies this
      ensures Now() == Step(old(Now()), TransportEnds)
    {
      if closed {
        return;
      }
      closed := true;
      RejectAllPending();
      disconnects := disconnects + 1;
    }

    method Close()
      modifies this
      ensures Now() == Step(old(Now()), Event.Close)
    {
      if closed {
        return;
      }
      closed := true;
      RejectAllPending();
    }

    method OnServerRequest()
      modifies this
      ensures Now() == Step(old(Now()), ServerRequest)
    {
      handling := handling + {arrivals};
      arrivals := arrivals + 1;
    }

    /** The end of handleServerRequest: a result that cannot be written is followed by
        an attempt to write an error instead. */
    method OnHandlerReturn(token: nat, succeeded: bool, encodable: bool, writable: bool)
      modifies this
      ensures Now() == Step(old(Now()), HandlerReturns(token, succeeded, encodable, writable))
    {
      handling := handling - {token};
      if succeeded && encodable {
        var written := WriteMessage(writable);
        if written {
          replied := replied + [(token, ResultReply)];
          return;
        }
      }
      var written := WriteMessage(writable);
      if written {
        replied := replied + [(token, ErrorReply)];
      }
    }
  }

  // ---------------------------------------------------------------------
  // Every request settles exactly once
  // ---------------------------------------------------------------------

  ghost predicate Run(events: seq<Event>, n: nat)
    requires n <= |events|
  {
    n == 0 || (Run(events, n - 1) && Enabled(After(events, n - 1), events[n - 1]))
  }

  /** The state after n callbacks of a client that was just created. */
  function After(events: seq<Event>, n: nat): State
    requires n <= |events|
  {
    if n == 0 then OPEN else Step(After(events, n - 1), events[n - 1])
  }

  /** The ids in a log. */
  function Ids<T>(log: seq<(nat, T)>): set<nat> {
    set i | 0 <= i < |log| :: log[i].0
  }

  /** A log without an id twice. */
  ghost predicate Distinct<T>(log: seq<(nat, T)>) {
    forall i, j :: 0 <= i < j < |log| ==> log[i].0 != log[j].0
  }

  lemma DistinctAppend<T>(a: seq<(nat, T)>, b: seq<(nat, T)>)
    requires Distinct(a) && Distinct(b) && Ids(a) !! Ids(b)
    ensures Distinct(a + b) && Ids(a + b) == Ids(a) + Ids(b)
  {
    var ab := a + b;
    forall i | 0 <= i < |ab| ensures ab[i].0 in Ids(a) + Ids(b) {
      assert if i < |a| then ab[i] == a[i] else ab[i] == b[i - |a|];
    }
    forall i | 0 <= i < |a| ensures a[i].0 in Ids(ab) { assert ab[i] == a[i]; }
    forall i | 0 <= i < |b| ensures b[i].0 in Ids(ab) { assert ab[|a| + i] == b[i]; }
    forall i, j | 0 <= i < j < |ab| ensures ab[i].0 != ab[j].0 {
      if i < |a| <= j {
        assert ab[i].0 in Ids(a) && ab[j] == b[j - |a|] && ab[j].0 in Ids(b);
      }
    }
  }

  function IssuedBelow(n: nat): (ids: set<nat>)
    ensures forall id :: id in ids <==> 1 <= id < n
  {
    if n <= 1 then {} else IssuedBelow(n - 1) + {n - 1}
  }

  /** Issued ids are 1 .. nextId - 1, and each is either pending or settled, and settled
      once; only pending requests have timers, and a closed client has no pending one. */
  ghost predicate RequestsAccounted(s: State) {
    && s.nextId >= 1
    && s.pending + Ids(s.settled) == IssuedBelow(s.nextId)
    && s.pending !! Ids(s.settled)
    && Distinct(s.settled)
    && s.timers <= s.pending
    && (s.closed ==> s.pending == {})
    && s.disconnects <= (if s.closed then 1 else 0)
  }

  /** A server request gets at most one reply, and none while its handler runs. */
  ghost predicate RepliesAccounted(s: State) {
    && s.handling !! Ids(s.replied)
    && (forall token :: token in s.handling || token in Ids(s.replied) ==> token < s.arrivals)
    && Distinct(s.replied)
  }

  lemma {:induction false} RejectionsAre(pending: set<nat>, n: nat)
    ensures forall id :: id in Ids(Rejections(pending, n)) <==> id in pending && id < n
    ensures Distinct(Rejections(pending, n))
  {
    if n != 0 {
      RejectionsAre(pending, n - 1);
      var before := Rejections(pending, n - 1);
      if n - 1 in pending {
        var last: seq<(nat, Settlement)> := [(n - 1, TransportClosed)];
        assert last[0].0 == n - 1 && Ids(last) == {n - 1};
        DistinctAppend(before, last);
      } else {
        assert before + [] == before;
      }
    }
  }

  lemma SettleOne(s: State, id: nat, how: Settlement)
    requires RequestsAccounted(s) && id in s.pending
    ensures RequestsAccounted(Settle(s, id, how))
  {
    var last := [(id, how)];
    assert last[0].0 == id && Ids(last) == {id};
    DistinctAppend(s.settled, last);
  }

  lemma SettleAll(s: State, disconnects: nat)
    requires RequestsAccounted(s) && disconnects <= 1
    ensures RequestsAccounted(SettlePending(s.(closed := true)).(disconnects := disconnects))
  {
    RejectionsAre(s.pending, s.nextId);
    assert forall id :: id in s.pending ==> id in IssuedBelow(s.nextId);
    assert Ids(Rejections(s.pending, s.nextId)) == s.pending;
    DistinctAppend(s.settled, Rejections(s.pending, s.nextId));
  }

  lemma IssueId(s: State, hasTimeout: bool)
    requires RequestsAccounted(s) && !s.closed
    ensures RequestsAccounted(s.(nextId := s.nextId + 1, pending := s.pending + {s.nextId},
                                 timers := if hasTimeout then s.timers + {s.nextId} else s.timers))
  {
    assert s.nextId !in IssuedBelow(s.nextId);
  }

  lemma StepAccounts(s: State, e: Event)
    requires RequestsAccounted(s) && Enabled(s, e)
    ensures RequestsAccounted(Step(s, e))
  {
    hide Ids, Distinct;
    match e
    case Request(hasTimeout, writable) =>
      if !s.closed {
        IssueId(s, hasTimeout);
        if !writable {
          SettleOne(Step(s, Request(hasTimeout, true)), s.nextId, WriteFailed);
        }
      }
    case Response(id, isError) =>
      if id in s.pending {
        SettleOne(s, id, if isError then RpcError else Resolved);
      }
    case TimerFires(id) => SettleOne(s, id, TimedOut);
    case TransportEnds => if !s.closed { SettleAll(s, s.disconnects + 1); }
    case Close => if !s.closed { SettleAll(s, s.disconnects); }
    case _ =>
  }

  lemma StepReplies(s: State, e: Event)
    requires RepliesAccounted(s) && Enabled(s, e)
    ensures RepliesAccounted(Step(s, e))
  {
    if e.HandlerReturns? && !s.closed && e.writable {
      var last := [(e.token, if e.succeeded && e.encodable then ResultReply else ErrorReply)];
      assert last[0].0 == e.token && Ids(last) == {e.token};
      DistinctAppend(s.replied, last);
    }
  }

  /** Over every interleaving of requests, responses, timers, failed writes, server
      requests and closes, every issued id is pending or settled exactly once, and no
      server request is replied to twice. */
  lemma {:induction false} RequestsSettleExactlyOnce(events: seq<Event>, n: nat)
    requires n <= |events| && Run(events, n)
    ensures RequestsAccounted(After(events, n)) && RepliesAccounted(After(events, n))
  {
    if n != 0 {
      RequestsSettleExactlyOnce(events, n - 1);
      StepAccounts(After(events, n - 1), events[n - 1]);
      StepReplies(After(events, n - 1), events[n - 1]);
    }
  }

  /** What was settled or replied stays so: the logs only grow. */
  lemma {:induction false} SettledIsFinal(events: seq<Event>, m: nat, n: nat)
    requires m <= n <= |events| && Run(events, n)
    ensures After(events, m).settled <= After(events, n).settled
    ensures After(events, m).replied <= After(events, n).replied
    decreases n
  {
    if m != n {
      SettledIsFinal(events, m, n - 1);
    }
  }

  /** A response for an id that is settled or was never issued changes nothing, ever. */
  lemma LateResponsesChangeNothing(events: seq<Event>, n: nat, id: nat, isError: bool)
    requires n <= |events| && Run(events, n)
    requires id in Ids(After(events, n).settled) || id == 0 || id >= After(events, n).nextId
    ensures Step(After(events, n), Response(id, isError)) == After(events, n)
  {
    RequestsSettleExactlyOnce(events, n);
    var s := After(events, n);
    assert id in s.pending ==> id in IssuedBelow(s.nextId);
  }

  // ---------------------------------------------------------------------
  // Each settlement and reply has its cause
  // ---------------------------------------------------------------------

  /** The step in s that settles the request id as told. */
  predicate Causes(s: State, e: Event, id: nat, how: Settlement) {
    match how
    case Resolved => e == Response(id, false) && id in s.pending
    case RpcError => e == Response(id, true) && id in s.pending
    case TimedOut => e == TimerFires(id)
    case WriteFailed => e.Request? && !e.writable && !s.closed && id == s.nextId
    case TransportClosed => (e.TransportEnds? || e.Close?) && !s.closed && id in s.pending
  }

  /** The step in s that replies to the server request token as told. */
  predicate Answers(s: State, e: Event, token: nat, reply: Reply) {
    && e.HandlerReturns? && e.token == token && e.writable && !s.closed
    && (reply.ResultReply? <==> e.succeeded && e.encodable)
  }

  lemma StepHasItsCause(s: State, e: Event, id: nat, how: Settlement)
    requires RequestsAccounted(s) && Enabled(s, e)
    ensures (id, how) in Step(s, e).settled <==> (id, how) in s.settled || Causes(s, e, id, how)
  {
    hide Distinct;
    if (e.TransportEnds? || e.Close?) && !s.closed {
      RejectedIs(s.pending, s.nextId, id, how);
      assert id in s.pending ==> id in IssuedBelow(s.nextId);
    }
  }

  lemma {:induction false} RejectedIs(pending: set<nat>, n: nat, id: nat, how: Settlement)
    ensures (id, how) in Rejections(pending, n) <==> how == TransportClosed && id in pending && id < n
  {
    if n != 0 {
      RejectedIs(pending, n - 1, id, how);
    }
  }

  lemma StepHasItsReply(s: State, e: Event, token: nat, reply: Reply)
    ensures (token, reply) in Step(s, e).replied <==> (token, reply) in s.replied || Answers(s, e, token, reply)
  {
  }

  /** In every run a request was settled as told exactly when some step caused it: a result
      resolves, an error rejects, an armed timer times out, a failed write rejects its own
      request, and the end or close of the transport rejects what is pending. */
  lemma {:induction false} SettlementsHaveTheirCause(events: seq<Event>, n: nat, id: nat, how: Settlement)
    requires n <= |events| && Run(events, n)
    ensures (id, how) in After(events, n).settled <==> exists k :: 0 <= k < n && Causes(After(events, k), events[k], id, how)
  {
    hide Step, Causes;
    if n != 0 {
      SettlementsHaveTheirCause(events, n - 1, id, how);
      RequestsSettleExactlyOnce(events, n - 1);
      StepHasItsCause(After(events, n - 1), events[n - 1], id, how);
    }
  }

  /** Likewise a server request was replied to as told exactly when its handler returned so
      on an open client: with the result, or with an error where there is none to write. */
  lemma {:induction false} RepliesHaveTheirCause(events: seq<Event>, n: nat, token: nat, reply: Reply)
    requires n <= |events| && Run(events, n)
    ensures (token, reply) in After(events, n).replied <==> exists k :: 0 <= k < n && Answers(After(events, k), events[k], token, reply)
  {
    hide Step, Answers;
    if n != 0 {
      RepliesHaveTheirCause(events, n - 1, token, reply);
      StepHasItsReply(After(events, n - 1), events[n - 1], token, reply);
    }
  }

  /** A request on an open client takes the next id, has a timer if one was asked for, and
      is settled by its answer, which can come at once. */
  lemma OpenRequestsAreIssued(s: State, hasTimeout: bool, isError: bool)
    requires RequestsAccounted(s) && !s.closed
    ensures Enabled(s, Request(hasTimeout, true)) && Enabled(Step(s, Request(hasTimeout, true)), Response(s.nextId, isError))
    ensures var s' := Step(s, Request(hasTimeout, true));
      && s'.nextId == s.nextId + 1 && s'.pending == s.pending + {s.nextId}
      && (s.nextId in s'.timers <==> hasTimeout)
      && Step(s', Response(s.nextId, isError)) ==
           s.(nextId := s.nextId + 1, settled := s.settled + [(s.nextId, if isError then RpcError else Resolved)])
  {
    assert s.nextId !in IssuedBelow(s.nextId);
  }

  /** A client is closed exactly when it was closed or its transport ended before, and it
      reports the end of the transport exactly when that came first. */
  lemma {:induction false} ClosedForGood(events: seq<Event>, n: nat)
    requires n <= |events| && Run(events, n)
    ensures After(events, n).closed <==> exists k :: 0 <= k < n && (events[k].Close? || events[k].TransportEnds?)
    ensures After(events, n).disconnects == 1
       <==> exists k :: 0 <= k < n && events[k].TransportEnds? && forall j :: 0 <= j < k ==> !events[j].Close?
    ensures forall e: Event :: !e.TimerFires? && !e.HandlerReturns? ==> Enabled(After(events, n), e)
  {
    if n != 0 {
      ClosedForGood(events, n - 1);
      RequestsSettleExactlyOnce(events, n - 1);
    }
  }

  /** How many server requests came in the first n steps. */
  function ServerRequests(events: seq<Event>, n: nat): nat
    requires n <= |events|
  {
    if n == 0 then 0 else ServerRequests(events, n - 1) + if events[n - 1].ServerRequest? then 1 else 0
  }

  /** The handler of a server request, known by how many came before it, runs from its
      arrival until it returns. */
  lemma {:induction false} HandlersRunUntilTheyReturn(events: seq<Event>, n: nat, token: nat)
    requires n <= |events| && Run(events, n)
    ensures After(events, n).arrivals == ServerRequests(events, n)
    ensures token in After(events, n).handling
       <==> exists k :: 0 <= k < n && events[k].ServerRequest? && ServerRequests(events, k) == token
                        && forall j :: k < j < n ==> !(events[j].HandlerReturns? && events[j].token == token)
  {
    if n != 0 {
      HandlersRunUntilTheyReturn(events, n - 1, token);
    }
  }
}
