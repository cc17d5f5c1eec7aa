/**
 The JSON-RPC client of the TypeScript SDK (ObsionAppServerClient in index.ts): numbered requests, a
 map of pending ones, the handshake of each connect call, and sockets that are replaced over the
 client's life while their events and the connect calls that opened them may still go on. JavaScript runs
 each handler, and each stretch of a call between two awaits, to completion, so each is one step.
 */
module AppServerClient {
  import opened Wrappers

  /** How a request's promise was settled; a socket is named by the number of its connect call. */
  datatype How = ByFrame(socket: nat, error: bool) | ByFailure | BySendError

  datatype Settlement = Settlement(id: nat, how: How)

  /** A frame as `handleMessage` sorts it; the id of a response is None when it is not a number. */
  datatype Frame = NotText | NotJson | Response(id: Option<nat>, error: bool) | Ready | Notification

  datatype Promise = Unsettled | Resolved | Rejected

  /** Where a connect call waits: for its socket, for `server.ready`, for its initialize request, or to fail. */
  datatype Await = Opening | Readying | Initializing(id: nat) | Failing | Connected | Failed

  datatype Hand = Hand(at: Await, socketOpen: Promise, serverReady: Promise)

  /** What a connect call does when it goes on: nothing yet, wait for the next thing, its initialize request, fail. */
  datatype Turn = Stay | Wait(at: Await) | Initialize | Fail

  datatype Event =
    | Connect(created: bool)                                   // `created`: the factory made a socket
    | Request(open: bool, sendThrows: bool)
    | Close
    | SocketOpened(socket: nat)
    | SocketErrored(socket: nat)
    | SocketClosed(socket: nat)
    | Received(socket: nat, frame: Frame)
    | Resumed(socket: nat, open: bool, sendThrows: bool)       // the connect call goes on after its await

  /**
   `pending` lists the keys of the pending map in insertion order; `ready` is the connect call whose ready
   promise the two callbacks still hold; `hands` are the connect calls; the rest is history.
   */
  datatype State = State(
    socket: Option<nat>, nextId: nat, pending: seq<nat>, ready: Option<nat>,
    hands: map<nat, Hand>, connections: nat, issued: map<nat, nat>, settled: seq<Settlement>)

  const START := State(None, 1, [], None, map[], 0, map[], [])

  function Without(ids: seq<nat>, id: nat): seq<nat> {
    if ids == [] then [] else if ids[0] == id then ids[1..] else [ids[0]] + Without(ids[1..], id)
  }

  /** `failPending`: every pending promise is rejected, in order. */
  function AllFailed(ids: seq<nat>): seq<Settlement> {
    if ids == [] then [] else [Settlement(ids[0], ByFailure)] + AllFailed(ids[1..])
  }

  function FailPending(s: State): State {
    s.(pending := [], settled := s.settled + AllFailed(s.pending))
  }

  /** `close`: the callbacks are dropped without being called. */
  function Closed(s: State): State {
    FailPending(s.(socket := None, ready := None))
  }

  /** The callbacks settle the ready promise they hold, if any, and are dropped. */
  function SettleReady(s: State, p: Promise): State {
    if s.ready.None? || s.ready.value !in s.hands then s
    else s.(ready := None, hands := s.hands[s.ready.value := s.hands[s.ready.value].(serverReady := p)])
  }

  /** `opened` settles at most once, and only while it is unsettled. */
  function SettleOpened(s: State, k: nat, p: Promise): State {
    if k !in s.hands || !s.hands[k].socketOpen.Unsettled? then s
    else s.(hands := s.hands[k := s.hands[k].(socketOpen := p)])
  }

  function Begun(s: State, created: bool): State {
    var k := s.connections;
    s.(socket := if created then Some(k) else None, ready := Some(k), connections := k + 1,
       hands := s.hands[k := Hand(Opening, if created then Unsettled else Rejected, Unsettled)])
  }

  /** A request leaves on the socket in use. */
  function Issue(s: State, sendThrows: bool): State
    requires s.socket.Some?
  {
    var sent := s.(nextId := s.nextId + 1, issued := s.issued[s.nextId := s.socket.value]);
    if sendThrows then sent.(settled := s.settled + [Settlement(s.nextId, BySendError)])
    else sent.(pending := s.pending + [s.nextId])
  }

  function MovedTo(s: State, k: nat, at: Await): State
    requires k in s.hands
  {
    s.(hands := s.hands[k := s.hands[k].(at := at)])
  }

  /** The request was answered with a result. */
  predicate Succeeded(settled: seq<Settlement>, id: nat) {
    exists x | x in settled :: x.id == id && x.how.ByFrame? && !x.how.error
  }

  function NextTurn(s: State, h: Hand, open: bool): Turn {
    match h.at
    case Opening =>
      if h.socketOpen.Unsettled? then Stay else if h.socketOpen.Resolved? then Wait(Readying) else Fail
    case Readying =>
      if h.serverReady.Unsettled? then Stay
      else if h.serverReady.Rejected? then Fail
      else if s.socket.Some? && open then Initialize else Wait(Failing)
    case Initializing(id) =>
      if id in s.pending then Stay else if Succeeded(s.settled, id) then Wait(Connected) else Fail
    case Failing => Fail
    case _ => Stay
  }

  /** The initialize request leaves on whatever socket is in use; an exception ends in `this.close()`. */
  function Taken(s: State, k: nat, turn: Turn, sendThrows: bool): State
    requires k in s.hands && (turn.Initialize? ==> s.socket.Some?)
  {
    match turn
    case Stay => s
    case Wait(at) => MovedTo(s, k, at)
    case Initialize => MovedTo(Issue(s, sendThrows), k, if sendThrows then Failing else Initializing(s.nextId))
    case Fail => Closed(MovedTo(s, k, Failed))
  }

  function Resume(s: State, k: nat, open: bool, sendThrows: bool): State
    requires k in s.hands
  {
    Taken(s, k, NextTurn(s, s.hands[k], open), sendThrows)
  }

  function Receive(s: State, socket: nat, frame: Frame): State {
    match frame
    case NotText => Closed(s)
    case NotJson => Closed(s)
    case Ready => SettleReady(s, Resolved)
    case Notification => s
    case Response(id, error) =>
      if id.Some? && id.value in s.pending
      then s.(pending := Without(s.pending, id.value),
              settled := s.settled + [Settlement(id.value, ByFrame(socket, error))])
      else s
  }

  function Step(s: State, e: Event): State {
    match e
    case Connect(created) => if s.socket.Some? then s else Begun(s, created)
    case Request(open, sendThrows) => if s.socket.None? || !open then s else Issue(s, sendThrows)
    case Close => Closed(s)
    case SocketOpened(k) => SettleOpened(s, k, Resolved)
    case SocketErrored(k) => SettleOpened(s, k, Rejected)
    case SocketClosed(_) => FailPending(SettleReady(s, Rejected))
    case Received(k, frame) => Receive(s, k, frame)
    case Resumed(k, open, sendThrows) => if k in s.hands then Resume(s, k, open, sendThrows) else s
  }

  function Play(s: State, events: seq<Event>): State
    decreases |events|
  {
    if events == [] then s else Play(Step(s, events[0]), events[1..])
  }

  /** One event of a run, and the rest of it. */
  lemma PlayStep(s: State, e: Event, rest: seq<Event>)
    ensures Play(s, [e] + rest) == Play(Step(s, e), rest)
  {
    assert ([e] + rest)[1..] == rest;
  }

  lemma PlayOne(s: State, e: Event)
    ensures Play(s, [e]) == Step(s, e)
  {
    PlayStep(s, e, []);
    assert [e] + [] == [e];
  }

  lemma PlayTwo(s: State, a: Event, b: Event)
    ensures Play(s, [a, b]) == Step(Step(s, a), b)
  {
    PlayStep(s, a, [b]);
    PlayOne(Step(s, a), b);
    assert [a] + [b] == [a, b];
  }

  // -------------------------------------------------------------- invariant

  predicate Rising(ids: seq<nat>) {
    forall i, j | 0 <= i < j < |ids| :: ids[i] < ids[j]
  }

  predicate SettledOnce(settled: seq<Settlement>) {
    forall i, j | 0 <= i < j < |settled| :: settled[i].id != settled[j].id
  }

  predicate IsSettled(settled: seq<Settlement>, id: nat) {
    exists x | x in settled :: x.id == id
  }

  /**
   Ids are issued 1, 2, 3, ... and never again; every issued request is either pending or settled, never
   both, and settled once; and whatever is pending was sent on the socket in use.
   */
  ghost predicate Books(s: State) {
    && s.nextId >= 1
    && (forall id: nat :: id in s.issued <==> 1 <= id < s.nextId)
    && Rising(s.pending)
    && (forall id | id in s.pending :: id in s.issued && s.socket == Some(s.issued[id]))
    && SettledOnce(s.settled)
    && (forall id | id in s.issued :: IsSettled(s.settled, id) <==> id !in s.pending)
    && (forall x | x in s.settled :: x.id in s.issued)
    && (s.socket.Some? ==> s.socket.value < s.connections)
    && (forall id | id in s.issued :: s.issued[id] < s.connections)
  }

  /** The callbacks hold the unsettled ready promise of the newest connect call, that of the socket if there is one. */
  ghost predicate Handshakes(s: State) {
    && (forall k | k in s.hands :: k < s.connections)
    && (forall k | k in s.hands && s.hands[k].at.Initializing? :: s.hands[k].at.id in s.issued)
    && (s.socket.Some? ==> s.socket.value in s.hands)
    && (s.ready.Some? ==>
          && s.ready.value in s.hands && s.hands[s.ready.value].serverReady.Unsettled?
          && (s.socket.Some? ==> s.socket == s.ready))
  }

  ghost predicate Inv(s: State) {
    Books(s) && Handshakes(s)
  }

  lemma RisingJoined(low: seq<nat>, high: seq<nat>)
    requires Rising(low) && Rising(high)
    requires forall x, y | x in low && y in high :: x < y
    ensures Rising(low + high)
  {
    var all := low + high;
    forall i, j | 0 <= i < j < |all| ensures all[i] < all[j] {
      if i < |low| <= j {
        assert all[i] in low && all[j] in high;
      }
    }
  }

  lemma {:induction false} WithoutMembers(ids: seq<nat>, id: nat)
    requires Rising(ids)
    ensures Rising(Without(ids, id))
    ensures forall x :: x in Without(ids, id) <==> x in ids && x != id
  {
    if ids != [] {
      assert ids == [ids[0]] + ids[1..];
      if ids[0] != id {
        WithoutMembers(ids[1..], id);
        forall x | x in Without(ids[1..], id) ensures ids[0] < x {
          var k :| 1 <= k < |ids| && ids[k] == x;
        }
        RisingJoined([ids[0]], Without(ids[1..], id));
      }
    }
  }

  lemma {:induction false} AllFailedMembers(ids: seq<nat>)
    requires Rising(ids)
    ensures |AllFailed(ids)| == |ids|
    ensures forall i | 0 <= i < |ids| :: AllFailed(ids)[i] == Settlement(ids[i], ByFailure)
  {
    if ids != [] {
      AllFailedMembers(ids[1..]);
    }
  }

  lemma SettleKeepsBooks(s: State, more: seq<Settlement>, left: seq<nat>)
    requires Books(s) && SettledOnce(more) && Rising(left)
    requires forall x | x in more :: x.id in s.pending
    requires forall id :: id in left <==> id in s.pending && !IsSettled(more, id)
    ensures Books(s.(pending := left, settled := s.settled + more))
  {
    var settled := s.settled + more;
    forall id ensures IsSettled(settled, id) <==> IsSettled(s.settled, id) || IsSettled(more, id) {
    }
    forall i, j | 0 <= i < j < |settled| ensures settled[i].id != settled[j].id {
      if i < |s.settled| <= j {
        assert settled[i] in s.settled && settled[j] in more;
      }
    }
  }

  lemma FailPendingKeepsBooks(s: State)
    requires Books(s)
    ensures Books(FailPending(s)) && FailPending(s).pending == []
  {
    var more := AllFailed(s.pending);
    AllFailedMembers(s.pending);
    forall id | id in s.pending ensures IsSettled(more, id) {
      var i :| 0 <= i < |s.pending| && s.pending[i] == id;
      assert more[i] in more;
    }
    SettleKeepsBooks(s, more, []);
  }

  lemma ClosedKeepsInv(s: State)
    requires Inv(s)
    ensures Inv(Closed(s)) && Closed(s).pending == [] && Inv(FailPending(s))
  {
    FailPendingKeepsBooks(s);
    assert Closed(s) == FailPending(s).(socket := None, ready := None);
  }

  lemma IssueKeepsBooks(s: State, sendThrows: bool)
    requires Books(s) && s.socket.Some?
    ensures Books(Issue(s, sendThrows))
  {
    var t := Issue(s, sendThrows);
    RisingJoined(s.pending, [s.nextId]);
    forall id | id in t.issued ensures IsSettled(t.settled, id) <==> id !in t.pending {
      if id == s.nextId {
        assert sendThrows ==> Settlement(id, BySendError) in t.settled;
      } else {
        assert IsSettled(s.settled, id) <==> id !in s.pending;
        assert IsSettled(t.settled, id) <==> IsSettled(s.settled, id);
      }
    }
  }

  lemma ResponseKeepsInv(s: State, socket: nat, id: nat, error: bool)
    requires Inv(s) && id in s.pending
    ensures Inv(Receive(s, socket, Response(Some(id), error)))
  {
    WithoutMembers(s.pending, id);
    var more := [Settlement(id, ByFrame(socket, error))];
    assert more[0] in more;
    SettleKeepsBooks(s, more, Without(s.pending, id));
  }

  lemma SettleReadyKeepsInv(s: State, p: Promise)
    requires Inv(s)
    ensures Inv(SettleReady(s, p))
  {
  }

  lemma FirstIsMember(ids: seq<nat>)
    ensures ids == [] || ids[0] in ids
  {
  }

  lemma BegunKeepsInv(s: State, created: bool)
    requires Inv(s) && s.socket.None?
    ensures Inv(Begun(s, created))
  {
    FirstIsMember(s.pending);
  }

  lemma MovedToKeepsInv(s: State, k: nat, at: Await)
    requires Inv(s) && k in s.hands && (at.Initializing? ==> at.id in s.issued)
    ensures Inv(MovedTo(s, k, at))
  {
  }

  lemma FailedKeepsInv(s: State, k: nat)
    requires Inv(s) && k in s.hands
    ensures Inv(Closed(MovedTo(s, k, Failed)))
  {
    MovedToKeepsInv(s, k, Failed);
    ClosedKeepsInv(MovedTo(s, k, Failed));
  }

  lemma InitializeKeepsInv(s: State, k: nat, sendThrows: bool)
    requires Inv(s) && k in s.hands && s.socket.Some?
    ensures Inv(Taken(s, k, Initialize, sendThrows))
  {
    IssueKeepsBooks(s, sendThrows);
    var sent := Issue(s, sendThrows);
    assert Handshakes(sent);
    MovedToKeepsInv(sent, k, if sendThrows then Failing else Initializing(s.nextId));
  }

  lemma ResumeKeepsInv(s: State, k: nat, open: bool, sendThrows: bool)
    requires Inv(s) && k in s.hands
    ensures Inv(Resume(s, k, open, sendThrows))
  {
    match NextTurn(s, s.hands[k], open)
    case Stay =>
    case Wait(at) => MovedToKeepsInv(s, k, at);
    case Initialize => InitializeKeepsInv(s, k, sendThrows);
    case Fail => FailedKeepsInv(s, k);
  }

  lemma ReceiveKeepsInv(s: State, socket: nat, frame: Frame)
    requires Inv(s)
    ensures Inv(Receive(s, socket, frame))
  {
    match frame
    case Ready => SettleReadyKeepsInv(s, Resolved);
    case Notification =>
    case Response(id, error) =>
      if id.Some? && id.value in s.pending {
        ResponseKeepsInv(s, socket, id.value, error);
      }
    case _ => ClosedKeepsInv(s);
  }

  lemma StepKeepsInv(s: State, e: Event)
    requires Inv(s)
    ensures Inv(Step(s, e))
  {
    match e
    case Close => ClosedKeepsInv(s);
    case Connect(created) =>
      if s.socket.None? {
        BegunKeepsInv(s, created);
      }
    case Request(open, sendThrows) =>
      if s.socket.Some? {
        IssueKeepsBooks(s, sendThrows);
      }
    case SocketClosed(_) =>
      SettleReadyKeepsInv(s, Rejected);
      ClosedKeepsInv(SettleReady(s, Rejected));
    case Received(k, frame) => ReceiveKeepsInv(s, k, frame);
    case Resumed(k, open, sendThrows) =>
      if k in s.hands {
        ResumeKeepsInv(s, k, open, sendThrows);
      }
    case _ =>
  }

  /** Over every run, across any number of reconnects, in any interleaving of calls, frames and closes. */
  lemma {:induction false} RunKeepsInv(s: State, events: seq<Event>)
    requires Inv(s)
    ensures Inv(Play(s, events))
    decreases |events|
  {
    if events != [] {
      StepKeepsInv(s, events[0]);
      RunKeepsInv(Step(s, events[0]), events[1..]);
    }
  }

  lemma EveryRunKeepsTheBooks(events: seq<Event>)
    ensures Inv(Play(START, events))
  {
    RunKeepsInv(START, events);
  }

  /** The server answers a request only on the socket it came in on (JSON-RPC 2.0, section 5). */
  predicate HonestFrame(s: State, e: Event) {
    e.Received? && e.frame.Response? && e.frame.id.Some? ==>
      e.frame.id.value in s.issued && s.issued[e.frame.id.value] == e.socket
  }

  ghost predicate HonestRun(s: State, events: seq<Event>)
    decreases |events|
  {
    events == [] || (HonestFrame(s, events[0]) && HonestRun(Step(s, events[0]), events[1..]))
  }

  /** A response settles a request exactly when its id is pending, and then that request only. */
  lemma ResponseSettlesItsOwnRequest(s: State, socket: nat, id: nat, error: bool)
    requires Inv(s)
    ensures var t := Step(s, Received(socket, Response(Some(id), error)));
      if id in s.pending
      then t.settled == s.settled + [Settlement(id, ByFrame(socket, error))]
           && forall x :: x in t.pending <==> x in s.pending && x != id
      else t == s
  {
    WithoutMembers(s.pending, id);
  }

  /** A late response of an earlier connection changes nothing: it can resolve no later request. */
  lemma LateFrameIsIgnored(s: State, e: Event)
    requires Inv(s) && HonestFrame(s, e) && e.Received? && e.frame.Response?
    requires s.socket != Some(e.socket)
    ensures Step(s, e) == s
  {
  }

  ghost predicate AnsweredWhereSent(s: State) {
    forall x | x in s.settled && x.how.ByFrame? :: x.id in s.issued && s.issued[x.id] == x.how.socket
  }

  /** Nothing but a response adds a settlement by frame, and no issued request changes its socket. */
  predicate OnlyFailures(s: State, t: State) {
    && (forall x | x in t.settled :: x in s.settled || !x.how.ByFrame?)
    && (forall id | id in s.issued :: id in t.issued && t.issued[id] == s.issued[id])
  }

  lemma IssueAddsOnlyFailures(s: State, sendThrows: bool)
    requires Books(s) && s.socket.Some?
    ensures OnlyFailures(s, Issue(s, sendThrows))
  {
  }

  lemma FailPendingAddsOnlyFailures(s: State)
    requires Books(s)
    ensures OnlyFailures(s, FailPending(s))
  {
    AllFailedMembers(s.pending);
  }

  lemma StepAddsOnlyFailures(s: State, e: Event)
    requires Inv(s) && !(e.Received? && e.frame.Response?)
    ensures OnlyFailures(s, Step(s, e))
  {
    FailPendingAddsOnlyFailures(s);
    assert Closed(s).settled == FailPending(s).settled;
    assert FailPending(SettleReady(s, Rejected)).settled == FailPending(s).settled;
    match e
    case Resumed(k, open, sendThrows) =>
      if k in s.hands {
        ResumeAddsOnlyFailures(s, k, open, sendThrows);
      }
    case Request(open, sendThrows) =>
      if s.socket.Some? {
        IssueAddsOnlyFailures(s, sendThrows);
      }
    case _ =>
  }

  lemma ResumeAddsOnlyFailures(s: State, k: nat, open: bool, sendThrows: bool)
    requires Inv(s) && k in s.hands
    ensures OnlyFailures(s, Resume(s, k, open, sendThrows))
  {
    match NextTurn(s, s.hands[k], open)
    case Initialize => IssueAddsOnlyFailures(s, sendThrows);
    case Fail =>
      MovedToKeepsInv(s, k, Failed);
      FailPendingAddsOnlyFailures(MovedTo(s, k, Failed));
    case _ =>
  }

  /** A step adds settlements of pending requests, or a send error, and keeps where each request was sent. */
  lemma StepAnswersWhereSent(s: State, e: Event)
    requires Inv(s) && HonestFrame(s, e) && AnsweredWhereSent(s)
    ensures AnsweredWhereSent(Step(s, e))
  {
    if !(e.Received? && e.frame.Response?) {
      StepAddsOnlyFailures(s, e);
    }
  }

  /** With an honest server, every response ever used was received on the very socket that sent its request. */
  lemma {:induction false} AnswersComeFromTheirSocket(s: State, events: seq<Event>)
    requires Inv(s) && HonestRun(s, events) && AnsweredWhereSent(s)
    ensures AnsweredWhereSent(Play(s, events))
    decreases |events|
  {
    if events != [] {
      StepKeepsInv(s, events[0]);
      StepAnswersWhereSent(s, events[0]);
      AnswersComeFromTheirSocket(Step(s, events[0]), events[1..]);
    }
  }

  lemma StepOnlyAddsHistory(s: State, e: Event)
    ensures s.settled <= Step(s, e).settled
  {
  }

  lemma {:induction false} HistoryOnlyGrows(s: State, events: seq<Event>)
    ensures s.settled <= Play(s, events).settled
    decreases |events|
  {
    if events != [] {
      StepOnlyAddsHistory(s, events[0]);
      HistoryOnlyGrows(Step(s, events[0]), events[1..]);
    }
  }

  /** After close() every request ever issued has been settled exactly once, and its settlement never changes. */
  lemma CloseSettlesEverything(events: seq<Event>, id: nat, later: seq<Event>)
    requires id in Play(START, events).issued
    ensures var closed := Step(Play(START, events), Close);
      var end := Play(closed, later);
      IsSettled(closed.settled, id) && closed.settled <= end.settled && SettledOnce(end.settled)
  {
    RunKeepsInv(START, events);
    var s := Play(START, events);
    StepKeepsInv(s, Close);
    ClosedKeepsInv(s);
    HistoryOnlyGrows(Step(s, Close), later);
    RunKeepsInv(Step(s, Close), later);
  }

  // -------------------------------------------------------- the handshake

  /** A connect call that waits for a ready promise nobody can settle any more. */
  ghost predicate Stranded(s: State, k: nat) {
    k in s.hands && s.hands[k].at.Readying? && s.hands[k].serverReady.Unsettled? && s.ready != Some(k)
  }

  lemma StrandedThroughTurn(s: State, j: nat, turn: Turn, sendThrows: bool, k: nat)
    requires j in s.hands && (turn.Initialize? ==> s.socket.Some?) && (j == k ==> turn.Stay?)
    requires Inv(s) && Stranded(s, k)
    ensures Stranded(Taken(s, j, turn, sendThrows), k)
  {
  }

  lemma StrandedThroughFrame(s: State, socket: nat, frame: Frame, k: nat)
    requires Stranded(s, k)
    ensures Stranded(Receive(s, socket, frame), k)
  {
  }

  lemma StrandedStays(s: State, e: Event, k: nat)
    requires Inv(s) && Stranded(s, k)
    ensures Stranded(Step(s, e), k)
  {
    match e
    case Resumed(j, open, sendThrows) =>
      if j in s.hands {
        StrandedThroughTurn(s, j, NextTurn(s, s.hands[j], open), sendThrows, k);
      }
    case Received(j, frame) => StrandedThroughFrame(s, j, frame, k);
    case _ =>
  }

  lemma {:induction false} StrandedForGood(s: State, events: seq<Event>, k: nat)
    requires Inv(s) && Stranded(s, k)
    ensures Stranded(Play(s, events), k)
    decreases |events|
  {
    if events != [] {
      StepKeepsInv(s, events[0]);
      StrandedStays(s, events[0], k);
      StrandedForGood(Step(s, events[0]), events[1..], k);
    }
  }

  predicate AwaitsReady(s: State, k: nat) {
    k in s.hands && s.hands[k].at.Readying?
  }

  /** close() drops the callbacks without calling them: a connect call waiting for `server.ready` never returns. */
  lemma CloseStrandsConnect(s: State, k: nat, later: seq<Event>)
    requires Inv(s) && AwaitsReady(s, k) && s.hands[k].serverReady.Unsettled?
    ensures AwaitsReady(Play(Step(s, Close), later), k)
  {
    StepKeepsInv(s, Close);
    StrandedForGood(Step(s, Close), later, k);
  }

  /** A call whose ready promise is unsettled waits for good exactly when the callbacks are no longer its own. */
  lemma StrandedExactly(s: State, k: nat)
    requires Inv(s) && AwaitsReady(s, k) && s.hands[k].serverReady.Unsettled?
    ensures s.ready != Some(k) <==> forall events :: AwaitsReady(Play(s, events), k)
  {
    if s.ready == Some(k) {
      PlayTwo(s, Received(k, Ready), Resumed(k, false, false));
      assert !AwaitsReady(Play(s, [Received(k, Ready), Resumed(k, false, false)]), k);
    } else {
      forall events ensures AwaitsReady(Play(s, events), k) {
        StrandedForGood(s, events, k);
      }
    }
  }

  lemma TurnKeepsOtherHands(s: State, j: nat, turn: Turn, sendThrows: bool, k: nat)
    requires j in s.hands && k in s.hands && j != k && (turn.Initialize? ==> s.socket.Some?)
    ensures k in Taken(s, j, turn, sendThrows).hands && Taken(s, j, turn, sendThrows).hands[k] == s.hands[k]
  {
  }

  /** No step but its own moves a connect call. */
  lemma StepKeepsOtherHands(s: State, e: Event, k: nat)
    requires Inv(s) && k in s.hands && !(e.Resumed? && e.socket == k)
    ensures k in Step(s, e).hands && Step(s, e).hands[k].at == s.hands[k].at
  {
    match e
    case Resumed(j, open, sendThrows) =>
      if j in s.hands {
        TurnKeepsOtherHands(s, j, NextTurn(s, s.hands[j], open), sendThrows, k);
      }
    case _ =>
  }

  /** A connect call returns only after its initialize request was answered with a result. */
  lemma ConnectReturnsOnProof(s: State, e: Event, k: nat)
    requires Inv(s) && k in s.hands && !s.hands[k].at.Connected?
    ensures k in Step(s, e).hands
    ensures Step(s, e).hands[k].at.Connected? ==>
      s.hands[k].at.Initializing? && Succeeded(s.settled, s.hands[k].at.id)
  {
    if e.Resumed? && e.socket == k {
      assert Step(s, e) == Taken(s, k, NextTurn(s, s.hands[k], e.open), e.sendThrows);
    } else {
      StepKeepsOtherHands(s, e, k);
    }
  }

  // ------------------------------------------------ events of another socket

  /** The connect call the client is in the middle of, or whose socket it uses. */
  function Mine(s: State): Option<nat> {
    if s.socket.Some? then s.socket else s.ready
  }

  /** An event of any other connect call or of its socket. */
  predicate Foreign(s: State, e: Event) {
    !e.Connect? && !e.Request? && !e.Close? && Mine(s) != Some(e.socket)
  }

  /** The client, and the handshake it is in; what other connect calls still do is theirs. */
  datatype View = View(
    socket: Option<nat>, nextId: nat, pending: seq<nat>, ready: Option<nat>, hand: Option<Hand>,
    connections: nat, issued: map<nat, nat>, settled: seq<Settlement>)

  function Visible(s: State): View {
    var m := Mine(s);
    View(s.socket, s.nextId, s.pending, s.ready,
         if m.Some? && m.value in s.hands then Some(s.hands[m.value]) else None,
         s.connections, s.issued, s.settled)
  }

  /** There is no request, no socket and no handshake left to lose. */
  predicate NothingToLose(s: State) {
    s.pending == [] && s.socket.None? && s.ready.None?
  }

  /**
   When such an event does no harm: a close only while nothing is pending and no handshake is under way, a
   `server.ready` only while no handshake is, a malformed frame and a failing connect call only when there is
   nothing to lose, and a connect call that goes on only if it sends nothing.
   */
  predicate Harmless(s: State, e: Event) {
    match e
    case SocketClosed(_) => s.pending == [] && s.ready.None?
    case Received(_, Ready) => s.ready.None?
    case Received(_, NotText) => NothingToLose(s)
    case Received(_, NotJson) => NothingToLose(s)
    case Resumed(k, open, _) =>
      k in s.hands ==>
        var turn := NextTurn(s, s.hands[k], open);
        (turn.Fail? ==> NothingToLose(s)) && !turn.Initialize?
    case _ => true
  }

  lemma NothingFails(s: State)
    requires s.pending == []
    ensures FailPending(s) == s
  {
    assert s.settled + [] == s.settled;
  }

  /** Closing is visible exactly when there is something to lose. */
  lemma ClosedVisibly(s: State)
    requires Inv(s)
    ensures Visible(Closed(s)) == Visible(s) <==> NothingToLose(s)
  {
    if NothingToLose(s) {
      NothingFails(s);
    }
  }

  /** What another connect call keeps for itself is not visible. */
  lemma MovedInvisibly(s: State, k: nat, at: Await)
    requires Inv(s) && k in s.hands && Mine(s) != Some(k)
    ensures Visible(MovedTo(s, k, at)) == Visible(s)
  {
  }

  lemma ForeignResumeExactly(s: State, k: nat, open: bool, sendThrows: bool)
    requires Inv(s) && k in s.hands && Mine(s) != Some(k)
    ensures Visible(Resume(s, k, open, sendThrows)) == Visible(s) <==> Harmless(s, Resumed(k, open, sendThrows))
  {
    match NextTurn(s, s.hands[k], open)
    case Wait(at) => MovedInvisibly(s, k, at);
    case Fail =>
      MovedInvisibly(s, k, Failed);
      MovedToKeepsInv(s, k, Failed);
      ClosedVisibly(MovedTo(s, k, Failed));
    case _ =>
  }

  lemma ForeignCloseExactly(s: State)
    requires Inv(s)
    ensures Visible(FailPending(SettleReady(s, Rejected))) == Visible(s) <==> s.pending == [] && s.ready.None?
  {
    if s.pending == [] && s.ready.None? {
      NothingFails(s);
    }
  }

  /** Exactly then the client is left as it was. */
  lemma ForeignEventExactly(s: State, e: Event)
    requires Inv(s) && HonestFrame(s, e) && Foreign(s, e)
    ensures Visible(Step(s, e)) == Visible(s) <==> Harmless(s, e)
  {
    match e
    case SocketClosed(_) => ForeignCloseExactly(s);
    case Received(_, frame) => ClosedVisibly(s);
    case Resumed(k, open, sendThrows) =>
      if k in s.hands {
        ForeignResumeExactly(s, k, open, sendThrows);
      }
    case _ =>
  }

  /** What the client sees of itself decides what its own events do to it. */
  lemma OwnTurnSeesItself(s: State, t: State, k: nat, turn: Turn, sendThrows: bool)
    requires Visible(s) == Visible(t) && Mine(s) == Some(k) && k in s.hands && k in t.hands
    requires turn.Initialize? ==> s.socket.Some?
    ensures Visible(Taken(s, k, turn, sendThrows)) == Visible(Taken(t, k, turn, sendThrows))
  {
    assert s.hands[k] == t.hands[k];
  }

  lemma OwnResumeSeesItself(s: State, t: State, k: nat, open: bool, sendThrows: bool)
    requires Visible(s) == Visible(t) && Mine(s) == Some(k) && k in s.hands && k in t.hands
    ensures Visible(Resume(s, k, open, sendThrows)) == Visible(Resume(t, k, open, sendThrows))
  {
    assert NextTurn(s, s.hands[k], open) == NextTurn(t, t.hands[k], open);
    OwnTurnSeesItself(s, t, k, NextTurn(s, s.hands[k], open), sendThrows);
  }

  lemma SettleReadySeesItself(s: State, t: State, p: Promise)
    requires Inv(s) && Inv(t) && Visible(s) == Visible(t)
    ensures Visible(SettleReady(s, p)) == Visible(SettleReady(t, p))
    ensures Visible(FailPending(SettleReady(s, p))) == Visible(FailPending(SettleReady(t, p)))
  {
  }

  lemma ReceiveSeesItself(s: State, t: State, k: nat, frame: Frame)
    requires Inv(s) && Inv(t) && Visible(s) == Visible(t)
    ensures Visible(Receive(s, k, frame)) == Visible(Receive(t, k, frame))
  {
    SettleReadySeesItself(s, t, Resolved);
  }

  lemma OwnEventSeesItself(s: State, t: State, e: Event)
    requires Inv(s) && Inv(t) && Visible(s) == Visible(t) && !Foreign(s, e)
    ensures Visible(Step(s, e)) == Visible(Step(t, e))
  {
    var m := Mine(s);
    assert Mine(t) == m;
    if m.Some? {
      assert m.value in s.hands && m.value in t.hands && s.hands[m.value] == t.hands[m.value];
    }
    match e
    case Resumed(k, open, sendThrows) => OwnResumeSeesItself(s, t, k, open, sendThrows);
    case Received(k, frame) => ReceiveSeesItself(s, t, k, frame);
    case SocketClosed(_) => SettleReadySeesItself(s, t, Rejected);
    case _ =>
  }

  /** The run without the events of other connect calls and their sockets. */
  function Own(s: State, events: seq<Event>): seq<Event>
    decreases |events|
  {
    if events == [] then []
    else (if Foreign(s, events[0]) then [] else [events[0]]) + Own(Step(s, events[0]), events[1..])
  }

  predicate AllHarmless(s: State, events: seq<Event>)
    decreases |events|
  {
    events == [] ||
    ((Foreign(s, events[0]) ==> Harmless(s, events[0])) && AllHarmless(Step(s, events[0]), events[1..]))
  }

  /** After the first n events the client from s looks as its own events alone would leave the client from t. */
  predicate Isolated(s: State, t: State, events: seq<Event>, n: nat)
    requires n <= |events|
  {
    Visible(Play(s, events[..n])) == Visible(Play(t, Own(s, events[..n])))
  }

  lemma IsolatedStep(s: State, t: State, events: seq<Event>, n: nat)
    requires 0 < n <= |events|
    ensures var e := events[0];
      Isolated(s, t, events, n)
      <==> Isolated(Step(s, e), if Foreign(s, e) then t else Step(t, e), events[1..], n - 1)
  {
    var e, rest := events[0], events[1..];
    assert events[..n] == [e] + rest[..n - 1];
    PlayStep(s, e, rest[..n - 1]);
    OwnStep(s, e, rest[..n - 1]);
    if !Foreign(s, e) {
      PlayStep(t, e, Own(Step(s, e), rest[..n - 1]));
    }
  }

  lemma OwnStep(s: State, e: Event, rest: seq<Event>)
    ensures Own(s, [e] + rest) == (if Foreign(s, e) then [] else [e]) + Own(Step(s, e), rest)
    ensures Foreign(s, e) ==> Own(s, [e] + rest) == Own(Step(s, e), rest)
  {
    assert ([e] + rest)[1..] == rest;
  }

  lemma IsolatedAtOnce(s: State, t: State, events: seq<Event>)
    ensures Isolated(s, t, events, 0) <==> Visible(s) == Visible(t)
  {
    assert events[..0] == [];
  }

  /** Isolation of a run is isolation of what follows its first event, and of that event. */
  lemma IsolatedRest(s: State, t: State, events: seq<Event>)
    requires events != [] && Visible(s) == Visible(t)
    ensures var e := events[0];
      var t' := if Foreign(s, e) then t else Step(t, e);
      (forall n: nat | n <= |events| :: Isolated(s, t, events, n))
      <==> (forall n: nat | n <= |events| - 1 :: Isolated(Step(s, e), t', events[1..], n))
  {
    var e, rest := events[0], events[1..];
    var t' := if Foreign(s, e) then t else Step(t, e);
    IsolatedAtOnce(s, t, events);
    forall n: nat | 0 < n <= |events| ensures Isolated(s, t, events, n) <==> Isolated(Step(s, e), t', rest, n - 1) {
      IsolatedStep(s, t, events, n);
    }
    if exists m: nat :: m <= |rest| && !Isolated(Step(s, e), t', rest, m) {
      var m: nat :| m <= |rest| && !Isolated(Step(s, e), t', rest, m);
      assert !Isolated(s, t, events, m + 1);
    }
  }

  lemma {:induction false} IsolatedFrom(s: State, t: State, events: seq<Event>)
    requires Inv(s) && Inv(t) && Visible(s) == Visible(t) && HonestRun(s, events)
    ensures AllHarmless(s, events) <==> forall n: nat | n <= |events| :: Isolated(s, t, events, n)
    decreases |events|
  {
    if events == [] {
      IsolatedAtOnce(s, t, events);
    } else {
      var e, rest := events[0], events[1..];
      var s', t' := Step(s, e), if Foreign(s, e) then t else Step(t, e);
      StepKeepsInv(s, e);
      StepKeepsInv(t, e);
      IsolatedRest(s, t, events);
      if Foreign(s, e) {
        ForeignEventExactly(s, e);
      } else {
        OwnEventSeesItself(s, t, e);
      }
      if Visible(s') == Visible(t') {
        IsolatedFrom(s', t', rest);
      } else {
        IsolatedAtOnce(s', t', rest);
      }
    }
  }

  /**
   Over whole runs: replaced sockets and their connect calls never influence the client, at any moment, if and
   only if each of their events came while it could do no harm.
   */
  lemma IsolatedExactly(s: State, events: seq<Event>)
    requires Inv(s) && HonestRun(s, events)
    ensures AllHarmless(s, events) <==> forall n: nat | n <= |events| :: Isolated(s, s, events, n)
  {
    IsolatedFrom(s, s, events);
  }

  // --------------------------------------------------------- failing runs

  const FRESH := Hand(Opening, Unsettled, Unsettled)

  /** A client that has connected, closed, and connected again. */
  const AGAIN := State(Some(1), 1, [], Some(1), map[0 := FRESH, 1 := FRESH], 2, map[], [])

  lemma ReconnectRun(rest: seq<Event>)
    ensures Play(START, [Connect(true), Close, Connect(true)] + rest) == Play(AGAIN, rest)
  {
    var one := State(Some(0), 1, [], Some(0), map[0 := FRESH], 1, map[], []);
    var closed := State(None, 1, [], None, map[0 := FRESH], 1, map[], []);
    assert Step(START, Connect(true)) == one;
    assert Step(one, Close) == closed;
    assert Step(closed, Connect(true)) == AGAIN;
    PlayStep(START, Connect(true), [Close, Connect(true)] + rest);
    PlayStep(one, Close, [Connect(true)] + rest);
    PlayStep(closed, Connect(true), rest);
    assert [Connect(true), Close, Connect(true)] + rest == [Connect(true)] + ([Close, Connect(true)] + rest);
    assert [Close, Connect(true)] + rest == [Close] + ([Connect(true)] + rest);
  }

  /** The close event of a replaced socket fails every request of the new one. */
  lemma OldCloseFailsNewRequest()
    ensures var s := Play(START, [Connect(true), Close, Connect(true)] + [Request(true, false), SocketClosed(0)]);
      s.issued == map[1 := 1] && s.socket == Some(1) && s.settled == [Settlement(1, ByFailure)]
  {
    ReconnectRun([Request(true, false), SocketClosed(0)]);
    PlayTwo(AGAIN, Request(true, false), SocketClosed(0));
    var sent := Step(AGAIN, Request(true, false));
    assert sent.pending == [1] && sent.settled == [];
    assert AllFailed([1]) == [Settlement(1, ByFailure)];
  }

  /** A frame of a replaced socket that is no JSON drops the new socket with everything pending on it. */
  lemma OldFrameDropsNewSocket()
    ensures var s := Play(START, [Connect(true), Close, Connect(true)] + [Request(true, false), Received(0, NotJson)]);
      s.issued == map[1 := 1] && s.socket == None && s.settled == [Settlement(1, ByFailure)]
  {
    ReconnectRun([Request(true, false), Received(0, NotJson)]);
    PlayTwo(AGAIN, Request(true, false), Received(0, NotJson));
    var sent := Step(AGAIN, Request(true, false));
    assert sent.pending == [1] && sent.settled == [];
    assert AllFailed([1]) == [Settlement(1, ByFailure)];
  }

  /**
   The ordinary reconnect: the close event of the old socket rejects the new ready promise, so that the new
   connect call, once its socket is open, fails and drops that socket, with no request ever sent.
   */
  lemma OldCloseEndsReconnect(open: bool, sendThrows: bool)
    ensures var s := Play(START, [Connect(true), Close, Connect(true)]
        + ([SocketClosed(0), SocketOpened(1)] + [Resumed(1, open, sendThrows), Resumed(1, open, sendThrows)]));
      s.socket == None && s.issued == map[] && 1 in s.hands && s.hands[1].at == Failed
  {
    var resumed := Resumed(1, open, sendThrows);
    ReconnectRun([SocketClosed(0), SocketOpened(1)] + [resumed, resumed]);
    PlayStep(AGAIN, SocketClosed(0), [SocketOpened(1)] + [resumed, resumed]);
    PlayStep(Step(AGAIN, SocketClosed(0)), SocketOpened(1), [resumed, resumed]);
    assert [SocketClosed(0), SocketOpened(1)] + [resumed, resumed]
        == [SocketClosed(0)] + ([SocketOpened(1)] + [resumed, resumed]);
    var opened1 := Step(Step(AGAIN, SocketClosed(0)), SocketOpened(1));
    assert opened1.hands[1] == Hand(Opening, Resolved, Rejected) && opened1.issued == map[];
    PlayTwo(opened1, resumed, resumed);
  }

  /** A connect call whose socket fails to open after close() was called still closes the successor's socket. */
  lemma OldErrorDropsNewSocket(open: bool, sendThrows: bool)
    ensures var s := Play(START, [Connect(true), Close, Connect(true)]
        + [SocketErrored(0), Resumed(0, open, sendThrows)]);
      s.socket == None && s.issued == map[] && 0 in s.hands && s.hands[0].at == Failed
  {
    var resumed := Resumed(0, open, sendThrows);
    ReconnectRun([SocketErrored(0), resumed]);
    PlayTwo(AGAIN, SocketErrored(0), resumed);
    assert Step(AGAIN, SocketErrored(0)).hands[0] == Hand(Opening, Rejected, Unsettled);
  }

  /** A client whose socket is open and that waits for `server.ready`. */
  const WAITING := State(Some(0), 1, [], Some(0), map[0 := Hand(Readying, Resolved, Unsettled)], 1, map[], [])

  lemma WaitingRun(rest: seq<Event>)
    ensures Play(START, [Connect(true), SocketOpened(0), Resumed(0, true, false)] + rest) == Play(WAITING, rest)
  {
    var begun := State(Some(0), 1, [], Some(0), map[0 := FRESH], 1, map[], []);
    var live := State(Some(0), 1, [], Some(0), map[0 := Hand(Opening, Resolved, Unsettled)], 1, map[], []);
    var went := Resumed(0, true, false);
    assert Step(START, Connect(true)) == begun;
    assert Step(begun, SocketOpened(0)) == live;
    assert Step(live, went) == WAITING;
    PlayStep(START, Connect(true), [SocketOpened(0), went] + rest);
    PlayStep(begun, SocketOpened(0), [went] + rest);
    PlayStep(live, went, rest);
    assert [Connect(true), SocketOpened(0), went] + rest == [Connect(true)] + ([SocketOpened(0), went] + rest);
    assert [SocketOpened(0), went] + rest == [SocketOpened(0)] + ([went] + rest);
  }

  /** Closed then, its connect call never returns. */
  lemma ConnectNeverReturns(later: seq<Event>)
    ensures AwaitsReady(
      Play(START, [Connect(true), SocketOpened(0), Resumed(0, true, false)] + ([Close] + later)), 0)
  {
    WaitingRun([Close] + later);
    PlayStep(WAITING, Close, later);
    CloseStrandsConnect(WAITING, 0, later);
  }

  // --------------------------------------------------------------- the class

  class ObsionAppServerClient {
    var socket: Option<nat>
    var nextId: nat
    var pending: seq<nat>
    var ready: Option<nat>
    ghost var hands: map<nat, Hand>
    ghost var connections: nat
    ghost var issued: map<nat, nat>
    ghost var settled: seq<Settlement>

    ghost function Abs(): State
      reads this
    {
      State(socket, nextId, pending, ready, hands, connections, issued, settled)
    }

    ghost predicate Valid()
      reads this
    {
      Inv(Abs())
    }

    constructor ()
      ensures Valid() && Abs() == START
    {
      socket, nextId, pending, ready := None, 1, [], None;
      hands, connections, issued, settled := map[], 0, map[], [];
    }

    /** `connect` up to its first await, as call number `call`; refused while the client holds a socket. */
    method Connect(call: nat, created: bool) returns (ok: bool)
      requires Valid() && call == connections
      modifies this
      ensures Valid() && Abs() == Step(old(Abs()), Event.Connect(created)) && ok == old(socket).None?
      ensures ok ==> ready == Some(call) && hands[call].at.Opening?
    {
      StepKeepsInv(Abs(), Event.Connect(created));
      if socket.Some? {
        return false;
      }
      ready := Some(call);
      hands := hands[call := Hand(Opening, if created then Unsettled else Rejected, Unsettled)];
      connections := connections + 1;
      if created {
        socket := Some(call);
      }
      return true;
    }

    /** `connect` after `await opened`, which ended in `outcome`. */
    method AfterOpened(call: nat, outcome: Promise)
      requires Valid() && call in hands && hands[call].at.Opening? && hands[call].socketOpen == outcome != Unsettled
      modifies this
      ensures Valid() && Abs() == Step(old(Abs()), Resumed(call, false, false))
    {
      ResumeKeepsInv(Abs(), call, false, false);
      if outcome.Resolved? {
        hands := hands[call := hands[call].(at := Readying)];
      } else {
        hands := hands[call := hands[call].(at := Failed)];
        Drop();
      }
    }

    /** `connect` after `await ready`, which ended in `outcome`: the initialize request, or the failure. */
    method AfterReady(call: nat, outcome: Promise, open: bool, sendThrows: bool)
      requires Valid() && call in hands && hands[call].at.Readying? && hands[call].serverReady == outcome != Unsettled
      modifies this
      ensures Valid() && Abs() == Step(old(Abs()), Resumed(call, open, sendThrows))
    {
      ResumeKeepsInv(Abs(), call, open, sendThrows);
      if outcome.Rejected? {
        hands := hands[call := hands[call].(at := Failed)];
        Drop();
        return;
      }
      var id := Send(open, sendThrows);
      hands := hands[call := hands[call].(at := if id.Some? then Initializing(id.value) else Failing)];
    }

    /** `connect` after its initialize request was settled, or was refused at once; `result` if it was answered. */
    method AfterInitialize(call: nat, result: bool)
      requires Valid() && call in hands
      requires var at := hands[call].at;
        at.Failing? || (at.Initializing? && at.id !in pending)
      requires result == (hands[call].at.Initializing? && Succeeded(settled, hands[call].at.id))
      modifies this
      ensures Valid() && Abs() == Step(old(Abs()), Resumed(call, false, false))
      ensures result <==> hands[call].at.Connected?
    {
      ResumeKeepsInv(Abs(), call, false, false);
      if result {
        hands := hands[call := hands[call].(at := Connected)];
      } else {
        hands := hands[call := hands[call].(at := Failed)];
        Drop();
      }
    }

    /** The body of `request`. */
    method Send(open: bool, sendThrows: bool) returns (id: Option<nat>)
      requires Books(Abs())
      modifies this`nextId, this`issued, this`pending, this`settled
      ensures Abs() == if old(socket).None? || !open then old(Abs()) else Issue(old(Abs()), sendThrows)
      ensures id == if old(socket).None? || !open || sendThrows then None else Some(old(nextId))
    {
      if socket.None? || !open {
        return None;
      }
      var number := nextId;
      nextId := nextId + 1;
      issued := issued[number := socket.value];
      pending := pending + [number];
      if sendThrows {
        pending := pending[..|pending| - 1];
        settled := settled + [Settlement(number, BySendError)];
        return None;
      }
      return Some(number);
    }

    /** The id under which the request is now pending, or None when its promise is rejected at once. */
    method Request(open: bool, sendThrows: bool) returns (id: Option<nat>)
      requires Valid()
      modifies this
      ensures Valid() && Abs() == Step(old(Abs()), Event.Request(open, sendThrows))
      ensures id.Some? ==> id.value == old(nextId) && id.value !in old(issued) && id.value in pending
      ensures id.None? ==> pending == old(pending)
    {
      StepKeepsInv(Abs(), Event.Request(open, sendThrows));
      id := Send(open, sendThrows);
    }

    method FailAll()
      modifies this`pending, this`settled
      ensures Abs() == FailPending(old(Abs())) && pending == []
    {
      settled := settled + AllFailed(pending);
      pending := [];
    }

    /** The body of `close`. */
    method Drop()
      modifies this`socket, this`ready, this`pending, this`settled
      ensures Abs() == Closed(old(Abs()))
    {
      socket, ready := None, None;
      FailAll();
    }

    method Close()
      requires Valid()
      modifies this
      ensures Valid() && Abs() == Step(old(Abs()), Event.Close)
    {
      StepKeepsInv(Abs(), Event.Close);
      Drop();
    }

    /** The callbacks of the ready promise are called, if they are held, and dropped. */
    method SettleCallbacks(outcome: Promise)
      requires ready.Some? ==> ready.value in hands
      modifies this`ready, this`hands
      ensures Abs() == SettleReady(old(Abs()), outcome) && ready.None?
    {
      if ready.Some? {
        hands := hands[ready.value := hands[ready.value].(serverReady := outcome)];
        ready := None;
      }
    }

    /** The `onclose` handler of any socket the client ever had. */
    method HandleClose(from: nat)
      requires Valid()
      modifies this
      ensures Valid() && Abs() == Step(old(Abs()), SocketClosed(from))
    {
      StepKeepsInv(Abs(), SocketClosed(from));
      SettleCallbacks(Rejected);
      FailAll();
    }

    method HandleMessage(from: nat, frame: Frame)
      requires Valid()
      modifies this
      ensures Valid() && Abs() == Step(old(Abs()), Received(from, frame))
    {
      StepKeepsInv(Abs(), Received(from, frame));
      match frame {
        case NotText => Drop();
        case NotJson => Drop();
        case Ready => SettleCallbacks(Resolved);
        case Notification =>
        case Response(id, error) =>
          if id.Some? && id.value in pending {
            pending := Without(pending, id.value);
            settled := settled + [Settlement(id.value, ByFrame(from, error))];
          }
      }
    }
  }
}
