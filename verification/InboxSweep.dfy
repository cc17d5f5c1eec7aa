/**
 The recovery sweep over the durable Inbox (inbox.py): a cursor that survives rounds walks, page by
 page, over a list of RECEIVED events that other actors grow and shrink meanwhile. Event UUIDs are
 their integer values, which is how both the client and the database order them.
 */
module InboxSweep {
  import opened Wrappers

  datatype Config = Config(limit: int, maxEvents: int, pollInterval: real)

  /** The arguments the worker accepts. */
  predicate ValidConfig(cfg: Config) {
    1 <= cfg.limit <= 20 && cfg.maxEvents >= 1 && cfg.pollInterval > 0.0
  }

  /** A poll either raises, or returns receipts that passed every check but order and length. */
  datatype PollReply = PollRaised | Listed(ids: seq<nat>)

  /** What the worker does that an observer could see. */
  datatype Item =
    | RoundBegan
    | Polled(limit: nat, after: Option<nat>, reply: PollReply)
    | Attempted(id: nat, ok: bool)
    | StopSeen

  datatype Phase = Resting | Polling | Working | Halted

  /** `page` is what is left of the current page; `short` that it came back shorter than asked for. */
  datatype State = State(after: Option<nat>, page: seq<nat>, short: bool, attempted: nat, phase: Phase)

  const START := State(None, [], false, 0, Resting)

  predicate Beyond(after: Option<nat>, id: nat) {
    after.None? || after.value < id
  }

  predicate Increasing(ids: seq<nat>) {
    forall i, j | 0 <= i < j < |ids| :: ids[i] < ids[j]
  }

  /** The page passes the length check of `pending` and the order check of the worker. */
  predicate Usable(limit: nat, after: Option<nat>, reply: PollReply) {
    && reply.Listed? && |reply.ids| <= limit && Increasing(reply.ids)
    && (reply.ids != [] ==> Beyond(after, reply.ids[0]))
  }

  function Min(a: int, b: int): int { if a <= b then a else b }

  /** Where the worker stands once the last event of a page has been attempted. */
  function PageDone(cfg: Config, last: nat, short: bool, attempted: nat): State {
    if short then State(None, [], false, attempted, Resting)
    else State(Some(last), [], false, attempted, if attempted < cfg.maxEvents then Polling else Resting)
  }

  /** The automaton of one worker: None when the item cannot come next. */
  function Step(cfg: Config, s: State, item: Item): Option<State> {
    match item
    case RoundBegan =>
      if s.phase.Resting? then Some(s.(attempted := 0, phase := Polling)) else None
    case Polled(limit, after, reply) =>
      if !s.phase.Polling? || after != s.after || s.attempted >= cfg.maxEvents
         || limit != Min(cfg.limit, cfg.maxEvents - s.attempted) then None
      else if !Usable(limit, after, reply) then Some(s.(phase := Resting))
      else if reply.ids == [] then Some(s.(after := None, phase := Resting))
      else Some(s.(page := reply.ids, short := |reply.ids| < limit, phase := Working))
    case Attempted(id, ok) =>
      if !s.phase.Working? || s.page == [] || s.page[0] != id then None
      else if |s.page| == 1 then Some(PageDone(cfg, id, s.short, s.attempted + 1))
      else Some(s.(after := Some(id), page := s.page[1..], attempted := s.attempted + 1))
    case StopSeen =>
      if s.phase.Halted? then None else Some(s.(phase := Halted))
  }

  function Replay(cfg: Config, s: State, trace: seq<Item>): Option<State> {
    if trace == [] then Some(s)
    else match Replay(cfg, s, trace[..|trace| - 1])
      case None => None
      case Some(s') => Step(cfg, s', trace[|trace| - 1])
  }

  function AttemptedIds(trace: seq<Item>): seq<nat> {
    if trace == [] then []
    else
      var last := trace[|trace| - 1];
      AttemptedIds(trace[..|trace| - 1]) + if last.Attempted? then [last.id] else []
  }

  function Polls(trace: seq<Item>): nat {
    if trace == [] then 0
    else Polls(trace[..|trace| - 1]) + if trace[|trace| - 1].Polled? then 1 else 0
  }

  function Rounds(trace: seq<Item>): nat {
    if trace == [] then 0
    else Rounds(trace[..|trace| - 1]) + if trace[|trace| - 1].RoundBegan? then 1 else 0
  }

  datatype WorkerResult = WorkerResult(processed: nat, failed: nat, pollsFailed: nat)

  function Count(r: WorkerResult, item: Item): WorkerResult {
    match item
    case Attempted(_, ok) => if ok then r.(processed := r.processed + 1) else r.(failed := r.failed + 1)
    case Polled(limit, after, reply) =>
      if Usable(limit, after, reply) then r else r.(pollsFailed := r.pollsFailed + 1)
    case _ => r
  }

  /** The counters the worker should hold after this trace. */
  function Tally(trace: seq<Item>): WorkerResult {
    if trace == [] then WorkerResult(0, 0, 0) else Count(Tally(trace[..|trace| - 1]), trace[|trace| - 1])
  }

  /** The k-th poll and the k-th process call of the trace were answered by polls(k) and acks(k). */
  predicate Answered(trace: seq<Item>, polls: nat -> PollReply, acks: nat -> bool) {
    trace == [] ||
    var before, last := trace[..|trace| - 1], trace[|trace| - 1];
    && Answered(before, polls, acks)
    && (last.Polled? ==> last.reply == polls(Polls(before)))
    && (last.Attempted? ==> last.ok == acks(|AttemptedIds(before)|))
  }

  /** The order check the worker makes over a page, as its loop does it. */
  method CheckOrder(after: Option<nat>, items: seq<nat>) returns (ok: bool)
    ensures ok <==> Increasing(items) && (items != [] ==> Beyond(after, items[0]))
  {
    var previous := after;
    for k := 0 to |items|
      invariant Increasing(items[..k])
      invariant previous == if k == 0 then after else Some(items[k - 1])
      invariant k > 0 ==> Beyond(after, items[0])
    {
      if previous.Some? && items[k] <= previous.value {
        return false;
      }
      previous := Some(items[k]);
    }
    assert items[..|items|] == items;
    return true;
  }

  /** The worker's record of what it did: the trace, its counters, and how many calls it has made. */
  datatype Log = Log(trace: seq<Item>, tally: WorkerResult, polls: nat, acks: nat)

  function Noted(log: Log, item: Item): Log {
    Log(log.trace + [item], Count(log.tally, item),
        if item.Polled? then log.polls + 1 else log.polls, if item.Attempted? then log.acks + 1 else log.acks)
  }

  ghost predicate Recorded(cfg: Config, log: Log, s: State, polls: nat -> PollReply, acks: nat -> bool) {
    && Replay(cfg, START, log.trace) == Some(s)
    && log.tally == Tally(log.trace)
    && log.polls == Polls(log.trace) && log.acks == |AttemptedIds(log.trace)|
    && Answered(log.trace, polls, acks)
  }

  lemma Note(cfg: Config, log: Log, s: State, polls: nat -> PollReply, acks: nat -> bool, item: Item)
    requires Recorded(cfg, log, s, polls, acks)
    requires Step(cfg, s, item).Some?
    requires item.Polled? ==> item.reply == polls(log.polls)
    requires item.Attempted? ==> item.ok == acks(log.acks)
    ensures Recorded(cfg, Noted(log, item), Step(cfg, s, item).value, polls, acks)
    ensures Rounds(Noted(log, item).trace) == Rounds(log.trace) + if item.RoundBegan? then 1 else 0
  {
    ReplaySnoc(cfg, START, log.trace, item);
    CountsSnoc(log.trace, item);
    AnsweredSnoc(log.trace, item, polls, acks);
  }

  lemma CountsSnoc(trace: seq<Item>, item: Item)
    ensures Tally(trace + [item]) == Count(Tally(trace), item)
    ensures Polls(trace + [item]) == Polls(trace) + if item.Polled? then 1 else 0
    ensures Rounds(trace + [item]) == Rounds(trace) + if item.RoundBegan? then 1 else 0
    ensures AttemptedIds(trace + [item]) == AttemptedIds(trace) + if item.Attempted? then [item.id] else []
  {
    assert (trace + [item])[..|trace|] == trace;
  }

  lemma AnsweredSnoc(trace: seq<Item>, item: Item, polls: nat -> PollReply, acks: nat -> bool)
    requires Answered(trace, polls, acks)
    requires item.Polled? ==> item.reply == polls(Polls(trace))
    requires item.Attempted? ==> item.ok == acks(|AttemptedIds(trace)|)
    ensures Answered(trace + [item], polls, acks)
  {
    assert (trace + [item])[..|trace|] == trace;
  }

  lemma ReplaySnoc(cfg: Config, s: State, trace: seq<Item>, item: Item)
    ensures var before := Replay(cfg, s, trace);
      Replay(cfg, s, trace + [item]) == if before.None? then None else Step(cfg, before.value, item)
  {
    assert (trace + [item])[..|trace|] == trace;
  }

  /** Where the worker stands after k attempts of a page it began in state s. */
  function PageState(cfg: Config, s: State, items: seq<nat>, k: nat): State
    requires k <= |items|
  {
    if k == 0 then s
    else if k < |items| then State(Some(items[k - 1]), items[k..], s.short, s.attempted + k, Working)
    else PageDone(cfg, items[k - 1], s.short, s.attempted + k)
  }

  lemma PageStateNext(cfg: Config, s: State, items: seq<nat>, k: nat, ok: bool)
    requires s.phase.Working? && s.page == items && k < |items|
    ensures Step(cfg, PageState(cfg, s, items, k), Attempted(items[k], ok)) == Some(PageState(cfg, s, items, k + 1))
  {
    assert items[k..][0] == items[k] && items[k..][1..] == items[k + 1..];
  }

  /** The loop over one page: every event is attempted, and the cursor follows it whether that failed or not. */
  method AttemptPage(cfg: Config, items: seq<nat>, stopAt: nat, checked: nat, attempted: nat,
                     ghost polls: nat -> PollReply, acks: nat -> bool, before: Log, ghost s: State)
    returns (log: Log, check: nat, done: nat, after: Option<nat>, halted: bool, ghost s': State)
    requires items != [] && s.phase.Working? && s.page == items && s.attempted == attempted
    requires Recorded(cfg, before, s, polls, acks) && checked <= stopAt
    ensures Recorded(cfg, log, s', polls, acks) && Rounds(log.trace) == Rounds(before.trace)
    ensures checked <= check <= stopAt && attempted <= done <= attempted + |items|
    ensures if halted then s'.phase.Halted?
            else && done == attempted + |items| && after == Some(items[|items| - 1])
                 && s' == PageDone(cfg, items[|items| - 1], s.short, done)
  {
    log, check, done, after, halted, s' := before, checked, attempted, None, false, s;
    for k := 0 to |items|
      invariant Recorded(cfg, log, s', polls, acks) && Rounds(log.trace) == Rounds(before.trace)
      invariant checked <= check <= stopAt && done == attempted + k && !halted
      invariant s' == PageState(cfg, s, items, k) && after == if k == 0 then None else Some(items[k - 1])
    {
      if check >= stopAt {
        PageStateNext(cfg, s, items, k, true);
        Note(cfg, log, s', polls, acks, StopSeen);
        log, s', halted := Noted(log, StopSeen), s'.(phase := Halted), true;
        return;
      }
      check, done := check + 1, done + 1;
      var attempt := Attempted(items[k], acks(log.acks));
      PageStateNext(cfg, s, items, k, attempt.ok);
      Note(cfg, log, s', polls, acks, attempt);
      log, s', after := Noted(log, attempt), PageState(cfg, s, items, k + 1), Some(items[k]);
    }
  }

  /** Where the worker stands before a poll, or once the round has ended. */
  function BetweenPages(cfg: Config, after: Option<nat>, attempted: nat, ended: bool): State {
    State(after, [], false, attempted, if attempted < cfg.maxEvents && !ended then Polling else Resting)
  }

  function AfterPoll(cfg: Config, after: Option<nat>, attempted: nat, reply: PollReply): State {
    var limit := Min(cfg.limit, cfg.maxEvents - attempted);
    if limit < 0 || !Usable(limit, after, reply) then BetweenPages(cfg, after, attempted, true)
    else if reply.ids == [] then BetweenPages(cfg, None, attempted, true)
    else State(after, reply.ids, |reply.ids| < limit, attempted, Working)
  }

  lemma PollOutcome(cfg: Config, after: Option<nat>, attempted: nat, reply: PollReply)
    requires ValidConfig(cfg) && attempted < cfg.maxEvents
    ensures var limit := Min(cfg.limit, cfg.maxEvents - attempted);
      limit >= 1 && Step(cfg, BetweenPages(cfg, after, attempted, false), Polled(limit, after, reply))
                    == Some(AfterPoll(cfg, after, attempted, reply))
  {
  }

  /** One round: pages until the budget is spent, the list ends, a poll fails, or the stop event is seen. */
  method RunRound(cfg: Config, stopAt: nat, checked: nat, cursor: Option<nat>,
                  polls: nat -> PollReply, acks: nat -> bool, before: Log, ghost s0: State)
    returns (log: Log, check: nat, after: Option<nat>, halted: bool, ghost s: State)
    requires ValidConfig(cfg) && checked <= stopAt
    requires Recorded(cfg, before, s0, polls, acks)
    requires s0.phase.Resting? && s0.page == [] && !s0.short && s0.after == cursor
    ensures Recorded(cfg, log, s, polls, acks) && Rounds(log.trace) == Rounds(before.trace) + 1
    ensures checked <= check <= stopAt
    ensures if halted then s.phase.Halted? else s.phase.Resting? && s.page == [] && !s.short && s.after == after
  {
    Note(cfg, before, s0, polls, acks, RoundBegan);
    log, s := Noted(before, RoundBegan), State(cursor, [], false, 0, Polling);
    check, after, halted := checked, cursor, false;
    var attempted, ended := 0, false;
    while attempted < cfg.maxEvents && !halted && !ended
      invariant Recorded(cfg, log, s, polls, acks) && Rounds(log.trace) == Rounds(before.trace) + 1
      invariant 0 <= attempted <= cfg.maxEvents && checked <= check <= stopAt
      invariant if halted then s.phase.Halted? else s == BetweenPages(cfg, after, attempted, ended)
      decreases cfg.maxEvents - attempted, !halted && !ended
    {
      if check >= stopAt {
        Note(cfg, log, s, polls, acks, StopSeen);
        log, s, halted := Noted(log, StopSeen), s.(phase := Halted), true;
        return;
      }
      check := check + 1;
      var batchLimit := Min(cfg.limit, cfg.maxEvents - attempted);
      var reply := polls(log.polls);
      var usable := reply.Listed? && |reply.ids| <= batchLimit;
      if usable {
        usable := CheckOrder(after, reply.ids);
      }
      var poll := Polled(batchLimit, after, reply);
      PollOutcome(cfg, after, attempted, reply);
      Note(cfg, log, s, polls, acks, poll);
      log, s := Noted(log, poll), AfterPoll(cfg, after, attempted, reply);
      if !usable {
        ended := true;
      } else if reply.ids == [] {
        after, ended := None, true;
      } else {
        var short := |reply.ids| < batchLimit;
        log, check, attempted, after, halted, s :=
          AttemptPage(cfg, reply.ids, stopAt, check, attempted, polls, acks, log, s);
        if short {
          after, ended := None, true;
        }
      }
    }
  }

  /**
   `run_inbox_worker`. The k-th poll is answered by polls(k), the k-th process call succeeds when
   acks(k), and the stop event is first seen set at check number stopAt. The worker's whole
   observable behaviour is a run of the automaton, its counters are the tally of that run, and it
   ends because it was stopped or, under `once`, after one round. None when an argument is refused.
   */
  method RunInboxWorker(cfg: Config, once: bool, stopAt: nat, polls: nat -> PollReply, acks: nat -> bool)
    returns (result: Option<WorkerResult>, trace: seq<Item>)
    ensures result.Some? <==> ValidConfig(cfg)
    ensures Replay(cfg, START, trace).Some? && Answered(trace, polls, acks)
    ensures result.Some? ==> result.value == Tally(trace)
    ensures result.None? ==> trace == []
    ensures result.Some? ==>
      var s := Replay(cfg, START, trace).value;
      s.phase.Halted? || (once && s.phase.Resting? && Rounds(trace) == 1)
  {
    if !ValidConfig(cfg) {
      return None, [];
    }
    var log := Log([], WorkerResult(0, 0, 0), 0, 0);
    var after: Option<nat> := None;
    var check := 0;
    ghost var s := START;
    while true
      invariant s.phase.Resting? && s.page == [] && !s.short && s.after == after
      invariant Recorded(cfg, log, s, polls, acks)
      invariant check <= stopAt && (once ==> Rounds(log.trace) == 0)
      decreases stopAt - check
    {
      if check >= stopAt {
        Note(cfg, log, s, polls, acks, StopSeen);
        log := Noted(log, StopSeen);
        return Some(log.tally), log.trace;
      }
      var halted;
      log, check, after, halted, s := RunRound(cfg, stopAt, check + 1, after, polls, acks, log, s);
      if halted || once {
        return Some(log.tally), log.trace;
      }
    }
  }

  // ---------------------------------------------------------- one full sweep

  /** The cursor is at the start and no page is open. */
  predicate AtReset(s: State) {
    s.after.None? && s.phase.Resting?
  }

  /** This item takes the cursor back to the start: an empty page, or the last event of a short one. */
  predicate Resets(s: State, item: Item) {
    match item
    case Polled(limit, after, reply) => s.phase.Polling? && Usable(limit, after, reply) && reply.ids == []
    case Attempted(_, _) => s.phase.Working? && |s.page| == 1 && s.short
    case _ => false
  }

  /** Some item of the trace reset the cursor. */
  predicate HasReset(cfg: Config, s: State, trace: seq<Item>) {
    trace != [] && Replay(cfg, s, trace[..|trace| - 1]).Some?
    && (HasReset(cfg, s, trace[..|trace| - 1])
        || Resets(Replay(cfg, s, trace[..|trace| - 1]).value, trace[|trace| - 1]))
  }

  /** From one reset of the cursor to the next. */
  predicate IsSweep(cfg: Config, s: State, trace: seq<Item>) {
    && AtReset(s) && Replay(cfg, s, trace).Some?
    && HasReset(cfg, s, trace) && !HasReset(cfg, s, trace[..|trace| - 1])
  }

  /** What the database returns: the first `limit` events of `received` above the cursor, in order. */
  ghost predicate IsPage(received: set<nat>, after: Option<nat>, limit: nat, ids: seq<nat>) {
    && |ids| <= limit && Increasing(ids)
    && (forall id | id in ids :: id in received && Beyond(after, id))
    && (forall id | id in received && Beyond(after, id) && id !in ids ::
          |ids| == limit && ids != [] && ids[|ids| - 1] < id)
  }

  /** Every list that was returned was the true page of what was RECEIVED at that moment. */
  ghost predicate Honest(trace: seq<Item>, received: nat -> set<nat>) {
    forall k | 0 <= k < |trace| && trace[k].Polled? && trace[k].reply.Listed? ::
      trace[k].limit >= 1 && IsPage(received(k), trace[k].after, trace[k].limit, trace[k].reply.ids)
  }

  /** The event stays RECEIVED at least until the sweep has attempted it. */
  ghost predicate Stays(trace: seq<Item>, received: nat -> set<nat>, id: nat) {
    forall k | 0 <= k < |trace| && trace[k].Polled? :: id in received(k) || id in AttemptedIds(trace[..k])
  }

  /** Before the first reset: where everything attempted, and everything still to come, must lie. */
  ghost predicate OrderedAt(s: State, ids: seq<nat>) {
    && Increasing(ids)
    && (!s.phase.Halted? ==>
          && s.after == (if ids == [] then None else Some(ids[|ids| - 1]))
          && (s.phase.Working? ==> s.page != [] && Increasing(s.page) && Beyond(s.after, s.page[0])))
  }

  lemma PrefixFacts(cfg: Config, s0: State, trace: seq<Item>)
    requires trace != [] && Replay(cfg, s0, trace).Some?
    ensures Replay(cfg, s0, trace[..|trace| - 1]).Some?
    ensures Step(cfg, Replay(cfg, s0, trace[..|trace| - 1]).value, trace[|trace| - 1]) == Replay(cfg, s0, trace)
  {
  }

  /** What an item does to the cursor: an attempt moves it, a reset clears it, nothing else touches it. */
  lemma CursorExactly(cfg: Config, s: State, item: Item)
    requires Step(cfg, s, item).Some?
    ensures Step(cfg, s, item).value.after
         == if Resets(s, item) then None else if item.Attempted? then Some(item.id) else s.after
  {
  }

  lemma PollKeepsOrder(cfg: Config, s: State, item: Item, ids: seq<nat>)
    requires OrderedAt(s, ids) && item.Polled? && Step(cfg, s, item).Some? && !Resets(s, item)
    ensures OrderedAt(Step(cfg, s, item).value, ids)
  {
    CursorExactly(cfg, s, item);
  }

  lemma AttemptKeepsOrder(cfg: Config, s: State, item: Item, ids: seq<nat>)
    requires OrderedAt(s, ids) && item.Attempted? && Step(cfg, s, item).Some? && !Resets(s, item)
    ensures OrderedAt(Step(cfg, s, item).value, ids + [item.id])
  {
    CursorExactly(cfg, s, item);
    IncreasingSnoc(ids, item.id);
    var t := Step(cfg, s, item).value;
    if t.phase.Working? {
      IncreasingTail(s.page);
      assert t.page[0] == s.page[1];
    }
  }

  lemma IncreasingSnoc(ids: seq<nat>, id: nat)
    requires Increasing(ids) && (ids != [] ==> ids[|ids| - 1] < id)
    ensures Increasing(ids + [id])
  {
    forall i, j | 0 <= i < j < |ids| + 1 ensures (ids + [id])[i] < (ids + [id])[j] {
      assert i < |ids| - 1 ==> ids[i] < ids[|ids| - 1];
    }
  }

  lemma IncreasingTail(ids: seq<nat>)
    requires Increasing(ids) && ids != []
    ensures Increasing(ids[1..])
  {
  }

  lemma IdleKeepsOrder(cfg: Config, s: State, item: Item, ids: seq<nat>)
    requires OrderedAt(s, ids) && (item.RoundBegan? || item.StopSeen?) && Step(cfg, s, item).Some?
    ensures OrderedAt(Step(cfg, s, item).value, ids)
  {
  }

  /** Whatever the server returns, the ids attempted within one sweep strictly increase. */
  lemma {:induction false} AttemptsIncrease(cfg: Config, s0: State, trace: seq<Item>)
    requires AtReset(s0) && Replay(cfg, s0, trace).Some? && !HasReset(cfg, s0, trace)
    ensures OrderedAt(Replay(cfg, s0, trace).value, AttemptedIds(trace))
  {
    if trace != [] {
      var before, last := trace[..|trace| - 1], trace[|trace| - 1];
      PrefixFacts(cfg, s0, trace);
      AttemptsIncrease(cfg, s0, before);
      NextAttempts(trace);
      var s := Replay(cfg, s0, before).value;
      match last
      case Polled(_, _, _) => PollKeepsOrder(cfg, s, last, AttemptedIds(before));
      case Attempted(_, _) => AttemptKeepsOrder(cfg, s, last, AttemptedIds(before));
      case _ => IdleKeepsOrder(cfg, s, last, AttemptedIds(before));
    }
  }

  lemma NextAttempts(trace: seq<Item>)
    requires trace != []
    ensures var before, last := trace[..|trace| - 1], trace[|trace| - 1];
      AttemptedIds(trace) == if last.Attempted? then AttemptedIds(before) + [last.id] else AttemptedIds(before)
  {
  }

  /** Before the first reset an event that stays is attempted if the cursor passed it, and still ahead if not. */
  ghost predicate AheadAt(s: State, ids: seq<nat>, id: nat) {
    !s.phase.Halted? ==>
      if Beyond(s.after, id)
      then s.phase.Working? ==> id in s.page || (!s.short && s.page != [] && s.page[|s.page| - 1] < id)
      else id in ids
  }

  lemma PollKeepsAhead(cfg: Config, s: State, item: Item, ids: seq<nat>, id: nat, received: set<nat>)
    requires AheadAt(s, ids, id) && item.Polled? && Step(cfg, s, item).Some? && !Resets(s, item)
    requires item.reply.Listed? ==> item.limit >= 1 && IsPage(received, item.after, item.limit, item.reply.ids)
    requires id in received || id in ids
    requires OrderedAt(s, ids)
    ensures AheadAt(Step(cfg, s, item).value, ids, id)
  {
    CursorExactly(cfg, s, item);
    if id in ids {
      var k :| 0 <= k < |ids| && ids[k] == id;
      assert ids[k] <= ids[|ids| - 1];
    }
  }

  lemma AttemptKeepsAhead(cfg: Config, s: State, item: Item, ids: seq<nat>, id: nat)
    requires AheadAt(s, ids, id) && OrderedAt(s, ids)
    requires item.Attempted? && Step(cfg, s, item).Some? && !Resets(s, item)
    ensures AheadAt(Step(cfg, s, item).value, ids + [item.id], id)
  {
    CursorExactly(cfg, s, item);
    if |s.page| > 1 {
      assert s.page == [s.page[0]] + s.page[1..];
      assert s.page[1..][|s.page| - 2] == s.page[|s.page| - 1];
    }
  }

  lemma {:induction false} StayingIsAhead(cfg: Config, s0: State, trace: seq<Item>, received: nat -> set<nat>, id: nat)
    requires AtReset(s0) && Replay(cfg, s0, trace).Some? && !HasReset(cfg, s0, trace)
    requires Honest(trace, received) && Stays(trace, received, id)
    ensures AheadAt(Replay(cfg, s0, trace).value, AttemptedIds(trace), id)
  {
    if trace != [] {
      var before, last := trace[..|trace| - 1], trace[|trace| - 1];
      PrefixFacts(cfg, s0, trace);
      HonestPrefix(trace, received);
      StaysPrefix(trace, received, id);
      AttemptsIncrease(cfg, s0, before);
      StayingIsAhead(cfg, s0, before, received, id);
      NextAttempts(trace);
      var s := Replay(cfg, s0, before).value;
      match last
      case Polled(_, _, _) => PollKeepsAhead(cfg, s, last, AttemptedIds(before), id, received(|trace| - 1));
      case Attempted(_, _) => AttemptKeepsAhead(cfg, s, last, AttemptedIds(before), id);
      case _ =>
    }
  }

  lemma HonestPrefix(trace: seq<Item>, received: nat -> set<nat>)
    requires trace != [] && Honest(trace, received)
    ensures Honest(trace[..|trace| - 1], received)
  {
  }

  lemma StaysPrefix(trace: seq<Item>, received: nat -> set<nat>, id: nat)
    requires trace != [] && Stays(trace, received, id)
    ensures Stays(trace[..|trace| - 1], received, id)
  {
    var shorter := trace[..|trace| - 1];
    forall k | 0 <= k < |shorter| && shorter[k].Polled? ensures id in received(k) || id in AttemptedIds(shorter[..k]) {
      assert shorter[..k] == trace[..k];
      assert trace[k].Polled?;
    }
  }

  lemma {:induction false} IncreasingCountsOnce(ids: seq<nat>, id: nat)
    requires Increasing(ids) && id in ids
    ensures multiset(ids)[id] == 1
  {
    var last := |ids| - 1;
    assert ids == ids[..last] + [ids[last]];
    if ids[last] == id {
      assert id !in ids[..last];
    } else {
      assert id in ids[..last];
      IncreasingCountsOnce(ids[..last], id);
    }
  }

  /**
   Sweep coverage: an event that stays RECEIVED from one reset of the cursor until it is attempted is
   attempted exactly once before the next reset, whichever other events succeed, fail, disappear or
   arrive in between, and however many failed polls and round boundaries the sweep spans.
   */
  lemma SweepCovers(cfg: Config, s: State, trace: seq<Item>, received: nat -> set<nat>, id: nat)
    requires IsSweep(cfg, s, trace)
    requires Honest(trace, received) && Stays(trace, received, id)
    ensures multiset(AttemptedIds(trace))[id] == 1
  {
    var k := |trace| - 1;
    var before := trace[..k];
    PrefixFacts(cfg, s, trace);
    HonestPrefix(trace, received);
    StaysPrefix(trace, received, id);
    AttemptsIncrease(cfg, s, before);
    StayingIsAhead(cfg, s, before, received, id);
    assert id in AttemptedIds(trace) by {
      if trace[k].Polled? {
        assert trace[k].reply.ids == [];
        assert id in received(k) || id in AttemptedIds(before);
      }
    }
    assert Increasing(AttemptedIds(trace));
    IncreasingCountsOnce(AttemptedIds(trace), id);
  }

  /** A run may be cut anywhere: what follows is a run from the state reached there. */
  lemma {:induction false} ReplaySplit(cfg: Config, s: State, first: seq<Item>, second: seq<Item>)
    requires Replay(cfg, s, first).Some?
    ensures Replay(cfg, s, first + second) == Replay(cfg, Replay(cfg, s, first).value, second)
  {
    if second == [] {
      assert first + second == first;
    } else {
      var front, last := second[..|second| - 1], second[|second| - 1];
      ReplaySplit(cfg, s, first, front);
      JoinSnoc(first, front, last);
      ReplaySnoc(cfg, s, first + front, last);
      ReplaySnoc(cfg, Replay(cfg, s, first).value, front, last);
      assert second == front + [last];
    }
  }

  lemma JoinSnoc(first: seq<Item>, front: seq<Item>, last: Item)
    ensures first + (front + [last]) == (first + front) + [last]
  {
  }

  lemma PrefixRuns(cfg: Config, s: State, trace: seq<Item>, n: nat)
    requires Replay(cfg, s, trace).Some? && n <= |trace|
    ensures Replay(cfg, s, trace[..n]).Some?
    decreases |trace|
  {
    if n == |trace| {
      assert trace[..n] == trace;
    } else {
      PrefixRuns(cfg, s, trace[..|trace| - 1], n);
      assert trace[..|trace| - 1][..n] == trace[..n];
    }
  }

  /** Where the worker stands before item k of its run. */
  function StateAt(cfg: Config, trace: seq<Item>, k: nat): State
    requires k <= |trace| && Replay(cfg, START, trace).Some?
  {
    PrefixRuns(cfg, START, trace, k);
    Replay(cfg, START, trace[..k]).value
  }

  /** Item k of the worker's run resets the cursor. */
  predicate ResetAt(cfg: Config, trace: seq<Item>, k: nat)
    requires k < |trace| && Replay(cfg, START, trace).Some?
  {
    Resets(StateAt(cfg, trace, k), trace[k])
  }

  /** Items i to j of the worker's run lead from one reset of the cursor to the next. */
  predicate SweepAt(cfg: Config, trace: seq<Item>, i: nat, j: nat) {
    && i < j <= |trace| && Replay(cfg, START, trace).Some?
    && AtReset(StateAt(cfg, trace, i)) && ResetAt(cfg, trace, j - 1)
    && forall k | i <= k < j - 1 :: !ResetAt(cfg, trace, k)
  }

  /** From item i on, the worker's run is a run from where it stands there. */
  lemma Resumes(cfg: Config, trace: seq<Item>, i: nat, k: nat)
    requires i <= k <= |trace| && Replay(cfg, START, trace).Some?
    ensures Replay(cfg, StateAt(cfg, trace, i), trace[i..k]) == Some(StateAt(cfg, trace, k))
  {
    Stands(cfg, trace, i);
    Stands(cfg, trace, k);
    SplitPrefix(trace, i, k);
    ReplaySplit(cfg, START, trace[..i], trace[i..k]);
  }

  lemma Stands(cfg: Config, trace: seq<Item>, k: nat)
    requires k <= |trace| && Replay(cfg, START, trace).Some?
    ensures Replay(cfg, START, trace[..k]) == Some(StateAt(cfg, trace, k))
  {
    PrefixRuns(cfg, START, trace, k);
  }

  lemma SplitPrefix(trace: seq<Item>, i: nat, k: nat)
    requires i <= k <= |trace|
    ensures trace[..i] + trace[i..k] == trace[..k]
  {
  }

  lemma SliceLast(trace: seq<Item>, i: nat, m: nat)
    requires i < m <= |trace|
    ensures trace[i..m] == trace[i..m - 1] + [trace[m - 1]] && trace[i..m][..|trace[i..m]| - 1] == trace[i..m - 1]
  {
  }

  lemma HasResetNext(cfg: Config, s: State, before: seq<Item>, item: Item)
    requires Replay(cfg, s, before).Some?
    ensures HasReset(cfg, s, before + [item]) <==>
      HasReset(cfg, s, before) || Resets(Replay(cfg, s, before).value, item)
  {
    assert (before + [item])[..|before|] == before;
  }

  lemma {:induction false} NoResetYet(cfg: Config, trace: seq<Item>, i: nat, m: nat)
    requires i <= m <= |trace| && Replay(cfg, START, trace).Some?
    requires forall k | i <= k < m :: !ResetAt(cfg, trace, k)
    ensures !HasReset(cfg, StateAt(cfg, trace, i), trace[i..m])
    decreases m
  {
    if i == m {
      assert trace[i..m] == [];
    } else {
      NoResetYet(cfg, trace, i, m - 1);
      Resumes(cfg, trace, i, m - 1);
      SliceLast(trace, i, m);
      assert !ResetAt(cfg, trace, m - 1);
      HasResetNext(cfg, StateAt(cfg, trace, i), trace[i..m - 1], trace[m - 1]);
    }
  }

  lemma SweepAtIsSweep(cfg: Config, trace: seq<Item>, i: nat, j: nat)
    requires SweepAt(cfg, trace, i, j)
    ensures IsSweep(cfg, StateAt(cfg, trace, i), trace[i..j])
  {
    NoResetYet(cfg, trace, i, j - 1);
    SweepSlice(cfg, trace, i, j);
  }

  lemma SweepSlice(cfg: Config, trace: seq<Item>, i: nat, j: nat)
    requires i < j <= |trace| && Replay(cfg, START, trace).Some?
    requires AtReset(StateAt(cfg, trace, i)) && ResetAt(cfg, trace, j - 1)
    requires !HasReset(cfg, StateAt(cfg, trace, i), trace[i..j - 1])
    ensures IsSweep(cfg, StateAt(cfg, trace, i), trace[i..j])
  {
    Resumes(cfg, trace, i, j - 1);
    Resumes(cfg, trace, i, j);
    SliceLast(trace, i, j);
    SweepEnds(cfg, StateAt(cfg, trace, i), trace[i..j - 1], trace[j - 1]);
  }

  lemma SweepEnds(cfg: Config, s: State, before: seq<Item>, item: Item)
    requires AtReset(s) && Replay(cfg, s, before).Some? && !HasReset(cfg, s, before)
    requires Replay(cfg, s, before + [item]).Some? && Resets(Replay(cfg, s, before).value, item)
    ensures IsSweep(cfg, s, before + [item])
  {
    HasResetNext(cfg, s, before, item);
    assert (before + [item])[..|before|] == before;
  }

  /** The coverage theorem inside the worker's own run, wherever in its rounds the sweep lies. */
  lemma SweepCoversInRun(cfg: Config, trace: seq<Item>, i: nat, j: nat, received: nat -> set<nat>, id: nat)
    requires SweepAt(cfg, trace, i, j)
    requires Honest(trace[i..j], received) && Stays(trace[i..j], received, id)
    ensures multiset(AttemptedIds(trace[i..j]))[id] == 1
  {
    var s := StateAt(cfg, trace, i);
    var sweep := trace[i..j];
    SweepAtIsSweep(cfg, trace, i, j);
    SweepCovers(cfg, s, sweep, received, id);
  }

  // ------------------------------------------------------------ round bounds

  /** The attempts made since the current round began. */
  function RoundAttempts(trace: seq<Item>): nat {
    if trace == [] then 0
    else match trace[|trace| - 1]
      case RoundBegan => 0
      case Attempted(_, _) => RoundAttempts(trace[..|trace| - 1]) + 1
      case _ => RoundAttempts(trace[..|trace| - 1])
  }

  /** The counter of the loop counts the attempts of the current round. */
  lemma {:induction false} RoundCounted(cfg: Config, s0: State, trace: seq<Item>)
    requires ValidConfig(cfg) && s0.phase.Resting? && Replay(cfg, s0, trace).Some?
    ensures WithinBudget(cfg, Replay(cfg, s0, trace).value)
    ensures var s := Replay(cfg, s0, trace).value;
      if Rounds(trace) == 0 then RoundAttempts(trace) == 0 && (s.phase.Resting? || s.phase.Halted?)
      else RoundAttempts(trace) == s.attempted <= cfg.maxEvents
  {
    if trace != [] {
      PrefixFacts(cfg, s0, trace);
      RoundCounted(cfg, s0, trace[..|trace| - 1]);
    }
  }

  /** At every moment of every run, hence in every round, at most max_events were attempted in the round. */
  lemma EachRoundWithinBudget(cfg: Config, s0: State, trace: seq<Item>, n: nat)
    requires ValidConfig(cfg) && s0.phase.Resting? && Replay(cfg, s0, trace).Some? && n <= |trace|
    ensures RoundAttempts(trace[..n]) <= cfg.maxEvents
  {
    PrefixRuns(cfg, s0, trace, n);
    RoundCounted(cfg, s0, trace[..n]);
  }

  /** The current round never exceeds its budget. */
  predicate WithinBudget(cfg: Config, s: State) {
    match s.phase
    case Polling => s.attempted < cfg.maxEvents
    case Working => s.page != [] && s.attempted + |s.page| <= cfg.maxEvents
    case _ => true
  }

  /** Every attempt is counted as processed or as failed. */
  lemma {:induction false} AttemptsCounted(trace: seq<Item>)
    ensures Tally(trace).processed + Tally(trace).failed == |AttemptedIds(trace)|
  {
    if trace != [] {
      AttemptsCounted(trace[..|trace| - 1]);
    }
  }

  /** The rounds before the current one spent at most their budgets. */
  predicate EarlierBounded(budget: nat, rounds: nat, attempts: nat, inRound: nat) {
    if rounds == 0 then attempts == 0 else attempts <= budget * (rounds - 1) + inRound
  }

  lemma RoundSpent(budget: nat, rounds: nat, attempts: nat, inRound: nat)
    requires EarlierBounded(budget, rounds, attempts, inRound) && inRound <= budget
    ensures attempts <= budget * rounds && EarlierBounded(budget, rounds + 1, attempts, 0)
  {
    if rounds > 0 {
      OneMoreBudget(budget, rounds);
    }
  }

  lemma AttemptSpent(budget: nat, rounds: nat, attempts: nat, inRound: nat)
    requires EarlierBounded(budget, rounds, attempts, inRound) && rounds > 0
    ensures EarlierBounded(budget, rounds, attempts + 1, inRound + 1)
  {
  }

  lemma NextCounts(trace: seq<Item>)
    requires trace != []
    ensures var before, last := trace[..|trace| - 1], trace[|trace| - 1];
      && Rounds(trace) == Rounds(before) + (if last.RoundBegan? then 1 else 0)
      && |AttemptedIds(trace)| == |AttemptedIds(before)| + (if last.Attempted? then 1 else 0)
      && RoundAttempts(trace) == if last.RoundBegan? then 0
                                 else if last.Attempted? then RoundAttempts(before) + 1 else RoundAttempts(before)
  {
  }

  lemma {:induction false} EarlierRoundsBounded(cfg: Config, s0: State, trace: seq<Item>)
    requires ValidConfig(cfg) && s0.phase.Resting? && Replay(cfg, s0, trace).Some?
    ensures EarlierBounded(cfg.maxEvents, Rounds(trace), |AttemptedIds(trace)|, RoundAttempts(trace))
  {
    if trace != [] {
      var before, last := trace[..|trace| - 1], trace[|trace| - 1];
      PrefixFacts(cfg, s0, trace);
      RoundCounted(cfg, s0, before);
      EarlierRoundsBounded(cfg, s0, before);
      NextCounts(trace);
      if last.RoundBegan? {
        RoundSpent(cfg.maxEvents, Rounds(before), |AttemptedIds(before)|, RoundAttempts(before));
      } else if last.Attempted? {
        AttemptSpent(cfg.maxEvents, Rounds(before), |AttemptedIds(before)|, RoundAttempts(before));
      }
    }
  }

  lemma OneMoreBudget(budget: nat, rounds: nat)
    requires rounds >= 1
    ensures budget * rounds == budget * (rounds - 1) + budget
  {
  }

  /** Each round attempts at most max_events, and every attempt is counted as processed or as failed. */
  lemma AttemptsBounded(cfg: Config, s0: State, trace: seq<Item>)
    requires ValidConfig(cfg) && s0.phase.Resting? && Replay(cfg, s0, trace).Some?
    ensures WithinBudget(cfg, Replay(cfg, s0, trace).value)
    ensures Tally(trace).processed + Tally(trace).failed == |AttemptedIds(trace)| <= cfg.maxEvents * Rounds(trace)
    ensures var s := Replay(cfg, s0, trace).value; s.phase.Polling? || s.phase.Working? ==>
      Rounds(trace) >= 1 && |AttemptedIds(trace)| <= cfg.maxEvents * (Rounds(trace) - 1) + s.attempted
  {
    AttemptsCounted(trace);
    RoundCounted(cfg, s0, trace);
    EarlierRoundsBounded(cfg, s0, trace);
    RoundSpent(cfg.maxEvents, Rounds(trace), |AttemptedIds(trace)|, RoundAttempts(trace));
  }

  /** Nothing arrives, every poll is answered, and the worker is not stopped. */
  ghost predicate Calm(cfg: Config, s0: State, trace: seq<Item>, received: nat -> set<nat>, events: set<nat>) {
    && Replay(cfg, s0, trace).Some? && !Replay(cfg, s0, trace).value.phase.Halted?
    && Honest(trace, received)
    && (forall k | 0 <= k < |trace| && trace[k].Polled? ::
          Usable(trace[k].limit, trace[k].after, trace[k].reply) && received(k) <= events)
  }

  lemma CalmPrefix(cfg: Config, s0: State, trace: seq<Item>, received: nat -> set<nat>, events: set<nat>)
    requires Calm(cfg, s0, trace, received, events) && trace != []
    ensures Calm(cfg, s0, trace[..|trace| - 1], received, events)
  {
    PrefixFacts(cfg, s0, trace);
    HonestPrefix(trace, received);
    var before := trace[..|trace| - 1];
    forall k | 0 <= k < |before| && before[k].Polled?
      ensures Usable(before[k].limit, before[k].after, before[k].reply) && received(k) <= events
    {
      assert trace[k].Polled?;
    }
  }

  /** As many events were attempted as the rounds so far had room for. */
  predicate OnPace(cfg: Config, s: State, attempts: nat, rounds: nat) {
    attempts == cfg.maxEvents * rounds - if s.phase.Resting? then 0 else cfg.maxEvents - s.attempted
  }

  lemma StepKeepsPace(cfg: Config, s: State, item: Item, attempts: nat, rounds: nat)
    requires ValidConfig(cfg) && WithinBudget(cfg, s) && OnPace(cfg, s, attempts, rounds)
    requires Step(cfg, s, item).Some? && !Step(cfg, s, item).value.phase.Halted? && !Resets(s, item)
    requires item.Polled? ==> Usable(item.limit, item.after, item.reply)
    ensures OnPace(cfg, Step(cfg, s, item).value,
                   if item.Attempted? then attempts + 1 else attempts, if item.RoundBegan? then rounds + 1 else rounds)
  {
    assert cfg.maxEvents * (rounds + 1) == cfg.maxEvents * rounds + cfg.maxEvents;
  }

  /** In a calm run, until the first reset, every completed round attempts exactly max_events events. */
  lemma {:induction false} CalmPace(cfg: Config, s0: State, trace: seq<Item>,
                                    received: nat -> set<nat>, events: set<nat>)
    requires ValidConfig(cfg) && AtReset(s0) && Calm(cfg, s0, trace, received, events) && !HasReset(cfg, s0, trace)
    ensures OnPace(cfg, Replay(cfg, s0, trace).value, |AttemptedIds(trace)|, Rounds(trace))
  {
    if trace != [] {
      var k := |trace| - 1;
      PrefixFacts(cfg, s0, trace);
      CalmPrefix(cfg, s0, trace, received, events);
      CalmPace(cfg, s0, trace[..k], received, events);
      RoundCounted(cfg, s0, trace[..k]);
      NextAttempts(trace);
      StepKeepsPace(cfg, Replay(cfg, s0, trace[..k]).value, trace[k], |AttemptedIds(trace[..k])|, Rounds(trace[..k]));
    }
  }

  /** Nothing outside the pending events is ever attempted. */
  lemma {:induction false} CalmWithin(cfg: Config, s0: State, trace: seq<Item>,
                                      received: nat -> set<nat>, events: set<nat>)
    requires AtReset(s0) && Calm(cfg, s0, trace, received, events)
    ensures forall id | id in AttemptedIds(trace) :: id in events
    ensures var s := Replay(cfg, s0, trace).value; s.phase.Working? ==> forall id | id in s.page :: id in events
  {
    if trace != [] {
      PrefixFacts(cfg, s0, trace);
      CalmPrefix(cfg, s0, trace, received, events);
      CalmWithin(cfg, s0, trace[..|trace| - 1], received, events);
    }
  }

  /** After any reset, every event that stayed until its attempt has been attempted. */
  lemma {:induction false} ResetCovers(cfg: Config, s0: State, trace: seq<Item>, received: nat -> set<nat>, id: nat)
    requires AtReset(s0) && Replay(cfg, s0, trace).Some? && HasReset(cfg, s0, trace)
    requires Honest(trace, received) && Stays(trace, received, id)
    ensures id in AttemptedIds(trace)
  {
    if HasReset(cfg, s0, trace[..|trace| - 1]) {
      HonestPrefix(trace, received);
      StaysPrefix(trace, received, id);
      ResetCovers(cfg, s0, trace[..|trace| - 1], received, id);
    } else {
      SweepCovers(cfg, s0, trace, received, id);
    }
  }

  function Elements(ids: seq<nat>): set<nat> {
    set id | id in ids
  }

  lemma {:induction false} IncreasingSize(ids: seq<nat>)
    requires Increasing(ids)
    ensures |Elements(ids)| == |ids|
  {
    if ids != [] {
      var front, last := ids[..|ids| - 1], ids[|ids| - 1];
      IncreasingSize(front);
      assert ids == front + [last];
      assert last !in Elements(front);
      assert Elements(ids) == Elements(front) + {last};
    }
  }

  lemma SameSize(a: set<nat>, b: set<nat>)
    requires a <= b && |a| >= |b|
    ensures a == b
  {
    assert |b - a| == |b| - |a|;
  }

  /**
   Round bound: starting at a reset with these events pending, no arrivals and no failed polls, once
   the completed rounds offer room for all of them (rounds * max_events >= N, that is, after
   ceil(N / max_events) rounds) every one has been attempted, even if every process call failed.
   */
  lemma RoundBound(cfg: Config, s0: State, trace: seq<Item>, received: nat -> set<nat>, events: set<nat>, id: nat)
    requires ValidConfig(cfg) && AtReset(s0) && Calm(cfg, s0, trace, received, events)
    requires Replay(cfg, s0, trace).value.phase.Resting? && cfg.maxEvents * Rounds(trace) >= |events|
    requires id in events && Stays(trace, received, id)
    ensures id in AttemptedIds(trace)
  {
    if HasReset(cfg, s0, trace) {
      ResetCovers(cfg, s0, trace, received, id);
    } else {
      CalmPace(cfg, s0, trace, received, events);
      CalmWithin(cfg, s0, trace, received, events);
      AttemptsIncrease(cfg, s0, trace);
      IncreasingSize(AttemptedIds(trace));
      SameSize(Elements(AttemptedIds(trace)), events);
    }
  }
}
