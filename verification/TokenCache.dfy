/**
 The access token cache of the three vendor clients (`_tenant_access_token` of feishu.py,
 `_access_token_value` of dingtalk.py and wecom.py): a check, a lock, the same check again, then one
 authentication. The code between two awaits is one step, and any number of callers interleave there.
 */
module TokenCache {
  import opened Wrappers
  import opened Json

  const SAFETY_MARGIN := 60

  datatype How = FromCache(at: real, until: real) | Fetched

  /** Where one caller stands. */
  datatype Call = Waiting | Fetching | Returned(token: string, how: How) | Failed

  /** History: authentications begun, tokens stored with the vendor's time of issue, and closes. */
  datatype Entry =
    | Began(caller: nat, at: real)
    | Stored(caller: nat, at: real, token: string, expire: int, issuedAt: real)
    | Closed

  datatype Event =
    | Tick(elapsed: real)
    | Enter(id: nat)                                              // the first check
    | Acquire(id: nat)                                            // the lock is granted: the second check
    | Granted(id: nat, token: Json, expire: Json, issuedAt: real) // a reply that passed `_require_success`
    | Refused(id: nat)                                            // any other end, a cancellation included
    | Aclose

  datatype State = State(
    now: real, token: Option<string>, expiresAt: real, holder: Option<nat>,
    calls: map<nat, Call>, log: seq<Entry>)

  const START := State(0.0, None, 0.0, None, map[], [])

  /** `token and clock() < expires_at`, and the token. */
  function Lookup(token: Option<string>, expiresAt: real, now: real): Option<string> {
    if token.Some? && token.value != "" && now < expiresAt then token else None
  }

  /** `max(1, expire - 60)`. */
  function Lifetime(expire: int): real {
    if expire - SAFETY_MARGIN > 1 then (expire - SAFETY_MARGIN) as real else 1.0
  }

  function Until(e: Entry): real
    requires e.Stored?
  {
    e.at + Lifetime(e.expire)
  }

  /** `isinstance(expire, int)`: JSON true counts as 1. */
  function AsExpiry(j: Json): Option<int> {
    match j
    case Int(n) => if n > 0 then Some(n) else None
    case Bool(b) => if b then Some(1) else None
    case _ => None
  }

  predicate Usable(token: Json, expire: Json) {
    token.Str? && token.s != "" && AsExpiry(expire).Some?
  }

  function Hit(s: State, id: nat, token: string): State {
    s.(calls := s.calls[id := Returned(token, FromCache(s.now, s.expiresAt))])
  }

  function Step(s: State, e: Event): State {
    match e
    case Tick(elapsed) => if elapsed < 0.0 then s else s.(now := s.now + elapsed)
    case Enter(id) =>
      if id in s.calls then s
      else
        var found := Lookup(s.token, s.expiresAt, s.now);
        if found.Some? then Hit(s, id, found.value) else s.(calls := s.calls[id := Waiting])
    case Acquire(id) =>
      if s.holder.Some? || id !in s.calls || !s.calls[id].Waiting? then s
      else
        var found := Lookup(s.token, s.expiresAt, s.now);
        if found.Some? then Hit(s, id, found.value)
        else s.(calls := s.calls[id := Fetching], holder := Some(id), log := s.log + [Began(id, s.now)])
    case Granted(id, token, expire, issuedAt) =>
      if s.holder != Some(id) then s
      else if !Usable(token, expire) then s.(calls := s.calls[id := Failed], holder := None)
      else
        var seconds := AsExpiry(expire).value;
        State(s.now, Some(token.s), s.now + Lifetime(seconds), None,
              s.calls[id := Returned(token.s, Fetched)],
              s.log + [Stored(id, s.now, token.s, seconds, issuedAt)])
    case Refused(id) =>
      if id !in s.calls || s.calls[id].Returned? then s
      else s.(calls := s.calls[id := Failed], holder := if s.holder == Some(id) then None else s.holder)
    case Aclose => s.(token := None, expiresAt := 0.0, log := s.log + [Closed])
  }

  function Play(s: State, events: seq<Event>): State
    decreases |events|
  {
    if events == [] then s else Play(Step(s, events[0]), events[1..])
  }

  // -------------------------------------------------------------- invariant

  predicate NoClose(log: seq<Entry>, from: nat, to: nat) {
    forall k | from < k < to && k < |log| :: !log[k].Closed?
  }

  /** A token stored and not closed away is no newer than the cache: it expires no later. */
  ghost predicate Covered(s: State) {
    forall i | 0 <= i < |s.log| && s.log[i].Stored? && NoClose(s.log, i, |s.log|) ::
      s.token.Some? && s.token.value != "" && Until(s.log[i]) <= s.expiresAt
  }

  /** The cached token is the last one stored. */
  ghost predicate Backed(s: State) {
    s.token.Some? ==> exists i: nat ::
      && i < |s.log| && s.log[i].Stored?
      && s.token.value == s.log[i].token && s.expiresAt == Until(s.log[i])
  }

  /** No authentication begins while a token stored earlier, and not closed away, is still unexpired. */
  ghost predicate Spaced(log: seq<Entry>) {
    forall i, j | 0 <= i < j < |log| && log[i].Stored? && log[j].Began? && NoClose(log, i, j) ::
      Until(log[i]) <= log[j].at
  }

  /** At most one caller is authenticating: the one that holds the lock. */
  ghost predicate SingleFlight(s: State) {
    && (s.holder.Some? ==> s.holder.value in s.calls)
    && (forall id | id in s.calls :: s.calls[id].Fetching? <==> s.holder == Some(id))
  }

  /** Entries j and i are one authentication of this caller: nobody began or stored anything in between. */
  predicate OwnFetch(log: seq<Entry>, j: nat, i: nat, id: nat) {
    && j < i < |log|
    && log[j].Began? && log[j].caller == id && log[i].Stored? && log[i].caller == id
    && forall k | j < k < i :: log[k].Closed?
  }

  predicate ReadFromCache(log: seq<Entry>, i: nat, token: string, at: real, until: real) {
    i < |log| && log[i].Stored? && log[i].token == token && log[i].at <= at < until == Until(log[i])
  }

  /** What a caller got: a token unexpired when it was read from the cache, or the one it just fetched itself. */
  ghost predicate Served(log: seq<Entry>, id: nat, c: Call) {
    c.Returned? ==>
      match c.how
      case FromCache(at, until) => exists i: nat :: ReadFromCache(log, i, c.token, at, until)
      case Fetched => exists j: nat, i: nat :: OwnFetch(log, j, i, id) && log[i].token == c.token
  }

  /** The authentication under way is the last one begun, and nothing was stored since. */
  ghost predicate UnderWay(s: State) {
    s.holder.Some? ==> exists j: nat :: LastBegan(s.log, j, s.holder.value)
  }

  predicate LastBegan(log: seq<Entry>, j: nat, id: nat) {
    j < |log| && log[j].Began? && log[j].caller == id && forall k | j < k < |log| :: log[k].Closed?
  }

  ghost predicate Inv(s: State) {
    && SingleFlight(s) && UnderWay(s)
    && (s.holder.Some? ==> Lookup(s.token, s.expiresAt, s.now) == None)
    && (forall i | 0 <= i < |s.log| && s.log[i].Stored? :: s.log[i].at <= s.now && s.log[i].token != "")
    && Covered(s) && Backed(s) && Spaced(s.log)
    && (forall id | id in s.calls :: Served(s.log, id, s.calls[id]))
  }

  lemma ServedLater(log: seq<Entry>, x: Entry, id: nat, c: Call)
    requires Served(log, id, c)
    ensures Served(log + [x], id, c)
  {
    if c.Returned? {
      match c.how
      case FromCache(at, until) =>
        var i: nat :| ReadFromCache(log, i, c.token, at, until);
        assert ReadFromCache(log + [x], i, c.token, at, until);
      case Fetched =>
        var j: nat, i: nat :| OwnFetch(log, j, i, id) && log[i].token == c.token;
        assert OwnFetch(log + [x], j, i, id) && (log + [x])[i].token == c.token;
    }
  }

  /** Appending anything but an early Began keeps the spacing. */
  lemma SpacedLater(log: seq<Entry>, x: Entry)
    requires Spaced(log)
    requires x.Began? ==> forall i | 0 <= i < |log| && log[i].Stored? && NoClose(log, i, |log|) :: Until(log[i]) <= x.at
    ensures Spaced(log + [x])
  {
    var longer := log + [x];
    forall i, j | 0 <= i < j < |longer| && longer[i].Stored? && longer[j].Began? && NoClose(longer, i, j)
      ensures Until(longer[i]) <= longer[j].at
    {
      assert forall k | i < k < j :: longer[k] == log[k];
      assert NoClose(log, i, j);
    }
  }

  lemma HitKeepsInv(s: State, id: nat)
    requires Inv(s) && Lookup(s.token, s.expiresAt, s.now).Some?
    requires id in s.calls ==> s.calls[id].Waiting?
    ensures Inv(Hit(s, id, s.token.value))
  {
    var i: nat :| i < |s.log| && s.log[i].Stored? && s.token.value == s.log[i].token && s.expiresAt == Until(s.log[i]);
    assert ReadFromCache(s.log, i, s.token.value, s.now, s.expiresAt);
  }

  lemma AcquireKeepsInv(s: State, id: nat)
    requires Inv(s)
    ensures Inv(Step(s, Acquire(id)))
  {
    var t := Step(s, Acquire(id));
    if s.holder.None? && id in s.calls && s.calls[id].Waiting? {
      if Lookup(s.token, s.expiresAt, s.now).Some? {
        HitKeepsInv(s, id);
      } else {
        SpacedLater(s.log, Began(id, s.now));
        LogGrows(s, t, Began(id, s.now));
        assert LastBegan(t.log, |s.log|, id);
      }
    }
  }

  /** What the log's new entry leaves true of everything that was in the log. */
  lemma LogGrows(s: State, t: State, x: Entry)
    requires Inv(s) && t.log == s.log + [x] && !x.Stored?
    requires x.Closed? || (t.token == s.token && t.expiresAt == s.expiresAt)
    requires x.Closed? ==> t.token == None
    ensures Covered(t) && Backed(t)
    ensures forall id | id in s.calls :: Served(t.log, id, s.calls[id])
  {
    forall i | 0 <= i < |t.log| && t.log[i].Stored? && NoClose(t.log, i, |t.log|)
      ensures t.token.Some? && t.token.value != "" && Until(t.log[i]) <= t.expiresAt
    {
      assert !t.log[|s.log|].Closed?;
      assert forall k | i < k < |s.log| :: t.log[k] == s.log[k];
      assert NoClose(s.log, i, |s.log|);
    }
    if t.token.Some? {
      var i :| && 0 <= i < |s.log| && s.log[i].Stored?
               && s.token.value == s.log[i].token && s.expiresAt == Until(s.log[i]);
      assert t.log[i] == s.log[i];
    }
    forall id | id in s.calls ensures Served(t.log, id, s.calls[id]) {
      ServedLater(s.log, x, id, s.calls[id]);
    }
  }

  lemma StoreKeepsInv(s: State, id: nat, token: Json, expire: Json, issuedAt: real)
    requires Inv(s) && s.holder == Some(id) && Usable(token, expire)
    ensures Inv(Step(s, Granted(id, token, expire, issuedAt)))
  {
    var t := Step(s, Granted(id, token, expire, issuedAt));
    var x := Stored(id, s.now, token.s, AsExpiry(expire).value, issuedAt);
    SpacedLater(s.log, x);
    assert t.log[|s.log|] == x;
    forall i | 0 <= i < |s.log| && s.log[i].Stored? && NoClose(t.log, i, |t.log|)
      ensures Until(s.log[i]) <= t.expiresAt
    {
      assert forall k | i < k < |s.log| :: t.log[k] == s.log[k];
      assert NoClose(s.log, i, |s.log|);
    }
    var j: nat :| LastBegan(s.log, j, id);
    assert OwnFetch(t.log, j, |s.log|, id);
    forall other | other in t.calls ensures Served(t.log, other, t.calls[other]) {
      if other != id {
        ServedLater(s.log, x, other, s.calls[other]);
      }
    }
  }

  lemma StepKeepsInv(s: State, e: Event)
    requires Inv(s)
    ensures Inv(Step(s, e))
  {
    match e
    case Enter(id) =>
      if id !in s.calls && Lookup(s.token, s.expiresAt, s.now).Some? {
        HitKeepsInv(s, id);
      }
    case Acquire(id) => AcquireKeepsInv(s, id);
    case Granted(id, token, expire, issuedAt) =>
      if s.holder == Some(id) && Usable(token, expire) {
        StoreKeepsInv(s, id, token, expire, issuedAt);
      }
    case Aclose =>
      SpacedLater(s.log, Closed);
      LogGrows(s, Step(s, e), Closed);
      if s.holder.Some? {
        var j: nat :| LastBegan(s.log, j, s.holder.value);
        assert LastBegan(s.log + [Closed], j, s.holder.value);
      }
    case _ =>
  }

  lemma {:induction false} RunKeepsInv(s: State, events: seq<Event>)
    requires Inv(s)
    ensures Inv(Play(s, events))
    decreases |events|
  {
    if events != [] {
      StepKeepsInv(s, events[0]);
      RunKeepsInv(Step(s, events[0]), events[1..]);
    }
  }

  /**
   Over every run and every interleaving: one authentication at a time, none while a stored token is
   unexpired and not closed away, and every caller is served a token unexpired at its check or the one it
   just fetched itself.
   */
  lemma EveryRunIsSingleFlight(events: seq<Event>, a: nat, b: nat)
    ensures var s := Play(START, events);
      && Spaced(s.log)
      && (forall id | id in s.calls :: Served(s.log, id, s.calls[id]))
      && (a in s.calls && b in s.calls && s.calls[a].Fetching? && s.calls[b].Fetching? ==> a == b)
  {
    RunKeepsInv(START, events);
  }

  lemma StepKeepsResult(s: State, e: Event, id: nat)
    requires SingleFlight(s) && id in s.calls && s.calls[id].Returned?
    ensures id in Step(s, e).calls && Step(s, e).calls[id] == s.calls[id]
  {
  }

  /** What a caller was given stays what it was given. */
  lemma {:induction false} ResultsAreFinal(s: State, events: seq<Event>, id: nat)
    requires Inv(s) && id in s.calls && s.calls[id].Returned?
    ensures id in Play(s, events).calls && Play(s, events).calls[id] == s.calls[id]
    decreases |events|
  {
    if events != [] {
      StepKeepsInv(s, events[0]);
      StepKeepsResult(s, events[0], id);
      ResultsAreFinal(Step(s, events[0]), events[1..], id);
    }
  }

  // ------------------------------------------------------- the safety margin

  /** The vendor still honours the token, counting from when it issued it. */
  predicate Honoured(x: Entry, at: real)
    requires x.Stored?
  {
    at <= x.issuedAt + x.expire as real
  }

  /** The reply came within the margin: 60 seconds, or one second less than a shorter expiry. */
  predicate Prompt(x: Entry)
    requires x.Stored?
  {
    x.at - x.issuedAt <= if x.expire - 1 < SAFETY_MARGIN then (x.expire - 1) as real else SAFETY_MARGIN as real
  }

  /** The cache hands out only tokens the vendor still honours exactly when the reply was prompt. */
  lemma MarginExactly(x: Entry)
    requires x.Stored? && x.expire > 0
    ensures Prompt(x) <==> forall at: real | x.at <= at < Until(x) :: Honoured(x, at)
  {
    var end := x.issuedAt + x.expire as real;
    if !Prompt(x) {
      var late := if end < x.at then x.at else (end + Until(x)) / 2.0;
      assert x.at <= late < Until(x) && !Honoured(x, late);
    }
  }

  /** In every run where the stored replies were prompt, no cached token is handed out past its expiry. */
  lemma PromptRunsHandOutHonouredTokens(events: seq<Event>, id: nat)
    requires var s := Play(START, events);
      && (forall x | x in s.log && x.Stored? :: Prompt(x))
      && id in s.calls && s.calls[id].Returned? && s.calls[id].how.FromCache?
    ensures var s := Play(START, events);
      exists x :: x in s.log && x.Stored? && x.token == s.calls[id].token && Honoured(x, s.calls[id].how.at)
  {
    RunKeepsInv(START, events);
    var s := Play(START, events);
    var c := s.calls[id];
    assert Served(s.log, id, c);
    var i: nat :| ReadFromCache(s.log, i, c.token, c.how.at, c.how.until);
    assert s.log[i] in s.log;
  }

  /** Two callers: the first fetches a token that takes `latency` to arrive, the second comes `later`. */
  function SlowRun(token: string, expire: int, latency: real, later: real): seq<Event> {
    [Enter(1), Acquire(1), Tick(latency), Granted(1, Str(token), Int(expire), 0.0), Tick(later), Enter(2)]
  }

  /** A wait after the store at which the cache still holds a token that the vendor already dropped. */
  function DeadWait(expire: int, latency: real): real {
    if expire as real < latency then 0.0 else (expire as real - latency + Lifetime(expire)) / 2.0
  }

  /** Whatever the expiry, any reply slower than the margin can make the cache hand out a dead token. */
  lemma SlowReplyHandsOutDeadToken(token: string, expire: int, latency: real)
    requires token != "" && expire > 0 && latency >= 0.0
    requires !Prompt(Stored(1, latency, token, expire, 0.0))
    ensures var s := Play(START, SlowRun(token, expire, latency, DeadWait(expire, latency)));
      && s.log == [Began(1, 0.0), Stored(1, latency, token, expire, 0.0)]
      && 2 in s.calls && s.calls[2].Returned? && s.calls[2].token == token && s.calls[2].how.FromCache?
      && !Honoured(s.log[1], s.calls[2].how.at)
  {
    var x := Stored(1, latency, token, expire, 0.0);
    var later := DeadWait(expire, latency);
    var run := SlowRun(token, expire, latency, later);
    var waiting := State(0.0, None, 0.0, None, map[1 := Waiting], []);
    var fetching := State(0.0, None, 0.0, Some(1), map[1 := Fetching], [Began(1, 0.0)]);
    var stored := State(latency, Some(token), Until(x), None, map[1 := Returned(token, Fetched)], [Began(1, 0.0), x]);
    assert Play(START, run) == Play(fetching, run[2..]) by {
      assert Step(START, run[0]) == waiting && Step(waiting, run[1]) == fetching;
      assert run[1..][1..] == run[2..];
    }
    assert Play(fetching, run[2..]) == Play(stored, run[4..]) by {
      assert Step(Step(fetching, run[2]), run[3]) == stored;
      assert run[2..][1..][1..] == run[4..];
    }
    assert run[4..] == [Tick(later), Enter(2)];
    assert Play(stored, run[4..]) == Play(Step(stored, Tick(later)), [Enter(2)]);
  }

  // --------------------------------------------------------------- the class

  /** The cache fields of a vendor client. `now` is what its injected clock reads. */
  class AccessToken {
    var now: real
    var token: Option<string>
    var expiresAt: real
    var holder: Option<nat>
    ghost var calls: map<nat, Call>
    ghost var log: seq<Entry>

    ghost function Abs(): State
      reads this
    {
      State(now, token, expiresAt, holder, calls, log)
    }

    constructor ()
      ensures Abs() == START
    {
      now, token, expiresAt, holder := 0.0, None, 0.0, None;
      calls, log := map[], [];
    }

    /** The check before the lock; None sends the caller to wait for it. */
    method FirstCheck(id: nat) returns (found: Option<string>)
      requires Inv(Abs()) && id !in calls
      modifies this
      ensures Inv(Abs()) && Abs() == Step(old(Abs()), Enter(id))
      ensures calls[id] == if found.Some? then Returned(found.value, FromCache(now, expiresAt)) else Waiting
    {
      StepKeepsInv(Abs(), Enter(id));
      if token.Some? && token.value != "" && now < expiresAt {
        calls := calls[id := Returned(token.value, FromCache(now, expiresAt))];
        return token;
      }
      calls := calls[id := Waiting];
      return None;
    }

    /** The check under the lock; None means this caller now authenticates and keeps the lock. */
    method SecondCheck(id: nat) returns (found: Option<string>)
      requires Inv(Abs()) && id in calls && calls[id].Waiting? && holder.None?
      modifies this
      ensures Inv(Abs()) && Abs() == Step(old(Abs()), Acquire(id))
      ensures found.Some? ==> holder.None? && log == old(log)
      ensures found.None? ==> holder == Some(id) && log == old(log) + [Began(id, now)]
    {
      StepKeepsInv(Abs(), Acquire(id));
      if token.Some? && token.value != "" && now < expiresAt {
        calls := calls[id := Returned(token.value, FromCache(now, expiresAt))];
        return token;
      }
      calls := calls[id := Fetching];
      holder := Some(id);
      log := log + [Began(id, now)];
      return None;
    }

    /** What follows the authentication reply; the lock is released either way. */
    method Accept(id: nat, reply: Json, expire: Json, issuedAt: real) returns (result: Result<string, ()>)
      requires Inv(Abs()) && holder == Some(id)
      modifies this
      ensures Inv(Abs()) && Abs() == Step(old(Abs()), Granted(id, reply, expire, issuedAt))
      ensures result.Ok? ==> token == Some(result.value) && now < expiresAt
      ensures result.Err? ==> token == old(token) && expiresAt == old(expiresAt)
      ensures holder.None?
    {
      StepKeepsInv(Abs(), Granted(id, reply, expire, issuedAt));
      holder := None;
      if !reply.Str? || reply.s == "" || AsExpiry(expire).None? {
        calls := calls[id := Failed];
        return Err(());
      }
      var seconds := AsExpiry(expire).value;
      token := Some(reply.s);
      expiresAt := now + Lifetime(seconds);
      calls := calls[id := Returned(reply.s, Fetched)];
      log := log + [Stored(id, now, reply.s, seconds, issuedAt)];
      return Ok(reply.s);
    }

    method Close()
      requires Inv(Abs())
      modifies this
      ensures Inv(Abs()) && Abs() == Step(old(Abs()), Aclose)
    {
      StepKeepsInv(Abs(), Aclose);
      token := None;
      expiresAt := 0.0;
      log := log + [Closed];
    }
  }
}
