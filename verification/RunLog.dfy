/**
 Following a growing server-side event log to the end of a run (runtime.py of the CLI, over the
 listing of api/events.py and persistence/events.py), and the answer assembled from it.
 */
module RunLog {
  import opened Wrappers
  import opened Json

  datatype Event = Event(id: string, sequence: int, name: string, payload: Json)

  /** The `limit` the listing endpoint applies when the client names none, as this client does. */
  const PAGE_LIMIT := 500

  /** One loop iteration: the status that was read, then the log as it stood when it was listed. */
  datatype Poll = Poll(status: string, log: seq<Event>)

  datatype WaitResult = Done(status: string, events: seq<Event>) | TimedOut

  predicate Terminal(status: string) {
    status == "COMPLETED" || status == "FAILED" || status == "CANCELLED"
  }

  predicate WaitComplete(status: string) {
    Terminal(status) || status == "WAITING_USER"
  }

  /** What the event store keeps: ids are unique and sequences strictly increase from one. */
  predicate WellFormed(log: seq<Event>) {
    && (forall i | 0 <= i < |log| :: log[i].id != "" && log[i].sequence >= 1)
    && (forall i, j | 0 <= i < j < |log| :: log[i].id != log[j].id && log[i].sequence < log[j].sequence)
  }

  /** The server only appends between polls. */
  predicate Growing(polls: seq<Poll>) {
    && (forall i | 0 <= i < |polls| :: WellFormed(polls[i].log))
    && (forall i, j | 0 <= i < j < |polls| :: polls[i].log <= polls[j].log)
  }

  function Above(log: seq<Event>, after: int): seq<Event> {
    if log == [] then [] else (if log[0].sequence > after then [log[0]] else []) + Above(log[1..], after)
  }

  function Min(a: int, b: int): int { if a <= b then a else b }

  function Take(events: seq<Event>, n: nat): seq<Event> {
    events[..Min(n, |events|)]
  }

  /** The listing: events above the cursor in sequence order, one page of them. */
  function Page(log: seq<Event>, after: int): seq<Event> {
    Take(Above(log, after), PAGE_LIMIT)
  }

  /** The first poll from i on that ends the wait, or the number of polls when none does. */
  function EndingFrom(polls: seq<Poll>, i: nat): (n: nat)
    requires i <= |polls|
    ensures i <= n <= |polls|
    decreases |polls| - i
  {
    if i == |polls| || WaitComplete(polls[i].status) then i else EndingFrom(polls, i + 1)
  }

  function Ending(polls: seq<Poll>): (n: nat)
    ensures n <= |polls|
  {
    EndingFrom(polls, 0)
  }

  /** How many log events the first n polls deliver. */
  function Delivered(polls: seq<Poll>, n: nat): nat
    requires n <= |polls|
  {
    if n == 0 then 0 else Min(|polls[n - 1].log|, Delivered(polls, n - 1) + PAGE_LIMIT)
  }

  /** The cursor after that many events of the log. */
  function Cursor(log: seq<Event>, read: nat): int
    requires read <= |log|
  {
    if read == 0 then 0 else log[read - 1].sequence
  }

  lemma {:induction false} AboveCursor(log: seq<Event>, read: nat, after: int)
    requires WellFormed(log) && read <= |log|
    requires forall i | 0 <= i < read :: log[i].sequence <= after
    requires read < |log| ==> after < log[read].sequence
    ensures Above(log, after) == log[read..]
  {
    if log != [] {
      AboveCursor(log[1..], if read == 0 then 0 else read - 1, after);
    }
  }

  /** In a well-formed log, the next page is the slice that follows what was already read. */
  lemma NextPage(log: seq<Event>, read: nat)
    requires WellFormed(log) && read <= |log|
    ensures Page(log, Cursor(log, read)) == log[read..Min(|log|, read + PAGE_LIMIT)]
  {
    AboveCursor(log, read, Cursor(log, read));
  }

  predicate NoRepeats(events: seq<Event>) {
    forall i, j | 0 <= i < j < |events| && events[i].id != "" :: events[i].id != events[j].id
  }

  /** The three variables of the loop. */
  datatype Progress = Progress(events: seq<Event>, seen: set<string>, after: int)

  function AbsorbOne(p: Progress, e: Event): Progress {
    if e.id != "" && e.id in p.seen then p
    else
      Progress(p.events + [e],
               if e.id != "" then p.seen + {e.id} else p.seen,
               if e.sequence > p.after then e.sequence else p.after)
  }

  function AbsorbAll(p: Progress, batch: seq<Event>): Progress {
    if batch == [] then p else AbsorbOne(AbsorbAll(p, batch[..|batch| - 1]), batch[|batch| - 1])
  }

  predicate Tracked(p: Progress) {
    NoRepeats(p.events) && forall e | e in p.events && e.id != "" :: e.id in p.seen
  }

  lemma OneStaysTracked(p: Progress, e: Event)
    requires Tracked(p)
    ensures Tracked(AbsorbOne(p, e))
  {
  }

  /** Whatever a batch contains, no event id is kept twice. */
  lemma {:induction false} StaysTracked(p: Progress, batch: seq<Event>)
    requires Tracked(p)
    ensures Tracked(AbsorbAll(p, batch))
  {
    if batch != [] {
      StaysTracked(p, batch[..|batch| - 1]);
      OneStaysTracked(AbsorbAll(p, batch[..|batch| - 1]), batch[|batch| - 1]);
    }
  }

  function Ids(events: seq<Event>): set<string> {
    if events == [] then {} else Ids(events[..|events| - 1]) + {events[|events| - 1].id}
  }

  lemma {:induction false} IdsMember(events: seq<Event>, id: string)
    ensures id in Ids(events) <==> exists e :: e in events && e.id == id
  {
    if events != [] {
      var front, last := events[..|events| - 1], events[|events| - 1];
      IdsMember(front, id);
      assert forall e :: e in events <==> e in front || e == last;
    }
  }

  /** The variables after exactly the first n events of a log. */
  function ReadUpTo(log: seq<Event>, n: nat): Progress
    requires n <= |log|
  {
    Progress(log[..n], Ids(log[..n]), Cursor(log, n))
  }

  lemma AbsorbNext(log: seq<Event>, n: nat)
    requires WellFormed(log) && n < |log|
    ensures AbsorbOne(ReadUpTo(log, n), log[n]) == ReadUpTo(log, n + 1)
  {
    assert log[..n + 1][..n] == log[..n];
    IdsMember(log[..n], log[n].id);
    assert n > 0 ==> log[n - 1].sequence < log[n].sequence;
  }

  lemma AbsorbMore(p: Progress, batch: seq<Event>, e: Event, q: Progress, r: Progress)
    requires AbsorbAll(p, batch) == q && AbsorbOne(q, e) == r
    ensures AbsorbAll(p, batch + [e]) == r
  {
    assert (batch + [e])[..|batch|] == batch;
  }

  lemma SliceLast(log: seq<Event>, read: nat, upto: nat)
    requires read < upto <= |log|
    ensures log[read..upto] == log[read..upto - 1] + [log[upto - 1]]
  {
  }

  /** Reading on from a prefix of the log takes over the whole slice. */
  lemma {:induction false} AbsorbSlice(log: seq<Event>, read: nat, upto: nat)
    requires WellFormed(log) && read <= upto <= |log|
    ensures AbsorbAll(ReadUpTo(log, read), log[read..upto]) == ReadUpTo(log, upto)
  {
    if read == upto {
      AbsorbNothing(log, read);
    } else {
      AbsorbSlice(log, read, upto - 1);
      AbsorbSliceStep(log, read, upto);
    }
  }

  lemma AbsorbNothing(log: seq<Event>, read: nat)
    requires read <= |log|
    ensures AbsorbAll(ReadUpTo(log, read), log[read..read]) == ReadUpTo(log, read)
  {
    assert log[read..read] == [];
  }

  lemma AbsorbSliceStep(log: seq<Event>, read: nat, upto: nat)
    requires WellFormed(log) && read < upto <= |log|
    requires AbsorbAll(ReadUpTo(log, read), log[read..upto - 1]) == ReadUpTo(log, upto - 1)
    ensures AbsorbAll(ReadUpTo(log, read), log[read..upto]) == ReadUpTo(log, upto)
  {
    SliceLast(log, read, upto);
    AbsorbNext(log, upto - 1);
    AbsorbMore(ReadUpTo(log, read), log[read..upto - 1], log[upto - 1], ReadUpTo(log, upto - 1), ReadUpTo(log, upto));
  }

  /** The dedup loop over one batch. */
  method Absorb(p: Progress, batch: seq<Event>) returns (q: Progress)
    ensures q == AbsorbAll(p, batch)
  {
    var events, seen, after := p.events, p.seen, p.after;
    for i := 0 to |batch|
      invariant Progress(events, seen, after) == AbsorbAll(p, batch[..i])
    {
      var event := batch[i];
      assert batch[..i + 1][..i] == batch[..i];
      if event.id != "" {
        if event.id in seen {
          continue;
        }
        seen := seen + {event.id};
      }
      events := events + [event];
      if event.sequence > after {
        after := event.sequence;
      }
    }
    assert batch[..|batch|] == batch;
    return Progress(events, seen, after);
  }

  /** One poll: a page from the cursor on, absorbed. */
  function PollOnce(p: Progress, poll: Poll): Progress {
    AbsorbAll(p, Page(poll.log, p.after))
  }

  /** What the polls from i to n make of what was read before them, given what one poll does. */
  function ReadOn(step: (Progress, Poll) -> Progress, polls: seq<Poll>, i: nat, n: nat, p: Progress): Progress
    requires i <= n <= |polls|
    decreases n - i
  {
    if i == n then p else ReadOn(step, polls, i + 1, n, step(p, polls[i]))
  }

  const NOTHING_READ := Progress([], {}, 0)

  /** What has been read after the first n polls, whatever the server returned. */
  function ReadBy(polls: seq<Poll>, n: nat): Progress
    requires n <= |polls|
  {
    ReadOn(PollOnce, polls, 0, n, NOTHING_READ)
  }

  lemma {:induction false} ReadOnNext(step: (Progress, Poll) -> Progress, polls: seq<Poll>, i: nat, n: nat, p: Progress)
    requires i <= n < |polls|
    ensures ReadOn(step, polls, i, n + 1, p) == step(ReadOn(step, polls, i, n, p), polls[n])
    decreases n - i
  {
    if i < n {
      ReadOnNext(step, polls, i + 1, n, step(p, polls[i]));
    }
  }

  /** What every poll keeps, the wait keeps. */
  lemma {:induction false} KeptByPolls(step: (Progress, Poll) -> Progress, polls: seq<Poll>, i: nat, n: nat,
                                       p: Progress, holds: (nat, Progress) -> bool)
    requires i <= n <= |polls| && holds(i, p)
    requires forall k: nat, x | i <= k < n && holds(k, x) :: holds(k + 1, step(x, polls[k]))
    ensures holds(n, ReadOn(step, polls, i, n, p))
    decreases n - i
  {
    if i < n {
      KeptByPolls(step, polls, i + 1, n, step(p, polls[i]), holds);
    }
  }

  /** The log that poll i listed, and before the first poll none. */
  function Listed(polls: seq<Poll>, i: nat): seq<Event>
    requires i <= |polls|
  {
    if i == 0 then [] else polls[i - 1].log
  }

  /** Where the loop stands after i polls of a growing log. */
  ghost predicate Follows(polls: seq<Poll>, i: nat, p: Progress)
    requires i <= |polls|
  {
    var read := Delivered(polls, i);
    read <= |Listed(polls, i)| && p == ReadUpTo(Listed(polls, i), read)
  }

  lemma GrowingAt(polls: seq<Poll>, i: nat)
    requires Growing(polls) && i < |polls|
    ensures WellFormed(polls[i].log) && Listed(polls, i) <= polls[i].log
  {
  }

  /** What was read of a log was read of any log that extends it. */
  lemma SameRead(log: seq<Event>, longer: seq<Event>, read: nat)
    requires log <= longer && read <= |log|
    ensures ReadUpTo(log, read) == ReadUpTo(longer, read)
  {
    assert log[..read] == longer[..read];
  }

  /** One more poll of a longer log reads on by one page. */
  lemma PageExtends(log: seq<Event>, longer: seq<Event>, read: nat, p: Progress)
    requires WellFormed(longer) && log <= longer && read <= |log| && p == ReadUpTo(log, read)
    ensures AbsorbAll(p, Page(longer, p.after)) == ReadUpTo(longer, Min(|longer|, read + PAGE_LIMIT))
  {
    SameRead(log, longer, read);
    NextPage(longer, read);
    AbsorbSlice(longer, read, Min(|longer|, read + PAGE_LIMIT));
  }

  lemma PageRead(before: seq<Event>, log: seq<Event>, read: nat, p: Progress, q: Progress)
    requires WellFormed(log) && before <= log && read <= |before|
    requires p == ReadUpTo(before, read) && q == AbsorbAll(p, Page(log, p.after))
    ensures q == ReadUpTo(log, Min(|log|, read + PAGE_LIMIT))
  {
    PageExtends(before, log, read, p);
  }

  lemma FollowsOn(polls: seq<Poll>, i: nat, p: Progress)
    requires i < |polls| && WellFormed(polls[i].log) && Listed(polls, i) <= polls[i].log && Follows(polls, i, p)
    ensures Follows(polls, i + 1, PollOnce(p, polls[i]))
  {
    PageRead(Listed(polls, i), polls[i].log, Delivered(polls, i), p, PollOnce(p, polls[i]));
    assert Listed(polls, i + 1) == polls[i].log;
  }

  /** What the wait returns. */
  function Waited(polls: seq<Poll>): WaitResult {
    var n := Ending(polls);
    if n == |polls| then TimedOut else Done(polls[n].status, ReadBy(polls, n + 1).events)
  }

  lemma ReadStaysTracked(polls: seq<Poll>, n: nat)
    requires n <= |polls|
    ensures Tracked(ReadBy(polls, n))
  {
    var holds := (k: nat, x: Progress) => Tracked(x);
    forall k: nat, x | k < n && holds(k, x) ensures holds(k + 1, PollOnce(x, polls[k])) {
      StaysTracked(x, Page(polls[k].log, x.after));
    }
    KeptByPolls(PollOnce, polls, 0, n, NOTHING_READ, holds);
  }

  /** If every poll keeps up with the log, so does the wait. */
  lemma FollowsUpto(step: (Progress, Poll) -> Progress, polls: seq<Poll>, n: nat)
    requires n <= |polls| && Follows(polls, 0, NOTHING_READ)
    requires forall k: nat, x | k < n && Follows(polls, k, x) :: Follows(polls, k + 1, step(x, polls[k]))
    ensures Follows(polls, n, ReadOn(step, polls, 0, n, NOTHING_READ))
  {
    ghost var holds := (k: nat, x: Progress) => k <= |polls| && Follows(polls, k, x);
    KeptByPolls(step, polls, 0, n, NOTHING_READ, holds);
  }

  lemma EveryPollFollows(polls: seq<Poll>)
    requires Growing(polls)
    ensures forall k: nat, x | k < |polls| && Follows(polls, k, x) :: Follows(polls, k + 1, PollOnce(x, polls[k]))
  {
    forall k: nat, x | k < |polls| && Follows(polls, k, x) ensures Follows(polls, k + 1, PollOnce(x, polls[k])) {
      GrowingAt(polls, k);
      FollowsOn(polls, k, x);
    }
  }

  lemma NothingRead(polls: seq<Poll>)
    ensures Follows(polls, 0, NOTHING_READ)
  {
    assert Listed(polls, 0)[..0] == [];
  }

  /** Over a growing log, what was read after each poll is a prefix of the log it listed. */
  lemma ReadFollows(polls: seq<Poll>, n: nat)
    requires Growing(polls) && n <= |polls|
    ensures Follows(polls, n, ReadBy(polls, n))
  {
    NothingRead(polls);
    EveryPollFollows(polls);
    FollowsUpto(PollOnce, polls, n);
  }

  /** What holds of the result, whatever the server returned. */
  lemma WaitedIsDistinct(polls: seq<Poll>, last: nat)
    requires last == Ending(polls) < |polls|
    ensures Waited(polls).Done? && Waited(polls).status == polls[last].status && NoRepeats(Waited(polls).events)
  {
    ReadStaysTracked(polls, last + 1);
  }

  /** Over a growing log it is the prefix of the log that the pages reached. */
  lemma WaitedIsPrefix(polls: seq<Poll>, last: nat)
    requires Growing(polls) && last == Ending(polls) < |polls|
    ensures Delivered(polls, last + 1) <= |polls[last].log|
    ensures Waited(polls) == Done(polls[last].status, polls[last].log[..Delivered(polls, last + 1)])
  {
    ReadFollows(polls, last + 1);
  }

  /**
   `wait_for_run`, one poll per loop iteration until the deadline. Whatever the server returns, no
   event id is kept twice. Over a growing well-formed log the result is exactly the prefix of the log
   that pages of PAGE_LIMIT reach by the poll that ends the wait.
   */
  method WaitForRun(polls: seq<Poll>) returns (result: WaitResult)
    ensures result == Waited(polls)
    ensures result.Done? <==> Ending(polls) < |polls|
    ensures result.Done? ==> result.status == polls[Ending(polls)].status && NoRepeats(result.events)
    ensures result.Done? && Growing(polls) ==>
      Delivered(polls, Ending(polls) + 1) <= |polls[Ending(polls)].log|
      && result.events == polls[Ending(polls)].log[..Delivered(polls, Ending(polls) + 1)]
  {
    var p := NOTHING_READ;
    for i := 0 to |polls|
      invariant EndingFrom(polls, i) == Ending(polls)
      invariant p == ReadBy(polls, i)
    {
      ReadOnNext(PollOnce, polls, 0, i, NOTHING_READ);
      p := Absorb(p, Page(polls[i].log, p.after));
      if WaitComplete(polls[i].status) {
        WaitedIsDistinct(polls, i);
        if Growing(polls) {
          WaitedIsPrefix(polls, i);
        }
        return Done(polls[i].status, p.events);
      }
    }
    return TimedOut;
  }

  // ----------------------------------------------------------- completeness

  /** `whole` is the log of the finished run: it extends every log seen, and a terminal status froze it. */
  predicate Frozen(polls: seq<Poll>, whole: seq<Event>) {
    && Growing(polls) && WellFormed(whole)
    && forall i | 0 <= i < |polls| :: polls[i].log <= whole && (Terminal(polls[i].status) ==> polls[i].log == whole)
  }

  predicate EndsTerminal(polls: seq<Poll>) {
    Waited(polls).Done? && Terminal(Waited(polls).status)
  }

  /** How many events of the log the client had not read when it made its last poll. */
  function Unread(polls: seq<Poll>, whole: seq<Event>): int {
    |whole| - |ReadBy(polls, Ending(polls)).events|
  }

  /**
   When the wait ends on a terminal status, the events it returns are a prefix of the whole log, and they
   are all of it if and only if the last poll had at most PAGE_LIMIT events left to read: the client asks
   for one page after it has seen the status, and does not page on.
   */
  lemma TerminalLogExactly(polls: seq<Poll>, whole: seq<Event>)
    requires Frozen(polls, whole) && EndsTerminal(polls)
    ensures Waited(polls).events <= whole
    ensures Waited(polls).events == whole <==> Unread(polls, whole) <= PAGE_LIMIT
    ensures Unread(polls, whole) > PAGE_LIMIT ==> |whole| - |Waited(polls).events| == Unread(polls, whole) - PAGE_LIMIT
  {
    LastRead(polls, whole, Ending(polls));
  }

  lemma LastRead(polls: seq<Poll>, whole: seq<Event>, last: nat)
    requires Frozen(polls, whole) && last < |polls| && Terminal(polls[last].status)
    ensures var read := |ReadBy(polls, last).events|;
      var got := ReadBy(polls, last + 1).events;
      && read <= |whole| && got <= whole && (got == whole <==> |whole| - read <= PAGE_LIMIT)
      && |got| == Min(|whole|, read + PAGE_LIMIT)
  {
    LastPoll(polls, whole, last);
    ReadIsPrefix(polls, last, whole);
    ReadIsPrefix(polls, last + 1, whole);
    PageReachesEnd(whole, Delivered(polls, last));
  }

  /** Of any log that extends those polled, what was read is a prefix. */
  lemma ReadIsPrefix(polls: seq<Poll>, n: nat, whole: seq<Event>)
    requires Frozen(polls, whole) && n <= |polls|
    ensures Delivered(polls, n) <= |whole| && ReadBy(polls, n).events == whole[..Delivered(polls, n)]
  {
    ReadFollows(polls, n);
    if n > 0 {
      assert polls[n - 1].log <= whole;
    }
  }

  lemma PageReachesEnd(whole: seq<Event>, read: nat)
    requires read <= |whole|
    ensures var got := whole[..Min(|whole|, read + PAGE_LIMIT)];
      && got <= whole && (got == whole <==> |whole| - read <= PAGE_LIMIT)
      && |got| == Min(|whole|, read + PAGE_LIMIT)
  {
  }

  /** A poll that saw a terminal status saw the whole log. */
  lemma LastPoll(polls: seq<Poll>, whole: seq<Event>, n: nat)
    requires Frozen(polls, whole) && n < |polls| && Terminal(polls[n].status)
    ensures polls[n].log == whole && Delivered(polls, n) <= |whole|
    ensures Delivered(polls, n + 1) == Min(|whole|, Delivered(polls, n) + PAGE_LIMIT)
  {
    assert n > 0 ==> polls[n - 1].log <= polls[n].log;
  }

  /** A log of n events, with ids of distinct lengths. */
  function LongLog(n: nat): seq<Event> {
    seq(n, i requires 0 <= i < n => Event(seq(i + 1, _ => 'e'), i + 1, "answer.delta", Obj(map["delta" := Str("x")])))
  }

  /** Events numbered from one, with ids as long as their number, form a log. */
  lemma NumberedIsWellFormed(log: seq<Event>)
    requires forall i | 0 <= i < |log| :: |log[i].id| == i + 1 && log[i].sequence == i + 1
    ensures WellFormed(log)
  {
    forall i, j | 0 <= i < j < |log| ensures log[i].id != log[j].id {
      assert |log[i].id| == i + 1 && |log[j].id| == j + 1;
    }
    forall i | 0 <= i < |log| ensures log[i].id != "" {
      assert |log[i].id| == i + 1;
    }
  }

  /** The whole-log law fails: a run that finishes with 501 unread events is returned without its last one. */
  lemma WholeLogLawFails()
    ensures var polls := [Poll("COMPLETED", LongLog(501))];
      Frozen(polls, LongLog(501)) && Waited(polls) == Done("COMPLETED", LongLog(501)[..500])
  {
    NumberedIsWellFormed(LongLog(501));
    OnePoll(LongLog(501));
  }

  /** A wait of one poll, which already saw the end. */
  lemma OnePoll(log: seq<Event>)
    requires WellFormed(log)
    ensures var polls := [Poll("COMPLETED", log)];
      && Frozen(polls, log) && EndsTerminal(polls)
      && Waited(polls) == Done("COMPLETED", log[..Min(|log|, PAGE_LIMIT)])
  {
    var polls := [Poll("COMPLETED", log)];
    assert Ending(polls) == 0 && |ReadBy(polls, 0).events| == 0;
    LastRead(polls, log, 0);
  }

  // ----------------------------------------------------------------- answer

  /** The text of a string delta of an answer event. */
  function Delta(e: Event): Option<string> {
    if e.name != "answer.delta" || !e.payload.Obj? then None
    else
      var delta := Get(e.payload.fields, "delta");
      if delta.Str? then Some(delta.s) else None
  }

  predicate HasDelta(events: seq<Event>) {
    exists e | e in events :: Delta(e).Some?
  }

  /** All string deltas, in log order. */
  function Spoken(events: seq<Event>): string {
    if events == [] then ""
    else
      var last := Delta(events[|events| - 1]);
      Spoken(events[..|events| - 1]) + if last.Some? then last.value else ""
  }

  /** The text of an artifact whose inline content is a mapping. */
  function ArtifactText(inlineContent: Json): Option<string> {
    if !inlineContent.Obj? then None
    else
      var markdown, text := Get(inlineContent.fields, "markdown"), Get(inlineContent.fields, "text");
      if markdown.Str? then Some(markdown.s) else if text.Str? then Some(text.s) else None
  }

  function FirstText(artifacts: seq<Json>): string {
    if artifacts == [] then ""
    else match ArtifactText(artifacts[0])
      case Some(text) => text
      case None => FirstText(artifacts[1..])
  }

  function Join(chunks: seq<string>): string {
    if chunks == [] then "" else Join(chunks[..|chunks| - 1]) + chunks[|chunks| - 1]
  }

  /** The answer a log and the run's artifacts (given by their inline content) amount to. */
  ghost function Answer(events: seq<Event>, artifacts: seq<Json>): string {
    if HasDelta(events) then Spoken(events) else FirstText(artifacts)
  }

  /** `_answer_from`. */
  method AnswerFrom(events: seq<Event>, artifacts: seq<Json>) returns (answer: string)
    ensures answer == Answer(events, artifacts)
  {
    var chunks: seq<string> := [];
    for i := 0 to |events|
      invariant Join(chunks) == Spoken(events[..i])
      invariant chunks != [] <==> HasDelta(events[..i])
    {
      assert events[..i + 1][..i] == events[..i];
      assert forall e :: e in events[..i + 1] <==> e in events[..i] || e == events[i];
      var delta := Delta(events[i]);
      if delta.Some? {
        assert (chunks + [delta.value])[..|chunks|] == chunks;
        chunks := chunks + [delta.value];
      } else {
        assert Spoken(events[..i]) + "" == Spoken(events[..i]);
      }
    }
    assert events[..|events|] == events;
    if chunks != [] {
      return Join(chunks);
    }
    for i := 0 to |artifacts|
      invariant FirstText(artifacts) == FirstText(artifacts[i..])
    {
      assert artifacts[i..][1..] == artifacts[i + 1..];
      var text := ArtifactText(artifacts[i]);
      if text.Some? {
        return text.value;
      }
    }
    return "";
  }

  lemma {:induction false} SpokenConcat(a: seq<Event>, b: seq<Event>)
    ensures Spoken(a + b) == Spoken(a) + Spoken(b)
  {
    if b == [] {
      assert a + b == a;
    } else {
      assert (a + b)[..|a + b| - 1] == a + b[..|b| - 1];
      SpokenConcat(a, b[..|b| - 1]);
    }
  }

  /** Waiting for a run and then assembling its answer, as the bridge and `ask` do. */
  method FollowAnswer(polls: seq<Poll>, artifacts: seq<Json>) returns (answer: Option<string>)
    ensures answer.Some? <==> Waited(polls).Done?
    ensures answer.Some? ==> answer.value == Answer(Waited(polls).events, artifacts)
  {
    var result := WaitForRun(polls);
    if result.TimedOut? {
      return None;
    }
    var text := AnswerFrom(result.events, artifacts);
    return Some(text);
  }

  /**
   When part of a log gives the answer of the whole: if the part speaks, exactly when the rest says nothing
   more; if it does not, exactly when nothing is said at all or the first artifact text says just that.
   */
  lemma AnswerExactly(got: seq<Event>, whole: seq<Event>, artifacts: seq<Json>)
    requires got <= whole
    ensures Answer(got, artifacts) == Answer(whole, artifacts) <==>
      if HasDelta(got) then Spoken(whole[|got|..]) == ""
      else !HasDelta(whole) || FirstText(artifacts) == Spoken(whole)
    ensures HasDelta(got) ==> Answer(whole, artifacts) == Answer(got, artifacts) + Spoken(whole[|got|..])
  {
    var rest := whole[|got|..];
    assert whole == got + rest;
    SpokenConcat(got, rest);
    if HasDelta(got) {
      var e :| e in got && Delta(e).Some?;
      assert e in whole;
      assert HasDelta(whole);
      assert |Spoken(whole)| == |Spoken(got)| + |Spoken(rest)|;
    }
  }

  /**
   End to end, for a run that ended on a terminal status: with at most one page unread at the last poll the
   answer speaks every string delta of the whole log, once and in order; beyond that it is still the answer
   of the whole log exactly when the events not read change nothing.
   */
  lemma AnswerOfTerminalRun(polls: seq<Poll>, whole: seq<Event>, artifacts: seq<Json>)
    requires Frozen(polls, whole) && EndsTerminal(polls)
    ensures Waited(polls).events <= whole
    ensures Unread(polls, whole) <= PAGE_LIMIT ==> Waited(polls).events == whole
    ensures var got := Waited(polls).events;
      Answer(got, artifacts) == Answer(whole, artifacts) <==>
      if HasDelta(got) then Spoken(whole[|got|..]) == ""
      else !HasDelta(whole) || FirstText(artifacts) == Spoken(whole)
  {
    TerminalLogExactly(polls, whole);
    AnswerExactly(Waited(polls).events, whole, artifacts);
  }

  function Quiet(n: nat): seq<Event> {
    seq(n, i requires 0 <= i < n => Event(seq(i + 1, _ => 'e'), i + 1, "step.started", Null))
  }

  /** A log of n events that say nothing, and one last event that does. */
  function LateAnswer(n: nat): seq<Event> {
    Quiet(n) + [Event(seq(n + 1, _ => 'e'), n + 1, "answer.delta", Obj(map["delta" := Str("hi")]))]
  }

  lemma {:induction false} NothingSpoken(events: seq<Event>)
    requires forall e | e in events :: Delta(e).None?
    ensures Spoken(events) == ""
  {
    if events != [] {
      NothingSpoken(events[..|events| - 1]);
    }
  }

  /** The answer itself is lost: a run whose 501st unread event speaks is answered with an artifact's text. */
  lemma LateAnswerIsLost()
    ensures var (polls, artifacts) := ([Poll("COMPLETED", LateAnswer(500))], [Obj(map["text" := Str("X")])]);
      && Frozen(polls, LateAnswer(500)) && EndsTerminal(polls)
      && Spoken(LateAnswer(500)) == "hi" && Answer(Waited(polls).events, artifacts) == "X"
  {
    LateAnswerIsWellFormed(500);
    LateAnswerSpeaks(500);
    OnePoll(LateAnswer(500));
  }

  lemma LateAnswerIsWellFormed(n: nat)
    ensures WellFormed(LateAnswer(n)) && |LateAnswer(n)| == n + 1 && LateAnswer(n)[..n] == Quiet(n)
  {
    NumberedIsWellFormed(LateAnswer(n));
  }

  lemma LateAnswerSpeaks(n: nat)
    ensures Spoken(LateAnswer(n)) == "hi" && !HasDelta(Quiet(n))
  {
    SpeaksLast(Quiet(n), Event(seq(n + 1, _ => 'e'), n + 1, "answer.delta", Obj(map["delta" := Str("hi")])), "hi");
  }

  lemma SpeaksLast(quiet: seq<Event>, last: Event, text: string)
    requires Delta(last) == Some(text) && forall e | e in quiet :: Delta(e).None?
    ensures Spoken(quiet + [last]) == text
  {
    NothingSpoken(quiet);
    assert (quiet + [last])[..|quiet|] == quiet;
  }
}
