/**
 The event list of the Workbench (pollRun in workbench.tsx): a stream that pushes events in log order
 and a REST poll that asks for everything above a cursor, both merged into one list while the server
 keeps appending.
 */
module EventView {
  import opened Wrappers

  datatype Event = Event(id: string, runId: string, sequence: int)

  /** The page size of the listing endpoint when the client names none. */
  const PAGE_LIMIT := 500

  predicate Sorted(events: seq<Event>) {
    forall i, j | 0 <= i < j < |events| :: events[i].sequence <= events[j].sequence
  }

  predicate Distinct(events: seq<Event>) {
    forall i, j | 0 <= i < j < |events| :: events[i].id != events[j].id
  }

  predicate NewId(events: seq<Event>, id: string) {
    forall e | e in events :: e.id != id
  }

  /** A stable insertion: after every event of the same or a lower sequence. */
  function Insert(sorted: seq<Event>, e: Event): seq<Event> {
    if sorted == [] || sorted[|sorted| - 1].sequence <= e.sequence then sorted + [e]
    else Insert(sorted[..|sorted| - 1], e) + [sorted[|sorted| - 1]]
  }

  /** JavaScript's stable sort by run sequence. */
  function Sort(events: seq<Event>): seq<Event> {
    if events == [] then [] else Insert(Sort(events[..|events| - 1]), events[|events| - 1])
  }

  function Unknown(previous: seq<Event>, incoming: seq<Event>): seq<Event> {
    if incoming == [] then []
    else Unknown(previous, incoming[..|incoming| - 1])
         + if NewId(previous, incoming[|incoming| - 1].id) then [incoming[|incoming| - 1]] else []
  }

  /** The update the stream callback makes. */
  function MergeOne(previous: seq<Event>, e: Event): seq<Event> {
    if NewId(previous, e.id) then Sort(previous + [e]) else previous
  }

  /** The update a poll makes. */
  function MergePage(previous: seq<Event>, page: seq<Event>): seq<Event> {
    if page == [] then previous else Sort(previous + Unknown(previous, page))
  }

  function Max(a: int, b: int): int { if a >= b then a else b }

  function MaxSequence(cursor: int, page: seq<Event>): int {
    if page == [] then cursor else Max(MaxSequence(cursor, page[..|page| - 1]), page[|page| - 1].sequence)
  }

  // ------------------------------------------------------- what sorting does

  lemma {:induction false} InsertMembers(sorted: seq<Event>, e: Event, x: Event)
    ensures x in Insert(sorted, e) <==> x in sorted || x == e
  {
    if sorted != [] && sorted[|sorted| - 1].sequence > e.sequence {
      var front, last := sorted[..|sorted| - 1], sorted[|sorted| - 1];
      assert sorted == front + [last];
      InsertMembers(front, e, x);
    }
  }

  lemma {:induction false} InsertSorted(sorted: seq<Event>, e: Event)
    requires Sorted(sorted)
    ensures Sorted(Insert(sorted, e))
  {
    if sorted != [] && sorted[|sorted| - 1].sequence > e.sequence {
      var front, last := sorted[..|sorted| - 1], sorted[|sorted| - 1];
      InsertSorted(front, e);
      forall x | x in Insert(front, e) ensures x.sequence <= last.sequence {
        InsertMembers(front, e, x);
      }
    }
  }

  lemma {:induction false} InsertDistinct(sorted: seq<Event>, e: Event)
    requires Distinct(sorted) && NewId(sorted, e.id)
    ensures Distinct(Insert(sorted, e))
  {
    if sorted != [] && sorted[|sorted| - 1].sequence > e.sequence {
      var front, last := sorted[..|sorted| - 1], sorted[|sorted| - 1];
      InsertDistinct(front, e);
      forall x | x in Insert(front, e) ensures x.id != last.id {
        InsertMembers(front, e, x);
      }
    }
  }

  lemma {:induction false} SortMembers(events: seq<Event>, x: Event)
    ensures x in Sort(events) <==> x in events
  {
    if events != [] {
      var front, last := events[..|events| - 1], events[|events| - 1];
      assert events == front + [last];
      SortMembers(front, x);
      InsertMembers(Sort(front), last, x);
    }
  }

  lemma {:induction false} SortSorts(events: seq<Event>)
    ensures Sorted(Sort(events))
  {
    if events != [] {
      SortSorts(events[..|events| - 1]);
      InsertSorted(Sort(events[..|events| - 1]), events[|events| - 1]);
    }
  }

  lemma {:induction false} SortKeepsDistinct(events: seq<Event>)
    requires Distinct(events)
    ensures Distinct(Sort(events))
  {
    if events != [] {
      var front, last := events[..|events| - 1], events[|events| - 1];
      SortKeepsDistinct(front);
      forall x | x in Sort(front) ensures x.id != last.id {
        SortMembers(front, x);
      }
      InsertDistinct(Sort(front), last);
    }
  }

  // ------------------------------------------------------------------ merges

  lemma {:induction false} UnknownMembers(previous: seq<Event>, incoming: seq<Event>, x: Event)
    ensures x in Unknown(previous, incoming) <==> x in incoming && NewId(previous, x.id)
  {
    if incoming != [] {
      var front := incoming[..|incoming| - 1];
      assert incoming == front + [incoming[|incoming| - 1]];
      UnknownMembers(previous, front, x);
    }
  }

  lemma SnocDistinct(events: seq<Event>, e: Event)
    requires Distinct(events) && NewId(events, e.id)
    ensures Distinct(events + [e])
  {
  }

  lemma {:induction false} UnknownDistinct(previous: seq<Event>, incoming: seq<Event>)
    requires Distinct(previous) && Distinct(incoming)
    ensures Distinct(previous + Unknown(previous, incoming))
  {
    if incoming == [] {
      assert previous + Unknown(previous, incoming) == previous;
    } else {
      var front, last := incoming[..|incoming| - 1], incoming[|incoming| - 1];
      UnknownDistinct(previous, front);
      var merged := previous + Unknown(previous, front);
      if NewId(previous, last.id) {
        assert previous + Unknown(previous, incoming) == merged + [last];
        forall x | x in merged ensures x.id != last.id {
          UnknownMembers(previous, front, x);
        }
        SnocDistinct(merged, last);
      } else {
        assert previous + Unknown(previous, incoming) == merged;
      }
    }
  }

  /** Merging a page keeps the list sorted and free of repeats, and adds exactly the events whose id is new. */
  lemma MergePageLaw(previous: seq<Event>, page: seq<Event>)
    requires Sorted(previous) && Distinct(previous) && Distinct(page)
    ensures Sorted(MergePage(previous, page)) && Distinct(MergePage(previous, page))
    ensures forall x :: x in MergePage(previous, page) <==> x in previous || (x in page && NewId(previous, x.id))
  {
    var all := previous + Unknown(previous, page);
    SortSorts(all);
    UnknownDistinct(previous, page);
    SortKeepsDistinct(all);
    forall x ensures x in Sort(all) <==> x in previous || (x in page && NewId(previous, x.id)) {
      SortMembers(all, x);
      UnknownMembers(previous, page, x);
    }
  }

  lemma InsertAtEnd(front: seq<Event>, last: Event)
    requires front != [] ==> front[|front| - 1].sequence <= last.sequence
    ensures Insert(front, last) == front + [last]
  {
  }

  lemma {:induction false} SortOfSorted(events: seq<Event>)
    requires Sorted(events)
    ensures Sort(events) == events
  {
    if events != [] {
      var front, last := events[..|events| - 1], events[|events| - 1];
      SortOfSorted(front);
      InsertAtEnd(front, last);
      assert events == front + [last];
    }
  }

  /** The stream callback is the merge of a page of one. */
  lemma MergeOneIsPage(previous: seq<Event>, e: Event)
    requires Sorted(previous) && Distinct(previous)
    ensures MergeOne(previous, e) == MergePage(previous, [e])
    ensures Sorted(MergeOne(previous, e)) && Distinct(MergeOne(previous, e))
    ensures forall x :: x in MergeOne(previous, e) <==> x in previous || (x == e && NewId(previous, e.id))
  {
    MergePageLaw(previous, [e]);
    SortOfSorted(previous);
    assert [e][..0] == [];
    assert Unknown(previous, [e]) == Unknown(previous, []) + if NewId(previous, e.id) then [e] else [];
    assert previous + [] == previous;
  }

  // --------------------------------------------------------- the two channels

  predicate WellFormed(log: seq<Event>) {
    && (forall i | 0 <= i < |log| :: log[i].sequence >= 1)
    && (forall i, j | 0 <= i < j < |log| :: log[i].sequence < log[j].sequence && log[i].id != log[j].id)
  }

  /** How many events of the log lie at or below the cursor. */
  function Upto(log: seq<Event>, cursor: int): (n: nat)
    ensures n <= |log|
  {
    if log == [] then 0
    else if log[|log| - 1].sequence <= cursor then |log|
    else Upto(log[..|log| - 1], cursor)
  }

  function Min(a: int, b: int): int { if a <= b then a else b }

  /** The REST listing: the events above the cursor in order, one page of them. */
  function Listing(log: seq<Event>, after: int): seq<Event> {
    log[Upto(log, after)..Min(|log|, Upto(log, after) + PAGE_LIMIT)]
  }

  /**
   The poller's variables beside the growing log; `asked` is the cursor of the request in flight, and
   `listed` how long the log was when the server answered it.
   */
  datatype Feed = Feed(
    log: seq<Event>, cursor: int, shown: seq<Event>, streamed: nat, asked: Option<int>, listed: Option<nat>)

  datatype Step =
    | Appended(e: Event)  // by the server
    | Streamed            // the next frame of the subscription
    | Dropped             // a frame the client discards as malformed
    | Asked
    | Listed              // by the server; frames may overtake its response
    | Answered | PollFailed

  predicate Answerable(f: Feed) {
    f.asked.Some? && f.listed.Some? && f.listed.value <= |f.log|
  }

  /** The log as the server listed it. */
  function Seen(f: Feed): seq<Event>
    requires Answerable(f)
  {
    f.log[..f.listed.value]
  }

  function Next(f: Feed, step: Step): Option<Feed> {
    match step
    case Appended(e) =>
      if WellFormed(f.log + [e]) then Some(f.(log := f.log + [e])) else None
    case Streamed =>
      if f.streamed >= |f.log| then None
      else
        var e := f.log[f.streamed];
        Some(f.(cursor := Max(f.cursor, e.sequence), shown := MergeOne(f.shown, e), streamed := f.streamed + 1))
    case Dropped =>
      if f.streamed >= |f.log| then None else Some(f.(streamed := f.streamed + 1))
    case Asked =>
      if f.asked.Some? then None else Some(f.(asked := Some(f.cursor), listed := None))
    case Listed =>
      if f.asked.None? || f.listed.Some? then None else Some(f.(listed := Some(|f.log|)))
    case Answered =>
      if !Answerable(f) then None
      else
        var page := Listing(Seen(f), f.asked.value);
        Some(f.(cursor := MaxSequence(f.cursor, page), shown := MergePage(f.shown, page),
                asked := None, listed := None))
    case PollFailed =>
      if f.asked.None? then None else Some(f.(asked := None, listed := None))
  }

  function Play(f: Feed, steps: seq<Step>): Option<Feed>
    decreases |steps|
  {
    if steps == [] then Some(f)
    else match Next(f, steps[0])
      case None => None
      case Some(g) => Play(g, steps[1..])
  }

  /** Where polling starts: whatever the inspection loaded is shown, and the cursor is zero. */
  predicate Starts(f: Feed) {
    && WellFormed(f.log) && f.cursor == 0 && f.streamed == 0 && f.asked.None? && f.listed.None?
    && Sorted(f.shown) && Distinct(f.shown) && forall e | e in f.shown :: e in f.log
  }

  lemma {:induction false} UptoSplits(log: seq<Event>, cursor: int, i: nat)
    requires WellFormed(log) && i < |log|
    ensures i < Upto(log, cursor) <==> log[i].sequence <= cursor
  {
    var last := |log| - 1;
    if log[last].sequence > cursor && i < last {
      UptoSplits(log[..last], cursor, i);
    }
  }

  /** The list is sorted, without repeats, from this log only, and complete up to the cursor. */
  ghost predicate Consistent(f: Feed) {
    && WellFormed(f.log)
    && Sorted(f.shown) && Distinct(f.shown)
    && (forall e | e in f.shown :: e in f.log)
    && (forall i | 0 <= i < |f.log| && f.log[i].sequence <= f.cursor :: f.log[i] in f.shown)
  }

  /** The numbers fit the log: the cursor covers what was streamed and lies within the log. */
  ghost predicate Bookkept(f: Feed) {
    && f.streamed <= |f.log| && (f.streamed > 0 ==> f.log[f.streamed - 1].sequence <= f.cursor)
    && (f.asked.Some? ==> f.asked.value <= f.cursor)
    && (f.listed.Some? ==> Answerable(f))
    && f.cursor <= if f.log == [] then 0 else f.log[|f.log| - 1].sequence
  }

  ghost predicate Inv(f: Feed) {
    Consistent(f) && Bookkept(f)
  }

  /** In a well-formed log an id names one event, so a shown id is a shown event. */
  lemma IdNamesEvent(f: Feed, e: Event)
    requires WellFormed(f.log) && e in f.log && forall x | x in f.shown :: x in f.log
    ensures NewId(f.shown, e.id) <==> e !in f.shown
  {
  }

  lemma StreamMembers(f: Feed)
    requires Inv(f) && f.streamed < |f.log|
    ensures var g := Next(f, Streamed).value;
      && Sorted(g.shown) && Distinct(g.shown)
      && forall x :: x in g.shown <==> x in f.shown || x == f.log[f.streamed]
  {
    MergeOneIsPage(f.shown, f.log[f.streamed]);
    IdNamesEvent(f, f.log[f.streamed]);
  }

  /** Everything up to the new cursor was shown before or is the event just streamed. */
  lemma StreamCovers(f: Feed, i: nat)
    requires Inv(f) && f.streamed < |f.log| && i < |f.log|
    requires f.log[i].sequence <= Next(f, Streamed).value.cursor
    ensures f.log[i] in Next(f, Streamed).value.shown
  {
    StreamMembers(f);
    assert i > f.streamed ==> f.log[f.streamed].sequence < f.log[i].sequence;
    if i < f.streamed {
      StreamedIsCovered(f, i);
    }
  }

  lemma StreamedIsCovered(f: Feed, i: nat)
    requires Inv(f) && i < f.streamed
    ensures f.log[i] in f.shown
  {
    if i < f.streamed - 1 {
      assert f.log[i].sequence < f.log[f.streamed - 1].sequence;
    }
  }

  lemma StreamConsistent(f: Feed)
    requires Inv(f) && f.streamed < |f.log|
    ensures Consistent(Next(f, Streamed).value)
  {
    StreamMembers(f);
    forall i | 0 <= i < |f.log| && f.log[i].sequence <= Next(f, Streamed).value.cursor
      ensures f.log[i] in Next(f, Streamed).value.shown
    {
      StreamCovers(f, i);
    }
  }

  lemma StreamBooks(f: Feed, shown: seq<Event>)
    requires WellFormed(f.log) && Bookkept(f) && f.streamed < |f.log|
    ensures Bookkept(f.(cursor := Max(f.cursor, f.log[f.streamed].sequence), shown := shown,
                        streamed := f.streamed + 1))
  {
    assert f.streamed < |f.log| - 1 ==> f.log[f.streamed].sequence < f.log[|f.log| - 1].sequence;
  }

  lemma StreamKeepsInv(f: Feed)
    requires Inv(f) && f.streamed < |f.log|
    ensures Inv(Next(f, Streamed).value)
  {
    StreamConsistent(f);
    StreamBooks(f, MergeOne(f.shown, f.log[f.streamed]));
  }

  lemma {:induction false} MaxOfSlice(cursor: int, log: seq<Event>, from: nat, upto: nat)
    requires WellFormed(log) && from <= upto <= |log|
    ensures MaxSequence(cursor, log[from..upto]) == if from == upto then cursor else Max(cursor, log[upto - 1].sequence)
  {
    if from < upto {
      assert log[from..upto][..upto - from - 1] == log[from..upto - 1];
      MaxOfSlice(cursor, log, from, upto - 1);
    }
  }

  lemma SeenIsWellFormed(f: Feed)
    requires WellFormed(f.log) && Answerable(f)
    ensures WellFormed(Seen(f)) && forall x | x in Seen(f) :: x in f.log
  {
  }

  lemma AnswerMembers(f: Feed)
    requires Inv(f) && Answerable(f)
    ensures var g := Next(f, Answered).value;
      && Sorted(g.shown) && Distinct(g.shown)
      && (forall x :: x in g.shown <==> x in f.shown || x in Listing(Seen(f), f.asked.value))
      && (forall x | x in g.shown :: x in f.log)
  {
    var page := Listing(Seen(f), f.asked.value);
    SeenIsWellFormed(f);
    MergePageLaw(f.shown, page);
    forall x | x in page ensures x in f.log && (NewId(f.shown, x.id) <==> x !in f.shown) {
      assert x in Seen(f);
      IdNamesEvent(f, x);
    }
  }

  /** How far into the log the page in flight reaches. */
  function Reach(f: Feed): (r: nat)
    requires Answerable(f)
    ensures Upto(Seen(f), f.asked.value) <= r <= |f.log|
  {
    Min(|Seen(f)|, Upto(Seen(f), f.asked.value) + PAGE_LIMIT)
  }

  lemma AnswerCursor(f: Feed)
    requires Inv(f) && Answerable(f)
    ensures Next(f, Answered).value.cursor
         == if Upto(Seen(f), f.asked.value) == Reach(f) then f.cursor else Max(f.cursor, f.log[Reach(f) - 1].sequence)
  {
    SeenIsWellFormed(f);
    MaxOfSlice(f.cursor, Seen(f), Upto(Seen(f), f.asked.value), Reach(f));
  }

  /** A page holds every event above its cursor up to its last one. */
  lemma ListingCovers(log: seq<Event>, after: int, i: nat)
    requires WellFormed(log) && i < |log| && after < log[i].sequence
    requires i < Upto(log, after) + PAGE_LIMIT
    ensures log[i] in Listing(log, after)
  {
    var n := Upto(log, after);
    var m := Min(|log|, n + PAGE_LIMIT);
    UptoSplits(log, after, i);
    assert log[n..m][i - n] == log[i];
  }

  /** Everything up to the new cursor was shown before or is on the page. */
  lemma AnswerCovers(f: Feed, i: nat)
    requires Inv(f) && Answerable(f) && i < |f.log| && f.log[i].sequence <= Next(f, Answered).value.cursor
    ensures f.log[i] in Next(f, Answered).value.shown
  {
    AnswerMembers(f);
    if f.log[i].sequence > f.cursor {
      AnswerCursor(f);
      SeenIsWellFormed(f);
      assert i < Reach(f);
      assert Seen(f)[i] == f.log[i];
      ListingCovers(Seen(f), f.asked.value, i);
    }
  }

  lemma AnswerConsistent(f: Feed)
    requires Inv(f) && Answerable(f)
    ensures Consistent(Next(f, Answered).value)
  {
    AnswerMembers(f);
    forall i | 0 <= i < |f.log| && f.log[i].sequence <= Next(f, Answered).value.cursor
      ensures f.log[i] in Next(f, Answered).value.shown
    {
      AnswerCovers(f, i);
    }
  }

  lemma AnswerKeepsInv(f: Feed)
    requires Inv(f) && Answerable(f)
    ensures Inv(Next(f, Answered).value)
  {
    AnswerConsistent(f);
    AnswerCursor(f);
    CursorBelowLog(f);
  }

  lemma CursorBelowLog(f: Feed)
    requires Inv(f) && Answerable(f)
    ensures f.cursor <= Next(f, Answered).value.cursor <= if f.log == [] then 0 else f.log[|f.log| - 1].sequence
  {
    AnswerCursor(f);
    if 0 < Reach(f) < |f.log| {
      assert f.log[Reach(f) - 1].sequence < f.log[|f.log| - 1].sequence;
    }
  }

  lemma AppendKeepsInv(f: Feed, e: Event)
    requires Inv(f) && WellFormed(f.log + [e])
    ensures Inv(f.(log := f.log + [e]))
  {
    var g := f.(log := f.log + [e]);
    assert g.log[|f.log|] == e;
    assert f.cursor < e.sequence by {
      if f.log != [] {
        assert g.log[|f.log| - 1].sequence < g.log[|f.log|].sequence;
      }
    }
    forall i | 0 <= i < |g.log| && g.log[i].sequence <= g.cursor ensures g.log[i] in g.shown {
      assert g.log[i] == f.log[i];
    }
  }

  /** Sending, listing and failing a request leaves the list and the cursor alone. */
  lemma AskingKeepsInv(f: Feed, step: Step)
    requires Inv(f) && Next(f, step).Some? && (step.Asked? || step.Listed? || step.PollFailed?)
    ensures Inv(Next(f, step).value)
  {
    var g := Next(f, step).value;
    assert g.log == f.log && g.shown == f.shown && g.cursor == f.cursor && g.streamed == f.streamed;
    assert Consistent(g);
  }

  lemma NextKeepsInv(f: Feed, step: Step)
    requires Inv(f) && Next(f, step).Some? && !step.Dropped?
    ensures Inv(Next(f, step).value)
  {
    match step
    case Streamed => StreamKeepsInv(f);
    case Answered => AnswerKeepsInv(f);
    case Appended(e) => AppendKeepsInv(f, e);
    case _ => AskingKeepsInv(f, step);
  }

  /**
   For every interleaving of server appends, in-order stream frames, polled pages and failed polls, the
   list is sorted by run sequence, repeats no id, and holds every log event at or below the cursor.
   */
  lemma {:induction false} ViewStaysConsistent(f: Feed, steps: seq<Step>)
    requires Starts(f) || Inv(f)
    requires Play(f, steps).Some? && Dropped !in steps
    ensures Inv(Play(f, steps).value)
    decreases |steps|
  {
    if steps != [] {
      assert steps[0] in steps;
      NextKeepsInv(f, steps[0]);
      ViewStaysConsistent(Next(f, steps[0]).value, steps[1..]);
    }
  }

  predicate Rising(events: seq<Event>) {
    forall i, j | 0 <= i < j < |events| :: events[i].sequence < events[j].sequence
  }

  lemma {:induction false} RisingUnique(a: seq<Event>, b: seq<Event>)
    requires Rising(a) && Rising(b) && forall x :: x in a <==> x in b
    ensures a == b
  {
    if a != [] {
      var x := a[|a| - 1];
      assert x in b;
      var y := b[|b| - 1];
      assert y in a;
      assert x == y;
      var fa, fb := a[..|a| - 1], b[..|b| - 1];
      assert a == fa + [x] && b == fb + [y];
      forall z ensures z in fa <==> z in fb {
        assert z in a <==> z in b;
      }
      RisingUnique(fa, fb);
    } else if b != [] {
      SomeMember(b);
      assert false;
    }
  }

  lemma SomeMember(events: seq<Event>)
    requires events != []
    ensures exists e :: e in events
  {
    assert events[0] in events;
  }

  lemma ShownIsRising(shown: seq<Event>, log: seq<Event>)
    requires WellFormed(log) && Sorted(shown) && Distinct(shown) && forall e | e in shown :: e in log
    ensures Rising(shown)
  {
    forall i, j | 0 <= i < j < |shown| ensures shown[i].sequence < shown[j].sequence {
      assert shown[i] in shown && shown[j] in shown;
      var a :| 0 <= a < |log| && log[a] == shown[i];
      var b :| 0 <= b < |log| && log[b] == shown[j];
      assert a != b;
    }
  }

  // ------------------------------------------------ what dropped frames cost

  /** What survives dropped frames: everything but completeness. */
  ghost predicate Sound(f: Feed) {
    && WellFormed(f.log) && Sorted(f.shown) && Distinct(f.shown) && (forall e | e in f.shown :: e in f.log)
    && f.streamed <= |f.log| && (f.listed.Some? ==> Answerable(f))
  }

  /** The page asked for, as far as the server has listed it. */
  function Coming(f: Feed): seq<Event>
    requires f.asked.Some? && (f.listed.Some? ==> f.listed.value <= |f.log|)
  {
    Listing(if f.listed.Some? then f.log[..f.listed.value] else f.log, f.asked.value)
  }

  /** The request in flight brings this event. */
  predicate InFlight(f: Feed, e: Event) {
    f.asked.Some? && (f.listed.Some? ==> f.listed.value <= |f.log|) && e in Coming(f)
  }

  /** Passed by the stream and by the cursor, not on the page in flight, and not shown. */
  ghost predicate Missed(f: Feed, i: nat) {
    && Sound(f) && i < |f.log| && i < f.streamed && f.log[i].sequence <= f.cursor
    && !InFlight(f, f.log[i]) && f.log[i] !in f.shown
  }

  lemma SoundMembers(f: Feed, page: seq<Event>)
    requires Sound(f) && WellFormed(page) && forall x | x in page :: x in f.log
    ensures var shown := MergePage(f.shown, page);
      && Sorted(shown) && Distinct(shown) && (forall x | x in shown :: x in f.log)
      && forall x :: x in shown <==> x in f.shown || x in page
  {
    MergePageLaw(f.shown, page);
    forall x | x in page ensures NewId(f.shown, x.id) <==> x !in f.shown {
      IdNamesEvent(f, x);
    }
  }

  lemma ListingFacts(log: seq<Event>, after: int)
    requires WellFormed(log)
    ensures WellFormed(Listing(log, after)) && forall x | x in Listing(log, after) :: x in log && x.sequence > after
  {
    forall x | x in Listing(log, after) ensures x in log && x.sequence > after {
      ListedAbove(log, after, x);
    }
  }

  lemma ListedAbove(log: seq<Event>, after: int, x: Event)
    requires WellFormed(log) && x in Listing(log, after)
    ensures x in log && x.sequence > after
  {
    var n := Upto(log, after);
    var k :| 0 <= k < |Listing(log, after)| && Listing(log, after)[k] == x;
    UptoSplits(log, after, n + k);
  }

  /** A streamed frame adds its event, an answer adds its page; both leave a sound feed. */
  lemma SoundStreamed(f: Feed)
    requires Sound(f) && f.streamed < |f.log|
    ensures var g := Next(f, Streamed).value;
      Sound(g) && forall x :: x in g.shown <==> x in f.shown || x == f.log[f.streamed]
  {
    MergeOneIsPage(f.shown, f.log[f.streamed]);
    SoundMembers(f, [f.log[f.streamed]]);
  }

  lemma SoundAnswered(f: Feed)
    requires Sound(f) && Answerable(f)
    ensures var g := Next(f, Answered).value;
      Sound(g) && g.cursor >= f.cursor && forall x :: x in g.shown <==> x in f.shown || x in Coming(f)
  {
    SeenIsWellFormed(f);
    ListingFacts(Seen(f), f.asked.value);
    SoundMembers(f, Coming(f));
    CursorOnlyGrows(f.cursor, Coming(f));
  }

  lemma {:induction false} CursorOnlyGrows(cursor: int, page: seq<Event>)
    ensures MaxSequence(cursor, page) >= cursor
  {
    if page != [] {
      CursorOnlyGrows(cursor, page[..|page| - 1]);
    }
  }

  /** An append cannot put an old event on the page in flight. */
  lemma AppendedMisses(f: Feed, e: Event, i: nat)
    requires Missed(f, i) && WellFormed(f.log + [e])
    ensures Missed(f.(log := f.log + [e]), i)
  {
    var g := f.(log := f.log + [e]);
    assert g.log[i] == f.log[i];
    if f.asked.Some? {
      if f.listed.Some? {
        assert g.log[..f.listed.value] == f.log[..f.listed.value];
      } else if InFlight(g, f.log[i]) {
        PageOfLonger(f.log, e, f.asked.value, i);
      }
    }
  }

  lemma PageOfLonger(log: seq<Event>, e: Event, after: int, i: nat)
    requires WellFormed(log + [e]) && i < |log| && log[i] in Listing(log + [e], after)
    ensures log[i] in Listing(log, after)
  {
    var longer := log + [e];
    assert longer[i] == log[i];
    assert WellFormed(log) by {
      forall a, b | 0 <= a < b < |log| ensures log[a].sequence < log[b].sequence && log[a].id != log[b].id {
        assert longer[a] == log[a] && longer[b] == log[b];
      }
      forall a | 0 <= a < |log| ensures log[a].sequence >= 1 {
        assert longer[a] == log[a];
      }
    }
    ListedAbove(longer, after, log[i]);
    var n := Upto(longer, after);
    var k :| 0 <= k < |Listing(longer, after)| && Listing(longer, after)[k] == log[i];
    assert longer[n + k] == longer[i];
    assert n + k == i;
    UptoGrows(log, e, after);
    ListingCovers(log, after, i);
  }

  lemma UptoGrows(log: seq<Event>, e: Event, after: int)
    ensures Upto(log + [e], after) == if e.sequence <= after then |log| + 1 else Upto(log, after)
  {
    assert (log + [e])[..|log|] == log;
  }

  lemma MissedStep(f: Feed, step: Step, i: nat)
    requires Missed(f, i) && Next(f, step).Some?
    ensures Missed(Next(f, step).value, i) && Next(f, step).value.log[i] == f.log[i]
  {
    match step
    case Appended(e) => AppendedMisses(f, e, i);
    case Streamed =>
      SoundStreamed(f);
      assert f.log[f.streamed].id != f.log[i].id;
    case Answered => SoundAnswered(f);
    case Asked =>
      if InFlight(Next(f, step).value, f.log[i]) {
        ListedAbove(f.log, f.cursor, f.log[i]);
      }
    case Listed => assert f.log[..|f.log|] == f.log;
    case _ =>
  }

  lemma {:induction false} MissedForGood(f: Feed, steps: seq<Step>, i: nat)
    requires Missed(f, i) && Play(f, steps).Some?
    ensures Missed(Play(f, steps).value, i) && Play(f, steps).value.log[i] == f.log[i]
    decreases |steps|
  {
    if steps != [] {
      MissedStep(f, steps[0], i);
      MissedForGood(Next(f, steps[0]).value, steps[1..], i);
    }
  }

  /** Some continuation of the feed shows this event. */
  ghost predicate CanShow(f: Feed, e: Event) {
    exists steps :: Shows(f, steps, e)
  }

  predicate Shows(f: Feed, steps: seq<Step>, e: Event) {
    Play(f, steps).Some? && e in Play(f, steps).value.shown
  }

  lemma CanShowBefore(f: Feed, step: Step, e: Event)
    requires Next(f, step).Some? && CanShow(Next(f, step).value, e)
    ensures CanShow(f, e)
  {
    var steps :| Shows(Next(f, step).value, steps, e);
    assert ([step] + steps)[1..] == steps;
    assert Shows(f, [step] + steps, e);
  }

  lemma ShownCanShow(f: Feed, e: Event)
    requires e in f.shown
    ensures CanShow(f, e)
  {
    assert Shows(f, [], e);
  }

  /** What the stream has not passed, it delivers. */
  lemma {:induction false} StreamShows(f: Feed, i: nat)
    requires Sound(f) && f.streamed <= i < |f.log|
    ensures CanShow(f, f.log[i])
    decreases i - f.streamed
  {
    var g := Next(f, Streamed).value;
    SoundStreamed(f);
    if f.streamed == i {
      ShownCanShow(g, f.log[i]);
    } else {
      StreamShows(g, i);
    }
    CanShowBefore(f, Streamed, f.log[i]);
  }

  lemma FlightShows(f: Feed, e: Event)
    requires Sound(f) && InFlight(f, e)
    ensures CanShow(f, e)
  {
    var listed := if f.listed.Some? then f else Next(f, Listed).value;
    assert f.log[..|f.log|] == f.log;
    assert Coming(listed) == Coming(f);
    SoundAnswered(listed);
    ShownCanShow(Next(listed, Answered).value, e);
    CanShowBefore(listed, Answered, e);
    if f.listed.None? {
      CanShowBefore(f, Listed, e);
    }
  }

  /** What the cursor has not passed, polling reaches, page by page. */
  lemma {:induction false} PollingShows(f: Feed, i: nat)
    requires Sound(f) && f.asked.None? && i < |f.log| && f.cursor < f.log[i].sequence
    ensures CanShow(f, f.log[i])
    decreases |f.log| - Upto(f.log, f.cursor)
  {
    var asked := Next(f, Asked).value;
    if InFlight(asked, f.log[i]) {
      FlightShows(asked, f.log[i]);
    } else {
      var listed := Next(asked, Listed).value;
      var g := Next(listed, Answered).value;
      assert f.log[..|f.log|] == f.log;
      SoundAnswered(listed);
      PageAdvances(f.log, f.cursor, i);
      PollingShows(g, i);
      CanShowBefore(listed, Answered, f.log[i]);
      CanShowBefore(asked, Listed, f.log[i]);
    }
    CanShowBefore(f, Asked, f.log[i]);
  }

  /** A page that stops short of an event moves the cursor on, but not past it. */
  lemma PageAdvances(log: seq<Event>, cursor: int, i: nat)
    requires WellFormed(log) && i < |log| && cursor < log[i].sequence && log[i] !in Listing(log, cursor)
    ensures var c := MaxSequence(cursor, Listing(log, cursor));
      cursor <= c < log[i].sequence && Upto(log, c) > Upto(log, cursor)
  {
    var n := Upto(log, cursor);
    UptoSplits(log, cursor, i);
    if i < n + PAGE_LIMIT {
      ListingCovers(log, cursor, i);
    }
    var m := n + PAGE_LIMIT;
    MaxOfSlice(cursor, log, n, m);
    UptoSplits(log, cursor, m - 1);
    assert log[m - 1].sequence < log[i].sequence || m - 1 == i;
    UptoSplits(log, log[m - 1].sequence, m - 1);
  }

  /** An event is lost, that is, no continuation whatever shows it, if and only if it was missed. */
  lemma LostExactly(f: Feed, i: nat)
    requires Sound(f) && i < |f.log|
    ensures !CanShow(f, f.log[i]) <==> Missed(f, i)
  {
    var e := f.log[i];
    if Missed(f, i) {
      forall steps ensures !Shows(f, steps, e) {
        if Play(f, steps).Some? {
          MissedForGood(f, steps, i);
        }
      }
    } else if e in f.shown {
      ShownCanShow(f, e);
    } else if i >= f.streamed {
      StreamShows(f, i);
    } else if InFlight(f, e) {
      FlightShows(f, e);
    } else if f.asked.Some? {
      PollingShows(Next(f, PollFailed).value, i);
      CanShowBefore(f, PollFailed, e);
    } else {
      PollingShows(f, i);
    }
  }

  /** A frame is dropped and the one after it arrives. */
  function DropThenStream(f: Feed): Feed
    requires f.streamed + 1 < |f.log|
  {
    Next(Next(f, Dropped).value, Streamed).value
  }

  /**
   What that costs, exactly: the list stays complete up to the cursor if and only if the event was already
   shown, and the event is lost for good if and only if it was neither shown nor on the page in flight.
   */
  lemma DroppedFrameExactly(f: Feed)
    requires Inv(f) && f.streamed + 1 < |f.log|
    ensures var g := DropThenStream(f);
      var e := f.log[f.streamed];
      && (Consistent(g) <==> e in f.shown)
      && (!CanShow(g, e) <==> e !in f.shown && !InFlight(f, e))
  {
    var d := Next(f, Dropped).value;
    var g := DropThenStream(f);
    SoundStreamed(d);
    assert f.log[f.streamed].sequence < f.log[f.streamed + 1].sequence <= g.cursor;
    assert f.log[f.streamed].id != f.log[f.streamed + 1].id;
    LostExactly(g, f.streamed);
    if f.log[f.streamed] in f.shown {
      forall i | 0 <= i < |g.log| && g.log[i].sequence <= g.cursor ensures g.log[i] in g.shown {
        DropCovers(f, i);
      }
    }
  }

  lemma DropCovers(f: Feed, i: nat)
    requires Inv(f) && f.streamed + 1 < |f.log| && f.log[f.streamed] in f.shown
    requires i < |f.log| && f.log[i].sequence <= Max(f.cursor, f.log[f.streamed + 1].sequence)
    ensures f.log[i] in f.shown || i == f.streamed + 1
  {
    assert i > f.streamed + 1 ==> f.log[f.streamed + 1].sequence < f.log[i].sequence;
    if i < f.streamed {
      StreamedIsCovered(f, i);
    }
  }

  /** A run that loses an event: two events are appended, the first frame is dropped, the second arrives. */
  lemma DroppedFrameIsLost()
    ensures var (a, b) := (Event("a", "r", 1), Event("b", "r", 2));
      var start := Feed([], 0, [], 0, None, None);
      var r := Play(start, [Appended(a), Appended(b), Dropped, Streamed]);
      Starts(start) && r.Some? && r.value.cursor == 2 && !CanShow(r.value, a)
  {
    var (a, b) := (Event("a", "r", 1), Event("b", "r", 2));
    TwoAppended(a, b);
    DroppedFrameExactly(Feed([a, b], 0, [], 0, None, None));
  }

  /** One step of a run, and the rest of it. */
  lemma PlayStep(f: Feed, step: Step, rest: seq<Step>)
    requires Next(f, step).Some?
    ensures Play(f, [step] + rest) == Play(Next(f, step).value, rest)
  {
    assert ([step] + rest)[1..] == rest;
  }

  lemma WellFormedSnoc(log: seq<Event>, e: Event)
    requires WellFormed(log) && e.sequence >= 1
    requires forall x | x in log :: x.sequence < e.sequence && x.id != e.id
    ensures WellFormed(log + [e])
  {
    var longer := log + [e];
    forall i, j | 0 <= i < j < |longer|
      ensures longer[i].sequence < longer[j].sequence && longer[i].id != longer[j].id
    {
      assert longer[i] == log[i] && longer[i] in log;
    }
  }

  lemma PairOfTwo(a: Event, b: Event)
    requires 1 <= a.sequence < b.sequence && a.id != b.id
    ensures WellFormed([a]) && WellFormed([a, b]) && [] + [a] == [a] && [a] + [b] == [a, b]
  {
    JoinedOneByOne(a, b);
    WellFormedSnoc([], a);
    WellFormedSnoc([a], b);
  }

  lemma JoinedOneByOne(a: Event, b: Event)
    ensures [] + [a] == [a] && [a] + [b] == [a, b]
  {
  }

  lemma TwoAppended(a: Event, b: Event)
    requires 1 <= a.sequence < b.sequence && a.id != b.id
    ensures var (start, f) := (Feed([], 0, [], 0, None, None), Feed([a, b], 0, [], 0, None, None));
      Starts(start) && Inv(f) && Play(start, [Appended(a), Appended(b), Dropped, Streamed]) == Some(DropThenStream(f))
  {
    var start := Feed([], 0, [], 0, None, None);
    var f1 := Feed([a], 0, [], 0, None, None);
    var f2 := Feed([a, b], 0, [], 0, None, None);
    PairOfTwo(a, b);
    PlayStep(start, Appended(a), [Appended(b), Dropped, Streamed]);
    PlayStep(f1, Appended(b), [Dropped, Streamed]);
    PlayStep(f2, Dropped, [Streamed]);
    PlayStep(Next(f2, Dropped).value, Streamed, []);
    SplitOfFour(Appended(a), Appended(b), Dropped, Streamed);
  }

  lemma SplitOfFour(a: Step, b: Step, c: Step, d: Step)
    ensures [a, b, c, d] == [a] + [b, c, d] && [b, c, d] == [b] + [c, d] && [c, d] == [c] + [d] && [d] == [d] + []
  {
  }

  // ---------------------------------------------------- the end of a run

  /**
   A poll loop beside the run it follows. Each round asks for the status and for the events at once, and the
   server may serve the two in any order: `over` is whether the run is terminal, `told` the status that was
   served to the round in flight, `done` that the loop has returned and its stream is stopped.
   */
  datatype Watch = Watch(feed: Feed, over: bool, told: Option<bool>, done: bool)

  datatype WatchStep = Of(step: Step) | RunEnds | StatusServed

  /** A terminal run appends nothing, and a loop that has returned receives nothing. */
  function WatchNext(w: Watch, s: WatchStep): Option<Watch> {
    match s
    case RunEnds => if w.over then None else Some(w.(over := true))
    case StatusServed =>
      if w.done || w.feed.asked.None? || w.told.Some? then None else Some(w.(told := Some(w.over)))
    case Of(step) =>
      var f := Next(w.feed, step);
      if f.None? || (if step.Appended? then w.over else w.done) || (step.Answered? && w.told.None?) then None
      else
        Some(Watch(f.value, w.over,
                   if step.Asked? || step.Answered? || step.PollFailed? then None else w.told,
                   w.done || (step.Answered? && w.told == Some(true))))
  }

  function WatchPlay(w: Watch, steps: seq<WatchStep>): Option<Watch>
    decreases |steps|
  {
    if steps == [] then Some(w)
    else match WatchNext(w, steps[0])
      case None => None
      case Some(v) => WatchPlay(v, steps[1..])
  }

  ghost predicate WatchInv(w: Watch) {
    Inv(w.feed) && (w.told == Some(true) ==> w.over) && (w.done ==> w.over)
  }

  lemma WatchNextKeepsInv(w: Watch, s: WatchStep)
    requires WatchInv(w) && WatchNext(w, s).Some? && s != Of(Dropped)
    ensures WatchInv(WatchNext(w, s).value) && w.feed.log <= WatchNext(w, s).value.feed.log
    ensures w.over ==> WatchNext(w, s).value.over && WatchNext(w, s).value.feed.log == w.feed.log
  {
    if s.Of? {
      NextKeepsInv(w.feed, s.step);
    }
  }

  /** Over every run of the loop; and once the run is terminal its log is what it will always be. */
  lemma {:induction false} WatchKeepsInv(w: Watch, steps: seq<WatchStep>)
    requires WatchInv(w) && WatchPlay(w, steps).Some? && Of(Dropped) !in steps
    ensures WatchInv(WatchPlay(w, steps).value)
    ensures w.over ==> WatchPlay(w, steps).value.feed.log == w.feed.log
    decreases |steps|
  {
    if steps != [] {
      assert steps[0] in steps;
      WatchNextKeepsInv(w, steps[0]);
      WatchKeepsInv(WatchNext(w, steps[0]).value, steps[1..]);
    }
  }

  /** What an answer leaves is the whole log exactly when every event past its page was shown before. */
  lemma AnswerShowsLogExactly(f: Feed)
    requires Inv(f) && Answerable(f)
    ensures Next(f, Answered).value.shown == f.log
      <==> forall i | Reach(f) <= i < |f.log| :: f.log[i] in f.shown
  {
    var g := Next(f, Answered).value;
    AnswerMembers(f);
    if forall i | Reach(f) <= i < |f.log| :: f.log[i] in f.shown {
      forall i | 0 <= i < |f.log| ensures f.log[i] in g.shown {
        if i < Reach(f) {
          ReachedIsShown(f, i);
        }
      }
      ShownIsRising(g.shown, f.log);
      RisingUnique(g.shown, f.log);
    } else {
      var i :| Reach(f) <= i < |f.log| && f.log[i] !in f.shown;
      PastReach(f, i);
      assert f.log[i] in f.log;
    }
  }

  /** When a poll's page reached the end of the log, the list it leaves is the server log itself. */
  lemma UncutPageShowsLog(f: Feed)
    requires Inv(f) && Answerable(f) && Reach(f) == |f.log|
    ensures Next(f, Answered).value.shown == f.log
  {
    AnswerShowsLogExactly(f);
  }

  lemma ReachedIsShown(f: Feed, i: nat)
    requires Inv(f) && Answerable(f) && i < Reach(f)
    ensures f.log[i] in Next(f, Answered).value.shown
  {
    AnswerMembers(f);
    SeenIsWellFormed(f);
    if f.log[i].sequence > f.cursor {
      assert Seen(f)[i] == f.log[i];
      ListingCovers(Seen(f), f.asked.value, i);
    }
  }

  /** An event past the reach of the page is not on it. */
  lemma PastReach(f: Feed, i: nat)
    requires WellFormed(f.log) && Answerable(f) && Reach(f) <= i < |f.log|
    ensures f.log[i] !in Listing(Seen(f), f.asked.value)
  {
    var n := Upto(Seen(f), f.asked.value);
    forall k | n <= k < Reach(f) ensures Seen(f)[k] != f.log[i] {
      assert f.log[k].id != f.log[i].id;
    }
  }

  /**
   When the loop ends on a terminal status, the list it leaves is the run's whole log if and only if every
   event past its last page had been shown before: status and events are asked for together, and a run may
   append between the listing and the status.
   */
  lemma EndShowsLogExactly(w: Watch, later: seq<WatchStep>)
    requires WatchInv(w) && w.told == Some(true) && WatchNext(w, Of(Answered)).Some?
    ensures var end := WatchNext(w, Of(Answered)).value;
      && end.done && end.feed.log == w.feed.log
      && (WatchPlay(end, later).Some? ==> later == [])
      && (end.feed.shown == end.feed.log
          <==> forall i | Reach(w.feed) <= i < |w.feed.log| :: w.feed.log[i] in w.feed.shown)
  {
    AnswerShowsLogExactly(w.feed);
  }

  lemma WatchPlayStep(w: Watch, s: WatchStep, rest: seq<WatchStep>)
    requires WatchNext(w, s).Some?
    ensures WatchPlay(w, [s] + rest) == WatchPlay(WatchNext(w, s).value, rest)
  {
    assert ([s] + rest)[1..] == rest;
  }

  /** A run of one event whose loop ends without it: the listing is served first, then the event, then the status. */
  function EmptyEnd(a: Event): seq<WatchStep> {
    [Of(Asked), Of(Listed)] + ([Of(Appended(a)), RunEnds] + [StatusServed, Of(Answered)])
  }

  lemma LastEventIsNotShown()
    ensures var a := Event("a", "r", 1);
      var start := Watch(Feed([], 0, [], 0, None, None), false, None, false);
      var end := WatchPlay(start, EmptyEnd(a));
      WatchInv(start) && end.Some? && end.value.done && end.value.feed.log == [a] && end.value.feed.shown == []
  {
    var a := Event("a", "r", 1);
    var start := Watch(Feed([], 0, [], 0, None, None), false, None, false);
    var listed := Watch(Feed([], 0, [], 0, Some(0), Some(0)), false, None, false);
    var ended := Watch(Feed([a], 0, [], 0, Some(0), Some(0)), true, None, false);
    EmptyListing(start, listed, [Of(Appended(a)), RunEnds] + [StatusServed, Of(Answered)]);
    AppendsAndEnds(listed, ended, a, [StatusServed, Of(Answered)]);
    EmptyAnswer(ended);
  }

  lemma EmptyListing(start: Watch, listed: Watch, rest: seq<WatchStep>)
    requires start == Watch(Feed([], 0, [], 0, None, None), false, None, false)
    requires listed == Watch(Feed([], 0, [], 0, Some(0), Some(0)), false, None, false)
    ensures WatchPlay(start, [Of(Asked), Of(Listed)] + rest) == WatchPlay(listed, rest)
  {
    WatchPlayStep(start, Of(Asked), [Of(Listed)] + rest);
    WatchPlayStep(WatchNext(start, Of(Asked)).value, Of(Listed), rest);
    assert [Of(Asked), Of(Listed)] + rest == [Of(Asked)] + ([Of(Listed)] + rest);
  }

  lemma AppendsAndEnds(listed: Watch, ended: Watch, a: Event, rest: seq<WatchStep>)
    requires listed == Watch(Feed([], 0, [], 0, Some(0), Some(0)), false, None, false) && a.sequence >= 1
    requires ended == Watch(Feed([a], 0, [], 0, Some(0), Some(0)), true, None, false)
    ensures WatchPlay(listed, [Of(Appended(a)), RunEnds] + rest) == WatchPlay(ended, rest)
  {
    assert [] + [a] == [a];
    WatchPlayStep(listed, Of(Appended(a)), [RunEnds] + rest);
    WatchPlayStep(WatchNext(listed, Of(Appended(a))).value, RunEnds, rest);
    assert [Of(Appended(a)), RunEnds] + rest == [Of(Appended(a))] + ([RunEnds] + rest);
  }

  lemma EmptyAnswer(ended: Watch)
    requires ended.feed.asked == Some(0) && ended.feed.listed == Some(0) && ended.feed.shown == []
    requires ended.over && ended.told.None? && !ended.done
    ensures var end := WatchPlay(ended, [StatusServed, Of(Answered)]);
      end.Some? && end.value.done && end.value.feed.log == ended.feed.log && end.value.feed.shown == []
  {
    var told := WatchNext(ended, StatusServed).value;
    WatchPlayStep(ended, StatusServed, [Of(Answered)]);
    WatchPlayStep(told, Of(Answered), []);
    assert [StatusServed, Of(Answered)] == [StatusServed] + [Of(Answered)];
    assert [Of(Answered)] == [Of(Answered)] + [];
    assert Listing(Seen(told.feed), 0) == [];
  }
}
