/**
 Which run the Workbench shows (workbench.tsx): every user action that changes the selection takes a
 new generation, requests complete in any order and at any time, and a completion is applied only
 while its generation is still the current one. Each synchronous block between awaits is one step.
 */
module Selection {
  import opened Wrappers
  import opened EventView

  datatype Run = Run(id: string, turnId: string, status: string, workspace: Option<string>, replayOf: Option<string>)

  /** A step, piece of evidence, memory, conversation snapshot or claim: only its owner matters here. */
  datatype Record = Record(runId: string)

  datatype Artifact = Artifact(runId: string, workspace: string)

  datatype Parts = Parts(events: seq<Event>, steps: seq<Record>, evidence: seq<Record>, memories: seq<Record>,
                         conversation: seq<Record>, claims: seq<Record>, artifacts: seq<Artifact>)

  const NOTHING := Parts([], [], [], [], [], [], [])

  datatype Screen = Screen(generation: nat, workspace: Option<string>, run: Option<Run>, parts: Parts)

  predicate Terminal(status: string) {
    status == "COMPLETED" || status == "FAILED" || status == "CANCELLED"
  }

  /** `shouldPollRun`. */
  predicate ShouldPoll(run: Run) {
    !Terminal(run.status) && run.status != "WAITING_USER"
  }

  predicate RecordsOf(runId: string, records: seq<Record>) {
    forall r | r in records :: r.runId == runId
  }

  /** `assertInspectionOwnership` passes. */
  predicate Owned(run: Run, p: Parts) {
    && run.workspace.Some? && run.workspace.value != ""
    && (forall e | e in p.events :: e.runId == run.id)
    && RecordsOf(run.id, p.steps) && RecordsOf(run.id, p.evidence) && RecordsOf(run.id, p.memories)
    && RecordsOf(run.id, p.conversation) && RecordsOf(run.id, p.claims)
    && (forall a | a in p.artifacts :: a.runId == run.id && a.workspace == run.workspace.value)
  }

  /** A request or poll loop in flight, with everything it captured when it began. */
  datatype Op =
    | OpenRun(generation: nat, workspace: Option<string>, runId: string)
    | OpenThread(generation: nat, workspace: Option<string>)
    | Submit(generation: nat, workspace: Option<string>)
    | Replay(generation: nat, workspace: Option<string>, target: Run)
    | Cancel(generation: nat, workspace: Option<string>, runId: string)
    | Clarify(generation: nat, workspace: Option<string>, target: Run)
    | Poll(generation: nat, workspace: Option<string>, runId: string)

  /** `streams`: the poll loops whose frames may still arrive, which outlive the loop until they are stopped. */
  datatype System = System(screen: Screen, ops: set<Op>, streams: set<Op>)

  datatype Action =
    | SelectWorkspace(workspace: Option<string>)                    // also a reset of the thread
    | BeginOpenRun(runId: string)
    | BeginOpenThread(keepsProjection: bool)
    | BeginSubmit | BeginReplay(target: Run) | BeginCancel | BeginClarify
    | Loaded(op: Op, run: Option<Run>, turnId: string, parts: Parts) // the responses of op, when they all arrived
    | Gone(op: Op)                                                   // an error, or a poll loop that returns
    | Frame(op: Op, event: Event)                                    // a stream frame delivered to a poll loop
    | Stopped(op: Op)                                                // its stream, once its promise has resolved

  function Begin(sys: System, op: Op): System
    requires op.generation == sys.screen.generation + 1
  {
    sys.(screen := sys.screen.(generation := op.generation), ops := sys.ops + {op})
  }

  function Cleared(s: Screen): Screen {
    s.(run := None, parts := NOTHING)
  }

  /** The op is over; under its generation the screen becomes `s`, and polling starts if the run wants it. */
  function Settle(sys: System, op: Op, s: Screen): System {
    var next := if s.run.Some? && ShouldPoll(s.run.value) && !op.Cancel?
      then {Poll(op.generation, op.workspace, s.run.value.id)} else {};
    System(s, sys.ops - {op} + next, sys.streams + next)
  }

  function Ended(sys: System, op: Op): System {
    sys.(ops := sys.ops - {op})
  }

  /** A run that may replace the one shown: it belongs to the workspace the op captured. */
  predicate InWorkspace(run: Option<Run>, op: Op) {
    run.Some? && op.workspace.Some? && run.value.workspace == op.workspace
  }

  /** What a completed request does; a stale generation or a failed ownership check leaves the screen alone. */
  function Apply(sys: System, op: Op, run: Option<Run>, turnId: string, parts: Parts): System {
    var s := sys.screen;
    if op.generation != s.generation then Ended(sys, op)
    else match op
      case OpenRun(_, _, runId) =>
        if InWorkspace(run, op) && run.value.id == runId && Owned(run.value, parts)
        then Settle(sys, op, s.(run := run, parts := parts)) else Ended(sys, op)
      case OpenThread(_, _) =>
        if run.None? then Settle(sys, op, Cleared(s))
        else if InWorkspace(run, op) && Owned(run.value, parts) then Settle(sys, op, s.(run := run, parts := parts))
        else Ended(sys, op)
      case Submit(_, _) =>
        if InWorkspace(run, op) && run.value.turnId == turnId
        then Settle(sys, op, s.(run := run, parts := NOTHING)) else Ended(sys, op)
      case Replay(_, _, target) =>
        if InWorkspace(run, op) && run.value.replayOf == Some(target.id) && run.value.turnId == target.turnId
        then Settle(sys, op, s.(run := run, parts := NOTHING)) else Ended(sys, op)
      case Cancel(_, _, runId) =>
        if InWorkspace(run, op) && run.value.id == runId
        then Settle(sys, op, s.(run := run)) else Ended(sys, op)
      case Clarify(_, _, target) =>
        if InWorkspace(run, op) && run.value.id == target.id && run.value.turnId == target.turnId
        then Settle(sys, op, s.(run := run)) else Ended(sys, op)
      case Poll(_, _, runId) =>
        if InWorkspace(run, op) && run.value.id == runId && Owned(run.value, parts)
        then Settle(sys, op, s.(run := run, parts := parts.(events := MergePage(s.parts.events, parts.events))))
        else sys  // the failure is counted and the loop goes on
  }

  function Next(sys: System, e: Action): Option<System> {
    var s := sys.screen;
    var g := s.generation + 1;
    match e
    case SelectWorkspace(workspace) =>
      Some(sys.(screen := Cleared(s).(generation := g, workspace := workspace)))
    case BeginOpenRun(runId) => Some(Begin(sys, OpenRun(g, s.workspace, runId)))
    case BeginOpenThread(keepsProjection) =>
      if s.workspace.None? then None
      else Some(Begin(if keepsProjection then sys else sys.(screen := Cleared(s)), OpenThread(g, s.workspace)))
    case BeginSubmit =>
      if s.workspace.None? || (s.run.Some? && !Terminal(s.run.value.status)) then None
      else Some(Begin(sys, Submit(g, s.workspace)))
    case BeginReplay(target) =>
      if s.workspace.None? || !Terminal(target.status) || (s.run.Some? && !Terminal(s.run.value.status))
         || target.workspace != s.workspace then None
      else Some(Begin(sys, Replay(g, s.workspace, target)))
    case BeginCancel =>
      if s.run.None? || Terminal(s.run.value.status) then None
      else Some(Begin(sys, Cancel(g, s.workspace, s.run.value.id)))
    case BeginClarify =>
      if s.workspace.None? || s.run.None? || s.run.value.status != "WAITING_USER" then None
      else Some(Begin(sys, Clarify(g, s.workspace, s.run.value)))
    case Loaded(op, run, turnId, parts) =>
      if op in sys.ops then Some(Apply(sys, op, run, turnId, parts)) else None
    case Gone(op) =>
      if op in sys.ops then Some(Ended(sys, op)) else None
    case Frame(op, event) =>
      if op !in sys.streams || !op.Poll? then None
      else if op.generation != s.generation || event.runId != op.runId then Some(sys)
      else Some(sys.(screen := s.(parts := s.parts.(events := MergeOne(s.parts.events, event)))))
    case Stopped(op) => Some(sys.(streams := sys.streams - {op}))
  }

  const START := System(Screen(0, None, None, NOTHING), {}, {})

  function Play(sys: System, actions: seq<Action>): Option<System>
    decreases |actions|
  {
    if actions == [] then Some(sys)
    else match Next(sys, actions[0])
      case None => None
      case Some(sys') => Play(sys', actions[1..])
  }

  // -------------------------------------------------------------- invariant

  /** Everything on the screen belongs to the run shown, and that run to the workspace shown. */
  predicate Coherent(s: Screen) {
    match s.run
    case None => s.parts == NOTHING
    case Some(run) => Owned(run, s.parts) && run.workspace == s.workspace
  }

  /** What an op under the current generation still assumes is true of the screen. */
  predicate StillHolds(s: Screen, op: Op) {
    && op.workspace == s.workspace
    && (op.Cancel? || op.Poll? ==> s.run.Some? && s.run.value.id == op.runId)
    && (op.Clarify? ==> s.run.Some? && s.run.value.id == op.target.id)
  }

  ghost predicate Inv(sys: System) {
    && Coherent(sys.screen)
    && (sys.screen.workspace.Some? ==> sys.screen.workspace.value != "")
    && (forall op | op in sys.ops :: op.generation <= sys.screen.generation)
    && (forall op | op in sys.ops && op.generation == sys.screen.generation :: StillHolds(sys.screen, op))
    && (forall op | op in sys.streams :: op.Poll? && op.generation <= sys.screen.generation)
    && (forall op | op in sys.streams && op.generation == sys.screen.generation :: StillHolds(sys.screen, op))
    && (forall a, b | a in sys.ops + sys.streams && b in sys.ops + sys.streams
          && a.generation == b.generation == sys.screen.generation :: a == b)
  }

  lemma MergeKeepsOwner(previous: seq<Event>, incoming: seq<Event>, runId: string)
    requires forall e | e in previous + incoming :: e.runId == runId
    ensures forall e | e in MergePage(previous, incoming) :: e.runId == runId
  {
    forall e | e in MergePage(previous, incoming) ensures e.runId == runId {
      SortMembers(previous + Unknown(previous, incoming), e);
      UnknownMembers(previous, incoming, e);
      assert e in previous + incoming;
    }
  }

  lemma MergeOneKeepsOwner(previous: seq<Event>, event: Event)
    requires forall e | e in previous :: e.runId == event.runId
    ensures forall e | e in MergeOne(previous, event) :: e.runId == event.runId
  {
    forall e | e in MergeOne(previous, event) ensures e.runId == event.runId {
      SortMembers(previous + [event], e);
    }
  }

  /** An op that ends leaves its generation free, or to the poll loop it starts. */
  lemma SettleKeepsInv(sys: System, op: Op, s: Screen)
    requires Inv(sys) && op in sys.ops && op.generation == sys.screen.generation
    requires s.generation == sys.screen.generation && s.workspace == sys.screen.workspace && Coherent(s)
    requires op.Poll? ==> s.run.Some? && s.run.value.id == op.runId
    ensures Inv(Settle(sys, op, s))
  {
  }

  lemma ApplyKeepsInv(sys: System, op: Op, run: Option<Run>, turnId: string, parts: Parts)
    requires Inv(sys) && op in sys.ops
    ensures Inv(Apply(sys, op, run, turnId, parts))
  {
    var s := sys.screen;
    if op.generation == s.generation {
      assert StillHolds(s, op);
      if op.Poll? {
        if InWorkspace(run, op) && run.value.id == op.runId && Owned(run.value, parts) {
          MergeKeepsOwner(s.parts.events, parts.events, run.value.id);
          SettleKeepsInv(sys, op, s.(run := run, parts := parts.(events := MergePage(s.parts.events, parts.events))));
        }
      } else if op.OpenThread? && run.None? {
        SettleKeepsInv(sys, op, Cleared(s));
      } else if Apply(sys, op, run, turnId, parts) != Ended(sys, op) {
        SettleKeepsInv(sys, op, Apply(sys, op, run, turnId, parts).screen);
      }
    }
  }

  /** A new action outdates every op in flight. */
  lemma BeginKeepsInv(sys: System, op: Op, s: Screen)
    requires Inv(sys) && Coherent(s) && s.generation == sys.screen.generation && s.workspace == sys.screen.workspace
    requires op.generation == s.generation + 1 && StillHolds(s, op)
    ensures Inv(Begin(sys.(screen := s), op))
  {
  }

  lemma FrameKeepsInv(sys: System, op: Op, event: Event)
    requires Inv(sys) && op in sys.streams && op.Poll?
    ensures Inv(Next(sys, Frame(op, event)).value)
  {
    if op.generation == sys.screen.generation && event.runId == op.runId {
      assert StillHolds(sys.screen, op);
      MergeOneKeepsOwner(sys.screen.parts.events, event);
    }
  }

  lemma SelectKeepsInv(sys: System, workspace: Option<string>)
    requires Inv(sys) && (workspace.Some? ==> workspace.value != "")
    ensures Inv(Next(sys, SelectWorkspace(workspace)).value)
  {
  }

  lemma EndedKeepsInv(sys: System, op: Op)
    requires Inv(sys)
    ensures Inv(Ended(sys, op))
  {
  }

  lemma StoppedKeepsInv(sys: System, op: Op)
    requires Inv(sys)
    ensures Inv(sys.(streams := sys.streams - {op}))
  {
  }

  predicate NamesWorkspace(e: Action) {
    e.SelectWorkspace? && e.workspace.Some? ==> e.workspace.value != ""
  }

  predicate BeginsOp(e: Action) {
    e.BeginOpenRun? || e.BeginOpenThread? || e.BeginSubmit? || e.BeginReplay? || e.BeginCancel? || e.BeginClarify?
  }

  /** The op a user action puts in flight, and the screen it leaves apart from the generation. */
  function Begun(sys: System, e: Action): (Op, Screen)
    requires BeginsOp(e) && Next(sys, e).Some?
  {
    var s := sys.screen;
    var g := s.generation + 1;
    match e
    case BeginOpenRun(runId) => (OpenRun(g, s.workspace, runId), s)
    case BeginOpenThread(keeps) => (OpenThread(g, s.workspace), if keeps then s else Cleared(s))
    case BeginSubmit => (Submit(g, s.workspace), s)
    case BeginReplay(target) => (Replay(g, s.workspace, target), s)
    case BeginCancel => (Cancel(g, s.workspace, s.run.value.id), s)
    case BeginClarify => (Clarify(g, s.workspace, s.run.value), s)
  }

  lemma BegunIsNext(sys: System, e: Action)
    requires BeginsOp(e) && Next(sys, e).Some?
    ensures var (op, s) := Begun(sys, e);
      && op.generation == sys.screen.generation + 1 && s.generation == sys.screen.generation
      && Next(sys, e).value == Begin(sys.(screen := s), op)
      && s.workspace == sys.screen.workspace && (s == sys.screen || s == Cleared(sys.screen))
      && StillHolds(s, op)
  {
  }

  lemma NextKeepsInv(sys: System, e: Action)
    requires Inv(sys) && Next(sys, e).Some? && NamesWorkspace(e)
    ensures Inv(Next(sys, e).value)
  {
    match e
    case SelectWorkspace(workspace) => SelectKeepsInv(sys, workspace);
    case Loaded(op, run, turnId, parts) => ApplyKeepsInv(sys, op, run, turnId, parts);
    case Gone(op) => EndedKeepsInv(sys, op);
    case Frame(op, event) => FrameKeepsInv(sys, op, event);
    case Stopped(op) => StoppedKeepsInv(sys, op);
    case _ =>
      BegunIsNext(sys, e);
      BeginKeepsInv(sys, Begun(sys, e).0, Begun(sys, e).1);
  }

  /**
   In every reachable state, however completions, stream frames and user actions interleave, the events,
   steps, evidence, memories, conversation, claims and artifacts shown all belong to the run shown, which
   belongs to the workspace shown.
   */
  lemma {:induction false} ScreenStaysCoherent(sys: System, actions: seq<Action>)
    requires (sys == START || Inv(sys)) && Play(sys, actions).Some?
    requires forall e | e in actions :: NamesWorkspace(e)
    ensures Inv(Play(sys, actions).value) && Coherent(Play(sys, actions).value.screen)
    decreases |actions|
  {
    if actions != [] {
      assert actions[0] in actions;
      NextKeepsInv(sys, actions[0]);
      ScreenStaysCoherent(Next(sys, actions[0]).value, actions[1..]);
    }
  }

  lemma {:induction false} GenerationsOnlyGrow(sys: System, actions: seq<Action>)
    requires Play(sys, actions).Some?
    ensures sys.screen.generation <= Play(sys, actions).value.screen.generation
    decreases |actions|
  {
    if actions != [] {
      GenerationsOnlyGrow(Next(sys, actions[0]).value, actions[1..]);
    }
  }

  /**
   Once the user has acted again, nothing that began before changes the screen: not its responses, not
   its stream frames, not its failure, however much later they come.
   */
  lemma OutdatedChangesNothing(sys: System, op: Op, actions: seq<Action>, e: Action)
    requires op.generation < sys.screen.generation && Play(sys, actions).Some?
    requires (e.Loaded? || e.Gone? || e.Frame? || e.Stopped?) && e.op == op
    requires Next(Play(sys, actions).value, e).Some?
    ensures Next(Play(sys, actions).value, e).value.screen == Play(sys, actions).value.screen
  {
    GenerationsOnlyGrow(sys, actions);
  }
}
