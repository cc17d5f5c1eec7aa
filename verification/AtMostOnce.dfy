/**
 The whole delivery protocol for one delivery id: the control-plane row, every lease holder that
 was ever granted (Outbox workers and bridges), what the vendor did with each write, and every
 report ever sent. A report is never taken out of the network, so it may arrive late, twice or not
 at all; a holder that crashed is one that takes no further step; clocks are unconstrained.
 */
module AtMostOnce {
  import opened Wrappers
  import opened Text
  import opened VendorClients
  import CP = ControlPlane
  import Senders

  /** What has become of a holder's vendor write. An in-flight write may still be accepted at any time. */
  datatype Write = NotPosted | InFlight | Accepted | Refused

  datatype Stage = Leased | Posted | Done(outcome: Outcome)

  datatype Holder = Holder(
    actor: Actor, vendor: Vendor, message: Message, worker: string, generation: nat, stage: Stage, write: Write)

  datatype Cell = Cell(row: Option<CP.Delivery>, holders: seq<Holder>, reports: set<CP.Report>)

  /** Assumptions about the world that a run may or may not be held to. */
  datatype Rules = Rules(
    truthfulReceipts: bool,       // a vendor message id, seen or confirmed, is only issued for an accepted write
    settledReconciliation: bool)  // while attempts are left, only what can no longer be accepted is confirmed as unsent

  datatype Event =
    | Enqueued(id: string, now: real, permitted: bool, trusted: bool) // by the control plane, leased to nobody
    | Prepared(id: string, worker: string, now: real, permitted: bool, trusted: bool, vendor: Vendor, message: Message)
    | Claimed(worker: string, now: real, permitted: bool, vendor: Vendor, message: Message)
    | LeaseExpired(now: real)
    | EndedBeforePost(i: nat, auth: Auth)
    | PostedBy(i: nat, auth: Auth)
    | VendorDecided(i: nat, accepted: bool)
    | Answered(i: nat, reply: Reply)
    | CompletionLost(i: nat)
    | Reported(report: CP.Report, now: real, permitted: bool)
    | Reconciled(sent: bool, evidence: string, receipt: string, now: real, permitted: bool)

  /** The first report a fenced holder makes after an outcome. */
  function FirstReport(actor: Actor, o: Outcome, generation: nat, worker: string): CP.Report {
    Senders.ReportOf(actor, o, Some(generation), Some(worker))
  }

  /** HTTP 429 means the write was not accepted; a receipt, under truthful receipts, that it was. */
  predicate VendorContract(rules: Rules, write: Write, o: Outcome) {
    && (o.RateLimited? ==> write.Refused?)
    && (rules.truthfulReceipts && o.Receipt? ==> write.Accepted?)
  }

  /** This holder's write was not accepted and never will be. */
  predicate Harmless(h: Holder) {
    h.write.Refused? || (h.write.NotPosted? && (h.stage.Done? || !Addressed(h.vendor, h.message)))
  }

  predicate AllHarmless(holders: seq<Holder>) {
    forall h | h in holders :: Harmless(h)
  }

  predicate LastAccepted(holders: seq<Holder>) {
    holders != [] && holders[|holders| - 1].write.Accepted?
  }

  /** One atomic step; None when the event cannot happen in this state. */
  function Next(s: CP.Settings, rules: Rules, c: Cell, e: Event): Option<Cell> {
    match e
    case Enqueued(id, now, permitted, trusted) =>
      var r := CP.Prepare(s, c.row, id, None, now, permitted, trusted);
      if r.Ok? then Some(c.(row := Some(r.value))) else None
    case Prepared(id, worker, now, permitted, trusted, vendor, message) =>
      var r := CP.Prepare(s, c.row, id, Some(worker), now, permitted, trusted);
      if r.Err? then None
      else if r.value.status.Sent? then Some(c.(row := Some(r.value)))
      else Some(Granted(c, r.value, Bridge, vendor, message, worker))
    case Claimed(worker, now, permitted, vendor, message) =>
      if c.row.None? then None
      else
        var r := CP.Claim(s, c.row.value, worker, now, permitted);
        if r.Err? then None
        else if r.value.status.Processing? then Some(Granted(c, r.value, Worker, vendor, message, worker))
        else Some(c.(row := Some(r.value)))
    case LeaseExpired(now) =>
      if c.row.None? then None else Some(c.(row := Some(CP.Expire(c.row.value, now))))
    case EndedBeforePost(i, auth) =>
      if i < |c.holders| && c.holders[i].stage.Leased? && !Posts(c.holders[i].vendor, c.holders[i].message, auth)
      then Some(Finish(c, i, BeforePost(c.holders[i].vendor, c.holders[i].message, auth)))
      else None
    case PostedBy(i, auth) =>
      if i < |c.holders| && c.holders[i].stage.Leased? && Posts(c.holders[i].vendor, c.holders[i].message, auth)
      then Some(c.(holders := c.holders[i := c.holders[i].(stage := Posted, write := InFlight)]))
      else None
    case VendorDecided(i, accepted) =>
      if i < |c.holders| && c.holders[i].write.InFlight?
      then Some(c.(holders := c.holders[i := c.holders[i].(write := if accepted then Accepted else Refused)]))
      else None
    case Answered(i, reply) =>
      if i < |c.holders| && c.holders[i].stage.Posted?
      then
        var o := AfterPost(c.holders[i].vendor, c.holders[i].message, reply);
        if VendorContract(rules, c.holders[i].write, o) then Some(Finish(c, i, o)) else None
      else None
    case CompletionLost(i) =>
      if i < |c.holders| && c.holders[i].stage.Done? && c.holders[i].stage.outcome.Receipt?
      then
        var h := c.holders[i];
        Some(c.(reports := c.reports + {CP.OutcomeUnknown(Some(h.generation), Some(h.worker))}))
      else None
    case Reported(report, now, permitted) =>
      if c.row.None? || report !in c.reports then None
      else
        var r := CP.Apply(s, c.row.value, report, now, permitted);
        if r.Ok? then Some(c.(row := Some(r.value))) else None
    case Reconciled(sent, evidence, receipt, now, permitted) =>
      if c.row.None? then None
      else if sent && rules.truthfulReceipts && !LastAccepted(c.holders) then None
      else if !sent && rules.settledReconciliation
              && c.row.value.sendAttempts < s.maxAttempts && !AllHarmless(c.holders) then None
      else
        var r := CP.Reconcile(s, c.row.value, sent, evidence, receipt, now, permitted);
        if r.Ok? then Some(c.(row := Some(r.value))) else None
  }

  function Granted(c: Cell, row: CP.Delivery, actor: Actor, vendor: Vendor, message: Message, worker: string): Cell {
    Cell(Some(row), c.holders + [Holder(actor, vendor, message, worker, row.generation, Leased, NotPosted)], c.reports)
  }

  function Finish(c: Cell, i: nat, o: Outcome): Cell
    requires i < |c.holders|
  {
    var h := c.holders[i];
    c.(holders := c.holders[i := h.(stage := Done(o))],
       reports := c.reports + {FirstReport(h.actor, o, h.generation, h.worker)})
  }

  const EMPTY := Cell(None, [], {})

  /** The state after a run from `c`, or None when some event of it cannot happen. */
  function Run(s: CP.Settings, rules: Rules, c: Cell, events: seq<Event>): Option<Cell>
    decreases |events|
  {
    if events == [] then Some(c)
    else match Next(s, rules, c, events[0])
      case None => None
      case Some(c') => Run(s, rules, c', events[1..])
  }

  function AcceptedWrites(holders: seq<Holder>): nat {
    if holders == [] then 0
    else AcceptedWrites(holders[..|holders| - 1]) + if holders[|holders| - 1].write.Accepted? then 1 else 0
  }

  /** The row may be leased again without any further report. */
  predicate Reclaimable(d: CP.Delivery) {
    d.status.Pending? || (d.status.Failed? && (d.nextAttempt.Some? || d.sendAttempts == 0))
  }

  // -------------------------------------------------------------- invariant

  ghost predicate HolderOk(rules: Rules, h: Holder) {
    && (h.stage.Leased? ==> h.write.NotPosted?)
    && (h.stage.Posted? ==> !h.write.NotPosted?)
    && (h.stage.Done? && ReportsRetryable(h.actor, h.stage.outcome) ==> Harmless(h))
    && (h.stage.Done? && h.stage.outcome.Receipt? && rules.truthfulReceipts ==> h.write.Accepted?)
  }

  /** Every report in the network was made by the holder it names, after that holder was done. */
  ghost predicate ReportOk(c: Cell, r: CP.Report) {
    && r.generation.Some? && 1 <= r.generation.value <= |c.holders|
    && var h := c.holders[r.generation.value - 1];
    && r.worker == Some(h.worker)
    && h.stage.Done?
    && (r.DeliveryFailed? && r.retryable ==> Harmless(h))
    && (r.Completed? ==> h.stage.outcome.Receipt?)
  }

  /** Holders are numbered by generation, and all but the last are harmless. */
  ghost predicate HoldersOk(rules: Rules, holders: seq<Holder>) {
    && (forall i | 0 <= i < |holders| :: holders[i].generation == i + 1 && HolderOk(rules, holders[i]))
    && (forall i | 0 <= i < |holders| - 1 :: Harmless(holders[i]))
  }

  ghost predicate RowOk(rules: Rules, d: CP.Delivery, holders: seq<Holder>) {
    && CP.ValidRow(d)
    && d.generation == |holders|
    && (Reclaimable(d) ==> AllHarmless(holders))
    && (d.status.Sent? && rules.truthfulReceipts ==> LastAccepted(holders))
  }

  ghost predicate Inv(rules: Rules, c: Cell) {
    && (c.row.None? ==> c.holders == [] && c.reports == {})
    && HoldersOk(rules, c.holders)
    && (forall r | r in c.reports :: ReportOk(c, r))
    && (c.row.Some? ==> RowOk(rules, c.row.value, c.holders))
  }

  lemma GrantKeepsInv(rules: Rules, c: Cell, row: CP.Delivery, actor: Actor, vendor: Vendor, message: Message,
                      worker: string)
    requires Inv(rules, c) && AllHarmless(c.holders)
    requires CP.ValidRow(row) && row.generation == |c.holders| + 1 && row.status.Processing?
    ensures Inv(rules, Granted(c, row, actor, vendor, message, worker))
  {
    var c' := Granted(c, row, actor, vendor, message, worker);
    forall r | r in c'.reports ensures ReportOk(c', r) {
      assert ReportOk(c, r);
    }
  }

  /** A holder may be replaced by a later stage of itself, as long as nothing harmless turns harmful. */
  lemma HolderStepKeepsInv(rules: Rules, c: Cell, i: nat, h: Holder)
    requires Inv(rules, c) && i < |c.holders|
    requires h.generation == c.holders[i].generation && h.worker == c.holders[i].worker && HolderOk(rules, h)
    requires Harmless(c.holders[i]) ==> Harmless(h)
    requires c.holders[i].stage.Done? ==> h.stage == c.holders[i].stage
    requires c.holders[i].write.Accepted? ==> h.write.Accepted?
    ensures Inv(rules, c.(holders := c.holders[i := h]))
  {
    HoldersStayOk(rules, c.holders, i, h);
    if c.row.Some? {
      RowStaysOk(rules, c.row.value, c.holders, i, h);
    }
    forall r | r in c.reports ensures ReportOk(c.(holders := c.holders[i := h]), r) {
      ReportStaysOk(c, i, h, r);
    }
  }

  lemma HoldersStayOk(rules: Rules, holders: seq<Holder>, i: nat, h: Holder)
    requires HoldersOk(rules, holders) && i < |holders| && HolderOk(rules, h)
    requires h.generation == holders[i].generation && (Harmless(holders[i]) ==> Harmless(h))
    ensures HoldersOk(rules, holders[i := h])
  {
  }

  lemma RowStaysOk(rules: Rules, d: CP.Delivery, holders: seq<Holder>, i: nat, h: Holder)
    requires RowOk(rules, d, holders) && i < |holders| && (Harmless(holders[i]) ==> Harmless(h))
    requires holders[i].write.Accepted? ==> h.write.Accepted?
    ensures RowOk(rules, d, holders[i := h])
  {
    if AllHarmless(holders) {
      StaysAllHarmless(holders, i, h);
    }
  }

  lemma ReportStaysOk(c: Cell, i: nat, h: Holder, r: CP.Report)
    requires ReportOk(c, r) && i < |c.holders|
    requires h.worker == c.holders[i].worker && (Harmless(c.holders[i]) ==> Harmless(h))
    requires c.holders[i].stage.Done? ==> h.stage == c.holders[i].stage
    ensures ReportOk(c.(holders := c.holders[i := h]), r)
  {
  }

  lemma StaysAllHarmless(holders: seq<Holder>, i: nat, h: Holder)
    requires AllHarmless(holders) && i < |holders| && (Harmless(holders[i]) ==> Harmless(h))
    ensures AllHarmless(holders[i := h])
  {
    assert Harmless(h) by {
      assert holders[i] in holders;
    }
    forall x | x in holders[i := h] ensures Harmless(x) {
      assert x in holders || x == h;
    }
  }

  lemma FinishKeepsInv(rules: Rules, c: Cell, i: nat, o: Outcome)
    requires Inv(rules, c) && i < |c.holders| && !c.holders[i].stage.Done?
    requires HolderOk(rules, c.holders[i].(stage := Done(o)))
    ensures Inv(rules, Finish(c, i, o))
  {
    var h := c.holders[i].(stage := Done(o));
    HolderStepKeepsInv(rules, c, i, h);
    var c' := Finish(c, i, o);
    forall r | r in c'.reports ensures ReportOk(c', r) {
      if r in c.reports {
        assert ReportOk(c.(holders := c.holders[i := h]), r);
      }
    }
  }

  lemma ReportedKeepsInv(s: CP.Settings, rules: Rules, c: Cell, report: CP.Report, now: real, permitted: bool)
    requires Inv(rules, c) && c.row.Some? && report in c.reports
    requires CP.Apply(s, c.row.value, report, now, permitted).Ok?
    ensures Inv(rules, c.(row := Some(CP.Apply(s, c.row.value, report, now, permitted).value)))
  {
    var d := c.row.value;
    var d' := CP.Apply(s, d, report, now, permitted).value;
    assert ReportOk(c, report);
    CP.ReportKeepsValid(s, d, report, now, permitted);
    if d' != d {
      CP.OnlyHolderChangesRow(s, d, now, report, permitted);
      var last := c.holders[|c.holders| - 1];
      if Reclaimable(d') {
        assert report.DeliveryFailed? && report.retryable && Harmless(last);
      }
    }
    var c' := c.(row := Some(d'));
    forall r | r in c'.reports ensures ReportOk(c', r) {
      assert ReportOk(c, r);
    }
  }

  lemma RowStepKeepsInv(rules: Rules, c: Cell, d: CP.Delivery)
    requires Inv(rules, c) && c.row.Some? && CP.ValidRow(d) && d.generation == |c.holders|
    requires Reclaimable(d) ==> AllHarmless(c.holders)
    requires d.status.Sent? && rules.truthfulReceipts ==> LastAccepted(c.holders)
    ensures Inv(rules, c.(row := Some(d)))
  {
    var c' := c.(row := Some(d));
    forall r | r in c'.reports ensures ReportOk(c', r) {
      assert ReportOk(c, r);
    }
  }

  lemma EnqueuedKeepsInv(s: CP.Settings, rules: Rules, c: Cell, e: Event)
    requires Inv(rules, c) && e.Enqueued? && Next(s, rules, c, e).Some?
    ensures Inv(rules, Next(s, rules, c, e).value)
  {
    CP.PrepareKeepsValid(s, c.row, e.id, None, e.now, e.permitted, e.trusted);
    var d := CP.Prepare(s, c.row, e.id, None, e.now, e.permitted, e.trusted).value;
    if c.row.Some? {
      RowStepKeepsInv(rules, c, d);
    }
  }

  lemma PreparedKeepsInv(s: CP.Settings, rules: Rules, c: Cell, e: Event)
    requires Inv(rules, c) && e.Prepared? && Next(s, rules, c, e).Some?
    ensures Inv(rules, Next(s, rules, c, e).value)
  {
    CP.PrepareKeepsValid(s, c.row, e.id, Some(e.worker), e.now, e.permitted, e.trusted);
    var d := CP.Prepare(s, c.row, e.id, Some(e.worker), e.now, e.permitted, e.trusted).value;
    if d.status.Sent? {
      RowStepKeepsInv(rules, c, d);
    } else {
      GrantKeepsInv(rules, c, d, Bridge, e.vendor, e.message, e.worker);
    }
  }

  lemma ClaimedKeepsInv(s: CP.Settings, rules: Rules, c: Cell, e: Event)
    requires Inv(rules, c) && e.Claimed? && Next(s, rules, c, e).Some?
    ensures Inv(rules, Next(s, rules, c, e).value)
  {
    var d := CP.Claim(s, c.row.value, e.worker, e.now, e.permitted).value;
    if d.status.Processing? {
      GrantKeepsInv(rules, c, d, Worker, e.vendor, e.message, e.worker);
    } else {
      RowStepKeepsInv(rules, c, d);
    }
  }

  lemma HolderEventKeepsInv(s: CP.Settings, rules: Rules, c: Cell, e: Event)
    requires rules.settledReconciliation && Inv(rules, c)
    requires e.EndedBeforePost? || e.PostedBy? || e.VendorDecided? || e.Answered?
    requires Next(s, rules, c, e).Some?
    ensures Inv(rules, Next(s, rules, c, e).value)
  {
    match e
    case EndedBeforePost(i, auth) =>
      FinishKeepsInv(rules, c, i, BeforePost(c.holders[i].vendor, c.holders[i].message, auth));
    case PostedBy(i, auth) =>
      HolderStepKeepsInv(rules, c, i, c.holders[i].(stage := Posted, write := InFlight));
    case VendorDecided(i, accepted) =>
      HolderStepKeepsInv(rules, c, i, c.holders[i].(write := if accepted then Accepted else Refused));
    case Answered(i, reply) =>
      NothingPlainAfterPost(c.holders[i].vendor, c.holders[i].message, reply);
      FinishKeepsInv(rules, c, i, AfterPost(c.holders[i].vendor, c.holders[i].message, reply));
  }

  lemma ReportEventKeepsInv(s: CP.Settings, rules: Rules, c: Cell, e: Event)
    requires rules.settledReconciliation && Inv(rules, c) && (e.CompletionLost? || e.Reported? || e.Reconciled?)
    requires Next(s, rules, c, e).Some?
    ensures Inv(rules, Next(s, rules, c, e).value)
  {
    match e
    case CompletionLost(i) =>
      var c' := Next(s, rules, c, e).value;
      forall r | r in c'.reports ensures ReportOk(c', r) {
        assert r in c.reports ==> ReportOk(c, r);
      }
    case Reported(report, now, permitted) =>
      ReportedKeepsInv(s, rules, c, report, now, permitted);
    case Reconciled(sent, evidence, receipt, now, permitted) =>
      CP.ReconcileKeepsValid(s, c.row.value, sent, evidence, receipt, now, permitted);
      RowStepKeepsInv(rules, c, CP.Reconcile(s, c.row.value, sent, evidence, receipt, now, permitted).value);
  }

  lemma NextKeepsInv(s: CP.Settings, rules: Rules, c: Cell, e: Event)
    requires rules.settledReconciliation && Inv(rules, c)
    requires Next(s, rules, c, e).Some?
    ensures Inv(rules, Next(s, rules, c, e).value)
  {
    if e.Enqueued? {
      EnqueuedKeepsInv(s, rules, c, e);
    } else if e.Prepared? {
      PreparedKeepsInv(s, rules, c, e);
    } else if e.Claimed? {
      ClaimedKeepsInv(s, rules, c, e);
    } else if e.LeaseExpired? {
      RowStepKeepsInv(rules, c, CP.Expire(c.row.value, e.now));
    } else if e.CompletionLost? || e.Reported? || e.Reconciled? {
      ReportEventKeepsInv(s, rules, c, e);
    } else {
      HolderEventKeepsInv(s, rules, c, e);
    }
  }

  lemma {:induction false} RunKeepsInv(s: CP.Settings, rules: Rules, c: Cell, events: seq<Event>)
    requires rules.settledReconciliation && Inv(rules, c) && Run(s, rules, c, events).Some?
    ensures Inv(rules, Run(s, rules, c, events).value)
    decreases |events|
  {
    if events != [] {
      NextKeepsInv(s, rules, c, events[0]);
      RunKeepsInv(s, rules, Next(s, rules, c, events[0]).value, events[1..]);
    }
  }

  lemma {:induction false} HarmlessCountsNothing(holders: seq<Holder>)
    requires AllHarmless(holders)
    ensures AcceptedWrites(holders) == 0
  {
    if holders != [] {
      assert holders[|holders| - 1] in holders;
      HarmlessCountsNothing(holders[..|holders| - 1]);
    }
  }

  lemma OnlyTheLastCounts(rules: Rules, c: Cell)
    requires Inv(rules, c)
    ensures AcceptedWrites(c.holders) <= 1
    ensures AcceptedWrites(c.holders) == 1 <==> LastAccepted(c.holders)
  {
    if c.holders != [] {
      HarmlessCountsNothing(c.holders[..|c.holders| - 1]);
    }
  }

  // ----------------------------------------------------------- main results

  /**
   At most one accepted write per delivery: in every run, with any number of workers and bridges,
   crashed holders, lost, late or repeated reports, unsynchronised clocks and expired leases.
   */
  lemma AtMostOneAcceptedWrite(s: CP.Settings, rules: Rules, events: seq<Event>)
    requires rules.settledReconciliation && Run(s, rules, EMPTY, events).Some?
    ensures AcceptedWrites(Run(s, rules, EMPTY, events).value.holders) <= 1
  {
    RunKeepsInv(s, rules, EMPTY, events);
    OnlyTheLastCounts(rules, Run(s, rules, EMPTY, events).value);
  }

  /** A lease is only ever granted when no earlier write was accepted and none can be any more. */
  lemma LeasesOnlyAfterNonAcceptance(s: CP.Settings, rules: Rules, events: seq<Event>, e: Event)
    requires rules.settledReconciliation && Run(s, rules, EMPTY, events).Some?
    requires var c := Run(s, rules, EMPTY, events).value;
      Next(s, rules, c, e).Some? && |Next(s, rules, c, e).value.holders| > |c.holders|
    ensures e.Claimed? || e.Prepared?
    ensures AllHarmless(Run(s, rules, EMPTY, events).value.holders)
  {
    RunKeepsInv(s, rules, EMPTY, events);
  }

  /** With truthful receipts, a delivery recorded as SENT was accepted by the vendor exactly once. */
  lemma SentMeansExactlyOnce(s: CP.Settings, rules: Rules, events: seq<Event>)
    requires rules.settledReconciliation && rules.truthfulReceipts && Run(s, rules, EMPTY, events).Some?
    requires var c := Run(s, rules, EMPTY, events).value; c.row.Some? && c.row.value.status.Sent?
    ensures AcceptedWrites(Run(s, rules, EMPTY, events).value.holders) == 1
  {
    RunKeepsInv(s, rules, EMPTY, events);
    OnlyTheLastCounts(rules, Run(s, rules, EMPTY, events).value);
  }

  /** SENT is final: whatever happens next, the row keeps its receipt and is never leased again. */
  lemma {:induction false} SentIsFinal(s: CP.Settings, rules: Rules, c: Cell, events: seq<Event>)
    requires rules.settledReconciliation && Inv(rules, c) && c.row.Some? && c.row.value.status.Sent?
    requires Run(s, rules, c, events).Some?
    ensures Run(s, rules, c, events).value.row == c.row
    ensures |Run(s, rules, c, events).value.holders| == |c.holders|
    decreases |events|
  {
    if events != [] {
      NextKeepsInv(s, rules, c, events[0]);
      SentIsFinal(s, rules, Next(s, rules, c, events[0]).value, events[1..]);
    }
  }

  /** The ordinary path is a run: the control plane enqueues, and an Outbox worker is the first holder. */
  lemma WorkerTakesEnqueued(s: CP.Settings, rules: Rules, worker: string, vendor: Vendor, message: Message)
    requires CP.ValidSettings(s) && !Blank(worker)
    ensures var enqueued := Run(s, rules, EMPTY, [Enqueued("d", 0.0, true, true)]);
      && enqueued.Some? && enqueued.value.row.Some? && enqueued.value.row.value.status.Pending?
      && var r := Run(s, rules, enqueued.value, [Claimed(worker, 0.0, true, vendor, message)]);
         r.Some? && r.value.holders == [Holder(Worker, vendor, message, worker, 1, Leased, NotPosted)]
  {
    var e := Enqueued("d", 0.0, true, true);
    var c := Next(s, rules, EMPTY, e).value;
    assert Run(s, rules, EMPTY, [e]) == Some(c);
    var claim := Claimed(worker, 0.0, true, vendor, message);
    assert Run(s, rules, c, [claim]) == Next(s, rules, c, claim);
  }

  // ------------------------------------------- confirming a delivery as unsent

  const ANY_MESSAGE := Message(ChannelName(Feishu), DeliveryName(Feishu), "chat", "text", None, None, "run")

  /** The events by which the last holder's write, if it can still be accepted, is accepted. */
  function Landing(c: Cell): seq<Event>
    requires c.holders != []
  {
    var last := |c.holders| - 1;
    match c.holders[last].write
    case NotPosted => [PostedBy(last, Token("t")), VendorDecided(last, true)]
    case InFlight => [VendorDecided(last, true)]
    case _ => []
  }

  /** A new lease and its accepted write. */
  function Resend(n: nat, now: real): seq<Event> {
    [Claimed("worker", now, true, Feishu, ANY_MESSAGE), PostedBy(n, Token("t")), VendorDecided(n, true)]
  }

  lemma {:induction false} RunConcat(s: CP.Settings, rules: Rules, c: Cell, first: seq<Event>, second: seq<Event>)
    requires Run(s, rules, c, first).Some?
    ensures Run(s, rules, c, first + second) == Run(s, rules, Run(s, rules, c, first).value, second)
    decreases |first|
  {
    if first == [] {
      assert first + second == second;
    } else {
      assert (first + second)[1..] == first[1..] + second;
      RunConcat(s, rules, Next(s, rules, c, first[0]).value, first[1..], second);
    }
  }

  /** One event of a run, and the rest of it. */
  lemma RunStep(s: CP.Settings, rules: Rules, c: Cell, e: Event, rest: seq<Event>)
    requires Next(s, rules, c, e).Some?
    ensures Run(s, rules, c, [e] + rest) == Run(s, rules, Next(s, rules, c, e).value, rest)
  {
    assert ([e] + rest)[1..] == rest;
  }

  lemma RunLast(s: CP.Settings, rules: Rules, c: Cell, e: Event)
    requires Next(s, rules, c, e).Some?
    ensures Run(s, rules, c, [e]) == Next(s, rules, c, e)
  {
    assert [e][1..] == [];
  }

  lemma WorkerIsAName()
    ensures Strip("worker") == "worker" && !Blank("worker") && Addressed(Feishu, ANY_MESSAGE)
  {
    assert TrimLeft("worker") == "worker" && TrimRight("worker") == "worker";
  }

  /** From a failed row that may be retried, with one accepted write behind it, a second one follows. */
  lemma ResendAccepted(s: CP.Settings, rules: Rules, c: Cell, now: real)
    requires c.row.Some? && c.holders != [] && LastAccepted(c.holders)
    requires CP.Offered(s, c.row.value, now)
    ensures var r := Run(s, rules, c, Resend(|c.holders|, now)); r.Some? && AcceptedWrites(r.value.holders) >= 2
  {
    var n := |c.holders|;
    var e := Resend(n, now);
    WorkerIsAName();
    var c1 := Next(s, rules, c, e[0]).value;
    var c2 := Next(s, rules, c1, e[1]).value;
    var c3 := Next(s, rules, c2, e[2]).value;
    RunStep(s, rules, c, e[0], [e[1], e[2]]);
    RunStep(s, rules, c1, e[1], [e[2]]);
    RunLast(s, rules, c2, e[2]);
    assert e == [e[0]] + [e[1], e[2]] && [e[1], e[2]] == [e[1]] + [e[2]];
    assert c3.holders[..n] == c.holders;
  }

  /** Bringing a write that can still land to acceptance. */
  lemma OldWriteLands(s: CP.Settings, rules: Rules, c: Cell)
    requires c.holders != [] && !Harmless(c.holders[|c.holders| - 1])
    requires HolderOk(rules, c.holders[|c.holders| - 1])
    ensures var r := Run(s, rules, c, Landing(c));
      r.Some? && r.value.row == c.row && |r.value.holders| == |c.holders| && LastAccepted(r.value.holders)
  {
    var last := |c.holders| - 1;
    if c.holders[last].write.NotPosted? {
      var post := PostedBy(last, Token("t"));
      var posted := Next(s, rules, c, post).value;
      RunStep(s, rules, c, post, Landing(posted));
      FlyingWriteLands(s, rules, posted);
      assert Landing(c) == [post] + Landing(posted);
    } else if c.holders[last].write.InFlight? {
      FlyingWriteLands(s, rules, c);
    }
  }

  lemma FlyingWriteLands(s: CP.Settings, rules: Rules, c: Cell)
    requires c.holders != [] && c.holders[|c.holders| - 1].write.InFlight?
    ensures var r := Run(s, rules, c, Landing(c));
      r.Some? && r.value.row == c.row && |r.value.holders| == |c.holders| && LastAccepted(r.value.holders)
  {
    RunLast(s, rules, c, VendorDecided(|c.holders| - 1, true));
  }

  /** In every continuation the vendor accepts at most one write. */
  ghost predicate StaysAtMostOnce(s: CP.Settings, rules: Rules, c: Cell) {
    forall events :: Run(s, rules, c, events).Some? ==> AcceptedWrites(Run(s, rules, c, events).value.holders) <= 1
  }

  /**
   Exactly when an UNKNOWN delivery may be confirmed as unsent. The service accepts the confirmation
   on the administrator's word; at-most-once survives it if and only if no attempt is left, or no granted
   holder's write was accepted, is in flight, or can still be posted.
   */
  lemma ConfirmUnsentExactly(s: CP.Settings, rules: Rules, c: Cell, evidence: string, now: real)
    requires rules.settledReconciliation && Inv(rules, c) && c.row.Some? && c.row.value.status.Unknown?
    requires !Blank(evidence)
    ensures CP.Reconcile(s, c.row.value, false, evidence, "", now, true).Ok?
    ensures var d := CP.Reconcile(s, c.row.value, false, evidence, "", now, true).value;
      AllHarmless(c.holders) || c.row.value.sendAttempts >= s.maxAttempts <==>
      StaysAtMostOnce(s, rules, c.(row := Some(d)))
  {
    var d := CP.Reconcile(s, c.row.value, false, evidence, "", now, true).value;
    var c' := c.(row := Some(d));
    CP.ReconcileKeepsValid(s, c.row.value, false, evidence, "", now, true);
    if AllHarmless(c.holders) || c.row.value.sendAttempts >= s.maxAttempts {
      RowStepKeepsInv(rules, c, d);
      InvStaysAtMostOnce(s, rules, c');
    } else {
      CanSendTwice(s, rules, c', now);
    }
  }

  lemma InvStaysAtMostOnce(s: CP.Settings, rules: Rules, c: Cell)
    requires rules.settledReconciliation && Inv(rules, c)
    ensures StaysAtMostOnce(s, rules, c)
  {
    forall events | Run(s, rules, c, events).Some?
      ensures AcceptedWrites(Run(s, rules, c, events).value.holders) <= 1
    {
      RunKeepsInv(s, rules, c, events);
      OnlyTheLastCounts(rules, Run(s, rules, c, events).value);
    }
  }

  /** A row on offer while a write can still land, or has landed, leads to two accepted writes. */
  lemma CanSendTwice(s: CP.Settings, rules: Rules, c: Cell, now: real)
    requires HoldersOk(rules, c.holders) && !AllHarmless(c.holders)
    requires c.row.Some? && CP.Offered(s, c.row.value, now)
    ensures !StaysAtMostOnce(s, rules, c)
  {
    var h :| h in c.holders && !Harmless(h);
    OldWriteLands(s, rules, c);
    ResendAccepted(s, rules, Run(s, rules, c, Landing(c)).value, now);
    RunConcat(s, rules, c, Landing(c), Resend(|c.holders|, now));
    assert AcceptedWrites(Run(s, rules, c, Landing(c) + Resend(|c.holders|, now)).value.holders) >= 2;
  }

  /** An accepted write whose reply never comes: enqueued, claimed, posted, accepted, and the lease runs out. */
  function LostReply(s: CP.Settings): seq<Event> {
    [Enqueued("d", 0.0, true, true), Claimed("worker", 0.0, true, Feishu, ANY_MESSAGE),
     PostedBy(0, Token("t")), VendorDecided(0, true), LeaseExpired(s.leaseSeconds)]
  }

  /** The row is claimed, by the only holder, who has yet to act. */
  predicate FreshlyClaimed(s: CP.Settings, c: Cell) {
    && c.row.Some? && c.row.value.status.Processing? && c.row.value.sendAttempts == 1
    && c.row.value.leaseExpires == Some(s.leaseSeconds)
    && c.holders == [Holder(Worker, Feishu, ANY_MESSAGE, "worker", 1, Leased, NotPosted)]
  }

  lemma ClaimedFirst(s: CP.Settings, rules: Rules, rest: seq<Event>)
    requires CP.ValidSettings(s)
    ensures var e := LostReply(s);
      var c1 := Next(s, rules, EMPTY, e[0]).value;
      && Next(s, rules, EMPTY, e[0]).Some? && Next(s, rules, c1, e[1]).Some?
      && FreshlyClaimed(s, Next(s, rules, c1, e[1]).value)
      && Run(s, rules, EMPTY, [e[0]] + ([e[1]] + rest)) == Run(s, rules, Next(s, rules, c1, e[1]).value, rest)
  {
    var e := LostReply(s);
    WorkerIsAName();
    var c1 := Next(s, rules, EMPTY, e[0]).value;
    RunStep(s, rules, EMPTY, e[0], [e[1]] + rest);
    RunStep(s, rules, c1, e[1], rest);
  }

  /** The row and the only holder after the write was accepted and the lease ran out. */
  predicate ReplyLost(c: Cell) {
    && c.row.Some? && c.row.value.status.Unknown? && c.row.value.sendAttempts == 1
    && c.holders == [Holder(Worker, Feishu, ANY_MESSAGE, "worker", 1, Posted, Accepted)]
  }

  lemma AcceptedAndExpired(s: CP.Settings, rules: Rules, c: Cell)
    requires FreshlyClaimed(s, c)
    ensures var r := Run(s, rules, c, LostReply(s)[2..]); r.Some? && ReplyLost(r.value)
  {
    var e := LostReply(s);
    WorkerIsAName();
    var c3 := Next(s, rules, c, e[2]).value;
    var c4 := Next(s, rules, c3, e[3]).value;
    RunStep(s, rules, c, e[2], [e[3], e[4]]);
    RunStep(s, rules, c3, e[3], [e[4]]);
    RunLast(s, rules, c4, e[4]);
    assert e[2..] == [e[2]] + [e[3], e[4]] && [e[3], e[4]] == [e[3]] + [e[4]];
  }

  lemma LostReplyState(s: CP.Settings, rules: Rules)
    requires CP.ValidSettings(s)
    ensures var r := Run(s, rules, EMPTY, LostReply(s)); r.Some? && ReplyLost(r.value)
  {
    var e := LostReply(s);
    ClaimedFirst(s, rules, e[2..]);
    AcceptedAndExpired(s, rules, Next(s, rules, Next(s, rules, EMPTY, e[0]).value, e[1]).value);
    assert e == [e[0]] + ([e[1]] + e[2..]);
  }

  /** The concrete failure: that delivery, confirmed as unsent on a mistaken word, is written a second time. */
  lemma MistakenConfirmationSendsTwice(s: CP.Settings)
    requires CP.ValidSettings(s) && s.maxAttempts >= 2
    ensures var r := Run(s, Rules(true, false), EMPTY,
                         LostReply(s) + ([Reconciled(false, "e", "", 0.0, true)] + Resend(1, 0.0)));
      r.Some? && AcceptedWrites(r.value.holders) >= 2
  {
    var rules := Rules(true, false);
    LostReplyState(s, rules);
    var lost := Run(s, rules, EMPTY, LostReply(s)).value;
    var confirm := Reconciled(false, "e", "", 0.0, true);
    assert TrimLeft("e") == "e" && TrimRight("e") == "e";
    var open := Next(s, rules, lost, confirm).value;
    RunStep(s, rules, lost, confirm, Resend(1, 0.0));
    ResendAccepted(s, rules, open, 0.0);
    RunConcat(s, rules, EMPTY, LostReply(s), [confirm] + Resend(1, 0.0));
  }
}
