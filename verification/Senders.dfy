/** The two callers of a live channel: the Outbox worker (outbox.py) and the bridge (bridge.py). */
module Senders {
  import opened Wrappers
  import opened Text
  import opened Json
  import opened VendorClients
  import CP = ControlPlane

  /** What a sender does to the outside world, in order. */
  datatype Effect = Replied(message: Message) | Reported(report: CP.Report)

  /** How one delivery attempt ends for its caller. */
  datatype Ending = Delivered | NotDelivered | Raised

  /** The report that follows an outcome; only a plain ImError separates worker and bridge. */
  function ReportOf(actor: Actor, o: Outcome, generation: Option<nat>, worker: Option<string>): CP.Report {
    match o
    case Receipt(id) =>
      if Blank(id) then CP.OutcomeUnknown(generation, worker) else CP.Completed(id, generation, worker)
    case RateLimited(after) => CP.DeliveryFailed(true, Some(after), generation, worker)
    case PreSend => CP.DeliveryFailed(true, None, generation, worker)
    case Rejected => CP.DeliveryFailed(false, None, generation, worker)
    case PlainError =>
      if actor.Bridge? then CP.DeliveryFailed(true, None, generation, worker) else CP.OutcomeUnknown(generation, worker)
    case _ => CP.OutcomeUnknown(generation, worker)
  }

  /** A reply call, its report, and the second report that follows a completion that could not be delivered. */
  function AttemptEffects(actor: Actor, m: Message, o: Outcome, generation: Option<nat>, worker: Option<string>,
                          reportFails: bool): seq<Effect>
  {
    var first := ReportOf(actor, o, generation, worker);
    [Replied(m), Reported(first)]
    + if !first.Completed? || !reportFails then []
      else if generation.Some? then [Reported(CP.OutcomeUnknown(generation, worker))]
      else [Reported(CP.DeliveryFailed(true, None, None, None))]
  }

  predicate HasReceipt(o: Outcome) {
    o.Receipt? && !Blank(o.id)
  }

  function CountReplies(effects: seq<Effect>): nat {
    if effects == [] then 0 else (if effects[0].Replied? then 1 else 0) + CountReplies(effects[1..])
  }

  lemma NoRepliesAmongReports(effects: seq<Effect>)
    requires forall e | e in effects :: e.Reported?
    ensures CountReplies(effects) == 0
  {
    if effects != [] {
      assert effects[0] in effects;
      NoRepliesAmongReports(effects[1..]);
    }
  }

  /**
   Report discipline of one attempt: one reply call and it comes first; completion is reported only
   with the non-blank receipt the channel returned; a failure is reported as retryable exactly for
   the retryable outcomes; and once a receipt exists nothing under a fence is ever reported as failed.
   */
  lemma ReportDiscipline(actor: Actor, m: Message, o: Outcome, generation: Option<nat>, worker: Option<string>,
                         reportFails: bool)
    ensures var effects := AttemptEffects(actor, m, o, generation, worker, reportFails);
      && CountReplies(effects) == 1 && effects[0] == Replied(m)
      && (forall e | e in effects && e.Reported? && e.report.Completed? :: HasReceipt(o) && e.report.receipt == o.id)
      && (HasReceipt(o) <==> exists e :: e in effects && e.Reported? && e.report.Completed?)
      && (generation.Some? ==>
            ((exists e :: e in effects && e.Reported? && e.report.DeliveryFailed? && e.report.retryable)
             <==> ReportsRetryable(actor, o)))
      && (generation.Some? && HasReceipt(o) ==> forall e | e in effects && e.Reported? :: !e.report.DeliveryFailed?)
  {
    var effects := AttemptEffects(actor, m, o, generation, worker, reportFails);
    assert effects[1] == Reported(ReportOf(actor, o, generation, worker));
    NoRepliesAmongReports(effects[1..]);
  }

  // ----------------------------------------------------------------- worker

  /** A validated claim. */
  datatype Work = Work(message: Message, generation: nat)

  /** `_required_text`. */
  function RequiredText(claim: Fields, key: string): Option<string> {
    var value := Get(claim, key);
    if value.Str? && !Blank(value.s) then Some(Strip(value.s)) else None
  }

  /** `isinstance(value, int) and value >= 1`, where Python's True is the integer one. */
  function Generation(value: Json): Option<nat> {
    if value.Int? && value.n >= 1 then Some(value.n)
    else if value == Bool(true) then Some(1)
    else None
  }

  datatype WorkerSettings = WorkerSettings(
    workerId: string, channel: string, delivery: string, credential: Option<string>, digest: string -> string)

  predicate Leaks(credential: Option<string>, text: string) {
    credential.Some? && credential.value != "" && Contains(text, credential.value)
  }

  /** The checks of `_deliver` before the channel call; None when one of them raises. */
  function Validate(s: WorkerSettings, claim: Fields): Option<Work> {
    var id, run, thread := RequiredText(claim, "id"), RequiredText(claim, "run_id"), RequiredText(claim, "thread_id");
    var conversation, text := RequiredText(claim, "conversation_id"), RequiredText(claim, "text");
    var channel, fingerprint := RequiredText(claim, "channel"), RequiredText(claim, "content_fingerprint");
    var generation := Generation(Get(claim, "claim_generation"));
    if id.None? || run.None? || thread.None? || conversation.None? || text.None? || channel.None? || fingerprint.None?
    then None
    else if channel.value != s.channel || generation.None? then None
    else if s.digest(text.value) != fingerprint.value then None
    else if Leaks(s.credential, text.value) then None
    else
      var sender := Get(claim, "reply_to_sender_id");
      var to := if sender.Str? && sender.s != "" then Some(sender.s) else None;
      var message := Message(channel.value, s.delivery, conversation.value, text.value, to, id, run.value);
      Some(Work(message, generation.value))
  }

  /** What leaves the worker is the claimed text for the claimed chat, covered by its fingerprint, free of our token. */
  lemma WorkerSendsTheClaim(s: WorkerSettings, claim: Fields)
    requires Validate(s, claim).Some?
    ensures var work := Validate(s, claim).value;
      && Get(claim, "text").Str? && work.message.text == Strip(Get(claim, "text").s)
      && !Leaks(s.credential, work.message.text)
      && RequiredText(claim, "content_fingerprint") == Some(s.digest(work.message.text))
      && RequiredText(claim, "conversation_id") == Some(work.message.conversationId)
      && RequiredText(claim, "id") == work.message.deliveryId
      && RequiredText(claim, "run_id") == Some(work.message.runId)
      && RequiredText(claim, "channel") == Some(work.message.channel) && work.message.channel == s.channel
      && EqualsInt(Get(claim, "claim_generation"), work.generation) && work.generation >= 1
  {
  }

  /** One trip round the worker's loop: what the control plane offered, and what happened then. */
  datatype Turn = NoClaim | ClaimRaised | Given(claim: Fields, outcome: Outcome, reportFails: bool)

  function DeliverEffects(s: WorkerSettings, t: Turn): seq<Effect> {
    if !t.Given? then []
    else match Validate(s, t.claim)
      case None => []
      case Some(work) =>
        AttemptEffects(Worker, work.message, t.outcome, Some(work.generation), Some(s.workerId), t.reportFails)
  }

  /** How the worker's attempt ends; a completion that cannot be reported does not stop the worker. */
  function AttemptEnding(o: Outcome, reportFails: bool): Ending {
    if HasReceipt(o) then if reportFails then NotDelivered else Delivered
    else if reportFails then Raised else NotDelivered
  }

  function DeliverEnding(s: WorkerSettings, t: Turn): Ending {
    match t
    case NoClaim => NotDelivered
    case ClaimRaised => Raised
    case Given(claim, o, reportFails) =>
      if Validate(s, claim).None? then Raised else AttemptEnding(o, reportFails)
  }

  /** All a trip does and how it ends. */
  datatype Trip = Trip(effects: seq<Effect>, ending: Ending)

  function TripOf(s: WorkerSettings, t: Turn): Trip {
    Trip(DeliverEffects(s, t), DeliverEnding(s, t))
  }

  function Trips(s: WorkerSettings, script: seq<Turn>): (trips: seq<Trip>)
    ensures |trips| == |script|
  {
    if script == [] then [] else Trips(s, script[..|script| - 1]) + [TripOf(s, script[|script| - 1])]
  }

  lemma {:induction false} TripAt(s: WorkerSettings, script: seq<Turn>, i: nat)
    requires i < |script|
    ensures Trips(s, script)[i] == TripOf(s, script[i])
  {
    if i < |script| - 1 {
      TripAt(s, script[..|script| - 1], i);
    }
  }

  /** The number of trips made when the run returns, raises, or is told to stop, once it is at trip i. */
  function TripsMade(once: bool, trips: seq<Trip>, i: nat): (n: nat)
    requires i <= |trips|
    ensures i <= n <= |trips|
    decreases |trips| - i
  {
    if i == |trips| then i
    else if once || trips[i].ending.Raised? then i + 1
    else TripsMade(once, trips, i + 1)
  }

  /** The effects of the first n trips. */
  function RunEffects(trips: seq<Trip>, n: nat): seq<Effect>
    requires n <= |trips|
  {
    if n == 0 then [] else RunEffects(trips, n - 1) + trips[n - 1].effects
  }

  /** Some of the first n trips ended this way. */
  predicate SomeEnded(trips: seq<Trip>, n: nat, ending: Ending)
    requires n <= |trips|
  {
    exists k | 0 <= k < n :: trips[k].ending == ending
  }

  /** What a run did and returned: its trips in order, None after an exception, else whether one completed. */
  ghost predicate RunOutcome(once: bool, trips: seq<Trip>, before: seq<Effect>, after: seq<Effect>,
                             delivered: Option<bool>)
  {
    var n := TripsMade(once, trips, 0);
    && after == before + RunEffects(trips, n)
    && (delivered.None? <==> SomeEnded(trips, n, Raised))
    && (delivered.Some? ==> (delivered.value <==> SomeEnded(trips, n, Delivered)))
  }

  /** The run has made the first i trips and goes on. */
  ghost predicate RanTo(once: bool, trips: seq<Trip>, before: seq<Effect>, after: seq<Effect>, i: nat, any: bool) {
    && i <= |trips| && TripsMade(once, trips, i) == TripsMade(once, trips, 0) && (once ==> i == 0)
    && after == before + RunEffects(trips, i)
    && !SomeEnded(trips, i, Raised) && (any <==> SomeEnded(trips, i, Delivered))
  }

  /** One more trip: the run goes on, or ends with its outcome. */
  lemma RanOn(once: bool, trips: seq<Trip>, before: seq<Effect>, soFar: seq<Effect>, after: seq<Effect>, i: nat,
              any: bool)
    requires RanTo(once, trips, before, soFar, i, any) && i < |trips| && after == soFar + trips[i].effects
    ensures var ending := trips[i].ending;
      var now := ending.Delivered? || any;
      if ending.Raised? then RunOutcome(once, trips, before, after, None)
      else if once then RunOutcome(once, trips, before, after, Some(now))
      else RanTo(once, trips, before, after, i + 1, now)
  {
    assert RunEffects(trips, i + 1) == RunEffects(trips, i) + trips[i].effects;
    assert before + (RunEffects(trips, i) + trips[i].effects) == (before + RunEffects(trips, i)) + trips[i].effects;
  }

  class ImOutboxWorker {
    const settings: WorkerSettings
    var effects: seq<Effect>

    constructor (settings: WorkerSettings)
      ensures this.settings == settings && effects == []
    {
      this.settings := settings;
      effects := [];
    }

    /** The channel call for a validated claim, and the report its outcome selects. */
    method Attempt(work: Work, outcome: Outcome, reportFails: bool) returns (ending: Ending)
      modifies this`effects
      ensures effects == old(effects)
        + AttemptEffects(Worker, work.message, outcome, Some(work.generation), Some(settings.workerId), reportFails)
      ensures ending == AttemptEnding(outcome, reportFails)
    {
      var g, w := Some(work.generation), Some(settings.workerId);
      effects := effects + [Replied(work.message)];
      match outcome {
        case RateLimited(after) =>
          effects := effects + [Reported(CP.DeliveryFailed(true, Some(after), g, w))];
          return if reportFails then Raised else NotDelivered;
        case Rejected =>
          effects := effects + [Reported(CP.DeliveryFailed(false, None, g, w))];
          return if reportFails then Raised else NotDelivered;
        case PreSend =>
          effects := effects + [Reported(CP.DeliveryFailed(true, None, g, w))];
          return if reportFails then Raised else NotDelivered;
        case Receipt(id) =>
          if Strip(id) != "" {
            effects := effects + [Reported(CP.Completed(id, g, w))];
            if reportFails {
              effects := effects + [Reported(CP.OutcomeUnknown(g, w))];
              return NotDelivered;
            }
            return Delivered;
          }
        case _ =>
      }
      effects := effects + [Reported(CP.OutcomeUnknown(g, w))];
      return if reportFails then Raised else NotDelivered;
    }

    /** `_deliver`: at most one channel call for the claim, then the report its outcome selects. */
    method Deliver(claim: Fields, outcome: Outcome, reportFails: bool) returns (ending: Ending)
      modifies this`effects
      ensures effects == old(effects) + DeliverEffects(settings, Given(claim, outcome, reportFails))
      ensures ending == DeliverEnding(settings, Given(claim, outcome, reportFails))
    {
      var work := Validate(settings, claim);
      if work.None? {
        return Raised;
      }
      ending := Attempt(work.value, outcome, reportFails);
    }

    /** One trip: the claim call, and `_deliver` when it found something. */
    method MakeTrip(script: seq<Turn>, i: nat) returns (ending: Ending)
      requires i < |script|
      modifies this`effects
      ensures effects == old(effects) + Trips(settings, script)[i].effects
      ensures ending == Trips(settings, script)[i].ending
    {
      TripAt(settings, script, i);
      match script[i] {
        case NoClaim => return NotDelivered;
        case ClaimRaised => return Raised;
        case Given(claim, outcome, reportFails) => ending := Deliver(claim, outcome, reportFails);
      }
    }

    /**
     `run`: the script lists what each claim call finds until the stop event is seen. The result is
     true exactly when some claim of this run completed; None when an exception ended the run.
     */
    method Run(once: bool, script: seq<Turn>) returns (delivered: Option<bool>)
      modifies this`effects
      ensures RunOutcome(once, Trips(settings, script), old(effects), effects, delivered)
    {
      var any := false;
      ghost var before, trips := effects, Trips(settings, script);
      var i := 0;
      while i < |script|
        invariant 0 <= i <= |script| && RanTo(once, trips, before, effects, i, any)
      {
        ghost var soFar := effects;
        var ending := MakeTrip(script, i);
        RanOn(once, trips, before, soFar, effects, i, any);
        i := i + 1;
        if ending.Raised? {
          return None;
        }
        any := ending.Delivered? || any;
        if once {
          return Some(any);
        }
      }
      return Some(any);
    }
  }

  // ----------------------------------------------------------------- bridge

  /** What the bridge knows of the inbound message and its finished run. */
  datatype Inbound = Inbound(channel: string, conversationId: string, senderId: string, runId: string)

  datatype BridgeSettings = BridgeSettings(
    workerId: string, delivery: string, credential: Option<string>, digest: string -> string)

  /** `_claim_generation` for the three statuses that reach it; Err when it raises. */
  function ClaimGeneration(value: Json, status: string): Result<Option<nat>, ()> {
    if value.Int? && value.n >= 1 then Ok(Some(value.n))
    else if status == "PENDING" && (value == Null || value == Int(0)) then Ok(None)
    else Err(())
  }

  /** A prepared delivery as the bridge reads it: already sent, or to be sent under this fence. */
  datatype Plan = AlreadySent | Send(message: Message, generation: Option<nat>)

  function ReadPrepared(s: BridgeSettings, inbound: Inbound, prepared: Fields): Option<Plan> {
    var id := PrintOrEmpty(Get(prepared, "id"));
    var text := Get(prepared, "text");
    var status := PrintOrEmpty(Get(prepared, "status"));
    if id == "" || !text.Str? || Get(prepared, "channel") != Str(inbound.channel)
       || Get(prepared, "conversation_id") != Str(inbound.conversationId)
       || Get(prepared, "content_fingerprint") != Str(s.digest(text.s))
    then None
    else if status !in {"SENT", "PENDING", "PROCESSING"} then None
    else
      var generation :=
        if status == "SENT" then Ok(None) else ClaimGeneration(Get(prepared, "claim_generation"), status);
      if generation.Err? || Leaks(s.credential, text.s) then None
      else if status == "SENT" then Some(AlreadySent)
      else
        var body := if text.s != "" then text.s else "(no answer)";
        Some(Send(Message(inbound.channel, s.delivery, inbound.conversationId, body, Some(inbound.senderId), Some(id),
                          inbound.runId), generation.value))
  }

  /** The bridge sends the prepared text to the inbound chat, and only a PENDING delivery without a fence. */
  lemma BridgeSendsThePrepared(s: BridgeSettings, inbound: Inbound, prepared: Fields)
    requires var plan := ReadPrepared(s, inbound, prepared); plan.Some? && plan.value.Send?
    ensures var plan := ReadPrepared(s, inbound, prepared).value;
      && (Get(prepared, "text") == Str(plan.message.text)
          || (Get(prepared, "text") == Str("") && plan.message.text == "(no answer)"))
      && !Leaks(s.credential, Get(prepared, "text").s)
      && Get(prepared, "content_fingerprint") == Str(s.digest(Get(prepared, "text").s))
      && plan.message.conversationId == inbound.conversationId
      && Get(prepared, "conversation_id") == Str(inbound.conversationId)
      && plan.message.channel == inbound.channel && plan.message.replyToSenderId == Some(inbound.senderId)
      && plan.message.deliveryId == Some(PrintOrEmpty(Get(prepared, "id"))) && plan.message.deliveryId != Some("")
      && (plan.generation.None? ==> PrintOrEmpty(Get(prepared, "status")) == "PENDING")
      && (plan.generation.Some? ==>
            plan.generation.value >= 1 && Get(prepared, "claim_generation") == Int(plan.generation.value))
  {
  }

  class ImBridge {
    const settings: BridgeSettings
    var effects: seq<Effect>

    constructor (settings: BridgeSettings)
      ensures this.settings == settings && effects == []
    {
      this.settings := settings;
      effects := [];
    }

    /** The channel call for a delivery to be sent under this fence, and the report its outcome selects. */
    method Attempt(message: Message, g: Option<nat>, outcome: Outcome, reportFails: bool) returns (ending: Ending)
      modifies this`effects
      ensures effects == old(effects)
        + AttemptEffects(Bridge, message, outcome, g, if g.Some? then Some(settings.workerId) else None, reportFails)
      ensures ending == if HasReceipt(outcome) && !reportFails then Delivered else Raised
    {
      var w := if g.Some? then Some(settings.workerId) else None;
      effects := effects + [Replied(message)];
      match outcome {
        case RateLimited(after) =>
          effects := effects + [Reported(CP.DeliveryFailed(true, Some(after), g, w))];
          return Raised;
        case Rejected =>
          effects := effects + [Reported(CP.DeliveryFailed(false, None, g, w))];
          return Raised;
        case PreSend =>
          effects := effects + [Reported(CP.DeliveryFailed(true, None, g, w))];
          return Raised;
        case PlainError =>
          effects := effects + [Reported(CP.DeliveryFailed(true, None, g, w))];
          return Raised;
        case Receipt(id) =>
          if Strip(id) != "" {
            effects := effects + [Reported(CP.Completed(id, g, w))];
            if !reportFails {
              return Delivered;
            }
            if g.None? {
              effects := effects + [Reported(CP.DeliveryFailed(true, None, None, None))];
            } else {
              effects := effects + [Reported(CP.OutcomeUnknown(g, w))];
            }
            return Raised;
          }
        case _ =>
      }
      effects := effects + [Reported(CP.OutcomeUnknown(g, w))];
      return Raised;
    }

    /** The delivery half of `handle` for a live channel, from the prepared delivery on. */
    method Handle(inbound: Inbound, prepared: Fields, outcome: Outcome, reportFails: bool) returns (ending: Ending)
      modifies this`effects
      ensures var plan := ReadPrepared(settings, inbound, prepared);
        && (plan.None? || plan.value.AlreadySent? ==> effects == old(effects))
        && (plan.Some? && plan.value.Send? ==>
              var g := plan.value.generation;
              var w := if g.Some? then Some(settings.workerId) else None;
              effects == old(effects) + AttemptEffects(Bridge, plan.value.message, outcome, g, w, reportFails))
        && (ending.Delivered? <==> plan.Some? && (plan.value.AlreadySent? || (HasReceipt(outcome) && !reportFails)))
        && !ending.NotDelivered?
    {
      var plan := ReadPrepared(settings, inbound, prepared);
      if plan.None? {
        return Raised;
      }
      if plan.value.AlreadySent? {
        return Delivered;
      }
      ending := Attempt(plan.value.message, plan.value.generation, outcome, reportFails);
    }
  }
}
