/**
 The delivery ledger of the control plane (im_delivery.py). Every service call runs in one
 database transaction on one locked row, so each is a function from the row to the row it commits;
 an exception rolls back and is an Err.
 */
module ControlPlane {
  import opened Wrappers
  import opened Text

  datatype Status = Pending | Processing | Unknown | Sent | Failed

  datatype Attempt = Attempt(generation: nat, claimedBy: string, status: Status, receipt: Option<string>)

  datatype Reconciled = Reconciled(sent: bool, evidence: string)

  datatype Delivery = Delivery(
    id: string,
    status: Status,
    sendAttempts: nat,
    generation: nat,
    leaseOwner: Option<string>,
    leaseExpires: Option<real>,
    nextAttempt: Option<real>,
    receipt: Option<string>,
    trusted: bool,               // the recipient snapshot came from the trusted Inbox
    attempts: map<nat, Attempt>, // by ordinal
    reconciled: Option<Reconciled>)

  datatype Settings = Settings(leaseSeconds: real, maxAttempts: nat, baseBackoff: real, maxBackoff: real)

  /** The bounds the configuration enforces. */
  predicate ValidSettings(s: Settings) {
    10.0 <= s.leaseSeconds && s.maxAttempts >= 1 && 0.1 <= s.baseBackoff <= s.maxBackoff
  }

  datatype Refusal =
    | NotPermitted
    | ClaimInvalid
    | ReceiptConflict
    | OutcomeUnresolved
    | InProgress
    | ManagedByOutbox
    | ClaimStale
    | ReconciliationInvalid

  /** What a sender reports back; `generation` and `worker` are None for an unfenced legacy adapter. */
  datatype Report =
    | Completed(receipt: string, generation: Option<nat>, worker: Option<string>)
    | OutcomeUnknown(generation: Option<nat>, worker: Option<string>)
    | DeliveryFailed(retryable: bool, retryAfter: Option<real>, generation: Option<nat>, worker: Option<string>)

  // ---------------------------------------------------------------- leasing

  /** `_claim_prepared_delivery` and the tail of `claim`. */
  function Leased(s: Settings, d: Delivery, worker: string, now: real): Delivery {
    var n := d.sendAttempts + 1;
    d.(status := Processing,
       sendAttempts := n,
       generation := d.generation + 1,
       leaseOwner := Some(worker),
       leaseExpires := Some(now + s.leaseSeconds),
       nextAttempt := None,
       attempts := d.attempts[n := Attempt(d.generation + 1, worker, Processing, None)])
  }

  /** `prepare`; `worker` is None for a legacy adapter that sends without a lease. */
  function Prepare(s: Settings, row: Option<Delivery>, id: string, worker: Option<string>, now: real,
                   permitted: bool, trusted: bool): Result<Delivery, Refusal>
  {
    var stable := if worker.Some? then Strip(worker.value) else "";
    if worker.Some? && stable == "" then Err(ClaimInvalid)
    else if !permitted then Err(NotPermitted)
    else match row
      case None =>
        var created := Delivery(id, Pending, 0, 0, None, None, None, None, trusted, map[], None);
        Ok(if worker.Some? then Leased(s, created, stable, now) else created)
      case Some(d) =>
        var trustedPending := d.trusted && d.status.Pending? && d.sendAttempts == 0;
        if worker.None? && !d.status.Sent? && !trustedPending then Err(ReceiptConflict)
        else if d.status.Unknown? then Err(OutcomeUnresolved)
        else if d.status.Processing? then Err(InProgress)
        else if d.sendAttempts > 0 && !d.status.Sent? then Err(ManagedByOutbox)
        else
          var open := if d.status.Failed? then d.(status := Pending, nextAttempt := None) else d;
          Ok(if worker.Some? && !open.status.Sent? then Leased(s, open, stable, now) else open)
  }

  /** The rows `claim` may pick. */
  predicate Offered(s: Settings, d: Delivery, now: real) {
    && d.sendAttempts < s.maxAttempts
    && (d.status.Pending? || (d.status.Failed? && d.nextAttempt.Some? && d.nextAttempt.value <= now))
  }

  /** `claim` on the row it picked: a lease, or a held failure when authorisation or lineage is gone. */
  function Claim(s: Settings, d: Delivery, worker: string, now: real, permitted: bool): Result<Delivery, Refusal> {
    if Blank(worker) then Err(ClaimInvalid)
    else if !Offered(s, d, now) then Err(InProgress)
    else if permitted then Ok(Leased(s, d, Strip(worker), now))
    else Ok(d.(status := Failed, nextAttempt := None))
  }

  predicate LeaseOver(d: Delivery, now: real) {
    d.leaseExpires.None? || d.leaseExpires.value <= now
  }

  /** The attempt row whose ordinal is the current send count. */
  function CurrentAttempt(d: Delivery): Option<Attempt> {
    if d.sendAttempts in d.attempts && d.sendAttempts > 0 then Some(d.attempts[d.sendAttempts]) else None
  }

  function CloseAttempt(d: Delivery, status: Status, receipt: Option<string>): map<nat, Attempt>
    requires d.sendAttempts in d.attempts
  {
    d.attempts[d.sendAttempts := d.attempts[d.sendAttempts].(status := status, receipt := receipt)]
  }

  /** `_expire_one_claim` on the row it picked. */
  function Expire(d: Delivery, now: real): Delivery {
    if !d.status.Processing? || d.leaseExpires.None? || !LeaseOver(d, now) then d
    else
      var current := CurrentAttempt(d);
      d.(status := Unknown, nextAttempt := None, leaseOwner := None, leaseExpires := None,
         attempts := if current.Some? && current.value.status.Processing?
                     then CloseAttempt(d, Unknown, current.value.receipt) else d.attempts)
  }

  // -------------------------------------------------------------- reporting

  /** `_require_claim`; Ok(false) is the unfenced legacy report on a row that was never leased. */
  function RequireClaim(d: Delivery, generation: Option<nat>, worker: Option<string>, now: real)
    : Result<bool, Refusal>
  {
    if !d.status.Processing? then
      if generation.None? && d.generation == 0 && !d.status.Sent? then Ok(false) else Err(ClaimStale)
    else if generation.None? || worker.None? || d.generation != generation.value
            || d.leaseOwner != Some(Strip(worker.value)) || LeaseOver(d, now) then Err(ClaimStale)
    else
      var current := CurrentAttempt(d);
      if current.Some? && current.value.status.Processing? && current.value.generation == d.generation
         && Some(current.value.claimedBy) == d.leaseOwner
      then Ok(true) else Err(ClaimStale)
  }

  function Complete(d: Delivery, receipt: string, generation: Option<nat>, worker: Option<string>, now: real)
    : Result<Delivery, Refusal>
  {
    var id := Strip(receipt);
    if id == "" || id == d.id then Err(ReceiptConflict)
    else if d.status.Sent? then if d.receipt == Some(id) then Ok(d) else Err(ReceiptConflict)
    else match RequireClaim(d, generation, worker, now)
      case Err(refusal) => Err(refusal)
      case Ok(fenced) =>
        Ok(d.(status := Sent, receipt := Some(id), nextAttempt := None, leaseOwner := None, leaseExpires := None,
              attempts := if fenced then CloseAttempt(d, Sent, Some(id)) else d.attempts))
  }

  function MarkUnknown(d: Delivery, generation: Option<nat>, worker: Option<string>, now: real)
    : Result<Delivery, Refusal>
  {
    if d.status.Sent? || d.status.Unknown? then Ok(d)
    else match RequireClaim(d, generation, worker, now)
      case Err(refusal) => Err(refusal)
      case Ok(fenced) =>
        Ok(d.(status := Unknown, nextAttempt := None, leaseOwner := None, leaseExpires := None,
              attempts := if fenced then CloseAttempt(d, Unknown, d.attempts[d.sendAttempts].receipt) else d.attempts))
  }

  /** `base * 2 ** n`. */
  function Doubled(base: real, n: nat): real {
    if n == 0 then base else 2.0 * Doubled(base, n - 1)
  }

  function Min(a: real, b: real): real { if a <= b then a else b }

  function Max(a: real, b: real): real { if a >= b then a else b }

  function Capped(cap: real, exponential: real, retryAfter: Option<real>): real {
    var requested := if retryAfter.Some? then Max(0.0, retryAfter.value) else 0.0;
    Min(cap, Max(Min(cap, exponential), requested))
  }

  /** `_retry_delay`. */
  function Backoff(s: Settings, attempt: nat, retryAfter: Option<real>): real {
    Capped(s.maxBackoff, Doubled(s.baseBackoff, if attempt >= 1 then attempt - 1 else 0), retryAfter)
  }

  function Fail(s: Settings, d: Delivery, retryable: bool, retryAfter: Option<real>,
                generation: Option<nat>, worker: Option<string>, now: real): Result<Delivery, Refusal>
  {
    if d.status.Sent? then Ok(d)
    else if d.status.Unknown? then Err(OutcomeUnresolved)
    else match RequireClaim(d, generation, worker, now)
      case Err(refusal) => Err(refusal)
      case Ok(fenced) =>
        if !fenced then Ok(d.(status := Unknown, nextAttempt := None))
        else
          var again := retryable && d.sendAttempts < s.maxAttempts;
          Ok(d.(status := Failed, leaseOwner := None, leaseExpires := None,
                nextAttempt := if again then Some(now + Backoff(s, d.sendAttempts, retryAfter)) else None,
                attempts := CloseAttempt(d, Failed, d.attempts[d.sendAttempts].receipt)))
  }

  /** A report, refused before anything else unless its sender may report on this delivery. */
  function Apply(s: Settings, d: Delivery, report: Report, now: real, permitted: bool): Result<Delivery, Refusal> {
    if !permitted then Err(NotPermitted)
    else match report
      case Completed(receipt, generation, worker) => Complete(d, receipt, generation, worker, now)
      case OutcomeUnknown(generation, worker) => MarkUnknown(d, generation, worker, now)
      case DeliveryFailed(retryable, retryAfter, generation, worker) =>
        Fail(s, d, retryable, retryAfter, generation, worker, now)
  }

  /** `reconcile`: an administrator settles an UNKNOWN delivery as sent or as confirmed unsent. */
  function Reconcile(s: Settings, d: Delivery, sent: bool, evidence: string, receipt: string, now: real,
                     permitted: bool): Result<Delivery, Refusal>
  {
    var proof := Strip(evidence);
    var id := Strip(receipt);
    if !permitted then Err(NotPermitted)
    else if proof == "" then Err(ReconciliationInvalid)
    else if !d.status.Unknown? then
      if d.reconciled == Some(Reconciled(sent, proof)) && (!sent || d.receipt == Some(id)) then Ok(d)
      else Err(ReconciliationInvalid)
    else if sent != (id != "") then Err(ReconciliationInvalid)
    else
      var current := CurrentAttempt(d);
      var settled := if sent
        then d.(status := Sent, receipt := Some(id), nextAttempt := None)
        else d.(status := Failed, receipt := None,
                nextAttempt := if d.sendAttempts < s.maxAttempts then Some(now) else None);
      Ok(settled.(reconciled := Some(Reconciled(sent, proof)),
                  attempts := if current.Some? && current.value.status.Unknown?
                              then CloseAttempt(d, settled.status, if sent then Some(id) else None)
                              else d.attempts))
  }

  // ------------------------------------------------------------- invariants

  /** What every committed row satisfies: one numbered attempt per generation, only the last one open. */
  ghost predicate ValidRow(d: Delivery) {
    && d.generation == d.sendAttempts
    && (forall k: nat :: k in d.attempts <==> 1 <= k <= d.sendAttempts)
    && (forall k: nat | k in d.attempts :: d.attempts[k].generation == k)
    && (forall k: nat | k in d.attempts && d.attempts[k].status.Processing? ::
          k == d.sendAttempts && d.status.Processing?)
    && (d.status.Pending? ==> d.sendAttempts == 0)
    && (d.nextAttempt.Some? ==> d.status.Failed?)
    && (d.status.Sent? ==> d.receipt.Some? && d.receipt.value != "")
    && (d.status.Processing? ==>
          && d.sendAttempts >= 1
          && d.leaseOwner.Some? && d.leaseExpires.Some?
          && d.attempts[d.sendAttempts].status.Processing?
          && d.attempts[d.sendAttempts].claimedBy == d.leaseOwner.value)
  }

  lemma LeasedIsValid(s: Settings, d: Delivery, worker: string, now: real)
    requires ValidRow(d) && !d.status.Processing? && !d.status.Sent?
    ensures ValidRow(Leased(s, d, worker, now))
  {
  }

  lemma PrepareKeepsValid(s: Settings, row: Option<Delivery>, id: string, worker: Option<string>, now: real,
                          permitted: bool, trusted: bool)
    requires row.Some? ==> ValidRow(row.value)
    ensures var r := Prepare(s, row, id, worker, now, permitted, trusted); r.Ok? ==> ValidRow(r.value)
  {
    if row.Some? && row.value.sendAttempts == 0 && !row.value.status.Sent? && worker.Some? {
      LeasedIsValid(s, row.value.(status := Pending, nextAttempt := None), Strip(worker.value), now);
    }
  }

  lemma ReportKeepsValid(s: Settings, d: Delivery, report: Report, now: real, permitted: bool)
    requires ValidRow(d)
    ensures var r := Apply(s, d, report, now, permitted); r.Ok? ==> ValidRow(r.value)
  {
  }

  lemma ReconcileKeepsValid(s: Settings, d: Delivery, sent: bool, evidence: string, receipt: string, now: real,
                            permitted: bool)
    requires ValidRow(d)
    ensures var r := Reconcile(s, d, sent, evidence, receipt, now, permitted); r.Ok? ==> ValidRow(r.value)
  {
  }

  function StatusAfter(report: Report): Status {
    match report
    case Completed(_, _, _) => Sent
    case OutcomeUnknown(_, _) => Unknown
    case DeliveryFailed(_, _, _, _) => Failed
  }

  /**
   What the holder's report makes of the row: the status it names, the lease released, the generation and
   every earlier attempt untouched, and a new lease possible exactly for a retryable failure with attempts
   left, once the retry delay has passed.
   */
  ghost predicate Settled(s: Settings, d: Delivery, r: Delivery, report: Report, now: real) {
    && r.status == StatusAfter(report)
    && (report.Completed? ==> r.receipt == Some(Strip(report.receipt)))
    && r.leaseOwner.None? && r.leaseExpires.None?
    && r.generation == d.generation && r.sendAttempts == d.sendAttempts
    && (forall k: nat | k in d.attempts && k != d.sendAttempts :: k in r.attempts && r.attempts[k] == d.attempts[k])
    && (forall later: real :: Offered(s, r, later) <==>
          && report.DeliveryFailed? && report.retryable && d.sendAttempts < s.maxAttempts
          && now + Backoff(s, d.sendAttempts, report.retryAfter) <= later)
  }

  /** The holder of a live lease is heard exactly when it may report at all, and its report settles the row. */
  lemma HolderSettles(s: Settings, d: Delivery, now: real, report: Report, permitted: bool)
    requires ValidRow(d) && d.status.Processing? && !LeaseOver(d, now)
    requires report.generation == Some(d.generation)
    requires report.worker.Some? && Strip(report.worker.value) == d.leaseOwner.value
    requires report.Completed? ==> !Blank(report.receipt) && Strip(report.receipt) != d.id
    ensures var r := Apply(s, d, report, now, permitted);
      (r.Ok? <==> permitted) && (r.Ok? ==> Settled(s, d, r.value, report, now))
  {
    assert RequireClaim(d, report.generation, report.worker, now) == Ok(true);
  }

  /** A lease that ran out leaves UNKNOWN, which no claim is ever offered; a live one is left alone. */
  lemma ExpiryHolds(s: Settings, d: Delivery, now: real)
    requires ValidRow(d) && d.status.Processing?
    ensures ValidRow(Expire(d, now))
    ensures if LeaseOver(d, now)
            then Expire(d, now).status.Unknown? && Expire(d, now).generation == d.generation
                 && forall later: real :: !Offered(s, Expire(d, now), later)
            else Expire(d, now) == d
  {
    assert CurrentAttempt(d) == Some(d.attempts[d.sendAttempts]);
  }

  /**
   Nobody else is: a fenced report changes the row only when permitted, under the row's own generation,
   by the worker that owns the lease, before the lease is over.
   */
  lemma OnlyHolderChangesRow(s: Settings, d: Delivery, now: real, report: Report, permitted: bool)
    requires ValidRow(d) && report.generation.Some?
    requires var r := Apply(s, d, report, now, permitted); r.Ok? && r.value != d
    ensures permitted && d.status.Processing? && report.generation == Some(d.generation) && !LeaseOver(d, now)
    ensures report.worker.Some? && Some(Strip(report.worker.value)) == d.leaseOwner
  {
    assert RequireClaim(d, report.generation, report.worker, now) == Ok(true);
  }

  /** The retry delay honours the vendor's guidance and the exponential floor, capped at the maximum. */
  lemma BackoffBounds(s: Settings, attempt: nat, retryAfter: Option<real>)
    requires ValidSettings(s)
    ensures var delay := Backoff(s, attempt, retryAfter);
      && s.baseBackoff <= delay <= s.maxBackoff
      && (retryAfter.Some? && retryAfter.value <= s.maxBackoff ==> retryAfter.value <= delay)
      && delay <= Backoff(s, attempt + 1, retryAfter)
  {
    var n := if attempt >= 1 then attempt - 1 else 0;
    DoubledGrows(s.baseBackoff, n);
    CappedBounds(s.maxBackoff, s.baseBackoff, Doubled(s.baseBackoff, n), Doubled(s.baseBackoff, attempt), retryAfter);
  }

  lemma DoubledGrows(base: real, n: nat)
    requires base > 0.0
    ensures base <= Doubled(base, n)
  {
  }

  lemma CappedBounds(cap: real, floor: real, low: real, high: real, retryAfter: Option<real>)
    requires floor <= cap && floor <= low <= high
    ensures floor <= Capped(cap, low, retryAfter) <= cap
    ensures retryAfter.Some? && retryAfter.value <= cap ==> retryAfter.value <= Capped(cap, low, retryAfter)
    ensures Capped(cap, low, retryAfter) <= Capped(cap, high, retryAfter)
  {
  }
}
