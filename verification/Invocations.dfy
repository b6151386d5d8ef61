/**
 * One durable invocation row and everything the engine may do to it. Each operation
 * answers with the new row or refuses and leaves the row alone.
 */
module Invocations {
  import opened Wrappers

  datatype Status = Pending | Dispatched | Running | Completed | Failed | Blocked | Cancelled

  datatype Delivery = NotSubmitted | Submitted | Acknowledged | InProgress | DeliveryFailed | Uncertain

  datatype AttemptState = Prepared | Sent | Accepted | Lost | Doubtful

  datatype Reconciliation = NotRequired | Due | Resolved | Unsupported

  datatype ExecutionOutcome = Performed | NotPerformed | Unknown

  datatype CancelState = NotRequested | Requested | CancelAcknowledged | CancelUnsupported

  datatype CancelSupport = NoCancel | UnsupportedCancel | Cooperative | Hard

  datatype ReplaySupport = NoReplay | StatusReplay | FullReplay

  /** Rows migrated from before fingerprints existed carry a marker instead of one. */
  datatype Fingerprint = Effect(hash: nat) | Legacy(tag: nat)

  /** What the registered capability fixes for the life of an invocation. */
  datatype Terms = Terms(idempotent: bool, maxAttempts: nat, cancel: CancelSupport, replay: ReplaySupport)

  /**
   * `attempts[i]` is attempt number `i`, and `evidence` counts the stored evidence references, which are numbered.
   * Two fields are history only: `calls[i]` counts how often the connector's effectful entry ran on behalf of
   * attempt `i`, and `required` says whether the capability required owner verification when the row was minted.
   */
  datatype Row = Row(
    mission: nat, step: nat, fingerprint: Fingerprint, terms: Terms, required: bool,
    status: Status, completedAt: bool, verdict: Option<bool>, evidence: nat,
    attempt: nat, eligibleAt: Option<int>, attempts: seq<AttemptState>,
    delivery: Delivery, handle: bool,
    cancelRequested: bool, cancelState: CancelState,
    reconciliation: Reconciliation, outcome: Option<ExecutionOutcome>,
    calls: seq<nat>)

  function Minted(mission: nat, step: nat, fingerprint: Fingerprint, terms: Terms, required: bool): Row {
    Row(mission, step, fingerprint, terms, required, Dispatched, false, None, 0, 0, None, [Prepared], NotSubmitted,
        false, false, NotRequested, NotRequired, None, [0])
  }

  predicate IsTerminal(s: Status) {
    s.Completed? || s.Cancelled?
  }

  /** The statuses that carry a completion time. */
  predicate IsFinished(s: Status) {
    s.Completed? || s.Failed? || s.Cancelled?
  }

  predicate HasUncertainDelivery(r: Row) {
    r.delivery.Uncertain? || Doubtful in r.attempts
  }

  predicate MayBecome(current: Status, next: Status) {
    current == next
    || match current
       case Pending => true
       case Dispatched => !next.Pending?
       case Running => next.Completed? || next.Failed? || next.Blocked? || next.Cancelled?
       case Failed => next.Pending?
       case Blocked => next.Running? || next.Completed? || next.Failed? || next.Cancelled?
       case Completed => false
       case Cancelled => false
  }

  // ----- Attempts ----------------------------------------------------------------------------

  function AttemptAfter(current: AttemptState, status: Status): AttemptState {
    match status
    case Failed => Lost
    case Completed => Accepted
    case Cancelled => Accepted
    case Blocked => Doubtful
    case Running => if current.Sent? then Accepted else current
    case _ => current
  }

  /** Only the last attempt is ever touched. */
  function LastAttempt(attempts: seq<AttemptState>, next: AttemptState -> AttemptState): (r: seq<AttemptState>)
    ensures |r| == |attempts|
  {
    if attempts == [] then [] else attempts[|attempts| - 1 := next(attempts[|attempts| - 1])]
  }

  function UpdateAttempt(attempts: seq<AttemptState>, status: Status): (r: seq<AttemptState>)
    ensures |r| == |attempts|
  {
    LastAttempt(attempts, a => AttemptAfter(a, status))
  }

  // ----- Handoff -----------------------------------------------------------------------------

  predicate HandoffAllowed(current: Delivery, next: Delivery) {
    current == next || (next.Uncertain? && !current.DeliveryFailed?) || current.NotSubmitted?
    || (current.Submitted? && (next.Acknowledged? || next.InProgress?))
  }

  function HandedOff(current: AttemptState, delivery: Delivery): AttemptState {
    if !current.Prepared? && !current.Sent? then current
    else if delivery.Acknowledged? || delivery.InProgress? then Accepted
    else if delivery.Uncertain? then Doubtful
    else Sent
  }

  /** `handle` says whether an owner operation handle comes along, and whether it may be stored. */
  datatype Handle = NoHandle | Storable | Unstorable

  function MarkHandoff(r: Row, delivery: Delivery, handle: Handle): Option<Row> {
    if IsTerminal(r.status) then Some(r)
    else if r.cancelRequested || handle.Unstorable? || !HandoffAllowed(r.delivery, delivery) then None
    else
      var next := if delivery.InProgress? then Running else Dispatched;
      if !MayBecome(r.status, next) then None
      else Some(r.(status := if r.status.Running? then Running else next,
                   delivery := delivery,
                   handle := r.handle || handle.Storable?,
                   attempts := LastAttempt(r.attempts, a => HandedOff(a, delivery)),
                   reconciliation := if delivery.Uncertain? || delivery.Submitted? then Due else r.reconciliation))
  }

  /** The connector's effectful entry runs. */
  function Called(r: Row): Row {
    if r.calls == [] then r else r.(calls := r.calls[|r.calls| - 1 := r.calls[|r.calls| - 1] + 1])
  }

  // ----- Results -----------------------------------------------------------------------------

  /**
   * A submitted result: its status, an owner verdict that came with it, whether its parts may be stored, and
   * how many evidence references it carries.
   */
  datatype Submission = Submission(status: Status, claim: Option<bool>, storable: bool, evidence: nat)

  function ResultDelivery(status: Status, current: Delivery): Delivery {
    match status
    case Completed => Acknowledged
    case Running => InProgress
    case Failed => DeliveryFailed
    case Blocked => Uncertain
    case _ => current
  }

  function ResultReconciliation(status: Status, current: Reconciliation): Reconciliation {
    match status
    case Completed => Resolved
    case Failed => Resolved
    case Running => Due
    case Blocked => Due
    case _ => current
  }

  function ResultOutcome(status: Status, current: Option<ExecutionOutcome>): Option<ExecutionOutcome> {
    match status
    case Completed => Some(Performed)
    case Failed => Some(NotPerformed)
    case Running => Some(Unknown)
    case Blocked => Some(Unknown)
    case _ => current
  }

  /** A negative verdict is never replaced. */
  function VerdictAfter(current: Option<bool>, claim: Option<bool>, attested: Option<bool>): Option<bool> {
    if current == Some(false) then current else if claim.Some? then attested else current
  }

  predicate NormalResultAllowed(r: Row, status: Status) {
    var preHandoffFailure := status.Failed? && r.delivery.NotSubmitted?;
    (preHandoffFailure || (!r.delivery.NotSubmitted? && (r.status.Dispatched? || r.status.Running?)))
    && (HasUncertainDelivery(r) ==> status.Blocked?)
  }

  predicate ReconciledResultAllowed(r: Row) {
    r.reconciliation.Due? && !r.delivery.NotSubmitted?
  }

  /** The result gets as far as the verification authority, which is asked for nothing else. */
  predicate ReachesAuthority(r: Row, s: Submission, reconciled: bool, missionEnded: bool) {
    s.claim.Some? && !missionEnded && s.storable && !s.status.Pending? && !s.status.Dispatched?
    && (r.status.Cancelled?
        || (!r.status.Completed? && !s.status.Cancelled?
            && if reconciled then ReconciledResultAllowed(r) else NormalResultAllowed(r, s.status)))
  }

  /** The number of the attempt after the last one. */
  function NextAttempt(r: Row): nat {
    var next := if r.attempts == [] then 1 else |r.attempts|;
    if r.attempt < next then next else r.attempt
  }

  function Max(a: nat, b: nat): nat {
    if a < b then b else a
  }

  /** A repeated failure that brings neither evidence nor a verdict is not written. */
  predicate NothingNew(r: Row, s: Submission, status: Status) {
    r.status.Failed? && status.Failed? && s.evidence <= r.evidence && (s.claim.None? || r.verdict == Some(false))
  }

  function Settled(r: Row, status: Status, verdict: Option<bool>, evidence: nat): Row {
    r.(status := status,
       completedAt := r.completedAt || IsFinished(status),
       verdict := verdict,
       evidence := Max(r.evidence, evidence),
       attempts := UpdateAttempt(r.attempts, status),
       delivery := ResultDelivery(status, r.delivery),
       reconciliation := ResultReconciliation(status, r.reconciliation),
       outcome := ResultOutcome(status, r.outcome),
       attempt := if status.Failed? then NextAttempt(r) else r.attempt)
  }

  /**
   * `attested` is the verification authority's answer to the claim: a verdict, or a refusal.
   * `missionEnded` says that the mission completed or failed for good.
   */
  function RecordResult(
    r: Row, s: Submission, reconciled: bool, attested: Option<bool>, missionEnded: bool): Option<Row>
  {
    if missionEnded || !s.storable then None
    else if r.status.Cancelled? then if s.claim.Some? && attested.Some? then Some(r) else None
    else if s.status.Cancelled? then None
    else if r.status.Completed? then Some(r)
    else if reconciled && !ReconciledResultAllowed(r) then None
    else if !reconciled && !NormalResultAllowed(r, s.status) then None
    else if s.status.Pending? || s.status.Dispatched? then None
    else if s.claim.Some? && attested.None? then None
    else
      var verdict := VerdictAfter(r.verdict, s.claim, attested);
      var status := if verdict == Some(false) && s.status.Completed? then Failed else s.status;
      if !MayBecome(r.status, status) then None
      else if NothingNew(r, s, status) then Some(r)
      else Some(Settled(r, status, verdict, s.evidence))
  }

  /** A refusal by the authority refuses the result. */
  lemma AuthorityDecides(r: Row, s: Submission, reconciled: bool, missionEnded: bool)
    requires ReachesAuthority(r, s, reconciled, missionEnded)
    ensures RecordResult(r, s, reconciled, None, missionEnded).None?
  {
  }

  // ----- Reconciliation facts -----------------------------------------------------------------

  /** The one update the seam submits, apart from the state and the status. */
  function MarkReconciliation(r: Row, state: Reconciliation, status: Status): Option<Row> {
    if IsTerminal(r.status) then Some(r)
    else if r.delivery.NotSubmitted? || !r.reconciliation.Due? then None
    else if status.Completed? || status.Cancelled? || !MayBecome(r.status, status) then None
    else Some(r.(status := status, delivery := Uncertain, attempts := UpdateAttempt(r.attempts, status),
                 reconciliation := state, outcome := Some(Unknown)))
  }

  // ----- Cancellation -------------------------------------------------------------------------

  datatype CancelUpdate = CancelUpdate(
    state: CancelState, status: Option<Status>, delivery: Option<Delivery>,
    reconciliation: Reconciliation, outcome: Option<ExecutionOutcome>)

  predicate CancelStateAllowed(current: CancelState, next: CancelState) {
    current == next || (current.Requested? && (next.CancelAcknowledged? || next.CancelUnsupported?))
  }

  function RecordCancellationOutcome(r: Row, u: CancelUpdate): Option<Row> {
    var status := u.status.GetOr(r.status);
    if IsTerminal(r.status) then Some(r)
    else if !r.cancelRequested || !CancelStateAllowed(r.cancelState, u.state) then None
    else if u.delivery == Some(Submitted) || u.delivery == Some(NotSubmitted) || u.reconciliation.NotRequired? then None
    else if status != r.status && !status.Cancelled? then None
    else if !MayBecome(r.status, status) then None
    else if status.Cancelled?
         && (!r.terms.cancel.Hard? || !u.state.CancelAcknowledged? || u.outcome != Some(NotPerformed)) then None
    else if !status.Cancelled?
         && (u.reconciliation.Resolved? || u.outcome == Some(Performed) || u.outcome == Some(NotPerformed)) then None
    else Some(r.(status := status,
                 completedAt := r.completedAt || status.Cancelled?,
                 delivery := u.delivery.GetOr(if status.Cancelled? then DeliveryFailed else r.delivery),
                 cancelState := u.state,
                 reconciliation := u.reconciliation,
                 outcome := Some(u.outcome.GetOr(if status.Cancelled? then NotPerformed else Unknown)),
                 attempts := UpdateAttempt(r.attempts, status)))
  }

  function DropPrepared(attempts: seq<AttemptState>): (r: seq<AttemptState>)
    ensures |r| == |attempts|
  {
    seq(|attempts|, i requires 0 <= i < |attempts| => if attempts[i].Prepared? then Lost else attempts[i])
  }

  /** Cancels a row that never crossed the seam. The store turns an illegal status change down. */
  function CancelUnsubmitted(r: Row): Option<Row> {
    if IsTerminal(r.status) then Some(r)
    else if !r.delivery.NotSubmitted? || !MayBecome(r.status, Cancelled) then None
    else Some(r.(status := Cancelled, completedAt := true, cancelRequested := true, cancelState := CancelAcknowledged,
                 attempts := DropPrepared(r.attempts)))
  }

  /** What cancelling the mission does to one of its rows. */
  function CancelWithMission(r: Row): Option<Row> {
    if IsTerminal(r.status) then Some(r)
    else if r.delivery.NotSubmitted? then CancelUnsubmitted(r)
    else Some(r.(cancelRequested := true,
                 cancelState := if r.terms.cancel.NoCancel? || r.terms.cancel.UnsupportedCancel?
                                then CancelUnsupported else Requested,
                 reconciliation := Due))
  }

  // ----- Retry --------------------------------------------------------------------------------

  predicate IsDue(r: Row, now: int) {
    r.eligibleAt.Some? ==> now >= r.eligibleAt.value
  }

  predicate IsSafeRetryEligible(r: Row, now: int) {
    r.verdict != Some(false) && r.status.Failed? && r.attempt < r.terms.maxAttempts && r.terms.idempotent
    && !HasUncertainDelivery(r) && IsDue(r, now)
  }

  /** Prepares the next attempt; `eligibleAt` is when it may run. */
  function PrepareRetry(r: Row, now: int, eligibleAt: int): Option<Row> {
    if !IsSafeRetryEligible(r, now) || !(r.delivery.DeliveryFailed? || r.delivery.NotSubmitted?)
       || r.cancelRequested || r.attempts == [] || !r.attempts[|r.attempts| - 1].Lost? then None
    else
      Some(r.(status := Pending, completedAt := false,
              attempt := NextAttempt(r),
              eligibleAt := Some(eligibleAt), attempts := r.attempts + [Prepared],
              delivery := NotSubmitted, handle := false, reconciliation := NotRequired, outcome := None,
              calls := r.calls + [0]))
  }

  // ----- What every row satisfies ---------------------------------------------------------------

  function LastCalls(r: Row): nat
    requires r.calls != []
  {
    r.calls[|r.calls| - 1]
  }

  /** A row that was not handed off in its current attempt is untouched by it. */
  predicate Untouched(r: Row)
    requires r.calls != []
  {
    LastCalls(r) == 0 && !r.handle && !r.status.Completed? && r.verdict != Some(false) && Doubtful !in r.attempts
  }

  /** Once the connector was called, an unfinished row awaits reconciliation. */
  predicate AwaitsOwner(r: Row)
    requires r.calls != []
  {
    LastCalls(r) > 0 && !IsFinished(r.status) ==> r.reconciliation.Due? || r.reconciliation.Unsupported?
  }

  predicate RowOk(r: Row) {
    r.attempts != [] && |r.calls| == |r.attempts|
    && (r.completedAt <==> IsFinished(r.status))
    && (r.delivery.NotSubmitted? ==> Untouched(r)) && AwaitsOwner(r)
    && (r.status.Failed? ==> r.attempt == |r.attempts|) && r.attempt <= |r.attempts|
    && (|r.attempts| > 1 ==> r.terms.idempotent && |r.attempts| <= r.terms.maxAttempts)
  }

  /** No attempt has called the connector twice. */
  predicate AtMostOnce(r: Row) {
    EachOnce(r.calls)
  }

  predicate EachOnce(calls: seq<nat>) {
    forall i | 0 <= i < |calls| :: calls[i] <= 1
  }

  function Sum(calls: seq<nat>): nat {
    if calls == [] then 0 else calls[0] + Sum(calls[1..])
  }

  lemma {:induction false} SumBound(calls: seq<nat>)
    requires EachOnce(calls)
    ensures Sum(calls) <= |calls|
  {
    if calls != [] {
      SumBound(calls[1..]);
    }
  }

  /** However a row got here, its connector calls are bounded by its terms; without retries there is at most one. */
  lemma CallsBounded(r: Row)
    requires RowOk(r) && AtMostOnce(r)
    ensures Sum(r.calls) <= if r.terms.idempotent && r.terms.maxAttempts > 1 then r.terms.maxAttempts else 1
  {
    SumBound(r.calls);
  }

  /** `t` is `s` after a step that calls no connector: identity, terms and history stay, and so do terminal rows. */
  predicate QuietStep(s: Row, t: Row) {
    t.mission == s.mission && t.step == s.step && t.fingerprint == s.fingerprint && t.terms == s.terms
    && t.required == s.required && t.calls == s.calls && t.attempts != [] && |t.attempts| == |s.attempts|
    && (IsTerminal(s.status) ==> t == s)
    && (t.delivery.NotSubmitted? ==> s.delivery.NotSubmitted?)
    && (t.verdict != s.verdict ==> s.verdict != Some(false))
  }

  lemma MarkHandoffOk(r: Row, delivery: Delivery, handle: Handle)
    requires RowOk(r) && !delivery.NotSubmitted? && MarkHandoff(r, delivery, handle).Some?
    ensures RowOk(MarkHandoff(r, delivery, handle).value) && QuietStep(r, MarkHandoff(r, delivery, handle).value)
  {
  }

  lemma RecordResultOk(r: Row, s: Submission, reconciled: bool, attested: Option<bool>, missionEnded: bool)
    requires RowOk(r) && RecordResult(r, s, reconciled, attested, missionEnded).Some?
    ensures RowOk(RecordResult(r, s, reconciled, attested, missionEnded).value)
    ensures QuietStep(r, RecordResult(r, s, reconciled, attested, missionEnded).value)
  {
  }

  lemma MarkReconciliationOk(r: Row, state: Reconciliation, status: Status)
    requires RowOk(r) && MarkReconciliation(r, state, status).Some?
    requires (state.Due? || state.Unsupported?) && (status.Blocked? || (status.Failed? && r.status.Failed?))
    ensures RowOk(MarkReconciliation(r, state, status).value)
    ensures QuietStep(r, MarkReconciliation(r, state, status).value)
  {
  }

  lemma RecordCancellationOutcomeOk(r: Row, u: CancelUpdate)
    requires RowOk(r) && !r.delivery.NotSubmitted? && RecordCancellationOutcome(r, u).Some?
    ensures RowOk(RecordCancellationOutcome(r, u).value) && QuietStep(r, RecordCancellationOutcome(r, u).value)
  {
  }

  lemma CancelUnsubmittedOk(r: Row)
    requires RowOk(r) && CancelUnsubmitted(r).Some?
    ensures RowOk(CancelUnsubmitted(r).value) && QuietStep(r, CancelUnsubmitted(r).value)
  {
  }

  lemma CancelWithMissionOk(r: Row)
    requires RowOk(r) && CancelWithMission(r).Some?
    ensures RowOk(CancelWithMission(r).value) && QuietStep(r, CancelWithMission(r).value)
  {
  }

  /** Only preparing a retry makes a row submittable again, and it opens a new attempt for it. */
  lemma PrepareRetryOk(r: Row, now: int, eligibleAt: int)
    requires RowOk(r) && PrepareRetry(r, now, eligibleAt).Some?
    ensures RowOk(PrepareRetry(r, now, eligibleAt).value)
    ensures AtMostOnce(PrepareRetry(r, now, eligibleAt).value) <==> AtMostOnce(r)
    ensures r.status.Failed? && r.verdict != Some(false) && r.terms.idempotent
  {
    var t := PrepareRetry(r, now, eligibleAt).value;
    if AtMostOnce(t) {
      forall i | 0 <= i < |r.calls| ensures r.calls[i] <= 1 {
        assert t.calls[i] == r.calls[i];
      }
    }
  }
}
