/**
 * The dispatch seam as functions over the durable rows. A process may die before any
 * durable write or connector call: `fuse` counts how many of them it survives.
 */
module SeamSpec {
  import opened Wrappers
  import opened Json
  import opened Schema
  import opened ResultContract
  import opened Invocations

  const OPERATION_REF := Ascii("ownerOperationRef")
  const INPUT_REFS := Ascii("inputRefs")
  const DESIRED_OUTCOME := Ascii("desiredOutcome")
  const TO_STRING := Ascii("toString")

  /** What the registry declares for a capability; a schema that is not declarative data is absent. */
  datatype Contract = Contract(
    requiresVerification: bool, terms: Terms, inputSchema: Option<seq<Spec>>, resultSchema: Option<seq<Spec>>)

  /** A template literal can print the value: a data member named `toString` makes the conversion of an object raise. */
  predicate Prints(v: Value)
    decreases v
  {
    match v
    case Arr(items) => forall x | x in items :: Prints(x)
    case Obj(members) => forall m | m in members :: m.key != TO_STRING
    case _ => true
  }

  /** What foreign code may raise: an error, whose message is data like any other, or any other value. */
  datatype Thrown = AnError(message: Value) | Other(value: Value)

  /** A note about it can be written: it is turned into text and sanitized before anything is stored. */
  predicate Notable(t: Thrown) {
    match t
    case AnError(message) => message.Str?
    case Other(value) => Prints(value)
  }

  /** What an effectful or observing connector call did. */
  datatype Answer = Raised(thrown: Thrown) | Answered(raw: Value)

  /**
   * Everything outside the seam that one call meets: how far the process lives, whether the gates in front of it are
   * open, what the connector answers, and what the verification authority attests. `complaint` is what the check of
   * the connector raises where the semantics do not match, and `refusal` what the authority raises instead of
   * attesting.
   */
  datatype Call = Call(
    fuse: nat, gatesOpen: bool, authorized: bool, semanticsMatch: bool, complaint: Thrown, now: int,
    inputRefs: seq<Text>, desiredOutcome: Text, answer: Answer, attested: Option<bool>, refusal: Thrown,
    missionEnded: bool, available: bool, hasConnector: bool, canAsk: bool, canCancel: bool)

  /** The call as a seam meets it that has a connector for the capability, or none. */
  function Reached(call: Call, registered: bool): Call {
    call.(gatesOpen := call.gatesOpen && registered, hasConnector := registered,
          canCancel := call.canCancel && registered)
  }

  datatype Reason =
    | GateClosed
    | InputRejected
    | InvokeRaised
    | ResultRejected
    | BadEvidence
    | BadVerdict
    | EchoMismatch
    | Unprintable
    | EngineRefused

  datatype Ending = Died | Threw(reason: Reason) | Returned(status: Status)

  /** One row after an operation, what is left of the fuse, and how the operation ended. */
  datatype Exec = Exec(row: Row, fuse: nat, ending: Ending)

  type Rows = seq<Row>

  /**
   * Rows are numbered as they are minted: `requestId` is the identity a row's requests carry, which the connector
   * has to echo, and `storable` decides which opaque strings the engine stores: not blank, no secret.
   */
  datatype Host = Host(requestId: nat -> Text, storable: Text -> bool)

  // ----- Reading a result -----------------------------------------------------------------------

  function StatusOf(raw: Value): (s: Status)
    ensures s.Completed? || s.Failed? || s.Running? || s.Blocked?
  {
    var s := Read(raw, STATUS);
    if s == Str(Ascii("completed")) then Completed
    else if s == Str(Ascii("failed")) then Failed
    else if s == Str(Ascii("still_running")) then Running
    else Blocked
  }

  datatype Verdict = Absent | Malformed | Positive | Negative | Open

  /** A malformed verdict counts as absent where none is required. */
  function VerdictOf(raw: Value, required: bool): Verdict {
    var v := Read(raw, OWNER_VERIFICATION);
    if v.Undefined? then Absent
    else if OwnerVerificationIssue(v).Some? then if required then Malformed else Absent
    else match Get(v, VERIFIED)
      case Bool(b) => if b then Positive else Negative
      case _ => Open
  }

  predicate Echoes(raw: Value, id: nat, host: Host) {
    Read(raw, REQUEST_ID) == Str(host.requestId(id))
  }

  /** The engine stores the owner of every evidence item as an opaque string. */
  predicate EvidenceStorable(raw: Value, host: Host) {
    var e := Read(raw, EVIDENCE);
    e.Arr? ==> forall item | item in e.items :: Get(item, OWNER).Str? ==> host.storable(Get(item, OWNER).text)
  }

  function HandleOf(ref: Value, host: Host): Handle {
    if ref.Undefined? then NoHandle else if ref.Str? && host.storable(ref.text) then Storable else Unstorable
  }

  function EvidenceCount(evidence: Value): nat {
    if evidence.Arr? then |evidence.items| else 0
  }

  /** Everything the seam reads off a result that passed its schema. */
  datatype Reading = Reading(
    status: Status, verdict: Verdict, evidenceFits: bool, evidenceStorable: bool, evidence: nat,
    echoes: bool, idPrints: bool, summaryFits: bool, summaryPrints: bool, handle: Handle)

  function ReadingOf(raw: Value, id: nat, required: bool, host: Host): (f: Reading)
    ensures f.summaryFits ==> f.summaryPrints
  {
    var evidence, summary := Read(raw, EVIDENCE), Read(raw, SUMMARY);
    Reading(StatusOf(raw), VerdictOf(raw, required), EvidenceIssue(evidence).None?, EvidenceStorable(raw, host),
            EvidenceCount(evidence), Echoes(raw, id, host), Prints(Read(raw, REQUEST_ID)),
            summary.Str?, Prints(summary), HandleOf(Read(raw, OPERATION_REF), host))
  }

  /** The engine can store the summary and the evidence. */
  predicate ResultStorable(f: Reading) {
    f.summaryFits && f.evidenceStorable
  }

  function HandleDelivery(f: Reading): Delivery {
    match f.status
    case Running => InProgress
    case Completed => Acknowledged
    case _ => Uncertain
  }

  function Request(id: nat, call: Call, host: Host): Value {
    Obj([Member(REQUEST_ID, Str(host.requestId(id))),
         Member(INPUT_REFS, Arr(seq(|call.inputRefs|, i requires 0 <= i < |call.inputRefs| => Str(call.inputRefs[i])))),
         Member(DESIRED_OUTCOME, Str(call.desiredOutcome))])
  }

  predicate SchemaPasses(schema: Option<seq<Spec>>, v: Value) {
    schema.Some? && Evaluation(schema.value, v) == []
  }

  // ----- Dispatch ---------------------------------------------------------------------------------

  /** Tries to record one result and swallows a refusal. */
  function Swallow(r: Row, fuse: nat, status: Status, ending: Ending): Exec {
    if fuse == 0 then Exec(r, 0, Died)
    else Exec(RecordResult(r, Submission(status, None, true, 0), false, None, false).GetOr(r), fuse - 1, ending)
  }

  function Uncertainty(r: Row, fuse: nat, ending: Ending): Exec {
    Swallow(r, fuse, Blocked, ending)
  }

  /** Notes doubt about something that was raised, which has to become text first. */
  function UncertaintyOf(r: Row, fuse: nat, thrown: Thrown, ending: Ending): Exec {
    if Notable(thrown) then Uncertainty(r, fuse, ending) else Exec(r, fuse, Threw(Unprintable))
  }

  /** The write was refused by the verification authority, with something that cannot be noted. */
  predicate Mute(r: Row, s: Submission, reconciled: bool, missionEnded: bool, call: Call) {
    ReachesAuthority(r, s, reconciled, missionEnded) && call.attested.None? && !Notable(call.refusal)
  }

  /** What the last write submits: the connector's status, with a positive claim for attestation. */
  function Final(f: Reading): Submission {
    Submission(f.status, if f.verdict.Positive? then Some(true) else None, ResultStorable(f), f.evidence)
  }

  /** The second try carries no claim, and its summary is text made from the connector's. */
  function Bare(f: Reading): Submission {
    Submission(f.status, None, f.evidenceStorable, f.evidence)
  }

  /** After a refused claim that nobody required: the status alone, if the new summary can be made. */
  function SettleBare(r: Row, fuse: nat, f: Reading): Exec {
    if !f.summaryPrints then Exec(r, fuse, Threw(Unprintable))
    else if fuse == 0 then Exec(r, 0, Died)
    else
      var bare := RecordResult(r, Bare(f), false, None, false);
      if bare.Some? then Exec(bare.value, fuse - 1, Returned(f.status)) else Exec(r, fuse - 1, Threw(EngineRefused))
  }

  function Settle(r: Row, fuse: nat, f: Reading, contract: Contract, call: Call): Exec {
    if fuse == 0 then Exec(r, 0, Died)
    else
      var recorded := RecordResult(r, Final(f), false, call.attested, false);
      if recorded.Some? then Exec(recorded.value, fuse - 1, Returned(f.status))
      else if !f.verdict.Positive? then Exec(r, fuse - 1, Threw(EngineRefused))
      else if Mute(r, Final(f), false, false, call) then Exec(r, fuse - 1, Threw(Unprintable))
      else if contract.requiresVerification then Uncertainty(r, fuse - 1, Returned(Blocked))
      else SettleBare(r, fuse - 1, f)
  }

  /** What a negative verdict submits. */
  function Rejection(f: Reading): Submission {
    Submission(Failed, Some(false), f.evidenceStorable, f.evidence)
  }

  function Conclude(r: Row, fuse: nat, f: Reading, contract: Contract, call: Call): Exec {
    if f.verdict.Negative? then
      if fuse == 0 then Exec(r, 0, Died)
      else
        var recorded := RecordResult(r, Rejection(f), false, call.attested, false);
        if recorded.Some? then Exec(recorded.value, fuse - 1, Returned(Failed))
        else Uncertainty(r, fuse - 1, Returned(Blocked))
    else if contract.requiresVerification && !f.verdict.Positive? then Uncertainty(r, fuse, Returned(Blocked))
    else Settle(r, fuse, f, contract, call)
  }

  /** The note about a foreign request identity quotes it, before anything is written. */
  function Mismatch(r: Row, fuse: nat, f: Reading): Exec {
    if f.idPrints then Uncertainty(r, fuse, Threw(EchoMismatch)) else Exec(r, fuse, Threw(Unprintable))
  }

  /** The checks on a result that passed its schema, in dispatch order. */
  function Judge(r: Row, fuse: nat, f: Reading, contract: Contract, call: Call): Exec {
    if !f.evidenceFits then Uncertainty(r, fuse, Threw(BadEvidence))
    else if f.verdict.Malformed? then Uncertainty(r, fuse, Threw(BadVerdict))
    else if !f.echoes then Mismatch(r, fuse, f)
    else Conclude(r, fuse, f, contract, call)
  }

  predicate CarriesHandle(r: Row, f: Reading) {
    !f.handle.NoHandle? && !r.handle
  }

  /** Persists the owner's operation handle, then looks at the result; a refusal to store it escapes. */
  function TakeHandle(r: Row, fuse: nat, f: Reading, contract: Contract, call: Call): Exec {
    if fuse == 0 then Exec(r, 0, Died)
    else
      var marked := MarkHandoff(r, HandleDelivery(f), f.handle);
      if marked.None? then Exec(r, fuse - 1, Threw(EngineRefused)) else Judge(marked.value, fuse - 1, f, contract, call)
  }

  function ConsumeReading(r: Row, fuse: nat, f: Reading, contract: Contract, call: Call): Exec {
    if CarriesHandle(r, f) then TakeHandle(r, fuse, f, contract, call) else Judge(r, fuse, f, contract, call)
  }

  function ConsumeRaw(r: Row, id: nat, fuse: nat, raw: Value, contract: Contract, call: Call, host: Host): Exec {
    if !SchemaPasses(contract.resultSchema, raw) then Uncertainty(r, fuse, Threw(ResultRejected))
    else ConsumeReading(r, fuse, ReadingOf(raw, id, contract.requiresVerification, host), contract, call)
  }

  /** Everything after the connector answered. */
  function Consume(r: Row, id: nat, fuse: nat, contract: Contract, call: Call, host: Host): Exec {
    if call.answer.Raised? then UncertaintyOf(r, fuse, call.answer.thrown, Threw(InvokeRaised))
    else ConsumeRaw(r, id, fuse, call.answer.raw, contract, call, host)
  }

  /** The connector runs, and its answer is consumed. */
  function Invoked(r: Row, id: nat, fuse: nat, contract: Contract, call: Call, host: Host): Exec {
    Consume(Called(r), id, fuse, contract, call, host)
  }

  /** Makes the handoff durable and only then calls the connector. */
  function HandOver(r: Row, id: nat, fuse: nat, contract: Contract, call: Call, host: Host): Exec {
    if fuse == 0 then Exec(r, 0, Died)
    else
      var marked := MarkHandoff(r, Submitted, NoHandle);
      if marked.None? then Exec(r, fuse - 1, Threw(EngineRefused))
      else if fuse == 1 then Exec(marked.value, 0, Died)
      else Invoked(marked.value, id, fuse - 2, contract, call, host)
  }

  /** From the prepared or returned row to the end of the dispatch. */
  function Cross(r: Row, id: nat, fuse: nat, contract: Contract, call: Call, host: Host): Exec {
    if contract.inputSchema.None? then Uncertainty(r, fuse, Threw(InputRejected))
    else if !SchemaPasses(contract.inputSchema, Request(id, call, host)) then
      Swallow(r, fuse, Failed, Threw(InputRejected))
    else HandOver(r, id, fuse, contract, call, host)
  }

  // ----- Minting ------------------------------------------------------------------------------------

  predicate Blocks(r: Row, mission: nat, step: nat, fingerprint: Fingerprint) {
    r.mission == mission && r.step == step && (r.fingerprint == fingerprint || r.fingerprint.Legacy?)
  }

  predicate SameEffect(r: Row, mission: nat, fingerprint: Fingerprint) {
    r.mission == mission && r.fingerprint == fingerprint
  }

  predicate Barred(rows: Rows, mission: nat, step: nat, fingerprint: Fingerprint) {
    exists i | 0 <= i < |rows| :: Blocks(rows[i], mission, step, fingerprint)
  }

  /** The oldest row of the effect among those that are completed, or among all of them. */
  function FindEffect(rows: Rows, mission: nat, fingerprint: Fingerprint, completedOnly: bool, from: nat)
    : (r: Option<nat>)
    requires from <= |rows|
    ensures r.Some? ==> from <= r.value < |rows| && SameEffect(rows[r.value], mission, fingerprint)
                        && (completedOnly ==> rows[r.value].status.Completed?)
    ensures r.None? ==> forall i | from <= i < |rows| ::
      SameEffect(rows[i], mission, fingerprint) ==> completedOnly && !rows[i].status.Completed?
    decreases |rows| - from
  {
    if from == |rows| then None
    else if SameEffect(rows[from], mission, fingerprint) && (completedOnly ==> rows[from].status.Completed?) then
      Some(from)
    else FindEffect(rows, mission, fingerprint, completedOnly, from + 1)
  }

  /** What the engine hands the seam for a fresh step: a new row, an old completed one, or nothing. */
  datatype Claim = Refused | Existing(id: nat) | Mint

  function ClaimStep(rows: Rows, mission: nat, step: nat, fingerprint: Fingerprint): (c: Claim)
    ensures c.Existing? ==> c.id < |rows|
  {
    if Barred(rows, mission, step, fingerprint) then Refused
    else
      var done := FindEffect(rows, mission, fingerprint, true, 0);
      if done.Some? then Existing(done.value)
      else if FindEffect(rows, mission, fingerprint, false, 0).Some? then Refused
      else Mint
  }

  datatype Outcome = Outcome(rows: Rows, ending: Ending)

  function CrossAt(rows: Rows, id: nat, fuse: nat, contract: Contract, call: Call, host: Host): Outcome
    requires id < |rows|
  {
    var e := Cross(rows[id], id, fuse, contract, call, host);
    Outcome(rows[id := e.row], e.ending)
  }

  /** What follows the engine's answer to a fresh step. */
  function AfterClaim(
    rows: Rows, claim: Claim, minted: Row, contract: Contract, call: Call, host: Host): Outcome
    requires claim.Existing? ==> claim.id < |rows|
  {
    match claim
    case Refused => Outcome(rows, Threw(GateClosed))
    case Existing(id) => CrossAt(rows, id, call.fuse, contract, call, host)
    case Mint =>
      if call.fuse == 0 then Outcome(rows, Died)
      else CrossAt(rows + [minted], |rows|, call.fuse - 1, contract, call, host)
  }

  function DispatchFresh(
    rows: Rows, mission: nat, step: nat, fingerprint: Fingerprint, contract: Contract, call: Call, host: Host): Outcome
  {
    if !call.gatesOpen || !call.authorized then Outcome(rows, Threw(GateClosed))
    else AfterClaim(rows, ClaimStep(rows, mission, step, fingerprint),
                    Minted(mission, step, fingerprint, contract.terms, contract.requiresVerification),
                    contract, call, host)
  }

  /** Only prepared, due work that was never submitted and never asked to stop may be resumed. */
  predicate MayResume(r: Row, contract: Contract, call: Call) {
    call.gatesOpen && call.authorized && !IsTerminal(r.status) && !r.cancelRequested && r.delivery.NotSubmitted?
    && (r.status.Pending? || r.status.Dispatched?) && IsDue(r, call.now)
    && r.terms == contract.terms && call.semanticsMatch
  }

  function DispatchPersisted(rows: Rows, id: nat, contract: Contract, call: Call, host: Host): Outcome {
    if id >= |rows| || !MayResume(rows[id], contract, call) then Outcome(rows, Threw(GateClosed))
    else CrossAt(rows, id, call.fuse, contract, call, host)
  }

  // ----- Passages -----------------------------------------------------------------------------------

  /** Where a dispatch crosses the seam: the rows by then, the row that crosses, and what is left of the fuse. */
  datatype Passage = Passage(rows: Rows, id: nat, fuse: nat)

  function FreshPassage(
    rows: Rows, mission: nat, step: nat, fingerprint: Fingerprint, contract: Contract, call: Call)
    : (p: Option<Passage>)
    ensures p.Some? ==> p.value.id < |p.value.rows|
  {
    if !call.gatesOpen || !call.authorized then None
    else match ClaimStep(rows, mission, step, fingerprint)
         case Refused => None
         case Existing(id) => Some(Passage(rows, id, call.fuse))
         case Mint =>
           if call.fuse == 0 then None
           else Some(Passage(rows + [Minted(mission, step, fingerprint, contract.terms, contract.requiresVerification)],
                             |rows|, call.fuse - 1))
  }

  function ResumedPassage(rows: Rows, id: nat, contract: Contract, call: Call): (p: Option<Passage>)
    ensures p.Some? ==> p.value.id < |p.value.rows|
  {
    if id >= |rows| || !MayResume(rows[id], contract, call) then None else Some(Passage(rows, id, call.fuse))
  }

  function Crossed(p: Passage, contract: Contract, call: Call, host: Host): Outcome
    requires p.id < |p.rows|
  {
    CrossAt(p.rows, p.id, p.fuse, contract, call, host)
  }

  // ----- Reconciliation --------------------------------------------------------------------------------

  /** Writes down that nothing is known yet; a refusal by the engine escapes. */
  function Observe(r: Row, fuse: nat, state: Reconciliation, status: Status, ending: Row -> Ending): Exec {
    if fuse == 0 then Exec(r, 0, Died)
    else
      var marked := MarkReconciliation(r, state, status);
      if marked.None? then Exec(r, fuse - 1, Threw(EngineRefused))
      else Exec(marked.value, fuse - 1, ending(marked.value))
  }

  function StillUnknown(r: Row, fuse: nat, ending: Row -> Ending): Exec {
    Observe(r, fuse, Due, Blocked, ending)
  }

  /** The same, but a refusal by the engine is swallowed. */
  function ReconciliationProblem(r: Row, fuse: nat, ending: Ending): Exec {
    if fuse == 0 then Exec(r, 0, Died)
    else
      var status := if r.status.Failed? then Failed else Blocked;
      Exec(MarkReconciliation(r, Due, status).GetOr(r), fuse - 1, ending)
  }

  /** A status replay carries no evidence, so only a full replay needs it storable. */
  predicate ReplayStorable(f: Reading, contract: Contract) {
    f.summaryFits && (contract.terms.replay.FullReplay? ==> f.evidenceStorable)
  }

  function ClaimOf(verdict: Verdict): Option<bool> {
    if verdict.Positive? then Some(true) else if verdict.Negative? then Some(false) else None
  }

  /** What reconciliation submits, with or without the owner's claim. */
  function Replay(f: Reading, claim: Option<bool>, contract: Contract): Submission {
    Submission(f.status, claim, ReplayStorable(f, contract),
               if contract.terms.replay.FullReplay? then f.evidence else 0)
  }

  /** Submits the owner's answer for an earlier handoff. */
  function Promote(r: Row, fuse: nat, f: Reading, contract: Contract, call: Call): Exec {
    var claim := ClaimOf(f.verdict);
    if fuse == 0 then Exec(r, 0, Died)
    else
      var recorded := RecordResult(r, Replay(f, claim, contract), true, call.attested, call.missionEnded);
      if recorded.Some? then Exec(recorded.value, fuse - 1, Returned(recorded.value.status))
      else if claim == Some(true) && !contract.requiresVerification then PromoteBare(r, fuse - 1, f, contract, call)
      else if Mute(r, Replay(f, claim, contract), true, call.missionEnded, call) then
        Exec(r, fuse - 1, Threw(Unprintable))
      else StillUnknown(r, fuse - 1, _ => Threw(EngineRefused))
  }

  /** The same without the claim, after it was refused. */
  function PromoteBare(r: Row, fuse: nat, f: Reading, contract: Contract, call: Call): Exec {
    if fuse == 0 then Exec(r, 0, Died)
    else
      var bare := RecordResult(r, Replay(f, None, contract), true, None, call.missionEnded);
      if bare.Some? then Exec(bare.value, fuse - 1, Returned(bare.value.status))
      else StillUnknown(r, fuse - 1, _ => Threw(EngineRefused))
  }

  /** The checks on an observed result, in reconciliation order. */
  function Weigh(r: Row, fuse: nat, f: Reading, contract: Contract, call: Call): Exec {
    if !f.evidenceFits then StillUnknown(r, fuse, _ => Threw(BadEvidence))
    else if !f.echoes then StillUnknown(r, fuse, _ => Threw(if f.idPrints then EchoMismatch else Unprintable))
    else if f.verdict.Malformed? then StillUnknown(r, fuse, _ => Threw(BadVerdict))
    else if contract.requiresVerification && (f.verdict.Absent? || f.verdict.Open?) then
      StillUnknown(r, fuse, (m: Row) => Returned(m.status))
    else Promote(r, fuse, f, contract, call)
  }

  function ReconcileRow(r: Row, id: nat, contract: Contract, call: Call, host: Host): Exec {
    var fuse := call.fuse;
    if IsTerminal(r.status) then Exec(r, fuse, Returned(r.status))
    else if !r.reconciliation.Due? then Exec(r, fuse, Threw(GateClosed))
    else if !call.hasConnector then ReconciliationProblem(r, fuse, Threw(GateClosed))
    else if contract.terms.replay.NoReplay? || !call.canAsk then
      Observe(r, fuse, Unsupported, if r.status.Failed? then Failed else Blocked, (m: Row) => Returned(m.status))
    else if !call.available || r.terms != contract.terms then ReconciliationProblem(r, fuse, Threw(GateClosed))
    else if !call.semanticsMatch then
      if Notable(call.complaint) then ReconciliationProblem(r, fuse, Threw(GateClosed))
      else Exec(r, fuse, Threw(Unprintable))
    else ReconcileAnswer(r, id, contract, call, host)
  }

  /** What the owner said or raised about an earlier handoff. */
  function ReconcileAnswer(r: Row, id: nat, contract: Contract, call: Call, host: Host): Exec {
    var fuse := call.fuse;
    if call.answer.Raised? && !Notable(call.answer.thrown) then Exec(r, fuse, Threw(Unprintable))
    else if call.answer.Raised? || call.answer.raw.Null? then StillUnknown(r, fuse, (m: Row) => Returned(m.status))
    else if !SchemaPasses(contract.resultSchema, call.answer.raw) then StillUnknown(r, fuse, _ => Threw(ResultRejected))
    else Weigh(r, fuse, ReadingOf(call.answer.raw, id, contract.requiresVerification, host), contract, call)
  }

  function Reconcile(rows: Rows, id: nat, contract: Contract, call: Call, host: Host): Outcome {
    if id >= |rows| then Outcome(rows, Threw(GateClosed))
    else
      var e := ReconcileRow(rows[id], id, contract, call, host);
      Outcome(rows[id := e.row], e.ending)
  }

  // ----- Cancellation ------------------------------------------------------------------------------------

  function Stop(r: Row, fuse: nat, u: CancelUpdate): Exec {
    if fuse == 0 then Exec(r, 0, Died)
    else
      var updated := RecordCancellationOutcome(r, u);
      if updated.None? then Exec(r, fuse - 1, Threw(EngineRefused))
      else Exec(updated.value, fuse - 1, Returned(updated.value.status))
  }

  /** A result a cancellation may read: owner verification plays no part. */
  predicate Usable(raw: Value, id: nat, contract: Contract, host: Host) {
    SchemaPasses(contract.resultSchema, raw) && EvidenceIssue(Read(raw, EVIDENCE)).None? && Echoes(raw, id, host)
  }

  const DOUBTFUL_STOP := CancelUpdate(Requested, Some(Blocked), Some(Uncertain), Due, None)

  function StopUpdate(r: Row, raw: Value, hard: bool): CancelUpdate {
    var active := if r.delivery.Submitted? then InProgress else r.delivery;
    match StatusOf(raw)
    case Completed =>
      if hard then CancelUpdate(CancelAcknowledged, Some(Cancelled), Some(DeliveryFailed), Resolved, Some(NotPerformed))
      else CancelUpdate(CancelAcknowledged, None, Some(active), Due, Some(Unknown))
    case Blocked =>
      if Read(raw, STATUS) == Str(Ascii("unknown"))
      then CancelUpdate(Requested, Some(Blocked), Some(Uncertain), Due, Some(Unknown))
      else CancelUpdate(Requested, None, Some(active), Due, Some(Unknown))
    case Running => CancelUpdate(Requested, None, Some(InProgress), Due, Some(Unknown))
    case _ => CancelUpdate(Requested, None, Some(active), Due, Some(Unknown))
  }

  function CancelRow(r: Row, id: nat, contract: Contract, call: Call, host: Host): Exec {
    var fuse := call.fuse;
    if IsTerminal(r.status) then Exec(r, fuse, Returned(r.status))
    else if !r.cancelRequested then Exec(r, fuse, Threw(GateClosed))
    else if !r.cancelState.Requested? || r.delivery.NotSubmitted? then Exec(r, fuse, Returned(r.status))
    else if contract.terms.cancel.NoCancel? || contract.terms.cancel.UnsupportedCancel? || !call.canCancel
         || !r.handle then
      Stop(r, fuse, CancelUpdate(CancelUnsupported, None, None, Due, None))
    else if !call.available || r.terms != contract.terms || !call.semanticsMatch then Exec(r, fuse, Threw(GateClosed))
    else if call.answer.Raised? && !Notable(call.answer.thrown) then Exec(r, fuse, Threw(Unprintable))
    else if call.answer.Raised? || !Usable(call.answer.raw, id, contract, host) then Stop(r, fuse, DOUBTFUL_STOP)
    else Stop(r, fuse, StopUpdate(r, call.answer.raw, contract.terms.cancel.Hard?))
  }

  function Cancel(rows: Rows, id: nat, contract: Contract, call: Call, host: Host): Outcome {
    if id >= |rows| then Outcome(rows, Threw(GateClosed))
    else
      var e := CancelRow(rows[id], id, contract, call, host);
      Outcome(rows[id := e.row], e.ending)
  }

  // ----- Runs ---------------------------------------------------------------------------------------------

  datatype Event =
    | EvDispatch(mission: nat, step: nat, hash: nat, contract: Contract, call: Call)
    | EvResume(id: nat, contract: Contract, call: Call)
    | EvReconcile(id: nat, contract: Contract, call: Call)
    | EvCancel(id: nat, contract: Contract, call: Call)
    | EvPrepareRetry(id: nat, now: int, eligibleAt: int)
    | EvCancelUnsubmitted(id: nat)
    | EvCancelWithMission(id: nat)

  function Rewrite(rows: Rows, id: nat, update: Row -> Option<Row>): Rows {
    if id >= |rows| then rows else rows[id := update(rows[id]).GetOr(rows[id])]
  }

  function Step(rows: Rows, e: Event, host: Host): Rows {
    match e
    case EvDispatch(mission, step, hash, contract, call) =>
      DispatchFresh(rows, mission, step, Effect(hash), contract, call, host).rows
    case EvResume(id, contract, call) => DispatchPersisted(rows, id, contract, call, host).rows
    case EvReconcile(id, contract, call) => Reconcile(rows, id, contract, call, host).rows
    case EvCancel(id, contract, call) => Cancel(rows, id, contract, call, host).rows
    case EvPrepareRetry(id, now, eligibleAt) => Rewrite(rows, id, r => PrepareRetry(r, now, eligibleAt))
    case EvCancelUnsubmitted(id) => Rewrite(rows, id, r => CancelUnsubmitted(r))
    case EvCancelWithMission(id) => Rewrite(rows, id, r => CancelWithMission(r))
  }

  function Run(rows: Rows, events: seq<Event>, host: Host): Rows
    decreases |events|
  {
    if events == [] then rows else Run(Step(rows, events[0], host), events[1..], host)
  }
}
