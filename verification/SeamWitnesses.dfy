/** Concrete runs that reach every way in which the seam does not do what it is documented to do. */
module SeamWitnesses {
  import opened Wrappers
  import opened Json
  import opened Schema
  import opened ResultContract
  import opened Invocations
  import opened SeamSpec
  import opened SeamProof
  import opened SeamSafety
  import opened SeamAgreement
  import opened SeamVerification

  // ----- Sample inputs ----------------------------------------------------------------------------------

  /** A capability with empty schemas, no retries, hard cancellation and full replay. */
  function SampleContract(required: bool): Contract {
    Contract(required, Terms(false, 0, Hard, FullReplay), Some([]), Some([]))
  }

  /** A result with an empty summary and no evidence, for some request, perhaps with a handle and a verdict. */
  function SampleOf(status: string, id: Value, handle: Value, verdict: Value): Value {
    Obj([Member(STATUS, Str(Ascii(status))), Member(REQUEST_ID, id), Member(SUMMARY, Str([])),
         Member(EVIDENCE, Arr([])), Member(OPERATION_REF, handle), Member(OWNER_VERIFICATION, verdict)])
  }

  function Sample(status: string, id: Value, handle: Value): Value {
    SampleOf(status, id, handle, Undefined)
  }

  function PositiveVerdict(): Value {
    Obj([Member(OWNER, Str(OWNER)), Member(VERIFIED, Bool(true)), Member(REASON, Str([]))])
  }

  /** An ordinary error. */
  function Quiet(): Thrown {
    AnError(Str([]))
  }

  /** Plain data that no template literal can print. */
  function Silent(): Value {
    Obj([Member(TO_STRING, Null)])
  }

  function SampleCall(answer: Answer, fuse: nat): Call {
    Call(fuse, true, true, true, Quiet(), 0, [], [], answer, None, Quiet(), false, true, true, true, true)
  }

  function SampleRow(): Row {
    Minted(0, 0, Effect(0), SampleContract(false).terms, false)
  }

  lemma KeysApart()
    ensures STATUS != REQUEST_ID && STATUS != SUMMARY && STATUS != EVIDENCE && STATUS != OPERATION_REF
    ensures STATUS != OWNER_VERIFICATION && REQUEST_ID != SUMMARY && REQUEST_ID != EVIDENCE
    ensures REQUEST_ID != OPERATION_REF && REQUEST_ID != OWNER_VERIFICATION && SUMMARY != EVIDENCE
    ensures SUMMARY != OPERATION_REF && SUMMARY != OWNER_VERIFICATION && EVIDENCE != OPERATION_REF
    ensures EVIDENCE != OWNER_VERIFICATION && OPERATION_REF != OWNER_VERIFICATION
  {
    AsciiApart("status", "requestId");
    AsciiApart("status", "summary");
    AsciiApart("status", "evidence");
    AsciiApart("status", "ownerOperationRef");
    AsciiApart("status", "ownerVerification");
    AsciiApart("requestId", "summary");
    AsciiApart("requestId", "evidence");
    AsciiApart("requestId", "ownerOperationRef");
    AsciiApart("requestId", "ownerVerification");
    AsciiApart("summary", "evidence");
    AsciiApart("summary", "ownerOperationRef");
    AsciiApart("summary", "ownerVerification");
    AsciiApart("evidence", "ownerOperationRef");
    AsciiApart("evidence", "ownerVerification");
    OperationIsNotVerification();
  }

  lemma OperationIsNotVerification()
    ensures OPERATION_REF != OWNER_VERIFICATION
  {
    assert "ownerOperationRef"[5] == 'O' && "ownerVerification"[5] == 'V';
    assert Ascii("ownerOperationRef")[5] != Ascii("ownerVerification")[5];
  }

  lemma SampleKeys(status: string, id: Value, handle: Value, verdict: Value)
    ensures DistinctKeys(SampleOf(status, id, handle, verdict).members)
  {
    KeysApart();
  }

  lemma SampleMember(status: string, id: Value, handle: Value, verdict: Value, n: nat)
    requires n < 6
    ensures
      var raw := SampleOf(status, id, handle, verdict);
      Read(raw, raw.members[n].key) == raw.members[n].value
  {
    var ms := SampleOf(status, id, handle, verdict).members;
    SampleKeys(status, id, handle, verdict);
    SkipMember(ms, ms[n].key, n);
  }

  lemma SampleMembers(status: string, id: Value, handle: Value, verdict: Value)
    ensures
      var raw := SampleOf(status, id, handle, verdict);
      Read(raw, STATUS) == Str(Ascii(status)) && Read(raw, REQUEST_ID) == id && Read(raw, SUMMARY) == Str([])
      && Read(raw, EVIDENCE) == Arr([]) && Read(raw, OPERATION_REF) == handle
      && Read(raw, OWNER_VERIFICATION) == verdict
  {
    SampleMember(status, id, handle, verdict, 0);
    SampleMember(status, id, handle, verdict, 1);
    SampleMember(status, id, handle, verdict, 2);
    SampleMember(status, id, handle, verdict, 3);
    SampleMember(status, id, handle, verdict, 4);
    SampleMember(status, id, handle, verdict, 5);
  }

  lemma SampleReads(status: string, id: Value, handle: Value, n: nat, required: bool, host: Host)
    ensures ReadingOf(Sample(status, id, handle), n, required, host)
         == Reading(StatusOf(Sample(status, id, handle)), Absent, true, true, 0, id == Str(host.requestId(n)),
                    Prints(id), true, true, HandleOf(handle, host))
  {
    SampleMembers(status, id, handle, Undefined);
  }

  lemma SampleStatus(id: Value, handle: Value)
    ensures StatusOf(Sample("completed", id, handle)).Completed? && StatusOf(Sample("failed", id, handle)).Failed?
  {
    AsciiApart("failed", "completed");
    SampleMembers("completed", id, handle, Undefined);
    SampleMembers("failed", id, handle, Undefined);
  }

  /** What the seam reads off a sample that answers for the right request. */
  function EchoedReading(status: Status, handle: Handle): Reading {
    Reading(status, Absent, true, true, 0, true, true, true, true, handle)
  }

  function Echoed(status: string, handle: Value, host: Host): Value {
    Sample(status, Str(host.requestId(0)), handle)
  }

  lemma EchoedReads(handle: Value, host: Host)
    ensures ReadingOf(Echoed("completed", handle, host), 0, false, host)
         == EchoedReading(Completed, HandleOf(handle, host))
    ensures ReadingOf(Echoed("failed", handle, host), 0, false, host)
         == EchoedReading(Failed, HandleOf(handle, host))
  {
    SampleStatus(Str(host.requestId(0)), handle);
    SampleReads("completed", Str(host.requestId(0)), handle, 0, false, host);
    SampleReads("failed", Str(host.requestId(0)), handle, 0, false, host);
  }

  lemma EmptySchemaPasses(status: string, id: Value, handle: Value)
    ensures SchemaPasses(Some([]), Sample(status, id, handle))
  {
  }

  // ----- Errors that escape past every write ---------------------------------------------------------------

  /** A failed result that carries an operation handle: the dispatch throws, and the row is not blocked. */
  lemma StrandedHappens(ref: Text, host: Host)
    requires host.storable(ref)
    ensures
      var call := SampleCall(Answered(Echoed("failed", Str(ref), host)), 9);
      var o := DispatchFresh([], 0, 0, Effect(0), SampleContract(false), call, host);
      o.ending.Threw? && |o.rows| == 1 && o.rows[0].calls == [1] && !o.rows[0].status.Blocked?
  {
    EchoedReads(Str(ref), host);
    EmptySchemaPasses("failed", Str(host.requestId(0)), Str(ref));
    FailedHandleStrands(SampleContract(false), SampleCall(Answered(Echoed("failed", Str(ref), host)), 9));
    FirstThrows(Echoed("failed", Str(ref), host), host);
  }

  lemma FailedHandleStrands(contract: Contract, call: Call)
    requires !contract.requiresVerification
    ensures Stranded(EchoedReading(Failed, Storable), contract, call)
  {
  }

  /** A result for another request whose identity is an object with a member `toString`: the same. */
  lemma UnquotableHappens(status: string, host: Host)
    ensures
      var id := Silent();
      var call := SampleCall(Answered(Sample(status, id, Undefined)), 9);
      var o := DispatchFresh([], 0, 0, Effect(0), SampleContract(false), call, host);
      o.ending.Threw? && |o.rows| == 1 && o.rows[0].calls == [1] && !o.rows[0].status.Blocked?
  {
    var id := Silent();
    SilentIsSilent();
    SampleReads(status, id, Undefined, 0, false, host);
    EmptySchemaPasses(status, id, Undefined);
    FirstThrows(Sample(status, id, Undefined), host);
  }

  lemma SilentIsSilent()
    ensures !Prints(Silent()) && !Notable(Other(Silent())) && !Notable(AnError(Silent()))
  {
    assert Member(TO_STRING, Null) in Silent().members;
  }

  /** A connector that raises plain data that cannot be printed, or an error whose message is no text: the same. */
  lemma UnnotableRaiseHappens(thrown: Thrown, host: Host)
    requires thrown in [Other(Silent()), AnError(Silent())]
    ensures
      var o := DispatchFresh([], 0, 0, Effect(0), SampleContract(false), SampleCall(Raised(thrown), 9), host);
      o.ending.Threw? && |o.rows| == 1 && o.rows[0].calls == [1] && !o.rows[0].status.Blocked?
  {
    SilentIsSilent();
    FirstDispatch(SampleContract(false), SampleCall(Raised(thrown), 9), host);
    FirstCrossThrows(SampleContract(false), SampleCall(Raised(thrown), 9), host);
  }

  /** A completed result for the right request, with a positive verdict of the owner. */
  function Vouched(host: Host): Value {
    SampleOf("completed", Str(host.requestId(0)), Undefined, PositiveVerdict())
  }

  /** The authority refuses it with plain data that cannot be printed. */
  function MutedCall(host: Host): Call {
    SampleCall(Answered(Vouched(host)), 9).(refusal := Other(Silent()))
  }

  /** A positive verdict, required or not, that the authority refuses with what cannot be printed: the same. */
  lemma MutedRefusalHappens(required: bool, host: Host)
    ensures
      var o := DispatchFresh([], 0, 0, Effect(0), SampleContract(required), MutedCall(host), host);
      o.ending.Threw? && |o.rows| == 1 && o.rows[0].calls == [1] && !o.rows[0].status.Blocked?
  {
    VouchedStrands(required, host);
    FirstDispatch(SampleContract(required), MutedCall(host), host);
    FirstCrossThrows(SampleContract(required), MutedCall(host), host);
  }

  function VouchedReading(): Reading {
    Reading(Completed, Positive, true, true, 0, true, true, true, true, NoHandle)
  }

  lemma VouchedStrands(required: bool, host: Host)
    ensures Strands(0, SampleContract(required), MutedCall(host), host)
  {
    VouchedReads(required, host);
    EmptySchemaTakes(Vouched(host));
    SilentIsSilent();
    VouchedMutes(SampleContract(required), MutedCall(host));
  }

  lemma VouchedMutes(contract: Contract, call: Call)
    requires call.attested.None? && !Notable(call.refusal)
    ensures Stranded(VouchedReading(), contract, call)
  {
  }

  lemma EmptySchemaTakes(raw: Value)
    requires raw.Obj?
    ensures SchemaPasses(Some([]), raw)
  {
  }

  lemma VouchedVerdict(required: bool, host: Host)
    ensures VerdictOf(Vouched(host), required).Positive?
  {
    PositiveIsPositive();
    SampleMembers("completed", Str(host.requestId(0)), Undefined, PositiveVerdict());
    PositiveRead(Vouched(host), PositiveVerdict(), required);
  }

  lemma PositiveRead(raw: Value, verdict: Value, required: bool)
    requires Read(raw, OWNER_VERIFICATION) == verdict && !verdict.Undefined?
    requires OwnerVerificationIssue(verdict).None? && Get(verdict, VERIFIED) == Bool(true)
    ensures VerdictOf(raw, required).Positive?
  {
  }

  lemma VouchedReads(required: bool, host: Host)
    ensures ReadingOf(Vouched(host), 0, required, host) == VouchedReading()
  {
    VouchedVerdict(required, host);
    SampleMembers("completed", Str(host.requestId(0)), Undefined, PositiveVerdict());
  }

  lemma PositiveIsPositive()
    ensures OwnerVerificationIssue(PositiveVerdict()).None? && Get(PositiveVerdict(), VERIFIED) == Bool(true)
  {
    var ms := PositiveVerdict().members;
    AsciiApart("owner", "verified");
    AsciiApart("owner", "reason");
    AsciiApart("verified", "reason");
    SkipMember(ms, OWNER, 0);
    SkipMember(ms, VERIFIED, 1);
    SkipMember(ms, REASON, 2);
  }

  lemma FirstThrows(raw: Value, host: Host)
    requires SchemaPasses(Some([]), raw)
    requires Stranded(ReadingOf(raw, 0, false, host), SampleContract(false), SampleCall(Answered(raw), 9))
    ensures
      var call := SampleCall(Answered(raw), 9);
      var o := DispatchFresh([], 0, 0, Effect(0), SampleContract(false), call, host);
      o.ending.Threw? && |o.rows| == 1 && o.rows[0].calls == [1] && !o.rows[0].status.Blocked?
  {
    FirstDispatch(SampleContract(false), SampleCall(Answered(raw), 9), host);
    FirstCrossThrows(SampleContract(false), SampleCall(Answered(raw), 9), host);
  }

  lemma FirstCrossThrows(contract: Contract, call: Call, host: Host)
    requires contract.inputSchema == Some([]) && call.fuse == 9 && Strands(0, contract, call, host)
    ensures
      var m := Minted(0, 0, Effect(0), contract.terms, contract.requiresVerification);
      var e := Cross(m, 0, 8, contract, call, host);
      e.ending.Threw? && e.row.calls == [1] && !e.row.status.Blocked?
  {
    var m := Minted(0, 0, Effect(0), contract.terms, contract.requiresVerification);
    FirstCalls(contract, call, host);
    ThrowsBlockIff(m, 0, 8, contract, call, host);
    CrossOk(m, 0, 8, contract, call, host);
  }

  lemma FirstPassage(contract: Contract, call: Call)
    requires call.gatesOpen && call.authorized && call.fuse > 0
    ensures
      var m := Minted(0, 0, Effect(0), contract.terms, contract.requiresVerification);
      FreshPassage([], 0, 0, Effect(0), contract, call) == Some(Passage([m], 0, call.fuse - 1))
  {
    var m := Minted(0, 0, Effect(0), contract.terms, contract.requiresVerification);
    assert ClaimStep([], 0, 0, Effect(0)).Mint?;
    assert [] + [m] == [m];
  }

  lemma FirstDispatch(contract: Contract, call: Call, host: Host)
    requires call.gatesOpen && call.authorized && call.fuse > 0
    ensures
      var m := Minted(0, 0, Effect(0), contract.terms, contract.requiresVerification);
      DispatchFresh([], 0, 0, Effect(0), contract, call, host)
      == Crossed(Passage([m], 0, call.fuse - 1), contract, call, host)
  {
    FirstPassage(contract, call);
    FreshIsPassage([], 0, 0, Effect(0), contract, call, host);
  }

  lemma FirstCalls(contract: Contract, call: Call, host: Host)
    requires contract.inputSchema == Some([]) && call.fuse >= 3
    ensures
      var m := Minted(0, 0, Effect(0), contract.terms, contract.requiresVerification);
      Ready(m) && Calls(m, 0, call.fuse - 1, contract, call, host)
  {
  }

  /** The same failed result leaves the row dispatched, where a later reconciliation leaves it failed. */
  lemma PartingHappens(ref: Text, host: Host)
    requires host.storable(ref)
    ensures
      var contract, h := SampleContract(false), Handed(SampleRow());
      var call := SampleCall(Answered(Echoed("failed", Str(ref), host)), 9);
      Asks(h, contract, call) && Consume(h, 0, 9, contract, call, host).row.status.Dispatched?
      && ReconcileRow(h, 0, contract, call, host).row.status.Failed?
  {
    var contract, h := SampleContract(false), Handed(SampleRow());
    var raw := Echoed("failed", Str(ref), host);
    EchoedReads(Str(ref), host);
    EmptySchemaPasses("failed", Str(host.requestId(0)), Str(ref));
    HandedAtOwner(SampleRow());
    ReadWeighed(h, raw, contract, host);
    FailedParts(h, SampleCall(Answered(raw), 9));
  }

  lemma FailedParts(h: Row, call: Call)
    requires AtOwner(h) && call.fuse == 9 && !call.missionEnded
    ensures
      var contract, f := SampleContract(false), EchoedReading(Failed, Storable);
      ConsumeReading(h, 9, f, contract, call).row.status.Dispatched?
      && Weigh(h, 9, f, contract, call).row.status.Failed?
  {
    var contract, f := SampleContract(false), EchoedReading(Failed, Storable);
    DispatchLeaves(h, 9, f, contract, call);
    WeighLeaves(h, 9, f, contract, call);
  }

  lemma ReadWeighed(h: Row, raw: Value, contract: Contract, host: Host)
    requires SchemaPasses(contract.resultSchema, raw) && !raw.Null? && !contract.requiresVerification
    requires Asks(h, contract, SampleCall(Answered(raw), 9))
    ensures
      var f := ReadingOf(raw, 0, false, host);
      var call := SampleCall(Answered(raw), 9);
      Consume(h, 0, 9, contract, call, host) == ConsumeReading(h, 9, f, contract, call)
      && ReconcileRow(h, 0, contract, call, host) == Weigh(h, 9, f, contract, call)
  {
  }

  // ----- A step that is consumed without a call --------------------------------------------------------------

  /** A capability whose requests would need a member that the seam never sends. */
  function DemandingContract(): Contract {
    SampleContract(false).(inputSchema := Some([Required(SUMMARY, [TString], None)]))
  }

  /** The request violates the input schema: the step ends failed, and nothing was called. */
  lemma RejectionConsumes(host: Host)
    ensures
      var o := DispatchFresh([], 0, 0, Effect(0), DemandingContract(), SampleCall(Raised(Quiet()), 9), host);
      |o.rows| == 1 && o.rows[0].status.Failed? && o.rows[0].calls == [0]
      && ClaimStep(o.rows, 0, 0, Effect(0)).Refused?
  {
    var call := SampleCall(Raised(Quiet()), 9);
    RequestLacksSummary(call, host);
    assert ClaimStep([], 0, 0, Effect(0)).Mint?;
    ConsumedWithoutCallIff([], 0, 0, Effect(0), DemandingContract(), call, host);
  }

  lemma RequestLacksSummary(call: Call, host: Host)
    ensures !SchemaPasses(DemandingContract().inputSchema, Request(0, call, host))
  {
    AsciiApart("summary", "requestId");
    AsciiApart("summary", "inputRefs");
    AsciiApart("summary", "desiredOutcome");
    var request, spec := Request(0, call, host), Required(SUMMARY, [TString], None);
    var ms := request.members;
    assert Lookup(ms, SUMMARY) == Lookup(ms[1..], SUMMARY) == Lookup(ms[2..], SUMMARY) == Lookup(ms[3..], SUMMARY);
    assert Read(request, SUMMARY).Undefined?;
    EvaluationExact([spec], request);
    assert !Satisfies(spec, request) && spec in [spec];
  }

  // ----- A cancellation that escapes --------------------------------------------------------------------------

  /** A row that runs at its owner, and that its mission asked to stop. */
  function StoppingRow(): Row {
    Handed(SampleRow()).(handle := true, cancelRequested := true, cancelState := Requested)
  }

  /** The owner raises on cancellation: the engine's refusal escapes, and the row stays as it was. */
  lemma CancelEscapeHappens(host: Host)
    ensures
      var e := CancelRow(StoppingRow(), 0, SampleContract(false), SampleCall(Raised(Quiet()), 9), host);
      RowOk(StoppingRow()) && e.ending == Threw(EngineRefused) && e.row == StoppingRow()
  {
    CancelEscapesIff(StoppingRow(), 0, SampleContract(false), SampleCall(Raised(Quiet()), 9), host);
  }

  /** The owner raises what cannot be noted: it escapes even from a blocked row. */
  lemma UnnotableStopHappens(host: Host)
    ensures
      var r := StoppingRow().(status := Blocked);
      var e := CancelRow(r, 0, SampleContract(false), SampleCall(Raised(Other(Silent())), 9), host);
      RowOk(r) && e.ending == Threw(Unprintable) && e.row == r
  {
    SilentIsSilent();
    CancelEscapesIff(StoppingRow().(status := Blocked), 0, SampleContract(false),
                     SampleCall(Raised(Other(Silent())), 9), host);
  }

  // ----- A requirement that is dropped ------------------------------------------------------------------------

  /** The work is handed off under a registration that requires the owner's word, and the process dies. */
  function HandedOffEvent(): Event {
    EvDispatch(0, 0, 0, SampleContract(true), SampleCall(Raised(Quiet()), 2))
  }

  /** After a restart it is reconciled under one that does not; the engine's check of the terms does not notice. */
  function ReconciledEvent(host: Host): Event {
    EvReconcile(0, SampleContract(false), CompletedCall(host))
  }

  lemma SlipHappens(host: Host)
    ensures
      var rows := Run([], [HandedOffEvent(), ReconciledEvent(host)], host);
      |rows| == 1 && rows[0].required && Unattested(rows[0])
  {
    var e := ReconciledEvent(host);
    var rows := Step([], HandedOffEvent(), host);
    HandedOff(host);
    ReconciliationSlips(rows[0], host);
    RunOfTwo(HandedOffEvent(), e, host);
  }

  lemma ReconciliationSlips(h: Row, host: Host)
    requires RowOk(h) && AtOwner(h) && h.required && h.verdict.None? && h.terms == SampleContract(false).terms
    ensures
      var t := ReconcileRow(h, 0, SampleContract(false), CompletedCall(host), host).row;
      t.required && Unattested(t)
  {
    CompletionSlips(h, SampleContract(false), CompletedCall(host), host);
    ReconcileVerified(h, 0, SampleContract(false), CompletedCall(host), host);
  }

  lemma CompletionSlips(h: Row, contract: Contract, call: Call, host: Host)
    requires AtOwner(h) && h.required && h.verdict.None? && h.terms == contract.terms
    requires contract == SampleContract(false) && call == CompletedCall(host)
    ensures ReconcileSlips(h, 0, contract, call, host)
  {
    EchoedReads(Undefined, host);
    EmptySchemaPasses("completed", Str(host.requestId(0)), Undefined);
  }

  lemma HandedOff(host: Host)
    ensures
      var rows := Step([], HandedOffEvent(), host);
      |rows| == 1 && RowOk(rows[0]) && AtOwner(rows[0]) && rows[0].required && rows[0].verdict.None?
      && rows[0].terms == SampleContract(false).terms
  {
    var contract, call := SampleContract(true), SampleCall(Raised(Quiet()), 2);
    var m := Minted(0, 0, Effect(0), contract.terms, true);
    FirstDispatch(contract, call, host);
    assert SchemaPasses(contract.inputSchema, Request(0, call, host));
    assert HandOver(m, 0, 1, contract, call, host).row == MarkHandoff(m, Submitted, NoHandle).value;
  }

  lemma RunOfTwo(a: Event, b: Event, host: Host)
    ensures Run([], [a, b], host) == Step(Step([], a, host), b, host)
  {
    var events := [a, b];
    assert events[1..] == [b] && [b][1..] == [];
    assert Run([], events, host) == Run(Step([], a, host), [b], host);
    assert Run(Step([], a, host), [b], host) == Run(Step(Step([], a, host), b, host), [], host);
  }

  // ----- The one way to call twice -----------------------------------------------------------------------

  function CompletedCall(host: Host): Call {
    SampleCall(Answered(Echoed("completed", Undefined, host)), 9)
  }

  function FailedCall(host: Host): Call {
    SampleCall(Answered(Echoed("failed", Undefined, host)), 9)
  }

  /** One step of a mission, and one effect for all of them. */
  function SampleDispatch(step: nat, call: Call): Event {
    EvDispatch(0, step, 0, SampleContract(false), call)
  }

  lemma FirstCompletes(host: Host)
    ensures
      var rows := Step([], SampleDispatch(0, CompletedCall(host)), host);
      |rows| == 1 && RowOk(rows[0]) && rows[0].status.Completed? && rows[0].calls == [1]
      && rows[0].mission == 0 && rows[0].step == 0 && rows[0].fingerprint == Effect(0)
  {
    FirstDispatch(SampleContract(false), CompletedCall(host), host);
    FirstCross(host);
  }

  lemma FirstCross(host: Host)
    ensures
      var t := Cross(SampleRow(), 0, 8, SampleContract(false), CompletedCall(host), host).row;
      t.status.Completed? && CallStep(SampleRow(), t, true)
  {
    var contract, call := SampleContract(false), CompletedCall(host);
    FirstCalls(contract, call, host);
    CrossOk(SampleRow(), 0, 8, contract, call, host);
    CallsAreHandOvers(SampleRow(), 0, 8, contract, call, host);
    FirstHandOver(host);
  }

  lemma FirstHandOver(host: Host)
    ensures HandOver(SampleRow(), 0, 8, SampleContract(false), CompletedCall(host), host).row.status.Completed?
  {
    HandedAtOwner(SampleRow());
    FirstConsumed(Handed(SampleRow()), host);
  }

  lemma FirstConsumed(h: Row, host: Host)
    requires AtOwner(h)
    ensures Consume(h, 0, 6, SampleContract(false), CompletedCall(host), host).row.status.Completed?
  {
    EchoedReads(Undefined, host);
    EmptySchemaPasses("completed", Str(host.requestId(0)), Undefined);
    ReadIsConsumed(h, 6, Echoed("completed", Undefined, host), CompletedCall(host), SampleContract(false), host);
    CompletedRead(h, CompletedCall(host));
  }

  lemma CompletedRead(h: Row, call: Call)
    requires AtOwner(h)
    ensures
      ConsumeReading(h, 6, EchoedReading(Completed, NoHandle), SampleContract(false), call).row.status.Completed?
  {
    DispatchLeaves(h, 6, EchoedReading(Completed, NoHandle), SampleContract(false), call);
  }

  lemma ReadIsConsumed(h: Row, fuse: nat, raw: Value, call: Call, contract: Contract, host: Host)
    requires call.answer == Answered(raw) && SchemaPasses(contract.resultSchema, raw) && !contract.requiresVerification
    ensures Consume(h, 0, fuse, contract, call, host)
         == ConsumeReading(h, fuse, ReadingOf(raw, 0, false, host), contract, call)
  {
  }

  /**
   * Two steps of one mission with one effect: once the first is completed, dispatching the second calls its connector
   * again for the first, and tells its caller what the connector now says while the row stays completed.
   */
  lemma ReplayHappens(host: Host)
    ensures
      var rows := Step([], SampleDispatch(0, CompletedCall(host)), host);
      var o := DispatchFresh(rows, 0, 1, Effect(0), SampleContract(false), FailedCall(host), host);
      o.rows == Run([], [SampleDispatch(0, CompletedCall(host)), SampleDispatch(1, FailedCall(host))], host)
      && |o.rows| == 1 && o.rows[0].calls == [2] && o.rows[0].status.Completed? && o.ending == Returned(Failed)
  {
    var rows := Step([], SampleDispatch(0, CompletedCall(host)), host);
    FirstCompletes(host);
    SecondDispatch(rows, host);
    RunOfTwo(SampleDispatch(0, CompletedCall(host)), SampleDispatch(1, FailedCall(host)), host);
  }

  lemma SecondDispatch(rows: Rows, host: Host)
    requires |rows| == 1 && RowOk(rows[0]) && rows[0].status.Completed? && rows[0].calls == [1]
    requires rows[0].mission == 0 && rows[0].step == 0 && rows[0].fingerprint == Effect(0)
    ensures
      var o := DispatchFresh(rows, 0, 1, Effect(0), SampleContract(false), FailedCall(host), host);
      |o.rows| == 1 && o.rows[0].calls == [2] && o.rows[0].status.Completed? && o.ending == Returned(Failed)
  {
    var contract, call := SampleContract(false), FailedCall(host);
    assert ClaimStep(rows, 0, 1, Effect(0)) == Existing(0);
    assert SchemaPasses(contract.inputSchema, Request(0, call, host));
    CompletedTells(rows[0], host);
  }

  lemma CompletedTells(r: Row, host: Host)
    requires RowOk(r) && r.status.Completed? && r.calls == [1]
    ensures
      var e := HandOver(r, 0, 9, SampleContract(false), FailedCall(host), host);
      e.row == Called(r) && e.row.calls == [2] && e.ending == Returned(Failed)
  {
    EchoedReads(Undefined, host);
    EmptySchemaPasses("failed", Str(host.requestId(0)), Undefined);
    ReadIsConsumed(Called(r), 7, Echoed("failed", Undefined, host), FailedCall(host), SampleContract(false), host);
    FailureTold(Called(r), FailedCall(host));
  }

  lemma FailureTold(h: Row, call: Call)
    requires h.status.Completed?
    ensures
      var e := ConsumeReading(h, 7, EchoedReading(Failed, NoHandle), SampleContract(false), call);
      e.row == h && e.ending == Returned(Failed)
  {
  }
}
