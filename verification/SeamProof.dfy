/** What holds of every dispatch, every reconciliation and every run of the seam, crashes included. */
module SeamProof {
  import opened Wrappers
  import opened Invocations
  import opened SeamSpec

  // ----- One dispatch ------------------------------------------------------------------------------

  lemma QuietTransitive(r: Row, s: Row, t: Row)
    requires QuietStep(r, s) && QuietStep(s, t)
    ensures QuietStep(r, t)
  {
  }

  lemma SwallowOk(r: Row, fuse: nat, status: Status, ending: Ending)
    requires RowOk(r)
    ensures RowOk(Swallow(r, fuse, status, ending).row) && QuietStep(r, Swallow(r, fuse, status, ending).row)
  {
    var s := Submission(status, None, true, 0);
    if RecordResult(r, s, false, None, false).Some? {
      RecordResultOk(r, s, false, None, false);
    }
  }

  lemma SettleBareOk(r: Row, fuse: nat, f: Reading)
    requires RowOk(r)
    ensures RowOk(SettleBare(r, fuse, f).row) && QuietStep(r, SettleBare(r, fuse, f).row)
  {
    if RecordResult(r, Bare(f), false, None, false).Some? {
      RecordResultOk(r, Bare(f), false, None, false);
    }
  }

  lemma SettleOk(r: Row, fuse: nat, f: Reading, contract: Contract, call: Call)
    requires RowOk(r)
    ensures RowOk(Settle(r, fuse, f, contract, call).row) && QuietStep(r, Settle(r, fuse, f, contract, call).row)
  {
    if RecordResult(r, Final(f), false, call.attested, false).Some? {
      RecordResultOk(r, Final(f), false, call.attested, false);
    }
    if fuse > 0 {
      SettleBareOk(r, fuse - 1, f);
      SwallowOk(r, fuse - 1, Blocked, Returned(Blocked));
    }
  }

  lemma ConcludeOk(r: Row, fuse: nat, f: Reading, contract: Contract, call: Call)
    requires RowOk(r)
    ensures RowOk(Conclude(r, fuse, f, contract, call).row) && QuietStep(r, Conclude(r, fuse, f, contract, call).row)
  {
    if f.verdict.Negative? {
      if fuse > 0 {
        SwallowOk(r, fuse - 1, Blocked, Returned(Blocked));
        if RecordResult(r, Rejection(f), false, call.attested, false).Some? {
          RecordResultOk(r, Rejection(f), false, call.attested, false);
        }
      }
    } else if contract.requiresVerification && !f.verdict.Positive? {
      SwallowOk(r, fuse, Blocked, Returned(Blocked));
    } else {
      SettleOk(r, fuse, f, contract, call);
    }
  }

  lemma JudgeOk(r: Row, fuse: nat, f: Reading, contract: Contract, call: Call)
    requires RowOk(r)
    ensures RowOk(Judge(r, fuse, f, contract, call).row) && QuietStep(r, Judge(r, fuse, f, contract, call).row)
  {
    SwallowOk(r, fuse, Blocked, Threw(BadEvidence));
    SwallowOk(r, fuse, Blocked, Threw(BadVerdict));
    SwallowOk(r, fuse, Blocked, Threw(EchoMismatch));
    ConcludeOk(r, fuse, f, contract, call);
  }

  lemma TakeHandleOk(r: Row, fuse: nat, f: Reading, contract: Contract, call: Call)
    requires RowOk(r)
    ensures RowOk(TakeHandle(r, fuse, f, contract, call).row)
    ensures QuietStep(r, TakeHandle(r, fuse, f, contract, call).row)
  {
    var marked := MarkHandoff(r, HandleDelivery(f), f.handle);
    if marked.Some? && fuse > 0 {
      MarkHandoffOk(r, HandleDelivery(f), f.handle);
      JudgeOk(marked.value, fuse - 1, f, contract, call);
      QuietTransitive(r, marked.value, Judge(marked.value, fuse - 1, f, contract, call).row);
    }
  }

  lemma ConsumeOk(r: Row, id: nat, fuse: nat, contract: Contract, call: Call, host: Host)
    requires RowOk(r)
    ensures RowOk(Consume(r, id, fuse, contract, call, host).row)
    ensures QuietStep(r, Consume(r, id, fuse, contract, call, host).row)
  {
    SwallowOk(r, fuse, Blocked, Threw(InvokeRaised));
    SwallowOk(r, fuse, Blocked, Threw(ResultRejected));
    if call.answer.Answered? {
      var f := ReadingOf(call.answer.raw, id, contract.requiresVerification, host);
      JudgeOk(r, fuse, f, contract, call);
      TakeHandleOk(r, fuse, f, contract, call);
    }
  }

  /** Whether a dispatch gets as far as calling the connector. */
  predicate Calls(r: Row, id: nat, fuse: nat, contract: Contract, call: Call, host: Host) {
    SchemaPasses(contract.inputSchema, Request(id, call, host)) && fuse >= 2
    && MarkHandoff(r, Submitted, NoHandle).Some?
  }

  /** A row may be dispatched when it is finished for good, or was not handed off in its current attempt. */
  predicate Dispatchable(r: Row) {
    RowOk(r) && (r.status.Completed? || (r.delivery.NotSubmitted? && !r.status.Cancelled?))
  }

  lemma CalledOk(r: Row)
    requires Dispatchable(r) && MarkHandoff(r, Submitted, NoHandle).Some?
    ensures RowOk(Called(MarkHandoff(r, Submitted, NoHandle).value))
    ensures Called(MarkHandoff(r, Submitted, NoHandle).value).calls
         == r.calls[|r.calls| - 1 := LastCalls(r) + 1]
  {
    MarkHandoffOk(r, Submitted, NoHandle);
  }

  /** `t` is `r` after at most one connector call, made for the last attempt. */
  predicate CallStep(r: Row, t: Row, called: bool)
    requires r.calls != []
  {
    RowOk(t) && t.mission == r.mission && t.step == r.step && t.fingerprint == r.fingerprint && t.terms == r.terms
    && t.required == r.required && |t.attempts| == |r.attempts|
    && t.calls == (if called then r.calls[|r.calls| - 1 := LastCalls(r) + 1] else r.calls)
  }

  lemma InvokedOk(r: Row, id: nat, fuse: nat, contract: Contract, call: Call, host: Host)
    requires Dispatchable(r) && MarkHandoff(r, Submitted, NoHandle).Some?
    ensures
      var h := Called(MarkHandoff(r, Submitted, NoHandle).value);
      CallStep(r, Consume(h, id, fuse, contract, call, host).row, true)
  {
    MarkHandoffOk(r, Submitted, NoHandle);
    CalledOk(r);
    ConsumeOk(Called(MarkHandoff(r, Submitted, NoHandle).value), id, fuse, contract, call, host);
  }

  lemma HandOverOk(r: Row, id: nat, fuse: nat, contract: Contract, call: Call, host: Host)
    requires Dispatchable(r)
    ensures CallStep(r, HandOver(r, id, fuse, contract, call, host).row,
                     fuse >= 2 && MarkHandoff(r, Submitted, NoHandle).Some?)
  {
    var marked := MarkHandoff(r, Submitted, NoHandle);
    if marked.Some? {
      if fuse >= 2 {
        InvokedOk(r, id, fuse - 2, contract, call, host);
      } else {
        MarkHandoffOk(r, Submitted, NoHandle);
      }
    }
  }

  /** A dispatch calls the connector at most once, for the last attempt, and only after the handoff is durable. */
  lemma CrossOk(r: Row, id: nat, fuse: nat, contract: Contract, call: Call, host: Host)
    requires Dispatchable(r)
    ensures CallStep(r, Cross(r, id, fuse, contract, call, host).row, Calls(r, id, fuse, contract, call, host))
  {
    if SchemaPasses(contract.inputSchema, Request(id, call, host)) {
      HandOverOk(r, id, fuse, contract, call, host);
    } else {
      SwallowOk(r, fuse, Blocked, Threw(InputRejected));
      SwallowOk(r, fuse, Failed, Threw(InputRejected));
    }
  }

  // ----- Reconciliation and cancellation never call ---------------------------------------------------

  lemma ObserveOk(r: Row, fuse: nat, state: Reconciliation, status: Status, ending: Row -> Ending)
    requires RowOk(r) && (state.Due? || state.Unsupported?) && (status.Blocked? || (status.Failed? && r.status.Failed?))
    ensures RowOk(Observe(r, fuse, state, status, ending).row)
    ensures QuietStep(r, Observe(r, fuse, state, status, ending).row)
  {
    if MarkReconciliation(r, state, status).Some? {
      MarkReconciliationOk(r, state, status);
    }
  }

  lemma PromoteBareOk(r: Row, fuse: nat, f: Reading, contract: Contract, call: Call)
    requires RowOk(r)
    ensures RowOk(PromoteBare(r, fuse, f, contract, call).row)
    ensures QuietStep(r, PromoteBare(r, fuse, f, contract, call).row)
  {
    var bare := Replay(f, None, contract);
    if RecordResult(r, bare, true, None, call.missionEnded).Some? {
      RecordResultOk(r, bare, true, None, call.missionEnded);
    }
    if fuse > 0 {
      ObserveOk(r, fuse - 1, Due, Blocked, _ => Threw(EngineRefused));
    }
  }

  lemma PromoteOk(r: Row, fuse: nat, f: Reading, contract: Contract, call: Call)
    requires RowOk(r)
    ensures RowOk(Promote(r, fuse, f, contract, call).row) && QuietStep(r, Promote(r, fuse, f, contract, call).row)
  {
    var s := Replay(f, ClaimOf(f.verdict), contract);
    if RecordResult(r, s, true, call.attested, call.missionEnded).Some? {
      RecordResultOk(r, s, true, call.attested, call.missionEnded);
    }
    if fuse > 0 {
      PromoteBareOk(r, fuse - 1, f, contract, call);
      ObserveOk(r, fuse - 1, Due, Blocked, _ => Threw(EngineRefused));
    }
  }

  lemma WeighOk(r: Row, fuse: nat, f: Reading, contract: Contract, call: Call)
    requires RowOk(r)
    ensures RowOk(Weigh(r, fuse, f, contract, call).row) && QuietStep(r, Weigh(r, fuse, f, contract, call).row)
  {
    PromoteOk(r, fuse, f, contract, call);
    ObserveOk(r, fuse, Due, Blocked, _ => Threw(BadEvidence));
    ObserveOk(r, fuse, Due, Blocked, _ => Threw(if f.idPrints then EchoMismatch else Unprintable));
    ObserveOk(r, fuse, Due, Blocked, _ => Threw(BadVerdict));
    ObserveOk(r, fuse, Due, Blocked, (m: Row) => Returned(m.status));
  }

  lemma ProblemOk(r: Row, fuse: nat)
    requires RowOk(r)
    ensures
      var t := ReconciliationProblem(r, fuse, Threw(GateClosed)).row;
      RowOk(t) && QuietStep(r, t)
  {
    var status := if r.status.Failed? then Failed else Blocked;
    if MarkReconciliation(r, Due, status).Some? {
      MarkReconciliationOk(r, Due, status);
    }
  }

  /** Reconciling never calls the connector's effectful entry and never makes a row dispatchable again. */
  lemma ReconcileOk(r: Row, id: nat, contract: Contract, call: Call, host: Host)
    requires RowOk(r)
    ensures RowOk(ReconcileRow(r, id, contract, call, host).row)
    ensures QuietStep(r, ReconcileRow(r, id, contract, call, host).row)
  {
    ProblemOk(r, call.fuse);
    var status := if r.status.Failed? then Failed else Blocked;
    ObserveOk(r, call.fuse, Unsupported, status, (m: Row) => Returned(m.status));
    AnswerOk(r, id, contract, call, host);
  }

  lemma AnswerOk(r: Row, id: nat, contract: Contract, call: Call, host: Host)
    requires RowOk(r)
    ensures RowOk(ReconcileAnswer(r, id, contract, call, host).row)
    ensures QuietStep(r, ReconcileAnswer(r, id, contract, call, host).row)
  {
    ObserveOk(r, call.fuse, Due, Blocked, (m: Row) => Returned(m.status));
    ObserveOk(r, call.fuse, Due, Blocked, _ => Threw(ResultRejected));
    if call.answer.Answered? {
      WeighOk(r, call.fuse, ReadingOf(call.answer.raw, id, contract.requiresVerification, host), contract, call);
    }
  }

  lemma StopOk(r: Row, fuse: nat, u: CancelUpdate)
    requires RowOk(r) && !r.delivery.NotSubmitted?
    ensures RowOk(Stop(r, fuse, u).row) && QuietStep(r, Stop(r, fuse, u).row)
  {
    if RecordCancellationOutcome(r, u).Some? {
      RecordCancellationOutcomeOk(r, u);
    }
  }

  lemma CancelOk(r: Row, id: nat, contract: Contract, call: Call, host: Host)
    requires RowOk(r)
    ensures RowOk(CancelRow(r, id, contract, call, host).row)
    ensures QuietStep(r, CancelRow(r, id, contract, call, host).row)
  {
    if !r.delivery.NotSubmitted? {
      StopOk(r, call.fuse, CancelUpdate(CancelUnsupported, None, None, Due, None));
      StopOk(r, call.fuse, DOUBTFUL_STOP);
      if call.answer.Answered? {
        StopOk(r, call.fuse, StopUpdate(r, call.answer.raw, contract.terms.cancel.Hard?));
      }
    }
  }

  // ----- Runs ---------------------------------------------------------------------------------------------

  predicate EffectsDistinct(rows: Rows) {
    forall i, j | 0 <= i < j < |rows| :: !SameEffect(rows[j], rows[i].mission, rows[i].fingerprint)
  }

  predicate RowsOk(rows: Rows) {
    EffectsDistinct(rows) && forall i | 0 <= i < |rows| :: RowOk(rows[i])
  }

  predicate AllOnce(rows: Rows) {
    forall i | 0 <= i < |rows| :: AtMostOnce(rows[i])
  }

  /** The dispatch is handed a completed row of another step with the same effect, and calls its connector again. */
  predicate Replays(rows: Rows, e: Event, host: Host) {
    e.EvDispatch? && e.call.gatesOpen && e.call.authorized
    && (var c := ClaimStep(rows, e.mission, e.step, Effect(e.hash));
        c.Existing? && Calls(rows[c.id], c.id, e.call.fuse, e.contract, e.call, host)
        && rows[c.id].calls != [] && LastCalls(rows[c.id]) > 0)
  }

  /** Identity of a row, which no step changes. */
  predicate SameIdentity(s: Row, t: Row) {
    t.mission == s.mission && t.fingerprint == s.fingerprint
  }

  lemma UpdateOk(rows: Rows, id: nat, t: Row)
    requires RowsOk(rows) && id < |rows| && RowOk(t) && SameIdentity(rows[id], t)
    ensures RowsOk(rows[id := t])
  {
    var after := rows[id := t];
    forall i, j | 0 <= i < j < |after| ensures !SameEffect(after[j], after[i].mission, after[i].fingerprint) {
      assert !SameEffect(rows[j], rows[i].mission, rows[i].fingerprint);
    }
  }

  lemma OnceAfterUpdate(rows: Rows, id: nat, t: Row)
    requires id < |rows| && (AtMostOnce(t) ==> AtMostOnce(rows[id]))
    ensures AllOnce(rows[id := t]) <==> AllOnce(rows) && AtMostOnce(t)
  {
    var after := rows[id := t];
    if AllOnce(after) {
      assert after[id] == t;
      forall i | 0 <= i < |rows| ensures AtMostOnce(rows[i]) {
        assert i != id ==> after[i] == rows[i];
      }
    }
  }

  lemma OneMoreCall(calls: seq<nat>)
    requires calls != []
    ensures EachOnce(calls[|calls| - 1 := calls[|calls| - 1] + 1]) <==> EachOnce(calls) && calls[|calls| - 1] == 0
  {
    var after := calls[|calls| - 1 := calls[|calls| - 1] + 1];
    if EachOnce(after) {
      forall i | 0 <= i < |calls| ensures calls[i] <= 1 {
        assert after[i] <= 1;
      }
      assert after[|calls| - 1] <= 1;
    }
  }

  lemma CrossAtOk(rows: Rows, id: nat, fuse: nat, contract: Contract, call: Call, host: Host)
    requires RowsOk(rows) && id < |rows| && Dispatchable(rows[id])
    ensures RowsOk(CrossAt(rows, id, fuse, contract, call, host).rows)
    ensures AllOnce(CrossAt(rows, id, fuse, contract, call, host).rows)
      <==> AllOnce(rows) && !(Calls(rows[id], id, fuse, contract, call, host) && LastCalls(rows[id]) > 0)
  {
    var r := rows[id];
    var t := Cross(r, id, fuse, contract, call, host).row;
    CrossOk(r, id, fuse, contract, call, host);
    UpdateOk(rows, id, t);
    OneMoreCall(r.calls);
    OnceAfterUpdate(rows, id, t);
  }

  lemma MintOk(rows: Rows, mission: nat, step: nat, fingerprint: Fingerprint, terms: Terms, required: bool)
    requires RowsOk(rows) && ClaimStep(rows, mission, step, fingerprint).Mint?
    ensures RowsOk(rows + [Minted(mission, step, fingerprint, terms, required)])
    ensures AllOnce(rows + [Minted(mission, step, fingerprint, terms, required)]) <==> AllOnce(rows)
  {
    var after := rows + [Minted(mission, step, fingerprint, terms, required)];
    forall i, j | 0 <= i < j < |after| ensures !SameEffect(after[j], after[i].mission, after[i].fingerprint) {
      if j < |rows| {
        assert !SameEffect(rows[j], rows[i].mission, rows[i].fingerprint);
      } else {
        assert !SameEffect(rows[i], mission, fingerprint);
      }
    }
    if AllOnce(after) {
      forall i | 0 <= i < |rows| ensures AtMostOnce(rows[i]) {
        assert after[i] == rows[i];
      }
    }
  }

  /** A dispatch without a passage changes no row and returns nothing; any other is its passage. */
  lemma FreshIsPassage(
    rows: Rows, mission: nat, step: nat, fingerprint: Fingerprint, contract: Contract, call: Call, host: Host)
    ensures
      var o := DispatchFresh(rows, mission, step, fingerprint, contract, call, host);
      match FreshPassage(rows, mission, step, fingerprint, contract, call)
      case None => o.rows == rows && !o.ending.Returned?
      case Some(p) => o == Crossed(p, contract, call, host)
  {
  }

  lemma ResumedIsPassage(rows: Rows, id: nat, contract: Contract, call: Call, host: Host)
    ensures
      var o := DispatchPersisted(rows, id, contract, call, host);
      match ResumedPassage(rows, id, contract, call)
      case None => o.rows == rows && !o.ending.Returned?
      case Some(p) => o == Crossed(p, contract, call, host)
  {
  }

  predicate PassageOk(p: Passage) {
    RowsOk(p.rows) && p.id < |p.rows| && Dispatchable(p.rows[p.id])
  }

  /** What crosses is a completed row of the same effect, or a new row; either way nothing was called yet. */
  lemma FreshPassageOk(rows: Rows, mission: nat, step: nat, fingerprint: Fingerprint, contract: Contract, call: Call)
    requires RowsOk(rows) && FreshPassage(rows, mission, step, fingerprint, contract, call).Some?
    ensures
      var p := FreshPassage(rows, mission, step, fingerprint, contract, call).value;
      PassageOk(p) && (AllOnce(p.rows) <==> AllOnce(rows))
      && (p.rows[p.id].status.Completed?
          || p.rows[p.id] == Minted(mission, step, fingerprint, contract.terms, contract.requiresVerification))
  {
    if ClaimStep(rows, mission, step, fingerprint).Mint? {
      MintOk(rows, mission, step, fingerprint, contract.terms, contract.requiresVerification);
    }
  }

  lemma DispatchStepOk(rows: Rows, e: Event, host: Host)
    requires RowsOk(rows) && e.EvDispatch?
    ensures RowsOk(Step(rows, e, host))
    ensures AllOnce(Step(rows, e, host)) <==> AllOnce(rows) && !Replays(rows, e, host)
  {
    FreshIsPassage(rows, e.mission, e.step, Effect(e.hash), e.contract, e.call, host);
    var passage := FreshPassage(rows, e.mission, e.step, Effect(e.hash), e.contract, e.call);
    if passage.Some? {
      var p := passage.value;
      FreshPassageOk(rows, e.mission, e.step, Effect(e.hash), e.contract, e.call);
      CrossAtOk(p.rows, p.id, p.fuse, e.contract, e.call, host);
    }
  }

  lemma QuietUpdateOk(rows: Rows, id: nat, t: Row)
    requires RowsOk(rows) && id < |rows| && RowOk(t) && QuietStep(rows[id], t)
    ensures RowsOk(rows[id := t]) && (AllOnce(rows[id := t]) <==> AllOnce(rows))
  {
    UpdateOk(rows, id, t);
    OnceAfterUpdate(rows, id, t);
  }

  lemma RetryOk(rows: Rows, id: nat, now: int, eligibleAt: int, host: Host)
    requires RowsOk(rows)
    ensures var after := Step(rows, EvPrepareRetry(id, now, eligibleAt), host);
      RowsOk(after) && (AllOnce(after) <==> AllOnce(rows))
  {
    if id < |rows| && PrepareRetry(rows[id], now, eligibleAt).Some? {
      RetryUpdateOk(rows, id, now, eligibleAt);
    } else if id < |rows| {
      assert rows[id := rows[id]] == rows;
    }
  }

  lemma UnsubmittedOk(rows: Rows, id: nat, host: Host)
    requires RowsOk(rows)
    ensures var after := Step(rows, EvCancelUnsubmitted(id), host);
      RowsOk(after) && (AllOnce(after) <==> AllOnce(rows))
  {
    if id < |rows| && CancelUnsubmitted(rows[id]).Some? {
      CancelUnsubmittedOk(rows[id]);
      QuietUpdateOk(rows, id, CancelUnsubmitted(rows[id]).value);
    } else if id < |rows| {
      assert rows[id := rows[id]] == rows;
    }
  }

  lemma WithMissionOk(rows: Rows, id: nat, host: Host)
    requires RowsOk(rows)
    ensures var after := Step(rows, EvCancelWithMission(id), host);
      RowsOk(after) && (AllOnce(after) <==> AllOnce(rows))
  {
    if id < |rows| && CancelWithMission(rows[id]).Some? {
      CancelWithMissionOk(rows[id]);
      QuietUpdateOk(rows, id, CancelWithMission(rows[id]).value);
    } else if id < |rows| {
      assert rows[id := rows[id]] == rows;
    }
  }

  lemma RetryUpdateOk(rows: Rows, id: nat, now: int, eligibleAt: int)
    requires RowsOk(rows) && id < |rows| && PrepareRetry(rows[id], now, eligibleAt).Some?
    ensures
      var after := rows[id := PrepareRetry(rows[id], now, eligibleAt).value];
      RowsOk(after) && (AllOnce(after) <==> AllOnce(rows))
  {
    var t := PrepareRetry(rows[id], now, eligibleAt).value;
    PrepareRetryOk(rows[id], now, eligibleAt);
    UpdateOk(rows, id, t);
    OnceAfterUpdate(rows, id, t);
  }

  /**
   * Every step keeps the rows sound; it makes some attempt call its connector twice exactly when it replays an effect.
   */
  lemma StepOk(rows: Rows, e: Event, host: Host)
    requires RowsOk(rows)
    ensures RowsOk(Step(rows, e, host))
    ensures AllOnce(Step(rows, e, host)) <==> AllOnce(rows) && !Replays(rows, e, host)
  {
    match e
    case EvDispatch(_, _, _, _, _) => DispatchStepOk(rows, e, host);
    case EvResume(id, contract, call) =>
      ResumedIsPassage(rows, id, contract, call, host);
      if ResumedPassage(rows, id, contract, call).Some? {
        CrossAtOk(rows, id, call.fuse, contract, call, host);
      }
    case EvReconcile(id, contract, call) =>
      if id < |rows| {
        ReconcileOk(rows[id], id, contract, call, host);
        QuietUpdateOk(rows, id, ReconcileRow(rows[id], id, contract, call, host).row);
      }
    case EvCancel(id, contract, call) =>
      if id < |rows| {
        CancelOk(rows[id], id, contract, call, host);
        QuietUpdateOk(rows, id, CancelRow(rows[id], id, contract, call, host).row);
      }
    case EvPrepareRetry(id, now, eligibleAt) => RetryOk(rows, id, now, eligibleAt, host);
    case EvCancelUnsubmitted(id) => UnsubmittedOk(rows, id, host);
    case EvCancelWithMission(id) => WithMissionOk(rows, id, host);
  }

  /** No event of the run replays an effect at the moment it happens. */
  predicate NeverReplays(rows: Rows, events: seq<Event>, host: Host)
    decreases |events|
  {
    events == [] || (!Replays(rows, events[0], host) && NeverReplays(Step(rows, events[0], host), events[1..], host))
  }

  /**
   * Over every run of dispatches, resumptions, reconciliations, cancellations and retries, with a crash
   * anywhere, no attempt calls its connector twice, unless a dispatch is handed a completed row of another step.
   */
  lemma {:induction false} AtMostOnceIff(rows: Rows, events: seq<Event>, host: Host)
    requires RowsOk(rows)
    ensures RowsOk(Run(rows, events, host))
    ensures AllOnce(Run(rows, events, host)) <==> AllOnce(rows) && NeverReplays(rows, events, host)
    decreases |events|
  {
    if events != [] {
      StepOk(rows, events[0], host);
      AtMostOnceIff(Step(rows, events[0], host), events[1..], host);
    }
  }

  /** From an empty store and without replays, every invocation's calls are bounded by its own retry terms. */
  lemma CallsBoundedOverRuns(events: seq<Event>, host: Host, id: nat)
    requires NeverReplays([], events, host) && id < |Run([], events, host)|
    ensures
      var r := Run([], events, host)[id];
      Sum(r.calls) <= if r.terms.idempotent && r.terms.maxAttempts > 1 then r.terms.maxAttempts else 1
  {
    AtMostOnceIff([], events, host);
    CallsBounded(Run([], events, host)[id]);
  }

  /** No dispatch of the run is answered with an old row. */
  predicate NeverAnsweredOld(rows: Rows, events: seq<Event>, host: Host)
    decreases |events|
  {
    events == []
    || (var e := events[0];
        !(e.EvDispatch? && ClaimStep(rows, e.mission, e.step, Effect(e.hash)).Existing?)
        && NeverAnsweredOld(Step(rows, e, host), events[1..], host))
  }

  /** What a caller can see suffices: as long as no dispatch is answered with an old row, no attempt calls twice. */
  lemma {:induction false} AtMostOnceWithoutOldRows(rows: Rows, events: seq<Event>, host: Host)
    requires RowsOk(rows) && AllOnce(rows) && NeverAnsweredOld(rows, events, host)
    ensures AllOnce(Run(rows, events, host))
    decreases |events|
  {
    if events != [] {
      StepOk(rows, events[0], host);
      AtMostOnceWithoutOldRows(Step(rows, events[0], host), events[1..], host);
    }
  }
}
