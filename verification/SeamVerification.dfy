/**
 * Over whole runs: a row whose capability required owner verification when it was minted is completed only with an
 * attested positive verdict, and exactly when that fails.
 */
module SeamVerification {
  import opened Wrappers
  import opened Invocations
  import opened SeamSpec
  import opened SeamProof
  import opened SeamSafety

  /** Completed work that needed the owner's word has it. */
  predicate Verified(r: Row) {
    r.status.Completed? && r.required ==> r.verdict == Some(true)
  }

  predicate AllVerified(rows: Rows) {
    forall i | 0 <= i < |rows| :: Verified(rows[i])
  }

  /** Completed, and without an attested positive verdict. */
  predicate Unattested(r: Row) {
    r.status.Completed? && r.verdict != Some(true)
  }

  // ----- One dispatch ----------------------------------------------------------------------------------

  /**
   * The last write completes the row without a verdict: there is no claim, or the claim is dropped because the result
   * had no summary of its own, or was not attested for a reason that can be noted.
   */
  predicate SettleSlips(f: Reading, fuse: nat, contract: Contract, call: Call) {
    !contract.requiresVerification && f.status.Completed? && f.evidenceStorable
    && if f.verdict.Positive? then
         (if f.summaryFits then call.attested.None? && Notable(call.refusal) else f.summaryPrints) && fuse >= 2
       else f.summaryFits && fuse >= 1
  }

  /** The result is taken as completed without a verdict. */
  predicate ResultSlips(f: Reading, fuse: nat, contract: Contract, call: Call) {
    ReachesSettle(f, contract)
    && if f.handle.NoHandle? then SettleSlips(f, fuse, contract, call)
       else f.handle.Storable? && fuse >= 1 && SettleSlips(f, fuse - 1, contract, call)
  }

  lemma SettleAttests(h: Row, fuse: nat, f: Reading, contract: Contract, call: Call)
    requires Met(h, f) && ReachesSettle(f, contract)
    ensures Unattested(Settle(h, fuse, f, contract, call).row)
      <==> h.verdict != Some(true) && SettleSlips(f, fuse, contract, call)
  {
    AuthorityReached(h, f);
    ResultRecorded(h, Final(f), call.attested);
    ResultRecorded(h, Bare(f), None);
    AttestedIsBool(call.attested);
    if fuse > 0 {
      DoubtRecorded(h, fuse - 1, Returned(Blocked));
    }
  }

  lemma JudgeAttests(h: Row, fuse: nat, f: Reading, contract: Contract, call: Call)
    requires Met(h, f)
    ensures Unattested(Judge(h, fuse, f, contract, call).row)
      <==> h.verdict != Some(true) && ReachesSettle(f, contract) && SettleSlips(f, fuse, contract, call)
  {
    if ReachesSettle(f, contract) {
      SettleAttests(h, fuse, f, contract, call);
    } else {
      JudgeCompletesNothing(h, fuse, f, contract, call);
    }
  }

  lemma JudgeCompletesNothing(h: Row, fuse: nat, f: Reading, contract: Contract, call: Call)
    requires Met(h, f) && !ReachesSettle(f, contract)
    ensures !Judge(h, fuse, f, contract, call).row.status.Completed?
  {
    DoubtRecorded(h, fuse, Threw(BadEvidence));
    DoubtRecorded(h, fuse, Threw(BadVerdict));
    DoubtRecorded(h, fuse, Threw(EchoMismatch));
    DoubtRecorded(h, fuse, Returned(Blocked));
    if f.verdict.Negative? {
      ResultRecorded(h, Rejection(f), call.attested);
      if fuse > 0 {
        DoubtRecorded(h, fuse - 1, Returned(Blocked));
      }
    }
  }

  lemma ReadingAttests(h: Row, fuse: nat, f: Reading, contract: Contract, call: Call)
    requires AtOwner(h) && Answerable(f)
    ensures Unattested(ConsumeReading(h, fuse, f, contract, call).row)
      <==> h.verdict != Some(true) && ResultSlips(f, fuse, contract, call)
  {
    HandleTaken(h, f);
    if f.handle.NoHandle? {
      JudgeAttests(h, fuse, f, contract, call);
    } else if !f.handle.Unstorable? && fuse > 0 {
      JudgeAttests(MarkHandoff(h, HandleDelivery(f), f.handle).value, fuse - 1, f, contract, call);
    }
  }

  predicate AnswerSlips(id: nat, fuse: nat, contract: Contract, call: Call, host: Host) {
    call.answer.Answered? && SchemaPasses(contract.resultSchema, call.answer.raw)
    && ResultSlips(ReadingOf(call.answer.raw, id, contract.requiresVerification, host), fuse, contract, call)
  }

  lemma ConsumeAttests(h: Row, id: nat, fuse: nat, contract: Contract, call: Call, host: Host)
    requires AtOwner(h)
    ensures Unattested(Consume(h, id, fuse, contract, call, host).row)
      <==> h.verdict != Some(true) && AnswerSlips(id, fuse, contract, call, host)
  {
    DoubtRecorded(h, fuse, Threw(InvokeRaised));
    DoubtRecorded(h, fuse, Threw(ResultRejected));
    if call.answer.Answered? {
      ReadingAttests(h, fuse, ReadingOf(call.answer.raw, id, contract.requiresVerification, host), contract, call);
    }
  }

  /** A dispatch of a row with this verdict left `t`: unattested exactly if the answer slipped. */
  predicate AttestedUnlessSlipped(
    verdict: Option<bool>, t: Row, id: nat, fuse: nat, contract: Contract, call: Call, host: Host)
  {
    Unattested(t) <==> verdict != Some(true) && AnswerSlips(id, fuse, contract, call, host)
  }

  lemma InvokedAttests(m: Row, id: nat, fuse: nat, contract: Contract, call: Call, host: Host)
    requires AtOwner(Called(m))
    ensures
      var t := Invoked(m, id, fuse, contract, call, host).row;
      AttestedUnlessSlipped(m.verdict, t, id, fuse, contract, call, host)
  {
    ConsumeAttests(Called(m), id, fuse, contract, call, host);
  }

  /** `left` is what the handoff leaves of the fuse. */
  lemma MarkedAttests(r: Row, id: nat, left: nat, contract: Contract, call: Call, host: Host)
    requires Ready(r)
    ensures
      var t := HandOver(r, id, left + 2, contract, call, host).row;
      AttestedUnlessSlipped(r.verdict, t, id, left, contract, call, host)
  {
    HandedAtOwner(r);
    InvokedAttests(MarkHandoff(r, Submitted, NoHandle).value, id, left, contract, call, host);
  }

  lemma HandOverAttests(r: Row, id: nat, fuse: nat, left: nat, contract: Contract, call: Call, host: Host)
    requires Ready(r) && fuse == left + 2
    ensures
      var t := HandOver(r, id, fuse, contract, call, host).row;
      AttestedUnlessSlipped(r.verdict, t, id, left, contract, call, host)
  {
    MarkedAttests(r, id, left, contract, call, host);
  }

  lemma CrossAttests(r: Row, id: nat, fuse: nat, contract: Contract, call: Call, host: Host)
    requires Ready(r) && Calls(r, id, fuse, contract, call, host)
    ensures
      var t := Cross(r, id, fuse, contract, call, host).row;
      AttestedUnlessSlipped(r.verdict, t, id, fuse - 2, contract, call, host)
  {
    CallsAreHandOvers(r, id, fuse, contract, call, host);
    HandOverAttests(r, id, fuse, fuse - 2, contract, call, host);
  }

  /** A dispatch completes work that needed the owner's word without it: the requirement was dropped in between. */
  predicate DispatchSlips(r: Row, id: nat, fuse: nat, contract: Contract, call: Call, host: Host) {
    r.required && !r.status.Completed? && r.verdict != Some(true) && Calls(r, id, fuse, contract, call, host)
    && AnswerSlips(id, fuse - 2, contract, call, host)
  }

  lemma CrossVerified(r: Row, id: nat, fuse: nat, contract: Contract, call: Call, host: Host)
    requires Dispatchable(r)
    ensures Verified(Cross(r, id, fuse, contract, call, host).row)
      <==> Verified(r) && !DispatchSlips(r, id, fuse, contract, call, host)
  {
    var t := Cross(r, id, fuse, contract, call, host).row;
    assert t.required == r.required by {
      CrossOk(r, id, fuse, contract, call, host);
    }
    if Calls(r, id, fuse, contract, call, host) {
      CallsAreHandOvers(r, id, fuse, contract, call, host);
      if r.status.Completed? {
        CompletedHandOverSafe(r, id, fuse, contract, call, host);
      } else {
        CrossAttests(r, id, fuse, contract, call, host);
      }
    } else {
      NotCalled(r, id, fuse, contract, call, host);
    }
  }

  // ----- One reconciliation ------------------------------------------------------------------------------

  /** The engine lets a reconciled result complete the row, if the verdict allows it. */
  predicate MayComplete(r: Row, call: Call) {
    (r.status.Pending? || r.status.Dispatched? || r.status.Running? || r.status.Blocked?)
    && ReconciledResultAllowed(r) && !call.missionEnded
  }

  /** The owner's later answer is taken as completed without a verdict. */
  predicate ReplaySlips(f: Reading, contract: Contract, call: Call) {
    ReachesSettle(f, contract) && !contract.requiresVerification && f.status.Completed? && ReplayStorable(f, contract)
    && if f.verdict.Positive? then call.attested.None? && call.fuse >= 2 else call.fuse >= 1
  }

  lemma ReconciledCompletes(r: Row, s: Submission, call: Call)
    requires !IsTerminal(r.status)
    ensures
      var t := RecordResult(r, s, true, call.attested, call.missionEnded);
      var verdict := VerdictAfter(r.verdict, s.claim, call.attested);
      (t.Some? && t.value.status.Completed?
       <==> MayComplete(r, call) && s.storable && s.status.Completed? && (s.claim.Some? ==> call.attested.Some?)
            && verdict != Some(false))
      && (t.Some? && t.value.status.Completed? ==> t.value.verdict == verdict)
  {
  }

  lemma ObserveCompletesNothing(r: Row, fuse: nat, state: Reconciliation, status: Status, ending: Row -> Ending)
    requires !IsTerminal(r.status)
    ensures !Observe(r, fuse, state, status, ending).row.status.Completed?
  {
  }

  /** The refusal of a claim, and of a bare status, by themselves. */
  lemma PromoteRefusals(r: Row, f: Reading, contract: Contract, call: Call)
    requires !IsTerminal(r.status) && Answerable(f)
    ensures RecordResult(r, Replay(f, Some(true), contract), true, call.attested, call.missionEnded).Some?
      ==> call.attested.Some?
    ensures call.attested.Some? && f.status.Completed? && MayComplete(r, call) && ReplayStorable(f, contract)
      ==> RecordResult(r, Replay(f, Some(true), contract), true, call.attested, call.missionEnded).Some?
  {
  }

  lemma PromoteAttests(r: Row, f: Reading, contract: Contract, call: Call)
    requires !IsTerminal(r.status) && Answerable(f)
    requires contract.requiresVerification ==> f.verdict.Positive? || f.verdict.Negative?
    ensures Unattested(Promote(r, call.fuse, f, contract, call).row)
      <==> r.verdict.None? && MayComplete(r, call) && !contract.requiresVerification && f.status.Completed?
           && ReplayStorable(f, contract) && !f.verdict.Negative?
           && if f.verdict.Positive? then call.attested.None? && call.fuse >= 2 else call.fuse >= 1
  {
    AttestedIsBool(call.attested);
    AttestedIsBool(r.verdict);
    ReconciledCompletes(r, Replay(f, ClaimOf(f.verdict), contract), call);
    ReconciledCompletes(r, Replay(f, None, contract), call.(attested := None));
    PromoteRefusals(r, f, contract, call);
    if call.fuse > 0 {
      ObserveCompletesNothing(r, call.fuse - 1, Due, Blocked, _ => Threw(EngineRefused));
      if call.fuse > 1 {
        ObserveCompletesNothing(r, call.fuse - 2, Due, Blocked, _ => Threw(EngineRefused));
      }
    }
  }

  lemma WeighAttests(r: Row, f: Reading, contract: Contract, call: Call)
    requires !IsTerminal(r.status) && Answerable(f)
    ensures Unattested(Weigh(r, call.fuse, f, contract, call).row)
      <==> r.verdict.None? && MayComplete(r, call) && ReplaySlips(f, contract, call)
  {
    ObserveCompletesNothing(r, call.fuse, Due, Blocked, (m: Row) => Returned(m.status));
    ObserveCompletesNothing(r, call.fuse, Due, Blocked, _ => Threw(BadEvidence));
    ObserveCompletesNothing(r, call.fuse, Due, Blocked, _ => Threw(if f.idPrints then EchoMismatch else Unprintable));
    ObserveCompletesNothing(r, call.fuse, Due, Blocked, _ => Threw(BadVerdict));
    if contract.requiresVerification ==> f.verdict.Positive? || f.verdict.Negative? {
      PromoteAttests(r, f, contract, call);
    }
  }

  /** Reconciliation gets as far as reading the owner's answer. */
  predicate Hears(r: Row, contract: Contract, call: Call) {
    !IsTerminal(r.status) && r.reconciliation.Due? && call.hasConnector && !contract.terms.replay.NoReplay?
    && call.canAsk && call.available && r.terms == contract.terms && call.semanticsMatch
    && call.answer.Answered? && !call.answer.raw.Null? && SchemaPasses(contract.resultSchema, call.answer.raw)
  }

  /** A reconciliation completes work that needed the owner's word without it. */
  predicate ReconcileSlips(r: Row, id: nat, contract: Contract, call: Call, host: Host) {
    r.required && r.verdict.None? && MayComplete(r, call) && Hears(r, contract, call)
    && ReplaySlips(ReadingOf(call.answer.raw, id, contract.requiresVerification, host), contract, call)
  }

  lemma UnheardCompletesNothing(r: Row, id: nat, contract: Contract, call: Call, host: Host)
    requires !IsTerminal(r.status) && !Hears(r, contract, call)
    ensures !ReconcileRow(r, id, contract, call, host).row.status.Completed?
  {
    var status := if r.status.Failed? then Failed else Blocked;
    ObserveCompletesNothing(r, call.fuse, Unsupported, status, (m: Row) => Returned(m.status));
    ObserveCompletesNothing(r, call.fuse, Due, Blocked, (m: Row) => Returned(m.status));
    ObserveCompletesNothing(r, call.fuse, Due, Blocked, _ => Threw(ResultRejected));
  }

  lemma HeardIsWeighed(r: Row, id: nat, contract: Contract, call: Call, host: Host)
    requires Hears(r, contract, call)
    ensures
      var f := ReadingOf(call.answer.raw, id, contract.requiresVerification, host);
      ReconcileRow(r, id, contract, call, host) == Weigh(r, call.fuse, f, contract, call)
  {
  }

  lemma ReconcileVerified(r: Row, id: nat, contract: Contract, call: Call, host: Host)
    requires RowOk(r)
    ensures Verified(ReconcileRow(r, id, contract, call, host).row)
      <==> Verified(r) && !ReconcileSlips(r, id, contract, call, host)
  {
    assert ReconcileRow(r, id, contract, call, host).row.required == r.required by {
      ReconcileOk(r, id, contract, call, host);
    }
    if Hears(r, contract, call) {
      HeardIsWeighed(r, id, contract, call, host);
      WeighAttests(r, ReadingOf(call.answer.raw, id, contract.requiresVerification, host), contract, call);
    } else if !IsTerminal(r.status) {
      UnheardCompletesNothing(r, id, contract, call, host);
    }
  }

  // ----- Runs -----------------------------------------------------------------------------------------------

  /** The event completes work that needed the owner's word, under a registration that no longer asks for it. */
  predicate Slips(rows: Rows, e: Event, host: Host) {
    match e
    case EvResume(id, contract, call) =>
      id < |rows| && MayResume(rows[id], contract, call) && DispatchSlips(rows[id], id, call.fuse, contract, call, host)
    case EvReconcile(id, contract, call) => id < |rows| && ReconcileSlips(rows[id], id, contract, call, host)
    case _ => false
  }

  lemma VerifiedAfterUpdate(rows: Rows, id: nat, t: Row)
    requires id < |rows| && (Verified(t) ==> Verified(rows[id]))
    ensures AllVerified(rows[id := t]) <==> AllVerified(rows) && Verified(t)
  {
    var after := rows[id := t];
    if AllVerified(after) {
      assert Verified(after[id]);
      forall i | 0 <= i < |rows| ensures Verified(rows[i]) {
        assert i != id ==> after[i] == rows[i];
      }
    }
  }

  lemma FreshVerified(rows: Rows, e: Event, host: Host)
    requires RowsOk(rows) && e.EvDispatch?
    ensures AllVerified(Step(rows, e, host)) <==> AllVerified(rows)
  {
    FreshIsPassage(rows, e.mission, e.step, Effect(e.hash), e.contract, e.call, host);
    var passage := FreshPassage(rows, e.mission, e.step, Effect(e.hash), e.contract, e.call);
    if passage.Some? {
      var p := passage.value;
      FreshPassageOk(rows, e.mission, e.step, Effect(e.hash), e.contract, e.call);
      CrossVerified(p.rows[p.id], p.id, p.fuse, e.contract, e.call, host);
      VerifiedAfterUpdate(p.rows, p.id, Cross(p.rows[p.id], p.id, p.fuse, e.contract, e.call, host).row);
      FreshRowsVerified(rows, p.rows);
    }
  }

  /** A new row is not completed. */
  lemma FreshRowsVerified(rows: Rows, more: Rows)
    requires more == rows || (|more| == |rows| + 1 && rows == more[..|rows|] && !more[|rows|].status.Completed?)
    ensures AllVerified(more) <==> AllVerified(rows)
  {
    if AllVerified(more) {
      forall i | 0 <= i < |rows| ensures Verified(rows[i]) {
        assert rows[i] == more[i];
      }
    }
  }

  lemma RewriteVerified(rows: Rows, e: Event, host: Host)
    requires RowsOk(rows) && (e.EvPrepareRetry? || e.EvCancelUnsubmitted? || e.EvCancelWithMission? || e.EvCancel?)
    ensures AllVerified(Step(rows, e, host)) <==> AllVerified(rows)
  {
    if e.id < |rows| {
      var r := rows[e.id];
      if e.EvCancel? {
        CancelOk(r, e.id, e.contract, e.call, host);
        CancelCompletesNothing(r, e.id, e.contract, e.call, host);
      }
      VerifiedAfterUpdate(rows, e.id, Step(rows, e, host)[e.id]);
    }
  }

  lemma CancelCompletesNothing(r: Row, id: nat, contract: Contract, call: Call, host: Host)
    requires RowOk(r)
    ensures CancelRow(r, id, contract, call, host).row.status.Completed? ==> r.status.Completed?
  {
  }

  lemma VerifiedStep(rows: Rows, e: Event, host: Host)
    requires RowsOk(rows)
    ensures AllVerified(Step(rows, e, host)) <==> AllVerified(rows) && !Slips(rows, e, host)
  {
    match e
    case EvDispatch(_, _, _, _, _) => FreshVerified(rows, e, host);
    case EvResume(id, contract, call) =>
      ResumedIsPassage(rows, id, contract, call, host);
      if ResumedPassage(rows, id, contract, call).Some? {
        CrossVerified(rows[id], id, call.fuse, contract, call, host);
        VerifiedAfterUpdate(rows, id, Cross(rows[id], id, call.fuse, contract, call, host).row);
      }
    case EvReconcile(id, contract, call) =>
      if id < |rows| {
        ReconcileVerified(rows[id], id, contract, call, host);
        VerifiedAfterUpdate(rows, id, ReconcileRow(rows[id], id, contract, call, host).row);
      }
    case _ => RewriteVerified(rows, e, host);
  }

  predicate NeverSlips(rows: Rows, events: seq<Event>, host: Host)
    decreases |events|
  {
    events == [] || (!Slips(rows, events[0], host) && NeverSlips(Step(rows, events[0], host), events[1..], host))
  }

  /**
   * Over every run, crashes included: work minted under a capability that requires owner verification is completed
   * only with an attested positive verdict, exactly as long as no event slips.
   */
  lemma {:induction false} VerifiedIff(rows: Rows, events: seq<Event>, host: Host)
    requires RowsOk(rows)
    ensures AllVerified(Run(rows, events, host)) <==> AllVerified(rows) && NeverSlips(rows, events, host)
    decreases |events|
  {
    if events != [] {
      StepOk(rows, events[0], host);
      VerifiedStep(rows, events[0], host);
      VerifiedIff(Step(rows, events[0], host), events[1..], host);
    }
  }

  /** Whoever resumes or reconciles a row finds the requirement under which it was minted still registered. */
  predicate RequirementKept(rows: Rows, e: Event) {
    match e
    case EvResume(id, contract, _) => id < |rows| && rows[id].required ==> contract.requiresVerification
    case EvReconcile(id, contract, _) => id < |rows| && rows[id].required ==> contract.requiresVerification
    case _ => true
  }

  predicate RequirementsKept(rows: Rows, events: seq<Event>, host: Host)
    decreases |events|
  {
    events == []
    || (RequirementKept(rows, events[0]) && RequirementsKept(Step(rows, events[0], host), events[1..], host))
  }

  /** As long as registrations keep requiring what they required, no run completes anything without the owner's word. */
  lemma {:induction false} VerifiedWhileRequired(rows: Rows, events: seq<Event>, host: Host)
    requires RowsOk(rows) && AllVerified(rows) && RequirementsKept(rows, events, host)
    ensures AllVerified(Run(rows, events, host))
    decreases |events|
  {
    if events != [] {
      StepOk(rows, events[0], host);
      VerifiedStep(rows, events[0], host);
      VerifiedWhileRequired(Step(rows, events[0], host), events[1..], host);
    }
  }
}
