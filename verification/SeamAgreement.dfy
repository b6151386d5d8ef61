/** One answer of an owner, read by a dispatch and by a later reconciliation. */
module SeamAgreement {
  import opened Wrappers
  import opened Invocations
  import opened SeamSpec
  import opened SeamSafety

  /** The status of a result that reaches a last write which the engine would take. */
  function Judged(f: Reading, contract: Contract, call: Call): Status {
    if !f.verdict.Positive? then f.status
    else if call.attested.Some? then if call.attested == Some(false) && f.status.Completed? then Failed else f.status
    else if contract.requiresVerification then Blocked
    else f.status
  }

  // ----- What a dispatch leaves ------------------------------------------------------------------------

  /** The status a row has after the owner's handle was taken, if one came. */
  function TakenStatus(f: Reading): Status {
    if !f.handle.NoHandle? && !f.handle.Unstorable? && f.status.Running? then Running else Dispatched
  }

  /** The status that the last write leaves; without a summary of its own the claim is dropped, attested or not. */
  function SettledStatus(f: Reading, contract: Contract, call: Call): Status {
    if contract.requiresVerification then
      if f.summaryFits && StatusTaken(f) then Judged(f, contract, call) else Blocked
    else if f.summaryFits then Judged(f, contract, call) else f.status
  }

  /** The status a dispatch leaves for a result without a negative verdict. */
  function DispatchedStatus(f: Reading, contract: Contract, call: Call): Status {
    if Stranded(f, contract, call) then TakenStatus(f)
    else if ReachesSettle(f, contract) then SettledStatus(f, contract, call) else Blocked
  }

  lemma SettleStatus(h: Row, fuse: nat, f: Reading, contract: Contract, call: Call)
    requires Met(h, f) && fuse >= 2 && ReachesSettle(f, contract)
    ensures Settle(h, fuse, f, contract, call).row.status
      == if StatusLost(f, contract) || Muted(f, contract, call) then h.status else SettledStatus(f, contract, call)
  {
    AuthorityReached(h, f);
    ResultRecorded(h, Final(f), call.attested);
    ResultRecorded(h, Bare(f), None);
    DoubtRecorded(h, fuse - 1, Returned(Blocked));
  }

  lemma JudgeStatus(h: Row, fuse: nat, f: Reading, contract: Contract, call: Call)
    requires Met(h, f) && fuse >= 2 && !f.verdict.Negative?
    ensures
      Judge(h, fuse, f, contract, call).row.status
      == if Unquotable(f) || StatusLost(f, contract) || Muted(f, contract, call) then h.status
         else if ReachesSettle(f, contract) then SettledStatus(f, contract, call) else Blocked
  {
    DoubtRecorded(h, fuse, Threw(BadEvidence));
    DoubtRecorded(h, fuse, Threw(BadVerdict));
    DoubtRecorded(h, fuse, Threw(EchoMismatch));
    DoubtRecorded(h, fuse, Returned(Blocked));
    if ReachesSettle(f, contract) {
      SettleStatus(h, fuse, f, contract, call);
    }
  }

  lemma DispatchLeaves(h: Row, fuse: nat, f: Reading, contract: Contract, call: Call)
    requires AtOwner(h) && Answerable(f) && fuse >= 3 && !f.verdict.Negative?
    ensures ConsumeReading(h, fuse, f, contract, call).row.status == DispatchedStatus(f, contract, call)
  {
    HandleTaken(h, f);
    if f.handle.NoHandle? {
      JudgeStatus(h, fuse, f, contract, call);
    } else if !f.handle.Unstorable? {
      JudgeStatus(MarkHandoff(h, HandleDelivery(f), f.handle).value, fuse - 1, f, contract, call);
    }
  }

  // ----- What reconciliation leaves -----------------------------------------------------------------------

  /** The authority refuses a required verdict, with something that the note about it cannot quote. */
  predicate MutedReplay(f: Reading, contract: Contract, call: Call) {
    ReachesSettle(f, contract) && contract.requiresVerification && ReplayStorable(f, contract)
    && call.attested.None? && !Notable(call.refusal)
  }

  /** The status reconciliation leaves for the same result. */
  function ReconciledStatus(f: Reading, contract: Contract, call: Call): Status {
    if MutedReplay(f, contract, call) then Dispatched
    else if ReachesSettle(f, contract) && ReplayStorable(f, contract) then Judged(f, contract, call)
    else Blocked
  }

  lemma ReconciledRecorded(h: Row, s: Submission, attested: Option<bool>)
    requires AtOwner(h) && (s.status.Completed? || s.status.Failed? || s.status.Running? || s.status.Blocked?)
    ensures
      var t := RecordResult(h, s, true, attested, false);
      (t.Some? <==> s.storable && (s.claim.Some? ==> attested.Some?))
      && (t.Some? ==>
            t.value.status
            == (if s.status.Completed? && s.claim.Some? && attested == Some(false) then Failed else s.status))
  {
  }

  lemma ObservedBlocked(h: Row, fuse: nat, ending: Row -> Ending)
    requires AtOwner(h) && fuse >= 1
    ensures StillUnknown(h, fuse, ending).row.status.Blocked?
  {
  }

  lemma PromoteStatus(h: Row, fuse: nat, f: Reading, contract: Contract, call: Call)
    requires AtOwner(h) && Answerable(f) && fuse >= 3 && !call.missionEnded && ReachesSettle(f, contract)
    ensures Promote(h, fuse, f, contract, call).row.status
         == if MutedReplay(f, contract, call) then h.status
            else if ReplayStorable(f, contract) then Judged(f, contract, call) else Blocked
  {
    ReconciledRecorded(h, Replay(f, ClaimOf(f.verdict), contract), call.attested);
    ReconciledRecorded(h, Replay(f, None, contract), None);
    ObservedBlocked(h, fuse - 1, _ => Threw(EngineRefused));
    ObservedBlocked(h, fuse - 2, _ => Threw(EngineRefused));
  }

  lemma WeighLeaves(h: Row, fuse: nat, f: Reading, contract: Contract, call: Call)
    requires AtOwner(h) && Answerable(f) && fuse >= 3 && !call.missionEnded && !f.verdict.Negative?
    ensures Weigh(h, fuse, f, contract, call).row.status == ReconciledStatus(f, contract, call)
  {
    ObservedBlocked(h, fuse, (m: Row) => Returned(m.status));
    ObservedBlocked(h, fuse, _ => Threw(BadEvidence));
    ObservedBlocked(h, fuse, _ => Threw(if f.idPrints then EchoMismatch else Unprintable));
    ObservedBlocked(h, fuse, _ => Threw(BadVerdict));
    if ReachesSettle(f, contract) {
      PromoteStatus(h, fuse, f, contract, call);
    }
  }

  // ----- The two compared ------------------------------------------------------------------------------

  /** Reconciliation gets as far as asking the owner. */
  predicate Asks(h: Row, contract: Contract, call: Call) {
    AtOwner(h) && h.terms == contract.terms && !contract.terms.replay.NoReplay? && call.hasConnector && call.canAsk
    && call.available && call.semanticsMatch && !call.missionEnded && call.fuse >= 3
  }

  /** The row already runs, because the owner's handle was taken. */
  predicate RunsAlready(f: Reading) {
    !f.handle.NoHandle? && f.status.Running?
  }

  /**
   * Where the two part under required verification: an error escapes at dispatch from a row that runs already, or the
   * engine turns down at dispatch what it takes, or puts before the authority, at reconciliation.
   */
  predicate PartsWhenRequired(f: Reading, contract: Contract, call: Call) {
    if Muted(f, contract, call) then RunsAlready(f)
    else
      !StatusTaken(f) && ReplayStorable(f, contract)
      && if call.attested.Some? then !f.status.Blocked? else !Notable(call.refusal)
  }

  /**
   * Where the two part without it: an error escapes at dispatch, unless the row runs already and is found running, or
   * reconciliation wants a summary where dispatch makes one.
   */
  predicate PartsWhenNotRequired(f: Reading, contract: Contract, call: Call) {
    if StatusLost(f, contract) then !(ReplayStorable(f, contract) && RunsAlready(f))
    else if Muted(f, contract, call) then !RunsAlready(f)
    else !f.summaryFits && !f.status.Blocked?
  }

  /** Where the two part; an error that escapes from both leaves the row as the handoff left it. */
  predicate Parts(f: Reading, contract: Contract, call: Call) {
    if f.handle.Unstorable? then !MutedReplay(f, contract, call)
    else
      Unquotable(f)
      || (ReachesSettle(f, contract)
          && if contract.requiresVerification then PartsWhenRequired(f, contract, call)
             else PartsWhenNotRequired(f, contract, call))
  }

  lemma StatusesPart(f: Reading, contract: Contract, call: Call)
    requires Answerable(f)
    ensures DispatchedStatus(f, contract, call) == ReconciledStatus(f, contract, call) <==> !Parts(f, contract, call)
  {
  }

  /**
   * For every answer without a negative verdict and the same attestation, dispatching and reconciling leave the same
   * status, despite their different order of checks, except exactly where `Parts` says.
   */
  lemma DispatchAgreesWithReconcile(h: Row, id: nat, contract: Contract, call: Call, host: Host)
    requires Asks(h, contract, call)
    requires call.answer.Answered? ==> !VerdictOf(call.answer.raw, contract.requiresVerification).Negative?
    ensures
      Consume(h, id, call.fuse, contract, call, host).row.status
      == ReconcileRow(h, id, contract, call, host).row.status
      <==> !(call.answer.Answered? && SchemaPasses(contract.resultSchema, call.answer.raw)
             && Parts(ReadingOf(call.answer.raw, id, contract.requiresVerification, host), contract, call))
  {
    DoubtRecorded(h, call.fuse, Threw(InvokeRaised));
    DoubtRecorded(h, call.fuse, Threw(ResultRejected));
    ObservedBlocked(h, call.fuse, (m: Row) => Returned(m.status));
    ObservedBlocked(h, call.fuse, _ => Threw(ResultRejected));
    if call.answer.Answered? {
      var f := ReadingOf(call.answer.raw, id, contract.requiresVerification, host);
      DispatchLeaves(h, call.fuse, f, contract, call);
      WeighLeaves(h, call.fuse, f, contract, call);
      StatusesPart(f, contract, call);
    }
  }
}
