/**
 * The engine's durable rows and the seam in front of the connectors. Methods take the fuse
 * of the process they run in and give back what is left of it.
 */
module DispatchSeam {
  import opened Wrappers
  import opened Json
  import opened Schema
  import opened Invocations
  import opened SeamSpec
  import opened SeamProof
  import opened SeamSafety
  import opened SeamVerification

  // ----- What every operation keeps -----------------------------------------------------------------

  /**
   * An operation is one step of a run: rows stay sound, no attempt calls twice unless the step replays an effect, and
   * nothing is completed without the owner's word unless the step slips.
   */
  predicate Keeps(before: Rows, e: Event, after: Rows, host: Host) {
    after == Step(before, e, host) && RowsOk(after)
    && (AllOnce(after) <==> AllOnce(before) && !Replays(before, e, host))
    && (AllVerified(after) <==> AllVerified(before) && !Slips(before, e, host))
  }

  lemma StepKeeps(rows: Rows, e: Event, host: Host)
    requires RowsOk(rows)
    ensures Keeps(rows, e, Step(rows, e, host), host)
  {
    StepOk(rows, e, host);
    VerifiedStep(rows, e, host);
  }

  /** An operation that calls nothing changed at most one row, and quietly. */
  predicate Quiet(before: Rows, id: nat, after: Rows) {
    |after| == |before|
    && if id < |before| then after == before[id := after[id]] && QuietStep(before[id], after[id]) else after == before
  }

  lemma ReconcileQuiet(rows: Rows, id: nat, contract: Contract, call: Call, host: Host)
    requires RowsOk(rows)
    ensures Quiet(rows, id, Reconcile(rows, id, contract, call, host).rows)
  {
    if id < |rows| {
      ReconcileOk(rows[id], id, contract, call, host);
    }
  }

  lemma CancelQuiet(rows: Rows, id: nat, contract: Contract, call: Call, host: Host)
    requires RowsOk(rows)
    ensures Quiet(rows, id, Cancel(rows, id, contract, call, host).rows)
  {
    if id < |rows| {
      CancelOk(rows[id], id, contract, call, host);
    }
  }

  lemma RefusedCancelKeeps(rows: Rows, id: nat, contract: Contract, call: Call, host: Host)
    requires RowsOk(rows)
    requires Cancel(rows, id, contract, call, host).ending in [Threw(EngineRefused), Threw(Unprintable)]
    ensures Cancel(rows, id, contract, call, host).rows == rows
  {
    CancelEscapesIff(rows[id], id, contract, call, host);
  }

  // ----- The engine -----------------------------------------------------------------------------------

  class MissionEngine {
    var rows: Rows

    /** Rows are sound, and no effect of a mission has two of them. */
    predicate Valid()
      reads this
    {
      RowsOk(rows)
    }

    constructor ()
      ensures Valid() && rows == []
    {
      rows := [];
    }

    /** Atomic: the row is replaced, or the refusal leaves it alone. */
    method Commit(id: nat, next: Option<Row>) returns (accepted: bool)
      requires id < |rows|
      modifies this
      ensures rows == old(rows)[id := next.GetOr(old(rows)[id])] && accepted == next.Some?
    {
      if next.Some? {
        rows := rows[id := next.value];
      }
      accepted := next.Some?;
    }

    method MarkInvocationHandoff(id: nat, delivery: Delivery, handle: Handle) returns (accepted: bool)
      requires id < |rows|
      modifies this
      ensures var next := MarkHandoff(old(rows)[id], delivery, handle);
        rows == old(rows)[id := next.GetOr(old(rows)[id])] && accepted == next.Some?
    {
      accepted := Commit(id, MarkHandoff(rows[id], delivery, handle));
    }

    method RecordInvocationResult(id: nat, s: Submission, reconciled: bool, attested: Option<bool>, missionEnded: bool)
      returns (accepted: bool)
      requires id < |rows|
      modifies this
      ensures var next := RecordResult(old(rows)[id], s, reconciled, attested, missionEnded);
        rows == old(rows)[id := next.GetOr(old(rows)[id])] && accepted == next.Some?
    {
      accepted := Commit(id, RecordResult(rows[id], s, reconciled, attested, missionEnded));
    }

    method MarkInvocationReconciliation(id: nat, state: Reconciliation, status: Status) returns (accepted: bool)
      requires id < |rows|
      modifies this
      ensures var next := MarkReconciliation(old(rows)[id], state, status);
        rows == old(rows)[id := next.GetOr(old(rows)[id])] && accepted == next.Some?
    {
      accepted := Commit(id, MarkReconciliation(rows[id], state, status));
    }

    method RecordInvocationCancellationOutcome(id: nat, u: CancelUpdate) returns (accepted: bool)
      requires id < |rows|
      modifies this
      ensures var next := RecordCancellationOutcome(old(rows)[id], u);
        rows == old(rows)[id := next.GetOr(old(rows)[id])] && accepted == next.Some?
    {
      accepted := Commit(id, RecordCancellationOutcome(rows[id], u));
    }

    /** Prepares another attempt. The attempts before it stay as they were, and nothing is called. */
    method PrepareInvocationRetry(id: nat, now: int, eligibleAt: int, host: Host) returns (accepted: bool)
      requires Valid()
      modifies this
      ensures Valid() && Keeps(old(rows), EvPrepareRetry(id, now, eligibleAt), rows, host)
      ensures accepted <==> id < |old(rows)| && PrepareRetry(old(rows)[id], now, eligibleAt).Some?
      ensures accepted ==>
        IsSafeRetryEligible(old(rows)[id], now) && rows[id].attempts == old(rows)[id].attempts + [Prepared]
        && rows[id].calls == old(rows)[id].calls + [0]
    {
      StepKeeps(rows, EvPrepareRetry(id, now, eligibleAt), host);
      if id >= |rows| {
        return false;
      }
      accepted := Commit(id, PrepareRetry(rows[id], now, eligibleAt));
    }

    /** Cancels work that never crossed the seam. */
    method CancelUnsubmitted(id: nat, host: Host) returns (accepted: bool)
      requires Valid()
      modifies this
      ensures Valid() && Keeps(old(rows), EvCancelUnsubmitted(id), rows, host)
      ensures accepted <==> id < |old(rows)| && Invocations.CancelUnsubmitted(old(rows)[id]).Some?
      ensures accepted ==> IsTerminal(rows[id].status) && rows[id].calls == old(rows)[id].calls
    {
      StepKeeps(rows, EvCancelUnsubmitted(id), host);
      if id >= |rows| {
        return false;
      }
      accepted := Commit(id, Invocations.CancelUnsubmitted(rows[id]));
    }

    /** One transaction over the rows of a mission: a row that refuses rolls all of them back. */
    method CancelMission(mission: nat) returns (accepted: bool)
      requires Valid()
      modifies this
      ensures Valid() && (AllOnce(rows) <==> AllOnce(old(rows)))
      ensures accepted <==> forall i | 0 <= i < |old(rows)| && old(rows)[i].mission == mission ::
        CancelWithMission(old(rows)[i]).Some?
      ensures !accepted ==> rows == old(rows)
      ensures accepted ==> |rows| == |old(rows)| && forall i | 0 <= i < |rows| ::
        rows[i] == if old(rows)[i].mission == mission then CancelWithMission(old(rows)[i]).value else old(rows)[i]
    {
      var before := rows;
      for i := 0 to |before|
        invariant |rows| == |before| && before == old(rows)
        invariant Valid() && (AllOnce(rows) <==> AllOnce(before))
        invariant forall j | 0 <= j < i && before[j].mission == mission ::
          CancelWithMission(before[j]).Some? && rows[j] == CancelWithMission(before[j]).value
        invariant forall j | 0 <= j < |before| && (j >= i || before[j].mission != mission) :: rows[j] == before[j]
      {
        if before[i].mission == mission {
          var next := CancelWithMission(before[i]);
          if next.None? {
            rows := before;
            return false;
          }
          CancelWithMissionOk(before[i]);
          QuietUpdateOk(rows, i, next.value);
          rows := rows[i := next.value];
        }
      }
      accepted := true;
    }

    /** The reading half of dispatching a step: a new row, the completed row of the same effect, or a refusal. */
    method ClaimFor(mission: nat, step: nat, fingerprint: Fingerprint) returns (claim: Claim)
      ensures claim == ClaimStep(rows, mission, step, fingerprint)
      ensures claim.Existing? ==> claim.id < |rows| && rows[claim.id].status.Completed?
                                  && SameEffect(rows[claim.id], mission, fingerprint)
      ensures claim.Mint? ==> forall i | 0 <= i < |rows| :: !SameEffect(rows[i], mission, fingerprint)
    {
      claim := ClaimStep(rows, mission, step, fingerprint);
    }

    /** The writing half: the row is stored under the next id. */
    method MintRow(minted: Row) returns (id: nat)
      modifies this
      ensures rows == old(rows) + [minted] && id == |old(rows)|
    {
      id := |rows|;
      rows := rows + [minted];
    }
  }

  /** The row changed, and the operation ended, as `e` says. */
  predicate Ends(before: Rows, id: nat, after: Rows, end: Ending, e: Exec)
    requires id < |before|
  {
    after == before[id := e.row] && end == e.ending
  }

  /** The same, with what is left of the fuse. */
  predicate Leaves(before: Rows, id: nat, after: Rows, end: Ending, left: nat, e: Exec)
    requires id < |before|
  {
    Ends(before, id, after, end, e) && left == e.fuse
  }

  class ConnectorDispatchSeam {
    const engine: MissionEngine
    const host: Host
    /** The one connector of each capability, by the identity it declares. */
    var connectors: map<nat, nat>

    /** The engine is sound, and every connector serves the capability it declares. */
    predicate Valid()
      reads this, engine
    {
      engine.Valid() && forall c | c in connectors :: connectors[c] == c
    }

    constructor (engine: MissionEngine, host: Host)
      requires engine.Valid()
      ensures Valid() && this.engine == engine && this.host == host && connectors == map[]
    {
      this.engine := engine;
      this.host := host;
      connectors := map[];
    }

    /** A capability keeps the first connector that was registered for it, and none serves under another name. */
    method RegisterConnector(capability: nat, declared: nat) returns (accepted: bool)
      requires Valid()
      modifies this
      ensures Valid() && (accepted <==> capability !in old(connectors) && declared == capability)
      ensures forall c | c in old(connectors) :: c in connectors && connectors[c] == old(connectors)[c]
      ensures connectors.Keys == old(connectors).Keys + if accepted then {capability} else {}
    {
      accepted := capability !in connectors && declared == capability;
      if accepted {
        connectors := connectors[capability := declared];
      }
    }

    method CheckSchema(schema: Option<seq<Spec>>, v: Value) returns (passes: bool)
      ensures passes == SchemaPasses(schema, v)
    {
      if schema.None? {
        return false;
      }
      var errors := EvaluateDeclarativeSchema(schema.value, v);
      passes := |errors| == 0;
    }

    method RecordAndSwallow(id: nat, fuse: nat, status: Status, ending: Ending) returns (end: Ending, left: nat)
      requires id < |engine.rows|
      modifies engine
      ensures Leaves(old(engine.rows), id, engine.rows, end, left, Swallow(old(engine.rows)[id], fuse, status, ending))
    {
      if fuse == 0 {
        return Died, 0;
      }
      var _ := engine.RecordInvocationResult(id, Submission(status, None, true, 0), false, None, false);
      return ending, fuse - 1;
    }

    method RecordUncertain(id: nat, fuse: nat, ending: Ending) returns (end: Ending, left: nat)
      requires id < |engine.rows|
      modifies engine
      ensures Leaves(old(engine.rows), id, engine.rows, end, left, Uncertainty(old(engine.rows)[id], fuse, ending))
    {
      end, left := RecordAndSwallow(id, fuse, Blocked, ending);
    }

    method RecordUncertaintyOf(id: nat, fuse: nat, thrown: Thrown, ending: Ending) returns (end: Ending, left: nat)
      requires id < |engine.rows|
      modifies engine
      ensures Leaves(old(engine.rows), id, engine.rows, end, left,
                     UncertaintyOf(old(engine.rows)[id], fuse, thrown, ending))
    {
      if Notable(thrown) {
        end, left := RecordUncertain(id, fuse, ending);
      } else {
        end, left := Threw(Unprintable), fuse;
      }
    }

    method SettleResult(id: nat, fuse: nat, f: Reading, contract: Contract, call: Call)
      returns (end: Ending, left: nat)
      requires id < |engine.rows|
      modifies engine
      ensures Leaves(old(engine.rows), id, engine.rows, end, left,
                     Settle(old(engine.rows)[id], fuse, f, contract, call))
    {
      if fuse == 0 {
        return Died, 0;
      }
      var accepted := engine.RecordInvocationResult(id, Final(f), false, call.attested, false);
      if accepted {
        return Returned(f.status), fuse - 1;
      }
      if !f.verdict.Positive? {
        return Threw(EngineRefused), fuse - 1;
      }
      if Mute(engine.rows[id], Final(f), false, false, call) {
        return Threw(Unprintable), fuse - 1;
      }
      if contract.requiresVerification {
        end, left := RecordUncertain(id, fuse - 1, Returned(Blocked));
      } else {
        end, left := SettleWithoutClaim(id, fuse - 1, f);
      }
    }

    method SettleWithoutClaim(id: nat, fuse: nat, f: Reading) returns (end: Ending, left: nat)
      requires id < |engine.rows|
      modifies engine
      ensures Leaves(old(engine.rows), id, engine.rows, end, left, SettleBare(old(engine.rows)[id], fuse, f))
    {
      if !f.summaryPrints {
        return Threw(Unprintable), fuse;
      }
      if fuse == 0 {
        return Died, 0;
      }
      var accepted := engine.RecordInvocationResult(id, Bare(f), false, None, false);
      return if accepted then Returned(f.status) else Threw(EngineRefused), fuse - 1;
    }

    method ConcludeResult(id: nat, fuse: nat, f: Reading, contract: Contract, call: Call)
      returns (end: Ending, left: nat)
      requires id < |engine.rows|
      modifies engine
      ensures Leaves(old(engine.rows), id, engine.rows, end, left,
                     Conclude(old(engine.rows)[id], fuse, f, contract, call))
    {
      if f.verdict.Negative? {
        if fuse == 0 {
          return Died, 0;
        }
        var accepted := engine.RecordInvocationResult(id, Rejection(f), false, call.attested, false);
        if accepted {
          return Returned(Failed), fuse - 1;
        }
        end, left := RecordUncertain(id, fuse - 1, Returned(Blocked));
      } else if contract.requiresVerification && !f.verdict.Positive? {
        end, left := RecordUncertain(id, fuse, Returned(Blocked));
      } else {
        end, left := SettleResult(id, fuse, f, contract, call);
      }
    }

    method JudgeResult(id: nat, fuse: nat, f: Reading, contract: Contract, call: Call) returns (end: Ending, left: nat)
      requires id < |engine.rows|
      modifies engine
      ensures Leaves(old(engine.rows), id, engine.rows, end, left, Judge(old(engine.rows)[id], fuse, f, contract, call))
    {
      if !f.evidenceFits {
        end, left := RecordUncertain(id, fuse, Threw(BadEvidence));
      } else if f.verdict.Malformed? {
        end, left := RecordUncertain(id, fuse, Threw(BadVerdict));
      } else if !f.echoes {
        end, left := RejectEcho(id, fuse, f);
      } else {
        end, left := ConcludeResult(id, fuse, f, contract, call);
      }
    }

    method RejectEcho(id: nat, fuse: nat, f: Reading) returns (end: Ending, left: nat)
      requires id < |engine.rows|
      modifies engine
      ensures Leaves(old(engine.rows), id, engine.rows, end, left, Mismatch(old(engine.rows)[id], fuse, f))
    {
      if f.idPrints {
        end, left := RecordUncertain(id, fuse, Threw(EchoMismatch));
      } else {
        end, left := Threw(Unprintable), fuse;
      }
    }

    method ConsumeAnswer(id: nat, fuse: nat, contract: Contract, call: Call) returns (end: Ending, left: nat)
      requires id < |engine.rows|
      modifies engine
      ensures Leaves(old(engine.rows), id, engine.rows, end, left,
                     Consume(old(engine.rows)[id], id, fuse, contract, call, host))
    {
      if call.answer.Raised? {
        end, left := RecordUncertaintyOf(id, fuse, call.answer.thrown, Threw(InvokeRaised));
        return;
      }
      var passes := CheckSchema(contract.resultSchema, call.answer.raw);
      if !passes {
        end, left := RecordUncertain(id, fuse, Threw(ResultRejected));
        return;
      }
      var f := ReadingOf(call.answer.raw, id, contract.requiresVerification, host);
      end, left := ConsumeResult(id, fuse, f, contract, call);
    }

    method ConsumeResult(id: nat, fuse: nat, f: Reading, contract: Contract, call: Call)
      returns (end: Ending, left: nat)
      requires id < |engine.rows|
      modifies engine
      ensures Leaves(old(engine.rows), id, engine.rows, end, left,
                     ConsumeReading(old(engine.rows)[id], fuse, f, contract, call))
    {
      if CarriesHandle(engine.rows[id], f) {
        end, left := TakeOperationHandle(id, fuse, f, contract, call);
      } else {
        end, left := JudgeResult(id, fuse, f, contract, call);
      }
    }

    method TakeOperationHandle(id: nat, fuse: nat, f: Reading, contract: Contract, call: Call)
      returns (end: Ending, left: nat)
      requires id < |engine.rows|
      modifies engine
      ensures Leaves(old(engine.rows), id, engine.rows, end, left,
                     TakeHandle(old(engine.rows)[id], fuse, f, contract, call))
    {
      if fuse == 0 {
        return Died, 0;
      }
      var accepted := engine.MarkInvocationHandoff(id, HandleDelivery(f), f.handle);
      if !accepted {
        return Threw(EngineRefused), fuse - 1;
      }
      end, left := JudgeResult(id, fuse - 1, f, contract, call);
    }

    /** The one effectful connector call: it runs, and the history of the row counts it. */
    method Invoke(id: nat)
      requires id < |engine.rows|
      modifies engine
      ensures engine.rows == old(engine.rows)[id := Called(old(engine.rows)[id])]
    {
      engine.rows := engine.rows[id := Called(engine.rows[id])];
    }

    method InvokeAndConsume(id: nat, fuse: nat, contract: Contract, call: Call) returns (end: Ending, left: nat)
      requires id < |engine.rows|
      modifies engine
      ensures Leaves(old(engine.rows), id, engine.rows, end, left,
                     Invoked(old(engine.rows)[id], id, fuse, contract, call, host))
    {
      Invoke(id);
      end, left := ConsumeAnswer(id, fuse, contract, call);
    }

    method CrossSeam(id: nat, fuse: nat, contract: Contract, call: Call) returns (end: Ending, left: nat)
      requires id < |engine.rows|
      modifies engine
      ensures Leaves(old(engine.rows), id, engine.rows, end, left,
                     Cross(old(engine.rows)[id], id, fuse, contract, call, host))
    {
      if contract.inputSchema.None? {
        end, left := RecordUncertain(id, fuse, Threw(InputRejected));
        return;
      }
      var passes := CheckSchema(contract.inputSchema, Request(id, call, host));
      if !passes {
        end, left := RecordAndSwallow(id, fuse, Failed, Threw(InputRejected));
      } else {
        end, left := HandOverAndInvoke(id, fuse, contract, call);
      }
    }

    method HandOverAndInvoke(id: nat, fuse: nat, contract: Contract, call: Call) returns (end: Ending, left: nat)
      requires id < |engine.rows|
      modifies engine
      ensures Leaves(old(engine.rows), id, engine.rows, end, left,
                     HandOver(old(engine.rows)[id], id, fuse, contract, call, host))
    {
      if fuse == 0 {
        end, left := Died, 0;
      } else if MarkHandoff(engine.rows[id], Submitted, NoHandle).None? {
        end, left := Threw(EngineRefused), fuse - 1;
      } else if fuse == 1 {
        var _ := engine.MarkInvocationHandoff(id, Submitted, NoHandle);
        end, left := Died, 0;
      } else {
        end, left := HandOverAlive(id, fuse, contract, call);
      }
    }

    method HandOverAlive(id: nat, fuse: nat, contract: Contract, call: Call) returns (end: Ending, left: nat)
      requires id < |engine.rows| && fuse >= 2 && MarkHandoff(engine.rows[id], Submitted, NoHandle).Some?
      modifies engine
      ensures Leaves(old(engine.rows), id, engine.rows, end, left,
                     HandOver(old(engine.rows)[id], id, fuse, contract, call, host))
    {
      var _ := engine.MarkInvocationHandoff(id, Submitted, NoHandle);
      end, left := InvokeAndConsume(id, fuse - 2, contract, call);
    }

    /**
     * One step of a mission through the seam. It is a step of a run that keeps what every operation keeps, it ends
     * safely, and without a registered connector nothing changes.
     */
    method DispatchThroughSeam(capability: nat, mission: nat, step: nat, hash: nat, contract: Contract, call: Call)
      returns (end: Ending)
      requires Valid()
      modifies engine
      ensures Valid()
      ensures var c := Reached(call, capability in connectors);
        Keeps(old(engine.rows), EvDispatch(mission, step, hash, contract, c), engine.rows, host)
        && SafeDispatch(old(engine.rows), FreshPassage(old(engine.rows), mission, step, Effect(hash), contract, c),
                        engine.rows, end, contract, c, host)
      ensures capability !in connectors ==> engine.rows == old(engine.rows) && end == Threw(GateClosed)
    {
      var c := Reached(call, capability in connectors);
      FreshDispatchSafe(engine.rows, mission, step, Effect(hash), contract, c, host);
      StepKeeps(engine.rows, EvDispatch(mission, step, hash, contract, c), host);
      end := DispatchStep(mission, step, Effect(hash), contract, c);
    }

    method DispatchStep(mission: nat, step: nat, fingerprint: Fingerprint, contract: Contract, call: Call)
      returns (end: Ending)
      modifies engine
      ensures var o := DispatchFresh(old(engine.rows), mission, step, fingerprint, contract, call, host);
        engine.rows == o.rows && end == o.ending
      ensures !call.gatesOpen ==> end == Threw(GateClosed)
    {
      if !call.gatesOpen || !call.authorized {
        return Threw(GateClosed);
      }
      var minted := Minted(mission, step, fingerprint, contract.terms, contract.requiresVerification);
      var claim := engine.ClaimFor(mission, step, fingerprint);
      end := CrossClaimed(claim, minted, contract, call);
    }

    method CrossClaimed(claim: Claim, minted: Row, contract: Contract, call: Call) returns (end: Ending)
      requires claim.Existing? ==> claim.id < |engine.rows|
      modifies engine
      ensures var o := AfterClaim(old(engine.rows), claim, minted, contract, call, host);
        engine.rows == o.rows && end == o.ending
    {
      var left;
      match claim
      case Refused =>
        end := Threw(GateClosed);
      case Existing(id) =>
        end, left := CrossSeam(id, call.fuse, contract, call);
      case Mint =>
        if call.fuse == 0 {
          end := Died;
        } else {
          var id := engine.MintRow(minted);
          end, left := CrossSeam(id, call.fuse - 1, contract, call);
        }
    }

    /** Continues work that was prepared before a restart: it is ready, and it is the only row that changes. */
    method DispatchPersistedInvocation(capability: nat, id: nat, contract: Contract, call: Call) returns (end: Ending)
      requires Valid()
      modifies engine
      ensures Valid()
      ensures var c := Reached(call, capability in connectors);
        Keeps(old(engine.rows), EvResume(id, contract, c), engine.rows, host)
        && SafeDispatch(old(engine.rows), ResumedPassage(old(engine.rows), id, contract, c), engine.rows, end, contract,
                        c, host)
      ensures engine.rows != old(engine.rows) ==>
        capability in connectors && id < |old(engine.rows)| && Ready(old(engine.rows)[id])
    {
      var c := Reached(call, capability in connectors);
      ResumedDispatchSafe(engine.rows, id, contract, c, host);
      StepKeeps(engine.rows, EvResume(id, contract, c), host);
      end := ResumeRow(id, contract, c);
    }

    method ResumeRow(id: nat, contract: Contract, call: Call) returns (end: Ending)
      modifies engine
      ensures var o := DispatchPersisted(old(engine.rows), id, contract, call, host);
        engine.rows == o.rows && end == o.ending
    {
      if id >= |engine.rows| || !MayResume(engine.rows[id], contract, call) {
        return Threw(GateClosed);
      }
      var left;
      end, left := CrossSeam(id, call.fuse, contract, call);
    }

    method ObserveRow(id: nat, fuse: nat, state: Reconciliation, status: Status, ending: Row -> Ending)
      returns (end: Ending)
      requires id < |engine.rows|
      modifies engine
      ensures Ends(old(engine.rows), id, engine.rows, end, Observe(old(engine.rows)[id], fuse, state, status, ending))
    {
      if fuse == 0 {
        return Died;
      }
      var accepted := engine.MarkInvocationReconciliation(id, state, status);
      return if accepted then ending(engine.rows[id]) else Threw(EngineRefused);
    }

    method RecordReconciliationProblem(id: nat, fuse: nat, ending: Ending) returns (end: Ending)
      requires id < |engine.rows|
      modifies engine
      ensures Ends(old(engine.rows), id, engine.rows, end, ReconciliationProblem(old(engine.rows)[id], fuse, ending))
    {
      if fuse == 0 {
        return Died;
      }
      var status := if engine.rows[id].status.Failed? then Failed else Blocked;
      var _ := engine.MarkInvocationReconciliation(id, Due, status);
      return ending;
    }

    method PromoteResult(id: nat, fuse: nat, f: Reading, contract: Contract, call: Call) returns (end: Ending)
      requires id < |engine.rows|
      modifies engine
      ensures Ends(old(engine.rows), id, engine.rows, end, Promote(old(engine.rows)[id], fuse, f, contract, call))
    {
      var claim := ClaimOf(f.verdict);
      if fuse == 0 {
        return Died;
      }
      var s := Replay(f, claim, contract);
      var accepted := engine.RecordInvocationResult(id, s, true, call.attested, call.missionEnded);
      if accepted {
        return Returned(engine.rows[id].status);
      }
      if claim == Some(true) && !contract.requiresVerification {
        end := PromoteWithoutClaim(id, fuse - 1, f, contract, call);
      } else if Mute(engine.rows[id], s, true, call.missionEnded, call) {
        end := Threw(Unprintable);
      } else {
        end := ObserveRow(id, fuse - 1, Due, Blocked, _ => Threw(EngineRefused));
      }
    }

    method PromoteWithoutClaim(id: nat, fuse: nat, f: Reading, contract: Contract, call: Call) returns (end: Ending)
      requires id < |engine.rows|
      modifies engine
      ensures Ends(old(engine.rows), id, engine.rows, end, PromoteBare(old(engine.rows)[id], fuse, f, contract, call))
    {
      if fuse == 0 {
        return Died;
      }
      var accepted := engine.RecordInvocationResult(id, Replay(f, None, contract), true, None, call.missionEnded);
      if accepted {
        return Returned(engine.rows[id].status);
      }
      end := ObserveRow(id, fuse - 1, Due, Blocked, _ => Threw(EngineRefused));
    }

    method WeighResult(id: nat, fuse: nat, f: Reading, contract: Contract, call: Call) returns (end: Ending)
      requires id < |engine.rows|
      modifies engine
      ensures Ends(old(engine.rows), id, engine.rows, end, Weigh(old(engine.rows)[id], fuse, f, contract, call))
    {
      if !f.evidenceFits {
        end := ObserveRow(id, fuse, Due, Blocked, _ => Threw(BadEvidence));
      } else if !f.echoes {
        end := ObserveRow(id, fuse, Due, Blocked, _ => Threw(if f.idPrints then EchoMismatch else Unprintable));
      } else if f.verdict.Malformed? {
        end := ObserveRow(id, fuse, Due, Blocked, _ => Threw(BadVerdict));
      } else if contract.requiresVerification && (f.verdict.Absent? || f.verdict.Open?) {
        end := ObserveRow(id, fuse, Due, Blocked, (m: Row) => Returned(m.status));
      } else {
        end := PromoteResult(id, fuse, f, contract, call);
      }
    }

    /** Asks the owner about an earlier handoff. Nothing is called, and nothing else changes. */
    method ReconcileInvocation(capability: nat, id: nat, contract: Contract, call: Call) returns (end: Ending)
      requires Valid()
      modifies engine
      ensures Valid()
      ensures var c := Reached(call, capability in connectors);
        Keeps(old(engine.rows), EvReconcile(id, contract, c), engine.rows, host)
        && end == Reconcile(old(engine.rows), id, contract, c, host).ending
      ensures Quiet(old(engine.rows), id, engine.rows)
    {
      var c := Reached(call, capability in connectors);
      ReconcileQuiet(engine.rows, id, contract, c, host);
      StepKeeps(engine.rows, EvReconcile(id, contract, c), host);
      end := ReconcileRowOf(id, contract, c);
    }

    method ReconcileRowOf(id: nat, contract: Contract, call: Call) returns (end: Ending)
      modifies engine
      ensures var o := Reconcile(old(engine.rows), id, contract, call, host);
        engine.rows == o.rows && end == o.ending
    {
      if id >= |engine.rows| {
        return Threw(GateClosed);
      }
      var r := engine.rows[id];
      if IsTerminal(r.status) {
        return Returned(r.status);
      }
      if !r.reconciliation.Due? {
        return Threw(GateClosed);
      }
      if !call.hasConnector {
        end := RecordReconciliationProblem(id, call.fuse, Threw(GateClosed));
        return;
      }
      if contract.terms.replay.NoReplay? || !call.canAsk {
        var status := if r.status.Failed? then Failed else Blocked;
        end := ObserveRow(id, call.fuse, Unsupported, status, (m: Row) => Returned(m.status));
        return;
      }
      if !call.available || r.terms != contract.terms || (!call.semanticsMatch && Notable(call.complaint)) {
        end := RecordReconciliationProblem(id, call.fuse, Threw(GateClosed));
        return;
      }
      if !call.semanticsMatch {
        return Threw(Unprintable);
      }
      end := ReconcileAnswerOf(id, contract, call);
    }

    method ReconcileAnswerOf(id: nat, contract: Contract, call: Call) returns (end: Ending)
      requires id < |engine.rows|
      modifies engine
      ensures Ends(old(engine.rows), id, engine.rows, end,
                   ReconcileAnswer(old(engine.rows)[id], id, contract, call, host))
    {
      if call.answer.Raised? && !Notable(call.answer.thrown) {
        return Threw(Unprintable);
      }
      if call.answer.Raised? || call.answer.raw.Null? {
        end := ObserveRow(id, call.fuse, Due, Blocked, (m: Row) => Returned(m.status));
        return;
      }
      var passes := CheckSchema(contract.resultSchema, call.answer.raw);
      if !passes {
        end := ObserveRow(id, call.fuse, Due, Blocked, _ => Threw(ResultRejected));
      } else {
        var f := ReadingOf(call.answer.raw, id, contract.requiresVerification, host);
        end := WeighResult(id, call.fuse, f, contract, call);
      }
    }

    method StopRow(id: nat, fuse: nat, u: CancelUpdate) returns (end: Ending)
      requires id < |engine.rows|
      modifies engine
      ensures Ends(old(engine.rows), id, engine.rows, end, Stop(old(engine.rows)[id], fuse, u))
    {
      if fuse == 0 {
        return Died;
      }
      var accepted := engine.RecordInvocationCancellationOutcome(id, u);
      return if accepted then Returned(engine.rows[id].status) else Threw(EngineRefused);
    }

    /** Asks the owner to stop. Nothing is called again; an error that escapes leaves everything as it was. */
    method CancelInvocation(capability: nat, id: nat, contract: Contract, call: Call) returns (end: Ending)
      requires Valid()
      modifies engine
      ensures Valid()
      ensures var c := Reached(call, capability in connectors);
        Keeps(old(engine.rows), EvCancel(id, contract, c), engine.rows, host)
        && end == Cancel(old(engine.rows), id, contract, c, host).ending
      ensures Quiet(old(engine.rows), id, engine.rows)
      ensures end in [Threw(EngineRefused), Threw(Unprintable)] ==> engine.rows == old(engine.rows)
    {
      var c := Reached(call, capability in connectors);
      ghost var before := engine.rows;
      CancelQuiet(before, id, contract, c, host);
      StepKeeps(before, EvCancel(id, contract, c), host);
      end := CancelRowOf(id, contract, c);
      if end in [Threw(EngineRefused), Threw(Unprintable)] {
        RefusedCancelKeeps(before, id, contract, c, host);
      }
    }

    method CancelRowOf(id: nat, contract: Contract, call: Call) returns (end: Ending)
      modifies engine
      ensures var o := Cancel(old(engine.rows), id, contract, call, host);
        engine.rows == o.rows && end == o.ending
    {
      if id >= |engine.rows| {
        return Threw(GateClosed);
      }
      var r := engine.rows[id];
      if IsTerminal(r.status) {
        return Returned(r.status);
      }
      if !r.cancelRequested {
        return Threw(GateClosed);
      }
      if !r.cancelState.Requested? || r.delivery.NotSubmitted? {
        return Returned(r.status);
      }
      if contract.terms.cancel.NoCancel? || contract.terms.cancel.UnsupportedCancel? || !call.canCancel || !r.handle {
        end := StopRow(id, call.fuse, CancelUpdate(CancelUnsupported, None, None, Due, None));
        return;
      }
      if !call.available || r.terms != contract.terms || !call.semanticsMatch {
        return Threw(GateClosed);
      }
      if call.answer.Raised? && !Notable(call.answer.thrown) {
        return Threw(Unprintable);
      }
      if call.answer.Raised? || !Usable(call.answer.raw, id, contract, host) {
        end := StopRow(id, call.fuse, DOUBTFUL_STOP);
      } else {
        end := StopRow(id, call.fuse, StopUpdate(r, call.answer.raw, contract.terms.cancel.Hard?));
      }
    }
  }
}
