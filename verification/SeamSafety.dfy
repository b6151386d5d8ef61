/** How a dispatch may end, and how a cancellation may. */
module SeamSafety {
  import opened Wrappers
  import opened Json
  import opened Schema
  import opened ResultContract
  import opened Invocations
  import opened SeamSpec
  import opened SeamProof

  // ----- A row on the owner's side -------------------------------------------------------------------

  /** Prepared work that a dispatch may take across the seam. */
  predicate Ready(r: Row) {
    RowOk(r) && r.delivery.NotSubmitted? && !r.cancelRequested && (r.status.Pending? || r.status.Dispatched?)
  }

  /** Handed off, not finished, and with no negative verdict. */
  predicate Live(h: Row) {
    (h.status.Dispatched? || h.status.Running?) && !h.delivery.NotSubmitted? && h.verdict != Some(false)
  }

  /** Just handed off. */
  predicate AtOwner(h: Row) {
    h.status.Dispatched? && h.delivery.Submitted? && h.verdict != Some(false) && !h.handle && !h.cancelRequested
    && Doubtful !in h.attempts && h.reconciliation.Due?
  }

  /** What a ready row looks like once the connector runs. */
  function Handed(r: Row): Row
    requires Ready(r)
  {
    Called(MarkHandoff(r, Submitted, NoHandle).value)
  }

  lemma HandedAtOwner(r: Row)
    requires Ready(r)
    ensures AtOwner(Handed(r)) && Handed(r).verdict == r.verdict
  {
  }

  /** Doubt can always be written down on a live row. */
  lemma DoubtRecorded(h: Row, fuse: nat, ending: Ending)
    requires Live(h)
    ensures
      var e := Uncertainty(h, fuse, ending);
      if fuse == 0 then e.row == h && e.ending == Died
      else e.row.status.Blocked? && e.ending == ending && e.row.verdict == h.verdict
  {
  }

  /** When the engine takes a result for a live row, and what it makes of it. */
  lemma ResultRecorded(h: Row, s: Submission, attested: Option<bool>)
    requires Live(h) && (s.status.Completed? || s.status.Failed? || s.status.Running? || s.status.Blocked?)
    ensures
      var t := RecordResult(h, s, false, attested, false);
      (t.Some? <==> s.storable && (HasUncertainDelivery(h) ==> s.status.Blocked?) && (s.claim.Some? ==> attested.Some?))
      && (t.Some? ==>
            t.value.verdict == (if s.claim.Some? then attested else h.verdict)
            && t.value.status == (if s.status.Completed? && t.value.verdict == Some(false) then Failed else s.status))
  {
  }

  // ----- Completion safety -----------------------------------------------------------------------------

  /** What every reading satisfies: one of four statuses, and text prints. */
  predicate Answerable(f: Reading) {
    (f.status.Completed? || f.status.Failed? || f.status.Running? || f.status.Blocked?)
    && (f.summaryFits ==> f.summaryPrints)
  }

  /** The result passed every gate behind its schema. */
  predicate Fits(f: Reading) {
    f.evidenceFits && !f.verdict.Malformed? && f.echoes
  }

  /** The grounds on which a row may end completed. */
  predicate CompletionGrounds(t: Row, f: Reading, contract: Contract, call: Call) {
    f.status.Completed?
    && (contract.requiresVerification ==>
          f.verdict.Positive? && call.attested == Some(true) && t.verdict == Some(true))
  }

  /** The grounds on which a row may end failed after its connector ran. */
  predicate FailureGrounds(f: Reading, call: Call) {
    f.status.Failed? || (f.verdict.Negative? && call.attested.Some?)
    || (f.verdict.Positive? && call.attested == Some(false) && f.status.Completed?)
  }

  /** The status the caller is told is the durable one, unless the authority turned a positive claim around. */
  predicate Reported(t: Row, ending: Ending, call: Call) {
    ending.Returned? ==>
      t.status == ending.status || (ending.status.Completed? && t.status.Failed? && call.attested == Some(false))
  }

  predicate Sound(t: Row, ending: Ending, f: Reading, contract: Contract, call: Call) {
    (t.status.Completed? ==> CompletionGrounds(t, f, contract, call))
    && (t.status.Failed? ==> FailureGrounds(f, call))
    && Reported(t, ending, call)
  }

  predicate Unfinished(t: Row, ending: Ending) {
    !IsFinished(t.status) && !ending.Returned?
  }

  /** Whatever finished or returned did so on a result that fits, and on its grounds. */
  predicate SoundEnd(t: Row, ending: Ending, f: Reading, contract: Contract, call: Call) {
    Unfinished(t, ending) || (Fits(f) && Sound(t, ending, f, contract, call))
  }

  lemma AttestedIsBool(attested: Option<bool>)
    ensures attested.Some? ==> attested == Some(true) || attested == Some(false)
  {
    if attested.Some? {
      assert attested == Some(attested.value);
      assert attested.value || attested == Some(false);
    }
  }

  lemma SettleSound(h: Row, fuse: nat, f: Reading, contract: Contract, call: Call)
    requires Live(h) && Answerable(f) && !f.verdict.Negative? && (contract.requiresVerification ==> f.verdict.Positive?)
    ensures var e := Settle(h, fuse, f, contract, call); Sound(e.row, e.ending, f, contract, call)
  {
    ResultRecorded(h, Final(f), call.attested);
    ResultRecorded(h, Bare(f), None);
    AttestedIsBool(call.attested);
    if fuse > 0 {
      DoubtRecorded(h, fuse - 1, Returned(Blocked));
    }
  }

  lemma ConcludeSound(h: Row, fuse: nat, f: Reading, contract: Contract, call: Call)
    requires Live(h) && Answerable(f)
    ensures var e := Conclude(h, fuse, f, contract, call); Sound(e.row, e.ending, f, contract, call)
  {
    DoubtRecorded(h, fuse, Returned(Blocked));
    if f.verdict.Negative? {
      ResultRecorded(h, Rejection(f), call.attested);
      if fuse > 0 {
        DoubtRecorded(h, fuse - 1, Returned(Blocked));
      }
    } else if !contract.requiresVerification || f.verdict.Positive? {
      SettleSound(h, fuse, f, contract, call);
    }
  }

  lemma JudgeSound(h: Row, fuse: nat, f: Reading, contract: Contract, call: Call)
    requires Live(h) && Answerable(f)
    ensures var e := Judge(h, fuse, f, contract, call); SoundEnd(e.row, e.ending, f, contract, call)
  {
    DoubtRecorded(h, fuse, Threw(BadEvidence));
    DoubtRecorded(h, fuse, Threw(BadVerdict));
    DoubtRecorded(h, fuse, Threw(EchoMismatch));
    ConcludeSound(h, fuse, f, contract, call);
  }

  /** A row that took the owner's handle is live, and its delivery is uncertain unless the owner said more. */
  lemma HandleTaken(h: Row, f: Reading)
    requires AtOwner(h)
    ensures
      var marked := MarkHandoff(h, HandleDelivery(f), f.handle);
      (marked.Some? <==> !f.handle.Unstorable?)
      && (marked.Some? ==>
            Live(marked.value) && marked.value.verdict == h.verdict
            && (HasUncertainDelivery(marked.value) <==> HandleDelivery(f).Uncertain?)
            && marked.value.status == (if f.status.Running? then Running else Dispatched))
  {
    var marked := MarkHandoff(h, HandleDelivery(f), f.handle);
    if marked.Some? && h.attempts != [] {
      var t := marked.value;
      assert t.attempts[|t.attempts| - 1] == HandedOff(h.attempts[|h.attempts| - 1], HandleDelivery(f));
    }
  }

  lemma ReadingSound(h: Row, fuse: nat, f: Reading, contract: Contract, call: Call)
    requires AtOwner(h) && Answerable(f)
    ensures var e := ConsumeReading(h, fuse, f, contract, call); SoundEnd(e.row, e.ending, f, contract, call)
  {
    if CarriesHandle(h, f) {
      HandleTaken(h, f);
      var marked := MarkHandoff(h, HandleDelivery(f), f.handle);
      if marked.Some? && fuse > 0 {
        JudgeSound(marked.value, fuse - 1, f, contract, call);
      }
    } else {
      JudgeSound(h, fuse, f, contract, call);
    }
  }

  /**
   * The end of a dispatch that called the connector. Completed, for a capability that requires owner verification,
   * means the echoed result carried a positive verdict and the authority attested it. Failed means the connector said
   * so or a verdict against the outcome was attested.
   */
  predicate SafeEnd(t: Row, ending: Ending, id: nat, contract: Contract, call: Call, host: Host) {
    Unfinished(t, ending)
    || (call.answer.Answered? && SchemaPasses(contract.resultSchema, call.answer.raw)
        && SoundEnd(t, ending, ReadingOf(call.answer.raw, id, contract.requiresVerification, host), contract, call))
  }

  lemma ConsumeSound(h: Row, id: nat, fuse: nat, contract: Contract, call: Call, host: Host)
    requires AtOwner(h)
    ensures var e := Consume(h, id, fuse, contract, call, host); SafeEnd(e.row, e.ending, id, contract, call, host)
  {
    DoubtRecorded(h, fuse, Threw(InvokeRaised));
    DoubtRecorded(h, fuse, Threw(ResultRejected));
    if call.answer.Answered? {
      ReadingSound(h, fuse, ReadingOf(call.answer.raw, id, contract.requiresVerification, host), contract, call);
    }
  }

  // ----- Where a throw leaves the row --------------------------------------------------------------------

  /** The result reaches the last write with the connector's own status. */
  predicate ReachesSettle(f: Reading, contract: Contract) {
    Fits(f) && !f.verdict.Negative? && (contract.requiresVerification ==> f.verdict.Positive?)
  }

  /** The engine stores the evidence and, delivery being as it is, takes the connector's own status. */
  predicate StatusTaken(f: Reading) {
    f.evidenceStorable && !(!f.handle.NoHandle? && f.status.Failed?)
  }

  /** A summary for the last write: the connector's own text, or text made around it once a claim was refused. */
  predicate Summarized(f: Reading) {
    if f.verdict.Positive? then f.summaryPrints else f.summaryFits
  }

  /** The connector's own status can be written in neither of the two ways, and nothing else is tried. */
  predicate StatusLost(f: Reading, contract: Contract) {
    ReachesSettle(f, contract) && !contract.requiresVerification && !(StatusTaken(f) && Summarized(f))
  }

  /** The result answers for another request, under an identity that the note about it cannot quote. */
  predicate Unquotable(f: Reading) {
    f.evidenceFits && !f.verdict.Malformed? && !f.echoes && !f.idPrints
  }

  /** The authority refuses to attest a positive verdict, with something that the note about it cannot quote. */
  predicate Muted(f: Reading, contract: Contract, call: Call) {
    ReachesSettle(f, contract) && f.verdict.Positive? && StatusTaken(f) && f.summaryFits
    && call.attested.None? && !Notable(call.refusal)
  }

  /** The four ways in which an error escapes past every write after the connector answered. */
  predicate Stranded(f: Reading, contract: Contract, call: Call) {
    f.handle.Unstorable? || Unquotable(f) || StatusLost(f, contract) || Muted(f, contract, call)
  }

  /** An error escapes past every write: one of those, or what the connector raised cannot be noted. */
  predicate Strands(id: nat, contract: Contract, call: Call, host: Host) {
    match call.answer
    case Raised(thrown) => !Notable(thrown)
    case Answered(raw) =>
      SchemaPasses(contract.resultSchema, raw)
      && Stranded(ReadingOf(raw, id, contract.requiresVerification, host), contract, call)
  }

  /**
   * A default result schema leaves three ways to be stranded by a result: what cannot be stored, a failure with a
   * handle, and a refusal that cannot be noted. A foreign identity is always quoted, and no summary is ever missing.
   */
  lemma DefaultSchemaStrands(raw: Value, id: nat, contract: Contract, call: Call, host: Host)
    requires SchemaPasses(Some(DEFAULT_RESULT_SCHEMA), raw)
    ensures
      var f := ReadingOf(raw, id, contract.requiresVerification, host);
      Stranded(f, contract, call)
      <==> f.handle.Unstorable?
           || (ReachesSettle(f, contract) && !contract.requiresVerification && !StatusTaken(f))
           || (ReachesSettle(f, contract) && StatusTaken(f) && f.verdict.Positive?
               && call.attested.None? && !Notable(call.refusal))
  {
    DefaultSchemaExact(raw);
  }

  /** A live row as it meets the checks: with the owner's handle already taken, if one came. */
  predicate Met(h: Row, f: Reading) {
    Live(h) && Answerable(f) && (HasUncertainDelivery(h) <==> !f.handle.NoHandle? && HandleDelivery(f).Uncertain?)
  }

  /** Thrown exactly when stuck, as far as the process lives; then nothing was written, and else the doubt was. */
  predicate ThrowsWhen(e: Exec, h: Row, stuck: bool, lives: bool) {
    (lives ==> e.ending != Died)
    && (stuck ==> e.row == h && !e.ending.Returned?)
    && (e.ending.Threw? && !stuck ==> e.row.status.Blocked?)
  }

  /** On a live row the last write reaches the authority exactly with a positive verdict and all parts in order. */
  lemma AuthorityReached(h: Row, f: Reading)
    requires Met(h, f)
    ensures ReachesAuthority(h, Final(f), false, false) <==> f.verdict.Positive? && f.summaryFits && StatusTaken(f)
  {
  }

  lemma SettleEnds(h: Row, fuse: nat, f: Reading, contract: Contract, call: Call)
    requires Met(h, f) && ReachesSettle(f, contract)
    ensures
      var stuck := StatusLost(f, contract) || Muted(f, contract, call);
      ThrowsWhen(Settle(h, fuse, f, contract, call), h, stuck, fuse >= 2)
  {
    AuthorityReached(h, f);
    ResultRecorded(h, Final(f), call.attested);
    ResultRecorded(h, Bare(f), None);
    if fuse > 0 {
      DoubtRecorded(h, fuse - 1, Returned(Blocked));
    }
  }

  lemma JudgeEnds(h: Row, fuse: nat, f: Reading, contract: Contract, call: Call)
    requires Met(h, f)
    ensures
      var stuck := Unquotable(f) || StatusLost(f, contract) || Muted(f, contract, call);
      ThrowsWhen(Judge(h, fuse, f, contract, call), h, stuck, fuse >= 2)
  {
    DoubtRecorded(h, fuse, Threw(BadEvidence));
    DoubtRecorded(h, fuse, Threw(BadVerdict));
    DoubtRecorded(h, fuse, Threw(EchoMismatch));
    DoubtRecorded(h, fuse, Returned(Blocked));
    if ReachesSettle(f, contract) {
      SettleEnds(h, fuse, f, contract, call);
    } else if f.verdict.Negative? {
      ResultRecorded(h, Rejection(f), call.attested);
      if fuse > 0 {
        DoubtRecorded(h, fuse - 1, Returned(Blocked));
      }
    }
  }

  /** A row that is not blocked after a throw was stranded, and a stranded row never is. */
  predicate BlockedUnless(e: Exec, stranded: bool, lives: bool) {
    (e.ending.Threw? ==> (e.row.status.Blocked? <==> !stranded))
    && (stranded ==> !e.ending.Returned?)
    && (lives ==> e.ending != Died)
  }

  lemma ReadingEnds(h: Row, fuse: nat, f: Reading, contract: Contract, call: Call)
    requires AtOwner(h) && Answerable(f)
    ensures BlockedUnless(ConsumeReading(h, fuse, f, contract, call), Stranded(f, contract, call), fuse >= 3)
  {
    HandleTaken(h, f);
    if f.handle.NoHandle? {
      JudgeEnds(h, fuse, f, contract, call);
    } else if !f.handle.Unstorable? && fuse > 0 {
      JudgeEnds(MarkHandoff(h, HandleDelivery(f), f.handle).value, fuse - 1, f, contract, call);
    }
  }

  lemma ConsumeEnds(h: Row, id: nat, fuse: nat, contract: Contract, call: Call, host: Host)
    requires AtOwner(h)
    ensures BlockedUnless(Consume(h, id, fuse, contract, call, host), Strands(id, contract, call, host), fuse >= 3)
  {
    DoubtRecorded(h, fuse, Threw(InvokeRaised));
    DoubtRecorded(h, fuse, Threw(ResultRejected));
    if call.answer.Answered? {
      ReadingEnds(h, fuse, ReadingOf(call.answer.raw, id, contract.requiresVerification, host), contract, call);
    }
  }

  // ----- A completed row on the owner's side ------------------------------------------------------------

  lemma CompletedJudged(h: Row, fuse: nat, f: Reading, contract: Contract, call: Call)
    requires h.status.Completed?
    ensures Judge(h, fuse, f, contract, call).row == h
    ensures fuse >= 2 ==> Judge(h, fuse, f, contract, call).ending != Died
  {
  }

  /** Nothing that comes back changes a row that was completed before. */
  lemma CompletedStays(h: Row, id: nat, fuse: nat, contract: Contract, call: Call, host: Host)
    requires h.status.Completed?
    ensures Consume(h, id, fuse, contract, call, host).row == h
    ensures fuse >= 3 ==> Consume(h, id, fuse, contract, call, host).ending != Died
  {
    if call.answer.Answered? {
      var f := ReadingOf(call.answer.raw, id, contract.requiresVerification, host);
      CompletedJudged(h, fuse, f, contract, call);
      if fuse > 0 {
        CompletedJudged(h, fuse - 1, f, contract, call);
      }
    }
  }

  // ----- Every dispatch -----------------------------------------------------------------------------------

  /** A dispatch that calls no connector completes nothing and returns nothing. */
  lemma NotCalled(r: Row, id: nat, fuse: nat, contract: Contract, call: Call, host: Host)
    requires Dispatchable(r) && !Calls(r, id, fuse, contract, call, host)
    ensures
      var e := Cross(r, id, fuse, contract, call, host);
      e.row.calls == r.calls && (e.row.status.Completed? ==> e.row == r) && !e.ending.Returned?
  {
    if SchemaPasses(contract.inputSchema, Request(id, call, host)) {
      NotHandedOver(r, id, fuse, contract, call, host);
    }
  }

  lemma NotHandedOver(r: Row, id: nat, fuse: nat, contract: Contract, call: Call, host: Host)
    requires Dispatchable(r) && (fuse < 2 || MarkHandoff(r, Submitted, NoHandle).None?)
    ensures
      var e := HandOver(r, id, fuse, contract, call, host);
      e.row.calls == r.calls && (e.row.status.Completed? ==> e.row == r) && !e.ending.Returned?
  {
  }

  /** What a dispatch that called the connector keeps: a completed row stays, ready work ends safely. */
  predicate SafeCall(
    r: Row, t: Row, ending: Ending, lives: bool, id: nat, contract: Contract, call: Call, host: Host)
  {
    (ending.Threw? ==> (t.status.Blocked? <==> !r.status.Completed? && !Strands(id, contract, call, host)))
    && (!r.status.Completed? && Strands(id, contract, call, host) ==> !ending.Returned?)
    && (lives ==> ending != Died)
    && if r.status.Completed? then t == Called(r) else SafeEnd(t, ending, id, contract, call, host)
  }

  lemma ConsumedSafe(r: Row, id: nat, fuse: nat, contract: Contract, call: Call, host: Host)
    requires Ready(r)
    ensures
      var e := Consume(Handed(r), id, fuse, contract, call, host);
      SafeCall(r, e.row, e.ending, fuse >= 3, id, contract, call, host)
  {
    HandedAtOwner(r);
    ConsumeEnds(Handed(r), id, fuse, contract, call, host);
    ConsumeSound(Handed(r), id, fuse, contract, call, host);
  }

  lemma ReadyHandOverSafe(r: Row, id: nat, fuse: nat, contract: Contract, call: Call, host: Host)
    requires Ready(r) && fuse >= 2
    ensures
      var e := HandOver(r, id, fuse, contract, call, host);
      SafeCall(r, e.row, e.ending, fuse >= 5, id, contract, call, host)
  {
    ConsumedSafe(r, id, fuse - 2, contract, call, host);
  }

  lemma CompletedHandOverSafe(r: Row, id: nat, fuse: nat, contract: Contract, call: Call, host: Host)
    requires r.status.Completed? && fuse >= 2
    ensures
      var e := HandOver(r, id, fuse, contract, call, host);
      SafeCall(r, e.row, e.ending, fuse >= 5, id, contract, call, host)
  {
    CompletedStays(Called(r), id, fuse - 2, contract, call, host);
  }

  lemma CallsAreHandOvers(r: Row, id: nat, fuse: nat, contract: Contract, call: Call, host: Host)
    requires Dispatchable(r) && Calls(r, id, fuse, contract, call, host)
    ensures (r.status.Completed? || Ready(r)) && fuse >= 2
    ensures Cross(r, id, fuse, contract, call, host) == HandOver(r, id, fuse, contract, call, host)
  {
  }

  /** What every dispatch of one row keeps; `t` and `ending` are what it leaves and how it ends. */
  predicate SafeCross(r: Row, t: Row, ending: Ending, id: nat, fuse: nat, contract: Contract, call: Call, host: Host)
  {
    (t.completedAt <==> IsFinished(t.status))
    && if Calls(r, id, fuse, contract, call, host) then SafeCall(r, t, ending, fuse >= 5, id, contract, call, host)
       else t.calls == r.calls && (t.status.Completed? ==> t == r) && !ending.Returned?
  }

  lemma CrossSafe(r: Row, id: nat, fuse: nat, contract: Contract, call: Call, host: Host)
    requires Dispatchable(r)
    ensures
      var e := Cross(r, id, fuse, contract, call, host);
      SafeCross(r, e.row, e.ending, id, fuse, contract, call, host)
  {
    assert
      var e := Cross(r, id, fuse, contract, call, host);
      e.row.completedAt <==> IsFinished(e.row.status) by {
      CrossOk(r, id, fuse, contract, call, host);
    }
    if Calls(r, id, fuse, contract, call, host) {
      CallsAreHandOvers(r, id, fuse, contract, call, host);
      if r.status.Completed? {
        CompletedHandOverSafe(r, id, fuse, contract, call, host);
      } else {
        ReadyHandOverSafe(r, id, fuse, contract, call, host);
      }
    } else {
      NotCalled(r, id, fuse, contract, call, host);
    }
  }

  /**
   * When a dispatch throws after calling the connector, the row is blocked for reconciliation, unless it was already
   * completed, as the row of another step, or an error escaped past every write: what the connector or the authority
   * raised, or a foreign request identity, could not be quoted, the handle could not be stored, or the status could not
   * be recorded.
   */
  lemma ThrowsBlockIff(r: Row, id: nat, fuse: nat, contract: Contract, call: Call, host: Host)
    requires Dispatchable(r) && Calls(r, id, fuse, contract, call, host)
    ensures
      var e := Cross(r, id, fuse, contract, call, host);
      (e.ending.Threw? ==>
         (e.row.status.Blocked? <==> !r.status.Completed? && !Strands(id, contract, call, host)))
      && (!r.status.Completed? && Strands(id, contract, call, host) ==> !e.ending.Returned?)
      && (fuse >= 5 ==> e.ending != Died)
  {
    CrossSafe(r, id, fuse, contract, call, host);
  }

  /** A dispatch took one row across safely and left all others alone, or it had no passage and changed nothing. */
  predicate SafeDispatch(
    before: Rows, passage: Option<Passage>, after: Rows, ending: Ending, contract: Contract, call: Call, host: Host)
    requires passage.Some? ==> passage.value.id < |passage.value.rows|
  {
    match passage
    case None => after == before && !ending.Returned?
    case Some(p) =>
      |after| == |p.rows| && after == p.rows[p.id := after[p.id]]
      && SafeCross(p.rows[p.id], after[p.id], ending, p.id, p.fuse, contract, call, host)
  }

  lemma CrossedSafe(p: Passage, before: Rows, contract: Contract, call: Call, host: Host)
    requires PassageOk(p)
    ensures
      var o := Crossed(p, contract, call, host);
      SafeDispatch(before, Some(p), o.rows, o.ending, contract, call, host)
  {
    CrossSafe(p.rows[p.id], p.id, p.fuse, contract, call, host);
  }

  /**
   * Completion safety of every fresh dispatch, crashes included: grounds for completed and failed, an honest answer,
   * and where a throw leaves the row. The one exception is named: a completed row of another step stays as it is.
   */
  lemma FreshDispatchSafe(
    rows: Rows, mission: nat, step: nat, fingerprint: Fingerprint, contract: Contract, call: Call, host: Host)
    requires RowsOk(rows)
    ensures
      var o := DispatchFresh(rows, mission, step, fingerprint, contract, call, host);
      var passage := FreshPassage(rows, mission, step, fingerprint, contract, call);
      SafeDispatch(rows, passage, o.rows, o.ending, contract, call, host)
  {
    FreshIsPassage(rows, mission, step, fingerprint, contract, call, host);
    var passage := FreshPassage(rows, mission, step, fingerprint, contract, call);
    if passage.Some? {
      FreshPassageOk(rows, mission, step, fingerprint, contract, call);
      CrossedSafe(passage.value, rows, contract, call, host);
    }
  }

  /** The same for work that was prepared before a restart, where the exception cannot arise. */
  lemma ResumedDispatchSafe(rows: Rows, id: nat, contract: Contract, call: Call, host: Host)
    requires RowsOk(rows)
    ensures
      var o := DispatchPersisted(rows, id, contract, call, host);
      var passage := ResumedPassage(rows, id, contract, call);
      SafeDispatch(rows, passage, o.rows, o.ending, contract, call, host)
      && (passage.Some? ==> Ready(rows[id]))
  {
    ResumedIsPassage(rows, id, contract, call, host);
    var passage := ResumedPassage(rows, id, contract, call);
    if passage.Some? {
      CrossedSafe(passage.value, rows, contract, call, host);
    }
  }

  // ----- A dispatch that is consumed without a call --------------------------------------------------------

  /** The status of a row that was minted but whose connector was not called. */
  function UncalledStatus(id: nat, contract: Contract, call: Call, host: Host): Status {
    if contract.inputSchema.Some? && !SchemaPasses(contract.inputSchema, Request(id, call, host)) && call.fuse >= 2
    then Failed else Dispatched
  }

  /** Its delivery: only a handoff that the process survived by one write gets to the owner's side. */
  function UncalledDelivery(id: nat, contract: Contract, call: Call, host: Host): Delivery {
    if contract.inputSchema.None? || call.fuse < 2 then NotSubmitted
    else if SchemaPasses(contract.inputSchema, Request(id, call, host)) then Submitted else DeliveryFailed
  }

  lemma UncalledCross(m: Row, id: nat, contract: Contract, call: Call, host: Host)
    requires m == Minted(m.mission, m.step, m.fingerprint, m.terms, m.required) && call.fuse > 0
    requires !Calls(m, id, call.fuse - 1, contract, call, host)
    ensures
      var t := Cross(m, id, call.fuse - 1, contract, call, host).row;
      t.status == UncalledStatus(id, contract, call, host) && t.delivery == UncalledDelivery(id, contract, call, host)
  {
  }

  /**
   * A fresh dispatch consumes its step without calling the connector exactly when the gates are open, the engine
   * mints, the new row is stored and the call is not reached. The step is then barred.
   */
  lemma ConsumedWithoutCallIff(
    rows: Rows, mission: nat, step: nat, fingerprint: Fingerprint, contract: Contract, call: Call, host: Host)
    requires RowsOk(rows)
    ensures
      var after := DispatchFresh(rows, mission, step, fingerprint, contract, call, host).rows;
      var m := Minted(mission, step, fingerprint, contract.terms, contract.requiresVerification);
      var consumed := |after| > |rows| && after[|rows|].calls == [0];
      (consumed <==> call.gatesOpen && call.authorized && ClaimStep(rows, mission, step, fingerprint).Mint?
                     && call.fuse > 0 && !Calls(m, |rows|, call.fuse - 1, contract, call, host))
      && (consumed ==>
            after == rows + [after[|rows|]] && ClaimStep(after, mission, step, fingerprint).Refused?
            && after[|rows|].status == UncalledStatus(|rows|, contract, call, host)
            && after[|rows|].delivery == UncalledDelivery(|rows|, contract, call, host))
  {
    FreshIsPassage(rows, mission, step, fingerprint, contract, call, host);
    var passage := FreshPassage(rows, mission, step, fingerprint, contract, call);
    if passage.Some? && ClaimStep(rows, mission, step, fingerprint).Mint? {
      var p := passage.value;
      var after := Crossed(p, contract, call, host).rows;
      FreshPassageOk(rows, mission, step, fingerprint, contract, call);
      CrossOk(p.rows[p.id], p.id, p.fuse, contract, call, host);
      assert after == rows + [after[|rows|]];
      assert Blocks(after[|rows|], mission, step, fingerprint);
      if !Calls(p.rows[p.id], p.id, p.fuse, contract, call, host) {
        UncalledCross(p.rows[p.id], p.id, contract, call, host);
      }
    }
  }

  // ----- Cancellation ------------------------------------------------------------------------------------

  /** The cancellation reaches the owner. */
  predicate StopReaches(r: Row, contract: Contract, call: Call) {
    !IsTerminal(r.status) && r.cancelRequested && r.cancelState.Requested? && !r.delivery.NotSubmitted? && r.handle
    && (contract.terms.cancel.Cooperative? || contract.terms.cancel.Hard?) && call.canCancel && call.available
    && r.terms == contract.terms && call.semanticsMatch
  }

  predicate StopAnswered(id: nat, contract: Contract, call: Call, host: Host) {
    call.answer.Answered? && Usable(call.answer.raw, id, contract, host)
  }

  /** A row that has been asked to stop while the owner holds it. */
  predicate Stopping(r: Row) {
    !IsTerminal(r.status) && r.cancelRequested && r.cancelState.Requested? && !r.delivery.NotSubmitted?
  }

  predicate SaysUnknown(raw: Value) {
    Read(raw, STATUS) == Str(Ascii("unknown"))
  }

  lemma UnknownIsBlocked(raw: Value)
    ensures SaysUnknown(raw) ==> StatusOf(raw).Blocked?
  {
    AsciiApart("unknown", "completed");
    AsciiApart("unknown", "failed");
    AsciiApart("unknown", "still_running");
  }

  lemma DoubtRefused(r: Row, u: CancelUpdate)
    requires Stopping(r) && u.state.Requested? && u.status == Some(Blocked) && u.delivery == Some(Uncertain)
    requires u.reconciliation.Due? && (u.outcome.None? || u.outcome == Some(Unknown))
    ensures
      var t := RecordCancellationOutcome(r, u);
      (t.None? <==> !r.status.Blocked?) && (t.Some? ==> t.value.status.Blocked?)
  {
  }

  /** When the engine refuses an owner's answer to a cancellation, and when the answer cancels the row. */
  lemma AnswerRefused(r: Row, raw: Value, hard: bool)
    requires Stopping(r) && (r.terms.cancel.Hard? <==> hard)
    ensures
      var t := RecordCancellationOutcome(r, StopUpdate(r, raw, hard));
      (t.None? <==> if SaysUnknown(raw) then !r.status.Blocked?
                    else hard && StatusOf(raw).Completed? && r.status.Failed?)
      && (t.Some? ==> (t.value.status.Cancelled? <==> hard && StatusOf(raw).Completed?))
  {
    UnknownIsBlocked(raw);
    if SaysUnknown(raw) {
      DoubtRefused(r, StopUpdate(r, raw, hard));
    }
  }

  /** Where a cancellation does not reach the owner, nothing is cancelled and the engine refuses nothing. */
  lemma StopNotReached(r: Row, id: nat, contract: Contract, call: Call, host: Host)
    requires !StopReaches(r, contract, call)
    ensures
      var e := CancelRow(r, id, contract, call, host);
      e.ending != Threw(EngineRefused) && e.ending != Threw(Unprintable) && (e.row.status.Cancelled? ==> e.row == r)
  {
  }

  /**
   * Only a hard cancellation that the owner reports as completed cancels a row, and it always does unless the row
   * failed.
   */
  lemma OnlyHardCancelCancels(r: Row, id: nat, contract: Contract, call: Call, host: Host)
    requires RowOk(r) && !IsTerminal(r.status)
    ensures CancelRow(r, id, contract, call, host).row.status.Cancelled?
      <==> StopReaches(r, contract, call) && call.fuse >= 1 && contract.terms.cancel.Hard? && !r.status.Failed?
           && StopAnswered(id, contract, call, host) && StatusOf(call.answer.raw).Completed?
  {
    if StopReaches(r, contract, call) {
      DoubtRefused(r, DOUBTFUL_STOP);
      if StopAnswered(id, contract, call, host) {
        UnknownIsBlocked(call.answer.raw);
        AnswerRefused(r, call.answer.raw, contract.terms.cancel.Hard?);
      }
    } else {
      StopNotReached(r, id, contract, call, host);
    }
  }

  /** What the owner raised cannot be noted. */
  predicate Unnotable(call: Call) {
    call.answer.Raised? && !Notable(call.answer.thrown)
  }

  /** The owner's answer leaves the outcome in doubt: it is unusable, or says so itself. */
  predicate Doubts(id: nat, contract: Contract, call: Call, host: Host) {
    StopAnswered(id, contract, call, host) ==> SaysUnknown(call.answer.raw)
  }

  /** The engine turns the outcome down: doubt on a row that is not blocked, or the stop of a failed one. */
  predicate StopRefused(r: Row, id: nat, contract: Contract, call: Call, host: Host) {
    if Doubts(id, contract, call, host) then !r.status.Blocked?
    else contract.terms.cancel.Hard? && StatusOf(call.answer.raw).Completed? && r.status.Failed?
  }

  /**
   * Two errors escape from a cancellation once the owner was asked, and both leave the row as it was. The engine's
   * refusal does exactly when the outcome of an owner's answer, or of what the owner raised, is turned down; and what
   * the owner raised does exactly when it cannot be noted, whatever the row.
   */
  lemma CancelEscapesIff(r: Row, id: nat, contract: Contract, call: Call, host: Host)
    requires RowOk(r)
    ensures
      var e := CancelRow(r, id, contract, call, host);
      (e.ending == Threw(EngineRefused)
       <==> StopReaches(r, contract, call) && !Unnotable(call) && call.fuse >= 1
            && StopRefused(r, id, contract, call, host))
      && (e.ending == Threw(Unprintable) <==> StopReaches(r, contract, call) && Unnotable(call))
      && (e.ending == Threw(EngineRefused) || e.ending == Threw(Unprintable) ==> e.row == r)
  {
    if StopReaches(r, contract, call) {
      DoubtRefused(r, DOUBTFUL_STOP);
      if StopAnswered(id, contract, call, host) {
        AnswerRefused(r, call.answer.raw, contract.terms.cancel.Hard?);
      }
    } else {
      StopNotReached(r, id, contract, call, host);
    }
  }
}
