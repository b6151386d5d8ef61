/** What every reachable state of the projection satisfies. */
module ProjectionProof {
  import opened Wrappers
  import opened ProjectionSpec

  // ----- The invariant -----------------------------------------------------------

  predicate Increasing(es: seq<Envelope>) {
    forall i, j | 0 <= i < j < |es| :: es[i].sequence < es[j].sequence
  }

  predicate IsSnapshot(e: Envelope, cursor: nat) {
    e.sequence == cursor && e.body.Snapshot? && e.body.cursor == cursor
  }

  /** The log of a registration: its snapshot, then the first envelopes built after it. */
  predicate LogIsPrefix(c: ClientState, since: seq<Envelope>) {
    c.log == [] || (IsSnapshot(c.log[0], c.cursor) && c.log[1..] <= since)
  }

  predicate ClientOk(c: ClientState, built: seq<Envelope>, maxPending: nat) {
    && c.since <= |built|
    && (forall i | c.since <= i < |built| :: c.cursor < built[i].sequence)
    && |c.pending| <= maxPending
    && match c.phase
       case Handshaking => c.log == [] && c.pending == (if c.client.Some? then built[c.since..] else [])
       case Ready => c.pending == [] && c.log != [] && IsSnapshot(c.log[0], c.cursor) && c.log[1..] == built[c.since..]
       case Closing => c.pending == [] && LogIsPrefix(c, built[c.since..])
  }

  predicate HistoryOk(s: State) {
    && Increasing(s.built)
    && forall e | e in s.built :: e.sequence <= s.sequence && e.body.Fact?
  }

  predicate KeyOk(k: Key, c: ClientState, next: nat) {
    && c.registration < next
    && match k
       case Reservation(slot) => slot < next && c.client.None? && c.phase.Handshaking? && c.operation.None?
       case Socket(client) => c.client == Some(client)
  }

  /** A registration and the snapshot read it started agree, and a read not yet resumed has not gone live. */
  predicate LinkOk(c: ClientState, o: nat, op: Operation) {
    && (c.operation == Some(o) ==> c.registration == op.registration)
    && (c.registration == op.registration ==>
          c.operation == Some(o) && c.cursor == op.cursor && c.client == Some(op.client)
          && (c.phase.Ready? ==> op.resumed) && (c.phase.Closing? ==> op.outcome.Some?))
  }

  function Unsettled(operations: map<nat, Operation>): set<nat> {
    set o | o in operations && !operations[o].settled
  }

  predicate OperationsOk(s: State) {
    && (forall o | o in s.operations :: o < s.next && s.operations[o].registration < s.next)
    && (forall o | o in s.operations :: s.operations[o].settled ==> s.operations[o].outcome.Some?)
    && s.inFlight == |Unsettled(s.operations)|
  }

  predicate LinksAgree(clients: map<Key, ClientState>, operations: map<nat, Operation>) {
    forall k, o | k in clients && o in operations :: LinkOk(clients[k], o, operations[o])
  }

  predicate LinksResolve(clients: map<Key, ClientState>, operations: map<nat, Operation>) {
    forall k | k in clients && clients[k].operation.Some? :: clients[k].operation.value in operations
  }

  predicate Apart(clients: map<Key, ClientState>, k: Key, k': Key)
    requires k in clients && k' in clients
  {
    k != k' ==> clients[k].registration != clients[k'].registration
  }

  predicate RegistrationsDistinct(clients: map<Key, ClientState>) {
    forall k, k' | k in clients && k' in clients :: Apart(clients, k, k')
  }

  predicate LinksOk(s: State) {
    LinksAgree(s.clients, s.operations) && LinksResolve(s.clients, s.operations) && RegistrationsDistinct(s.clients)
  }

  predicate CapacityOk(s: State, lim: Limits) {
    |s.clients| <= lim.maxClients && 0 <= s.inFlight <= lim.maxClients
  }

  predicate ClientsOk(s: State, lim: Limits) {
    forall k | k in s.clients :: 
      && ClientOk(s.clients[k], s.built, lim.maxPending)
      && KeyOk(k, s.clients[k], s.next)
      && s.clients[k].cursor <= s.sequence
  }

  predicate Inv(s: State, lim: Limits) {
    HistoryOk(s) && ClientsOk(s, lim) && OperationsOk(s) && LinksOk(s) && CapacityOk(s, lim)
  }

  lemma InitOk(lim: Limits)
    ensures Inv(INIT, lim)
  {
    assert Unsettled(INIT.operations) == {};
  }

  // ----- One client --------------------------------------------------------------

  lemma {:induction false} DrainOk(c: ClientState, queue: seq<Envelope>, sends: nat -> SendResult, i: nat,
                                   built: seq<Envelope>, maxPending: nat)
    requires c.phase.Ready? && c.pending == [] && c.since <= |built|
    requires forall j | c.since <= j < |built| :: c.cursor < built[j].sequence
    requires c.log != [] && IsSnapshot(c.log[0], c.cursor) && c.log[1..] + queue == built[c.since..]
    ensures var d := Drain(c, queue, sends, i);
            ClientOk(d, built, maxPending) && d == c.(phase := d.phase, log := d.log) && !d.phase.Handshaking?
    decreases |queue|
  {
    if queue != [] {
      var d := Deliver(c, queue[0], sends(i));
      assert queue == [queue[0]] + queue[1..];
      var log := c.log + [queue[0]];
      assert log[1..] == c.log[1..] + [queue[0]];
      assert log[1..] + queue[1..] == built[c.since..];
      if d.phase.Closing? {
        assert d.log[1..] <= built[c.since..];
      } else {
        DrainOk(d, queue[1..], sends, i + 1, built, maxPending);
      }
    } else {
      assert c.log[1..] + queue == c.log[1..];
    }
  }

  lemma HandshakeOk(c: ClientState, e: Envelope, sends: nat -> SendResult, built: seq<Envelope>, maxPending: nat)
    requires ClientOk(c, built, maxPending) && c.phase.Handshaking? && c.client.Some? && IsSnapshot(e, c.cursor)
    ensures var d := Handshake(c, e, sends);
            ClientOk(d, built, maxPending) && d == c.(phase := d.phase, log := d.log, pending := [])
            && !d.phase.Handshaking?
  {
    var sent := Deliver(c, e, sends(0));
    assert (c.log + [e])[1..] == [];
    if sent.phase.Handshaking? {
      assert sent.log[1..] + c.pending == built[c.since..];
      DrainOk(sent.(phase := Ready, pending := []), c.pending, sends, 1, built, maxPending);
    }
  }

  lemma ShutOk(c: ClientState, built: seq<Envelope>, maxPending: nat)
    requires ClientOk(c, built, maxPending)
    ensures ClientOk(Shut(c), built, maxPending)
  {
  }

  lemma OfferOk(c: ClientState, e: Envelope, result: SendResult, built: seq<Envelope>, maxPending: nat)
    requires ClientOk(c, built, maxPending) && Eligible(c) && c.cursor < e.sequence
    ensures ClientOk(Offer(c, e, result, maxPending), built + [e], maxPending)
  {
    var after := built + [e];
    assert after[c.since..] == built[c.since..] + [e];
    if c.phase.Ready? {
      assert (c.log + [e])[1..] == c.log[1..] + [e];
    }
  }

  lemma IdleOk(c: ClientState, e: Envelope, built: seq<Envelope>, maxPending: nat)
    requires ClientOk(c, built, maxPending) && !Eligible(c) && c.cursor < e.sequence
    requires c.phase.Ready? ==> c.client.Some?
    ensures ClientOk(c, built + [e], maxPending)
  {
    assert (built + [e])[c.since..] == built[c.since..] + [e];
  }

  /** Distinct registrations stay distinct while no client changes its own. */
  lemma ApartStays(before: map<Key, ClientState>, after: map<Key, ClientState>)
    requires RegistrationsDistinct(before) && after.Keys <= before.Keys
    requires forall k | k in after :: after[k].registration == before[k].registration
    ensures RegistrationsDistinct(after)
  {
    forall k, k' | k in after && k' in after ensures Apart(after, k, k') {
      assert Apart(before, k, k');
    }
  }

  // ----- The admission map -------------------------------------------------------

  lemma UnsettledSame(before: map<nat, Operation>, after: map<nat, Operation>)
    requires before.Keys == after.Keys && forall o | o in before :: before[o].settled == after[o].settled
    ensures Unsettled(before) == Unsettled(after)
  {
    assert forall o :: o in before <==> o in after;
  }

  lemma RemoveOk(s: State, k: Key, lim: Limits)
    requires Inv(s, lim)
    ensures Inv(Remove(s, k), lim)
  {
    assert (s.clients - {k}).Keys == s.clients.Keys - {k};
    assert |s.clients - {k}| == |(s.clients - {k}).Keys| && |s.clients| == |s.clients.Keys|;
    RemoveLinksOk(s, k);
  }

  lemma RemoveLinksOk(s: State, k: Key)
    requires LinksOk(s)
    ensures LinksOk(Remove(s, k))
  {
    var t := Remove(s, k);
    forall k', o | k' in t.clients && o in t.operations ensures LinkOk(t.clients[k'], o, t.operations[o]) {
      assert LinkOk(s.clients[k'], o, s.operations[o]);
    }
    ApartStays(s.clients, t.clients);
  }

  lemma ReplaceLinksOk(s: State, k: Key, c: ClientState)
    requires LinksOk(s) && k in s.clients
    requires c == s.clients[k].(phase := c.phase, log := c.log, pending := c.pending)
    requires c.phase.Ready? && c.operation.Some? ==> s.operations[c.operation.value].resumed
    ensures LinksOk(Replace(s, k, c))
  {
    var t := Replace(s, k, c);
    forall k', o | k' in t.clients && o in t.operations ensures LinkOk(t.clients[k'], o, t.operations[o]) {
      assert LinkOk(s.clients[k'], o, s.operations[o]);
      assert LinkOk(s.clients[k], o, s.operations[o]);
    }
    ApartStays(s.clients, t.clients);
  }

  lemma ReplaceClientsOk(s: State, k: Key, c: ClientState, lim: Limits)
    requires ClientsOk(s, lim) && k in s.clients && ClientOk(c, s.built, lim.maxPending) && KeyOk(k, c, s.next)
    requires c.cursor <= s.sequence
    ensures ClientsOk(Replace(s, k, c), lim)
  {
  }

  lemma ReplaceCountsOk(s: State, k: Key, c: ClientState, lim: Limits)
    requires OperationsOk(s) && CapacityOk(s, lim) && k in s.clients
    ensures OperationsOk(Replace(s, k, c)) && CapacityOk(Replace(s, k, c), lim)
  {
    var t := Replace(s, k, c);
    UnsettledSame(s.operations, t.operations);
    assert t.clients.Keys == s.clients.Keys;
    assert |t.clients| == |t.clients.Keys| && |s.clients| == |s.clients.Keys|;
  }

  lemma ReplaceOk(s: State, k: Key, c: ClientState, lim: Limits)
    requires Inv(s, lim) && k in s.clients && ClientOk(c, s.built, lim.maxPending) && KeyOk(k, c, s.next)
    requires c == s.clients[k].(phase := c.phase, log := c.log, pending := c.pending)
    requires c.phase.Ready? && c.operation.Some? ==> s.operations[c.operation.value].resumed
    ensures Inv(Replace(s, k, c), lim)
  {
    ReplaceLinksOk(s, k, c);
    ReplaceClientsOk(s, k, c, lim);
    ReplaceCountsOk(s, k, c, lim);
  }

  lemma MarkClosingOk(s: State, k: Key, lim: Limits)
    requires Inv(s, lim) && k.Socket?
    ensures Inv(MarkClosing(s, k), lim)
  {
    if k in s.clients {
      ShutOk(s.clients[k], s.built, lim.maxPending);
      ReplaceOk(s, k, Shut(s.clients[k]), lim);
    }
  }

  // ----- Rewrites: steps that admit nobody ----------------------------------------

  predicate ClientRewrite(c: ClientState, d: ClientState) {
    && d == c.(phase := d.phase, log := d.log, pending := d.pending)
    && (d.phase.Ready? ==> c.phase.Ready?)
  }

  predicate OperationRewrite(op: Operation, p: Operation) {
    && p == op.(outcome := p.outcome, settled := p.settled, resumed := p.resumed)
    && (op.outcome.Some? ==> p.outcome.Some?) && (op.resumed ==> p.resumed)
  }

  predicate Told(c: ClientState, operations: map<nat, Operation>) {
    c.phase.Closing? && c.operation.Some? && c.operation.value in operations ==>
      operations[c.operation.value].outcome.Some?
  }

  /** `t` differs from `s` only in phases, logs and buffers, in what waits were told, and in clients that left. */
  predicate Rewrites(s: State, t: State) {
    && t.clients.Keys <= s.clients.Keys && t.operations.Keys == s.operations.Keys
    && (forall k | k in t.clients :: ClientRewrite(s.clients[k], t.clients[k]))
    && (forall o | o in t.operations :: OperationRewrite(s.operations[o], t.operations[o]))
    && (forall k | k in t.clients :: Told(t.clients[k], t.operations))
  }

  lemma RewriteLinksOk(s: State, t: State)
    requires LinksOk(s) && Rewrites(s, t)
    ensures LinksOk(t)
  {
    forall k, o | k in t.clients && o in t.operations ensures LinkOk(t.clients[k], o, t.operations[o]) {
      assert LinkOk(s.clients[k], o, s.operations[o]);
      assert ClientRewrite(s.clients[k], t.clients[k]) && OperationRewrite(s.operations[o], t.operations[o]);
      assert Told(t.clients[k], t.operations);
    }
    forall k | k in t.clients && t.clients[k].operation.Some? ensures t.clients[k].operation.value in t.operations {
      assert ClientRewrite(s.clients[k], t.clients[k]);
    }
    forall k | k in t.clients ensures t.clients[k].registration == s.clients[k].registration {
      assert ClientRewrite(s.clients[k], t.clients[k]);
    }
    ApartStays(s.clients, t.clients);
  }

  lemma ToldAlready(s: State, k: Key, operations: map<nat, Operation>)
    requires LinksOk(s) && k in s.clients && operations.Keys == s.operations.Keys
    requires forall o | o in operations :: OperationRewrite(s.operations[o], operations[o])
    ensures Told(s.clients[k], operations)
  {
    if s.clients[k].operation.Some? {
      var o := s.clients[k].operation.value;
      assert LinkOk(s.clients[k], o, s.operations[o]);
      assert OperationRewrite(s.operations[o], operations[o]);
    }
  }

  /** A step that only touches operations. */
  lemma OperationsRewriteLinksOk(s: State, operations: map<nat, Operation>)
    requires LinksOk(s) && operations.Keys == s.operations.Keys
    requires forall o | o in operations :: OperationRewrite(s.operations[o], operations[o])
    ensures LinksOk(s.(operations := operations))
  {
    forall k | k in s.clients ensures Told(s.clients[k], operations) { ToldAlready(s, k, operations); }
    RewriteLinksOk(s, s.(operations := operations));
  }

  lemma SubsetSize<T>(a: set<T>, b: set<T>)
    requires a <= b
    ensures |a| <= |b|
  {
    assert b == a + (b - a);
  }

  lemma RewriteCountsOk(s: State, t: State, lim: Limits)
    requires OperationsOk(s) && CapacityOk(s, lim) && t.clients.Keys <= s.clients.Keys && t.inFlight == s.inFlight
    requires t.next == s.next && t.operations.Keys == s.operations.Keys
    requires forall o | o in t.operations :: OperationRewrite(s.operations[o], t.operations[o])
    requires forall o | o in t.operations :: t.operations[o].settled == s.operations[o].settled
    ensures OperationsOk(t) && CapacityOk(t, lim)
  {
    assert forall o | o in t.operations :: OperationRewrite(s.operations[o], t.operations[o]);
    UnsettledSame(s.operations, t.operations);
    SubsetSize(t.clients.Keys, s.clients.Keys);
    assert |t.clients| == |t.clients.Keys| && |s.clients| == |s.clients.Keys|;
  }

  lemma SettleWaitOk(s: State, o: nat, outcome: WaitOutcome, lim: Limits)
    requires Inv(s, lim)
    ensures Inv(s.(operations := SettleWait(s.operations, o, outcome)), lim)
  {
    var after := SettleWait(s.operations, o, outcome);
    assert forall p | p in after :: OperationRewrite(s.operations[p], after[p]);
    OperationsRewriteLinksOk(s, after);
    RewriteCountsOk(s, s.(operations := after), lim);
  }

  // ----- Steps -------------------------------------------------------------------

  lemma AdmitLinksOk(s: State, k: Key, c: ClientState)
    requires LinksOk(s) && k !in s.clients && c.registration == s.next && c.operation.None?
    requires forall k' | k' in s.clients :: s.clients[k'].registration < s.next
    requires forall o | o in s.operations :: s.operations[o].registration < s.next
    ensures LinksOk(Admit(s, k, c))
  {
    var t := Admit(s, k, c);
    forall k', o | k' in t.clients && o in t.operations ensures LinkOk(t.clients[k'], o, t.operations[o]) {
      if k' != k { assert LinkOk(s.clients[k'], o, s.operations[o]); }
    }
    forall k', k'' | k' in t.clients && k'' in t.clients ensures Apart(t.clients, k', k'') {
      if k' != k && k'' != k { assert Apart(s.clients, k', k''); }
    }
  }

  lemma AdmitCountsOk(s: State, k: Key, c: ClientState, lim: Limits)
    requires OperationsOk(s) && CapacityOk(s, lim) && k !in s.clients && |s.clients| < lim.maxClients
    ensures OperationsOk(Admit(s, k, c)) && CapacityOk(Admit(s, k, c), lim)
  {
    var t := Admit(s, k, c);
    assert t.clients.Keys == s.clients.Keys + {k};
    assert |t.clients| == |t.clients.Keys| && |s.clients| == |s.clients.Keys|;
  }

  lemma AdmitOk(s: State, k: Key, c: ClientState, lim: Limits)
    requires Inv(s, lim) && k !in s.clients && |s.clients| < lim.maxClients
    requires ClientOk(c, s.built, lim.maxPending) && KeyOk(k, c, s.next + 1) && c.cursor <= s.sequence
    requires c.registration == s.next && c.operation.None?
    ensures Inv(Admit(s, k, c), lim)
  {
    assert forall k' | k' in s.clients :: KeyOk(k', s.clients[k'], s.next);
    AdmitLinksOk(s, k, c);
    AdmitCountsOk(s, k, c, lim);
  }

  lemma ReserveOk(s: State, lim: Limits)
    requires Inv(s, lim)
    ensures Inv(Reserve(s, lim), lim)
  {
    var c := Fresh(s, None, 0);
    if MayReserve(s, lim) {
      assert ClientOk(c, s.built, lim.maxPending);
      AdmitOk(s, Reservation(s.next), c, lim);
    }
  }

  predicate MayStart(s: State, k: Key, op: Operation) {
    && k in s.clients && s.clients[k].operation.None? && s.clients[k].phase.Handshaking?
    && op.registration == s.clients[k].registration && op.cursor == s.clients[k].cursor
    && s.clients[k].client == Some(op.client) && k == Socket(op.client)
    && (op.settled ==> op.outcome.Some?)
  }

  lemma StartReadLinksOk(s: State, k: Key, op: Operation)
    requires LinksOk(s) && MayStart(s, k, op) && s.next !in s.operations
    ensures LinksOk(StartRead(s, k, op))
  {
    var t := StartRead(s, k, op);
    forall j, p | j in t.clients && p in t.operations ensures LinkOk(t.clients[j], p, t.operations[p]) {
      if p != s.next { assert LinkOk(s.clients[j], p, s.operations[p]); }
      assert Apart(s.clients, j, k);
    }
    ApartStays(s.clients, t.clients);
  }

  lemma StartReadCountsOk(s: State, k: Key, op: Operation, lim: Limits)
    requires ClientsOk(s, lim) && OperationsOk(s) && CapacityOk(s, lim) && MayStart(s, k, op)
    requires !op.settled ==> s.inFlight < lim.maxClients
    ensures OperationsOk(StartRead(s, k, op)) && CapacityOk(StartRead(s, k, op), lim)
  {
    var t := StartRead(s, k, op);
    assert t.clients.Keys == s.clients.Keys;
    assert |t.clients| == |t.clients.Keys| && |s.clients| == |s.clients.Keys|;
    assert Unsettled(t.operations)
        == if op.settled then Unsettled(s.operations) else Unsettled(s.operations) + {s.next};
  }

  lemma StartReadOk(s: State, k: Key, op: Operation, lim: Limits)
    requires Inv(s, lim) && MayStart(s, k, op) && (!op.settled ==> s.inFlight < lim.maxClients)
    ensures Inv(StartRead(s, k, op), lim)
  {
    StartReadLinksOk(s, k, op);
    StartReadCountsOk(s, k, op, lim);
    StartReadClientsOk(s, k, op, lim);
  }

  lemma StartReadClientsOk(s: State, k: Key, op: Operation, lim: Limits)
    requires ClientsOk(s, lim) && HistoryOk(s) && MayStart(s, k, op)
    ensures ClientsOk(StartRead(s, k, op), lim) && HistoryOk(StartRead(s, k, op))
  {
    assert ClientOk(s.clients[k], s.built, lim.maxPending) && KeyOk(k, s.clients[k], s.next);
  }

  lemma RegisterOk(s: State, client: nat, throws: bool, lim: Limits)
    requires Inv(s, lim) && Socket(client) !in s.clients && |s.clients| < lim.maxClients
    ensures Inv(Register(s, client, throws, lim), lim)
  {
    var cursor := EnsureSequence(s.sequence);
    var s1 := s.(sequence := cursor);
    var c := Fresh(s, Some(client), cursor);
    assert Inv(s1, lim);
    assert ClientOk(c, s.built, lim.maxPending) by { assert s.built[|s.built|..] == []; }
    if s.inFlight >= lim.maxClients {
      AdmitOk(s1, Socket(client), Shut(c), lim);
    } else {
      AdmitOk(s1, Socket(client), c, lim);
      var op := Operation(s.next, client, cursor, if throws then Some(Failed) else None, throws, false);
      StartReadOk(Admit(s1, Socket(client), c), Socket(client), op, lim);
    }
  }

  lemma ConnectOk(s: State, client: nat, open: bool, slot: Option<nat>, throws: bool, lim: Limits)
    requires Inv(s, lim)
    ensures Inv(Connect(s, client, open, slot, throws, lim), lim)
  {
    if slot.Some? {
      var k := Reservation(slot.value);
      RemoveOk(s, k, lim);
      if k in s.clients {
        assert (s.clients - {k}).Keys == s.clients.Keys - {k};
        assert |s.clients - {k}| == |(s.clients - {k}).Keys| && |s.clients| == |s.clients.Keys|;
        if open && Socket(client) !in s.clients { RegisterOk(Remove(s, k), client, throws, lim); }
      }
    } else if open && Socket(client) !in s.clients && MayReserve(s, lim) {
      RegisterOk(s, client, throws, lim);
    }
  }

  lemma ReadSettlesLinksOk(s: State, o: nat, outcome: WaitOutcome)
    requires LinksOk(s) && o in s.operations
    ensures LinksOk(ReadSettles(s, o, outcome))
  {
    var t := ReadSettles(s, o, outcome);
    assert forall p | p in t.operations :: OperationRewrite(s.operations[p], t.operations[p]);
    OperationsRewriteLinksOk(s, t.operations);
  }

  lemma ReadSettlesCountsOk(s: State, o: nat, outcome: WaitOutcome, lim: Limits)
    requires OperationsOk(s) && CapacityOk(s, lim) && o in s.operations && !s.operations[o].settled
    ensures OperationsOk(ReadSettles(s, o, outcome)) && CapacityOk(ReadSettles(s, o, outcome), lim)
  {
    var t := ReadSettles(s, o, outcome);
    var a, b := Unsettled(s.operations), Unsettled(t.operations);
    assert o !in b && a == b + {o};
    assert |a| == |b| + 1;
    assert t.clients == s.clients && t.operations.Keys == s.operations.Keys;
  }

  lemma ReadSettlesOk(s: State, o: nat, outcome: WaitOutcome, lim: Limits)
    requires Inv(s, lim) && o in s.operations && !s.operations[o].settled
    ensures Inv(ReadSettles(s, o, outcome), lim)
  {
    var t := ReadSettles(s, o, outcome);
    ReadSettlesLinksOk(s, o, outcome);
    ReadSettlesCountsOk(s, o, outcome, lim);
    assert t.clients == s.clients && t.built == s.built && t.sequence == s.sequence && t.next == s.next;
  }

  lemma ResumedOk(s: State, o: nat, lim: Limits)
    requires Inv(s, lim) && o in s.operations
    ensures Inv(s.(operations := s.operations[o := s.operations[o].(resumed := true)]), lim)
  {
    var after := s.operations[o := s.operations[o].(resumed := true)];
    assert forall p | p in after :: OperationRewrite(s.operations[p], after[p]);
    OperationsRewriteLinksOk(s, after);
    RewriteCountsOk(s, s.(operations := after), lim);
  }

  lemma ResumeOk(s: State, o: nat, valid: bool, sends: nat -> SendResult, lim: Limits)
    requires Inv(s, lim) && Enabled(s, EvResume(o, valid, sends))
    ensures Inv(Resume(s, o, valid, sends), lim)
  {
    var op := s.operations[o];
    var s1 := s.(operations := s.operations[o := op.(resumed := true)]);
    var k := Socket(op.client);
    ResumedOk(s, o, lim);
    MarkClosingOk(s1, k, lim);
    if op.outcome.value.GotSnapshot? && k in s.clients && s.clients[k].registration == op.registration
       && !s.clients[k].phase.Closing? {
      var e := CreateEnvelope(Snapshot(op.cursor, op.outcome.value.content), op.cursor, valid);
      assert LinkOk(s.clients[k], o, op);
      if e.Some? {
        HandshakeOk(s.clients[k], e.value, sends, s.built, lim.maxPending);
        ReplaceOk(s1, k, Handshake(s.clients[k], e.value, sends), lim);
      }
    }
  }

  lemma DisconnectOk(s: State, client: nat, lim: Limits)
    requires Inv(s, lim)
    ensures Inv(Disconnect(s, client), lim)
  {
    var k := Socket(client);
    if k in s.clients {
      RemoveOk(s, k, lim);
      if s.clients[k].operation.Some? {
        SettleWaitOk(Remove(s, k), s.clients[k].operation.value, Cancelled, lim);
      }
    }
  }

  lemma RetainLinksOk(s: State, k: Key, client: nat)
    requires LinksOk(s) && k in s.clients && Socket(client) !in s.clients && s.clients[k].operation.None?
    ensures LinksOk(Retain(s, k, client))
  {
    var t := Retain(s, k, client);
    forall j, o | j in t.clients && o in t.operations ensures LinkOk(t.clients[j], o, t.operations[o]) {
      assert LinkOk(s.clients[if j == Socket(client) then k else j], o, s.operations[o]);
    }
    forall i, j | i in t.clients && j in t.clients ensures Apart(t.clients, i, j) {
      assert Apart(s.clients, if i == Socket(client) then k else i, if j == Socket(client) then k else j);
    }
  }

  lemma RetainCountsOk(s: State, k: Key, client: nat, lim: Limits)
    requires OperationsOk(s) && CapacityOk(s, lim) && k in s.clients && Socket(client) !in s.clients
    ensures OperationsOk(Retain(s, k, client)) && CapacityOk(Retain(s, k, client), lim)
  {
    var t := Retain(s, k, client);
    assert t.clients.Keys == s.clients.Keys - {k} + {Socket(client)};
    assert |t.clients| == |t.clients.Keys| && |s.clients| == |s.clients.Keys|;
  }

  lemma RetainClientsOk(s: State, k: Key, client: nat, lim: Limits)
    requires ClientsOk(s, lim) && k in s.clients && k.Reservation?
    ensures ClientsOk(Retain(s, k, client), lim)
  {
    assert ClientOk(s.clients[k], s.built, lim.maxPending) && KeyOk(k, s.clients[k], s.next);
  }

  lemma RetainClosingOk(s: State, client: nat, open: bool, slot: nat, lim: Limits)
    requires Inv(s, lim)
    ensures Inv(RetainClosing(s, client, open, slot), lim)
  {
    var k := Reservation(slot);
    if RetainClosing(s, client, open, slot) != s {
      assert KeyOk(k, s.clients[k], s.next);
      RetainLinksOk(s, k, client);
      RetainCountsOk(s, k, client, lim);
      RetainClientsOk(s, k, client, lim);
    }
  }

  // ----- Steps over all clients ----------------------------------------------------

  lemma CancelAllRewrites(operations: map<nat, Operation>, waits: set<nat>)
    ensures CancelAll(operations, waits).Keys == operations.Keys
    ensures forall o | o in operations :: OperationRewrite(operations[o], CancelAll(operations, waits)[o])
    ensures forall o | o in operations :: CancelAll(operations, waits)[o].settled == operations[o].settled
    ensures forall o | o in operations && o in waits :: CancelAll(operations, waits)[o].outcome.Some?
  {
  }

  /** Clients rewritten in place, with the waits of those that close told. */
  lemma ClosingRewrites(s: State, keys: set<Key>, after: map<Key, ClientState>)
    requires LinksOk(s) && after.Keys <= s.clients.Keys
    requires forall k | k in after :: ClientRewrite(s.clients[k], after[k])
    requires forall k | k in after && k !in keys :: after[k] == s.clients[k]
    ensures var t := s.(clients := after, operations := CancelAll(s.operations, ClosingWaits(after, keys)));
            Rewrites(s, t) && LinksOk(t)
  {
    var operations := CancelAll(s.operations, ClosingWaits(after, keys));
    CancelAllRewrites(s.operations, ClosingWaits(after, keys));
    forall k | k in after ensures Told(after[k], operations) {
      if k in keys {
        if after[k].phase.Closing? && after[k].operation.Some? {
          assert after[k].operation.value in ClosingWaits(after, keys);
        }
      } else {
        ToldAlready(s, k, operations);
      }
    }
    RewriteLinksOk(s, s.(clients := after, operations := operations));
  }

  lemma PublishLinksOk(s: State, keys: set<Key>, e: Envelope, sends: Key -> SendResult, maxPending: nat)
    requires LinksOk(s) && keys == EligibleKeys(s)
    ensures LinksOk(Publish(s, keys, e, sends, maxPending))
  {
    var after := Offered(s.clients, keys, e, sends, maxPending);
    forall k | k in after ensures ClientRewrite(s.clients[k], after[k]) {
      OfferRewrites(s.clients[k], e, sends(k), maxPending);
    }
    ClosingRewrites(s, keys, after);
  }

  lemma OfferRewrites(c: ClientState, e: Envelope, result: SendResult, maxPending: nat)
    ensures ClientRewrite(c, c)
    ensures Eligible(c) ==> ClientRewrite(c, Offer(c, e, result, maxPending))
  {
  }

  lemma PublishClientsOk(s: State, keys: set<Key>, e: Envelope, sends: Key -> SendResult, lim: Limits)
    requires ClientsOk(s, lim) && keys == EligibleKeys(s)
    requires forall k | k in s.clients :: s.clients[k].cursor < e.sequence
    ensures ClientsOk(Publish(s, keys, e, sends, lim.maxPending), lim)
  {
    var after := Offered(s.clients, keys, e, sends, lim.maxPending);
    forall k | k in s.clients
      ensures ClientOk(after[k], s.built + [e], lim.maxPending) && KeyOk(k, after[k], s.next)
              && after[k].cursor == s.clients[k].cursor
    {
      PublishClientOk(s, k, e, sends(k), lim);
    }
  }

  lemma PublishClientOk(s: State, k: Key, e: Envelope, result: SendResult, lim: Limits)
    requires ClientsOk(s, lim) && k in s.clients && s.clients[k].cursor < e.sequence
    ensures var c := if Eligible(s.clients[k]) then Offer(s.clients[k], e, result, lim.maxPending) else s.clients[k];
            ClientOk(c, s.built + [e], lim.maxPending) && KeyOk(k, c, s.next) && c.cursor == s.clients[k].cursor
  {
    assert KeyOk(k, s.clients[k], s.next);
    if Eligible(s.clients[k]) {
      OfferOk(s.clients[k], e, result, s.built, lim.maxPending);
    } else {
      IdleOk(s.clients[k], e, s.built, lim.maxPending);
    }
  }

  lemma PublishOk(s: State, keys: set<Key>, e: Envelope, sends: Key -> SendResult, lim: Limits)
    requires Inv(s, lim) && keys == EligibleKeys(s) && e.body.Fact? && e.sequence == s.sequence
    requires forall k | k in s.clients :: s.clients[k].cursor < e.sequence
    requires forall b | b in s.built :: b.sequence < e.sequence
    ensures Inv(Publish(s, keys, e, sends, lim.maxPending), lim)
  {
    var t := Publish(s, keys, e, sends, lim.maxPending);
    PublishLinksOk(s, keys, e, sends, lim.maxPending);
    PublishClientsOk(s, keys, e, sends, lim);
    CancelAllRewrites(s.operations, ClosingWaits(t.clients, keys));
    RewriteCountsOk(s, t, lim);
  }

  lemma BroadcastOk(s: State, gate: Gate, payload: string, valid: bool, sends: Key -> SendResult, lim: Limits)
    requires Inv(s, lim)
    ensures Inv(Broadcast(s, gate, payload, valid, sends, lim), lim)
  {
    if gate.Accepted? && EligibleKeys(s) != {} {
      var s1 := WithSequence(s);
      assert Inv(s1, lim);
      var e := CreateEnvelope(Fact(payload), s1.sequence, valid);
      if e.Some? {
        assert EligibleKeys(s1) == EligibleKeys(s);
        PublishOk(s1, EligibleKeys(s), e.value, sends, lim);
      }
    }
  }

  lemma CloseAllOk(s: State, lim: Limits)
    requires Inv(s, lim)
    ensures Inv(CloseAll(s), lim)
  {
    var after := Survivors(s.clients);
    forall k | k in after ensures ClientRewrite(s.clients[k], after[k]) {
    }
    ClosingRewrites(s, EligibleKeys(s), after);
    CancelAllRewrites(s.operations, ClosingWaits(after, EligibleKeys(s)));
    RewriteCountsOk(s, CloseAll(s), lim);
    CloseAllClientsOk(s, lim);
  }

  lemma CloseAllClientsOk(s: State, lim: Limits)
    requires ClientsOk(s, lim)
    ensures ClientsOk(CloseAll(s), lim)
  {
  }

  // ----- Runs --------------------------------------------------------------------

  lemma StepOk(s: State, ev: Event, lim: Limits)
    requires Inv(s, lim) && Enabled(s, ev)
    ensures Inv(Step(s, ev, lim), lim)
  {
    match ev
    case EvReserve => ReserveOk(s, lim);
    case EvRelease(slot) => RemoveOk(s, Reservation(slot), lim);
    case EvConnect(client, open, slot, throws) => ConnectOk(s, client, open, slot, throws, lim);
    case EvReadSettles(o, outcome) => ReadSettlesOk(s, o, outcome, lim);
    case EvDeadline(o) => SettleWaitOk(s, o, TimedOut, lim);
    case EvResume(o, valid, sends) => ResumeOk(s, o, valid, sends, lim);
    case EvBroadcast(gate, payload, valid, answers) => BroadcastOk(s, gate, payload, valid, answers, lim);
    case EvDisconnect(client) => DisconnectOk(s, client, lim);
    case EvMarkClosing(client) => MarkClosingOk(s, Socket(client), lim);
    case EvRetainClosing(client, open, slot) => RetainClosingOk(s, client, open, slot, lim);
    case EvCloseAll => CloseAllOk(s, lim);
  }

  /** Every state of every run satisfies the invariant. */
  lemma {:induction false} RunOk(states: seq<State>, events: seq<Event>, lim: Limits, n: nat)
    requires IsRun(states, events, lim) && n < |states|
    ensures Inv(states[n], lim)
  {
    if n == 0 {
      InitOk(lim);
    } else {
      RunOk(states, events, lim, n - 1);
      StepOk(states[n - 1], events[n - 1], lim);
    }
  }

  // ----- What the invariant says to a client ---------------------------------------

  /** In a run, a client that is live has received its snapshot and then everything built since it registered. */
  lemma LiveClientsMissNothing(states: seq<State>, events: seq<Event>, lim: Limits, n: nat, k: Key)
    requires IsRun(states, events, lim) && n < |states| && k in states[n].clients
    ensures var s := states[n];
            var c := s.clients[k];
            match c.phase
            case Ready =>
              && c.since <= |s.built| && |c.log| == 1 + |s.built| - c.since
              && IsSnapshot(c.log[0], c.cursor) && forall i | 1 <= i < |c.log| :: c.log[i] == s.built[c.since + i - 1]
            case Handshaking =>
              c.since <= |s.built| && c.log == [] && (c.client.Some? ==> c.pending == s.built[c.since..])
            case Closing =>
              && c.since <= |s.built| && c.pending == []
              && (c.log == [] || (IsSnapshot(c.log[0], c.cursor) && c.log[1..] <= s.built[c.since..]))
  {
    RunOk(states, events, lim, n);
    var s := states[n];
    var c := s.clients[k];
    assert ClientOk(c, s.built, lim.maxPending);
    if c.phase.Ready? {
      forall i | 1 <= i < |c.log| ensures c.log[i] == s.built[c.since + i - 1] {
        assert c.log[1..][i - 1] == s.built[c.since..][i - 1];
      }
    }
  }

  /** In a run, the sequence numbers a client has received strictly increase. */
  lemma LogsIncrease(states: seq<State>, events: seq<Event>, lim: Limits, n: nat, k: Key)
    requires IsRun(states, events, lim) && n < |states| && k in states[n].clients
    ensures Increasing(states[n].clients[k].log)
  {
    RunOk(states, events, lim, n);
    var s := states[n];
    var c := s.clients[k];
    assert ClientOk(c, s.built, lim.maxPending);
    if c.log != [] {
      var tail := c.log[1..];
      assert tail <= s.built[c.since..];
      forall i, j | 0 <= i < j < |c.log| ensures c.log[i].sequence < c.log[j].sequence {
        assert c.log[j] == tail[j - 1] == s.built[c.since + j - 1];
        if i > 0 { assert c.log[i] == tail[i - 1] == s.built[c.since + i - 1]; }
      }
    }
  }

  /** In a run, capacity is bounded, and reads in flight are exactly the reads that have not settled. */
  lemma CapacityHolds(states: seq<State>, events: seq<Event>, lim: Limits, n: nat)
    requires IsRun(states, events, lim) && n < |states|
    ensures var s := states[n];
      && |s.clients| <= lim.maxClients
      && s.inFlight == |set o | o in s.operations && !s.operations[o].settled| <= lim.maxClients
      && forall k | k in s.clients :: |s.clients[k].pending| <= lim.maxPending
           && (s.clients[k].pending != [] ==> s.clients[k].phase.Handshaking?)
  {
    RunOk(states, events, lim, n);
    var s := states[n];
    assert Unsettled(s.operations) == set o | o in s.operations && !s.operations[o].settled;
    forall k | k in s.clients ensures |s.clients[k].pending| <= lim.maxPending
      && (s.clients[k].pending != [] ==> s.clients[k].phase.Handshaking?)
    {
      assert ClientOk(s.clients[k], s.built, lim.maxPending);
    }
  }

  // ----- What a single step cannot do ----------------------------------------------

  lemma {:induction false} DrainExtends(c: ClientState, queue: seq<Envelope>, sends: nat -> SendResult, i: nat)
    ensures
      var d := Drain(c, queue, sends, i);
      c.log <= d.log && d == c.(phase := d.phase, pending := d.pending, log := d.log)
    decreases |queue|
  {
    if queue != [] && !c.phase.Closing? {
      DrainExtends(Deliver(c, queue[0], sends(i)), queue[1..], sends, i + 1);
    }
  }

  predicate Extends(c: ClientState, d: ClientState) {
    && d.since == c.since && d.cursor == c.cursor && d.registration == c.registration
    && c.log <= d.log && (c.phase.Closing? ==> d == c)
  }

  lemma HandshakeExtends(c: ClientState, e: Envelope, sends: nat -> SendResult)
    requires !c.phase.Closing?
    ensures Extends(c, Handshake(c, e, sends))
  {
    DrainExtends(Deliver(c, e, sends(0)).(phase := Ready, pending := []), c.pending, sends, 1);
  }

  lemma ResumeExtends(s: State, o: nat, valid: bool, sends: nat -> SendResult, k: Key)
    requires Enabled(s, EvResume(o, valid, sends)) && k in s.clients
    ensures k in Resume(s, o, valid, sends).clients && Extends(s.clients[k], Resume(s, o, valid, sends).clients[k])
  {
    var op := s.operations[o];
    if op.outcome.value.GotSnapshot? && k == Socket(op.client) && !s.clients[k].phase.Closing? {
      var e := CreateEnvelope(Snapshot(op.cursor, op.outcome.value.content), op.cursor, valid);
      if e.Some? { HandshakeExtends(s.clients[k], e.value, sends); }
    }
  }

  /** What one event does to one admitted client: it leaves, is replaced by a newer registration, or is extended. */
  lemma StepOfOneClient(s: State, ev: Event, lim: Limits, k: Key)
    requires Enabled(s, ev) && k in s.clients && KeyOk(k, s.clients[k], s.next)
    requires s.clients[k].phase.Closing? ==> s.clients[k].pending == []
    ensures var t := Step(s, ev, lim);
            k in t.clients ==> Extends(s.clients[k], t.clients[k])
    ensures ev.EvDisconnect? && k == Socket(ev.client) ==> k !in Step(s, ev, lim).clients
    ensures k.Socket? && !(ev.EvDisconnect? && k == Socket(ev.client)) ==> k in Step(s, ev, lim).clients
  {
    match ev
    case EvResume(o, valid, sends) => ResumeExtends(s, o, valid, sends, k);
    case EvConnect(client, open, slot, throws) => ConnectExtends(s, client, open, slot, throws, lim, k);
    case EvBroadcast(gate, payload, valid, answers) => BroadcastExtends(s, gate, payload, valid, answers, lim, k);
    case _ =>
  }

  lemma ConnectExtends(
    s: State, client: nat, open: bool, slot: Option<nat>, throws: bool, lim: Limits, k: Key)
    requires k in s.clients
    ensures
      var t := Connect(s, client, open, slot, throws, lim);
      (k in t.clients ==> Extends(s.clients[k], t.clients[k])) && (k.Socket? ==> k in t.clients)
  {
  }

  lemma BroadcastExtends(
    s: State, gate: Gate, payload: string, valid: bool, answers: Key -> SendResult, lim: Limits, k: Key)
    requires k in s.clients
    ensures
      var t := Broadcast(s, gate, payload, valid, answers, lim);
      k in t.clients && Extends(s.clients[k], t.clients[k])
  {
  }

  lemma HistoryGrows(s: State, ev: Event, lim: Limits)
    requires Enabled(s, ev)
    ensures s.built <= Step(s, ev, lim).built
  {
  }

  /** History and logs only grow, and a client keeps the point it registered at for as long as it is admitted. */
  lemma StepOnlyAppends(s: State, ev: Event, lim: Limits, k: Key)
    requires Inv(s, lim) && Enabled(s, ev) && k in s.clients && k in Step(s, ev, lim).clients
    ensures s.built <= Step(s, ev, lim).built
    ensures Extends(s.clients[k], Step(s, ev, lim).clients[k])
  {
    assert ClientOk(s.clients[k], s.built, lim.maxPending) && KeyOk(k, s.clients[k], s.next);
    HistoryGrows(s, ev, lim);
    StepOfOneClient(s, ev, lim, k);
  }

  /** A closing client gives its slot back when it disconnects, and at no other event. */
  lemma ClosingHoldsItsSlot(s: State, ev: Event, lim: Limits, client: nat)
    requires Inv(s, lim) && Enabled(s, ev)
    requires Socket(client) in s.clients && s.clients[Socket(client)].phase.Closing?
    ensures var t := Step(s, ev, lim);
      if ev == EvDisconnect(client) then Socket(client) !in t.clients
      else Socket(client) in t.clients && t.clients[Socket(client)] == s.clients[Socket(client)]
  {
    var k := Socket(client);
    assert ClientOk(s.clients[k], s.built, lim.maxPending) && KeyOk(k, s.clients[k], s.next);
    StepOfOneClient(s, ev, lim, k);
  }

  lemma ConnectKeepsPlaces(s: State, client: nat, open: bool, slot: Option<nat>, throws: bool, lim: Limits)
    ensures Connect(s, client, open, slot, throws, lim).inFlight >= s.inFlight
  {
  }

  lemma ResumeKeepsPlaces(s: State, o: nat, valid: bool, sends: nat -> SendResult)
    requires Enabled(s, EvResume(o, valid, sends))
    ensures Resume(s, o, valid, sends).inFlight == s.inFlight
  {
  }

  lemma BroadcastKeepsPlaces(
    s: State, gate: Gate, payload: string, valid: bool, answers: Key -> SendResult, lim: Limits)
    ensures Broadcast(s, gate, payload, valid, answers, lim).inFlight == s.inFlight
  {
  }

  lemma RetainKeepsPlaces(s: State, client: nat, open: bool, slot: nat)
    ensures RetainClosing(s, client, open, slot).inFlight == s.inFlight
  {
  }

  /** Only a read that settles frees its place; deadlines, cancellations and disconnects free none. */
  lemma OnlySettlingFreesAPlace(s: State, ev: Event, lim: Limits)
    requires Inv(s, lim) && Enabled(s, ev)
    ensures Step(s, ev, lim).inFlight < s.inFlight <==> ev.EvReadSettles?
  {
    match ev
    case EvConnect(client, open, slot, throws) => ConnectKeepsPlaces(s, client, open, slot, throws, lim);
    case EvResume(o, valid, sends) => ResumeKeepsPlaces(s, o, valid, sends);
    case EvBroadcast(gate, payload, valid, answers) =>
      BroadcastKeepsPlaces(s, gate, payload, valid, answers, lim);
    case EvRetainClosing(client, open, slot) => RetainKeepsPlaces(s, client, open, slot);
    case _ =>
  }

  /**
   * A handshake that ends without a snapshot closes whoever holds its client key.
   * It shuts a registration other than its own exactly when a live one holds that key.
   */
  lemma StaleFailureClosesOthersIff(s: State, o: nat, valid: bool, sends: nat -> SendResult, lim: Limits)
    requires Inv(s, lim) && Enabled(s, EvResume(o, valid, sends))
    ensures (exists j :: Meddles(s, o, valid, sends, j))
      <==> (!s.operations[o].outcome.value.GotSnapshot? && HeldByOthers(s, s.operations[o])
            && !s.clients[Socket(s.operations[o].client)].phase.Closing?)
  {
    ResumeOfOthers(s, o, valid, sends);
    if j :| Meddles(s, o, valid, sends, j) {
      OnlyOwnKey(s, o, valid, sends, j);
    }
  }

  lemma OnlyOwnKey(s: State, o: nat, valid: bool, sends: nat -> SendResult, j: Key)
    requires Enabled(s, EvResume(o, valid, sends)) && Meddles(s, o, valid, sends, j)
    ensures j == Socket(s.operations[o].client)
  {
    if j != Socket(s.operations[o].client) {
      ResumeTouchesOne(s, o, valid, sends, j);
    }
  }

  /** The resumed handshake changes the client at `j`, which is not its own registration. */
  predicate Meddles(s: State, o: nat, valid: bool, sends: nat -> SendResult, j: Key)
    requires Enabled(s, EvResume(o, valid, sends))
  {
    var t := Resume(s, o, valid, sends);
    j in s.clients && s.clients[j].registration != s.operations[o].registration
    && !(j in t.clients && t.clients[j] == s.clients[j])
  }

  /** Another registration holds the client key of this read. */
  predicate HeldByOthers(s: State, op: Operation) {
    Socket(op.client) in s.clients && s.clients[Socket(op.client)].registration != op.registration
  }

  lemma ResumeTouchesOne(s: State, o: nat, valid: bool, sends: nat -> SendResult, j: Key)
    requires Enabled(s, EvResume(o, valid, sends)) && j in s.clients && j != Socket(s.operations[o].client)
    ensures j in Resume(s, o, valid, sends).clients && Resume(s, o, valid, sends).clients[j] == s.clients[j]
  {
  }

  lemma ResumeOfOthers(s: State, o: nat, valid: bool, sends: nat -> SendResult)
    requires Enabled(s, EvResume(o, valid, sends))
    ensures
      var op := s.operations[o];
      Meddles(s, o, valid, sends, Socket(op.client))
      <==> HeldByOthers(s, op) && !op.outcome.value.GotSnapshot? && !s.clients[Socket(op.client)].phase.Closing?
  {
  }

  /** The stale failure does happen: connect, disconnect, reconnect, then the first handshake resumes. */
  lemma StaleFailureHappens(sends: nat -> SendResult)
    ensures var lim := Limits(32, 64);
      var s1 := Connect(INIT, 7, true, None, false, lim);
      var s2 := Disconnect(s1, 7);
      var s3 := Connect(s2, 7, true, None, false, lim);
      && Enabled(s3, EvResume(1, true, sends))
      && s3.clients[Socket(7)].registration != s3.operations[1].registration
      && s3.clients[Socket(7)].phase.Handshaking?
      && Resume(s3, 1, true, sends).clients[Socket(7)].phase.Closing?
  {
    var lim := Limits(32, 64);
    var s1 := Connect(INIT, 7, true, None, false, lim);
    assert s1.operations[1] == Operation(0, 7, 1, None, false, false);
    assert s1.clients[Socket(7)].operation == Some(1);
    var s2 := Disconnect(s1, 7);
    assert s2.operations[1] == Operation(0, 7, 1, Some(Cancelled), false, false);
    assert s2.clients == map[];
    var s3 := Connect(s2, 7, true, None, false, lim);
    assert s3.operations[1] == s2.operations[1];
  }
}
