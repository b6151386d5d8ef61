/**
 * The snapshot-then-stream protocol of the daemon projection, as a state machine
 * whose steps are the stretches of code between two awaits.
 *
 * Two fields are history only and steer nothing: `built`, every envelope a broadcast
 * ever built, and, per registration, `log`, what actually reached the client.
 */
module ProjectionSpec {
  import opened JsNumber
  import opened Wrappers

  /** A reservation object or a client object; both are keys of the one admission map. */
  datatype Key = Reservation(slot: nat) | Socket(client: nat)

  datatype Body = Snapshot(cursor: nat, content: string) | Fact(payload: string)

  datatype Envelope = Envelope(sequence: nat, body: Body)

  datatype Phase = Handshaking | Ready | Closing

  /** `registration` is the identity of the state object the source compares by reference. */
  datatype ClientState = ClientState(
    registration: nat, phase: Phase, pending: seq<Envelope>, client: Option<nat>, operation: Option<nat>,
    since: nat, cursor: nat, log: seq<Envelope>)

  datatype WaitOutcome = GotSnapshot(content: string) | Failed | TimedOut | Cancelled

  /** One snapshot read: what its waiter was told, and whether the read itself has settled. */
  datatype Operation = Operation(
    registration: nat, client: nat, cursor: nat, outcome: Option<WaitOutcome>, settled: bool, resumed: bool)

  datatype Limits = Limits(maxPending: nat, maxClients: nat)

  datatype State = State(
    clients: map<Key, ClientState>, operations: map<nat, Operation>,
    inFlight: int, sequence: nat, next: nat, built: seq<Envelope>)

  /** What one `send` does: it works, the socket is not writable, or it refuses or throws. */
  datatype SendResult = Sent | NotWritable | SendFailed(reached: bool)

  /** Outcome of the event-name and payload checks in front of a broadcast. */
  datatype Gate = Accepted | UnknownEvent | InvalidPayload

  const INIT := State(map[], map[], 0, 0, 0, [])

  // ----- Sequence numbers and envelopes ------------------------------------------

  /** Adding one to a double stops having an effect at 2^53. */
  function NextSequence(sequence: nat): (r: nat)
    ensures r <= MAX_SAFE_INTEGER ==> r > sequence
    ensures r >= sequence && r >= 1
  {
    if sequence > MAX_SAFE_INTEGER then sequence else sequence + 1
  }

  function EnsureSequence(sequence: nat): nat {
    if sequence < 1 then 1 else sequence
  }

  /** `fieldsValid` stands for the id, timestamp, correlation and payload checks. */
  function CreateEnvelope(body: Body, sequence: nat, fieldsValid: bool): (r: Option<Envelope>)
    ensures r.Some? ==> r.value.sequence == sequence && r.value.body == body && 1 <= sequence <= MAX_SAFE_INTEGER
    ensures r.Some? && body.Snapshot? ==> body.cursor == sequence
  {
    if fieldsValid && 1 <= sequence <= MAX_SAFE_INTEGER && (body.Snapshot? ==> body.cursor == sequence)
    then Some(Envelope(sequence, body)) else None
  }

  // ----- One client --------------------------------------------------------------

  function Shut(c: ClientState): ClientState {
    c.(phase := Closing, pending := [])
  }

  function Deliver(c: ClientState, e: Envelope, result: SendResult): ClientState {
    match result
    case Sent => c.(log := c.log + [e])
    case NotWritable => Shut(c)
    case SendFailed(reached) => Shut(if reached then c.(log := c.log + [e]) else c)
  }

  /** What a broadcast does to one eligible client. */
  function Offer(c: ClientState, e: Envelope, result: SendResult, maxPending: nat): ClientState {
    if c.phase.Handshaking? then
      if |c.pending| >= maxPending then Shut(c) else c.(pending := c.pending + [e])
    else Deliver(c, e, result)
  }

  /** Sends `queue` in order until it is empty or a send fails; `i` numbers the sends. */
  function Drain(c: ClientState, queue: seq<Envelope>, sends: nat -> SendResult, i: nat): ClientState
    decreases |queue|
  {
    if queue == [] || c.phase.Closing? then c
    else Drain(Deliver(c, queue[0], sends(i)), queue[1..], sends, i + 1)
  }

  /** The continuation of a handshake that got its snapshot. */
  function Handshake(c: ClientState, snapshot: Envelope, sends: nat -> SendResult): ClientState {
    var sent := Deliver(c, snapshot, sends(0));
    if sent.phase.Closing? then sent
    else Drain(sent.(phase := Ready, pending := []), c.pending, sends, 1)
  }

  // ----- The map of admitted clients ----------------------------------------------

  predicate Eligible(c: ClientState) {
    c.client.Some? && !c.phase.Closing?
  }

  predicate MayReserve(s: State, lim: Limits) {
    |s.clients| < lim.maxClients && s.inFlight < lim.maxClients
  }

  function SettleWait(operations: map<nat, Operation>, o: nat, outcome: WaitOutcome): map<nat, Operation> {
    if o in operations && operations[o].outcome.None?
    then operations[o := operations[o].(outcome := Some(outcome))] else operations
  }

  function CancelWait(operations: map<nat, Operation>, o: Option<nat>): map<nat, Operation> {
    if o.Some? then SettleWait(operations, o.value, Cancelled) else operations
  }

  function MarkClosing(s: State, k: Key): State {
    if k !in s.clients then s
    else s.(clients := s.clients[k := Shut(s.clients[k])],
            operations := CancelWait(s.operations, s.clients[k].operation))
  }

  /** Stores the new state of one client, cancelling its snapshot wait if it is now closing. */
  function Replace(s: State, k: Key, c: ClientState): State {
    s.(clients := s.clients[k := c],
       operations := if c.phase.Closing? then CancelWait(s.operations, c.operation) else s.operations)
  }

  function Close(s: State, k: Key): State {
    if k in s.clients && !s.clients[k].phase.Closing? then MarkClosing(s, k) else s
  }

  function Remove(s: State, k: Key): State {
    s.(clients := s.clients - {k})
  }

  // ----- Steps -------------------------------------------------------------------

  function Fresh(s: State, client: Option<nat>, cursor: nat): ClientState {
    ClientState(s.next, Handshaking, [], client, None, |s.built|, cursor, [])
  }

  function Admit(s: State, k: Key, c: ClientState): State {
    s.(clients := s.clients[k := c], next := s.next + 1)
  }

  function Reserve(s: State, lim: Limits): State {
    if !MayReserve(s, lim) then s else Admit(s, Reservation(s.next), Fresh(s, None, 0))
  }

  function Release(s: State, k: Key): State {
    if k in s.clients && s.clients[k].client.None? then Remove(s, k) else s
  }

  /** Records that the client at `k` has started the read `op`. */
  function StartRead(s: State, k: Key, op: Operation): State
    requires k in s.clients
  {
    s.(clients := s.clients[k := s.clients[k].(operation := Some(s.next))],
       operations := s.operations[s.next := op],
       inFlight := if op.settled then s.inFlight else s.inFlight + 1,
       next := s.next + 1)
  }

  /** Registers the client and starts its snapshot read, or shuts it when no read may start. */
  function Register(s: State, client: nat, snapshotThrows: bool, lim: Limits): State {
    var cursor := EnsureSequence(s.sequence);
    var s1 := s.(sequence := cursor);
    var c := Fresh(s, Some(client), cursor);
    if s.inFlight >= lim.maxClients then Admit(s1, Socket(client), Shut(c))
    else
      var outcome := if snapshotThrows then Some(Failed) else None;
      StartRead(Admit(s1, Socket(client), c), Socket(client),
                Operation(s.next, client, cursor, outcome, snapshotThrows, false))
  }

  function Connect(s: State, client: nat, open: bool, slot: Option<nat>, snapshotThrows: bool, lim: Limits): State {
    if !open || Socket(client) in s.clients then
      if slot.Some? then Release(s, Reservation(slot.value)) else s
    else if slot.Some? then
      var k := Reservation(slot.value);
      if k !in s.clients || s.clients[k].client.Some? then s
      else Register(Remove(s, k), client, snapshotThrows, lim)
    else if !MayReserve(s, lim) then s
    else Register(s, client, snapshotThrows, lim)
  }

  /** The snapshot promise settles; its waiter may have been told something else before. */
  function ReadSettles(s: State, o: nat, outcome: WaitOutcome): State
    requires o in s.operations
  {
    s.(inFlight := s.inFlight - 1,
       operations := SettleWait(s.operations[o := s.operations[o].(settled := true)], o, outcome))
  }

  function DeadlineFires(s: State, o: nat): State {
    s.(operations := SettleWait(s.operations, o, TimedOut))
  }

  /** The code after the await: it closes by client key, but sends only to its own registration. */
  function Resume(s: State, o: nat, fieldsValid: bool, sends: nat -> SendResult): State
    requires o in s.operations && s.operations[o].outcome.Some?
  {
    var op := s.operations[o];
    var s1 := s.(operations := s.operations[o := op.(resumed := true)]);
    var k := Socket(op.client);
    if !op.outcome.value.GotSnapshot? then Close(s1, k)
    else if k !in s.clients || s.clients[k].registration != op.registration || s.clients[k].phase.Closing? then s1
    else
      var e := CreateEnvelope(Snapshot(op.cursor, op.outcome.value.content), op.cursor, fieldsValid);
      if e.None? then Close(s1, k) else Replace(s1, k, Handshake(s.clients[k], e.value, sends))
  }

  function EligibleKeys(s: State): set<Key> {
    set k | k in s.clients && Eligible(s.clients[k])
  }

  function WithSequence(s: State): State {
    s.(sequence := NextSequence(s.sequence))
  }

  function Offered(
    clients: map<Key, ClientState>, keys: set<Key>, e: Envelope, sends: Key -> SendResult, maxPending: nat)
    : map<Key, ClientState>
  {
    map k | k in clients :: if k in keys then Offer(clients[k], e, sends(k), maxPending) else clients[k]
  }

  /** The snapshot waits of the closing clients among `keys`. */
  function ClosingWaits(clients: map<Key, ClientState>, keys: set<Key>): set<nat> {
    set k | k in keys && k in clients && clients[k].phase.Closing? && clients[k].operation.Some?
      :: clients[k].operation.value
  }

  function CancelAll(operations: map<nat, Operation>, waits: set<nat>): map<nat, Operation> {
    map o | o in operations ::
      if o in waits && operations[o].outcome.None? then operations[o].(outcome := Some(Cancelled)) else operations[o]
  }

  /** `e` is part of history, and every key of `keys` is offered it. */
  function Publish(s: State, keys: set<Key>, e: Envelope, sends: Key -> SendResult, maxPending: nat): State {
    var after := Offered(s.clients, keys, e, sends, maxPending);
    s.(clients := after, operations := CancelAll(s.operations, ClosingWaits(after, keys)), built := s.built + [e])
  }

  function Broadcast(
    s: State, gate: Gate, payload: string, fieldsValid: bool, sends: Key -> SendResult, lim: Limits): State
  {
    if !gate.Accepted? || EligibleKeys(s) == {} then s
    else
      var s1 := WithSequence(s);
      var e := CreateEnvelope(Fact(payload), s1.sequence, fieldsValid);
      if e.None? then s1 else Publish(s1, EligibleKeys(s), e.value, sends, lim.maxPending)
  }

  function Disconnect(s: State, client: nat): State {
    var k := Socket(client);
    if k !in s.clients then s
    else Remove(s, k).(operations := CancelWait(s.operations, s.clients[k].operation))
  }

  function Retain(s: State, k: Key, client: nat): State
    requires k in s.clients
  {
    s.(clients := (s.clients - {k})[Socket(client) := Shut(s.clients[k]).(client := Some(client))])
  }

  function RetainClosing(s: State, client: nat, open: bool, slot: nat): State {
    var k := Reservation(slot);
    if !open || Socket(client) in s.clients || k !in s.clients || s.clients[k].client.Some? then s
    else Retain(s, k, client)
  }

  function Survivors(clients: map<Key, ClientState>): map<Key, ClientState> {
    map k | k in clients && clients[k].client.Some? :: if Eligible(clients[k]) then Shut(clients[k]) else clients[k]
  }

  /** Every live client is shut; every unused reservation is dropped. */
  function CloseAll(s: State): State {
    var after := Survivors(s.clients);
    s.(clients := after, operations := CancelAll(s.operations, ClosingWaits(after, EligibleKeys(s))))
  }

  // ----- Runs --------------------------------------------------------------------

  datatype Event =
    | EvReserve
    | EvRelease(slot: nat)
    | EvConnect(client: nat, open: bool, slotUsed: Option<nat>, snapshotThrows: bool)
    | EvReadSettles(o: nat, outcome: WaitOutcome)
    | EvDeadline(o: nat)
    | EvResume(o: nat, fieldsValid: bool, sends: nat -> SendResult)
    | EvBroadcast(gate: Gate, payload: string, fieldsValid: bool, answers: Key -> SendResult)
    | EvDisconnect(client: nat)
    | EvMarkClosing(client: nat)
    | EvRetainClosing(client: nat, open: bool, slot: nat)
    | EvCloseAll

  /** A read settles once, as a snapshot or a failure; a continuation runs once, after its waiter was told. */
  predicate Enabled(s: State, ev: Event) {
    match ev
    case EvReadSettles(o, outcome) =>
      o in s.operations && !s.operations[o].settled && (outcome.GotSnapshot? || outcome.Failed?)
    case EvResume(o, _, _) => o in s.operations && s.operations[o].outcome.Some? && !s.operations[o].resumed
    case _ => true
  }

  function Step(s: State, ev: Event, lim: Limits): State
    requires Enabled(s, ev)
  {
    match ev
    case EvReserve => Reserve(s, lim)
    case EvRelease(slot) => Release(s, Reservation(slot))
    case EvConnect(client, open, slot, throws) => Connect(s, client, open, slot, throws, lim)
    case EvReadSettles(o, outcome) => ReadSettles(s, o, outcome)
    case EvDeadline(o) => DeadlineFires(s, o)
    case EvResume(o, valid, sends) => Resume(s, o, valid, sends)
    case EvBroadcast(gate, payload, valid, answers) => Broadcast(s, gate, payload, valid, answers, lim)
    case EvDisconnect(client) => Disconnect(s, client)
    case EvMarkClosing(client) => MarkClosing(s, Socket(client))
    case EvRetainClosing(client, open, slot) => RetainClosing(s, client, open, slot)
    case EvCloseAll => CloseAll(s)
  }

  /** `states` is a run of the machine: it starts in `INIT` and each event leads to the next state. */
  ghost predicate IsRun(states: seq<State>, events: seq<Event>, lim: Limits) {
    |states| == |events| + 1 && states[0] == INIT
    && forall i | 0 <= i < |events| :: Enabled(states[i], events[i]) && states[i + 1] == Step(states[i], events[i], lim)
  }
}
