/** The projection object itself: each method is one stretch of code between awaits. */
module DaemonProjection {
  import opened JsNumber
  import opened Wrappers
  import opened ProjectionSpec
  import opened ProjectionProof

  const DEFAULT_MAX_PENDING_EVENTS := 32
  const DEFAULT_MAX_PROJECTION_CLIENTS := 64

  /** A safe positive integer option is taken as given; anything else falls back to the default. */
  function OptionOr(option: Option<int>, default: nat): (r: nat)
    requires default > 0
    ensures r > 0 && (r != default ==> option == Some(r) && r <= MAX_SAFE_INTEGER)
    ensures option.Some? && 0 < option.value <= MAX_SAFE_INTEGER ==> r == option.value
  {
    if option.Some? && 0 < option.value <= MAX_SAFE_INTEGER then option.value else default
  }

  class DaemonProjection {
    var clients: map<Key, ClientState>
    var operations: map<nat, Operation>
    var inFlightSnapshots: int
    var sequence: nat
    var next: nat
    var built: seq<Envelope>
    const maxPendingEvents: nat
    const maxClients: nat

    ghost function View(): State
      reads this
    {
      State(clients, operations, inFlightSnapshots, sequence, next, built)
    }

    ghost function Lim(): Limits {
      Limits(maxPendingEvents, maxClients)
    }

    ghost predicate Valid()
      reads this
    {
      Inv(View(), Lim())
    }

    constructor (maxPending: Option<int>, maxAdmitted: Option<int>)
      ensures View() == INIT && Valid()
      ensures maxPendingEvents == OptionOr(maxPending, DEFAULT_MAX_PENDING_EVENTS)
      ensures maxClients == OptionOr(maxAdmitted, DEFAULT_MAX_PROJECTION_CLIENTS)
    {
      clients, operations, inFlightSnapshots, sequence, next, built := map[], map[], 0, 0, 0, [];
      maxPendingEvents := OptionOr(maxPending, DEFAULT_MAX_PENDING_EVENTS);
      maxClients := OptionOr(maxAdmitted, DEFAULT_MAX_PROJECTION_CLIENTS);
      new;
      InitOk(Lim());
    }

    method ReserveClient() returns (slot: Option<nat>)
      requires Valid()
      modifies this
      ensures View() == Reserve(old(View()), Lim()) && Valid()
      ensures slot == if MayReserve(old(View()), Lim()) then Some(old(next)) else None
    {
      ReserveOk(View(), Lim());
      if |clients| >= maxClients || inFlightSnapshots >= maxClients {
        return None;
      }
      clients := clients[Reservation(next) := ClientState(next, Handshaking, [], None, None, |built|, 0, [])];
      slot := Some(next);
      next := next + 1;
    }

    method ReleaseReservation(slot: nat)
      requires Valid()
      modifies this
      ensures View() == Release(old(View()), Reservation(slot)) && Valid()
    {
      RemoveOk(View(), Reservation(slot), Lim());
      if Reservation(slot) in clients && clients[Reservation(slot)].client.None? {
        clients := clients - {Reservation(slot)};
      }
    }

    /** Everything `connectClient` does before it awaits; `waiting` names the snapshot read it awaits. */
    method ConnectClient(client: nat, open: bool, reservation: Option<nat>, snapshotThrows: bool)
      returns (waiting: Option<nat>)
      requires Valid()
      modifies this
      ensures View() == Connect(old(View()), client, open, reservation, snapshotThrows, Lim()) && Valid()
      ensures waiting.Some? ==> Socket(client) in clients && clients[Socket(client)].operation == waiting
      ensures waiting.None? ==> operations == old(operations)
    {
      ConnectOk(View(), client, open, reservation, snapshotThrows, Lim());
      waiting := AdmitClient(client, open, reservation, snapshotThrows);
    }

    method AdmitClient(client: nat, open: bool, reservation: Option<nat>, snapshotThrows: bool)
      returns (waiting: Option<nat>)
      requires Valid()
      modifies this
      ensures View() == Connect(old(View()), client, open, reservation, snapshotThrows, Lim())
      ensures waiting.Some? ==> Socket(client) in clients && clients[Socket(client)].operation == waiting
      ensures waiting.None? ==> operations == old(operations)
    {
      waiting := None;
      if !open || Socket(client) in clients {
        if reservation.Some? { ReleaseReservation(reservation.value); }
        return;
      }
      if reservation.Some? {
        var k := Reservation(reservation.value);
        if k !in clients || clients[k].client.Some? {
          return;
        }
        clients := clients - {k};
      } else if |clients| >= maxClients || inFlightSnapshots >= maxClients {
        return;
      }
      waiting := StartHandshake(client, snapshotThrows);
    }

    /** The common tail of both admission paths. */
    method StartHandshake(client: nat, snapshotThrows: bool) returns (waiting: Option<nat>)
      modifies this
      ensures View() == Register(old(View()), client, snapshotThrows, Lim())
      ensures waiting.Some? ==> Socket(client) in clients && clients[Socket(client)].operation == waiting
      ensures waiting.None? ==> operations == old(operations)
    {
      var state := ClientState(next, Handshaking, [], Some(client), None, |built|, EnsureSequence(sequence), []);
      clients := clients[Socket(client) := state];
      next := next + 1;
      sequence := EnsureSequence(sequence);
      if inFlightSnapshots >= maxClients {
        CloseClient(Socket(client));
        return None;
      }
      waiting := BeginRead(client, state.registration, snapshotThrows);
    }

    /** Starts the snapshot read; one that throws at once has settled when the client starts to wait. */
    method BeginRead(client: nat, registration: nat, snapshotThrows: bool) returns (waiting: Option<nat>)
      requires Socket(client) in clients
      modifies this`clients, this`operations, this`inFlightSnapshots, this`next
      ensures var outcome := if snapshotThrows then Some(Failed) else None;
        View() == StartRead(old(View()), Socket(client),
                            Operation(registration, client, sequence, outcome, snapshotThrows, false))
      ensures waiting == Some(old(next)) && Socket(client) in clients && clients[Socket(client)].operation == waiting
    {
      waiting := Some(next);
      clients := clients[Socket(client) := clients[Socket(client)].(operation := waiting)];
      inFlightSnapshots := inFlightSnapshots + 1;
      operations := operations[next := Operation(registration, client, sequence, None, false, false)];
      if snapshotThrows {
        inFlightSnapshots := inFlightSnapshots - 1;
        operations := operations[next := operations[next].(outcome := Some(Failed), settled := true)];
      }
      next := next + 1;
    }

    method SnapshotSettles(o: nat, outcome: WaitOutcome)
      requires Valid() && Enabled(View(), EvReadSettles(o, outcome))
      modifies this
      ensures View() == ReadSettles(old(View()), o, outcome) && Valid()
    {
      ReadSettlesOk(View(), o, outcome, Lim());
      inFlightSnapshots := inFlightSnapshots - 1;
      operations := operations[o := operations[o].(settled := true)];
      Settle(o, outcome);
    }

    /** The timer of the handshake fires; it cancels the wait but not the read. */
    method DeadlineExpires(o: nat)
      requires Valid()
      modifies this
      ensures View() == DeadlineFires(old(View()), o) && Valid()
    {
      SettleWaitOk(View(), o, TimedOut, Lim());
      Settle(o, TimedOut);
    }

    /** The first outcome a wait is told is the only one. */
    method Settle(o: nat, outcome: WaitOutcome)
      modifies this`operations
      ensures operations == SettleWait(old(operations), o, outcome)
    {
      if o in operations && operations[o].outcome.None? {
        operations := operations[o := operations[o].(outcome := Some(outcome))];
      }
    }

    /** Everything `connectClient` does after its await. */
    method ResumeConnect(o: nat, fieldsValid: bool, sends: nat -> SendResult) returns (connected: bool)
      requires Valid() && Enabled(View(), EvResume(o, fieldsValid, sends))
      modifies this
      ensures View() == Resume(old(View()), o, fieldsValid, sends) && Valid()
      ensures o in operations
      ensures connected ==> Socket(operations[o].client) in clients
                            && clients[Socket(operations[o].client)].registration == operations[o].registration
                            && clients[Socket(operations[o].client)].phase.Ready?
    {
      ResumeOk(View(), o, fieldsValid, sends, Lim());
      connected := FinishHandshake(o, fieldsValid, sends);
    }

    method FinishHandshake(o: nat, fieldsValid: bool, sends: nat -> SendResult) returns (connected: bool)
      requires o in operations && operations[o].outcome.Some?
      modifies this`clients, this`operations
      ensures View() == Resume(old(View()), o, fieldsValid, sends)
      ensures o in operations && operations[o].registration == old(operations[o].registration)
              && operations[o].client == old(operations[o].client)
      ensures connected ==> Socket(operations[o].client) in clients
                            && clients[Socket(operations[o].client)].registration == operations[o].registration
                            && clients[Socket(operations[o].client)].phase.Ready?
    {
      connected := false;
      var op := operations[o];
      var k := Socket(op.client);
      operations := operations[o := op.(resumed := true)];
      if !op.outcome.value.GotSnapshot? {
        CloseClient(k);
        return;
      }
      if k !in clients || clients[k].registration != op.registration || clients[k].phase.Closing? {
        return;
      }
      var snapshot := CreateEnvelope(Snapshot(op.cursor, op.outcome.value.content), op.cursor, fieldsValid);
      if snapshot.None? {
        CloseClient(k);
        return;
      }
      connected := Greet(k, snapshot.value, sends);
    }

    /** Sends the snapshot, goes live, then drains what was buffered meanwhile. */
    method Greet(k: Key, snapshot: Envelope, sends: nat -> SendResult) returns (sent: bool)
      requires k in clients && !clients[k].phase.Closing?
      modifies this`clients, this`operations
      ensures View() == Replace(old(View()), k, Handshake(old(clients[k]), snapshot, sends))
      ensures k in clients && clients[k].registration == old(clients[k].registration)
      ensures sent ==> clients[k].phase.Ready?
    {
      sent := SendToClient(k, snapshot, sends(0));
      if !sent {
        return;
      }
      var pending := clients[k].pending;
      clients := clients[k := clients[k].(phase := Ready, pending := [])];
      sent := DrainPending(k, pending, sends);
    }

    method DrainPending(k: Key, pending: seq<Envelope>, sends: nat -> SendResult) returns (sent: bool)
      requires k in clients && clients[k].phase.Ready?
      modifies this`clients, this`operations
      ensures View() == Replace(old(View()), k, Drain(old(clients[k]), pending, sends, 1))
      ensures k in clients && clients[k].registration == old(clients[k].registration)
      ensures sent ==> clients[k].phase.Ready?
    {
      sent := true;
      ghost var live := clients[k];
      var i := 0;
      while i < |pending|
        invariant 0 <= i <= |pending|
        invariant k in clients && clients[k].phase.Ready? && clients[k].registration == live.registration
        invariant View() == old(View()).(clients := old(clients)[k := clients[k]])
        invariant sent && Drain(live, pending, sends, 1) == Drain(clients[k], pending[i..], sends, i + 1)
      {
        assert pending[i..][1..] == pending[i + 1..];
        sent := SendToClient(k, pending[i], sends(i + 1));
        if !sent {
          assert Drain(clients[k], pending[i + 1..], sends, i + 2) == clients[k];
          return;
        }
        i := i + 1;
      }
    }

    method SendToClient(k: Key, e: Envelope, result: SendResult) returns (sent: bool)
      requires k in clients && !clients[k].phase.Closing?
      modifies this`clients, this`operations
      ensures View() == Replace(old(View()), k, Deliver(old(clients[k]), e, result))
      ensures sent <==> result.Sent?
    {
      if result.NotWritable? {
        CloseClient(k);
        return false;
      }
      if result.Sent? || result.reached {
        clients := clients[k := clients[k].(log := clients[k].log + [e])];
      }
      if result.SendFailed? {
        CloseClient(k);
        return false;
      }
      return true;
    }

    method MarkClientClosing(client: nat)
      requires Valid()
      modifies this
      ensures View() == MarkClosing(old(View()), Socket(client)) && Valid()
    {
      MarkClosingOk(View(), Socket(client), Lim());
      Mark(Socket(client));
    }

    method Mark(k: Key)
      modifies this`clients, this`operations
      ensures View() == MarkClosing(old(View()), k)
    {
      if k !in clients {
        return;
      }
      clients := clients[k := clients[k].(phase := Closing, pending := [])];
      if clients[k].operation.Some? {
        Settle(clients[k].operation.value, Cancelled);
      }
    }

    method CloseClient(k: Key)
      modifies this`clients, this`operations
      ensures View() == Close(old(View()), k)
    {
      if k !in clients || clients[k].phase.Closing? {
        return;
      }
      Mark(k);
    }

    method DisconnectClient(client: nat)
      requires Valid()
      modifies this
      ensures View() == Disconnect(old(View()), client) && Valid()
    {
      DisconnectOk(View(), client, Lim());
      Forget(Socket(client));
    }

    method Forget(k: Key)
      modifies this`clients, this`operations
      ensures View() == if k !in old(clients) then old(View()) else
                Remove(old(View()), k).(operations := CancelWait(old(operations), old(clients)[k].operation))
    {
      if k in clients {
        if clients[k].operation.Some? {
          Settle(clients[k].operation.value, Cancelled);
        }
        clients := clients - {k};
      }
    }

    method RetainClosingClient(client: nat, open: bool, slot: nat) returns (retained: bool)
      requires Valid()
      modifies this
      ensures View() == RetainClosing(old(View()), client, open, slot) && Valid()
      ensures retained ==> Socket(client) in clients && clients[Socket(client)].phase.Closing?
    {
      RetainClosingOk(View(), client, open, slot, Lim());
      var k := Reservation(slot);
      if !open || Socket(client) in clients || k !in clients || clients[k].client.Some? {
        return false;
      }
      var state := clients[k];
      clients := clients - {k};
      clients := clients[Socket(client) := state.(phase := Closing, pending := [], client := Some(client))];
      return true;
    }

    method Broadcast(gate: Gate, payload: string, fieldsValid: bool, sends: Key -> SendResult)
      requires Valid()
      modifies this
      ensures View() == ProjectionSpec.Broadcast(old(View()), gate, payload, fieldsValid, sends, Lim()) && Valid()
    {
      BroadcastOk(View(), gate, payload, fieldsValid, sends, Lim());
      if !gate.Accepted? {
        return;
      }
      var eligible := set k | k in clients && Eligible(clients[k]);
      if eligible == {} {
        return;
      }
      sequence := NextSequence(sequence);
      var envelope := CreateEnvelope(Fact(payload), sequence, fieldsValid);
      if envelope.None? {
        return;
      }
      SendToAll(eligible, envelope.value, sends);
    }

    /** One envelope to every eligible client, in no particular order. */
    method SendToAll(eligible: set<Key>, e: Envelope, sends: Key -> SendResult)
      requires eligible <= clients.Keys && forall k | k in eligible :: Eligible(clients[k])
      modifies this`clients, this`operations, this`built
      ensures View() == Publish(old(View()), eligible, e, sends, maxPendingEvents)
    {
      built := built + [e];
      ghost var done: set<Key> := {};
      var todo := eligible;
      while todo != {}
        invariant todo <= eligible && done == eligible - todo
        invariant View().(clients := map[], operations := map[])
                  == old(View()).(clients := map[], operations := map[], built := built)
        invariant built == old(built) + [e]
        invariant clients == Offered(old(clients), done, e, sends, maxPendingEvents)
        invariant operations == CancelAll(old(operations), ClosingWaits(clients, done))
        decreases todo
      {
        var k :| k in todo;
        OfferOne(k, e, sends(k));
        ghost var before := done;
        todo, done := todo - {k}, done + {k};
        assert clients == Offered(old(clients), done, e, sends, maxPendingEvents);
        CancelOneMore(old(operations), Offered(old(clients), before, e, sends, maxPendingEvents), clients, before, k);
      }
      assert done == eligible;
    }

    method OfferOne(k: Key, e: Envelope, result: SendResult)
      requires k in clients && Eligible(clients[k])
      modifies this`clients, this`operations
      ensures View() == Replace(old(View()), k, Offer(old(clients[k]), e, result, maxPendingEvents))
    {
      if clients[k].phase.Handshaking? {
        if |clients[k].pending| >= maxPendingEvents {
          CloseClient(k);
        } else {
          clients := clients[k := clients[k].(pending := clients[k].pending + [e])];
        }
      } else {
        var _ := SendToClient(k, e, result);
      }
    }

    method CloseClients()
      requires Valid()
      modifies this
      ensures View() == CloseAll(old(View())) && Valid()
    {
      CloseAllOk(View(), Lim());
      CloseEverything();
    }

    method CloseOrDrop(k: Key)
      requires k in clients
      modifies this`clients, this`operations
      ensures View() == if old(clients)[k].client.Some? then Close(old(View()), k) else Remove(old(View()), k)
    {
      if clients[k].client.Some? {
        CloseClient(k);
      } else {
        clients := clients - {k};
      }
    }

    method CloseEverything()
      modifies this`clients, this`operations
      ensures View() == CloseAll(old(View()))
    {
      ghost var done: set<Key> := {};
      ghost var live := EligibleKeys(View());
      var todo := clients.Keys;
      while todo != {}
        invariant todo <= old(clients).Keys && done == old(clients).Keys - todo
        invariant clients == PartlyClosed(old(clients), done)
        invariant operations == CancelAll(old(operations), ClosingWaits(clients, done * live))
        decreases todo
      {
        var k :| k in todo;
        ghost var before := View();
        CloseOrDrop(k);
        OneMoreClosed(old(View()), before, View(), done, k);
        todo, done := todo - {k}, done + {k};
      }
      assert done * live == live;
      assert clients == Survivors(old(clients));
    }
  }

  /** Closing or dropping one client more of those that were there at the start. */
  lemma OneMoreClosed(start: State, before: State, after: State, done: set<Key>, k: Key)
    requires k in start.clients && k !in done && done <= start.clients.Keys
    requires before.clients == PartlyClosed(start.clients, done) && k in before.clients
    requires before.operations == CancelAll(start.operations, ClosingWaits(before.clients, done * EligibleKeys(start)))
    requires after == if before.clients[k].client.Some? then Close(before, k) else Remove(before, k)
    ensures after.clients == PartlyClosed(start.clients, done + {k})
    ensures after.operations
         == CancelAll(start.operations, ClosingWaits(after.clients, (done + {k}) * EligibleKeys(start)))
  {
    var live := EligibleKeys(start);
    OneMoreGone(start, before, after, done, k);
    if k in live {
      CancelOneMore(start.operations, before.clients, after.clients, done * live, k);
      assert (done + {k}) * live == done * live + {k};
    } else {
      assert (done + {k}) * live == done * live;
      assert ClosingWaits(after.clients, done * live) == ClosingWaits(before.clients, done * live);
    }
  }

  lemma OneMoreGone(start: State, before: State, after: State, done: set<Key>, k: Key)
    requires k in start.clients && k !in done && done <= start.clients.Keys
    requires before.clients == PartlyClosed(start.clients, done) && k in before.clients
    requires after == if before.clients[k].client.Some? then Close(before, k) else Remove(before, k)
    ensures before.clients[k] == start.clients[k] && after.clients == PartlyClosed(start.clients, done + {k})
  {
  }

  function PartlyClosed(clients: map<Key, ClientState>, done: set<Key>): map<Key, ClientState> {
    map k | k in clients && (k in done ==> clients[k].client.Some?) ::
      if k in done && Eligible(clients[k]) then Shut(clients[k]) else clients[k]
  }

  /** Cancelling one more client's wait after the others is cancelling all of them. */
  lemma CancelOneMore(operations: map<nat, Operation>, before: map<Key, ClientState>, after: map<Key, ClientState>,
                      done: set<Key>, k: Key)
    requires k in after && k !in done && done <= after.Keys && after.Keys == before.Keys
    requires forall j | j in done :: after[j] == before[j]
    ensures (if after[k].phase.Closing?
             then CancelWait(CancelAll(operations, ClosingWaits(before, done)), after[k].operation)
             else CancelAll(operations, ClosingWaits(before, done)))
            == CancelAll(operations, ClosingWaits(after, done + {k}))
  {
    var w0, w1 := ClosingWaits(before, done), ClosingWaits(after, done + {k});
    assert w1 == if after[k].phase.Closing? && after[k].operation.Some? then w0 + {after[k].operation.value} else w0;
  }
}
