/** The coordinator object: each handler leaves the state its transition in ClientSync names. */
module SyncCoordinator {
  import opened SyncEvents
  import opened StateStore
  import opened LocalStore
  import CS = ClientSync

  class MiniImSyncCoordinator {
    const store: MiniImStateStore
    var running: bool
    var caughtUp: bool
    var requestId: Id
    var requestCursor: nat
    var confirmationId: Id
    var confirmationCursor: nat
    /** Requests handed to the sender: sync requests and confirmations by id and cursor. */
    var sentRequests: seq<(Id, nat)>
    var sentConfirmations: seq<(Id, nat)>

    ghost predicate Valid()
      reads this, store
    {
      store.Valid() && (running || requestId == "")
    }

    ghost function State(): CS.Client
      reads this, store
    {
      CS.Client(store.Contents(), store.confirmedCursor, store.pendingConfirmation,
                running, caughtUp, requestId, requestCursor, confirmationId, confirmationCursor)
    }

    constructor (store: MiniImStateStore)
      requires store.Valid()
      ensures Valid() && this.store == store && !running && !caughtUp && requestId == "" && confirmationId == ""
      ensures sentRequests == [] && sentConfirmations == []
    {
      this.store := store;
      running, caughtUp, requestId, requestCursor := false, false, "", 0;
      confirmationId, confirmationCursor := "", 0;
      sentRequests, sentConfirmations := [], [];
    }

    method Stop()
      requires Valid()
      modifies this
      ensures Valid() && State() == CS.Stop(old(State()))
      ensures sentRequests == old(sentRequests) && sentConfirmations == old(sentConfirmations)
    {
      running, caughtUp := false, false;
      requestId := "";
      confirmationId, confirmationCursor := "", 0;
    }

    method RequestNext(freshId: Id)
      requires Valid() && freshId != ""
      modifies this`caughtUp, this`requestId, this`requestCursor, this`sentRequests
      ensures Valid() && State() == CS.RequestNext(old(State()), freshId)
      ensures sentRequests == old(sentRequests) + if old(running && requestId == "") then [(requestId, requestCursor)] else []
    {
      if !running || requestId != "" { return; }
      caughtUp := false;
      requestCursor := store.cursor;
      requestId := freshId;
      CursorUnique(store.seen, store.cursor, CS.CursorOf(store.seen));
      sentRequests := sentRequests + [(requestId, requestCursor)];
    }

    method Start(freshId: Id)
      requires Valid() && freshId != ""
      modifies this
      ensures Valid() && State() == CS.Start(old(State()), freshId)
    {
      Stop();
      running := true;
      RequestNext(freshId);
    }

    /** The batch is stored, or the coordinator stops with the store as it was. */
    method Apply(events: seq<Event>) returns (ok: bool)
      requires Valid() && running
      modifies this, store
      ensures Valid()
      ensures ok <==> AcceptAll(old(store.Contents()), events).Some?
      ensures State() == if ok then old(State()).(store := AcceptAll(old(store.Contents()), events).value)
                         else CS.Stop(old(State()))
      ensures sentRequests == old(sentRequests) && sentConfirmations == old(sentConfirmations)
    {
      var applied;
      ok, applied := store.Apply(events);
      if !ok {
        Stop();
        return;
      }
      var touched := set e | e in applied && (e.body.Message? || e.body.Receipt? || e.body.Terminal?);
      if touched != {} {
        var total := store.UnreadTotal();
      }
    }

    method HandleResponse(packet: CS.Packet, freshId: Id)
      requires Valid() && freshId != ""
      modifies this, store
      ensures Valid() && State() == CS.Receive(old(State()), packet, freshId)
    {
      if !running { return; }
      var requested := requestId != "" && packet.requestId == requestId;
      var ok := Apply(packet.events);
      if !ok { return; }
      CursorUnique(store.seen, store.cursor, CS.CursorOf(store.seen));
      var gap := store.HasGap();
      if !requested {
        if gap { RequestNext(freshId); }
        return;
      }
      var more := packet.hasMore || gap || packet.newCursor > store.cursor;
      if more && store.cursor <= requestCursor { return; }
      requestId := "";
      if more { RequestNext(freshId); } else { caughtUp := true; }
    }

    method PumpConfirmation(freshId: Id)
      requires Valid() && freshId != ""
      modifies this, store
      ensures Valid() && State() == CS.PumpConfirmation(old(State()), freshId)
    {
      if !running { return; }
      CursorUnique(store.seen, store.cursor, CS.CursorOf(store.seen));
      if confirmationId == "" {
        if store.pendingConfirmation == None && store.cursor <= store.confirmedCursor { return; }
        if store.pendingConfirmation == None {
          var saved := store.SaveConfirmation(freshId, store.cursor);
        }
        confirmationId := store.pendingConfirmation.value.requestId;
        confirmationCursor := store.pendingConfirmation.value.cursor;
      }
      sentConfirmations := sentConfirmations + [(confirmationId, confirmationCursor)];
    }

    method HandleConfirmationResult(ack: CS.Ack) returns (handled: bool)
      requires Valid()
      modifies this, store
      ensures Valid() && State() == CS.HandleAck(old(State()), ack)
      ensures handled <==> old(running && confirmationId != "" && ack.requestId == confirmationId)
    {
      if !running || confirmationId == "" || ack.requestId != confirmationId { return false; }
      if ack.success {
        if ack.entity != confirmationCursor {
          Stop();
          return true;
        }
        store.CompleteConfirmation(ack.requestId);
        confirmationId := "";
      } else if !CS.Retryable(ack.code) {
        Stop();
      }
      return true;
    }
  }
}
