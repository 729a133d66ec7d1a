/** The server, every device of every user, and a network that may lose, duplicate, delay and
    reorder packets: the confirmation chain, readiness and delivery, over all runs. */
module SyncSystem {
  import opened SyncEvents
  import opened StateStore
  import opened Convergence
  import CS = ClientSync
  import opened ServerState
  import opened ServerStreams
  import opened ServerInvariants
  import opened ServerMessages
  import opened ServerBurn
  import opened ServerConfirm
  import opened ServerProgress
  import opened SyncPaging
  import opened Historic
  import SR = ServerRun

  /** One device: its client, the events it has taken, and everything ever put on its network. */
  datatype Endpoint = Endpoint(client: CS.Client, taken: set<Event>, asked: set<(Id, nat)>, packets: set<CS.Packet>,
                               confirms: set<(Id, nat)>, recorded: map<Id, (nat, CS.Ack)>, acks: set<CS.Ack>)

  const NEW_END: Endpoint := Endpoint(CS.NEW_CLIENT, {}, {}, {}, {}, map[], {})

  /** Keyed by (user, device). */
  type Ends = map<(Id, Id), Endpoint>

  datatype Sys = Sys(db: Db, ends: Ends)

  datatype Step =
    | Server(op: SR.Op)
    | Install(d: (Id, Id))
    | Answer(d: (Id, Id), id: Id, after: nat)
    | Push(d: (Id, Id), i: nat)
    | Begin(d: (Id, Id), freshId: Id)
    | Halt(d: (Id, Id))
    | Arrive(d: (Id, Id), packet: CS.Packet, freshId: Id)
    | Offer(d: (Id, Id), freshId: Id)
    | Execute(d: (Id, Id), id: Id, cursor: nat, now: int, listed: seq<Id>)
    | Acked(d: (Id, Id), ack: CS.Ack)

  predicate FreshRequest(end: Endpoint, id: Id) { id != "" && forall x :: x in end.asked ==> x.0 != id }

  ghost predicate Can(names: Names, sys: Sys, step: Step) {
    match step
    case Server(op) => SR.Enabled(sys.db, op) && !op.Confirm? && Room(names, SR.Next(sys.db, op).streams)
    case Install(d) => d !in sys.ends
    case Answer(d, id, after) => d in sys.ends && (id, after) in sys.ends[d].asked
    case Push(d, i) => d in sys.ends && i < |StreamOf(sys.db.streams, d.0)|
    case Begin(d, freshId) => d in sys.ends && FreshRequest(sys.ends[d], freshId)
    case Halt(d) => d in sys.ends
    case Arrive(d, packet, freshId) =>
      d in sys.ends && packet in sys.ends[d].packets && FreshRequest(sys.ends[d], freshId)
    case Offer(d, freshId) => d in sys.ends && freshId != ""
    case Execute(d, id, cursor, now, listed) =>
      && d in sys.ends && (id, cursor) in sys.ends[d].confirms
      && ListsDelivered(sys.db, d.0, d.1, cursor, listed)
      && Room(names, ConfirmApplied(sys.db, d.0, d.1, cursor, now, listed).0.streams)
    case Acked(d, ack) => d in sys.ends && ack in sys.ends[d].acks
  }

  function PageFor(rows: seq<Event>, id: Id, after: nat): CS.Packet {
    var page := Page(rows, after, CS.PAGE_SIZE);
    CS.Packet(id, after, page.events, page.hasMore, page.newCursor, |rows|)
  }

  /** The client after a transition, with any request it now has outstanding on the network. */
  ghost function Moved(end: Endpoint, client: CS.Client, taken: set<Event>): Endpoint {
    end.(client := client, taken := taken,
         asked := if client.requestId != "" then end.asked + {(client.requestId, client.requestCursor)} else end.asked,
         confirms := if client.confirmationId != "" then end.confirms + {(client.confirmationId, client.confirmationCursor)}
                     else end.confirms)
  }

  ghost function TakenBy(end: Endpoint, packet: CS.Packet): set<Event> {
    if end.client.running && AcceptAll(end.client.store, packet.events).Some? then TakeAll(end.taken, packet.events)
    else end.taken
  }

  /** ControlWriteRepo.execute around confirm_applied: a recorded request is only answered again. */
  function ExecuteConfirm(db: Db, end: Endpoint, d: (Id, Id), id: Id, cursor: nat, now: int, listed: seq<Id>): (Db, Endpoint) {
    if id in end.recorded then
      var ack := if end.recorded[id].0 == cursor then end.recorded[id].1 else CS.Ack(id, false, 409, 0);
      (db, end.(acks := end.acks + {ack}))
    else
      var r := ConfirmApplied(db, d.0, d.1, cursor, now, listed);
      var ack := if r.1.None? then CS.Ack(id, false, 400, 0) else CS.Ack(id, true, 0, cursor);
      (r.0, end.(recorded := end.recorded[id := (cursor, ack)], acks := end.acks + {ack}))
  }

  ghost function Do(names: Names, sys: Sys, step: Step): Sys
    requires Can(names, sys, step)
  {
    match step
    case Server(op) => sys.(db := SR.Next(sys.db, op))
    case Install(d) => sys.(ends := sys.ends[d := NEW_END])
    case Answer(d, id, after) =>
      var e := sys.ends[d];
      sys.(ends := sys.ends[d := e.(packets := e.packets + {PageFor(Rows(names, sys.db.streams, d.0), id, after)})])
    case Push(d, i) =>
      var e := sys.ends[d];
      var row := Rows(names, sys.db.streams, d.0)[i];
      sys.(ends := sys.ends[d := e.(packets := e.packets + {CS.Packet("", 0, [row], false, i + 1, 0)})])
    case Begin(d, freshId) => var e := sys.ends[d]; sys.(ends := sys.ends[d := Moved(e, CS.Start(e.client, freshId), e.taken)])
    case Halt(d) => var e := sys.ends[d]; sys.(ends := sys.ends[d := Moved(e, CS.Stop(e.client), e.taken)])
    case Arrive(d, packet, freshId) =>
      var e := sys.ends[d];
      sys.(ends := sys.ends[d := Moved(e, CS.Receive(e.client, packet, freshId), TakenBy(e, packet))])
    case Offer(d, freshId) =>
      var e := sys.ends[d];
      sys.(ends := sys.ends[d := Moved(e, CS.PumpConfirmation(e.client, freshId), e.taken)])
    case Execute(d, id, cursor, now, listed) =>
      var r := ExecuteConfirm(sys.db, sys.ends[d], d, id, cursor, now, listed);
      Sys(r.0, sys.ends[d := r.1])
    case Acked(d, ack) => var e := sys.ends[d]; sys.(ends := sys.ends[d := Moved(e, CS.HandleAck(e.client, ack), e.taken)])
  }

  // ---------- what holds of one device ----------

  /** The store is the projection of events its stream once served, one per position. */
  ghost predicate StoreOk(names: Names, s: seq<Body>, u: Id, store: Store, taken: set<Event>) {
    && AllServed(names, s, u, taken) && Reflects(taken, store)
    && forall e, f :: e in taken && f in taken && e.position == f.position ==> e == f
  }

  ghost predicate PacketOk(names: Names, s: seq<Body>, u: Id, asked: set<(Id, nat)>, p: CS.Packet) {
    && (forall e :: e in p.events ==> WasServed(names, s, u, e))
    && (p.requestId != "" ==>
          && (p.requestId, p.after) in asked && p.after <= p.newCursor <= p.had <= |s|
          && (if p.hasMore then p.after < p.newCursor else p.newCursor == p.had))
  }

  ghost predicate PacketsOk(names: Names, s: seq<Body>, u: Id, asked: set<(Id, nat)>, packets: set<CS.Packet>) {
    forall p :: p in packets ==> PacketOk(names, s, u, asked, p)
  }

  /** Request ids are never reused, and no request names a cursor beyond what the client holds. */
  ghost predicate AskedOk(client: CS.Client, asked: set<(Id, nat)>) {
    && (forall x :: x in asked ==> x.0 != "" && x.1 <= CS.CursorOf(client.store.seen))
    && (forall x, y :: x in asked && y in asked && x.0 == y.0 ==> x == y)
    && (client.requestId != "" ==> (client.requestId, client.requestCursor) in asked)
  }

  /** client confirmed <= server applied <= client cursor, and every promise in flight stays inside. */
  ghost predicate ChainOk(client: CS.Client, confirms: set<(Id, nat)>, recorded: map<Id, (nat, CS.Ack)>, acks: set<CS.Ack>,
                          applied: nat)
  {
    && client.confirmed <= applied <= CS.CursorOf(client.store.seen)
    && (client.pending.Some? ==> client.confirmed < client.pending.value.cursor <= CS.CursorOf(client.store.seen)
                                 && client.pending.value.requestId != "")
    && (client.confirmationId != "" ==> client.pending == Some(Confirmation(client.confirmationId, client.confirmationCursor)))
    && (forall x :: x in confirms ==> x.1 <= CS.CursorOf(client.store.seen))
    && (forall id :: id in recorded && recorded[id].1.success ==> recorded[id].1.entity <= applied)
    && (forall a :: a in acks && a.success ==> a.entity <= applied)
  }

  ghost predicate EndOk(names: Names, s: seq<Body>, u: Id, applied: nat, end: Endpoint) {
    && StoreOk(names, s, u, end.client.store, end.taken)
    && PacketsOk(names, s, u, end.asked, end.packets)
    && AskedOk(end.client, end.asked)
    && ChainOk(end.client, end.confirms, end.recorded, end.acks, applied)
  }

  /** The message stands in the stream at a position the store's cursor covers, and the store has it. */
  ghost predicate HeldIn(s: seq<Body>, store: Store, m: Id) {
    && MessageKey(m) in store.objects
    && exists i :: 0 <= i < CS.CursorOf(store.seen) && i < |s| && s[i].Message? && s[i].id == m
  }

  /** Some device of the user durably holds the message in its contiguous prefix. */
  ghost predicate HeldBy(streams: Streams, ends: Ends, m: Id, u: Id) {
    exists d :: d in ends && d.0 == u && HeldIn(StreamOf(streams, u), ends[d].client.store, m)
  }

  ghost predicate DeliveredHeld(deliveries: Deliveries, streams: Streams, ends: Ends) {
    forall k :: k in deliveries && deliveries[k].status == Delivered ==> HeldBy(streams, ends, k.0, k.1)
  }

  ghost predicate EndsOk(names: Names, db: Db, ends: Ends) {
    forall d :: d in ends ==> EndOk(names, StreamOf(db.streams, d.0), d.0, Applied(db, d.0, d.1), ends[d])
  }

  /** Devices are installed before they confirm anything. */
  ghost predicate AppliedInstalled(applied: map<(Id, Id), nat>, ends: Ends) {
    forall d :: d in applied ==> d in ends
  }

  ghost predicate SysInv(names: Names, sys: Sys) {
    && Inv(sys.db) && NamesOk(names) && Room(names, sys.db.streams)
    && EndsOk(names, sys.db, sys.ends) && AppliedInstalled(sys.db.applied, sys.ends)
    && DeliveredHeld(sys.db.deliveries, sys.db.streams, sys.ends)
  }

  // ---------- server progress leaves every device as it was ----------

  lemma StoreLater(names: Names, s: seq<Body>, t: seq<Body>, u: Id, store: Store, taken: set<Event>)
    requires StoreOk(names, s, u, store, taken) && StreamAges(s, t)
    ensures StoreOk(names, t, u, store, taken)
  {
    forall e | e in taken ensures WasServed(names, t, u, e) { ServedLater(names, s, t, u, e); }
  }

  lemma PacketsLater(names: Names, s: seq<Body>, t: seq<Body>, u: Id, asked: set<(Id, nat)>, packets: set<CS.Packet>)
    requires PacketsOk(names, s, u, asked, packets) && StreamAges(s, t)
    ensures PacketsOk(names, t, u, asked, packets)
  {
    forall p, e | p in packets && e in p.events ensures WasServed(names, t, u, e) {
      assert PacketOk(names, s, u, asked, p);
      ServedLater(names, s, t, u, e);
    }
    forall p | p in packets ensures PacketOk(names, t, u, asked, p) { assert PacketOk(names, s, u, asked, p); }
  }

  lemma EndLater(names: Names, s: seq<Body>, t: seq<Body>, u: Id, applied: nat, end: Endpoint)
    requires EndOk(names, s, u, applied, end) && StreamAges(s, t)
    ensures EndOk(names, t, u, applied, end)
  {
    StoreLater(names, s, t, u, end.client.store, end.taken);
    PacketsLater(names, s, t, u, end.asked, end.packets);
  }

  lemma EndsLater(names: Names, a: Db, b: Db, ends: Ends)
    requires EndsOk(names, a, ends) && StreamsAge(a.streams, b.streams) && b.applied == a.applied
    ensures EndsOk(names, b, ends)
  {
    forall d | d in ends ensures EndOk(names, StreamOf(b.streams, d.0), d.0, Applied(b, d.0, d.1), ends[d]) {
      assert StreamAges(StreamOf(a.streams, d.0), StreamOf(b.streams, d.0));
      EndLater(names, StreamOf(a.streams, d.0), StreamOf(b.streams, d.0), d.0, Applied(a, d.0, d.1), ends[d]);
    }
  }

  // ---------- no other operation touches a cursor or delivers a row ----------

  ghost predicate NoNewDelivered(a: Deliveries, b: Deliveries) {
    forall k :: k in b && b[k].status == Delivered ==> k in a && a[k].status == Delivered
  }

  lemma {:induction false} BurnQuiet(db: Db, rows: seq<(Id, Id)>, now: int)
    ensures BurnRows(db, rows, now).applied == db.applied && NoNewDelivered(db.deliveries, BurnRows(db, rows, now).deliveries)
    decreases rows
  {
    if rows != [] { BurnQuiet(BurnStep(db, rows[0], now), rows[1..], now); }
  }

  lemma {:induction false} PurgeQuiet(db: Db, rows: seq<Id>)
    ensures PurgeSweep(db, rows).applied == db.applied && PurgeSweep(db, rows).deliveries == db.deliveries
    decreases rows
  {
    if rows != [] { PurgeQuiet(PurgeOne(db, rows[0]), rows[1..]); }
  }

  lemma ReceiptQuiet(db: Db, user: Id, conv: Id, requested: nat, now: int, burning: bool, changed: seq<Id>)
    ensures var r := ApplyReceipt(db, user, conv, requested, now, burning, changed).0;
            r.applied == db.applied && NoNewDelivered(db.deliveries, r.deliveries)
  {
    ReceiptOutcome(db, user, conv, requested, now, burning, changed);
  }

  ghost predicate Quiet(a: Db, b: Db) { b.applied == a.applied && NoNewDelivered(a.deliveries, b.deliveries) }

  lemma SendQuiet(db: Db, m: Id, draft: Msg, clientId: Id, now: int)
    ensures Quiet(db, AppendMessage(db, m, draft, clientId, now))
  {
    var rows := AppendMessage(db, m, draft, clientId, now).deliveries;
    AppendDeliveries(db, m, draft, clientId, now);
    forall k | k in rows && rows[k].status == Delivered ensures k in db.deliveries && db.deliveries[k].status == Delivered {
      PostRowsAt(db.deliveries, m, UserSet(RosterOf(db, draft.conv)), Numbered(db, draft, now), now, k);
    }
  }

  lemma FileQuiet(db: Db, file: Id, conv: Id, users: set<Id>, transferred: nat, completed: bool, now: int)
    ensures Quiet(db, UpdateFile(db, file, conv, users, transferred, completed, now))
  {
  }

  lemma RecallQuiet(db: Db, user: Id, conv: Id, m: Id, now: int)
    ensures Quiet(db, ApplyRecall(db, user, conv, m, now).0)
  {
    RecallOutcome(db, user, conv, m, now);
  }

  lemma MembershipQuiet(db: Db, op: SR.Op)
    requires Inv(db) && SR.Enabled(db, op)
    requires SR.ChangesMembership(op)
    ensures Quiet(db, SR.Next(db, op))
  {
    SR.MembershipStep(db, op);
  }

  lemma ServerQuiet(db: Db, op: SR.Op)
    requires Inv(db) && SR.Enabled(db, op) && !op.Confirm?
    ensures Quiet(db, SR.Next(db, op))
  {
    if SR.ChangesMembership(op) { MembershipQuiet(db, op); }
    else { TableQuiet(db, op); }
  }

  lemma TableQuiet(db: Db, op: SR.Op)
    requires op.Send? || op.ReadUpTo? || op.Recall? || op.Burn? || op.Purge? || op.FileUpdate?
    ensures Quiet(db, SR.Next(db, op))
  {
    match op
    case Send(m, draft, clientId, now) => SendQuiet(db, m, draft, clientId, now);
    case FileUpdate(file, conv, users, transferred, completed, now) => FileQuiet(db, file, conv, users, transferred, completed, now);
    case ReadUpTo(user, conv, requested, now, burning, changed) => ReceiptQuiet(db, user, conv, requested, now, burning, changed);
    case Recall(user, conv, m, now) => RecallQuiet(db, user, conv, m, now);
    case Burn(rows, now) => BurnQuiet(db, rows, now);
    case Purge(rows) => PurgeQuiet(db, rows);
  }

  lemma ServerStep(names: Names, sys: Sys, op: SR.Op)
    requires SysInv(names, sys) && Can(names, sys, Server(op))
    ensures SysInv(names, Do(names, sys, Server(op)))
  {
    var next := SR.Next(sys.db, op);
    SR.StepKeeps(sys.db, op);
    SR.StepProgress(sys.db, op);
    ServerQuiet(sys.db, op);
    EndsLater(names, sys.db, next, sys.ends);
    HeldStays(sys.db.deliveries, next.deliveries, sys.db.streams, next.streams, sys.ends, sys.ends);
  }

  // ---------- client transitions ----------

  /** What a transition must establish about the client it leaves. */
  ghost predicate ClientOk(end: Endpoint, client: CS.Client, applied: nat) {
    && end.client.store.seen.Keys <= client.store.seen.Keys
    && client.confirmed <= applied
    && (client.pending.Some? ==> client.confirmed < client.pending.value.cursor <= CS.CursorOf(client.store.seen)
                                 && client.pending.value.requestId != "")
    && (client.confirmationId != "" ==> client.pending == Some(Confirmation(client.confirmationId, client.confirmationCursor)))
    && (client.requestId == "" || (client.requestId, client.requestCursor) in end.asked
        || (FreshRequest(end, client.requestId) && client.requestCursor <= CS.CursorOf(client.store.seen)))
  }

  lemma MovedOk(names: Names, s: seq<Body>, u: Id, applied: nat, end: Endpoint, client: CS.Client, taken: set<Event>)
    requires EndOk(names, s, u, applied, end) && StoreOk(names, s, u, client.store, taken) && ClientOk(end, client, applied)
    ensures EndOk(names, s, u, applied, Moved(end, client, taken))
  {
    var after := Moved(end, client, taken);
    CS.CursorGrows(end.client.store.seen, client.store.seen);
    forall p | p in end.packets ensures PacketOk(names, s, u, after.asked, p) { assert PacketOk(names, s, u, end.asked, p); }
  }

  lemma RequestOk(end: Endpoint, client: CS.Client, applied: nat, freshId: Id)
    requires ClientOk(end, client, applied) && FreshRequest(end, freshId)
    ensures ClientOk(end, CS.RequestNext(client, freshId), applied)
  {
  }

  lemma StopOk(end: Endpoint, client: CS.Client, applied: nat)
    requires ClientOk(end, client, applied)
    ensures ClientOk(end, CS.Stop(client), applied)
  {
  }

  lemma SameClient(names: Names, s: seq<Body>, u: Id, applied: nat, end: Endpoint)
    requires EndOk(names, s, u, applied, end)
    ensures ClientOk(end, end.client, applied)
  {
  }

  lemma SettleOk(end: Endpoint, client: CS.Client, packet: CS.Packet, requested: bool, freshId: Id, applied: nat)
    requires ClientOk(end, client, applied) && FreshRequest(end, freshId)
    ensures ClientOk(end, CS.Settle(client, packet, requested, freshId), applied)
  {
    RequestOk(end, client, applied, freshId);
    RequestOk(end, client.(requestId := ""), applied, freshId);
  }

  lemma {:induction false} AcceptAllGrows(store: Store, batch: seq<Event>)
    ensures var r := AcceptAll(store, batch);
            r.Some? ==> store.seen.Keys <= r.value.seen.Keys
                        && forall m :: MessageKey(m) in store.objects ==> MessageKey(m) in r.value.objects
    decreases batch
  {
    if batch != [] {
      var r := Accept(store, batch[0]);
      if r.Some? {
        ProjectKeeps(store.objects, batch[0]);
        AcceptAllGrows(r.value, batch[1..]);
      }
    }
  }

  lemma ProjectKeeps(objects: Objects, e: Event)
    ensures var r := Project(objects, e); r.Some? ==> forall m :: MessageKey(m) in objects ==> MessageKey(m) in r.value
  {
  }

  /** A page of the stream is never refused, whatever has changed since it was cut. */
  lemma ArriveStore(names: Names, s: seq<Body>, u: Id, store: Store, taken: set<Event>, batch: seq<Event>)
    requires StoreOk(names, s, u, store, taken) && forall e :: e in batch ==> WasServed(names, s, u, e)
    requires StreamOk(s) && NamesOk(names) && (s != [] ==> u in names && |s| <= |names[u]|)
    ensures AcceptAll(store, batch).Some? && StoreOk(names, s, u, AcceptAll(store, batch).value, TakeAll(taken, batch))
  {
    var pool := taken + set e | e in batch;
    ServedPool(names, s, u, pool);
    BatchClosedForm(pool, taken, store, batch);
  }

  /** A user's stream with its ids, as every reachable system has it. */
  ghost predicate StreamNamed(names: Names, s: seq<Body>, u: Id) {
    StreamOk(s) && NamesOk(names) && (s != [] ==> u in names && |s| <= |names[u]|)
  }

  lemma ArriveOk(names: Names, s: seq<Body>, u: Id, applied: nat, end: Endpoint, packet: CS.Packet, freshId: Id)
    requires EndOk(names, s, u, applied, end) && packet in end.packets && FreshRequest(end, freshId) && StreamNamed(names, s, u)
    ensures EndOk(names, s, u, applied, Moved(end, CS.Receive(end.client, packet, freshId), TakenBy(end, packet)))
    ensures CS.Receive(end.client, packet, freshId).running == end.client.running
  {
    var c := end.client;
    SameClient(names, s, u, applied, end);
    if c.running {
      assert PacketOk(names, s, u, end.asked, packet);
      ArriveStore(names, s, u, c.store, end.taken, packet.events);
      AcceptAllGrows(c.store, packet.events);
      var stored := c.(store := AcceptAll(c.store, packet.events).value);
      CS.CursorGrows(c.store.seen, stored.store.seen);
      SettleOk(end, stored, packet, CS.Requested(c, packet), freshId, applied);
    }
    MovedOk(names, s, u, applied, end, CS.Receive(c, packet, freshId), TakenBy(end, packet));
  }

  lemma OfferOk(names: Names, s: seq<Body>, u: Id, applied: nat, end: Endpoint, freshId: Id)
    requires EndOk(names, s, u, applied, end) && freshId != ""
    ensures EndOk(names, s, u, applied, Moved(end, CS.PumpConfirmation(end.client, freshId), end.taken))
  {
    MovedOk(names, s, u, applied, end, CS.PumpConfirmation(end.client, freshId), end.taken);
  }

  lemma AckOk(names: Names, s: seq<Body>, u: Id, applied: nat, end: Endpoint, ack: CS.Ack)
    requires EndOk(names, s, u, applied, end) && ack in end.acks
    ensures EndOk(names, s, u, applied, Moved(end, CS.HandleAck(end.client, ack), end.taken))
  {
    MovedOk(names, s, u, applied, end, CS.HandleAck(end.client, ack), end.taken);
  }

  lemma BeginOk(names: Names, s: seq<Body>, u: Id, applied: nat, end: Endpoint, freshId: Id)
    requires EndOk(names, s, u, applied, end) && FreshRequest(end, freshId)
    ensures EndOk(names, s, u, applied, Moved(end, CS.Start(end.client, freshId), end.taken))
  {
    SameClient(names, s, u, applied, end);
    StopOk(end, end.client, applied);
    RequestOk(end, CS.Stop(end.client).(running := true), applied, freshId);
    MovedOk(names, s, u, applied, end, CS.Start(end.client, freshId), end.taken);
  }

  // ---------- the server's answers ----------

  lemma AnswerOk(names: Names, streams: Streams, u: Id, asked: set<(Id, nat)>, client: CS.Client, id: Id, after: nat)
    requires (id, after) in asked && AskedOk(client, asked) && CS.CursorOf(client.store.seen) <= |StreamOf(streams, u)|
    ensures PacketOk(names, StreamOf(streams, u), u, asked, PageFor(Rows(names, streams, u), id, after))
  {
    var rows := Rows(names, streams, u);
    RowsServed(names, streams, u);
    assert (id, after).0 == id && (id, after).1 == after;
    PageReaches(rows, after, CS.PAGE_SIZE);
    forall e | e in Page(rows, after, CS.PAGE_SIZE).events ensures e in rows { }
  }

  lemma PushOk(names: Names, streams: Streams, u: Id, asked: set<(Id, nat)>, i: nat)
    requires i < |StreamOf(streams, u)|
    ensures PacketOk(names, StreamOf(streams, u), u, asked, CS.Packet("", 0, [Rows(names, streams, u)[i]], false, i + 1, 0))
  {
    RowsServed(names, streams, u);
    assert Rows(names, streams, u)[i] in Rows(names, streams, u);
  }

  /** A store never holds more of a stream than there is. */
  lemma CursorInside(names: Names, s: seq<Body>, u: Id, store: Store, taken: set<Event>)
    requires StoreOk(names, s, u, store, taken)
    ensures CS.CursorOf(store.seen) <= |s|
    ensures forall p :: 1 <= p <= CS.CursorOf(store.seen) ==> HasPosition(taken, p)
  {
    var k := CS.CursorOf(store.seen);
    forall p | 1 <= p <= k ensures HasPosition(taken, p) && p <= |s| {
      assert p in store.seen;
      var e :| e in taken && e.position == p;
    }
    assert k > 0 ==> HasPosition(taken, k);
  }

  /** Every message event within the cursor is in the object table. */
  lemma PrefixHeld(names: Names, s: seq<Body>, u: Id, store: Store, taken: set<Event>, cursor: nat, m: Id)
    requires StoreOk(names, s, u, store, taken) && cursor <= CS.CursorOf(store.seen) && cursor <= |s|
    requires CarriesMessage(s, 0, cursor, m)
    ensures MessageKey(m) in store.objects
  {
    CursorInside(names, s, u, store, taken);
    var i :| 0 <= i < cursor && s[i].Message? && s[i].id == m;
    assert HasPosition(taken, i + 1);
    var e :| e in taken && e.position == i + 1;
    assert Worn(e.body, s[i]);
    assert IsMessage(e, m);
    assert Messages(taken, store.objects, m);
  }

  /** A confirmation that is accepted leaves the device's applied cursor at least there, others alone. */
  lemma ConfirmMoves(db: Db, d: (Id, Id), cursor: nat, now: int, listed: seq<Id>)
    ensures var r := ConfirmApplied(db, d.0, d.1, cursor, now, listed);
            && StreamsAge(db.streams, r.0.streams)
            && (r.1.Some? ==> Applied(r.0, d.0, d.1) >= cursor)
            && (Applied(r.0, d.0, d.1) == Applied(db, d.0, d.1) || Applied(r.0, d.0, d.1) == cursor > Applied(db, d.0, d.1))
            && forall x :: x != d ==> Applied(r.0, x.0, x.1) == Applied(db, x.0, x.1)
  {
    ConfirmOutcome(db, d.0, d.1, cursor, now, listed);
    ConfirmProgress(db, d.0, d.1, cursor, now, listed);
    forall x: (Id, Id) ensures x == (x.0, x.1) { }
  }

  lemma ChainRaised(client: CS.Client, confirms: set<(Id, nat)>, recorded: map<Id, (nat, CS.Ack)>, acks: set<CS.Ack>,
                    applied: nat, raised: nat, id: Id, cursor: nat, ack: CS.Ack)
    requires ChainOk(client, confirms, recorded, acks, applied) && applied <= raised <= CS.CursorOf(client.store.seen)
    requires ack.success ==> ack.entity <= raised
    ensures ChainOk(client, confirms, recorded[id := (cursor, ack)], acks + {ack}, raised)
  {
  }

  lemma ExecutedChain(db: Db, end: Endpoint, d: (Id, Id), id: Id, cursor: nat, now: int, listed: seq<Id>)
    requires ChainOk(end.client, end.confirms, end.recorded, end.acks, Applied(db, d.0, d.1)) && (id, cursor) in end.confirms
    ensures var r := ExecuteConfirm(db, end, d, id, cursor, now, listed);
            && ChainOk(r.1.client, r.1.confirms, r.1.recorded, r.1.acks, Applied(r.0, d.0, d.1))
            && r.1 == end.(recorded := r.1.recorded, acks := r.1.acks)
            && StreamsAge(db.streams, r.0.streams)
            && forall x :: x != d ==> Applied(r.0, x.0, x.1) == Applied(db, x.0, x.1)
  {
    assert (id, cursor).1 == cursor;
    StreamsAgeSelf(db.streams);
    if id !in end.recorded {
      ConfirmMoves(db, d, cursor, now, listed);
      var r := ConfirmApplied(db, d.0, d.1, cursor, now, listed);
      var ack := if r.1.None? then CS.Ack(id, false, 400, 0) else CS.Ack(id, true, 0, cursor);
      ChainRaised(end.client, end.confirms, end.recorded, end.acks, Applied(db, d.0, d.1), Applied(r.0, d.0, d.1), id, cursor, ack);
    }
  }

  lemma ExecutedEnd(names: Names, db: Db, end: Endpoint, d: (Id, Id), id: Id, cursor: nat, now: int, listed: seq<Id>)
    requires EndOk(names, StreamOf(db.streams, d.0), d.0, Applied(db, d.0, d.1), end) && (id, cursor) in end.confirms
    ensures var r := ExecuteConfirm(db, end, d, id, cursor, now, listed);
            EndOk(names, StreamOf(r.0.streams, d.0), d.0, Applied(r.0, d.0, d.1), r.1)
  {
    var r := ExecuteConfirm(db, end, d, id, cursor, now, listed);
    ExecutedChain(db, end, d, id, cursor, now, listed);
    assert StreamAges(StreamOf(db.streams, d.0), StreamOf(r.0.streams, d.0));
    StoreLater(names, StreamOf(db.streams, d.0), StreamOf(r.0.streams, d.0), d.0, end.client.store, end.taken);
    PacketsLater(names, StreamOf(db.streams, d.0), StreamOf(r.0.streams, d.0), d.0, end.asked, end.packets);
  }

  lemma OtherEnd(names: Names, a: Db, b: Db, x: (Id, Id), end: Endpoint)
    requires EndOk(names, StreamOf(a.streams, x.0), x.0, Applied(a, x.0, x.1), end)
    requires StreamsAge(a.streams, b.streams) && Applied(b, x.0, x.1) == Applied(a, x.0, x.1)
    ensures EndOk(names, StreamOf(b.streams, x.0), x.0, Applied(b, x.0, x.1), end)
  {
    assert StreamAges(StreamOf(a.streams, x.0), StreamOf(b.streams, x.0));
    EndLater(names, StreamOf(a.streams, x.0), StreamOf(b.streams, x.0), x.0, Applied(a, x.0, x.1), end);
  }

  lemma EndAt(names: Names, db: Db, ends: Ends, d: (Id, Id))
    requires EndsOk(names, db, ends) && d in ends
    ensures EndOk(names, StreamOf(db.streams, d.0), d.0, Applied(db, d.0, d.1), ends[d])
  {
  }

  lemma ExecuteEnds(names: Names, db: Db, ends: Ends, d: (Id, Id), id: Id, cursor: nat, now: int, listed: seq<Id>)
    requires EndsOk(names, db, ends) && d in ends && (id, cursor) in ends[d].confirms
    ensures var r := ExecuteConfirm(db, ends[d], d, id, cursor, now, listed); EndsOk(names, r.0, ends[d := r.1])
  {
    var r := ExecuteConfirm(db, ends[d], d, id, cursor, now, listed);
    ExecuteFrame(names, db, ends, d, id, cursor, now, listed);
    ReplaceEnds(names, db, r.0, ends, d, r.1);
  }

  lemma ExecuteFrame(names: Names, db: Db, ends: Ends, d: (Id, Id), id: Id, cursor: nat, now: int, listed: seq<Id>)
    requires EndsOk(names, db, ends) && d in ends && (id, cursor) in ends[d].confirms
    ensures var r := ExecuteConfirm(db, ends[d], d, id, cursor, now, listed);
            && EndOk(names, StreamOf(r.0.streams, d.0), d.0, Applied(r.0, d.0, d.1), r.1)
            && StreamsAge(db.streams, r.0.streams)
            && forall x :: x != d ==> Applied(r.0, x.0, x.1) == Applied(db, x.0, x.1)
  {
    EndAt(names, db, ends, d);
    ExecutedEnd(names, db, ends[d], d, id, cursor, now, listed);
    ExecutedChain(db, ends[d], d, id, cursor, now, listed);
  }

  lemma ReplaceEnds(names: Names, a: Db, b: Db, ends: Ends, d: (Id, Id), end: Endpoint)
    requires EndsOk(names, a, ends) && EndOk(names, StreamOf(b.streams, d.0), d.0, Applied(b, d.0, d.1), end)
    requires StreamsAge(a.streams, b.streams) && forall x :: x != d ==> Applied(b, x.0, x.1) == Applied(a, x.0, x.1)
    ensures EndsOk(names, b, ends[d := end])
  {
    forall x | x in ends && x != d ensures EndOk(names, StreamOf(b.streams, x.0), x.0, Applied(b, x.0, x.1), ends[x]) {
      EndAt(names, a, ends, x);
      OtherEnd(names, a, b, x, ends[x]);
    }
  }

  /** Nothing a store has seen or holds is lost. */
  ghost predicate StoreGrows(a: Store, b: Store) {
    a.seen.Keys <= b.seen.Keys && forall m :: MessageKey(m) in a.objects ==> MessageKey(m) in b.objects
  }

  ghost predicate EndsGrow(a: Ends, b: Ends) {
    forall d :: d in a ==> d in b && StoreGrows(a[d].client.store, b[d].client.store)
  }

  lemma HeldInLater(s: seq<Body>, t: seq<Body>, a: Store, b: Store, m: Id)
    requires HeldIn(s, a, m) && StreamAges(s, t) && StoreGrows(a, b)
    ensures HeldIn(t, b, m)
  {
    CS.CursorGrows(a.seen, b.seen);
    var i :| 0 <= i < CS.CursorOf(a.seen) && i < |s| && s[i].Message? && s[i].id == m;
    assert Worn(s[i], t[i]);
  }

  lemma HeldByLater(r: Streams, s: Streams, a: Ends, b: Ends, m: Id, u: Id)
    requires HeldBy(r, a, m, u) && StreamsAge(r, s) && EndsGrow(a, b)
    ensures HeldBy(s, b, m, u)
  {
    var d :| d in a && d.0 == u && HeldIn(StreamOf(r, u), a[d].client.store, m);
    assert StreamAges(StreamOf(r, u), StreamOf(s, u));
    HeldInLater(StreamOf(r, u), StreamOf(s, u), a[d].client.store, b[d].client.store, m);
  }

  lemma HeldStays(deliveries: Deliveries, after: Deliveries, r: Streams, s: Streams, a: Ends, b: Ends)
    requires DeliveredHeld(deliveries, r, a) && EndsGrow(a, b) && StreamsAge(r, s) && NoNewDelivered(deliveries, after)
    ensures DeliveredHeld(after, s, b)
  {
    forall k | k in after && after[k].status == Delivered ensures HeldBy(s, b, k.0, k.1) {
      HeldByLater(r, s, a, b, k.0, k.1);
    }
  }

  /** A row newly delivered by a confirmation is a message its device holds. */
  lemma ExecuteHeld(names: Names, db: Db, ends: Ends, d: (Id, Id), id: Id, cursor: nat, now: int, listed: seq<Id>)
    requires DeliveredHeld(db.deliveries, db.streams, ends) && d in ends
    requires StoreOk(names, StreamOf(db.streams, d.0), d.0, ends[d].client.store, ends[d].taken)
    requires ListsDelivered(db, d.0, d.1, cursor, listed) && cursor <= CS.CursorOf(ends[d].client.store.seen)
    ensures var r := ExecuteConfirm(db, ends[d], d, id, cursor, now, listed);
            DeliveredHeld(r.0.deliveries, r.0.streams, ends[d := r.1])
  {
    var end := ends[d];
    var r := ExecuteConfirm(db, end, d, id, cursor, now, listed);
    var more := ends[d := r.1];
    ExecutedStreams(db, end, d, id, cursor, now, listed);
    forall k | k in r.0.deliveries && r.0.deliveries[k].status == Delivered ensures HeldBy(r.0.streams, more, k.0, k.1) {
      if k in db.deliveries && db.deliveries[k].status == Delivered {
        HeldByLater(db.streams, r.0.streams, ends, more, k.0, k.1);
      } else {
        ExecuteRow(names, db, end, d, id, cursor, now, listed, k);
        HeldInLater(StreamOf(db.streams, d.0), StreamOf(r.0.streams, d.0), end.client.store, end.client.store, k.0);
        assert d in more;
      }
    }
  }

  lemma ExecutedStreams(db: Db, end: Endpoint, d: (Id, Id), id: Id, cursor: nat, now: int, listed: seq<Id>)
    ensures var r := ExecuteConfirm(db, end, d, id, cursor, now, listed);
            && r.1.client == end.client && StreamsAge(db.streams, r.0.streams)
            && StreamAges(StreamOf(db.streams, d.0), StreamOf(r.0.streams, d.0))
  {
    StreamsAgeSelf(db.streams);
    ConfirmProgress(db, d.0, d.1, cursor, now, listed);
    assert StreamsAge(db.streams, ExecuteConfirm(db, end, d, id, cursor, now, listed).0.streams);
  }

  lemma ExecuteRow(names: Names, db: Db, end: Endpoint, d: (Id, Id), id: Id, cursor: nat, now: int, listed: seq<Id>, k: (Id, Id))
    requires StoreOk(names, StreamOf(db.streams, d.0), d.0, end.client.store, end.taken)
    requires ListsDelivered(db, d.0, d.1, cursor, listed) && cursor <= CS.CursorOf(end.client.store.seen)
    requires var r := ExecuteConfirm(db, end, d, id, cursor, now, listed);
             k in r.0.deliveries && r.0.deliveries[k].status == Delivered && !(k in db.deliveries && db.deliveries[k].status == Delivered)
    ensures d.0 == k.1 && HeldIn(StreamOf(db.streams, d.0), end.client.store, k.0)
    ensures ExecuteConfirm(db, end, d, id, cursor, now, listed).1.client == end.client
  {
    ConfirmOutcome(db, d.0, d.1, cursor, now, listed);
    DeliverAllProgress(db, d.0, listed, now);
    assert k in db.deliveries;
    OnlyCovered(db, d.0, d.1, cursor, now, listed, k);
    CursorInside(names, StreamOf(db.streams, d.0), d.0, end.client.store, end.taken);
    PrefixHeld(names, StreamOf(db.streams, d.0), d.0, end.client.store, end.taken, cursor, k.0);
  }

  // ---------- whole runs ----------

  /** Replacing one device by a grown one keeps everything. */
  lemma DeviceStep(names: Names, sys: Sys, d: (Id, Id), end: Endpoint)
    requires SysInv(names, sys)
    requires EndOk(names, StreamOf(sys.db.streams, d.0), d.0, Applied(sys.db, d.0, d.1), end)
    requires d in sys.ends ==> StoreGrows(sys.ends[d].client.store, end.client.store)
    ensures SysInv(names, sys.(ends := sys.ends[d := end]))
  {
    DeviceParts(names, sys.db, sys.ends, d, end);
  }

  lemma DeviceParts(names: Names, db: Db, ends: Ends, d: (Id, Id), end: Endpoint)
    requires EndsOk(names, db, ends) && AppliedInstalled(db.applied, ends) && DeliveredHeld(db.deliveries, db.streams, ends)
    requires EndOk(names, StreamOf(db.streams, d.0), d.0, Applied(db, d.0, d.1), end)
    requires d in ends ==> StoreGrows(ends[d].client.store, end.client.store)
    ensures EndsOk(names, db, ends[d := end]) && AppliedInstalled(db.applied, ends[d := end])
    ensures DeliveredHeld(db.deliveries, db.streams, ends[d := end])
  {
    StreamsAgeSelf(db.streams);
    ReplaceEnds(names, db, db, ends, d, end);
    HeldStays(db.deliveries, db.deliveries, db.streams, db.streams, ends, ends[d := end]);
  }

  lemma StreamsAgeSelf(streams: Streams)
    ensures StreamsAge(streams, streams)
  {
  }

  lemma NamedStream(names: Names, db: Db, u: Id)
    requires Inv(db) && NamesOk(names) && Room(names, db.streams)
    ensures StreamNamed(names, StreamOf(db.streams, u), u)
  {
  }

  lemma InstallOk(names: Names, s: seq<Body>, u: Id)
    ensures EndOk(names, s, u, 0, NEW_END)
  {
    StartsEmpty();
    CursorUnique(map[], 0, CS.CursorOf(map[]));
  }

  /** What an arrival does to the object table. */
  lemma ArriveGrows(end: Endpoint, packet: CS.Packet, freshId: Id)
    ensures StoreGrows(end.client.store, CS.Receive(end.client, packet, freshId).store)
  {
    AcceptAllGrows(end.client.store, packet.events);
  }

  lemma NetworkOk(names: Names, db: Db, d: (Id, Id), end: Endpoint, packet: CS.Packet)
    requires EndOk(names, StreamOf(db.streams, d.0), d.0, Applied(db, d.0, d.1), end)
    requires PacketOk(names, StreamOf(db.streams, d.0), d.0, end.asked, packet)
    ensures EndOk(names, StreamOf(db.streams, d.0), d.0, Applied(db, d.0, d.1), end.(packets := end.packets + {packet}))
  {
  }

  lemma AnswerStep(names: Names, db: Db, d: (Id, Id), end: Endpoint, id: Id, after: nat)
    requires EndOk(names, StreamOf(db.streams, d.0), d.0, Applied(db, d.0, d.1), end) && (id, after) in end.asked
    ensures EndOk(names, StreamOf(db.streams, d.0), d.0, Applied(db, d.0, d.1),
                  end.(packets := end.packets + {PageFor(Rows(names, db.streams, d.0), id, after)}))
  {
    CursorInside(names, StreamOf(db.streams, d.0), d.0, end.client.store, end.taken);
    AnswerOk(names, db.streams, d.0, end.asked, end.client, id, after);
    NetworkOk(names, db, d, end, PageFor(Rows(names, db.streams, d.0), id, after));
  }

  lemma PushStep(names: Names, db: Db, d: (Id, Id), end: Endpoint, i: nat)
    requires EndOk(names, StreamOf(db.streams, d.0), d.0, Applied(db, d.0, d.1), end) && i < |StreamOf(db.streams, d.0)|
    ensures EndOk(names, StreamOf(db.streams, d.0), d.0, Applied(db, d.0, d.1),
                  end.(packets := end.packets + {CS.Packet("", 0, [Rows(names, db.streams, d.0)[i]], false, i + 1, 0)}))
  {
    PushOk(names, db.streams, d.0, end.asked, i);
    NetworkOk(names, db, d, end, CS.Packet("", 0, [Rows(names, db.streams, d.0)[i]], false, i + 1, 0));
  }

  lemma InstallStep(names: Names, sys: Sys, d: (Id, Id))
    requires SysInv(names, sys) && Can(names, sys, Install(d))
    ensures SysInv(names, Do(names, sys, Install(d)))
  {
    InstallOk(names, StreamOf(sys.db.streams, d.0), d.0);
    assert d == (d.0, d.1) && d !in sys.db.applied;
    DeviceStep(names, sys, d, NEW_END);
  }

  lemma ArriveStep(names: Names, sys: Sys, d: (Id, Id), packet: CS.Packet, freshId: Id)
    requires SysInv(names, sys) && Can(names, sys, Arrive(d, packet, freshId))
    ensures SysInv(names, Do(names, sys, Arrive(d, packet, freshId)))
  {
    var end := sys.ends[d];
    var moved := Moved(end, CS.Receive(end.client, packet, freshId), TakenBy(end, packet));
    ArriveEnd(names, sys, d, packet, freshId);
    ArriveGrows(end, packet, freshId);
    DeviceStep(names, sys, d, moved);
  }

  /** A running client is never stopped by anything its stream ever served. */
  lemma ArriveEnd(names: Names, sys: Sys, d: (Id, Id), packet: CS.Packet, freshId: Id)
    requires SysInv(names, sys) && Can(names, sys, Arrive(d, packet, freshId))
    ensures var end := sys.ends[d]; var client := CS.Receive(end.client, packet, freshId);
            && EndOk(names, StreamOf(sys.db.streams, d.0), d.0, Applied(sys.db, d.0, d.1), Moved(end, client, TakenBy(end, packet)))
            && client.running == end.client.running
  {
    EndAt(names, sys.db, sys.ends, d);
    NamedStream(names, sys.db, d.0);
    ArriveOk(names, StreamOf(sys.db.streams, d.0), d.0, Applied(sys.db, d.0, d.1), sys.ends[d], packet, freshId);
  }

  predicate IsLocal(step: Step) { step.Begin? || step.Halt? || step.Offer? || step.Acked? }

  ghost function LocalClient(client: CS.Client, step: Step): CS.Client
    requires IsLocal(step)
  {
    match step
    case Begin(d, freshId) => CS.Start(client, freshId)
    case Halt(d) => CS.Stop(client)
    case Offer(d, freshId) => CS.PumpConfirmation(client, freshId)
    case Acked(d, ack) => CS.HandleAck(client, ack)
  }

  lemma LocalEnd(names: Names, s: seq<Body>, u: Id, applied: nat, end: Endpoint, step: Step)
    requires EndOk(names, s, u, applied, end) && IsLocal(step)
    requires step.Begin? ==> FreshRequest(end, step.freshId)
    requires step.Offer? ==> step.freshId != ""
    requires step.Acked? ==> step.ack in end.acks
    ensures EndOk(names, s, u, applied, Moved(end, LocalClient(end.client, step), end.taken))
  {
    match step
    case Begin(d, freshId) => BeginOk(names, s, u, applied, end, freshId);
    case Halt(d) => HaltOk(names, s, u, applied, end);
    case Offer(d, freshId) => OfferOk(names, s, u, applied, end, freshId);
    case Acked(d, ack) => AckOk(names, s, u, applied, end, ack);
  }

  lemma LocalStep(names: Names, sys: Sys, step: Step)
    requires SysInv(names, sys) && Can(names, sys, step) && IsLocal(step)
    ensures SysInv(names, Do(names, sys, step))
  {
    var end := sys.ends[step.d];
    EndAt(names, sys.db, sys.ends, step.d);
    LocalEnd(names, StreamOf(sys.db.streams, step.d.0), step.d.0, Applied(sys.db, step.d.0, step.d.1), end, step);
    LocalDoes(names, sys, step);
    DeviceStep(names, sys, step.d, Moved(end, LocalClient(end.client, step), end.taken));
  }

  lemma LocalDoes(names: Names, sys: Sys, step: Step)
    requires Can(names, sys, step) && IsLocal(step)
    ensures var end := sys.ends[step.d];
            && Do(names, sys, step) == sys.(ends := sys.ends[step.d := Moved(end, LocalClient(end.client, step), end.taken)])
            && LocalClient(end.client, step).store == end.client.store
  {
  }

  lemma HaltOk(names: Names, s: seq<Body>, u: Id, applied: nat, end: Endpoint)
    requires EndOk(names, s, u, applied, end)
    ensures EndOk(names, s, u, applied, Moved(end, CS.Stop(end.client), end.taken))
  {
    SameClient(names, s, u, applied, end);
    StopOk(end, end.client, applied);
    MovedOk(names, s, u, applied, end, CS.Stop(end.client), end.taken);
  }

  lemma ExecutedDb(db: Db, end: Endpoint, d: (Id, Id), id: Id, cursor: nat, now: int, listed: seq<Id>, ends: Ends)
    requires Inv(db) && ListsDelivered(db, d.0, d.1, cursor, listed) && AppliedInstalled(db.applied, ends) && d in ends
    ensures var r := ExecuteConfirm(db, end, d, id, cursor, now, listed).0; Inv(r) && AppliedInstalled(r.applied, ends)
  {
    ConfirmKeeps(db, d.0, d.1, cursor, now, listed);
    ConfirmOutcome(db, d.0, d.1, cursor, now, listed);
    assert d == (d.0, d.1);
  }

  lemma ExecuteStep(names: Names, sys: Sys, d: (Id, Id), id: Id, cursor: nat, now: int, listed: seq<Id>)
    requires SysInv(names, sys) && Can(names, sys, Execute(d, id, cursor, now, listed))
    ensures SysInv(names, Do(names, sys, Execute(d, id, cursor, now, listed)))
  {
    ExecutedDb(sys.db, sys.ends[d], d, id, cursor, now, listed, sys.ends);
    ExecuteParts(names, sys, d, id, cursor, now, listed);
    ExecuteDoes(names, sys, d, id, cursor, now, listed);
    var r := ExecuteConfirm(sys.db, sys.ends[d], d, id, cursor, now, listed);
    Assembled(names, r.0, sys.ends, sys.ends[d := r.1]);
  }

  lemma ExecuteDoes(names: Names, sys: Sys, d: (Id, Id), id: Id, cursor: nat, now: int, listed: seq<Id>)
    requires Can(names, sys, Execute(d, id, cursor, now, listed)) && Room(names, sys.db.streams)
    ensures var r := ExecuteConfirm(sys.db, sys.ends[d], d, id, cursor, now, listed);
            Do(names, sys, Execute(d, id, cursor, now, listed)) == Sys(r.0, sys.ends[d := r.1]) && Room(names, r.0.streams)
  {
  }

  lemma Assembled(names: Names, db: Db, before: Ends, ends: Ends)
    requires Inv(db) && NamesOk(names) && Room(names, db.streams) && EndsOk(names, db, ends)
    requires AppliedInstalled(db.applied, before) && before.Keys <= ends.Keys && DeliveredHeld(db.deliveries, db.streams, ends)
    ensures SysInv(names, Sys(db, ends))
  {
  }

  lemma ExecuteParts(names: Names, sys: Sys, d: (Id, Id), id: Id, cursor: nat, now: int, listed: seq<Id>)
    requires EndsOk(names, sys.db, sys.ends) && DeliveredHeld(sys.db.deliveries, sys.db.streams, sys.ends)
    requires Can(names, sys, Execute(d, id, cursor, now, listed))
    ensures var r := ExecuteConfirm(sys.db, sys.ends[d], d, id, cursor, now, listed);
            EndsOk(names, r.0, sys.ends[d := r.1]) && DeliveredHeld(r.0.deliveries, r.0.streams, sys.ends[d := r.1])
  {
    ExecuteEnds(names, sys.db, sys.ends, d, id, cursor, now, listed);
    ConfirmsInside(names, sys, d, id, cursor);
    ExecuteHeld(names, sys.db, sys.ends, d, id, cursor, now, listed);
  }

  lemma ConfirmsInside(names: Names, sys: Sys, d: (Id, Id), id: Id, cursor: nat)
    requires EndsOk(names, sys.db, sys.ends) && d in sys.ends && (id, cursor) in sys.ends[d].confirms
    ensures StoreOk(names, StreamOf(sys.db.streams, d.0), d.0, sys.ends[d].client.store, sys.ends[d].taken)
    ensures cursor <= CS.CursorOf(sys.ends[d].client.store.seen)
  {
    EndAt(names, sys.db, sys.ends, d);
    assert (id, cursor).1 == cursor;
  }

  lemma NetworkStep(names: Names, sys: Sys, step: Step)
    requires SysInv(names, sys) && Can(names, sys, step) && (step.Answer? || step.Push?)
    ensures SysInv(names, Do(names, sys, step))
  {
    var end := sys.ends[step.d];
    NetworkDoes(names, sys, step);
    EndAt(names, sys.db, sys.ends, step.d);
    PacketEnd(names, sys.db, step, end);
    DeviceStep(names, sys, step.d, end.(packets := end.packets + {PacketOf(names, sys.db, step)}));
  }

  lemma PacketEnd(names: Names, db: Db, step: Step, end: Endpoint)
    requires step.Answer? || (step.Push? && step.i < |StreamOf(db.streams, step.d.0)|)
    requires EndOk(names, StreamOf(db.streams, step.d.0), step.d.0, Applied(db, step.d.0, step.d.1), end)
    requires step.Answer? ==> (step.id, step.after) in end.asked
    ensures EndOk(names, StreamOf(db.streams, step.d.0), step.d.0, Applied(db, step.d.0, step.d.1),
                  end.(packets := end.packets + {PacketOf(names, db, step)}))
  {
    if step.Answer? { AnswerStep(names, db, step.d, end, step.id, step.after); }
    else { PushStep(names, db, step.d, end, step.i); }
  }

  function PacketOf(names: Names, db: Db, step: Step): CS.Packet
    requires step.Answer? || (step.Push? && step.i < |StreamOf(db.streams, step.d.0)|)
  {
    if step.Answer? then PageFor(Rows(names, db.streams, step.d.0), step.id, step.after)
    else CS.Packet("", 0, [Rows(names, db.streams, step.d.0)[step.i]], false, step.i + 1, 0)
  }

  lemma NetworkDoes(names: Names, sys: Sys, step: Step)
    requires Can(names, sys, step) && (step.Answer? || step.Push?)
    ensures step.d in sys.ends
    ensures var e := sys.ends[step.d];
            Do(names, sys, step) == sys.(ends := sys.ends[step.d := e.(packets := e.packets + {PacketOf(names, sys.db, step)})])
  {
  }

  lemma StepKeeps(names: Names, sys: Sys, step: Step)
    requires SysInv(names, sys) && Can(names, sys, step)
    ensures SysInv(names, Do(names, sys, step))
  {
    if IsLocal(step) { LocalStep(names, sys, step); }
    else if step.Answer? || step.Push? { NetworkStep(names, sys, step); }
    else { OtherStep(names, sys, step); }
  }

  lemma OtherStep(names: Names, sys: Sys, step: Step)
    requires SysInv(names, sys) && Can(names, sys, step) && (step.Server? || step.Install? || step.Arrive? || step.Execute?)
    ensures SysInv(names, Do(names, sys, step))
  {
    match step
    case Server(op) => ServerStep(names, sys, op);
    case Install(d) => InstallStep(names, sys, d);
    case Arrive(d, packet, freshId) => ArriveStep(names, sys, d, packet, freshId);
    case Execute(d, id, cursor, now, listed) => ExecuteStep(names, sys, d, id, cursor, now, listed);
  }

  ghost predicate Runs(names: Names, sys: Sys, steps: seq<Step>)
    decreases steps
  {
    steps != [] ==> Can(names, sys, steps[0]) && Runs(names, Do(names, sys, steps[0]), steps[1..])
  }

  ghost function After(names: Names, sys: Sys, steps: seq<Step>): Sys
    requires Runs(names, sys, steps)
    decreases steps
  {
    if steps == [] then sys else After(names, Do(names, sys, steps[0]), steps[1..])
  }

  const INITIAL: Sys := Sys(EMPTY_DB, map[])

  lemma {:induction false} RunKeeps(names: Names, sys: Sys, steps: seq<Step>)
    requires SysInv(names, sys) && Runs(names, sys, steps)
    ensures SysInv(names, After(names, sys, steps))
    decreases steps
  {
    if steps != [] {
      StepKeeps(names, sys, steps[0]);
      RunKeeps(names, Do(names, sys, steps[0]), steps[1..]);
    }
  }

  ghost predicate Reachable(names: Names, sys: Sys) {
    NamesOk(names) && exists steps :: Runs(names, INITIAL, steps) && sys == After(names, INITIAL, steps)
  }

  lemma ReachableInv(names: Names, sys: Sys)
    requires Reachable(names, sys)
    ensures SysInv(names, sys)
  {
    var steps :| Runs(names, INITIAL, steps) && sys == After(names, INITIAL, steps);
    SR.EmptyInv();
    assert forall u: Id :: StreamOf(EMPTY_DB.streams, u) == [];
    RunKeeps(names, INITIAL, steps);
  }

  // ---------- what every reachable system satisfies ----------

  /** client confirmed <= server applied <= client cursor <= stream length, for every device. */
  lemma ConfirmationChain(names: Names, sys: Sys, d: (Id, Id))
    requires Reachable(names, sys) && d in sys.ends
    ensures var c := sys.ends[d].client;
            c.confirmed <= Applied(sys.db, d.0, d.1) <= CS.CursorOf(c.store.seen) <= |StreamOf(sys.db.streams, d.0)|
  {
    ReachableInv(names, sys);
    EndAt(names, sys.db, sys.ends, d);
    CursorInside(names, StreamOf(sys.db.streams, d.0), d.0, sys.ends[d].client.store, sys.ends[d].taken);
  }

  /** 'delivered' is never claimed for a message that no device of the user durably holds among the
      events its cursor covers. */
  lemma DeliveredIsHeld(names: Names, sys: Sys, m: Id, u: Id)
    requires Reachable(names, sys)
    requires (m, u) in sys.db.deliveries && sys.db.deliveries[(m, u)].status == Delivered
    ensures HeldBy(sys.db.streams, sys.ends, m, u)
  {
    ReachableInv(names, sys);
    assert (m, u).0 == m && (m, u).1 == u;
  }

  lemma ReadyClient(c: CS.Client, packet: CS.Packet, freshId: Id)
    requires !c.caughtUp && CS.Receive(c, packet, freshId).caughtUp
    ensures packet.requestId != "" && !packet.hasMore
    ensures packet.newCursor <= CS.CursorOf(CS.Receive(c, packet, freshId).store.seen)
  {
  }

  lemma LastPage(names: Names, sys: Sys, d: (Id, Id), packet: CS.Packet)
    requires EndsOk(names, sys.db, sys.ends) && d in sys.ends && packet in sys.ends[d].packets
    requires packet.requestId != "" && !packet.hasMore
    ensures packet.newCursor == packet.had
  {
    EndAt(names, sys.db, sys.ends, d);
    assert PacketOk(names, StreamOf(sys.db.streams, d.0), d.0, sys.ends[d].asked, packet);
  }

  /** Readiness is signalled only by a client that holds everything the server had when it answered. */
  lemma ReadyMeansComplete(names: Names, sys: Sys, d: (Id, Id), packet: CS.Packet, freshId: Id)
    requires Reachable(names, sys) && Can(names, sys, Arrive(d, packet, freshId))
    requires !sys.ends[d].client.caughtUp && CS.Receive(sys.ends[d].client, packet, freshId).caughtUp
    ensures var after := CS.Receive(sys.ends[d].client, packet, freshId).store.seen;
            packet.had <= CS.CursorOf(after) && forall p :: 1 <= p <= packet.had ==> p in after
  {
    ReachableInv(names, sys);
    ReadyClient(sys.ends[d].client, packet, freshId);
    LastPage(names, sys, d, packet);
  }

  /** Nothing the stream ever served makes a running client fail, so its batches are never rolled back. */
  lemma NeverRefused(names: Names, sys: Sys, d: (Id, Id), packet: CS.Packet, freshId: Id)
    requires Reachable(names, sys) && Can(names, sys, Arrive(d, packet, freshId)) && sys.ends[d].client.running
    ensures AcceptAll(sys.ends[d].client.store, packet.events).Some?
    ensures CS.Receive(sys.ends[d].client, packet, freshId).running
  {
    ReachableInv(names, sys);
    ArriveEnd(names, sys, d, packet, freshId);
  }
}
