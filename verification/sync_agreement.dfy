/** What a client knows once its cursor is the length of its user's stream, and why it gets there. */
module SyncAgreement {
  import opened SyncEvents
  import opened StateStore
  import opened Convergence
  import CS = ClientSync
  import opened ServerState
  import opened ServerStreams
  import opened ServerInvariants
  import opened ServerConfirm
  import opened SyncPaging
  import opened Historic
  import opened SyncSystem

  // ---------- agreement ----------

  ghost predicate CaughtUp(sys: Sys, d: (Id, Id)) {
    d in sys.ends && CS.CursorOf(sys.ends[d].client.store.seen) == |StreamOf(sys.db.streams, d.0)|
  }

  /** Every last-writer-wins slot holds the stream's latest entry for it, and nothing else does. */
  lemma LatestEverywhere(names: Names, s: seq<Body>, u: Id, store: Store, taken: set<Event>, k: Key)
    requires StoreOk(names, s, u, store, taken) && StreamOk(s) && CS.CursorOf(store.seen) == |s| && IsRegister(k)
    ensures k in store.objects <==> Latest(s, k).Some?
    ensures k in store.objects ==> store.objects[k].data == Inner(Latest(s, k).value)
  {
    CursorInside(names, s, u, store, taken);
    assert Complete(names, s, u, taken);
    CompleteRegister(names, s, u, taken, store.objects, k);
  }

  lemma CaughtUpTables(names: Names, sys: Sys)
    requires Reachable(names, sys)
    ensures CurrentOk(sys.db.infos, sys.db.rosters, sys.db.deliveries, sys.db.counters, sys.db.positions, sys.db.history, sys.db.streams)
    ensures sys.db.infos.Keys == sys.db.rosters.Keys
    ensures CountersOk(sys.db.messages, sys.db.deliveries, sys.db.counters)
    ensures forall k :: k in sys.db.deliveries ==> k.0 in sys.db.messages
  {
    ReachableInv(names, sys);
  }

  /** Title, owner and members of every conversation the user belongs to. */
  lemma AgreeOnConversation(names: Names, sys: Sys, d: (Id, Id), c: Id)
    requires Reachable(names, sys) && CaughtUp(sys, d) && IsMember(sys.db, c, d.0)
    ensures var objects := sys.ends[d].client.store.objects;
            && c in sys.db.infos && ConversationKey(c) in objects
            && Describes(objects[ConversationKey(c)].data, sys.db.infos, sys.db.rosters, c)
  {
    DeviceStore(names, sys, d);
    CaughtUpTables(names, sys);
    LatestEverywhere(names, StreamOf(sys.db.streams, d.0), d.0, sys.ends[d].client.store, sys.ends[d].taken, ConversationKey(c));
    assert c in sys.db.rosters;
    ConversationAt(sys.db.infos, sys.db.rosters, sys.db.streams, c, d.0);
  }

  lemma ConversationAt(infos: Infos, rosters: Rosters, streams: Streams, c: Id, u: Id)
    requires ConversationsCurrent(infos, rosters, streams) && c in infos && c in rosters && u in UserSet(rosters[c])
    ensures var b := Latest(StreamOf(streams, u), ConversationKey(c)); b.Some? && Describes(b.value, infos, rosters, c)
  {
  }

  /** The unread count of every message ever delivered to the user. */
  lemma AgreeOnCount(names: Names, sys: Sys, d: (Id, Id), m: Id)
    requires Reachable(names, sys) && CaughtUp(sys, d) && (m, d.0) in sys.db.deliveries
    ensures m in sys.db.counters && CountOf(sys.ends[d].client.store.objects, m) == sys.db.counters[m].unread
  {
    DeviceStore(names, sys, d);
    CaughtUpTables(names, sys);
    LatestEverywhere(names, StreamOf(sys.db.streams, d.0), d.0, sys.ends[d].client.store, sys.ends[d].taken, CountKey(m));
    assert (m, d.0).0 in sys.db.messages;
    CountAt(sys.db.deliveries, sys.db.counters, sys.db.streams, m, d.0);
  }

  lemma CountAt(deliveries: Deliveries, counters: Counters, streams: Streams, m: Id, u: Id)
    requires CountsCurrent(deliveries, counters, streams) && (m, u) in deliveries && m in counters
    ensures var b := Latest(StreamOf(streams, u), CountKey(m));
            b.Some? && (b.value.Message? || b.value.ReadCount?) && CountIn(b.value) == counters[m].unread
  {
  }

  /** The user's own read position, whether or not the user has left and rejoined since. */
  lemma AgreeOnPosition(names: Names, sys: Sys, d: (Id, Id), c: Id)
    requires Reachable(names, sys) && CaughtUp(sys, d)
    ensures LastRead(sys.ends[d].client.store.objects, c, d.0) == Position(sys.db.positions, sys.db.history, c, d.0)
  {
    DeviceStore(names, sys, d);
    CaughtUpTables(names, sys);
    LatestEverywhere(names, StreamOf(sys.db.streams, d.0), d.0, sys.ends[d].client.store, sys.ends[d].taken, ReceiptKey(c, d.0));
    PositionAt(sys.db.positions, sys.db.history, sys.db.streams, c, d.0);
    LatestReceipt(StreamOf(sys.db.streams, d.0), c, d.0);
  }

  lemma PositionAt(positions: Positions, history: Positions, streams: Streams, c: Id, u: Id)
    requires ReceiptsCurrent(positions, history, streams)
    ensures var b := Latest(StreamOf(streams, u), ReceiptKey(c, u));
            Position(positions, history, c, u) == (if b.Some? && b.value.Receipt? then b.value.lastRead else 0)
  {
  }

  lemma LatestReceipt(s: seq<Body>, c: Id, u: Id)
    ensures var b := Latest(s, ReceiptKey(c, u)); b.Some? ==> b.value.Receipt?
  {
    var i := LatestAt(s, ReceiptKey(c, u));
  }

  // ---------- two devices of one user ----------

  lemma PlacesMeet(a: set<Event>, b: set<Event>, seenA: map<nat, Id>, seenB: map<nat, Id>)
    requires SeenExactly(a, seenA) && SeenExactly(b, seenB) && seenA.Keys == seenB.Keys
    ensures SamePlaces(a, b)
  {
    forall e | e in a ensures HasPosition(b, e.position) { assert e.position in seenB; }
    forall f | f in b ensures HasPosition(a, f.position) { assert f.position in seenA; }
  }

  /** Two devices of one user that have seen the same positions agree on every conversation, receipt,
      read count, delivery and file, although the server may have redacted rows between the two. */
  lemma DevicesMeet(names: Names, sys: Sys, d: (Id, Id), e: (Id, Id), k: Key)
    requires Reachable(names, sys) && d in sys.ends && e in sys.ends && d.0 == e.0 && IsRegister(k)
    requires sys.ends[d].client.store.seen.Keys == sys.ends[e].client.store.seen.Keys
    ensures var x, y := sys.ends[d].client.store.objects, sys.ends[e].client.store.objects;
            (k in x <==> k in y) && (k in x ==> x[k] == y[k])
  {
    DeviceStore(names, sys, d);
    DeviceStore(names, sys, e);
    var a, b := sys.ends[d], sys.ends[e];
    PlacesMeet(a.taken, b.taken, a.client.store.seen, b.client.store.seen);
    assert Register(a.taken, a.client.store.objects, k) && Register(b.taken, b.client.store.objects, k);
    RegistersMeet(names, StreamOf(sys.db.streams, d.0), d.0, a.taken, b.taken, a.client.store.objects, b.client.store.objects, k);
  }

  lemma DeviceStore(names: Names, sys: Sys, d: (Id, Id))
    requires Reachable(names, sys) && d in sys.ends
    ensures StoreOk(names, StreamOf(sys.db.streams, d.0), d.0, sys.ends[d].client.store, sys.ends[d].taken)
    ensures StreamOk(StreamOf(sys.db.streams, d.0))
  {
    ReachableInv(names, sys);
    EndAt(names, sys.db, sys.ends, d);
  }

  // ---------- catching up with a stream that stands still ----------

  /** A request is outstanding and the store is a projection of this stream. */
  ghost predicate Chasing(names: Names, streams: Streams, u: Id, c: CS.Client, taken: set<Event>) {
    && StoreOk(names, StreamOf(streams, u), u, c.store, taken) && StreamNamed(names, StreamOf(streams, u), u)
    && c.running && !c.caughtUp && c.requestId != "" && c.requestCursor <= CS.CursorOf(c.store.seen)
  }

  ghost function Reply(names: Names, streams: Streams, u: Id, c: CS.Client): CS.Packet {
    PageFor(Rows(names, streams, u), c.requestId, c.requestCursor)
  }

  lemma ReplyTaken(names: Names, streams: Streams, u: Id, c: CS.Client, taken: set<Event>)
    requires Chasing(names, streams, u, c, taken)
    ensures var p := Reply(names, streams, u, c);
            && AcceptAll(c.store, p.events).Some?
            && StoreOk(names, StreamOf(streams, u), u, AcceptAll(c.store, p.events).value, TakeAll(taken, p.events))
            && p.newCursor <= CS.CursorOf(AcceptAll(c.store, p.events).value.seen) <= |StreamOf(streams, u)|
  {
    var s, p := StreamOf(streams, u), Reply(names, streams, u, c);
    RowsServed(names, streams, u);
    CursorInside(names, s, u, c.store, taken);
    PageReaches(Rows(names, streams, u), c.requestCursor, CS.PAGE_SIZE);
    assert forall e :: e in p.events ==> e in Rows(names, streams, u);
    ArriveStore(names, s, u, c.store, taken, p.events);
    var after := AcceptAll(c.store, p.events).value;
    CursorInside(names, s, u, after, TakeAll(taken, p.events));
    AcceptAllGrows(c.store, p.events);
    CS.CursorGrows(c.store.seen, after.seen);
    PageSeen(names, streams, u, c, taken, p, after);
  }

  /** Positions the page carries are seen afterwards, so the cursor covers the page. */
  lemma PageSeen(names: Names, streams: Streams, u: Id, c: CS.Client, taken: set<Event>, p: CS.Packet, after: Store)
    requires c.requestCursor <= CS.CursorOf(c.store.seen) <= CS.CursorOf(after.seen) && c.requestCursor <= |StreamOf(streams, u)|
    requires p == Reply(names, streams, u, c) && SeenExactly(TakeAll(taken, p.events), after.seen)
    ensures p.newCursor <= CS.CursorOf(after.seen)
  {
    var rows, k := Rows(names, streams, u), CS.CursorOf(after.seen);
    PageReaches(rows, c.requestCursor, CS.PAGE_SIZE);
    forall q | c.requestCursor < q <= p.newCursor ensures q in after.seen {
      TakeAllPositions(taken, p.events, q);
      assert rows[q - 1] in p.events && rows[q - 1].position == q;
      var e :| e in TakeAll(taken, p.events) && e.position == q;
    }
    assert k + 1 !in after.seen;
  }

  /** The answer to the outstanding request either completes the client or moves its cursor on. */
  lemma CatchUpStep(names: Names, streams: Streams, u: Id, c: CS.Client, taken: set<Event>, nextId: Id)
    requires Chasing(names, streams, u, c, taken) && nextId != ""
    ensures var p := Reply(names, streams, u, c); var d := CS.Receive(c, p, nextId);
            if p.hasMore then Chasing(names, streams, u, d, TakeAll(taken, p.events)) && c.requestCursor < d.requestCursor <= |StreamOf(streams, u)|
            else d.running && d.caughtUp && CS.CursorOf(d.store.seen) == |StreamOf(streams, u)| && !CS.HasGap(d.store.seen)
  {
    var s, p := StreamOf(streams, u), Reply(names, streams, u, c);
    CursorInside(names, s, u, c.store, taken);
    PageReaches(Rows(names, streams, u), c.requestCursor, CS.PAGE_SIZE);
    ReplyTaken(names, streams, u, c, taken);
    var after := AcceptAll(c.store, p.events).value;
    if !p.hasMore { NoGapAtEnd(names, s, u, after, TakeAll(taken, p.events)); }
  }

  lemma NoGapAtEnd(names: Names, s: seq<Body>, u: Id, store: Store, taken: set<Event>)
    requires StoreOk(names, s, u, store, taken) && CS.CursorOf(store.seen) == |s|
    ensures !CS.HasGap(store.seen)
  {
    forall p | p in store.seen ensures p <= |s| { var e :| e in taken && e.position == p; }
  }

  /** The request loop against a stream that stands still; what is left of it shrinks every round. */
  ghost function CatchUp(names: Names, streams: Streams, u: Id, c: CS.Client, taken: set<Event>, nextId: Id): CS.Client
    requires Chasing(names, streams, u, c, taken) && nextId != ""
    decreases |StreamOf(streams, u)| - c.requestCursor
  {
    var p := Reply(names, streams, u, c);
    CatchUpStep(names, streams, u, c, taken, nextId);
    if p.hasMore then CatchUp(names, streams, u, CS.Receive(c, p, nextId), TakeAll(taken, p.events), nextId)
    else CS.Receive(c, p, nextId)
  }

  /** It ends ready, with the whole stream held and no gap. */
  lemma {:induction false} CatchUpCompletes(names: Names, streams: Streams, u: Id, c: CS.Client, taken: set<Event>, nextId: Id)
    requires Chasing(names, streams, u, c, taken) && nextId != ""
    ensures var d := CatchUp(names, streams, u, c, taken, nextId);
            d.running && d.caughtUp && CS.CursorOf(d.store.seen) == |StreamOf(streams, u)| && !CS.HasGap(d.store.seen)
    decreases |StreamOf(streams, u)| - c.requestCursor
  {
    var p := Reply(names, streams, u, c);
    CatchUpStep(names, streams, u, c, taken, nextId);
    if p.hasMore { CatchUpCompletes(names, streams, u, CS.Receive(c, p, nextId), TakeAll(taken, p.events), nextId); }
  }
}
