/** apply_receipt: rebuilding a range of counters is rebuilding them all, and every affected
    holder's stream ends with the rebuilt count. */
module ServerReceipts {
  import opened SyncEvents
  import opened ServerState
  import opened ServerStreams
  import opened ServerInvariants

  /** d2 is d1 with some rows marked read: nothing else about a row changes for the worse. */
  ghost predicate Marked(d1: Deliveries, d2: Deliveries) {
    && d1.Keys == d2.Keys
    && (forall k :: k in d1 ==>
          && d2[k].conv == d1[k].conv && d2[k].number == d1[k].number && d2[k].burnedAt == d1[k].burnedAt
          && (d1[k].status != Sent ==> d2[k].status != Sent)
          && (d2[k].readAt.Some? <==> d1[k].readAt.Some? || d2[k] != d1[k])
          && (d2[k] != d1[k] ==> d2[k].status == Read)
          && (d1[k].readAt.Some? ==> d2[k].readAt == d1[k].readAt))
  }

  lemma MarkReadMarks(messages: Msgs, d1: Deliveries, user: Id, conv: Id, low: nat, high: nat, now: int, burning: bool)
    requires forall k :: k in d1 ==> k.0 in messages
    requires StatusOk(d1)
    ensures var d2 := MarkRead(messages, d1, user, conv, low, high, now, burning);
            && Marked(d1, d2) && StatusOk(d2)
            && (forall k :: k in d1 && !(k.1 == user && InRange(d1[k], conv, low, high)) ==> d2[k] == d1[k])
            && (forall k :: k in d1 && k.1 == user && InRange(d1[k], conv, low, high) ==> d2[k].readAt.Some?)
  {
  }

  lemma SameHolders(d1: Deliveries, d2: Deliveries, messages: Msgs, m: Id)
    requires d1.Keys == d2.Keys && m in messages
    ensures Holders(d1, m) == Holders(d2, m) && Recipients(messages, d1, m) == Recipients(messages, d2, m)
  {
    assert forall k :: k in d1 <==> k in d2;
    assert forall u :: u in Holders(d1, m) ==> (m, u) in d1 && (m, u) in d2;
    assert forall u :: u in Holders(d2, m) ==> (m, u) in d1 && (m, u) in d2;
    assert forall u :: u in Recipients(messages, d1, m) ==> (m, u) in d1 && (m, u) in d2;
    assert forall u :: u in Recipients(messages, d2, m) ==> (m, u) in d1 && (m, u) in d2;
  }

  lemma MarkedRows(infos: Infos, messages: Msgs, d1: Deliveries, d2: Deliveries)
    requires RowsOk(infos, messages, d1) && Marked(d1, d2)
    ensures RowsOk(infos, messages, d2)
  {
    forall m | m in messages ensures Holders(d2, m) != {} { SameHolders(d1, d2, messages, m); }
  }

  lemma MarkedFlags(messages: Msgs, d1: Deliveries, d2: Deliveries)
    requires FlagsOk(messages, d1) && Marked(d1, d2) && StatusOk(d2)
    ensures FlagsOk(messages, d2)
  {
    forall m ensures AllBurned(d1, m) <==> AllBurned(d2, m) {
      assert forall k :: k in d1 ==> d1[k].burnedAt == d2[k].burnedAt;
    }
  }

  // ---------- reads ----------

  lemma ReadsAfter(messages: Msgs, d1: Deliveries, positions: Positions, history: Positions, user: Id, conv: Id,
                   next: nat, now: int, burning: bool)
    requires ReadsOk(messages, d1, positions, history) && StatusOk(d1)
    requires forall k :: k in d1 ==> k.0 in messages && d1[k].conv == messages[k.0].conv && d1[k].number == messages[k.0].number
    requires (conv, user) in positions && positions[(conv, user)] < next
    ensures ReadsOk(messages, MarkRead(messages, d1, user, conv, positions[(conv, user)], next, now, burning),
                    positions[(conv, user) := next], history)
  {
    var low := positions[(conv, user)];
    var d2 := MarkRead(messages, d1, user, conv, low, next, now, burning);
    var p2 := positions[(conv, user) := next];
    MarkReadMarks(messages, d1, user, conv, low, next, now, burning);
    forall k | k in d2 && k.0 in messages && k.1 != messages[k.0].sender
      ensures d2[k].readAt.Some? <==> messages[k.0].number <= Position(p2, history, messages[k.0].conv, k.1)
    {
      assert k in d1;
      assert d1[k].readAt.Some? <==> messages[k.0].number <= Position(positions, history, messages[k.0].conv, k.1);
    }
  }

  // ---------- counters ----------

  lemma OutOfRangeKept(messages: Msgs, d1: Deliveries, d2: Deliveries, m: Id)
    requires m in messages && d1.Keys == d2.Keys && forall u :: (m, u) in d1 ==> d2[(m, u)].readAt.Some? == d1[(m, u)].readAt.Some?
    ensures CountRow(messages, d2, m) == CountRow(messages, d1, m)
  {
    SameHolders(d1, d2, messages, m);
    var all := Recipients(messages, d1, m);
    assert forall u :: u in all ==> (m, u) in d1;
    assert (set u | u in all && d2[(m, u)].readAt.Some?) == (set u | u in all && d1[(m, u)].readAt.Some?);
  }

  /** Rebuilding only (low, high] after the marks gives the table a full rebuild would give. */
  lemma RangeRebuild(messages: Msgs, d1: Deliveries, counters: Counters, user: Id, conv: Id, low: nat, high: nat,
                     now: int, burning: bool)
    requires CountersOk(messages, d1, counters) && StatusOk(d1)
    requires forall k :: k in d1 ==> k.0 in messages && d1[k].conv == messages[k.0].conv && d1[k].number == messages[k.0].number
    ensures var d2 := MarkRead(messages, d1, user, conv, low, high, now, burning);
            CountersOk(messages, d2, Rebuild(messages, d2, counters, conv, low, high))
  {
    var d2 := MarkRead(messages, d1, user, conv, low, high, now, burning);
    MarkReadMarks(messages, d1, user, conv, low, high, now, burning);
    forall m | m in messages && !(messages[m].conv == conv && low < messages[m].number <= high)
      ensures CountRow(messages, d2, m) == counters[m]
    {
      assert forall u :: (m, u) in d1 ==> d2[(m, u)] == d1[(m, u)];
      OutOfRangeKept(messages, d1, d2, m);
    }
    RebuildAgrees(messages, d2, counters, conv, low, high);
  }

  lemma RebuildAgrees(messages: Msgs, d2: Deliveries, counters: Counters, conv: Id, low: nat, high: nat)
    requires counters.Keys == messages.Keys
    requires forall m :: m in messages && !(messages[m].conv == conv && low < messages[m].number <= high)
                         ==> CountRow(messages, d2, m) == counters[m]
    ensures CountersOk(messages, d2, Rebuild(messages, d2, counters, conv, low, high))
  {
  }

  /** Only the messages the query listed change their unread count. */
  lemma UnlistedCount(db: Db, user: Id, conv: Id, low: nat, high: nat, now: int, burning: bool, m: Id)
    requires StatusOk(db.deliveries) && m in db.messages && m !in NewlyRead(db, user, conv, low, high)
    requires forall k :: k in db.deliveries ==> k.0 in db.messages
    ensures var d2 := MarkRead(db.messages, db.deliveries, user, conv, low, high, now, burning);
            CountRow(db.messages, d2, m).unread == CountRow(db.messages, db.deliveries, m).unread
  {
    var d1 := db.deliveries;
    var d2 := MarkRead(db.messages, d1, user, conv, low, high, now, burning);
    MarkReadMarks(db.messages, d1, user, conv, low, high, now, burning);
    SameHolders(d1, d2, db.messages, m);
    var all := Recipients(db.messages, d1, m);
    forall u | u in all ensures d2[(m, u)].readAt.Some? == d1[(m, u)].readAt.Some? {
      assert (m, u) in d1;
      assert u == user && InRange(d1[(m, u)], conv, low, high) && d1[(m, u)].readAt.None?
             ==> (m, u).0 in NewlyRead(db, user, conv, low, high);
    }
    assert (set u | u in all && d2[(m, u)].readAt.Some?) == (set u | u in all && d1[(m, u)].readAt.Some?);
  }

  // ---------- emitting the counts ----------

  /** Counts are current except for the messages still waiting for their event. */
  ghost predicate CountsExcept(deliveries: Deliveries, counters: Counters, streams: Streams, waiting: set<Id>) {
    forall m, u :: (m, u) in deliveries && m in counters && m !in waiting ==>
      var b := Latest(StreamOf(streams, u), CountKey(m));
      b.Some? && (b.value.Message? || b.value.ReadCount?) && CountIn(b.value) == counters[m].unread
  }

  function CountBody(counters: Counters, m: Id): Body
    requires m in counters
  {
    ReadCount(m, counters[m].conv, if counters[m].unread > 0 then counters[m].unread else 0)
  }

  lemma CountOne(deliveries: Deliveries, counters: Counters, streams: Streams, waiting: set<Id>, m: Id)
    requires CountsExcept(deliveries, counters, streams, waiting) && m in counters && counters[m].unread >= 0
    ensures CountsExcept(deliveries, counters, Emit(streams, Holders(deliveries, m), CountBody(counters, m)), waiting - {m})
  {
    var body, users := CountBody(counters, m), Holders(deliveries, m);
    forall n, u | (n, u) in deliveries && n in counters && n !in waiting - {m}
      ensures var b := Latest(StreamOf(Emit(streams, users, body), u), CountKey(n));
              b.Some? && (b.value.Message? || b.value.ReadCount?) && CountIn(b.value) == counters[n].unread
    {
      EmitAt(streams, users, body, u);
      LatestAppend(StreamOf(streams, u), body, CountKey(n));
      if n == m { assert (n, u).1 in users; }
    }
  }

  lemma {:induction false} CountsEmitted(deliveries: Deliveries, counters: Counters, streams: Streams, changed: seq<Id>)
    requires CountsExcept(deliveries, counters, streams, Listed(changed))
    requires forall m :: m in changed ==> m in counters && counters[m].unread >= 0
    ensures CountsCurrent(deliveries, counters, EmitCounts(streams, deliveries, counters, changed))
    decreases changed
  {
    if changed == [] {
      assert Listed(changed) == {};
    } else {
      var m := changed[0];
      assert m in changed;
      var next := Emit(streams, Holders(deliveries, m), CountBody(counters, m));
      CountOne(deliveries, counters, streams, Listed(changed), m);
      assert forall n :: n in changed <==> n == m || n in changed[1..];
      assert CountsExcept(deliveries, counters, next, Listed(changed[1..]));
      CountsEmitted(deliveries, counters, next, changed[1..]);
    }
  }

  lemma {:induction false} FeedsEmitted(infos: Infos, messages: Msgs, deliveries: Deliveries, positions: Positions,
                                        history: Positions, files: map<Id, nat>, counters: Counters, streams: Streams, changed: seq<Id>)
    requires FeedsOk(infos, messages, deliveries, positions, history, files, streams)
    requires counters.Keys == messages.Keys && forall m :: m in messages ==> m != ""
    ensures FeedsOk(infos, messages, deliveries, positions, history, files, EmitCounts(streams, deliveries, counters, changed))
    decreases changed
  {
    if changed != [] && changed[0] in counters {
      var m := changed[0];
      var body, users := CountBody(counters, m), Holders(deliveries, m);
      EmitStreams(streams, users, body);
      EmitEntries(infos, messages, deliveries, positions, history, files, streams, users, body);
      EmitCarried(deliveries, streams, users, body);
      FeedsEmitted(infos, messages, deliveries, positions, history, files, counters, Emit(streams, users, body), changed[1..]);
    } else if changed != [] {
      FeedsEmitted(infos, messages, deliveries, positions, history, files, counters, streams, changed[1..]);
    }
  }

  lemma {:induction false} OthersEmitted(infos: Infos, rosters: Rosters, positions: Positions, history: Positions,
                                         deliveries: Deliveries, applied: map<(Id, Id), nat>, counters: Counters,
                                         streams: Streams, changed: seq<Id>)
    requires ConversationsCurrent(infos, rosters, streams) && ReceiptsCurrent(positions, history, streams)
    requires SafetyOk(deliveries, streams, applied)
    ensures var e := EmitCounts(streams, deliveries, counters, changed);
            ConversationsCurrent(infos, rosters, e) && ReceiptsCurrent(positions, history, e) && SafetyOk(deliveries, e, applied)
    decreases changed
  {
    if changed != [] && changed[0] in counters {
      var m := changed[0];
      var body, users := CountBody(counters, m), Holders(deliveries, m);
      EmitConversations(infos, rosters, streams, users, body);
      EmitReceipts(positions, history, streams, users, body);
      EmitSafety(deliveries, streams, applied, users, body);
      OthersEmitted(infos, rosters, positions, history, deliveries, applied, counters, Emit(streams, users, body), changed[1..]);
    } else if changed != [] {
      OthersEmitted(infos, rosters, positions, history, deliveries, applied, counters, streams, changed[1..]);
    }
  }

  // ---------- the receipt event ----------

  lemma ReceiptFeeds(infos: Infos, messages: Msgs, d1: Deliveries, d2: Deliveries, positions: Positions, history: Positions,
                     files: map<Id, nat>, streams: Streams, users: set<Id>, user: Id, conv: Id, next: nat, now: int)
    requires FeedsOk(infos, messages, d1, positions, history, files, streams) && d1.Keys == d2.Keys
    requires (conv, user) in positions && positions[(conv, user)] < next
    ensures FeedsOk(infos, messages, d2, positions[(conv, user) := next], history, files,
                    Emit(streams, users, Receipt(conv, user, next, now)))
  {
    var body, p2 := Receipt(conv, user, next, now), positions[(conv, user) := next];
    forall u, i | 0 <= i < |StreamOf(streams, u)|
      ensures Ordered(StreamOf(streams, u)[i], body)
      ensures EntryOk(infos, messages, d2, p2, history, files, u, StreamOf(streams, u)[i])
    {
      assert EntryOk(infos, messages, d1, positions, history, files, u, StreamOf(streams, u)[i]);
    }
    EmitStreams(streams, users, body);
    EmitEntries(infos, messages, d2, p2, history, files, streams, users, body);
    EmitCarried(d2, streams, users, body);
  }

  lemma ReceiptReaches(positions: Positions, history: Positions, streams: Streams, users: set<Id>, user: Id, conv: Id,
                       next: nat, now: int)
    requires ReceiptsCurrent(positions, history, streams) && user in users && 0 < next
    requires (conv, user) in positions
    ensures ReceiptsCurrent(positions[(conv, user) := next], history, Emit(streams, users, Receipt(conv, user, next, now)))
  {
    var body, p2 := Receipt(conv, user, next, now), positions[(conv, user) := next];
    forall c, u
      ensures var b := Latest(StreamOf(Emit(streams, users, body), u), ReceiptKey(c, u));
              Position(p2, history, c, u) == (if b.Some? && b.value.Receipt? then b.value.lastRead else 0)
    {
      ReceiptLatest(streams, users, user, conv, next, now, c, u);
      if c != conv || u != user { PositionKept(positions, history, user, conv, next, c, u); }
      assert var b := Latest(StreamOf(streams, u), ReceiptKey(c, u));
             Position(positions, history, c, u) == (if b.Some? && b.value.Receipt? then b.value.lastRead else 0);
    }
  }

  lemma PositionKept(positions: Positions, history: Positions, user: Id, conv: Id, next: nat, c: Id, u: Id)
    requires c != conv || u != user
    ensures Position(positions[(conv, user) := next], history, c, u) == Position(positions, history, c, u)
  {
  }

  lemma ReceiptLatest(streams: Streams, users: set<Id>, user: Id, conv: Id, next: nat, now: int, c: Id, u: Id)
    requires user in users && 0 < next
    ensures Latest(StreamOf(Emit(streams, users, Receipt(conv, user, next, now)), u), ReceiptKey(c, u))
         == if c == conv && u == user then Some(Receipt(conv, user, next, now)) else Latest(StreamOf(streams, u), ReceiptKey(c, u))
  {
    EmitAt(streams, users, Receipt(conv, user, next, now), u);
    LatestAppend(StreamOf(streams, u), Receipt(conv, user, next, now), ReceiptKey(c, u));
  }

  lemma MarkedSafety(d1: Deliveries, d2: Deliveries, streams: Streams, applied: map<(Id, Id), nat>)
    requires SafetyOk(d1, streams, applied) && Marked(d1, d2)
    ensures SafetyOk(d2, streams, applied)
  {
  }

  // ---------- the operation ----------

  /** The query result: exactly the newly read messages, in any order. */
  ghost predicate ListsChanged(db: Db, user: Id, conv: Id, requested: nat, changed: seq<Id>) {
    (conv, user) in db.positions ==>
      Listed(changed) == NewlyRead(db, user, conv, db.positions[(conv, user)], NewPosition(db, user, conv, requested))
  }

  /** An accepted receipt: the reader's old and new positions. */
  ghost predicate Advances(db: Db, user: Id, conv: Id, requested: nat) {
    (conv, user) in db.positions && NewPosition(db, user, conv, requested) > db.positions[(conv, user)]
  }

  lemma PositionsAdvance(db: Db, user: Id, conv: Id, requested: nat)
    requires Advances(db, user, conv, requested) && PositionsOk(db.messages, db.positions, db.history)
    ensures PositionsOk(db.messages, db.positions[(conv, user) := NewPosition(db, user, conv, requested)], db.history)
  {
    var p2 := db.positions[(conv, user) := NewPosition(db, user, conv, requested)];
    forall c, u ensures Position(p2, db.history, c, u) <= Top(db.messages, c) {
      assert Position(db.positions, db.history, c, u) <= Top(db.messages, c);
    }
  }

  lemma MembershipAdvance(db: Db, user: Id, conv: Id, next: nat)
    requires MembershipOk(db.users, db.created, db.infos, db.rosters, db.positions, db.history)
    requires (conv, user) in db.positions && db.positions[(conv, user)] < next
    ensures MembershipOk(db.users, db.created, db.infos, db.rosters, db.positions[(conv, user) := next], db.history)
    ensures user in UserSet(RosterOf(db, conv))
  {
    assert conv in db.rosters && user in UserSet(db.rosters[conv]);
  }

  lemma ReceiptLedger(db: Db, user: Id, conv: Id, requested: nat, now: int, burning: bool, changed: seq<Id>)
    requires LedgerOk(db.infos, db.messages, db.deliveries, db.counters, db.positions, db.history)
    requires FlagsOk(db.messages, db.deliveries) && Advances(db, user, conv, requested)
    ensures var r := ApplyReceipt(db, user, conv, requested, now, burning, changed).0;
            && LedgerOk(r.infos, r.messages, r.deliveries, r.counters, r.positions, r.history)
            && FlagsOk(r.messages, r.deliveries) && Marked(db.deliveries, r.deliveries)
  {
    var low, next := db.positions[(conv, user)], NewPosition(db, user, conv, requested);
    var d2 := MarkRead(db.messages, db.deliveries, user, conv, low, next, now, burning);
    MarkReadMarks(db.messages, db.deliveries, user, conv, low, next, now, burning);
    PositionsAdvance(db, user, conv, requested);
    MarkedRows(db.infos, db.messages, db.deliveries, d2);
    ReadsAfter(db.messages, db.deliveries, db.positions, db.history, user, conv, next, now, burning);
    RangeRebuild(db.messages, db.deliveries, db.counters, user, conv, low, next, now, burning);
    MarkedFlags(db.messages, db.deliveries, d2);
  }

  /** Before any count event goes out, exactly the listed messages lag behind the rebuilt table. */
  lemma CountsLag(db: Db, user: Id, conv: Id, requested: nat, now: int, burning: bool, changed: seq<Id>)
    requires LedgerOk(db.infos, db.messages, db.deliveries, db.counters, db.positions, db.history)
    requires FlagsOk(db.messages, db.deliveries) && Advances(db, user, conv, requested)
    requires CountsCurrent(db.deliveries, db.counters, db.streams) && ListsChanged(db, user, conv, requested, changed)
    ensures var low, next := db.positions[(conv, user)], NewPosition(db, user, conv, requested);
            var d2 := MarkRead(db.messages, db.deliveries, user, conv, low, next, now, burning);
            var c2 := Rebuild(db.messages, d2, db.counters, conv, low, next);
            CountsExcept(d2, c2, db.streams, Listed(changed))
  {
    var low, next := db.positions[(conv, user)], NewPosition(db, user, conv, requested);
    var d2 := MarkRead(db.messages, db.deliveries, user, conv, low, next, now, burning);
    var c2 := Rebuild(db.messages, d2, db.counters, conv, low, next);
    MarkReadMarks(db.messages, db.deliveries, user, conv, low, next, now, burning);
    RangeRebuild(db.messages, db.deliveries, db.counters, user, conv, low, next, now, burning);
    forall m, u | (m, u) in d2 && m in c2 && m !in Listed(changed)
      ensures (m, u) in db.deliveries && m in db.counters && c2[m].unread == db.counters[m].unread
    {
      UnlistedCount(db, user, conv, low, next, now, burning, m);
    }
  }

  lemma ListedCounters(db: Db, d2: Deliveries, c2: Counters, user: Id, conv: Id, requested: nat, changed: seq<Id>)
    requires CountersOk(db.messages, d2, c2) && Advances(db, user, conv, requested)
    requires ListsChanged(db, user, conv, requested, changed)
    ensures forall m :: m in changed ==> m in c2 && c2[m].unread >= 0
  {
    forall m | m in changed ensures m in c2 && c2[m].unread >= 0 {
      assert m in Listed(changed);
      var all := Recipients(db.messages, d2, m);
      var read := set u | u in all && d2[(m, u)].readAt.Some?;
      assert all == read + (all - read);
    }
  }

  lemma ReceiptStreams(db: Db, user: Id, conv: Id, requested: nat, now: int, burning: bool, changed: seq<Id>)
    requires Inv(db) && Advances(db, user, conv, requested)
    ensures var r := ApplyReceipt(db, user, conv, requested, now, burning, changed).0;
            FeedsOk(r.infos, r.messages, r.deliveries, r.positions, r.history, r.files, r.streams)
  {
    var low, next := db.positions[(conv, user)], NewPosition(db, user, conv, requested);
    var d2 := MarkRead(db.messages, db.deliveries, user, conv, low, next, now, burning);
    var c2 := Rebuild(db.messages, d2, db.counters, conv, low, next);
    var users, body := UserSet(RosterOf(db, conv)), Receipt(conv, user, next, now);
    ReceiptLedger(db, user, conv, requested, now, burning, changed);
    ReceiptFeeds(db.infos, db.messages, db.deliveries, d2, db.positions, db.history, db.files, db.streams, users, user, conv, next, now);
    FeedsEmitted(db.infos, db.messages, d2, db.positions[(conv, user) := next], db.history, db.files, c2,
                 Emit(db.streams, users, body), changed);
  }

  lemma ReceiptOthers(db: Db, user: Id, conv: Id, requested: nat, now: int, burning: bool, changed: seq<Id>)
    requires Advances(db, user, conv, requested) && StatusOk(db.deliveries)
    requires forall k :: k in db.deliveries ==> k.0 in db.messages
    requires MembershipOk(db.users, db.created, db.infos, db.rosters, db.positions, db.history)
    requires SafetyOk(db.deliveries, db.streams, db.applied)
    requires ConversationsCurrent(db.infos, db.rosters, db.streams) && ReceiptsCurrent(db.positions, db.history, db.streams)
    ensures var r := ApplyReceipt(db, user, conv, requested, now, burning, changed).0;
            && SafetyOk(r.deliveries, r.streams, r.applied)
            && ConversationsCurrent(r.infos, r.rosters, r.streams) && ReceiptsCurrent(r.positions, r.history, r.streams)
  {
    var low, next := db.positions[(conv, user)], NewPosition(db, user, conv, requested);
    var d2 := MarkRead(db.messages, db.deliveries, user, conv, low, next, now, burning);
    var c2 := Rebuild(db.messages, d2, db.counters, conv, low, next);
    var users, body := UserSet(RosterOf(db, conv)), Receipt(conv, user, next, now);
    MarkReadMarks(db.messages, db.deliveries, user, conv, low, next, now, burning);
    MembershipAdvance(db, user, conv, next);
    EmitConversations(db.infos, db.rosters, db.streams, users, body);
    ReceiptReaches(db.positions, db.history, db.streams, users, user, conv, next, now);
    MarkedSafety(db.deliveries, d2, db.streams, db.applied);
    EmitSafety(d2, db.streams, db.applied, users, body);
    OthersEmitted(db.infos, db.rosters, db.positions[(conv, user) := next], db.history, d2, db.applied, c2,
                  Emit(db.streams, users, body), changed);
  }

  lemma ReceiptCounts(db: Db, user: Id, conv: Id, requested: nat, now: int, burning: bool, changed: seq<Id>)
    requires Inv(db) && Advances(db, user, conv, requested) && ListsChanged(db, user, conv, requested, changed)
    ensures var r := ApplyReceipt(db, user, conv, requested, now, burning, changed).0;
            CountsCurrent(r.deliveries, r.counters, r.streams)
  {
    var low, next := db.positions[(conv, user)], NewPosition(db, user, conv, requested);
    var d2 := MarkRead(db.messages, db.deliveries, user, conv, low, next, now, burning);
    var c2 := Rebuild(db.messages, d2, db.counters, conv, low, next);
    var users, body := UserSet(RosterOf(db, conv)), Receipt(conv, user, next, now);
    ReceiptLedger(db, user, conv, requested, now, burning, changed);
    CountsLag(db, user, conv, requested, now, burning, changed);
    LagKept(d2, c2, db.streams, users, body, Listed(changed));
    ListedCounters(db, d2, c2, user, conv, requested, changed);
    CountsEmitted(d2, c2, Emit(db.streams, users, body), changed);
  }

  lemma LagKept(deliveries: Deliveries, counters: Counters, streams: Streams, users: set<Id>, body: Body, waiting: set<Id>)
    requires CountsExcept(deliveries, counters, streams, waiting) && body.Receipt?
    ensures CountsExcept(deliveries, counters, Emit(streams, users, body), waiting)
  {
    forall m, u ensures Latest(StreamOf(Emit(streams, users, body), u), CountKey(m)) == Latest(StreamOf(streams, u), CountKey(m)) {
      EmitAt(streams, users, body, u);
      LatestAppend(StreamOf(streams, u), body, CountKey(m));
    }
  }

  lemma ReceiptKeeps(db: Db, user: Id, conv: Id, requested: nat, now: int, burning: bool, changed: seq<Id>)
    requires Inv(db) && ListsChanged(db, user, conv, requested, changed)
    ensures Inv(ApplyReceipt(db, user, conv, requested, now, burning, changed).0)
  {
    if Advances(db, user, conv, requested) {
      ReceiptLedger(db, user, conv, requested, now, burning, changed);
      MembershipAdvance(db, user, conv, NewPosition(db, user, conv, requested));
      ReceiptStreams(db, user, conv, requested, now, burning, changed);
      ReceiptOthers(db, user, conv, requested, now, burning, changed);
      ReceiptCounts(db, user, conv, requested, now, burning, changed);
    }
  }
}
