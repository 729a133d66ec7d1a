/** confirm_applied and file updates: what a device has confirmed is never left 'sent'. */
module ServerConfirm {
  import opened SyncEvents
  import opened ServerState
  import opened ServerStreams
  import opened ServerInvariants
  import opened ServerBurn

  /** d2 is d1 with some rows moved from 'sent' to 'delivered'. */
  ghost predicate Raised(d1: Deliveries, d2: Deliveries) {
    && d1.Keys == d2.Keys
    && (forall k :: k in d1 ==> d2[k] == d1[k].(status := d2[k].status, deliveredAt := d2[k].deliveredAt))
    && (forall k :: k in d1 && d2[k] != d1[k] ==> d1[k].status == Sent && d2[k].status == Delivered)
  }

  lemma RaisedCount(messages: Msgs, d1: Deliveries, d2: Deliveries, m: Id)
    requires Raised(d1, d2) && m in messages
    ensures CountRow(messages, d2, m) == CountRow(messages, d1, m) && Holders(d2, m) == Holders(d1, m)
  {
    HoldersIff(d1, m);
    HoldersIff(d2, m);
    RecipientsIff(messages, d1, m);
    RecipientsIff(messages, d2, m);
    assert forall u :: (m, u) in d1 <==> (m, u) in d2;
    assert Holders(d2, m) == Holders(d1, m);
    var all := Recipients(messages, d1, m);
    assert Recipients(messages, d2, m) == all;
    assert (set u | u in all && d2[(m, u)].readAt.Some?) == (set u | u in all && d1[(m, u)].readAt.Some?);
  }

  lemma RaisedRows(infos: Infos, messages: Msgs, d1: Deliveries, d2: Deliveries)
    requires Raised(d1, d2) && RowsOk(infos, messages, d1)
    ensures RowsOk(infos, messages, d2)
  {
    forall m | m in messages ensures Holders(d2, m) == Holders(d1, m) { RaisedCount(messages, d1, d2, m); }
  }

  lemma RaisedReads(messages: Msgs, d1: Deliveries, d2: Deliveries, positions: Positions, history: Positions)
    requires Raised(d1, d2) && ReadsOk(messages, d1, positions, history)
    ensures ReadsOk(messages, d2, positions, history)
  {
    assert forall k :: k in d1 ==> d2[k].readAt == d1[k].readAt;
  }

  lemma RaisedCounters(messages: Msgs, d1: Deliveries, d2: Deliveries, counters: Counters)
    requires Raised(d1, d2) && CountersOk(messages, d1, counters)
    ensures CountersOk(messages, d2, counters)
  {
    forall m | m in messages ensures CountRow(messages, d2, m) == CountRow(messages, d1, m) {
      RaisedCount(messages, d1, d2, m);
    }
  }

  lemma RaisedLedger(infos: Infos, messages: Msgs, d1: Deliveries, d2: Deliveries, counters: Counters,
                     positions: Positions, history: Positions)
    requires Raised(d1, d2) && LedgerOk(infos, messages, d1, counters, positions, history)
    ensures LedgerOk(infos, messages, d2, counters, positions, history)
  {
    RaisedRows(infos, messages, d1, d2);
    RaisedReads(messages, d1, d2, positions, history);
    RaisedCounters(messages, d1, d2, counters);
  }

  lemma RaisedFlags(messages: Msgs, d1: Deliveries, d2: Deliveries)
    requires Raised(d1, d2) && FlagsOk(messages, d1)
    ensures FlagsOk(messages, d2)
  {
    forall m ensures AllBurned(d1, m) <==> AllBurned(d2, m) {
      assert forall k :: k in d1 ==> d1[k].burnedAt == d2[k].burnedAt;
    }
  }

  /** An event that says nothing about messages, counts, receipts, conversations or files. */
  predicate Quiet(b: Body) {
    b.Delivery?
  }

  lemma QuietFeeds(infos: Infos, messages: Msgs, d1: Deliveries, d2: Deliveries, positions: Positions, history: Positions,
                   files: map<Id, nat>, streams: Streams, users: set<Id>, b: Body)
    requires FeedsOk(infos, messages, d1, positions, history, files, streams) && d1.Keys == d2.Keys && Quiet(b)
    ensures FeedsOk(infos, messages, d2, positions, history, files, Emit(streams, users, b))
  {
    EmitStreams(streams, users, b);
    forall u, i | 0 <= i < |StreamOf(streams, u)|
      ensures EntryOk(infos, messages, d2, positions, history, files, u, StreamOf(streams, u)[i])
    {
      assert EntryOk(infos, messages, d1, positions, history, files, u, StreamOf(streams, u)[i]);
    }
    EmitEntries(infos, messages, d2, positions, history, files, streams, users, b);
    EmitCarried(d2, streams, users, b);
  }

  lemma RaisedSafety(d1: Deliveries, d2: Deliveries, streams: Streams, applied: map<(Id, Id), nat>)
    requires Raised(d1, d2) && SafetyOk(d1, streams, applied)
    ensures SafetyOk(d2, streams, applied)
  {
  }

  lemma RowRaises(db: Db, k: (Id, Id), now: int)
    requires Undelivered(db, k)
    ensures Raised(db.deliveries, DeliverRow(db, k, now).deliveries)
    ensures DeliverRow(db, k, now).deliveries[k].status == Delivered
  {
  }

  lemma DeliverFeeds(db: Db, k: (Id, Id), now: int)
    requires FeedsOk(db.infos, db.messages, db.deliveries, db.positions, db.history, db.files, db.streams) && Undelivered(db, k)
    ensures var r := DeliverRow(db, k, now); FeedsOk(r.infos, r.messages, r.deliveries, r.positions, r.history, r.files, r.streams)
  {
    RowRaises(db, k, now);
    QuietFeeds(db.infos, db.messages, db.deliveries, DeliverRow(db, k, now).deliveries, db.positions, db.history, db.files,
               db.streams, {db.messages[k.0].sender, k.1}, DeliveredBody(k, db.deliveries[k], now));
  }

  lemma DeliverCurrent(db: Db, k: (Id, Id), now: int)
    requires CurrentOk(db.infos, db.rosters, db.deliveries, db.counters, db.positions, db.history, db.streams) && Undelivered(db, k)
    ensures var r := DeliverRow(db, k, now); CurrentOk(r.infos, r.rosters, r.deliveries, r.counters, r.positions, r.history, r.streams)
  {
    var d2 := DeliverRow(db, k, now).deliveries;
    RowRaises(db, k, now);
    KeysCurrent(db, d2);
    QuietCurrent(db.infos, db.rosters, d2, db.counters, db.positions, db.history, db.streams,
                 {db.messages[k.0].sender, k.1}, DeliveredBody(k, db.deliveries[k], now));
  }

  lemma DeliverSafety(db: Db, k: (Id, Id), now: int)
    requires SafetyOk(db.deliveries, db.streams, db.applied) && Undelivered(db, k)
    ensures var r := DeliverRow(db, k, now); SafetyOk(r.deliveries, r.streams, r.applied)
  {
    var d2 := DeliverRow(db, k, now).deliveries;
    RowRaises(db, k, now);
    RaisedSafety(db.deliveries, d2, db.streams, db.applied);
    EmitSafety(d2, db.streams, db.applied, {db.messages[k.0].sender, k.1}, DeliveredBody(k, db.deliveries[k], now));
  }

  lemma DeliverTables(db: Db, k: (Id, Id), now: int)
    requires LedgerOk(db.infos, db.messages, db.deliveries, db.counters, db.positions, db.history)
    requires FlagsOk(db.messages, db.deliveries) && Undelivered(db, k)
    ensures var r := DeliverRow(db, k, now);
            LedgerOk(r.infos, r.messages, r.deliveries, r.counters, r.positions, r.history) && FlagsOk(r.messages, r.deliveries)
  {
    var d2 := DeliverRow(db, k, now).deliveries;
    RowRaises(db, k, now);
    RaisedLedger(db.infos, db.messages, db.deliveries, d2, db.counters, db.positions, db.history);
    RaisedFlags(db.messages, db.deliveries, d2);
  }

  lemma DeliverKeeps(db: Db, user: Id, m: Id, now: int)
    requires Inv(db)
    ensures Inv(DeliverOne(db, user, m, now))
  {
    if Undelivered(db, (m, user)) {
      DeliverTables(db, (m, user), now);
      DeliverFeeds(db, (m, user), now);
      DeliverCurrent(db, (m, user), now);
      DeliverSafety(db, (m, user), now);
    }
  }

  lemma {:induction false} DeliverAllKeeps(db: Db, user: Id, ms: seq<Id>, now: int)
    requires Inv(db)
    ensures Inv(DeliverAll(db, user, ms, now))
    decreases ms
  {
    if ms != [] {
      DeliverKeeps(db, user, ms[0], now);
      DeliverAllKeeps(DeliverOne(db, user, ms[0], now), user, ms[1..], now);
    }
  }

  /** What one delivery does to the rows and streams. */
  ghost predicate Progress(a: Db, b: Db) {
    b == a.(deliveries := b.deliveries, streams := b.streams) && Raised(a.deliveries, b.deliveries) && Extends(a.streams, b.streams)
  }

  lemma DeliverProgress(db: Db, user: Id, m: Id, now: int)
    ensures Progress(db, DeliverOne(db, user, m, now))
  {
    if Undelivered(db, (m, user)) {
      RowRaises(db, (m, user), now);
      EmitExtends(db.streams, {db.messages[m].sender, user}, DeliveredBody((m, user), db.deliveries[(m, user)], now));
    }
  }

  lemma ProgressTrans(a: Db, b: Db, c: Db)
    requires Progress(a, b) && Progress(b, c)
    ensures Progress(a, c)
  {
    forall u ensures StreamOf(a.streams, u) <= StreamOf(c.streams, u) {
      assert StreamOf(a.streams, u) <= StreamOf(b.streams, u) <= StreamOf(c.streams, u);
    }
  }

  lemma {:induction false} DeliverAllProgress(db: Db, user: Id, ms: seq<Id>, now: int)
    ensures Progress(db, DeliverAll(db, user, ms, now))
    decreases ms
  {
    if ms != [] {
      var one := DeliverOne(db, user, ms[0], now);
      DeliverProgress(db, user, ms[0], now);
      DeliverAllProgress(one, user, ms[1..], now);
      ProgressTrans(db, one, DeliverAll(db, user, ms, now));
    }
  }

  /** A listed row is no longer 'sent' afterwards. */
  lemma {:induction false} DeliverAllReaches(db: Db, user: Id, ms: seq<Id>, now: int, m: Id)
    requires m in ms && (m, user) in db.deliveries && m in db.messages
    ensures var r := DeliverAll(db, user, ms, now); (m, user) in r.deliveries && r.deliveries[(m, user)].status != Sent
    decreases ms
  {
    var one := DeliverOne(db, user, ms[0], now);
    DeliverProgress(db, user, ms[0], now);
    DeliverAllProgress(one, user, ms[1..], now);
    if ms[0] != m { DeliverAllReaches(one, user, ms[1..], now, m); }
  }

  function Applied(db: Db, user: Id, device: Id): nat {
    if (user, device) in db.applied then db.applied[(user, device)] else 0
  }

  /** The confirmation takes effect. */
  predicate Confirms(db: Db, user: Id, device: Id, cursor: nat) {
    device != "" && Applied(db, user, device) < cursor <= |StreamOf(db.streams, user)|
  }

  /** The query result: exactly the newly covered rows, in any order. */
  ghost predicate ListsDelivered(db: Db, user: Id, device: Id, cursor: nat, listed: seq<Id>) {
    Confirms(db, user, device, cursor) ==>
      Listed(listed) == NewlyDelivered(db, user, Applied(db, user, device), cursor)
  }

  /** Covering one more entry: it was covered already, or its row is listed, or it was not 'sent'. */
  lemma CoveredEntry(db: Db, user: Id, device: Id, cursor: nat, listed: seq<Id>, i: nat)
    requires SafetyOk(db.deliveries, db.streams, db.applied)
    requires Confirms(db, user, device, cursor) && ListsDelivered(db, user, device, cursor, listed) && i < cursor
    ensures var b := StreamOf(db.streams, user)[i];
            b.Message? && (b.id, user) in db.deliveries && db.deliveries[(b.id, user)].status == Sent ==> b.id in listed
  {
    var b := StreamOf(db.streams, user)[i];
    if b.Message? && (b.id, user) in db.deliveries && db.deliveries[(b.id, user)].status == Sent {
      var low := Applied(db, user, device);
      AlreadyApplied(db, user, device, i);
      assert CarriesMessage(StreamOf(db.streams, user), low, cursor, (b.id, user).0);
      assert b.id in NewlyDelivered(db, user, low, cursor);
      assert b.id in Listed(listed);
    }
  }

  lemma AlreadyApplied(db: Db, user: Id, device: Id, i: nat)
    requires SafetyOk(db.deliveries, db.streams, db.applied) && i < |StreamOf(db.streams, user)|
    ensures var b := StreamOf(db.streams, user)[i];
            b.Message? && (b.id, user) in db.deliveries && db.deliveries[(b.id, user)].status == Sent ==> Applied(db, user, device) <= i
  {
    if (user, device) in db.applied { assert (user, device).0 == user; }
  }

  lemma StillRaised(db: Db, user: Id, listed: seq<Id>, now: int, k: (Id, Id))
    requires k in db.deliveries && k.0 in db.messages && k.1 == user && (db.deliveries[k].status == Sent ==> k.0 in listed)
    ensures var r := DeliverAll(db, user, listed, now); k in r.deliveries && r.deliveries[k].status != Sent
  {
    DeliverAllProgress(db, user, listed, now);
    if k.0 in listed { DeliverAllReaches(db, user, listed, now, k.0); }
  }

  lemma CoveredAfter(db: Db, user: Id, device: Id, cursor: nat, listed: seq<Id>, now: int, i: nat)
    requires SafetyOk(db.deliveries, db.streams, db.applied)
    requires forall k :: k in db.deliveries ==> k.0 in db.messages
    requires Confirms(db, user, device, cursor) && ListsDelivered(db, user, device, cursor, listed) && i < cursor
    ensures var r, b := DeliverAll(db, user, listed, now), StreamOf(db.streams, user)[i];
            b.Message? && (b.id, user) in db.deliveries ==>
              (b.id, user) in r.deliveries && r.deliveries[(b.id, user)].status != Sent
  {
    var b := StreamOf(db.streams, user)[i];
    CoveredEntry(db, user, device, cursor, listed, i);
    if b.Message? && (b.id, user) in db.deliveries { StillRaised(db, user, listed, now, (b.id, user)); }
  }

  lemma ConfirmedExtend(deliveries: Deliveries, streams: Streams, applied: map<(Id, Id), nat>, user: Id, device: Id, cursor: nat)
    requires ConfirmedOk(deliveries, streams, applied) && cursor <= |StreamOf(streams, user)|
    requires forall i :: 0 <= i < cursor && StreamOf(streams, user)[i].Message? && (StreamOf(streams, user)[i].id, user) in deliveries
               ==> deliveries[(StreamOf(streams, user)[i].id, user)].status != Sent
    ensures ConfirmedOk(deliveries, streams, applied[(user, device) := cursor])
  {
  }

  lemma ConfirmSafety(db: Db, user: Id, device: Id, cursor: nat, now: int, listed: seq<Id>)
    requires SafetyOk(db.deliveries, db.streams, db.applied)
    requires forall k :: k in db.deliveries ==> k.0 in db.messages
    requires Confirms(db, user, device, cursor) && ListsDelivered(db, user, device, cursor, listed)
    requires var r := DeliverAll(db, user, listed, now); ConfirmedOk(r.deliveries, r.streams, db.applied)
    ensures var r := DeliverAll(db, user, listed, now);
            ConfirmedOk(r.deliveries, r.streams, db.applied[(user, device) := cursor])
  {
    var r := DeliverAll(db, user, listed, now);
    DeliverAllProgress(db, user, listed, now);
    var s, t := StreamOf(db.streams, user), StreamOf(r.streams, user);
    assert s <= t;
    forall i: nat | i < cursor && t[i].Message? && (t[i].id, user) in r.deliveries
      ensures r.deliveries[(t[i].id, user)].status != Sent
    {
      CoveredAfter(db, user, device, cursor, listed, now, i);
    }
    ConfirmedExtend(r.deliveries, r.streams, db.applied, user, device, cursor);
  }

  lemma ConfirmOutcome(db: Db, user: Id, device: Id, cursor: nat, now: int, listed: seq<Id>)
    ensures var r := ConfirmApplied(db, user, device, cursor, now, listed);
            var d := DeliverAll(db, user, listed, now);
            if Confirms(db, user, device, cursor)
            then r.0 == d.(applied := db.applied[(user, device) := cursor]) && r.1 == Some(true)
            else r.0 == db && r.1 != Some(true)
  {
    DeliverAllProgress(db, user, listed, now);
  }

  lemma ConfirmKeeps(db: Db, user: Id, device: Id, cursor: nat, now: int, listed: seq<Id>)
    requires Inv(db) && ListsDelivered(db, user, device, cursor, listed)
    ensures Inv(ConfirmApplied(db, user, device, cursor, now, listed).0)
  {
    ConfirmOutcome(db, user, device, cursor, now, listed);
    if Confirms(db, user, device, cursor) {
      DeliverAllKeeps(db, user, listed, now);
      DeliverAllProgress(db, user, listed, now);
      RowMessages(db);
      ConfirmSafety(db, user, device, cursor, now, listed);
    }
  }

  lemma RowMessages(db: Db)
    requires LedgerOk(db.infos, db.messages, db.deliveries, db.counters, db.positions, db.history)
    ensures forall k :: k in db.deliveries ==> k.0 in db.messages
  {
  }

  /** A row becomes 'delivered' only when the confirmed prefix of its user's stream holds the message. */
  lemma OnlyCovered(db: Db, user: Id, device: Id, cursor: nat, now: int, listed: seq<Id>, k: (Id, Id))
    requires ListsDelivered(db, user, device, cursor, listed) && k in db.deliveries
    ensures var r := ConfirmApplied(db, user, device, cursor, now, listed).0;
            && k in r.deliveries
            && (r.deliveries[k] != db.deliveries[k] ==>
                  && k.1 == user && db.deliveries[k].status == Sent && r.deliveries[k].status == Delivered
                  && Applied(r, user, device) == cursor <= |StreamOf(db.streams, user)|
                  && CarriesMessage(StreamOf(db.streams, user), 0, cursor, k.0))
  {
    ConfirmOutcome(db, user, device, cursor, now, listed);
    if Confirms(db, user, device, cursor) {
      DeliverAllProgress(db, user, listed, now);
      DeliverAllOnly(db, user, listed, now, k);
      if k.0 in listed { ListedCovered(db, user, device, cursor, listed, k.0); }
    }
  }

  lemma ListedCovered(db: Db, user: Id, device: Id, cursor: nat, listed: seq<Id>, m: Id)
    requires Confirms(db, user, device, cursor) && ListsDelivered(db, user, device, cursor, listed) && m in listed
    ensures CarriesMessage(StreamOf(db.streams, user), 0, cursor, m)
  {
    var low := Applied(db, user, device);
    assert m in Listed(listed);
    assert m in NewlyDelivered(db, user, low, cursor);
    var x :| x in db.deliveries && x.1 == user && x.0 == m && CarriesMessage(StreamOf(db.streams, user), low, cursor, x.0);
  }

  lemma {:induction false} DeliverAllOnly(db: Db, user: Id, ms: seq<Id>, now: int, k: (Id, Id))
    requires k in db.deliveries
    ensures var r := DeliverAll(db, user, ms, now);
            k in r.deliveries && (r.deliveries[k] != db.deliveries[k] ==> k.1 == user && k.0 in ms)
    decreases ms
  {
    if ms != [] { DeliverAllOnly(DeliverOne(db, user, ms[0], now), user, ms[1..], now, k); }
  }

  // ---------- file events ----------

  lemma FileFeeds(db: Db, file: Id, users: set<Id>, b: Body)
    requires FeedsOk(db.infos, db.messages, db.deliveries, db.positions, db.history, db.files, db.streams)
    requires b.File? && b.id == file && file != "" && (file in db.files ==> db.files[file] < b.version)
    ensures FeedsOk(db.infos, db.messages, db.deliveries, db.positions, db.history, db.files[file := b.version],
                    Emit(db.streams, users, b))
  {
    var f2 := db.files[file := b.version];
    forall u, i | 0 <= i < |StreamOf(db.streams, u)|
      ensures Ordered(StreamOf(db.streams, u)[i], b)
      ensures EntryOk(db.infos, db.messages, db.deliveries, db.positions, db.history, f2, u, StreamOf(db.streams, u)[i])
    {
      assert EntryOk(db.infos, db.messages, db.deliveries, db.positions, db.history, db.files, u, StreamOf(db.streams, u)[i]);
    }
    EmitStreams(db.streams, users, b);
    EmitEntries(db.infos, db.messages, db.deliveries, db.positions, db.history, f2, db.streams, users, b);
    EmitCarried(db.deliveries, db.streams, users, b);
  }

  function NextVersion(db: Db, file: Id): nat { if file in db.files then db.files[file] + 1 else 1 }

  lemma FileOutcome(db: Db, file: Id, conv: Id, users: set<Id>, transferred: nat, completed: bool, now: int)
    ensures var b := File(file, conv, transferred, completed, NextVersion(db, file), now);
            UpdateFile(db, file, conv, users, transferred, completed, now)
            == db.(files := db.files[file := b.version], streams := Emit(db.streams, users, b))
  {
  }

  /** Every file event carries a strictly larger version than all earlier ones of its file. */
  lemma FileKeeps(db: Db, file: Id, conv: Id, users: set<Id>, transferred: nat, completed: bool, now: int)
    requires Inv(db) && file != ""
    ensures Inv(UpdateFile(db, file, conv, users, transferred, completed, now))
  {
    var b := File(file, conv, transferred, completed, NextVersion(db, file), now);
    FileOutcome(db, file, conv, users, transferred, completed, now);
    FileFeeds(db, file, users, b);
    QuietCurrent(db.infos, db.rosters, db.deliveries, db.counters, db.positions, db.history, db.streams, users, b);
    EmitSafety(db.deliveries, db.streams, db.applied, users, b);
  }
}
