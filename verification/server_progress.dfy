/** What no operation ever takes back: read positions, delivery statuses, burn times, recall flags,
    applied cursors, file versions, and the entries of a stream up to redaction. */
module ServerProgress {
  import opened SyncEvents
  import opened ServerState
  import opened ServerStreams
  import opened ServerInvariants
  import opened ServerMembership
  import opened ServerReceipts
  import opened ServerBurn
  import opened ServerConfirm

  function StatusRank(s: Status): nat {
    match s case Sent => 0 case Delivered => 1 case Read => 2
  }

  predicate Keeps<T(==)>(a: Option<T>, b: Option<T>) { a.Some? ==> b == a }

  /** A later version of the same row. */
  predicate RowRises(a: DeliveryRow, b: DeliveryRow) {
    && b.conv == a.conv && b.number == a.number && b.sentAt == a.sentAt
    && StatusRank(a.status) <= StatusRank(b.status)
    && Keeps(a.readAt, b.readAt) && Keeps(a.burnAt, b.burnAt) && Keeps(a.burnedAt, b.burnedAt)
  }

  ghost predicate RowsRise(a: Deliveries, b: Deliveries) {
    forall k :: k in a ==> k in b && RowRises(a[k], b[k])
  }

  predicate MsgRises(a: Msg, b: Msg) {
    && b == a.(recalled := b.recalled, content := b.content, purged := b.purged)
    && (a.recalled ==> b.recalled) && (a.purged ==> b.purged)
    && (b.content == a.content || (b.purged && b.content == PurgedContent(a.isFile, a.content)))
  }

  ghost predicate MessagesRise(a: Msgs, b: Msgs) {
    forall m :: m in a ==> m in b && MsgRises(a[m], b[m])
  }

  /** A stored entry and what it may have become since. */
  predicate Worn(a: Body, b: Body) {
    b == a || (a.Message? && b == RedactBody(a, a.id))
  }

  lemma WornTrans(a: Body, b: Body, c: Body)
    requires Worn(a, b) && Worn(b, c)
    ensures Worn(a, c)
  {
    if a.Message? { PurgedIdempotent(a.isFile, a.text); }
  }

  ghost predicate StreamAges(s: seq<Body>, t: seq<Body>) {
    |s| <= |t| && forall i :: 0 <= i < |s| ==> Worn(s[i], t[i])
  }

  ghost predicate StreamsAge(a: Streams, b: Streams) {
    forall u :: StreamAges(StreamOf(a, u), StreamOf(b, u))
  }

  ghost predicate PositionsRise(a: Db, b: Db) {
    forall c, u :: Position(a.positions, a.history, c, u) <= Position(b.positions, b.history, c, u)
  }

  ghost predicate ValuesRise<K(!new)>(a: map<K, nat>, b: map<K, nat>) {
    forall k :: k in a ==> k in b && a[k] <= b[k]
  }

  ghost predicate Progresses(a: Db, b: Db) {
    && PositionsRise(a, b) && RowsRise(a.deliveries, b.deliveries) && MessagesRise(a.messages, b.messages)
    && StreamsAge(a.streams, b.streams) && ValuesRise(a.applied, b.applied) && ValuesRise(a.files, b.files)
    && a.infos.Keys <= b.infos.Keys
  }

  lemma StreamsTrans(a: Streams, b: Streams, c: Streams)
    requires StreamsAge(a, b) && StreamsAge(b, c)
    ensures StreamsAge(a, c)
  {
    forall u ensures StreamAges(StreamOf(a, u), StreamOf(c, u)) {
      assert StreamAges(StreamOf(a, u), StreamOf(b, u)) && StreamAges(StreamOf(b, u), StreamOf(c, u));
      forall i | 0 <= i < |StreamOf(a, u)| ensures Worn(StreamOf(a, u)[i], StreamOf(c, u)[i]) {
        WornTrans(StreamOf(a, u)[i], StreamOf(b, u)[i], StreamOf(c, u)[i]);
      }
    }
  }

  lemma MessagesTrans(a: Msgs, b: Msgs, c: Msgs)
    requires MessagesRise(a, b) && MessagesRise(b, c)
    ensures MessagesRise(a, c)
  {
    forall m | m in a ensures m in c && MsgRises(a[m], c[m]) {
      assert m in b && MsgRises(a[m], b[m]) && MsgRises(b[m], c[m]);
      PurgedIdempotent(a[m].isFile, a[m].content);
    }
  }

  lemma RowsTrans(a: Deliveries, b: Deliveries, c: Deliveries)
    requires RowsRise(a, b) && RowsRise(b, c)
    ensures RowsRise(a, c)
  {
    forall k | k in a ensures k in c && RowRises(a[k], c[k]) {
      assert k in b && RowRises(a[k], b[k]) && RowRises(b[k], c[k]);
    }
  }

  lemma PositionsTrans(a: Db, b: Db, c: Db)
    requires PositionsRise(a, b) && PositionsRise(b, c)
    ensures PositionsRise(a, c)
  {
    forall v, u ensures Position(a.positions, a.history, v, u) <= Position(c.positions, c.history, v, u) {
      assert Position(a.positions, a.history, v, u) <= Position(b.positions, b.history, v, u);
    }
  }

  lemma ProgressesTrans(a: Db, b: Db, c: Db)
    requires Progresses(a, b) && Progresses(b, c)
    ensures Progresses(a, c)
  {
    PositionsTrans(a, b, c);
    RowsTrans(a.deliveries, b.deliveries, c.deliveries);
    MessagesTrans(a.messages, b.messages, c.messages);
    StreamsTrans(a.streams, b.streams, c.streams);
  }

  lemma ProgressesSelf(db: Db)
    ensures Progresses(db, db)
  {
  }

  lemma ExtendsAges(a: Streams, b: Streams)
    requires Extends(a, b)
    ensures StreamsAge(a, b)
  {
    forall u ensures StreamAges(StreamOf(a, u), StreamOf(b, u)) { assert StreamOf(a, u) <= StreamOf(b, u); }
  }

  lemma EmitAges(streams: Streams, users: set<Id>, b: Body)
    ensures StreamsAge(streams, Emit(streams, users, b))
  {
    EmitExtends(streams, users, b);
    ExtendsAges(streams, Emit(streams, users, b));
  }

  lemma RedactAges(streams: Streams, m: Id, users: set<Id>)
    ensures StreamsAge(streams, Redact(streams, m, users))
  {
    forall u ensures StreamAges(StreamOf(streams, u), StreamOf(Redact(streams, m, users), u)) {
      RedactAt(streams, m, users, u);
    }
  }

  // ---------- one lemma per kind of operation ----------

  lemma AnnouncedProgress(a: Db, b: Db)
    requires Announced(a, b)
    ensures Progresses(a, b)
  {
    ExtendsAges(a.streams, b.streams);
    forall c, u ensures Position(a.positions, a.history, c, u) <= Position(b.positions, b.history, c, u) {
      assert Position(a.positions, a.history, c, u) == Position(b.positions, b.history, c, u);
    }
  }

  lemma AppendRows(db: Db, m: Id, row: Msg, now: int)
    requires m !in db.messages && forall k :: k in db.deliveries ==> k.0 in db.messages
    ensures RowsRise(db.deliveries, PostRows(db.deliveries, m, UserSet(RosterOf(db, row.conv)), row, now))
  {
  }

  lemma AppendProgress(db: Db, m: Id, draft: Msg, clientMsgId: Id, now: int)
    requires m !in db.messages && forall k :: k in db.deliveries ==> k.0 in db.messages
    ensures Progresses(db, AppendMessage(db, m, draft, clientMsgId, now))
  {
    var row := Numbered(db, draft, now);
    AppendRows(db, m, row, now);
    EmitAges(db.streams, UserSet(RosterOf(db, row.conv)), MessageBody(db, m, row, clientMsgId));
  }

  lemma MarkRows(messages: Msgs, d: Deliveries, user: Id, conv: Id, low: nat, high: nat, now: int, burning: bool)
    ensures RowsRise(d, MarkRead(messages, d, user, conv, low, high, now, burning))
  {
  }

  lemma {:induction false} CountsAge(streams: Streams, deliveries: Deliveries, counters: Counters, changed: seq<Id>)
    ensures StreamsAge(streams, EmitCounts(streams, deliveries, counters, changed))
    decreases changed
  {
    if changed != [] && changed[0] in counters {
      var next := Emit(streams, Holders(deliveries, changed[0]), CountBody(counters, changed[0]));
      EmitAges(streams, Holders(deliveries, changed[0]), CountBody(counters, changed[0]));
      CountsAge(next, deliveries, counters, changed[1..]);
      StreamsTrans(streams, next, EmitCounts(streams, deliveries, counters, changed));
    } else if changed != [] {
      CountsAge(streams, deliveries, counters, changed[1..]);
    }
  }

  lemma ReceiptOutcome(db: Db, user: Id, conv: Id, requested: nat, now: int, burning: bool, changed: seq<Id>)
    ensures var r := ApplyReceipt(db, user, conv, requested, now, burning, changed).0;
            if !Advances(db, user, conv, requested) then r == db else
              var low, next := db.positions[(conv, user)], NewPosition(db, user, conv, requested);
              && r == db.(positions := r.positions, deliveries := r.deliveries, counters := r.counters, streams := r.streams)
              && r.positions == db.positions[(conv, user) := next]
              && r.deliveries == MarkRead(db.messages, db.deliveries, user, conv, low, next, now, burning)
              && r.streams == EmitCounts(Emit(db.streams, UserSet(RosterOf(db, conv)), Receipt(conv, user, next, now)),
                                         r.deliveries, r.counters, changed)
  {
  }

  lemma ReceiptProgress(db: Db, user: Id, conv: Id, requested: nat, now: int, burning: bool, changed: seq<Id>)
    ensures Progresses(db, ApplyReceipt(db, user, conv, requested, now, burning, changed).0)
  {
    var r := ApplyReceipt(db, user, conv, requested, now, burning, changed).0;
    ReceiptOutcome(db, user, conv, requested, now, burning, changed);
    if Advances(db, user, conv, requested) {
      var low, next := db.positions[(conv, user)], NewPosition(db, user, conv, requested);
      var users, body := UserSet(RosterOf(db, conv)), Receipt(conv, user, next, now);
      MarkRows(db.messages, db.deliveries, user, conv, low, next, now, burning);
      EmitAges(db.streams, users, body);
      CountsAge(Emit(db.streams, users, body), r.deliveries, r.counters, changed);
      StreamsTrans(db.streams, Emit(db.streams, users, body), r.streams);
    } else {
      ProgressesSelf(db);
    }
  }

  lemma RecallProgress(db: Db, m: Id, users: set<Id>, body: Body, now: int)
    requires m in db.messages
    ensures Progresses(db, Recall(db, m, users, body, now))
  {
    var faded := Redact(db.streams, m, db.streams.Keys);
    RedactAges(db.streams, m, db.streams.Keys);
    EmitAges(faded, users, body);
    StreamsTrans(db.streams, faded, Emit(faded, users, body));
  }

  lemma BurnStepProgress(db: Db, k: (Id, Id), now: int)
    ensures Progresses(db, BurnStep(db, k, now))
  {
    if IsDue(db, k, now) {
      var grown := Emit(db.streams, {k.1}, EndBody(k.0, db.messages[k.0].conv, SYSTEM_BURN, now));
      EmitAges(db.streams, {k.1}, EndBody(k.0, db.messages[k.0].conv, SYSTEM_BURN, now));
      RedactAges(grown, k.0, {k.1});
      StreamsTrans(db.streams, grown, Redact(grown, k.0, {k.1}));
    }
  }

  lemma {:induction false} BurnRowsProgress(db: Db, rows: seq<(Id, Id)>, now: int)
    ensures Progresses(db, BurnRows(db, rows, now))
    decreases rows
  {
    if rows == [] {
      ProgressesSelf(db);
    } else {
      BurnStepProgress(db, rows[0], now);
      BurnRowsProgress(BurnStep(db, rows[0], now), rows[1..], now);
      ProgressesTrans(db, BurnStep(db, rows[0], now), BurnRows(db, rows, now));
    }
  }

  lemma SweepProgress(db: Db, rows: seq<(Id, Id)>, now: int)
    ensures Progresses(db, BurnSweep(db, rows, now))
  {
    BurnRowsProgress(db, rows, now);
    ProgressesTrans(db, BurnRows(db, rows, now), BurnSweep(db, rows, now));
  }

  lemma PurgeOneProgress(db: Db, m: Id)
    ensures Progresses(db, PurgeOne(db, m))
  {
    RedactAges(db.streams, m, db.streams.Keys);
    ProgressesSelf(db);
  }

  lemma {:induction false} PurgeProgress(db: Db, rows: seq<Id>)
    ensures Progresses(db, PurgeSweep(db, rows))
    decreases rows
  {
    if rows == [] {
      ProgressesSelf(db);
    } else {
      PurgeOneProgress(db, rows[0]);
      PurgeProgress(PurgeOne(db, rows[0]), rows[1..]);
      ProgressesTrans(db, PurgeOne(db, rows[0]), PurgeSweep(db, rows));
    }
  }

  lemma ConfirmProgress(db: Db, user: Id, device: Id, cursor: nat, now: int, listed: seq<Id>)
    ensures Progresses(db, ConfirmApplied(db, user, device, cursor, now, listed).0)
  {
    ConfirmOutcome(db, user, device, cursor, now, listed);
    if Confirms(db, user, device, cursor) {
      var d := DeliverAll(db, user, listed, now);
      DeliverAllProgress(db, user, listed, now);
      ExtendsAges(db.streams, d.streams);
      RaisedRise(db.deliveries, d.deliveries);
    } else {
      ProgressesSelf(db);
    }
  }

  lemma RaisedRise(a: Deliveries, b: Deliveries)
    requires Raised(a, b)
    ensures RowsRise(a, b)
  {
    forall k | k in a ensures k in b && RowRises(a[k], b[k]) {
    }
  }

  lemma FileProgress(db: Db, file: Id, conv: Id, users: set<Id>, transferred: nat, completed: bool, now: int)
    ensures Progresses(db, UpdateFile(db, file, conv, users, transferred, completed, now))
  {
    var version := if file in db.files then db.files[file] + 1 else 1;
    EmitAges(db.streams, users, File(file, conv, transferred, completed, version, now));
  }
}
