/** The repositories as one object over the tables: each method leaves exactly the state its
    specification in ServerState names. */
module ServerRepos {
  import opened SyncEvents
  import opened ServerState
  import opened ServerStreams
  import opened ServerInvariants
  import opened ServerReceipts
  import opened ServerBurn
  import opened ServerConfirm
  import SR = ServerRun

  // ---------- loops over query results ----------

  /** Rows of a set in some order. */
  method ListRows<T(==)>(s: set<T>) returns (rows: seq<T>)
    ensures forall x :: x in rows <==> x in s
    ensures forall i, j :: 0 <= i < j < |rows| ==> rows[i] != rows[j]
  {
    rows := [];
    var todo := s;
    while todo != {}
      invariant todo <= s && forall x :: x in rows <==> x in s - todo
      invariant forall i, j :: 0 <= i < j < |rows| ==> rows[i] != rows[j]
      decreases |todo|
    {
      var x :| x in todo;
      assert forall y :: y in rows + [x] <==> y in rows || y == x;
      assert forall y :: y in s - (todo - {x}) <==> y in s - todo || y == x;
      todo := todo - {x};
      rows := rows + [x];
    }
  }

  lemma EmitMore(streams: Streams, done: set<Id>, u: Id, b: Body)
    requires u !in done
    ensures StreamOf(Emit(streams, done, b), u) == StreamOf(streams, u)
    ensures Emit(streams, done + {u}, b) == Emit(streams, done, b)[u := StreamOf(streams, u) + [b]]
  {
  }

  lemma ListedMore(users: seq<Id>, i: nat)
    requires i < |users|
    ensures Listed(users[..i + 1]) == Listed(users[..i]) + {users[i]}
  {
    assert users[..i + 1] == users[..i] + [users[i]];
  }

  lemma ListedAll(users: seq<Id>, s: set<Id>)
    requires forall x :: x in users <==> x in s
    ensures Listed(users) == s && Listed(users[..|users|]) == s
  {
    assert users[..|users|] == users;
  }

  /** AppendSyncEvents: one row for each distinct recipient. */
  method AppendRows(streams: Streams, users: seq<Id>, b: Body) returns (next: Streams)
    ensures next == Emit(streams, Listed(users), b)
  {
    next := streams;
    var done: set<Id> := {};
    assert Emitted(streams, users, 0, b, next);
    for i := 0 to |users|
      invariant done == Listed(users[..i]) && Emitted(streams, users, i, b, next)
    {
      var u := users[i];
      ListedMore(users, i);
      EmitNext(streams, users, i, b, next);
      if u !in done { next := next[u := StreamOf(next, u) + [b]]; }
      done := done + {u};
    }
    assert users[..|users|] == users;
  }

  /** The first i recipients, each once, have their row. */
  ghost predicate Emitted(streams: Streams, users: seq<Id>, i: nat, b: Body, next: Streams)
    requires i <= |users|
  {
    next == Emit(streams, Listed(users[..i]), b)
  }

  lemma EmitNext(streams: Streams, users: seq<Id>, i: nat, b: Body, next: Streams)
    requires i < |users| && Emitted(streams, users, i, b, next)
    ensures Emitted(streams, users, i + 1, b, if users[i] in Listed(users[..i]) then next else next[users[i] := StreamOf(next, users[i]) + [b]])
  {
    ListedMore(users, i);
    if users[i] !in Listed(users[..i]) {
      EmitMore(streams, Listed(users[..i]), users[i], b);
    } else {
      assert Listed(users[..i]) + {users[i]} == Listed(users[..i]);
    }
  }

  method RedactRows(streams: Streams, m: Id, users: set<Id>) returns (next: Streams)
    ensures next == Redact(streams, m, users)
  {
    next := streams;
    var todo := set u | u in streams && u in users;
    while todo != {}
      invariant next.Keys == streams.Keys && todo <= streams.Keys * users
      invariant forall u :: u in streams ==>
        next[u] == if u in users && u !in todo then RedactStream(streams[u], m) else streams[u]
      decreases |todo|
    {
      var u :| u in todo;
      todo := todo - {u};
      next := next[u := RedactStream(next[u], m)];
    }
  }

  /** AppendReadCounts, one changed message at a time. */
  method AppendCounts(streams: Streams, deliveries: Deliveries, counters: Counters, changed: seq<Id>) returns (next: Streams)
    ensures next == EmitCounts(streams, deliveries, counters, changed)
  {
    next := streams;
    for i := 0 to |changed|
      invariant EmitCounts(streams, deliveries, counters, changed) == EmitCounts(next, deliveries, counters, changed[i..])
    {
      if changed[i] in counters {
        var holders := ListRows(Holders(deliveries, changed[i]));
        assert Listed(holders) == Holders(deliveries, changed[i]);
        var c := counters[changed[i]];
        next := AppendRows(next, holders, ReadCount(changed[i], c.conv, if c.unread > 0 then c.unread else 0));
      }
    }
  }

  lemma PostMore(deliveries: Deliveries, m: Id, done: set<Id>, u: Id, row: Msg, now: int)
    ensures PostRows(deliveries, m, done + {u}, row, now)
         == PostRows(deliveries, m, done, row, now)[(m, u) := NewDelivery(u, row.sender, row.conv, row.number, row.burnAfterRead, row.ttl, now)]
  {
    var a := PostRows(deliveries, m, done + {u}, row, now);
    var b := PostRows(deliveries, m, done, row, now)[(m, u) := NewDelivery(u, row.sender, row.conv, row.number, row.burnAfterRead, row.ttl, now)];
    forall k ensures (k in a <==> k in b) && (k in a ==> a[k] == b[k]) {
      assert k == (k.0, k.1);
      if k.0 == m && k.1 == u { assert u in done + {u}; }
    }
    assert a.Keys == b.Keys;
  }

  /** One delivery row per member. */
  method InsertDeliveries(deliveries: Deliveries, m: Id, members: set<Id>, row: Msg, now: int) returns (next: Deliveries)
    ensures next == PostRows(deliveries, m, members, row, now)
  {
    next := deliveries;
    var rows := ListRows(members);
    for i := 0 to |rows|
      invariant next == PostRows(deliveries, m, Listed(rows[..i]), row, now)
    {
      ListedMore(rows, i);
      PostMore(deliveries, m, Listed(rows[..i]), rows[i], row, now);
      next := next[(m, rows[i]) :=
        NewDelivery(rows[i], row.sender, row.conv, row.number, row.burnAfterRead, row.ttl, now)];
    }
    ListedAll(rows, members);
  }

  lemma PostIs(db: Db, m: Id, row: Msg, body: Body, now: int, rows: Deliveries, others: nat, events: Streams)
    requires var members := UserSet(RosterOf(db, row.conv));
             && rows == PostRows(db.deliveries, m, members, row, now) && others == |members - {row.sender}|
             && events == Emit(db.streams, members, body)
    ensures Post(db, m, row, body, now)
         == db.(messages := db.messages[m := row], deliveries := rows,
                counters := db.counters[m := Counter(row.conv, row.number, others, 0, others)], streams := events)
  {
  }

  lemma ReceiptIs(db: Db, user: Id, conv: Id, requested: nat, now: int, burning: bool, changed: seq<Id>, rows: Deliveries,
                  counts: Counters, events: Streams)
    requires Advances(db, user, conv, requested)
    requires var low, high := db.positions[(conv, user)], NewPosition(db, user, conv, requested);
             && rows == MarkRead(db.messages, db.deliveries, user, conv, low, high, now, burning)
             && counts == Rebuild(db.messages, rows, db.counters, conv, low, high)
             && events == Emit(db.streams, UserSet(RosterOf(db, conv)), Receipt(conv, user, high, now))
    ensures ApplyReceipt(db, user, conv, requested, now, burning, changed).0
         == db.(positions := db.positions[(conv, user) := NewPosition(db, user, conv, requested)], deliveries := rows,
                counters := counts, streams := EmitCounts(events, rows, counts, changed))
  {
  }

  /** First occurrences outside a set, as the member lists are normalised. */
  method UniqueOutside(ids: seq<Id>, present: set<Id>) returns (unique: seq<Id>)
    ensures unique == NotIn(ids, present)
  {
    unique := [];
    var known := present;
    for i := 0 to |ids|
      invariant NotIn(ids, present) == unique + NotIn(ids[i..], known)
    {
      assert ids[i..][0] == ids[i] && ids[i..][1..] == ids[i + 1..];
      if ids[i] !in known {
        unique := unique + [ids[i]];
        known := known + {ids[i]};
      }
    }
  }

  method RemovableTargets(ids: seq<Id>, roster: set<Id>, owner: Id) returns (leaving: seq<Id>)
    ensures leaving == Targets(ids, roster, owner)
  {
    leaving := [];
    var left := roster;
    for i := 0 to |ids|
      invariant Targets(ids, roster, owner) == leaving + Targets(ids[i..], left, owner)
    {
      assert ids[i..][0] == ids[i] && ids[i..][1..] == ids[i + 1..];
      if ids[i] in left && ids[i] != owner {
        leaving := leaving + [ids[i]];
        left := left - {ids[i]};
      }
    }
  }

  // ---------- the tables ----------

  class MiniImRepos {
    var users: set<Id>
    var infos: Infos
    var rosters: Rosters
    var created: map<(Id, Id), Id>
    var positions: Positions
    var history: Positions
    var messages: Msgs
    var deliveries: Deliveries
    var counters: Counters
    var streams: Streams
    var files: map<Id, nat>
    var applied: map<(Id, Id), nat>

    ghost function Contents(): Db
      reads this
    {
      Db(users, infos, rosters, created, positions, history, messages, deliveries, counters, streams, files, applied)
    }

    constructor ()
      ensures Contents() == EMPTY_DB
    {
      users, infos, rosters, created, positions, history := {}, map[], map[], map[], map[], map[];
      messages, deliveries, counters, streams, files, applied := map[], map[], map[], map[], map[], map[];
    }

    function Members(conv: Id): set<Id>
      reads this
    {
      UserSet(Roster(conv))
    }

    method MessageTables(m: Id, row: Msg, body: Body, now: int) returns (rows: Deliveries, others: nat, events: Streams)
      ensures var members := UserSet(RosterOf(Contents(), row.conv));
              && rows == PostRows(deliveries, m, members, row, now) && others == |members - {row.sender}|
              && events == Emit(streams, members, body)
    {
      var members := Members(row.conv);
      others := |members - {row.sender}|;
      rows := InsertDeliveries(deliveries, m, members, row, now);
      var targets := ListRows(members);
      ListedAll(targets, members);
      events := AppendRows(streams, targets, body);
    }

    method SetMessageTables(m: Msgs, d: Deliveries, c: Counters, s: Streams)
      modifies this`messages, this`deliveries, this`counters, this`streams
      ensures Contents() == old(Contents()).(messages := m, deliveries := d, counters := c, streams := s)
    {
      messages, deliveries, counters, streams := m, d, c, s;
    }

    /** The rows and events of one numbered message. */
    method InsertMessage(m: Id, row: Msg, body: Body, now: int)
      modifies this`messages, this`deliveries, this`counters, this`streams
      ensures Contents() == Post(old(Contents()), m, row, body, now)
    {
      ghost var was := Contents();
      var rows, others, events := MessageTables(m, row, body, now);
      PostIs(was, m, row, body, now, rows, others, events);
      SetMessageTables(messages[m := row], rows, counters[m := Counter(row.conv, row.number, others, 0, others)], events);
    }

    /** The caller has checked that the conversation exists. */
    method AppendMessage(m: Id, draft: Msg, clientMsgId: Id, now: int)
      modifies this`messages, this`deliveries, this`counters, this`streams
      ensures Contents() == ServerState.AppendMessage(old(Contents()), m, draft, clientMsgId, now)
    {
      ghost var was := Contents();
      var number := Top(messages, draft.conv) + 1;
      var row := draft.(number := number, createdAt := now, recalled := false, purged := false);
      var others := |Members(row.conv) - {row.sender}|;
      var body := Message(m, row.conv, row.sender, clientMsgId, number, row.isFile, row.content, now, false, false, others);
      assert row == Numbered(was, draft, now) && body == MessageBody(was, m, row, clientMsgId);
      InsertMessage(m, row, body, now);
    }

    /** The messages of others in the range that this user has not read yet. */
    method SelectNewlyRead(user: Id, conv: Id, low: nat, high: nat) returns (rows: seq<Id>)
      ensures Listed(rows) == NewlyRead(Contents(), user, conv, low, high)
    {
      var found := set k | k in deliveries && k.1 == user && InRange(deliveries[k], conv, low, high)
                           && deliveries[k].readAt.None? && k.0 in messages && messages[k.0].sender != user :: k.0;
      assert found == NewlyRead(Contents(), user, conv, low, high);
      rows := ListRows(found);
      ListedAll(rows, found);
    }

    /** The effect of an accepted receipt. */
    method AdvanceReceipt(user: Id, conv: Id, requested: nat, now: int, burning: bool, changed: seq<Id>)
      requires Advances(Contents(), user, conv, requested)
      modifies this`positions, this`messages, this`deliveries, this`counters, this`streams
      ensures Contents() == ServerState.ApplyReceipt(old(Contents()), user, conv, requested, now, burning, changed).0
    {
      ghost var was := Contents();
      var next := Next(user, conv, requested);
      var rows, counts, events := ReceiptTables(user, conv, next, now, burning);
      ReceiptIs(was, user, conv, requested, now, burning, changed, rows, counts, events);
      events := AppendCounts(events, rows, counts, changed);
      positions := positions[(conv, user) := next];
      SetMessageTables(messages, rows, counts, events);
    }

    method ReceiptTables(user: Id, conv: Id, next: nat, now: int, burning: bool) returns (rows: Deliveries, counts: Counters, events: Streams)
      requires (conv, user) in positions
      ensures rows == MarkRead(messages, deliveries, user, conv, positions[(conv, user)], next, now, burning)
      ensures counts == Rebuild(messages, rows, counters, conv, positions[(conv, user)], next)
      ensures events == Emit(streams, UserSet(RosterOf(Contents(), conv)), Receipt(conv, user, next, now))
    {
      var prior := positions[(conv, user)];
      rows := MarkRead(messages, deliveries, user, conv, prior, next, now, burning);
      counts := Rebuild(messages, rows, counters, conv, prior, next);
      var members := ListRows(Members(conv));
      ListedAll(members, Members(conv));
      events := AppendRows(streams, members, Receipt(conv, user, next, now));
    }

    function Next(user: Id, conv: Id, requested: nat): (r: nat)
      requires (conv, user) in positions
      reads this
      ensures r == NewPosition(Contents(), user, conv, requested)
    {
      var prior, top := positions[(conv, user)], Top(messages, conv);
      var capped := if requested < top then requested else top;
      if prior > capped then prior else capped
    }

    /** `changed` is the query result the method itself computes, so the step is always legal. */
    method ApplyReceipt(user: Id, conv: Id, requested: nat, now: int, burning: bool) returns (answer: Answer, changed: seq<Id>)
      modifies this`positions, this`messages, this`deliveries, this`counters, this`streams
      ensures (Contents(), answer) == ServerState.ApplyReceipt(old(Contents()), user, conv, requested, now, burning, changed)
      ensures ListsChanged(old(Contents()), user, conv, requested, changed)
    {
      if (conv, user) !in positions { return None, []; }
      var prior, next := positions[(conv, user)], Next(user, conv, requested);
      changed := SelectNewlyRead(user, conv, prior, next);
      if next <= prior { return Some(false), changed; }
      AdvanceReceipt(user, conv, requested, now, burning, changed);
      answer := Some(true);
    }

    method ApplyRecall(user: Id, conv: Id, m: Id, now: int) returns (answer: Answer)
      modifies this`messages, this`deliveries, this`streams
      ensures (Contents(), answer) == ServerState.ApplyRecall(old(Contents()), user, conv, m, now)
    {
      if m !in messages || messages[m].conv != conv || messages[m].sender != user { return None; }
      if messages[m].recalled { return Some(false); }
      var members := ListRows(Members(conv));
      ListedAll(members, Members(conv));
      var events := RedactRows(streams, m, streams.Keys);
      events := AppendRows(events, members, Terminal(m, conv, user, now, user == SYSTEM_BURN));
      messages, deliveries, streams := messages[m := messages[m].(recalled := true)], RecalledRows(deliveries, m, now), events;
      answer := Some(true);
    }

    /** Due rows up to the limit: all of them unless the limit is reached. */
    method SelectDue(limit: nat, now: int) returns (rows: seq<(Id, Id)>)
      ensures |rows| <= limit && forall k :: k in rows ==> IsDue(Contents(), k, now)
      ensures |rows| < limit ==> forall k :: IsDue(Contents(), k, now) ==> k in rows
      ensures forall i, j :: 0 <= i < j < |rows| ==> rows[i] != rows[j]
    {
      var due := set k | k in deliveries && k.0 in messages && !messages[k.0].recalled && messages[k.0].burnAfterRead
                         && deliveries[k].burnAt.Some? && 0 < deliveries[k].burnAt.value <= now && deliveries[k].burnedAt.None?;
      assert forall k :: IsDue(Contents(), k, now) <==> k in due;
      var all := ListRows(due);
      rows := if |all| <= limit then all else all[..limit];
      assert forall k :: k in rows ==> k in all;
    }

    /** One row of the sweep. */
    method BurnOne(k: (Id, Id), now: int)
      requires IsDue(Contents(), k, now)
      modifies this`deliveries, this`streams
      ensures Contents() == BurnRow(old(Contents()), k, now)
    {
      assert Listed([k.1]) == {k.1};
      var events := AppendRows(streams, [k.1], Terminal(k.0, messages[k.0].conv, SYSTEM_BURN, now, true));
      events := RedactRows(events, k.0, {k.1});
      deliveries, streams := deliveries[k := deliveries[k].(burnedAt := Some(now))], events;
    }

    /** Returns the rows burned; a row whose update finds nothing left to do is skipped. */
    method CollectDueBurns(limit: nat, now: int) returns (rows: seq<(Id, Id)>)
      modifies this`deliveries, this`streams, this`messages
      ensures Contents() == BurnSweep(old(Contents()), rows, now)
      ensures forall k :: k in rows ==> IsDue(old(Contents()), k, now)
    {
      ghost var was := Contents();
      var safe := if limit < 1 then 1 else if limit > 500 then 500 else limit;
      rows := SelectDue(safe, now);
      for i := 0 to |rows|
        invariant BurnRows(was, rows, now) == BurnRows(Contents(), rows[i..], now)
      {
        var k := rows[i];
        if k in deliveries && k.0 in messages && !messages[k.0].recalled && messages[k.0].burnAfterRead
           && deliveries[k].burnAt.Some? && 0 < deliveries[k].burnAt.value <= now && deliveries[k].burnedAt.None? {
          BurnOne(k, now);
        }
      }
      messages := Settle(messages, deliveries, set k | k in rows :: k.0);
    }

    method PurgeMessage(m: Id)
      modifies this`messages, this`streams
      ensures Contents() == PurgeOne(old(Contents()), m)
    {
      if m !in messages || !messages[m].burnAfterRead || !messages[m].recalled || messages[m].purged || !AllBurned(deliveries, m) {
        return;
      }
      var row := messages[m];
      var events := RedactRows(streams, m, streams.Keys);
      messages, streams := messages[m := row.(content := PurgedContent(row.isFile, row.content), purged := true)], events;
    }

    method SelectPurgeable(limit: nat) returns (rows: seq<Id>)
      ensures |rows| <= limit && forall m :: m in rows ==> IsPurgeable(Contents(), m)
      ensures |rows| < limit ==> forall m :: IsPurgeable(Contents(), m) ==> m in rows
    {
      var due := set m | m in messages && messages[m].burnAfterRead && messages[m].recalled && !messages[m].purged
                         && AllBurned(deliveries, m);
      assert forall m :: IsPurgeable(Contents(), m) <==> m in due;
      var all := ListRows(due);
      rows := if |all| <= limit then all else all[..limit];
      assert forall m :: m in rows ==> m in all;
    }

    method PurgeBurnedContent(limit: nat) returns (rows: seq<Id>)
      modifies this`messages, this`streams
      ensures Contents() == PurgeSweep(old(Contents()), rows)
      ensures forall m :: m in rows ==> IsPurgeable(old(Contents()), m)
    {
      ghost var was := Contents();
      rows := SelectPurgeable(if limit < 1 then 1 else if limit > 500 then 500 else limit);
      for i := 0 to |rows|
        invariant PurgeSweep(was, rows) == PurgeSweep(Contents(), rows[i..])
      {
        PurgeMessage(rows[i]);
      }
    }

    /** The rows still 'sent' that the newly confirmed part of the stream covers. */
    method SelectSent(user: Id, low: nat, high: nat) returns (rows: seq<Id>)
      requires low <= high <= |StreamOf(streams, user)|
      ensures Listed(rows) == NewlyDelivered(Contents(), user, low, high)
    {
      var entries := StreamOf(streams, user);
      var carried := set i | low <= i < high && entries[i].Message? :: entries[i].id;
      var found := set k | k in deliveries && k.1 == user && deliveries[k].status == Sent && k.0 in carried :: k.0;
      assert forall m :: m in carried <==> CarriesMessage(entries, low, high, m);
      assert found == NewlyDelivered(Contents(), user, low, high);
      rows := ListRows(found);
      assert Listed(rows) == found;
    }

    method DeliverOne(user: Id, m: Id, now: int)
      modifies this`deliveries, this`streams
      ensures Contents() == ServerState.DeliverOne(old(Contents()), user, m, now)
    {
      var k := (m, user);
      if k !in deliveries || deliveries[k].status != Sent || m !in messages { return; }
      var row := deliveries[k];
      var at := if now > row.sentAt then now else row.sentAt;
      var targets := [messages[m].sender, user];
      assert Listed(targets) == {messages[m].sender, user};
      var events := AppendRows(streams, targets, Delivery(m, row.conv, user, Delivered, row.sentAt, at));
      deliveries, streams := deliveries[k := row.(status := Delivered, deliveredAt := Some(at))], events;
    }

    method ConfirmApplied(user: Id, device: Id, cursor: nat, now: int) returns (answer: Answer, listed: seq<Id>)
      modifies this`deliveries, this`streams, this`applied
      ensures (Contents(), answer) == ServerState.ConfirmApplied(old(Contents()), user, device, cursor, now, listed)
      ensures ListsDelivered(old(Contents()), user, device, cursor, listed)
    {
      ghost var was := Contents();
      listed := [];
      if device == "" || cursor > |StreamOf(streams, user)| { return None, []; }
      var prior := if (user, device) in applied then applied[(user, device)] else 0;
      if cursor <= prior { return Some(false), []; }
      listed := SelectSent(user, prior, cursor);
      for i := 0 to |listed|
        invariant DeliverAll(was, user, listed, now) == DeliverAll(Contents(), user, listed[i..], now)
        invariant applied == was.applied
      {
        DeliverOne(user, listed[i], now);
      }
      applied := applied[(user, device) := cursor];
      answer := Some(true);
    }

    // ---------- conversations ----------

    function Roster(conv: Id): seq<Member>
      reads this
    {
      if conv in rosters then rosters[conv] else []
    }

    method AnnounceTo(conv: Id, targets: set<Id>, now: int)
      requires conv in infos
      modifies this`streams
      ensures Contents() == Announce(old(Contents()), conv, targets, now)
    {
      var list := ListRows(targets);
      ListedAll(list, targets);
      var events := AppendRows(streams, list,
        Conversation(conv, infos[conv].title, infos[conv].owner, Users(Roster(conv)), now));
      streams := events;
    }

    method EnrollMember(conv: Id, user: Id, now: int)
      modifies this`rosters, this`positions
      ensures Contents() == Enroll(old(Contents()), conv, user, now)
    {
      rosters := rosters[conv := InsertMember(Roster(conv), Member(now, user))];
      positions := positions[(conv, user) := if (conv, user) in history then history[(conv, user)] else 0];
    }

    /** Preserves the read position, then deletes the member row. */
    method DismissMember(conv: Id, user: Id)
      modifies this`rosters, this`positions, this`history
      ensures Contents() == Dismiss(old(Contents()), conv, user)
    {
      if (conv, user) in positions {
        var last := positions[(conv, user)];
        if (conv, user) in history && history[(conv, user)] > last { last := history[(conv, user)]; }
        history := history[(conv, user) := last];
      }
      rosters := rosters[conv := Without(Roster(conv), user)];
      positions := positions - {(conv, user)};
    }

    method EnrollMembers(conv: Id, members: seq<Id>, now: int)
      modifies this`rosters, this`positions
      ensures Contents() == EnrollAll(old(Contents()), conv, members, now)
    {
      ghost var was := Contents();
      for i := 0 to |members|
        invariant EnrollAll(was, conv, members, now) == EnrollAll(Contents(), conv, members[i..], now)
      {
        EnrollMember(conv, members[i], now);
      }
    }

    method DismissMembers(conv: Id, members: seq<Id>)
      modifies this`rosters, this`positions, this`history
      ensures Contents() == DismissAll(old(Contents()), conv, members)
    {
      ghost var was := Contents();
      for i := 0 to |members|
        invariant DismissAll(was, conv, members) == DismissAll(Contents(), conv, members[i..])
      {
        DismissMember(conv, members[i]);
      }
    }

    /** INSERT OR IGNORE of the user who logs in. */
    method EnsureUser(user: Id)
      modifies this`users
      ensures Contents() == ServerState.EnsureUser(old(Contents()), user)
    {
      if user != "" { users := users + {user}; }
    }

    method RenameConversation(operator: Id, conv: Id, title: string, now: int) returns (answer: Answer)
      modifies this`infos, this`streams
      ensures (Contents(), answer) == ServerState.RenameConversation(old(Contents()), operator, conv, title, now)
    {
      if conv !in infos || !infos[conv].group || infos[conv].owner != operator { return None; }
      if infos[conv].title == title { return Some(false); }
      infos := infos[conv := infos[conv].(title := title)];
      AnnounceTo(conv, Members(conv), now);
      answer := Some(true);
    }

    method AddMembers(operator: Id, conv: Id, ids: seq<Id>, now: int) returns (answer: Answer)
      modifies this`rosters, this`positions, this`streams
      ensures (Contents(), answer) == ServerState.AddMembers(old(Contents()), operator, conv, ids, now)
    {
      if conv !in infos || !infos[conv].group || infos[conv].owner != operator { return None; }
      var joining := UniqueOutside(ids, Members(conv) + {""});
      if joining == [] { return Some(false); }
      if exists u :: u in joining && u != "" && u !in users { return None; }
      EnrollMembers(conv, joining, now);
      AnnounceTo(conv, Members(conv), now);
      answer := Some(true);
    }

    method JoinConversation(user: Id, conv: Id, now: int) returns (answer: Answer)
      modifies this`rosters, this`positions, this`streams
      ensures (Contents(), answer) == ServerState.JoinConversation(old(Contents()), user, conv, now)
    {
      if conv !in infos || !infos[conv].group || user !in users { return None; }
      if user in Members(conv) { return Some(false); }
      EnrollMember(conv, user, now);
      AnnounceTo(conv, Members(conv), now);
      answer := Some(true);
    }

    method RemoveMembers(operator: Id, conv: Id, ids: seq<Id>, now: int) returns (answer: Answer)
      modifies this`rosters, this`positions, this`history, this`streams
      ensures (Contents(), answer) == ServerState.RemoveMembers(old(Contents()), operator, conv, ids, now)
    {
      if conv !in infos || !infos[conv].group || infos[conv].owner != operator { return None; }
      var before := Members(conv);
      var leaving := RemovableTargets(ids, before, operator);
      if leaving == [] { return Some(false); }
      DismissMembers(conv, leaving);
      AnnounceTo(conv, before, now);
      answer := Some(true);
    }

    method LeaveConversation(user: Id, conv: Id, now: int) returns (answer: Answer)
      modifies this`infos, this`rosters, this`positions, this`history, this`streams
      ensures (Contents(), answer) == ServerState.LeaveConversation(old(Contents()), user, conv, now)
    {
      if conv !in infos || !infos[conv].group || user !in Members(conv) { return None; }
      var before, remaining := Members(conv), Without(Roster(conv), user);
      if remaining == [] { return None; }
      DismissMember(conv, user);
      if infos[conv].owner == user { infos := infos[conv := infos[conv].(owner := remaining[0].user)]; }
      AnnounceTo(conv, before, now);
      answer := Some(true);
    }

    /** The rows of a conversation that did not exist yet, its members and their announcement. */
    method FoundConversation(conv: Id, info: Info, clientId: Id, members: seq<Id>, now: int)
      modifies this`infos, this`rosters, this`created, this`positions, this`streams
      ensures Contents() == Announce(EnrollAll(Blank(old(Contents()), conv, info, clientId), conv, members, now),
                                     conv, Listed(members), now)
    {
      infos := infos[conv := info];
      rosters := rosters[conv := []];
      created := created[(info.owner, clientId) := conv];
      EnrollMembers(conv, members, now);
      AnnounceTo(conv, Listed(members), now);
    }

    /** `conv` is the fresh id a new conversation gets. */
    method CreateConversation(conv: Id, info: Info, clientId: Id, ids: seq<Id>, now: int) returns (answer: Answer)
      modifies this`users, this`infos, this`rosters, this`created, this`positions, this`streams
      ensures (Contents(), answer) == ServerState.CreateConversation(old(Contents()), conv, info, clientId, ids, now)
    {
      ghost var was := Contents();
      var rest := UniqueOutside(ids, {info.owner, ""});
      var members := [info.owner] + rest;
      if users != {} && exists u :: u in members && u != "" && u !in users { return None; }
      if users == {} { users := Listed(members); }
      assert Contents() == WithUsers(was, members);
      if (info.owner, clientId) in created { return Some(false); }
      FoundConversation(conv, info, clientId, members, now);
      answer := Some(true);
    }
  }
}
