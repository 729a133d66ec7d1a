/** append_message: dense numbering, one delivery row and one event per member, exact counters. */
module ServerMessages {
  import opened SyncEvents
  import opened ServerState
  import opened ServerStreams
  import opened ServerInvariants

  lemma TopBound(messages: Msgs, m: Id)
    requires m in messages
    ensures messages[m].number <= Top(messages, messages[m].conv)
  {
    var c := messages[m].conv;
    assert messages[m].number in Numbers(messages, c);
  }

  lemma TopTaken(messages: Msgs, c: Id)
    ensures Top(messages, c) > 0 ==> NumberTaken(messages, c, Top(messages, c))
  {
    if Numbers(messages, c) != {} {
      var m :| m in messages && messages[m].conv == c && messages[m].number == Top(messages, c);
    }
  }

  /** Top is determined by its two defining facts. */
  lemma TopIs(messages: Msgs, c: Id, n: nat)
    requires forall m :: m in messages && messages[m].conv == c ==> messages[m].number <= n
    requires n > 0 ==> NumberTaken(messages, c, n)
    ensures Top(messages, c) == n
  {
    if n > 0 {
      var m :| m in messages && messages[m].conv == c && messages[m].number == n;
      TopBound(messages, m);
    }
    TopTaken(messages, c);
    if Top(messages, c) > 0 {
      var m :| m in messages && messages[m].conv == c && messages[m].number == Top(messages, c);
    }
  }

  lemma TopAfter(messages: Msgs, m: Id, row: Msg, c: Id)
    requires m !in messages && row.number == Top(messages, row.conv) + 1
    ensures Top(messages[m := row], c) == if c == row.conv then row.number else Top(messages, c)
  {
    var more := messages[m := row];
    forall n | n in messages ensures messages[n].number <= Top(messages, messages[n].conv) { TopBound(messages, n); }
    TopTaken(messages, c);
    if c == row.conv {
      assert more[m].number == row.number;
      assert NumberTaken(more, c, row.number);
      TopIs(more, c, row.number);
    } else {
      if Top(messages, c) > 0 {
        var n :| n in messages && messages[n].conv == c && messages[n].number == Top(messages, c);
        assert more[n] == messages[n];
        assert NumberTaken(more, c, Top(messages, c));
      }
      TopIs(more, c, Top(messages, c));
    }
  }

  lemma NumbersStep(messages: Msgs, m: Id, row: Msg)
    requires NumbersOk(messages) && m !in messages && m != "" && row.number == Top(messages, row.conv) + 1
    ensures NumbersOk(messages[m := row])
  {
    var more := messages[m := row];
    forall n | n in messages ensures messages[n].number <= Top(messages, messages[n].conv) { TopBound(messages, n); }
    forall c, i | 1 <= i <= Top(more, c) ensures NumberTaken(more, c, i) {
      TopAfter(messages, m, row, c);
      if c == row.conv && i == row.number {
        assert more[m].conv == c;
      } else {
        assert NumberTaken(messages, c, i);
        var n :| n in messages && messages[n].conv == c && messages[n].number == i;
        assert more[n] == messages[n];
      }
    }
  }

  lemma PositionsStep(messages: Msgs, m: Id, row: Msg, positions: Positions, history: Positions)
    requires PositionsOk(messages, positions, history)
    requires m !in messages && row.number == Top(messages, row.conv) + 1
    ensures PositionsOk(messages[m := row], positions, history)
  {
    forall c, u ensures Position(positions, history, c, u) <= Top(messages[m := row], c) {
      TopAfter(messages, m, row, c);
      assert Position(positions, history, c, u) <= Top(messages, c);
    }
  }

  /** d2 is d1 plus an untouched row for each member of message m. */
  ghost predicate Posted(d1: Deliveries, d2: Deliveries, m: Id, row: Msg, members: set<Id>) {
    && (forall k :: k in d1 ==> k in d2 && d2[k] == d1[k] && k.0 != m)
    && (forall k :: k in d2 && k !in d1 ==> k.0 == m && k.1 in members)
    && (forall u :: u in members ==> (m, u) in d2)
    && (forall u :: u in members ==>
          && d2[(m, u)].conv == row.conv && d2[(m, u)].number == row.number && d2[(m, u)].burnedAt.None?
          && (d2[(m, u)].readAt.Some? <==> u == row.sender) && (d2[(m, u)].status == Read <==> u == row.sender))
  }

  lemma RowsStep(infos: Infos, messages: Msgs, d1: Deliveries, d2: Deliveries, m: Id, row: Msg, members: set<Id>)
    requires RowsOk(infos, messages, d1) && Posted(d1, d2, m, row, members)
    requires m !in messages && row.conv in infos && members != {}
    ensures RowsOk(infos, messages[m := row], d2)
    ensures Holders(d2, m) == members && forall n :: n != m ==> Holders(d2, n) == Holders(d1, n)
  {
    forall u ensures u in Holders(d2, m) <==> u in members {
      if u in Holders(d2, m) {
        assert (m, u) in d2;
      }
      if u in members { assert (m, u) in d2 && (m, u).1 == u; }
    }
    forall n | n != m ensures Holders(d2, n) == Holders(d1, n) {
      HoldersKept(d1, d2, m, row, members, n);
    }
  }

  lemma HoldersKept(d1: Deliveries, d2: Deliveries, m: Id, row: Msg, members: set<Id>, n: Id)
    requires Posted(d1, d2, m, row, members) && n != m
    ensures Holders(d2, n) == Holders(d1, n)
  {
    forall u ensures u in Holders(d2, n) <==> u in Holders(d1, n) {
      if u in Holders(d2, n) { assert (n, u) in d2; assert (n, u) in d1; }
      if u in Holders(d1, n) { assert (n, u) in d1; assert (n, u) in d2; }
    }
  }

  lemma ReadsStep(messages: Msgs, d1: Deliveries, d2: Deliveries, m: Id, row: Msg, members: set<Id>,
                  positions: Positions, history: Positions)
    requires ReadsOk(messages, d1, positions, history) && PositionsOk(messages, positions, history)
    requires Posted(d1, d2, m, row, members) && m !in messages && row.number == Top(messages, row.conv) + 1
    ensures ReadsOk(messages[m := row], d2, positions, history)
  {
    forall u ensures Position(positions, history, row.conv, u) < row.number {
      assert Position(positions, history, row.conv, u) <= Top(messages, row.conv);
    }
  }

  lemma CountersStep(messages: Msgs, d1: Deliveries, d2: Deliveries, counters: Counters, m: Id, row: Msg, members: set<Id>)
    requires CountersOk(messages, d1, counters) && Posted(d1, d2, m, row, members) && m !in messages
    ensures var k := |members - {row.sender}|;
            CountersOk(messages[m := row], d2, counters[m := Counter(row.conv, row.number, k, 0, k)])
  {
    forall n | n in messages ensures CountRow(messages[m := row], d2, n) == CountRow(messages, d1, n) {
      CountKept(messages, d1, d2, m, row, members, n);
    }
    NewCount(messages[m := row], d2, m, row, members, d1);
  }

  lemma CountKept(messages: Msgs, d1: Deliveries, d2: Deliveries, m: Id, row: Msg, members: set<Id>, n: Id)
    requires Posted(d1, d2, m, row, members) && m !in messages && n in messages
    ensures CountRow(messages[m := row], d2, n) == CountRow(messages, d1, n)
  {
    var more := messages[m := row];
    forall u ensures u in Recipients(more, d2, n) <==> u in Recipients(messages, d1, n) {
      if u in Recipients(more, d2, n) { assert (n, u) in d2; assert (n, u) in d1; }
      if u in Recipients(messages, d1, n) { assert (n, u) in d1; assert (n, u) in d2; }
    }
    var all := Recipients(messages, d1, n);
    assert Recipients(more, d2, n) == all;
    assert forall u :: u in all ==> (n, u) in d1 && d2[(n, u)] == d1[(n, u)];
    assert (set u | u in all && d2[(n, u)].readAt.Some?) == (set u | u in all && d1[(n, u)].readAt.Some?);
  }

  lemma NewCount(more: Msgs, d2: Deliveries, m: Id, row: Msg, members: set<Id>, d1: Deliveries)
    requires m in more && more[m] == row && Posted(d1, d2, m, row, members)
    ensures CountRow(more, d2, m) == Counter(row.conv, row.number, |members - {row.sender}|, 0, |members - {row.sender}|)
  {
    var all := Recipients(more, d2, m);
    forall u ensures u in all <==> u in members - {row.sender} {
      if u in all { assert (m, u) in d2; }
      if u in members - {row.sender} { assert (m, u) in d2 && (m, u).1 == u; }
    }
    assert all == members - {row.sender};
    assert (set u | u in all && d2[(m, u)].readAt.Some?) == {};
  }

  lemma StreamsStep(db: Db, d2: Deliveries, m: Id, row: Msg, members: set<Id>, body: Body)
    requires StreamsOk(db.streams) && CarriedOk(db.deliveries, db.streams)
    requires EntriesOk(db.infos, db.messages, db.deliveries, db.positions, db.history, db.files, db.streams)
    requires Posted(db.deliveries, d2, m, row, members) && m !in db.messages && m != ""
    requires body.Message? && body.id == m && !body.burned && body.isFile == row.isFile
    ensures var e := Emit(db.streams, members, body);
            && StreamsOk(e) && CarriedOk(d2, e)
            && EntriesOk(db.infos, db.messages[m := row], d2, db.positions, db.history, db.files, e)
  {
    var e, more := Emit(db.streams, members, body), db.messages[m := row];
    forall u, i | u in members && 0 <= i < |StreamOf(db.streams, u)|
      ensures Ordered(StreamOf(db.streams, u)[i], body)
    {
      assert EntryOk(db.infos, db.messages, db.deliveries, db.positions, db.history, db.files, u, StreamOf(db.streams, u)[i]);
    }
    EmitStreams(db.streams, members, body);
    forall u, i | 0 <= i < |StreamOf(db.streams, u)|
      ensures EntryOk(db.infos, more, d2, db.positions, db.history, db.files, u, StreamOf(db.streams, u)[i])
    {
      assert EntryOk(db.infos, db.messages, db.deliveries, db.positions, db.history, db.files, u, StreamOf(db.streams, u)[i]);
    }
    EmitEntries(db.infos, more, d2, db.positions, db.history, db.files, db.streams, members, body);
    CarriedStep(db.deliveries, db.streams, d2, m, row, members, body);
  }

  lemma CarriedStep(d1: Deliveries, streams: Streams, d2: Deliveries, m: Id, row: Msg, members: set<Id>, body: Body)
    requires CarriedOk(d1, streams) && Posted(d1, d2, m, row, members) && body.Message? && body.id == m
    ensures CarriedOk(d2, Emit(streams, members, body))
  {
    var e := Emit(streams, members, body);
    EmitCarried(d1, streams, members, body);
    forall n, u | (n, u) in d2 ensures Carries(StreamOf(e, u), n) {
      EmitAt(streams, members, body, u);
      if (n, u) !in d1 { assert StreamOf(e, u)[|StreamOf(streams, u)|] == body; }
    }
  }

  lemma CountsStep(d1: Deliveries, counters: Counters, streams: Streams, d2: Deliveries, m: Id, row: Msg,
                   members: set<Id>, body: Body, c: Counter)
    requires CountsCurrent(d1, counters, streams) && Posted(d1, d2, m, row, members)
    requires body.Message? && body.id == m && body.unread == c.unread && m !in counters
    ensures CountsCurrent(d2, counters[m := c], Emit(streams, members, body))
  {
    forall n, u | (n, u) in d2 && n in counters[m := c]
      ensures var b := Latest(StreamOf(Emit(streams, members, body), u), CountKey(n));
              b.Some? && (b.value.Message? || b.value.ReadCount?) && CountIn(b.value) == counters[m := c][n].unread
    {
      EmitAt(streams, members, body, u);
      LatestAppend(StreamOf(streams, u), body, CountKey(n));
    }
  }

  lemma ConfirmedStep(db: Db, d2: Deliveries, m: Id, row: Msg, members: set<Id>, body: Body)
    requires ConfirmedOk(db.deliveries, db.streams, db.applied)
    requires EntriesOk(db.infos, db.messages, db.deliveries, db.positions, db.history, db.files, db.streams)
    requires Posted(db.deliveries, d2, m, row, members) && m !in db.messages
    ensures ConfirmedOk(d2, Emit(db.streams, members, body), db.applied)
  {
    forall d, i | d in db.applied && 0 <= i < |StreamOf(db.streams, d.0)| && StreamOf(db.streams, d.0)[i].Message?
      ensures StreamOf(db.streams, d.0)[i].id != m
    {
      assert EntryOk(db.infos, db.messages, db.deliveries, db.positions, db.history, db.files, d.0, StreamOf(db.streams, d.0)[i]);
    }
    assert ConfirmedOk(d2, db.streams, db.applied);
    EmitConfirmed(d2, db.streams, db.applied, members, body);
  }

  lemma RedactedStep(db: Db, d2: Deliveries, m: Id, row: Msg, members: set<Id>, body: Body)
    requires RedactedOk(db.deliveries, db.streams)
    requires EntriesOk(db.infos, db.messages, db.deliveries, db.positions, db.history, db.files, db.streams)
    requires Posted(db.deliveries, d2, m, row, members) && m !in db.messages && body.Message? && body.id == m
    ensures RedactedOk(d2, Emit(db.streams, members, body))
  {
    var e := Emit(db.streams, members, body);
    forall u, i | 0 <= i < |StreamOf(e, u)| && StreamOf(e, u)[i].Message? && (StreamOf(e, u)[i].id, u) in d2
                  && d2[(StreamOf(e, u)[i].id, u)].burnedAt.Some?
      ensures Redacted(StreamOf(e, u)[i])
    {
      EmitAt(db.streams, members, body, u);
      if i < |StreamOf(db.streams, u)| {
        assert EntryOk(db.infos, db.messages, db.deliveries, db.positions, db.history, db.files, u, StreamOf(db.streams, u)[i]);
      }
    }
  }

  lemma RecallsStep(messages: Msgs, d1: Deliveries, d2: Deliveries, m: Id, row: Msg, members: set<Id>)
    requires RecallsOk(messages, d1) && Posted(d1, d2, m, row, members) && members != {} && !row.recalled && m !in messages
    ensures RecallsOk(messages[m := row], d2)
  {
    var u :| u in members;
    assert (m, u) in d2 && d2[(m, u)].burnedAt.None?;
    assert !AllBurned(d2, m);
    forall n | n in messages ensures AllBurned(d2, n) <==> AllBurned(d1, n) {
    }
  }

  lemma RowsPosted(d1: Deliveries, m: Id, members: set<Id>, row: Msg, now: int)
    requires forall k :: k in d1 ==> k.0 != m
    ensures Posted(d1, PostRows(d1, m, members, row, now), m, row, members)
  {
    var d2 := PostRows(d1, m, members, row, now);
    forall u | u in members
      ensures (m, u) in d2
      ensures d2[(m, u)] == NewDelivery(u, row.sender, row.conv, row.number, row.burnAfterRead, row.ttl, now)
    {
    }
  }

  lemma AppendLedger(infos: Infos, messages: Msgs, d1: Deliveries, d2: Deliveries, counters: Counters,
                     positions: Positions, history: Positions, m: Id, row: Msg, members: set<Id>)
    requires LedgerOk(infos, messages, d1, counters, positions, history)
    requires m !in messages && m != "" && row.conv in infos && members != {} && row.number == Top(messages, row.conv) + 1
    requires Posted(d1, d2, m, row, members)
    ensures var k := |members - {row.sender}|;
            LedgerOk(infos, messages[m := row], d2, counters[m := Counter(row.conv, row.number, k, 0, k)], positions, history)
  {
    NumbersStep(messages, m, row);
    PositionsStep(messages, m, row, positions, history);
    RowsStep(infos, messages, d1, d2, m, row, members);
    ReadsStep(messages, d1, d2, m, row, members, positions, history);
    CountersStep(messages, d1, d2, counters, m, row, members);
  }

  lemma AppendFlags(messages: Msgs, d1: Deliveries, d2: Deliveries, m: Id, row: Msg, members: set<Id>)
    requires FlagsOk(messages, d1) && m !in messages && members != {} && !row.recalled && !row.purged
    requires Posted(d1, d2, m, row, members)
    ensures FlagsOk(messages[m := row], d2)
  {
    RecallsStep(messages, d1, d2, m, row, members);
  }

  lemma AppendFeeds(db: Db, m: Id, row: Msg, d2: Deliveries, members: set<Id>, body: Body)
    requires FeedsOk(db.infos, db.messages, db.deliveries, db.positions, db.history, db.files, db.streams)
    requires m !in db.messages && m != "" && Posted(db.deliveries, d2, m, row, members)
    requires body.Message? && body.id == m && !body.burned && body.isFile == row.isFile
    ensures FeedsOk(db.infos, db.messages[m := row], d2, db.positions, db.history, db.files, Emit(db.streams, members, body))
  {
    StreamsStep(db, d2, m, row, members, body);
  }

  lemma AppendCurrent(db: Db, m: Id, row: Msg, d2: Deliveries, members: set<Id>, body: Body)
    requires CurrentOk(db.infos, db.rosters, db.deliveries, db.counters, db.positions, db.history, db.streams)
    requires m !in db.counters && Posted(db.deliveries, d2, m, row, members)
    requires body.Message? && body.id == m && body.unread == |members - {row.sender}|
    ensures var k := |members - {row.sender}|;
            CurrentOk(db.infos, db.rosters, d2, db.counters[m := Counter(row.conv, row.number, k, 0, k)],
                      db.positions, db.history, Emit(db.streams, members, body))
  {
    var k := |members - {row.sender}|;
    CountsStep(db.deliveries, db.counters, db.streams, d2, m, row, members, body, Counter(row.conv, row.number, k, 0, k));
    EmitConversations(db.infos, db.rosters, db.streams, members, body);
    EmitReceipts(db.positions, db.history, db.streams, members, body);
  }

  lemma AppendSafety(db: Db, m: Id, row: Msg, d2: Deliveries, members: set<Id>, body: Body)
    requires FeedsOk(db.infos, db.messages, db.deliveries, db.positions, db.history, db.files, db.streams)
    requires SafetyOk(db.deliveries, db.streams, db.applied)
    requires m !in db.messages && Posted(db.deliveries, d2, m, row, members) && body.Message? && body.id == m
    ensures SafetyOk(d2, Emit(db.streams, members, body), db.applied)
  {
    ConfirmedStep(db, d2, m, row, members, body);
    RedactedStep(db, d2, m, row, members, body);
  }

  lemma FreshId(infos: Infos, messages: Msgs, deliveries: Deliveries, counters: Counters, positions: Positions,
                history: Positions, m: Id)
    requires LedgerOk(infos, messages, deliveries, counters, positions, history) && m !in messages
    ensures m !in counters && forall k :: k in deliveries ==> k.0 != m
  {
  }

  lemma SomeMember(db: Db, conv: Id)
    requires MembershipOk(db.users, db.created, db.infos, db.rosters, db.positions, db.history) && conv in db.infos
    ensures UserSet(RosterOf(db, conv)) != {}
  {
    assert db.infos[conv].owner in UserSet(RosterOf(db, conv));
  }

  /** A message ready to be posted: its fresh id, its numbered row and its event. */
  ghost predicate Postable(db: Db, m: Id, row: Msg, body: Body) {
    && m !in db.messages && m != "" && row.conv in db.infos
    && row.number == Top(db.messages, row.conv) + 1 && !row.recalled && !row.purged
    && body.Message? && body.id == m && !body.burned && body.isFile == row.isFile && body.unread == OtherMembers(db, row)
  }

  lemma PostReady(db: Db, m: Id, row: Msg, body: Body, now: int)
    requires Inv(db) && Postable(db, m, row, body)
    ensures var members := UserSet(RosterOf(db, row.conv));
            m !in db.counters && members != {} && Posted(db.deliveries, PostRows(db.deliveries, m, members, row, now), m, row, members)
  {
    FreshId(db.infos, db.messages, db.deliveries, db.counters, db.positions, db.history, m);
    SomeMember(db, row.conv);
    RowsPosted(db.deliveries, m, UserSet(RosterOf(db, row.conv)), row, now);
  }

  lemma PostTables(db: Db, m: Id, row: Msg, body: Body, now: int)
    requires Inv(db) && Postable(db, m, row, body)
    ensures var r := Post(db, m, row, body, now);
            LedgerOk(r.infos, r.messages, r.deliveries, r.counters, r.positions, r.history) && FlagsOk(r.messages, r.deliveries)
  {
    var members := UserSet(RosterOf(db, row.conv));
    var d2 := PostRows(db.deliveries, m, members, row, now);
    PostReady(db, m, row, body, now);
    AppendLedger(db.infos, db.messages, db.deliveries, d2, db.counters, db.positions, db.history, m, row, members);
    AppendFlags(db.messages, db.deliveries, d2, m, row, members);
  }

  lemma PostStreams(db: Db, m: Id, row: Msg, body: Body, now: int)
    requires Inv(db) && Postable(db, m, row, body)
    ensures var r := Post(db, m, row, body, now);
            && FeedsOk(r.infos, r.messages, r.deliveries, r.positions, r.history, r.files, r.streams)
            && CurrentOk(r.infos, r.rosters, r.deliveries, r.counters, r.positions, r.history, r.streams)
            && SafetyOk(r.deliveries, r.streams, r.applied)
  {
    var members := UserSet(RosterOf(db, row.conv));
    var d2 := PostRows(db.deliveries, m, members, row, now);
    PostReady(db, m, row, body, now);
    AppendFeeds(db, m, row, d2, members, body);
    AppendCurrent(db, m, row, d2, members, body);
    AppendSafety(db, m, row, d2, members, body);
  }

  lemma PostKeeps(db: Db, m: Id, row: Msg, body: Body, now: int)
    requires Inv(db) && Postable(db, m, row, body)
    ensures Inv(Post(db, m, row, body, now))
  {
    PostTables(db, m, row, body, now);
    PostStreams(db, m, row, body, now);
  }

  /** Holds for a sender who has meanwhile left as well (file messages), who then gets no row. */
  lemma AppendKeeps(db: Db, m: Id, draft: Msg, clientMsgId: Id, now: int)
    requires Inv(db) && m !in db.messages && m != "" && draft.conv in db.infos
    ensures Inv(AppendMessage(db, m, draft, clientMsgId, now))
  {
    var row := Numbered(db, draft, now);
    PostKeeps(db, m, row, MessageBody(db, m, row, clientMsgId), now);
  }

  lemma PostRowsAt(d: Deliveries, m: Id, members: set<Id>, row: Msg, now: int, k: (Id, Id))
    ensures var rows := PostRows(d, m, members, row, now); var posted := k.0 == m && k.1 in members;
            && (k in rows <==> k in d || posted)
            && (k in d && !posted ==> rows[k] == d[k])
            && (posted ==> rows[k] == NewDelivery(k.1, row.sender, row.conv, row.number, row.burnAfterRead, row.ttl, now))
  {
    assert k == (k.0, k.1);
  }

  lemma AppendDeliveries(db: Db, m: Id, draft: Msg, clientMsgId: Id, now: int)
    ensures AppendMessage(db, m, draft, clientMsgId, now).deliveries
         == PostRows(db.deliveries, m, UserSet(RosterOf(db, draft.conv)), Numbered(db, draft, now), now)
    ensures AppendMessage(db, m, draft, clientMsgId, now).applied == db.applied
  {
  }
}
