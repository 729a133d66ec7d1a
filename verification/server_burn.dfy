/** Recall, per-user burning and purging: a message is recalled exactly when every delivery row is
    burned, and what the server still stores for a burned row carries no body. */
module ServerBurn {
  import opened SyncEvents
  import opened ServerState
  import opened ServerStreams
  import opened ServerInvariants

  lemma PurgedIdempotent(isFile: bool, c: Content)
    ensures PurgedContent(isFile, PurgedContent(isFile, c)) == PurgedContent(isFile, c)
  {
  }

  /** Only burn times, recall flags and contents may differ. */
  ghost predicate Faded(m1: Msgs, m2: Msgs, d1: Deliveries, d2: Deliveries) {
    && m1.Keys == m2.Keys && d1.Keys == d2.Keys
    && (forall m :: m in m1 ==> m2[m] == m1[m].(recalled := m2[m].recalled, content := m2[m].content, purged := m2[m].purged))
    && (forall k :: k in d1 ==> d2[k] == d1[k].(burnedAt := d2[k].burnedAt))
  }

  lemma FadedCount(m1: Msgs, m2: Msgs, d1: Deliveries, d2: Deliveries, m: Id)
    requires Faded(m1, m2, d1, d2) && m in m1
    ensures CountRow(m2, d2, m) == CountRow(m1, d1, m) && Holders(d2, m) == Holders(d1, m)
  {
    assert forall u :: (m, u) in d1 <==> (m, u) in d2;
    assert forall u :: u in Holders(d1, m) <==> (m, u) in d1 by { HoldersIff(d1, m); }
    assert forall u :: u in Holders(d2, m) <==> (m, u) in d2 by { HoldersIff(d2, m); }
    assert Recipients(m2, d2, m) == Recipients(m1, d1, m) by {
      RecipientsIff(m1, d1, m);
      RecipientsIff(m2, d2, m);
    }
    RecipientsIff(m1, d1, m);
    var all := Recipients(m1, d1, m);
    assert (set u | u in all && d2[(m, u)].readAt.Some?) == (set u | u in all && d1[(m, u)].readAt.Some?);
  }

  lemma HoldersIff(d: Deliveries, m: Id)
    ensures forall u :: u in Holders(d, m) <==> (m, u) in d
  {
    forall u | (m, u) in d ensures u in Holders(d, m) { assert (m, u).1 == u; }
  }

  lemma RecipientsIff(messages: Msgs, d: Deliveries, m: Id)
    requires m in messages
    ensures forall u :: u in Recipients(messages, d, m) <==> (m, u) in d && u != messages[m].sender
  {
    forall u | (m, u) in d && u != messages[m].sender ensures u in Recipients(messages, d, m) { assert (m, u).1 == u; }
  }

  lemma FadedTops(m1: Msgs, m2: Msgs, d1: Deliveries, d2: Deliveries)
    requires Faded(m1, m2, d1, d2)
    ensures forall c :: Top(m2, c) == Top(m1, c)
  {
    forall c ensures Top(m2, c) == Top(m1, c) {
      assert Numbers(m2, c) == Numbers(m1, c) by {
        forall n ensures n in Numbers(m2, c) <==> n in Numbers(m1, c) {
          if n in Numbers(m1, c) { var m :| m in m1 && m1[m].conv == c && m1[m].number == n; assert m in m2 && m2[m].number == n; }
          if n in Numbers(m2, c) { var m :| m in m2 && m2[m].conv == c && m2[m].number == n; assert m in m1 && m1[m].number == n; }
        }
      }
    }
  }

  lemma FadedNumbers(m1: Msgs, m2: Msgs, d1: Deliveries, d2: Deliveries)
    requires Faded(m1, m2, d1, d2) && NumbersOk(m1)
    ensures NumbersOk(m2)
  {
    FadedTops(m1, m2, d1, d2);
    forall c, i | 1 <= i <= Top(m2, c) ensures NumberTaken(m2, c, i) {
      assert NumberTaken(m1, c, i);
      var m :| m in m1 && m1[m].conv == c && m1[m].number == i;
      assert m in m2;
    }
  }

  lemma FadedLedger(infos: Infos, m1: Msgs, m2: Msgs, d1: Deliveries, d2: Deliveries, counters: Counters,
                    positions: Positions, history: Positions)
    requires Faded(m1, m2, d1, d2) && LedgerOk(infos, m1, d1, counters, positions, history)
    ensures LedgerOk(infos, m2, d2, counters, positions, history)
  {
    FadedTops(m1, m2, d1, d2);
    FadedNumbers(m1, m2, d1, d2);
    forall m | m in m1 ensures CountRow(m2, d2, m) == CountRow(m1, d1, m) && Holders(d2, m) == Holders(d1, m) {
      FadedCount(m1, m2, d1, d2, m);
    }
  }

  lemma FadedFeeds(infos: Infos, m1: Msgs, m2: Msgs, d1: Deliveries, d2: Deliveries, positions: Positions,
                   history: Positions, files: map<Id, nat>, streams: Streams)
    requires Faded(m1, m2, d1, d2) && FeedsOk(infos, m1, d1, positions, history, files, streams)
    ensures FeedsOk(infos, m2, d2, positions, history, files, streams)
  {
    forall u, i | 0 <= i < |StreamOf(streams, u)|
      ensures EntryOk(infos, m2, d2, positions, history, files, u, StreamOf(streams, u)[i])
    {
      assert EntryOk(infos, m1, d1, positions, history, files, u, StreamOf(streams, u)[i]);
    }
  }

  // ---------- redaction ----------

  lemma RedactFeeds(infos: Infos, messages: Msgs, deliveries: Deliveries, positions: Positions, history: Positions,
                    files: map<Id, nat>, streams: Streams, m: Id, users: set<Id>)
    requires FeedsOk(infos, messages, deliveries, positions, history, files, streams)
    ensures FeedsOk(infos, messages, deliveries, positions, history, files, Redact(streams, m, users))
  {
    var r := Redact(streams, m, users);
    forall u ensures StreamOk(StreamOf(r, u)) {
      RedactAt(streams, m, users, u);
      assert StreamOk(StreamOf(streams, u));
      RedactOk(StreamOf(streams, u), m);
    }
    forall u, i | 0 <= i < |StreamOf(r, u)|
      ensures EntryOk(infos, messages, deliveries, positions, history, files, u, StreamOf(r, u)[i])
    {
      RedactAt(streams, m, users, u);
      assert EntryOk(infos, messages, deliveries, positions, history, files, u, StreamOf(streams, u)[i]);
    }
    forall n, u | (n, u) in deliveries ensures Carries(StreamOf(r, u), n) {
      RedactAt(streams, m, users, u);
      var i :| 0 <= i < |StreamOf(streams, u)| && StreamOf(streams, u)[i].Message? && StreamOf(streams, u)[i].id == n;
      assert StreamOf(r, u)[i].id == n;
    }
  }

  lemma RedactLatest(streams: Streams, m: Id, users: set<Id>, u: Id, k: Key)
    ensures var b, c := Latest(StreamOf(streams, u), k), Latest(StreamOf(Redact(streams, m, users), u), k);
            (b.Some? <==> c.Some?) && (b.Some? ==> c.value == b.value || c.value == RedactBody(b.value, m))
  {
    RedactAt(streams, m, users, u);
    LatestRedact(StreamOf(streams, u), m, k);
  }

  lemma RedactCurrent(infos: Infos, rosters: Rosters, deliveries: Deliveries, counters: Counters, positions: Positions,
                      history: Positions, streams: Streams, m: Id, users: set<Id>)
    requires CurrentOk(infos, rosters, deliveries, counters, positions, history, streams)
    ensures CurrentOk(infos, rosters, deliveries, counters, positions, history, Redact(streams, m, users))
  {
    var r := Redact(streams, m, users);
    forall n, u | (n, u) in deliveries && n in counters
      ensures var b := Latest(StreamOf(r, u), CountKey(n));
              b.Some? && (b.value.Message? || b.value.ReadCount?) && CountIn(b.value) == counters[n].unread
    {
      RedactLatest(streams, m, users, u, CountKey(n));
    }
    forall c, u | c in infos && c in rosters && u in UserSet(rosters[c])
      ensures var b := Latest(StreamOf(r, u), ConversationKey(c)); b.Some? && Describes(b.value, infos, rosters, c)
    {
      RedactLatest(streams, m, users, u, ConversationKey(c));
    }
    RedactReceipts(positions, history, streams, m, users);
  }

  lemma RedactReceipts(positions: Positions, history: Positions, streams: Streams, m: Id, users: set<Id>)
    requires ReceiptsCurrent(positions, history, streams)
    ensures ReceiptsCurrent(positions, history, Redact(streams, m, users))
  {
    forall c, u
      ensures var b := Latest(StreamOf(Redact(streams, m, users), u), ReceiptKey(c, u));
              Position(positions, history, c, u) == (if b.Some? && b.value.Receipt? then b.value.lastRead else 0)
    {
      RedactLatest(streams, m, users, u, ReceiptKey(c, u));
      assert var b := Latest(StreamOf(streams, u), ReceiptKey(c, u));
             Position(positions, history, c, u) == (if b.Some? && b.value.Receipt? then b.value.lastRead else 0);
    }
  }

  /** Redacting one message for some users licenses burning exactly their rows of it. */
  lemma RedactSafety(d1: Deliveries, d2: Deliveries, streams: Streams, applied: map<(Id, Id), nat>, m: Id, users: set<Id>)
    requires SafetyOk(d1, streams, applied) && d1.Keys == d2.Keys
    requires forall k :: k in d1 ==> d2[k].status == d1[k].status
    requires forall k :: k in d1 && d2[k].burnedAt.Some? ==> d1[k].burnedAt.Some? || (k.0 == m && k.1 in users)
    ensures SafetyOk(d2, Redact(streams, m, users), applied)
  {
    var r := Redact(streams, m, users);
    forall u, i | 0 <= i < |StreamOf(r, u)| && StreamOf(r, u)[i].Message? && (StreamOf(r, u)[i].id, u) in d2
                  && d2[(StreamOf(r, u)[i].id, u)].burnedAt.Some?
      ensures Redacted(StreamOf(r, u)[i])
    {
      RedactAt(streams, m, users, u);
    }
    forall a, i | a in applied && 0 <= i < |StreamOf(r, a.0)|
      ensures |StreamOf(r, a.0)| == |StreamOf(streams, a.0)|
      ensures StreamOf(r, a.0)[i].Message? ==> StreamOf(streams, a.0)[i].Message? && StreamOf(r, a.0)[i].id == StreamOf(streams, a.0)[i].id
    {
      RedactAt(streams, m, users, a.0);
    }
    forall a | a in applied ensures applied[a] <= |StreamOf(r, a.0)| { RedactAt(streams, m, users, a.0); }
  }

  // ---------- recall ----------

  lemma RecallFades(messages: Msgs, deliveries: Deliveries, m: Id, now: int)
    requires m in messages
    ensures Faded(messages, messages[m := messages[m].(recalled := true)], deliveries, RecalledRows(deliveries, m, now))
  {
  }

  lemma RecallBurns(deliveries: Deliveries, m: Id, now: int)
    ensures forall n :: AllBurned(RecalledRows(deliveries, m, now), n) <==> n == m || AllBurned(deliveries, n)
    ensures StatusOk(deliveries) ==> StatusOk(RecalledRows(deliveries, m, now))
  {
    var d2 := RecalledRows(deliveries, m, now);
    forall n ensures AllBurned(d2, n) <==> n == m || AllBurned(deliveries, n) {
      if n != m { assert forall k :: k in deliveries && k.0 == n ==> d2[k] == deliveries[k]; }
    }
  }

  lemma RecallFlags(messages: Msgs, deliveries: Deliveries, m: Id, now: int)
    requires FlagsOk(messages, deliveries) && m in messages
    ensures FlagsOk(messages[m := messages[m].(recalled := true)], RecalledRows(deliveries, m, now))
  {
    RecallBurns(deliveries, m, now);
  }

  lemma RecallTables(db: Db, m: Id, now: int)
    requires LedgerOk(db.infos, db.messages, db.deliveries, db.counters, db.positions, db.history)
    requires FlagsOk(db.messages, db.deliveries) && m in db.messages
    ensures var m2, d2 := db.messages[m := db.messages[m].(recalled := true)], RecalledRows(db.deliveries, m, now);
            LedgerOk(db.infos, m2, d2, db.counters, db.positions, db.history) && FlagsOk(m2, d2)
  {
    var m2, d2 := db.messages[m := db.messages[m].(recalled := true)], RecalledRows(db.deliveries, m, now);
    RecallFades(db.messages, db.deliveries, m, now);
    RecallFlags(db.messages, db.deliveries, m, now);
    FadedLedger(db.infos, db.messages, m2, db.deliveries, d2, db.counters, db.positions, db.history);
  }

  lemma RecallStreams(db: Db, m: Id, now: int, users: set<Id>, body: Body)
    requires m in db.messages && body.Terminal? && Supported(body)
    requires FeedsOk(db.infos, db.messages, db.deliveries, db.positions, db.history, db.files, db.streams)
    requires CurrentOk(db.infos, db.rosters, db.deliveries, db.counters, db.positions, db.history, db.streams)
    requires SafetyOk(db.deliveries, db.streams, db.applied)
    ensures var m2, d2 := db.messages[m := db.messages[m].(recalled := true)], RecalledRows(db.deliveries, m, now);
            var e := Emit(Redact(db.streams, m, db.streams.Keys), users, body);
            && FeedsOk(db.infos, m2, d2, db.positions, db.history, db.files, e)
            && CurrentOk(db.infos, db.rosters, d2, db.counters, db.positions, db.history, e)
            && SafetyOk(d2, e, db.applied)
  {
    var m2, d2 := db.messages[m := db.messages[m].(recalled := true)], RecalledRows(db.deliveries, m, now);
    RecallFades(db.messages, db.deliveries, m, now);
    EndSafety(db, d2, m, users, body);
    EndFeeds(db, m2, d2, m, users, body);
    EndCurrent(db, d2, m, users, body);
  }

  lemma RecallAll(db: Db, m: Id, users: set<Id>, body: Body, now: int)
    requires Inv(db) && m in db.messages && body.Terminal? && Supported(body)
    ensures Inv(Recall(db, m, users, body, now))
  {
    RecallTables(db, m, now);
    RecallStreams(db, m, now, users, body);
  }

  lemma RecallOutcome(db: Db, user: Id, conv: Id, m: Id, now: int)
    ensures var r := ApplyRecall(db, user, conv, m, now);
            if r.1 == Some(true)
            then m in db.messages && r.0 == Recall(db, m, UserSet(RosterOf(db, conv)), EndBody(m, conv, user, now), now)
            else r.0 == db
  {
  }

  lemma RecallKeeps(db: Db, user: Id, conv: Id, m: Id, now: int)
    requires Inv(db)
    ensures Inv(ApplyRecall(db, user, conv, m, now).0)
  {
    RecallOutcome(db, user, conv, m, now);
    if ApplyRecall(db, user, conv, m, now).1 == Some(true) {
      KnownId(db, m);
      RecallAll(db, m, UserSet(RosterOf(db, conv)), EndBody(m, conv, user, now), now);
    }
  }

  lemma KnownId(db: Db, m: Id)
    requires LedgerOk(db.infos, db.messages, db.deliveries, db.counters, db.positions, db.history) && m in db.messages
    ensures m != ""
  {
  }

  lemma EndSafety(db: Db, d2: Deliveries, m: Id, users: set<Id>, body: Body)
    requires SafetyOk(db.deliveries, db.streams, db.applied) && CarriedOk(db.deliveries, db.streams) && body.Terminal?
    requires d2.Keys == db.deliveries.Keys
    requires forall k :: k in db.deliveries ==> d2[k].status == db.deliveries[k].status
    requires forall k :: k in db.deliveries && d2[k].burnedAt.Some? ==> db.deliveries[k].burnedAt.Some? || k.0 == m
    ensures SafetyOk(d2, Emit(Redact(db.streams, m, db.streams.Keys), users, body), db.applied)
  {
    forall k | k in db.deliveries ensures k.1 in db.streams.Keys {
      assert (k.0, k.1) in db.deliveries && Carries(StreamOf(db.streams, k.1), k.0);
    }
    RedactSafety(db.deliveries, d2, db.streams, db.applied, m, db.streams.Keys);
    EmitSafety(d2, Redact(db.streams, m, db.streams.Keys), db.applied, users, body);
  }

  lemma EndFeeds(db: Db, m2: Msgs, d2: Deliveries, m: Id, users: set<Id>, body: Body)
    requires FeedsOk(db.infos, db.messages, db.deliveries, db.positions, db.history, db.files, db.streams)
    requires Faded(db.messages, m2, db.deliveries, d2) && body.Terminal? && Supported(body)
    ensures FeedsOk(db.infos, m2, d2, db.positions, db.history, db.files,
                    Emit(Redact(db.streams, m, db.streams.Keys), users, body))
  {
    FadedFeeds(db.infos, db.messages, m2, db.deliveries, d2, db.positions, db.history, db.files, db.streams);
    RedactFeeds(db.infos, m2, d2, db.positions, db.history, db.files, db.streams, m, db.streams.Keys);
    AppendTerminal(db.infos, m2, d2, db.positions, db.history, db.files, Redact(db.streams, m, db.streams.Keys), users, body);
  }

  lemma AppendTerminal(infos: Infos, messages: Msgs, deliveries: Deliveries, positions: Positions, history: Positions,
                       files: map<Id, nat>, streams: Streams, users: set<Id>, body: Body)
    requires FeedsOk(infos, messages, deliveries, positions, history, files, streams) && body.Terminal? && Supported(body)
    ensures FeedsOk(infos, messages, deliveries, positions, history, files, Emit(streams, users, body))
  {
    EmitStreams(streams, users, body);
    EmitEntries(infos, messages, deliveries, positions, history, files, streams, users, body);
    EmitCarried(deliveries, streams, users, body);
  }

  lemma EndCurrent(db: Db, d2: Deliveries, m: Id, users: set<Id>, body: Body)
    requires CurrentOk(db.infos, db.rosters, db.deliveries, db.counters, db.positions, db.history, db.streams)
    requires d2.Keys == db.deliveries.Keys && body.Terminal?
    ensures CurrentOk(db.infos, db.rosters, d2, db.counters, db.positions, db.history,
                      Emit(Redact(db.streams, m, db.streams.Keys), users, body))
  {
    KeysCurrent(db, d2);
    RedactCurrent(db.infos, db.rosters, d2, db.counters, db.positions, db.history, db.streams, m, db.streams.Keys);
    QuietCurrent(db.infos, db.rosters, d2, db.counters, db.positions, db.history, Redact(db.streams, m, db.streams.Keys), users, body);
  }

  lemma KeysCurrent(db: Db, d2: Deliveries)
    requires CurrentOk(db.infos, db.rosters, db.deliveries, db.counters, db.positions, db.history, db.streams)
    requires d2.Keys == db.deliveries.Keys
    ensures CurrentOk(db.infos, db.rosters, d2, db.counters, db.positions, db.history, db.streams)
  {
    assert forall k :: k in d2 <==> k in db.deliveries;
  }

  lemma QuietCurrent(infos: Infos, rosters: Rosters, deliveries: Deliveries, counters: Counters, positions: Positions,
                     history: Positions, streams: Streams, users: set<Id>, body: Body)
    requires CurrentOk(infos, rosters, deliveries, counters, positions, history, streams)
    requires !body.Message? && !body.ReadCount? && !body.Receipt? && !body.Conversation?
    ensures CurrentOk(infos, rosters, deliveries, counters, positions, history, Emit(streams, users, body))
  {
    EmitCounts0(deliveries, counters, streams, users, body);
    EmitConversations(infos, rosters, streams, users, body);
    EmitReceipts(positions, history, streams, users, body);
  }

  // ---------- the burn sweep ----------

  /** Inside the sweep only touched messages may be fully burned without being recalled yet. */
  ghost predicate RecallsLag(messages: Msgs, deliveries: Deliveries, touched: set<Id>) {
    forall m :: m in messages ==>
      (messages[m].recalled ==> AllBurned(deliveries, m)) && (AllBurned(deliveries, m) && m !in touched ==> messages[m].recalled)
  }

  ghost predicate LagOk(messages: Msgs, deliveries: Deliveries, touched: set<Id>) {
    StatusOk(deliveries) && PurgesOk(messages) && RecallsLag(messages, deliveries, touched)
  }

  ghost predicate SweepInv(db: Db, touched: set<Id>) {
    && MembershipOk(db.users, db.created, db.infos, db.rosters, db.positions, db.history)
    && LedgerOk(db.infos, db.messages, db.deliveries, db.counters, db.positions, db.history)
    && LagOk(db.messages, db.deliveries, touched)
    && FeedsOk(db.infos, db.messages, db.deliveries, db.positions, db.history, db.files, db.streams)
    && CurrentOk(db.infos, db.rosters, db.deliveries, db.counters, db.positions, db.history, db.streams)
    && SafetyOk(db.deliveries, db.streams, db.applied)
  }

  lemma BurnFades(db: Db, k: (Id, Id), now: int)
    requires k in db.deliveries && k.0 in db.messages
    ensures Faded(db.messages, db.messages, db.deliveries, BurnRow(db, k, now).deliveries)
  {
  }

  lemma BurnLag(messages: Msgs, deliveries: Deliveries, touched: set<Id>, k: (Id, Id), now: int)
    requires LagOk(messages, deliveries, touched) && k in deliveries && k.0 in touched
    ensures LagOk(messages, deliveries[k := deliveries[k].(burnedAt := Some(now))], touched)
  {
    var d2 := deliveries[k := deliveries[k].(burnedAt := Some(now))];
    forall m | m != k.0 ensures AllBurned(d2, m) <==> AllBurned(deliveries, m) {
      assert forall x :: x in deliveries && x.0 == m ==> d2[x] == deliveries[x];
    }
    assert AllBurned(deliveries, k.0) ==> AllBurned(d2, k.0);
  }

  lemma BurnFeeds(db: Db, k: (Id, Id), now: int)
    requires FeedsOk(db.infos, db.messages, db.deliveries, db.positions, db.history, db.files, db.streams)
    requires k in db.deliveries && k.0 in db.messages && k.0 != ""
    ensures var r := BurnRow(db, k, now); FeedsOk(r.infos, r.messages, r.deliveries, r.positions, r.history, r.files, r.streams)
  {
    var d2 := BurnRow(db, k, now).deliveries;
    var body := EndBody(k.0, db.messages[k.0].conv, SYSTEM_BURN, now);
    BurnFades(db, k, now);
    FadedFeeds(db.infos, db.messages, db.messages, db.deliveries, d2, db.positions, db.history, db.files, db.streams);
    AppendTerminal(db.infos, db.messages, d2, db.positions, db.history, db.files, db.streams, {k.1}, body);
    RedactFeeds(db.infos, db.messages, d2, db.positions, db.history, db.files, Emit(db.streams, {k.1}, body), k.0, {k.1});
  }

  lemma BurnCurrent(db: Db, k: (Id, Id), now: int)
    requires CurrentOk(db.infos, db.rosters, db.deliveries, db.counters, db.positions, db.history, db.streams)
    requires k in db.deliveries && k.0 in db.messages
    ensures var r := BurnRow(db, k, now); CurrentOk(r.infos, r.rosters, r.deliveries, r.counters, r.positions, r.history, r.streams)
  {
    var d2 := BurnRow(db, k, now).deliveries;
    var body := EndBody(k.0, db.messages[k.0].conv, SYSTEM_BURN, now);
    KeysCurrent(db, d2);
    QuietCurrent(db.infos, db.rosters, d2, db.counters, db.positions, db.history, db.streams, {k.1}, body);
    RedactCurrent(db.infos, db.rosters, d2, db.counters, db.positions, db.history, Emit(db.streams, {k.1}, body), k.0, {k.1});
  }

  lemma BurnSafety(db: Db, k: (Id, Id), now: int)
    requires SafetyOk(db.deliveries, db.streams, db.applied) && k in db.deliveries && k.0 in db.messages
    ensures var r := BurnRow(db, k, now); SafetyOk(r.deliveries, r.streams, r.applied)
  {
    var d2 := BurnRow(db, k, now).deliveries;
    var body := EndBody(k.0, db.messages[k.0].conv, SYSTEM_BURN, now);
    assert d2.Keys == db.deliveries.Keys;
    EmitSafety(db.deliveries, db.streams, db.applied, {k.1}, body);
    RedactSafety(db.deliveries, d2, Emit(db.streams, {k.1}, body), db.applied, k.0, {k.1});
  }

  lemma BurnTables(db: Db, touched: set<Id>, k: (Id, Id), now: int)
    requires LedgerOk(db.infos, db.messages, db.deliveries, db.counters, db.positions, db.history)
    requires LagOk(db.messages, db.deliveries, touched) && k in db.deliveries && k.0 in db.messages && k.0 in touched
    ensures var r := BurnRow(db, k, now);
            LedgerOk(r.infos, r.messages, r.deliveries, r.counters, r.positions, r.history) && LagOk(r.messages, r.deliveries, touched)
  {
    BurnFades(db, k, now);
    FadedLedger(db.infos, db.messages, db.messages, db.deliveries, BurnRow(db, k, now).deliveries, db.counters, db.positions, db.history);
    BurnLag(db.messages, db.deliveries, touched, k, now);
  }

  lemma BurnStepKeeps(db: Db, touched: set<Id>, k: (Id, Id), now: int)
    requires SweepInv(db, touched) && k.0 in touched
    ensures SweepInv(BurnStep(db, k, now), touched)
  {
    if IsDue(db, k, now) {
      KnownId(db, k.0);
      BurnTables(db, touched, k, now);
      BurnFeeds(db, k, now);
      BurnCurrent(db, k, now);
      BurnSafety(db, k, now);
    }
  }

  lemma {:induction false} BurnRowsKeep(db: Db, rows: seq<(Id, Id)>, now: int, touched: set<Id>)
    requires SweepInv(db, touched) && forall k :: k in rows ==> k.0 in touched
    ensures SweepInv(BurnRows(db, rows, now), touched)
    decreases rows
  {
    if rows != [] {
      assert rows[0] in rows;
      BurnStepKeeps(db, touched, rows[0], now);
      BurnRowsKeep(BurnStep(db, rows[0], now), rows[1..], now, touched);
    }
  }

  lemma SettleFlags(messages: Msgs, deliveries: Deliveries, touched: set<Id>)
    requires LagOk(messages, deliveries, touched)
    ensures FlagsOk(Settle(messages, deliveries, touched), deliveries)
    ensures Faded(messages, Settle(messages, deliveries, touched), deliveries, deliveries)
  {
  }

  lemma SettleKeeps(db: Db, touched: set<Id>)
    requires SweepInv(db, touched)
    ensures Inv(db.(messages := Settle(db.messages, db.deliveries, touched)))
  {
    var m2 := Settle(db.messages, db.deliveries, touched);
    SettleFlags(db.messages, db.deliveries, touched);
    FadedLedger(db.infos, db.messages, m2, db.deliveries, db.deliveries, db.counters, db.positions, db.history);
    FadedFeeds(db.infos, db.messages, m2, db.deliveries, db.deliveries, db.positions, db.history, db.files, db.streams);
  }

  lemma SweepKeeps(db: Db, rows: seq<(Id, Id)>, now: int)
    requires Inv(db)
    ensures Inv(BurnSweep(db, rows, now))
  {
    var touched := set k | k in rows :: k.0;
    assert SweepInv(db, touched);
    BurnRowsKeep(db, rows, now, touched);
    SettleKeeps(BurnRows(db, rows, now), touched);
  }

  /** A row the sweep burns was listed and its burn time had come; nothing else about it changed. */
  lemma {:induction false} NeverEarly(db: Db, rows: seq<(Id, Id)>, now: int, k: (Id, Id))
    requires k in db.deliveries
    ensures k in BurnRows(db, rows, now).deliveries
    ensures var row := BurnRows(db, rows, now).deliveries[k];
            && row == db.deliveries[k].(burnedAt := row.burnedAt)
            && (row != db.deliveries[k] ==>
                  k in rows && db.deliveries[k].burnedAt.None? && row.burnedAt == Some(now)
                  && db.deliveries[k].burnAt.Some? && 0 < db.deliveries[k].burnAt.value <= now)
    decreases rows
  {
    if rows != [] {
      NeverEarly(BurnStep(db, rows[0], now), rows[1..], now, k);
      assert forall x :: x in rows <==> x == rows[0] || x in rows[1..];
    }
  }

  // ---------- purging ----------

  lemma PurgeTables(db: Db, m: Id)
    requires LedgerOk(db.infos, db.messages, db.deliveries, db.counters, db.positions, db.history)
    requires FlagsOk(db.messages, db.deliveries) && IsPurgeable(db, m)
    ensures var r := PurgeOne(db, m);
            LedgerOk(r.infos, r.messages, r.deliveries, r.counters, r.positions, r.history) && FlagsOk(r.messages, r.deliveries)
  {
    PurgeFlags(db, m);
    FadedLedger(db.infos, db.messages, PurgeOne(db, m).messages, db.deliveries, db.deliveries, db.counters, db.positions, db.history);
  }

  lemma PurgeStreams(db: Db, m: Id)
    requires FeedsOk(db.infos, db.messages, db.deliveries, db.positions, db.history, db.files, db.streams)
    requires CurrentOk(db.infos, db.rosters, db.deliveries, db.counters, db.positions, db.history, db.streams)
    requires SafetyOk(db.deliveries, db.streams, db.applied) && FlagsOk(db.messages, db.deliveries) && IsPurgeable(db, m)
    ensures var r := PurgeOne(db, m);
            && FeedsOk(r.infos, r.messages, r.deliveries, r.positions, r.history, r.files, r.streams)
            && CurrentOk(r.infos, r.rosters, r.deliveries, r.counters, r.positions, r.history, r.streams)
            && SafetyOk(r.deliveries, r.streams, r.applied)
  {
    var r := PurgeOne(db, m);
    PurgeFlags(db, m);
    FadedFeeds(db.infos, db.messages, r.messages, db.deliveries, db.deliveries, db.positions, db.history, db.files, db.streams);
    RedactFeeds(db.infos, r.messages, db.deliveries, db.positions, db.history, db.files, db.streams, m, db.streams.Keys);
    RedactCurrent(db.infos, db.rosters, db.deliveries, db.counters, db.positions, db.history, db.streams, m, db.streams.Keys);
    RedactSafety(db.deliveries, db.deliveries, db.streams, db.applied, m, db.streams.Keys);
  }

  lemma PurgeOneKeeps(db: Db, m: Id)
    requires Inv(db)
    ensures Inv(PurgeOne(db, m))
  {
    if IsPurgeable(db, m) {
      PurgeTables(db, m);
      PurgeStreams(db, m);
    }
  }

  lemma PurgeFlags(db: Db, m: Id)
    requires FlagsOk(db.messages, db.deliveries) && IsPurgeable(db, m)
    ensures FlagsOk(PurgeOne(db, m).messages, db.deliveries)
    ensures Faded(db.messages, PurgeOne(db, m).messages, db.deliveries, db.deliveries)
  {
    PurgedIdempotent(db.messages[m].isFile, db.messages[m].content);
  }

  lemma {:induction false} PurgeKeeps(db: Db, rows: seq<Id>)
    requires Inv(db)
    ensures Inv(PurgeSweep(db, rows))
    decreases rows
  {
    if rows != [] {
      PurgeOneKeeps(db, rows[0]);
      PurgeKeeps(PurgeOne(db, rows[0]), rows[1..]);
    }
  }
}
