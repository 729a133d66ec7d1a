/** What every reachable server state satisfies, one predicate per concern over the tables it
    mentions, and how appending or redacting stream entries keeps each of them. */
module ServerInvariants {
  import opened SyncEvents
  import opened ServerState
  import opened ServerStreams

  // ---------- tables ----------

  ghost predicate RostersOk(infos: Infos, rosters: Rosters, positions: Positions, history: Positions) {
    && infos.Keys == rosters.Keys
    && (forall c :: c in infos ==> c != "")
    && (forall c, u :: (c, u) in positions <==> c in rosters && u in UserSet(rosters[c]))
    && (forall c, u :: (c, u) in history ==> c in infos)
    && (forall c, u :: (c, u) in history && (c, u) in positions ==> history[(c, u)] <= positions[(c, u)])
  }

  /** The owner is always one of the members, so no roster is empty. */
  ghost predicate OwnersOk(infos: Infos, rosters: Rosters) {
    forall c :: c in infos && c in rosters ==> infos[c].owner in UserSet(rosters[c])
  }

  /** Conversation numbers are dense: 1..Top, each taken by exactly one message. */
  ghost predicate NumbersOk(messages: Msgs) {
    && (forall m :: m in messages ==> m != "" && 1 <= messages[m].number)
    && (forall m, n :: m in messages && n in messages && m != n ==>
          messages[m].conv != messages[n].conv || messages[m].number != messages[n].number)
    && (forall c, i :: 1 <= i <= Top(messages, c) ==> NumberTaken(messages, c, i))
  }

  ghost predicate NumberTaken(messages: Msgs, c: Id, i: nat) {
    exists m :: m in messages && messages[m].conv == c && messages[m].number == i
  }

  ghost predicate PositionsOk(messages: Msgs, positions: Positions, history: Positions) {
    forall c, u :: Position(positions, history, c, u) <= Top(messages, c)
  }

  ghost predicate RowsOk(infos: Infos, messages: Msgs, deliveries: Deliveries) {
    && (forall m :: m in messages ==> messages[m].conv in infos && Holders(deliveries, m) != {})
    && (forall k :: k in deliveries ==>
          k.0 in messages && deliveries[k].conv == messages[k.0].conv && deliveries[k].number == messages[k.0].number)
  }

  /** A recipient's row is read exactly when its number is within the reader's position. */
  ghost predicate ReadsOk(messages: Msgs, deliveries: Deliveries, positions: Positions, history: Positions) {
    forall k :: k in deliveries && k.0 in messages && k.1 != messages[k.0].sender ==>
      (deliveries[k].readAt.Some? <==>
       messages[k.0].number <= Position(positions, history, messages[k.0].conv, k.1))
  }

  /** The counters table is what rebuilding every row from scratch would give. */
  ghost predicate CountersOk(messages: Msgs, deliveries: Deliveries, counters: Counters) {
    && counters.Keys == messages.Keys
    && forall m :: m in messages ==> counters[m] == CountRow(messages, deliveries, m)
  }

  // ---------- streams ----------

  ghost predicate StreamsOk(streams: Streams) {
    forall u :: StreamOk(StreamOf(streams, u))
  }

  ghost predicate EntryOk(infos: Infos, messages: Msgs, deliveries: Deliveries, positions: Positions,
                          history: Positions, files: map<Id, nat>, u: Id, b: Body)
  {
    && (b.Message? ==> b.id in messages && (b.id, u) in deliveries && !b.burned && b.isFile == messages[b.id].isFile)
    && (b.ReadCount? ==> b.id in messages)
    && (b.Receipt? ==> 0 < b.lastRead <= Position(positions, history, b.conv, b.reader))
    && (b.Conversation? ==> b.conv in infos)
    && (b.File? ==> b.id in files && b.version <= files[b.id])
  }

  ghost predicate EntriesOk(infos: Infos, messages: Msgs, deliveries: Deliveries, positions: Positions,
                            history: Positions, files: map<Id, nat>, streams: Streams)
  {
    forall u, i :: 0 <= i < |StreamOf(streams, u)| ==>
      EntryOk(infos, messages, deliveries, positions, history, files, u, StreamOf(streams, u)[i])
  }

  ghost predicate Carries(s: seq<Body>, m: Id) {
    exists i :: 0 <= i < |s| && s[i].Message? && s[i].id == m
  }

  ghost predicate CarriedOk(deliveries: Deliveries, streams: Streams) {
    forall m, u :: (m, u) in deliveries ==> Carries(StreamOf(streams, u), m)
  }

  function CountIn(b: Body): int
    requires b.Message? || b.ReadCount?
  {
    if b.Message? then b.unread else b.count
  }

  /** The latest count in a holder's stream is the counters row. */
  ghost predicate CountsCurrent(deliveries: Deliveries, counters: Counters, streams: Streams) {
    forall m, u :: (m, u) in deliveries && m in counters ==>
      var b := Latest(StreamOf(streams, u), CountKey(m));
      b.Some? && (b.value.Message? || b.value.ReadCount?) && CountIn(b.value) == counters[m].unread
  }

  ghost predicate Describes(b: Body, infos: Infos, rosters: Rosters, c: Id) {
    && b.Conversation? && c in infos && c in rosters
    && b.title == infos[c].title && b.owner == infos[c].owner && b.members == Users(rosters[c])
  }

  /** The latest conversation event in a member's stream is the conversation as it stands. */
  ghost predicate ConversationsCurrent(infos: Infos, rosters: Rosters, streams: Streams) {
    forall c, u :: c in infos && c in rosters && u in UserSet(rosters[c]) ==>
      var b := Latest(StreamOf(streams, u), ConversationKey(c));
      b.Some? && Describes(b.value, infos, rosters, c)
  }

  /** The latest own receipt in a user's stream is the user's read position, member or not. */
  ghost predicate ReceiptsCurrent(positions: Positions, history: Positions, streams: Streams) {
    forall c, u ::
      var b := Latest(StreamOf(streams, u), ReceiptKey(c, u));
      Position(positions, history, c, u) == (if b.Some? && b.value.Receipt? then b.value.lastRead else 0)
  }

  /** No message event at or below an applied cursor is still 'sent' for its user. */
  ghost predicate ConfirmedOk(deliveries: Deliveries, streams: Streams, applied: map<(Id, Id), nat>) {
    forall d :: d in applied ==>
      && applied[d] <= |StreamOf(streams, d.0)|
      && forall i :: 0 <= i < applied[d] && StreamOf(streams, d.0)[i].Message?
                     && (StreamOf(streams, d.0)[i].id, d.0) in deliveries ==>
           deliveries[(StreamOf(streams, d.0)[i].id, d.0)].status != Sent
  }

  /** Statuses agree with their timestamps. */
  ghost predicate StatusOk(deliveries: Deliveries) {
    forall k :: k in deliveries ==> (deliveries[k].readAt.Some? <==> deliveries[k].status == Read)
  }

  // ---------- burn and recall ----------

  ghost predicate RecallsOk(messages: Msgs, deliveries: Deliveries) {
    forall m :: m in messages ==> (messages[m].recalled <==> AllBurned(deliveries, m))
  }

  ghost predicate PurgesOk(messages: Msgs) {
    forall m :: m in messages && messages[m].purged ==>
      messages[m].recalled && messages[m].content == PurgedContent(messages[m].isFile, messages[m].content)
  }

  predicate Redacted(b: Body)
    requires b.Message?
  {
    b.recalled && (b.text == BLANK || (b.isFile && b.text.FileNote? && b.text.detail == ""))
  }

  /** The stored event of a burned delivery carries nothing beyond a file id. */
  ghost predicate RedactedOk(deliveries: Deliveries, streams: Streams) {
    forall u, i :: 0 <= i < |StreamOf(streams, u)| && StreamOf(streams, u)[i].Message?
                   && (StreamOf(streams, u)[i].id, u) in deliveries
                   && deliveries[(StreamOf(streams, u)[i].id, u)].burnedAt.Some? ==>
      Redacted(StreamOf(streams, u)[i])
  }

  // ---------- appending ----------

  lemma EmitStreams(streams: Streams, users: set<Id>, b: Body)
    requires StreamsOk(streams) && Supported(b)
    requires forall u, i :: u in users && 0 <= i < |StreamOf(streams, u)| ==> Ordered(StreamOf(streams, u)[i], b)
    ensures StreamsOk(Emit(streams, users, b))
  {
    forall u ensures StreamOk(StreamOf(Emit(streams, users, b), u)) {
      EmitAt(streams, users, b, u);
      assert StreamOk(StreamOf(streams, u));
    }
  }

  lemma EmitEntries(infos: Infos, messages: Msgs, deliveries: Deliveries, positions: Positions,
                    history: Positions, files: map<Id, nat>, streams: Streams, users: set<Id>, b: Body)
    requires EntriesOk(infos, messages, deliveries, positions, history, files, streams)
    requires forall u :: u in users ==> EntryOk(infos, messages, deliveries, positions, history, files, u, b)
    ensures EntriesOk(infos, messages, deliveries, positions, history, files, Emit(streams, users, b))
  {
    forall u, i | 0 <= i < |StreamOf(Emit(streams, users, b), u)|
      ensures EntryOk(infos, messages, deliveries, positions, history, files, u, StreamOf(Emit(streams, users, b), u)[i])
    {
      EmitAt(streams, users, b, u);
      if i < |StreamOf(streams, u)| { assert StreamOf(Emit(streams, users, b), u)[i] == StreamOf(streams, u)[i]; }
    }
  }

  lemma EmitCarried(deliveries: Deliveries, streams: Streams, users: set<Id>, b: Body)
    requires CarriedOk(deliveries, streams)
    ensures CarriedOk(deliveries, Emit(streams, users, b))
  {
    forall m, u | (m, u) in deliveries ensures Carries(StreamOf(Emit(streams, users, b), u), m) {
      EmitAt(streams, users, b, u);
      var i :| 0 <= i < |StreamOf(streams, u)| && StreamOf(streams, u)[i].Message? && StreamOf(streams, u)[i].id == m;
      assert StreamOf(Emit(streams, users, b), u)[i].id == m;
    }
  }

  lemma EmitCounts0(deliveries: Deliveries, counters: Counters, streams: Streams, users: set<Id>, b: Body)
    requires CountsCurrent(deliveries, counters, streams) && !b.Message? && !b.ReadCount?
    ensures CountsCurrent(deliveries, counters, Emit(streams, users, b))
  {
    forall m, u | (m, u) in deliveries && m in counters
      ensures Latest(StreamOf(Emit(streams, users, b), u), CountKey(m)) == Latest(StreamOf(streams, u), CountKey(m))
    {
      EmitAt(streams, users, b, u);
      LatestAppend(StreamOf(streams, u), b, CountKey(m));
    }
  }

  lemma EmitConversations(infos: Infos, rosters: Rosters, streams: Streams, users: set<Id>, b: Body)
    requires ConversationsCurrent(infos, rosters, streams)
    requires b.Conversation? ==> Describes(b, infos, rosters, b.conv)
    ensures ConversationsCurrent(infos, rosters, Emit(streams, users, b))
  {
    forall c, u | c in infos && c in rosters && u in UserSet(rosters[c])
      ensures var l := Latest(StreamOf(Emit(streams, users, b), u), ConversationKey(c));
              l.Some? && Describes(l.value, infos, rosters, c)
    {
      EmitAt(streams, users, b, u);
      LatestAppend(StreamOf(streams, u), b, ConversationKey(c));
    }
  }

  lemma EmitReceipts(positions: Positions, history: Positions, streams: Streams, users: set<Id>, b: Body)
    requires ReceiptsCurrent(positions, history, streams) && !b.Receipt?
    ensures ReceiptsCurrent(positions, history, Emit(streams, users, b))
  {
    forall c, u
      ensures Latest(StreamOf(Emit(streams, users, b), u), ReceiptKey(c, u)) == Latest(StreamOf(streams, u), ReceiptKey(c, u))
    {
      EmitAt(streams, users, b, u);
      LatestAppend(StreamOf(streams, u), b, ReceiptKey(c, u));
    }
  }

  lemma EmitConfirmed(deliveries: Deliveries, streams: Streams, applied: map<(Id, Id), nat>, users: set<Id>, b: Body)
    requires ConfirmedOk(deliveries, streams, applied)
    ensures ConfirmedOk(deliveries, Emit(streams, users, b), applied)
  {
    forall d | d in applied
      ensures applied[d] <= |StreamOf(Emit(streams, users, b), d.0)|
      ensures forall i :: 0 <= i < applied[d] ==> StreamOf(Emit(streams, users, b), d.0)[i] == StreamOf(streams, d.0)[i]
    {
      EmitAt(streams, users, b, d.0);
    }
  }

  lemma EmitRedacted(deliveries: Deliveries, streams: Streams, users: set<Id>, b: Body)
    requires RedactedOk(deliveries, streams) && !b.Message?
    ensures RedactedOk(deliveries, Emit(streams, users, b))
  {
    forall u, i | 0 <= i < |StreamOf(Emit(streams, users, b), u)| && i < |StreamOf(streams, u)|
      ensures StreamOf(Emit(streams, users, b), u)[i] == StreamOf(streams, u)[i]
    {
      EmitAt(streams, users, b, u);
    }
    forall u ensures |StreamOf(Emit(streams, users, b), u)| <= |StreamOf(streams, u)| + 1
      && (|StreamOf(Emit(streams, users, b), u)| > |StreamOf(streams, u)| ==>
          StreamOf(Emit(streams, users, b), u)[|StreamOf(streams, u)|] == b) { EmitAt(streams, users, b, u); }
  }

  // ---------- the whole invariant, in six groups ----------

  ghost predicate MembershipOk(users: set<Id>, created: map<(Id, Id), Id>, infos: Infos, rosters: Rosters,
                               positions: Positions, history: Positions)
  {
    RostersOk(infos, rosters, positions, history) && OwnersOk(infos, rosters) && (users == {} ==> created == map[])
  }

  ghost predicate LedgerOk(infos: Infos, messages: Msgs, deliveries: Deliveries, counters: Counters,
                           positions: Positions, history: Positions)
  {
    && NumbersOk(messages)
    && PositionsOk(messages, positions, history)
    && RowsOk(infos, messages, deliveries)
    && ReadsOk(messages, deliveries, positions, history)
    && CountersOk(messages, deliveries, counters)
  }

  ghost predicate FlagsOk(messages: Msgs, deliveries: Deliveries) {
    StatusOk(deliveries) && RecallsOk(messages, deliveries) && PurgesOk(messages)
  }

  ghost predicate FeedsOk(infos: Infos, messages: Msgs, deliveries: Deliveries, positions: Positions,
                          history: Positions, files: map<Id, nat>, streams: Streams)
  {
    && StreamsOk(streams)
    && EntriesOk(infos, messages, deliveries, positions, history, files, streams)
    && CarriedOk(deliveries, streams)
  }

  ghost predicate CurrentOk(infos: Infos, rosters: Rosters, deliveries: Deliveries, counters: Counters,
                            positions: Positions, history: Positions, streams: Streams)
  {
    && CountsCurrent(deliveries, counters, streams)
    && ConversationsCurrent(infos, rosters, streams)
    && ReceiptsCurrent(positions, history, streams)
  }

  ghost predicate SafetyOk(deliveries: Deliveries, streams: Streams, applied: map<(Id, Id), nat>) {
    ConfirmedOk(deliveries, streams, applied) && RedactedOk(deliveries, streams)
  }

  ghost predicate Inv(db: Db) {
    && MembershipOk(db.users, db.created, db.infos, db.rosters, db.positions, db.history)
    && LedgerOk(db.infos, db.messages, db.deliveries, db.counters, db.positions, db.history)
    && FlagsOk(db.messages, db.deliveries)
    && FeedsOk(db.infos, db.messages, db.deliveries, db.positions, db.history, db.files, db.streams)
    && CurrentOk(db.infos, db.rosters, db.deliveries, db.counters, db.positions, db.history, db.streams)
    && SafetyOk(db.deliveries, db.streams, db.applied)
  }

  lemma EmitSafety(deliveries: Deliveries, streams: Streams, applied: map<(Id, Id), nat>, users: set<Id>, b: Body)
    requires SafetyOk(deliveries, streams, applied) && !b.Message?
    ensures SafetyOk(deliveries, Emit(streams, users, b), applied)
  {
    EmitConfirmed(deliveries, streams, applied, users, b);
    EmitRedacted(deliveries, streams, users, b);
  }
}
