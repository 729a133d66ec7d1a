/** Whole runs of the server: any sequence of operations from the empty database. */
module ServerRun {
  import opened SyncEvents
  import opened ServerState
  import opened ServerStreams
  import opened ServerInvariants
  import opened ServerMembership
  import opened ServerMessages
  import opened ServerReceipts
  import opened ServerBurn
  import opened ServerConfirm
  import opened ServerProgress

  /** One transaction.  Fresh ids, clocks and the order of query results are inputs. */
  datatype Op =
    | Login(user: Id)
    | Create(newConv: Id, info: Info, clientId: Id, ids: seq<Id>, now: int)
    | Rename(operator: Id, conv: Id, title: string, now: int)
    | Add(operator: Id, conv: Id, ids: seq<Id>, now: int)
    | Join(user: Id, conv: Id, now: int)
    | Remove(operator: Id, conv: Id, ids: seq<Id>, now: int)
    | Leave(user: Id, conv: Id, now: int)
    | Send(newId: Id, draft: Msg, clientId: Id, now: int)
    | ReadUpTo(user: Id, conv: Id, requested: nat, now: int, burning: bool, changed: seq<Id>)
    | Recall(user: Id, conv: Id, msg: Id, now: int)
    | Burn(rows: seq<(Id, Id)>, now: int)
    | Purge(purged: seq<Id>)
    | Confirm(user: Id, device: Id, cursor: nat, now: int, listed: seq<Id>)
    | FileUpdate(file: Id, conv: Id, users: set<Id>, transferred: nat, completed: bool, now: int)

  ghost predicate Enabled(db: Db, op: Op) {
    match op
    case Create(conv, _, _, _, _) => conv != "" && conv !in db.infos
    case Send(m, draft, _, _) => m != "" && m !in db.messages && draft.conv in db.infos
    case ReadUpTo(user, conv, requested, _, _, changed) => ListsChanged(db, user, conv, requested, changed)
    case Confirm(user, device, cursor, _, listed) => ListsDelivered(db, user, device, cursor, listed)
    case FileUpdate(file, _, _, _, _, _) => file != ""
    case _ => true
  }

  function Next(db: Db, op: Op): Db {
    match op
    case Login(user) => EnsureUser(db, user)
    case Create(conv, info, clientId, ids, now) => CreateConversation(db, conv, info, clientId, ids, now).0
    case Rename(operator, conv, title, now) => RenameConversation(db, operator, conv, title, now).0
    case Add(operator, conv, ids, now) => AddMembers(db, operator, conv, ids, now).0
    case Join(user, conv, now) => JoinConversation(db, user, conv, now).0
    case Remove(operator, conv, ids, now) => RemoveMembers(db, operator, conv, ids, now).0
    case Leave(user, conv, now) => LeaveConversation(db, user, conv, now).0
    case Send(m, draft, clientId, now) => AppendMessage(db, m, draft, clientId, now)
    case ReadUpTo(user, conv, requested, now, burning, changed) =>
      ApplyReceipt(db, user, conv, requested, now, burning, changed).0
    case Recall(user, conv, m, now) => ApplyRecall(db, user, conv, m, now).0
    case Burn(rows, now) => BurnSweep(db, rows, now)
    case Purge(rows) => PurgeSweep(db, rows)
    case Confirm(user, device, cursor, now, listed) => ConfirmApplied(db, user, device, cursor, now, listed).0
    case FileUpdate(file, conv, users, transferred, completed, now) =>
      UpdateFile(db, file, conv, users, transferred, completed, now)
  }

  ghost predicate Legal(db: Db, ops: seq<Op>)
    decreases ops
  {
    ops != [] ==> Enabled(db, ops[0]) && Legal(Next(db, ops[0]), ops[1..])
  }

  function After(db: Db, ops: seq<Op>): Db
    decreases ops
  {
    if ops == [] then db else After(Next(db, ops[0]), ops[1..])
  }

  lemma EmptyInv()
    ensures Inv(EMPTY_DB)
  {
    var e := EMPTY_DB;
    assert forall c :: Numbers(e.messages, c) == {};
    assert forall c :: Top(e.messages, c) == 0;
    EmptyStreams();
  }

  lemma EmptyStreams()
    ensures FeedsOk(map[], map[], map[], map[], map[], map[], map[])
    ensures CurrentOk(map[], map[], map[], map[], map[], map[], map[])
  {
    assert forall u: Id :: StreamOf(map[], u) == [];
    forall c, u ensures Latest(StreamOf(map[], u), ReceiptKey(c, u)) == None { }
  }

  predicate ChangesMembership(op: Op) {
    op.Login? || op.Create? || op.Rename? || op.Add? || op.Join? || op.Remove? || op.Leave?
  }

  /** Membership operations keep the invariant. */
  lemma MembershipStep(db: Db, op: Op)
    requires Inv(db) && Enabled(db, op)
    requires ChangesMembership(op)
    ensures Inv(Next(db, op)) && Announced(db, Next(db, op))
  {
    if op.Login? || op.Create? || op.Rename? { FoundingStep(db, op); } else { MemberStep(db, op); }
  }

  lemma FoundingStep(db: Db, op: Op)
    requires Inv(db) && Enabled(db, op) && (op.Login? || op.Create? || op.Rename?)
    ensures Inv(Next(db, op)) && Announced(db, Next(db, op))
  {
    match op
    case Login(user) => LoginKeeps(db, user);
    case Create(conv, info, clientId, ids, now) => CreateKeeps(db, conv, info, clientId, ids, now);
    case Rename(operator, conv, title, now) => RenameKeeps(db, operator, conv, title, now);
  }

  lemma MemberStep(db: Db, op: Op)
    requires Inv(db) && (op.Add? || op.Join? || op.Remove? || op.Leave?)
    ensures Inv(Next(db, op)) && Announced(db, Next(db, op))
  {
    match op
    case Add(operator, conv, ids, now) => AddKeeps(db, operator, conv, ids, now);
    case Join(user, conv, now) => JoinKeeps(db, user, conv, now);
    case Remove(operator, conv, ids, now) => RemoveKeeps(db, operator, conv, ids, now);
    case Leave(user, conv, now) => LeaveKeeps(db, user, conv, now);
  }

  lemma MessageStep(db: Db, op: Op)
    requires Inv(db) && Enabled(db, op) && (op.Send? || op.ReadUpTo? || op.Recall?)
    ensures Inv(Next(db, op))
  {
    if op.Send? { SendStep(db, op); } else if op.ReadUpTo? { ReadStep(db, op); } else { RecallStep(db, op); }
  }

  lemma SendStep(db: Db, op: Op)
    requires Inv(db) && Enabled(db, op) && op.Send?
    ensures Inv(Next(db, op))
  {
    AppendKeeps(db, op.newId, op.draft, op.clientId, op.now);
  }

  lemma ReadStep(db: Db, op: Op)
    requires Inv(db) && Enabled(db, op) && op.ReadUpTo?
    ensures Inv(Next(db, op))
  {
    ReceiptKeeps(db, op.user, op.conv, op.requested, op.now, op.burning, op.changed);
  }

  lemma RecallStep(db: Db, op: Op)
    requires Inv(db) && op.Recall?
    ensures Inv(Next(db, op))
  {
    RecallKeeps(db, op.user, op.conv, op.msg, op.now);
  }

  lemma SweepStep(db: Db, op: Op)
    requires Inv(db) && Enabled(db, op) && (op.Burn? || op.Purge?)
    ensures Inv(Next(db, op))
  {
    match op
    case Burn(rows, now) => SweepKeeps(db, rows, now);
    case Purge(rows) => PurgeKeeps(db, rows);
  }

  lemma DeviceStep(db: Db, op: Op)
    requires Inv(db) && Enabled(db, op) && (op.Confirm? || op.FileUpdate?)
    ensures Inv(Next(db, op))
  {
    match op
    case Confirm(user, device, cursor, now, listed) => ConfirmKeeps(db, user, device, cursor, now, listed);
    case FileUpdate(file, conv, users, transferred, completed, now) =>
      FileKeeps(db, file, conv, users, transferred, completed, now);
  }

  lemma StepKeeps(db: Db, op: Op)
    requires Inv(db) && Enabled(db, op)
    ensures Inv(Next(db, op))
  {
    if op.Send? || op.ReadUpTo? || op.Recall? { MessageStep(db, op); }
    else if op.Burn? || op.Purge? { SweepStep(db, op); }
    else if op.Confirm? || op.FileUpdate? { DeviceStep(db, op); }
    else { MembershipStep(db, op); }
  }

  lemma RecallStepProgress(db: Db, user: Id, conv: Id, m: Id, now: int)
    ensures Progresses(db, ApplyRecall(db, user, conv, m, now).0)
  {
    RecallOutcome(db, user, conv, m, now);
    if ApplyRecall(db, user, conv, m, now).1 == Some(true) {
      RecallProgress(db, m, UserSet(RosterOf(db, conv)), EndBody(m, conv, user, now), now);
    } else {
      ProgressesSelf(db);
    }
  }

  lemma TableProgress(db: Db, op: Op)
    requires op.ReadUpTo? || op.Recall? || op.Burn? || op.Purge? || op.Confirm? || op.FileUpdate?
    ensures Progresses(db, Next(db, op))
  {
    match op
    case ReadUpTo(user, conv, requested, now, burning, changed) =>
      ReceiptProgress(db, user, conv, requested, now, burning, changed);
    case Recall(user, conv, m, now) => RecallStepProgress(db, user, conv, m, now);
    case Burn(rows, now) => SweepProgress(db, rows, now);
    case Purge(rows) => PurgeProgress(db, rows);
    case Confirm(user, device, cursor, now, listed) => ConfirmProgress(db, user, device, cursor, now, listed);
    case FileUpdate(file, conv, users, transferred, completed, now) =>
      FileProgress(db, file, conv, users, transferred, completed, now);
  }

  lemma SendProgress(db: Db, op: Op)
    requires Inv(db) && Enabled(db, op) && op.Send?
    ensures Progresses(db, Next(db, op))
  {
    RowMessages(db);
    AppendProgress(db, op.newId, op.draft, op.clientId, op.now);
  }

  lemma MembershipProgress(db: Db, op: Op)
    requires Inv(db) && Enabled(db, op)
    requires ChangesMembership(op)
    ensures Progresses(db, Next(db, op))
  {
    MembershipStep(db, op);
    AnnouncedProgress(db, Next(db, op));
  }

  lemma StepProgress(db: Db, op: Op)
    requires Inv(db) && Enabled(db, op)
    ensures Progresses(db, Next(db, op))
  {
    if op.Send? { SendProgress(db, op); }
    else if ChangesMembership(op) { MembershipProgress(db, op); }
    else { TableProgress(db, op); }
  }

  /** Every reachable state satisfies the invariant, and nothing listed in Progresses is ever undone. */
  lemma {:induction false} RunKeeps(db: Db, ops: seq<Op>)
    requires Inv(db) && Legal(db, ops)
    ensures Inv(After(db, ops)) && Progresses(db, After(db, ops))
    decreases ops
  {
    if ops == [] {
      ProgressesSelf(db);
    } else {
      StepKeeps(db, ops[0]);
      StepProgress(db, ops[0]);
      RunKeeps(Next(db, ops[0]), ops[1..]);
      ProgressesTrans(db, Next(db, ops[0]), After(db, ops));
    }
  }

  ghost predicate Reachable(db: Db) {
    exists ops :: Legal(EMPTY_DB, ops) && db == After(EMPTY_DB, ops)
  }

  lemma ReachableInv(db: Db)
    requires Reachable(db)
    ensures Inv(db)
  {
    var ops :| Legal(EMPTY_DB, ops) && db == After(EMPTY_DB, ops);
    EmptyInv();
    RunKeeps(EMPTY_DB, ops);
  }

  lemma ReachableTables(db: Db)
    requires Reachable(db)
    ensures LedgerOk(db.infos, db.messages, db.deliveries, db.counters, db.positions, db.history)
    ensures FlagsOk(db.messages, db.deliveries)
  {
    ReachableInv(db);
  }

  // ---------- what the invariant says, in the terms of the tables ----------

  /** For every row of a recipient, read_at is set exactly when the message's number is within the
      reader's position (member row, or history after leaving); positions never pass the maximum. */
  lemma ReadState(db: Db, m: Id, u: Id)
    requires Reachable(db) && (m, u) in db.deliveries
    ensures m in db.messages
    ensures u != db.messages[m].sender ==>
      (db.deliveries[(m, u)].readAt.Some?
       <==> db.messages[m].number <= Position(db.positions, db.history, db.messages[m].conv, u))
    ensures Position(db.positions, db.history, db.messages[m].conv, u) <= Top(db.messages, db.messages[m].conv)
  {
    ReachableTables(db);
    assert (m, u).0 == m && (m, u).1 == u;
  }

  /** The counters table never differs from one rebuilt from nothing over every message. */
  lemma CountersRebuilt(db: Db)
    requires Reachable(db)
    ensures db.counters == map m | m in db.messages :: CountRow(db.messages, db.deliveries, m)
  {
    ReachableTables(db);
    CountersOf(db);
  }

  lemma CountersOf(db: Db)
    requires CountersOk(db.messages, db.deliveries, db.counters)
    ensures db.counters == map m | m in db.messages :: CountRow(db.messages, db.deliveries, m)
  {
  }

  /** Recalled exactly when every delivery row is burned, and purged only then. */
  lemma RecalledIffBurned(db: Db, m: Id)
    requires Reachable(db) && m in db.messages
    ensures db.messages[m].recalled <==> AllBurned(db.deliveries, m)
    ensures exists u :: (m, u) in db.deliveries
    ensures db.messages[m].purged ==> AllBurned(db.deliveries, m)
  {
    ReachableTables(db);
    SomeHolder(db, m);
  }

  lemma SomeHolder(db: Db, m: Id)
    requires RowsOk(db.infos, db.messages, db.deliveries) && m in db.messages
    ensures exists u :: (m, u) in db.deliveries
  {
    HoldersIff(db.deliveries, m);
    var u :| u in Holders(db.deliveries, m);
    assert (m, u) in db.deliveries;
  }

  /** Once a row is burned, every later page of that user's stream shows the message without a body. */
  lemma RedactedEverAfter(db: Db, ops: seq<Op>, m: Id, u: Id, i: nat)
    requires Reachable(db) && Legal(db, ops)
    requires (m, u) in db.deliveries && db.deliveries[(m, u)].burnedAt.Some?
    requires i < |StreamOf(After(db, ops).streams, u)|
    ensures var b := StreamOf(After(db, ops).streams, u)[i]; b.Message? && b.id == m ==> Redacted(b)
  {
    SafeAfter(db, ops);
    BurnedStays(db.deliveries, After(db, ops).deliveries, (m, u));
    EntryRedacted(After(db, ops).deliveries, After(db, ops).streams, u, i);
  }

  lemma SafeAfter(db: Db, ops: seq<Op>)
    requires Reachable(db) && Legal(db, ops)
    ensures RedactedOk(After(db, ops).deliveries, After(db, ops).streams)
    ensures RowsRise(db.deliveries, After(db, ops).deliveries)
  {
    ReachableInv(db);
    RunKeeps(db, ops);
  }

  lemma BurnedStays(a: Deliveries, b: Deliveries, k: (Id, Id))
    requires RowsRise(a, b) && k in a && a[k].burnedAt.Some?
    ensures k in b && b[k].burnedAt == a[k].burnedAt
  {
    assert RowRises(a[k], b[k]);
  }

  lemma EntryRedacted(deliveries: Deliveries, streams: Streams, u: Id, i: nat)
    requires RedactedOk(deliveries, streams) && i < |StreamOf(streams, u)|
    ensures var b := StreamOf(streams, u)[i];
            b.Message? && (b.id, u) in deliveries && deliveries[(b.id, u)].burnedAt.Some? ==> Redacted(b)
  {
  }

  /** Numbers of a conversation are exactly 1..Top, one message each. */
  lemma DenseNumbers(db: Db, conv: Id, i: nat)
    requires Reachable(db)
    ensures 1 <= i <= Top(db.messages, conv) <==> NumberTaken(db.messages, conv, i)
  {
    ReachableTables(db);
    DenseIn(db.messages, conv, i);
  }

  lemma DenseIn(messages: Msgs, conv: Id, i: nat)
    requires NumbersOk(messages)
    ensures 1 <= i <= Top(messages, conv) <==> NumberTaken(messages, conv, i)
  {
    if NumberTaken(messages, conv, i) {
      var m :| m in messages && messages[m].conv == conv && messages[m].number == i;
      TopBound(messages, m);
    }
  }

  /** Numbers follow the order of sending: whatever happens later, a message keeps its number, and every
      message sent to the conversation afterwards has a larger one than all that were there. */
  lemma SendOrder(db: Db, ops: seq<Op>, m: Id, n: Id)
    requires Reachable(db) && Legal(db, ops) && m in db.messages
    requires n in After(db, ops).messages && n !in db.messages && After(db, ops).messages[n].conv == db.messages[m].conv
    ensures m in After(db, ops).messages && After(db, ops).messages[m].number == db.messages[m].number
    ensures db.messages[m].number <= Top(db.messages, db.messages[m].conv) < After(db, ops).messages[n].number
  {
    ReachableInv(db);
    RunKeeps(db, ops);
    NewNumber(db.messages, After(db, ops).messages, n);
    TopBound(db.messages, m);
    assert MsgRises(db.messages[m], After(db, ops).messages[m]);
  }

  lemma NewNumber(a: Msgs, b: Msgs, n: Id)
    requires NumbersOk(a) && NumbersOk(b) && MessagesRise(a, b) && n in b && n !in a
    ensures b[n].number > Top(a, b[n].conv)
  {
    assert b[n].number <= Top(a, b[n].conv) ==> NumberTaken(a, b[n].conv, b[n].number);
  }

  /** No message event at or below an applied cursor is still 'sent' for its user. */
  lemma ConfirmedDelivered(db: Db, user: Id, device: Id, i: nat)
    requires Reachable(db) && i < Applied(db, user, device)
    ensures Applied(db, user, device) <= |StreamOf(db.streams, user)|
    ensures var b := StreamOf(db.streams, user)[i];
            b.Message? ==> (b.id, user) in db.deliveries && db.deliveries[(b.id, user)].status != Sent
  {
    ReachableInv(db);
    assert (user, device) in db.applied && (user, device).0 == user;
    AppliedCovers(db.deliveries, db.streams, db.applied, (user, device), i);
    EntryHeld(db, user, i);
  }

  lemma AppliedCovers(deliveries: Deliveries, streams: Streams, applied: map<(Id, Id), nat>, d: (Id, Id), i: nat)
    requires ConfirmedOk(deliveries, streams, applied) && d in applied && i < applied[d]
    ensures applied[d] <= |StreamOf(streams, d.0)|
    ensures var b := StreamOf(streams, d.0)[i];
            b.Message? && (b.id, d.0) in deliveries ==> deliveries[(b.id, d.0)].status != Sent
  {
  }

  lemma EntryHeld(db: Db, u: Id, i: nat)
    requires FeedsOk(db.infos, db.messages, db.deliveries, db.positions, db.history, db.files, db.streams)
    requires i < |StreamOf(db.streams, u)|
    ensures var b := StreamOf(db.streams, u)[i]; b.Message? ==> (b.id, u) in db.deliveries
  {
    assert EntryOk(db.infos, db.messages, db.deliveries, db.positions, db.history, db.files, u, StreamOf(db.streams, u)[i]);
  }
}
