/** What each accepted operation achieves, in terms of what anyone can observe: who belongs, where each
    reader stands, which rows are burned, and what every user's stream gained. */
module ServerEffects {
  import opened SyncEvents
  import opened ServerState
  import opened ServerStreams
  import opened ServerInvariants
  import opened ServerMembership
  import opened ServerMessages
  import opened ServerReceipts
  import opened ServerBurn
  import opened ServerConfirm

  function MembersOf(db: Db, conv: Id): set<Id> { UserSet(RosterOf(db, conv)) }

  /** Exactly the targets got one more event, the conversation as it now stands. */
  ghost predicate Told(a: Db, b: Db, conv: Id, targets: set<Id>, now: int) {
    && conv in b.infos
    && forall u :: StreamOf(b.streams, u) == StreamOf(a.streams, u) + if u in targets then [ConversationBody(b, conv, now)] else []
  }

  /** No other conversation and no reader's position changed. */
  ghost predicate OnlyHere(a: Db, b: Db, conv: Id) {
    && (forall c :: c in a.infos && c != conv ==> c in b.infos && b.infos[c] == a.infos[c] && MembersOf(b, c) == MembersOf(a, c))
    && (forall c, u :: Position(b.positions, b.history, c, u) == Position(a.positions, a.history, c, u))
  }

  predicate Administers(db: Db, operator: Id, conv: Id) {
    conv in db.infos && db.infos[conv].group && db.infos[conv].owner == operator
  }

  lemma ReshapedHere(a: Db, b: Db, conv: Id)
    requires Reshaped(a, b, conv) && RostersOk(a.infos, a.rosters, a.positions, a.history)
    ensures OnlyHere(a, b, conv)
  {
  }

  lemma AnnounceTells(a: Db, b: Db, conv: Id, targets: set<Id>, now: int)
    requires conv in b.infos && b.streams == a.streams
    ensures Told(a, Announce(b, conv, targets, now), conv, targets, now)
    ensures OnlyHere(a, b, conv) ==> OnlyHere(a, Announce(b, conv, targets, now), conv)
  {
    var r, body := Announce(b, conv, targets, now), ConversationBody(b, conv, now);
    AnnouncedFields(b, conv, targets, now);
    forall u ensures StreamOf(r.streams, u) == StreamOf(a.streams, u) + if u in targets then [body] else [] {
      EmitAt(b.streams, targets, body, u);
    }
  }

  // ---------- membership ----------

  function Founders(owner: Id, ids: seq<Id>): seq<Id> { [owner] + NotIn(ids, {owner, ""}) }

  lemma FoundersAre(owner: Id, ids: seq<Id>)
    ensures Distinct(Founders(owner, ids)) && Listed(Founders(owner, ids)) == {owner} + (Listed(ids) - {""})
  {
    NotInDistinct(ids, {owner, ""});
    assert forall u :: u in Founders(owner, ids) <==> u == owner || u in NotIn(ids, {owner, ""});
  }

  /** A known client id is answered as done; unknown users are refused, unless there is no user yet. */
  lemma CreateVerdict(db: Db, conv: Id, info: Info, clientId: Id, ids: seq<Id>, now: int)
    requires db.users == {} ==> db.created == map[]
    ensures var r := CreateConversation(db, conv, info, clientId, ids, now); var members := {info.owner} + (Listed(ids) - {""});
            && (r.1 == None <==> db.users != {} && !(members - {""} <= db.users))
            && (r.1 == Some(false) <==> r.1 != None && (info.owner, clientId) in db.created)
            && (r.1 != Some(true) ==> r.0 == db)
            && (r.1 == Some(true) ==> r.0 == Announce(Founded(db, conv, info, clientId, ids, now), conv, members, now))
  {
    FoundersAre(info.owner, ids);
    assert UsersExist(db, Founders(info.owner, ids)) <==> Listed(Founders(info.owner, ids)) - {""} <= db.users;
  }

  function Founded(db: Db, conv: Id, info: Info, clientId: Id, ids: seq<Id>, now: int): (r: Db)
    ensures conv in r.infos && r.infos[conv] == info
  {
    EnrollAll(Blank(WithUsers(db, Founders(info.owner, ids)), conv, info, clientId), conv, Founders(info.owner, ids), now)
  }

  lemma FoundedIs(db: Db, conv: Id, info: Info, clientId: Id, ids: seq<Id>, now: int)
    requires MembersOk(db) && conv != "" && conv !in db.infos
    ensures var full := Founded(db, conv, info, clientId, ids, now);
            OnlyHere(db, full, conv) && MembersOf(full, conv) == {info.owner} + (Listed(ids) - {""}) && full.streams == db.streams
  {
    var members := Founders(info.owner, ids);
    FoundersAre(info.owner, ids);
    var made := Blank(WithUsers(db, members), conv, info, clientId);
    CreateShape(db, members, conv, info, clientId);
    EnrollAllKeeps(made, conv, members, now);
    ReshapedTrans(db, made, EnrollAll(made, conv, members, now), conv);
    ReshapedHere(db, EnrollAll(made, conv, members, now), conv);
  }

  /** The owner and the listed users are the members, and each of them is told. */
  lemma CreateEffect(db: Db, conv: Id, info: Info, clientId: Id, ids: seq<Id>, now: int)
    requires MembersOk(db) && conv != "" && conv !in db.infos && (db.users == {} ==> db.created == map[])
    requires CreateConversation(db, conv, info, clientId, ids, now).1 == Some(true)
    ensures var r := CreateConversation(db, conv, info, clientId, ids, now).0; var members := {info.owner} + (Listed(ids) - {""});
            && OnlyHere(db, r, conv) && MembersOf(r, conv) == members && Told(db, r, conv, members, now)
            && r.infos[conv] == info
  {
    var full, members := Founded(db, conv, info, clientId, ids, now), {info.owner} + (Listed(ids) - {""});
    CreateVerdict(db, conv, info, clientId, ids, now);
    FoundedIs(db, conv, info, clientId, ids, now);
    AnnounceTells(db, full, conv, members, now);
    AnnouncedFields(full, conv, members, now);
  }

  lemma RenameEffect(db: Db, operator: Id, conv: Id, title: string, now: int)
    requires MembersOk(db)
    ensures var r := RenameConversation(db, operator, conv, title, now);
            && (r.1 == None <==> !Administers(db, operator, conv))
            && (r.1 == Some(true) <==> Administers(db, operator, conv) && db.infos[conv].title != title)
            && (r.1 != Some(true) ==> r.0 == db)
            && (r.1 == Some(true) ==>
                  && OnlyHere(db, r.0, conv) && MembersOf(r.0, conv) == MembersOf(db, conv)
                  && Told(db, r.0, conv, MembersOf(db, conv), now)
                  && r.0.infos[conv].title == title && r.0.infos[conv].owner == operator)
  {
    if Administers(db, operator, conv) {
      var renamed := db.(infos := db.infos[conv := db.infos[conv].(title := title)]);
      RenameReady(db, conv, title);
      ReshapedHere(db, renamed, conv);
      AnnounceTells(db, renamed, conv, MembersOf(db, conv), now);
    }
  }

  /** Exactly the listed users who were not members join, all or none. */
  lemma AddEffect(db: Db, operator: Id, conv: Id, ids: seq<Id>, now: int)
    requires MembersOk(db)
    ensures var r := AddMembers(db, operator, conv, ids, now); var joining := Listed(ids) - MembersOf(db, conv) - {""};
            && (r.1 == None <==> !Administers(db, operator, conv) || !(joining <= db.users))
            && (r.1 != None ==> (r.1 == Some(true) <==> joining != {}))
            && (r.1 != Some(true) ==> r.0 == db)
            && (r.1 == Some(true) ==>
                  && OnlyHere(db, r.0, conv) && r.0.infos == db.infos && MembersOf(r.0, conv) == MembersOf(db, conv) + joining
                  && Told(db, r.0, conv, MembersOf(r.0, conv), now))
  {
    var present := MembersOf(db, conv);
    var joining := NotIn(ids, present + {""});
    NotInDistinct(ids, present + {""});
    assert Listed(joining) == Listed(ids) - present - {""};
    assert joining == [] <==> Listed(joining) == {} by { if joining != [] { assert joining[0] in Listed(joining); } }
    assert UsersExist(db, joining) <==> Listed(joining) <= db.users;
    if Administers(db, operator, conv) {
      EnrollAllKeeps(db, conv, joining, now);
      var full := EnrollAll(db, conv, joining, now);
      ReshapedHere(db, full, conv);
      AnnounceTells(db, full, conv, MembersOf(full, conv), now);
    }
  }

  lemma JoinEffect(db: Db, user: Id, conv: Id, now: int)
    requires MembersOk(db)
    ensures var r := JoinConversation(db, user, conv, now); var open := conv in db.infos && db.infos[conv].group && user in db.users;
            && (r.1 == None <==> !open)
            && (r.1 == Some(true) <==> open && user !in MembersOf(db, conv))
            && (r.1 != Some(true) ==> r.0 == db)
            && (r.1 == Some(true) ==>
                  && OnlyHere(db, r.0, conv) && r.0.infos == db.infos && MembersOf(r.0, conv) == MembersOf(db, conv) + {user}
                  && Told(db, r.0, conv, MembersOf(r.0, conv), now))
  {
    if conv in db.infos && !IsMember(db, conv, user) {
      var full := Enroll(db, conv, user, now);
      EnrollKeeps(db, conv, user, now);
      ReshapedHere(db, full, conv);
      AnnounceTells(db, full, conv, MembersOf(full, conv), now);
    }
  }

  /** Exactly the listed members other than the owner leave, and hear of it. */
  lemma RemoveEffect(db: Db, operator: Id, conv: Id, ids: seq<Id>, now: int)
    requires MembersOk(db)
    ensures var r := RemoveMembers(db, operator, conv, ids, now); var leaving := Listed(ids) * MembersOf(db, conv) - {operator};
            && (r.1 == None <==> !Administers(db, operator, conv))
            && (r.1 == Some(true) <==> Administers(db, operator, conv) && leaving != {})
            && (r.1 != Some(true) ==> r.0 == db)
            && (r.1 == Some(true) ==>
                  && OnlyHere(db, r.0, conv) && r.0.infos == db.infos && MembersOf(r.0, conv) == MembersOf(db, conv) - leaving
                  && Told(db, r.0, conv, MembersOf(db, conv), now))
  {
    var before := MembersOf(db, conv);
    var leaving := Targets(ids, before, operator);
    TargetsDistinct(ids, before, operator);
    assert Listed(leaving) == Listed(ids) * before - {operator};
    assert leaving == [] <==> Listed(leaving) == {} by { if leaving != [] { assert leaving[0] in Listed(leaving); } }
    if Administers(db, operator, conv) {
      DismissAllKeeps(db, conv, leaving);
      var gone := DismissAll(db, conv, leaving);
      ReshapedHere(db, gone, conv);
      AnnounceTells(db, gone, conv, before, now);
    }
  }

  predicate MayLeave(db: Db, user: Id, conv: Id) {
    conv in db.infos && db.infos[conv].group && {user} < MembersOf(db, conv)
  }

  lemma SomeoneRemains(roster: seq<Member>, user: Id)
    ensures UserSet(Without(roster, user)) == UserSet(roster) - {user}
    ensures Without(roster, user) != [] <==> UserSet(roster) - {user} != {}
  {
    var remaining := Without(roster, user);
    WithoutUsers(roster, user);
    if remaining != [] { assert remaining[0] in remaining; assert remaining[0].user in UserSet(remaining); }
  }

  /** Leaving is refused exactly to strangers and to the last member. */
  lemma LeaveVerdict(db: Db, user: Id, conv: Id, now: int)
    ensures var r := LeaveConversation(db, user, conv, now);
            && (r.1 == Some(true) <==> MayLeave(db, user, conv)) && r.1 != Some(false)
            && (if MayLeave(db, user, conv)
                then Leaves(db, user, conv) && r.0 == Announce(Gone(db, user, conv), conv, MembersOf(db, conv), now)
                else r.0 == db)
  {
    SomeoneRemains(RosterOf(db, conv), user);
    var all := MembersOf(db, conv);
    assert {user} < all <==> user in all && all - {user} != {} by {
      if user in all && all - {user} != {} { var x :| x in all - {user}; assert x !in {user}; }
    }
  }

  lemma GoneIs(db: Db, user: Id, conv: Id)
    requires Leaves(db, user, conv)
    ensures var gone := Gone(db, user, conv); var d := Dismiss(db, conv, user);
            && gone.streams == db.streams && gone.users == db.users && gone.rosters == d.rosters
            && gone.positions == d.positions && gone.history == d.history
            && RosterOf(gone, conv) == Without(RosterOf(db, conv), user) && conv in gone.infos
            && gone.infos[conv] == db.infos[conv].(owner := if db.infos[conv].owner == user then RosterOf(gone, conv)[0].user
                                                            else db.infos[conv].owner)
  {
  }

  lemma AnnouncedFields(db: Db, conv: Id, targets: set<Id>, now: int)
    requires conv in db.infos
    ensures var r := Announce(db, conv, targets, now);
            && r.users == db.users && r.infos == db.infos && r.rosters == db.rosters
            && r.positions == db.positions && r.history == db.history
            && ConversationBody(r, conv, now) == ConversationBody(db, conv, now)
            && r.streams == Emit(db.streams, targets, ConversationBody(db, conv, now))
  {
  }

  /** Everyone else stays; an owner hands over to the first member still listed. */
  lemma LeaveEffect(db: Db, user: Id, conv: Id, now: int)
    requires MembersOk(db) && MayLeave(db, user, conv)
    ensures var r := LeaveConversation(db, user, conv, now).0;
            && OnlyHere(db, r, conv) && MembersOf(r, conv) == MembersOf(db, conv) - {user}
            && Told(db, r, conv, MembersOf(db, conv), now)
            && RosterOf(r, conv) != []
            && r.infos[conv] == db.infos[conv].(owner := if db.infos[conv].owner == user then RosterOf(r, conv)[0].user
                                                         else db.infos[conv].owner)
  {
    LeaveVerdict(db, user, conv, now);
    var gone := Gone(db, user, conv);
    SomeoneRemains(RosterOf(db, conv), user);
    GoneIs(db, user, conv);
    AnnouncedFields(gone, conv, MembersOf(db, conv), now);
    GoneHere(db, user, conv);
    AnnounceTells(db, gone, conv, MembersOf(db, conv), now);
  }

  lemma GoneHere(db: Db, user: Id, conv: Id)
    requires MembersOk(db) && Leaves(db, user, conv)
    ensures OnlyHere(db, Gone(db, user, conv), conv)
  {
    LeaveReady(db, user, conv);
    ReshapedHere(db, Gone(db, user, conv), conv);
  }

  lemma DismissKeepsPlace(db: Db, user: Id, conv: Id)
    requires RostersOk(db.infos, db.rosters, db.positions, db.history) && conv in db.infos && IsMember(db, conv, user)
    ensures var d := Dismiss(db, conv, user);
            && (conv, user) in db.positions && (conv, user) in d.history
            && d.positions == db.positions - {(conv, user)} && d.history[(conv, user)] == db.positions[(conv, user)]
  {
    assert user in UserSet(db.rosters[conv]);
  }

  /** What a leaver leaves behind: the position moves from the member row to the history. */
  lemma LeaveKeepsPlace(db: Db, user: Id, conv: Id, now: int)
    requires MembersOk(db) && MayLeave(db, user, conv)
    ensures var left := LeaveConversation(db, user, conv, now).0;
            && left.users == db.users && conv in left.infos && left.infos[conv].group
            && (conv, user) in db.positions && (conv, user) in left.history
            && left.positions == db.positions - {(conv, user)} && left.history[(conv, user)] == db.positions[(conv, user)]
  {
    LeaveVerdict(db, user, conv, now);
    GoneIs(db, user, conv);
    AnnouncedFields(Gone(db, user, conv), conv, MembersOf(db, conv), now);
    DismissKeepsPlace(db, user, conv);
  }

  lemma RejoinedPositions(left: Db, positions: Positions, user: Id, conv: Id, later: int)
    requires (conv, user) in positions && left.positions == positions - {(conv, user)}
    requires (conv, user) in left.history && left.history[(conv, user)] == positions[(conv, user)]
    requires JoinConversation(left, user, conv, later).1 == Some(true)
    ensures JoinConversation(left, user, conv, later).0.positions == positions
  {
  }

  /** Joining undoes leaving: the same members, and every reader where they stood. */
  lemma LeaveThenJoin(db: Db, user: Id, conv: Id, now: int, later: int)
    requires Inv(db) && user in db.users && MayLeave(db, user, conv)
    ensures var r := JoinConversation(LeaveConversation(db, user, conv, now).0, user, conv, later);
            r.1 == Some(true) && MembersOf(r.0, conv) == MembersOf(db, conv) && r.0.positions == db.positions
  {
    LeaveKeeps(db, user, conv, now);
    Rejoin(db, user, conv, now, later);
  }

  lemma Rejoin(db: Db, user: Id, conv: Id, now: int, later: int)
    requires MembersOk(db) && user in db.users && MayLeave(db, user, conv)
    requires MembersOk(LeaveConversation(db, user, conv, now).0)
    ensures var r := JoinConversation(LeaveConversation(db, user, conv, now).0, user, conv, later);
            r.1 == Some(true) && MembersOf(r.0, conv) == MembersOf(db, conv) && r.0.positions == db.positions
  {
    var left := LeaveConversation(db, user, conv, now).0;
    LeaveEffect(db, user, conv, now);
    LeaveKeepsPlace(db, user, conv, now);
    JoinEffect(left, user, conv, later);
    RejoinedPositions(left, db.positions, user, conv, later);
  }

  /** A user who has logged in can join any group, at any time. */
  lemma LoginThenJoin(db: Db, user: Id, conv: Id, now: int)
    requires MembersOk(db) && user != "" && conv in db.infos && db.infos[conv].group
    ensures var r := JoinConversation(EnsureUser(db, user), user, conv, now);
            r.1 != None && MembersOf(r.0, conv) == MembersOf(db, conv) + {user} && db.users <= r.0.users
  {
    var known := EnsureUser(db, user);
    assert MembersOk(known);
    JoinEffect(known, user, conv, now);
    JoinOutcome(known, user, conv, now);
    var full := Enroll(known, conv, user, now);
    AnnouncedFields(full, conv, UserSet(RosterOf(full, conv)), now);
    assert user in MembersOf(db, conv) ==> MembersOf(db, conv) + {user} == MembersOf(db, conv);
  }

  // ---------- messages ----------

  /** One row per member, read for the sender only; no row that was there changes. */
  lemma SendRows(db: Db, m: Id, draft: Msg, clientMsgId: Id, now: int, k: (Id, Id))
    ensures var rows := AppendMessage(db, m, draft, clientMsgId, now).deliveries; var posted := k.0 == m && k.1 in MembersOf(db, draft.conv);
            && (k in rows <==> k in db.deliveries || posted)
            && (k in db.deliveries && !posted ==> rows[k] == db.deliveries[k])
            && (posted ==> rows[k].burnedAt.None? && rows[k].status == if k.1 == draft.sender then Read else Sent)
  {
    AppendDeliveries(db, m, draft, clientMsgId, now);
    PostRowsAt(db.deliveries, m, MembersOf(db, draft.conv), Numbered(db, draft, now), now, k);
  }

  /** One event to each member and to nobody else, carrying the number and the unread count. */
  lemma SendEvents(db: Db, m: Id, draft: Msg, clientMsgId: Id, now: int, u: Id)
    ensures var r := AppendMessage(db, m, draft, clientMsgId, now);
            && m in r.messages && m in r.counters && r.counters[m].unread == |MembersOf(db, draft.conv) - {draft.sender}|
            && StreamOf(r.streams, u) == StreamOf(db.streams, u) + if u !in MembersOf(db, draft.conv) then [] else
                 [Message(m, draft.conv, draft.sender, clientMsgId, r.messages[m].number, draft.isFile, draft.content, now, false, false,
                          r.counters[m].unread)]
  {
    var row := Numbered(db, draft, now);
    EmitAt(db.streams, MembersOf(db, draft.conv), MessageBody(db, m, row, clientMsgId), u);
  }

  // ---------- receipts ----------

  /** Accepted exactly when it moves the position on. */
  lemma ReceiptVerdict(db: Db, user: Id, conv: Id, requested: nat, now: int, burning: bool, changed: seq<Id>)
    ensures var r := ApplyReceipt(db, user, conv, requested, now, burning, changed);
            && (r.1 == None <==> (conv, user) !in db.positions)
            && (r.1 == Some(true) <==> (conv, user) in db.positions && db.positions[(conv, user)] < requested
                                       && db.positions[(conv, user)] < Top(db.messages, conv))
            && (r.1 != Some(true) ==> r.0 == db)
            && (r.1 == Some(true) <==> Advances(db, user, conv, requested))
  {
  }

  /** The position it leads to: what was asked for, but never past the last message. */
  lemma ReceiptPosition(db: Db, user: Id, conv: Id, requested: nat, now: int, burning: bool, changed: seq<Id>, c: Id, u: Id)
    requires Advances(db, user, conv, requested)
    ensures var r := ApplyReceipt(db, user, conv, requested, now, burning, changed).0; var top := Top(db.messages, conv);
            Position(r.positions, r.history, c, u)
            == if (c, u) != (conv, user) then Position(db.positions, db.history, c, u) else if requested < top then requested else top
  {
    ReceiptOutcomePositions(db, user, conv, requested, now, burning, changed);
  }

  lemma ReceiptOutcomePositions(db: Db, user: Id, conv: Id, requested: nat, now: int, burning: bool, changed: seq<Id>)
    requires Advances(db, user, conv, requested)
    ensures var r := ApplyReceipt(db, user, conv, requested, now, burning, changed).0;
            r.history == db.history && r.positions == db.positions[(conv, user) := NewPosition(db, user, conv, requested)]
  {
  }

  /** Every member hears of the new position first, then the holders of each changed message of its count. */
  lemma ReceiptEvents(db: Db, user: Id, conv: Id, requested: nat, now: int, burning: bool, changed: seq<Id>, u: Id)
    requires Advances(db, user, conv, requested)
    ensures var r := ApplyReceipt(db, user, conv, requested, now, burning, changed).0;
            StreamOf(db.streams, u) + (if u in MembersOf(db, conv) then [Receipt(conv, user, NewPosition(db, user, conv, requested), now)] else [])
            <= StreamOf(r.streams, u)
  {
    var r := ApplyReceipt(db, user, conv, requested, now, burning, changed).0;
    var receipt := Receipt(conv, user, NewPosition(db, user, conv, requested), now);
    EmitAt(db.streams, MembersOf(db, conv), receipt, u);
    CountsExtend(Emit(db.streams, MembersOf(db, conv), receipt), r.deliveries, r.counters, changed);
  }

  lemma {:induction false} CountsExtend(streams: Streams, deliveries: Deliveries, counters: Counters, changed: seq<Id>)
    ensures forall u :: StreamOf(streams, u) <= StreamOf(EmitCounts(streams, deliveries, counters, changed), u)
    decreases changed
  {
    if changed != [] {
      if changed[0] in counters {
        var c := counters[changed[0]];
        var b := ReadCount(changed[0], c.conv, if c.unread > 0 then c.unread else 0);
        var next := Emit(streams, Holders(deliveries, changed[0]), b);
        forall u { EmitAt(streams, Holders(deliveries, changed[0]), b, u); }
        CountsExtend(next, deliveries, counters, changed[1..]);
      } else {
        CountsExtend(streams, deliveries, counters, changed[1..]);
      }
    }
  }

  /** The reader's rows up to the position become read, and a timed message starts to burn; no other row changes. */
  lemma ReceiptRows(db: Db, user: Id, conv: Id, requested: nat, now: int, burning: bool, changed: seq<Id>, k: (Id, Id))
    requires Advances(db, user, conv, requested) && k in db.deliveries && k.0 in db.messages
    ensures var r := ApplyReceipt(db, user, conv, requested, now, burning, changed).0;
            var low, high := db.positions[(conv, user)], NewPosition(db, user, conv, requested);
            var a, m := db.deliveries[k], db.messages[k.0];
            && k in r.deliveries
            && (if k.1 == user && a.conv == conv && low < a.number <= high then r.deliveries[k].status == Read && r.deliveries[k].readAt.Some?
                else r.deliveries[k] == a)
            && (k.1 == user && a.conv == conv && low < a.number <= high && m.sender != user && m.burnAfterRead && m.ttl > 0 && burning
                && a.burnedAt.None? && a.burnStartedAt.None? && a.burnAt.None?
                ==> r.deliveries[k].burnAt == Some(now + m.ttl * 1000))
            && (m.ttl == 0 || !m.burnAfterRead || !burning ==> r.deliveries[k].burnAt == a.burnAt)
  {
  }

  /** What a receipt means: of the others' messages here, exactly those up to the position are read now. */
  lemma ReceiptReads(db: Db, user: Id, conv: Id, requested: nat, now: int, burning: bool, changed: seq<Id>, m: Id)
    requires Inv(db) && ListsChanged(db, user, conv, requested, changed) && Advances(db, user, conv, requested)
    requires (m, user) in db.deliveries && m in db.messages && db.messages[m].conv == conv && db.messages[m].sender != user
    ensures var r := ApplyReceipt(db, user, conv, requested, now, burning, changed).0; var top := Top(db.messages, conv);
            (m, user) in r.deliveries
            && (r.deliveries[(m, user)].readAt.Some? <==> db.messages[m].number <= if requested < top then requested else top)
  {
    var r := ApplyReceipt(db, user, conv, requested, now, burning, changed).0;
    ReceiptReadsOk(db, user, conv, requested, now, burning, changed);
    ReceiptPosition(db, user, conv, requested, now, burning, changed, conv, user);
    ReceiptRows(db, user, conv, requested, now, burning, changed, (m, user));
    ReceiptMessages(db, user, conv, requested, now, burning, changed);
    ReadAt(r, m, user);
  }

  lemma ReceiptReadsOk(db: Db, user: Id, conv: Id, requested: nat, now: int, burning: bool, changed: seq<Id>)
    requires Inv(db) && ListsChanged(db, user, conv, requested, changed)
    ensures var r := ApplyReceipt(db, user, conv, requested, now, burning, changed).0;
            ReadsOk(r.messages, r.deliveries, r.positions, r.history)
  {
    ReceiptKeeps(db, user, conv, requested, now, burning, changed);
  }

  lemma ReceiptMessages(db: Db, user: Id, conv: Id, requested: nat, now: int, burning: bool, changed: seq<Id>)
    ensures ApplyReceipt(db, user, conv, requested, now, burning, changed).0.messages == db.messages
  {
  }

  lemma ReadAt(db: Db, m: Id, u: Id)
    requires ReadsOk(db.messages, db.deliveries, db.positions, db.history)
    requires (m, u) in db.deliveries && m in db.messages && u != db.messages[m].sender
    ensures db.deliveries[(m, u)].readAt.Some? <==> db.messages[m].number <= Position(db.positions, db.history, db.messages[m].conv, u)
  {
    assert (m, u).0 == m && (m, u).1 == u;
  }

  /** Receipts are idempotent: the same one again, or any lower one, changes nothing and is acknowledged. */
  lemma ReceiptTwice(db: Db, user: Id, conv: Id, requested: nat, now: int, burning: bool, changed: seq<Id>,
                     again: nat, later: int, listed: seq<Id>)
    requires (conv, user) in db.positions && again <= requested
    ensures var r := ApplyReceipt(db, user, conv, requested, now, burning, changed).0;
            ApplyReceipt(r, user, conv, again, later, burning, listed) == (r, Some(false))
  {
    var r := ApplyReceipt(db, user, conv, requested, now, burning, changed).0;
    ReceiptMessages(db, user, conv, requested, now, burning, changed);
    ReceiptVerdict(db, user, conv, requested, now, burning, changed);
    if Advances(db, user, conv, requested) { ReceiptOutcomePositions(db, user, conv, requested, now, burning, changed); }
    ReceiptVerdict(r, user, conv, again, later, burning, listed);
  }

  // ---------- recall, burn and purge ----------

  /** Accepted once, from the sender only; then no row of the message is left unburned. */
  lemma RecallEffect(db: Db, user: Id, conv: Id, m: Id, now: int)
    ensures var r := ApplyRecall(db, user, conv, m, now);
            var own := m in db.messages && db.messages[m].conv == conv && db.messages[m].sender == user;
            && (r.1 == None <==> !own) && (r.1 == Some(true) <==> own && !db.messages[m].recalled)
            && (r.1 != Some(true) ==> r.0 == db)
            && (r.1 == Some(true) ==>
                  && r.0.messages == db.messages[m := db.messages[m].(recalled := true)] && AllBurned(r.0.deliveries, m)
                  && r.0.deliveries.Keys == db.deliveries.Keys
                  && (forall k :: k in db.deliveries && k.0 != m ==> r.0.deliveries[k] == db.deliveries[k]))
  {
    RecallBurns(db.deliveries, m, now);
  }

  /** Every stored copy loses its body, for members and former members alike; members hear of the recall. */
  lemma RecallEvents(db: Db, user: Id, conv: Id, m: Id, now: int, u: Id)
    requires ApplyRecall(db, user, conv, m, now).1 == Some(true)
    ensures var r := ApplyRecall(db, user, conv, m, now).0; var s, t := StreamOf(db.streams, u), StreamOf(r.streams, u);
            && |t| == |s| + (if u in MembersOf(db, conv) then 1 else 0)
            && (forall i :: 0 <= i < |s| && !(s[i].Message? && s[i].id == m) ==> t[i] == s[i])
            && (forall i :: 0 <= i < |s| && s[i].Message? && s[i].id == m ==> t[i].Message? && t[i].id == m && Redacted(t[i]))
            && (u in MembersOf(db, conv) ==> t[|s|] == Terminal(m, conv, user, now, user == SYSTEM_BURN))
  {
    var faded := Redact(db.streams, m, db.streams.Keys);
    RedactAt(db.streams, m, db.streams.Keys, u);
    EmitAt(faded, MembersOf(db, conv), EndBody(m, conv, user, now), u);
  }

  lemma BurnStepRow(db: Db, first: (Id, Id), now: int, k: (Id, Id))
    requires k in db.deliveries
    ensures var r := BurnStep(db, first, now);
            && r.messages == db.messages && k in r.deliveries
            && r.deliveries[k] == if k == first && IsDue(db, k, now) then db.deliveries[k].(burnedAt := Some(now)) else db.deliveries[k]
  {
  }

  lemma DueAgain(a: Db, b: Db, k: (Id, Id), now: int)
    requires a.messages == b.messages && k in a.deliveries && k in b.deliveries && a.deliveries[k] == b.deliveries[k]
    ensures IsDue(a, k, now) <==> IsDue(b, k, now)
  {
  }

  lemma DoneOnce(db: Db, k: (Id, Id), now: int)
    requires k in db.deliveries && db.deliveries[k].burnedAt.Some?
    ensures !IsDue(db, k, now)
  {
  }

  /** The sweep burns exactly the listed rows that were due. */
  lemma {:induction false} SweepRows(db: Db, rows: seq<(Id, Id)>, now: int, k: (Id, Id))
    requires k in db.deliveries
    ensures k in BurnRows(db, rows, now).deliveries
    ensures BurnRows(db, rows, now).deliveries[k]
         == if k in rows && IsDue(db, k, now) then db.deliveries[k].(burnedAt := Some(now)) else db.deliveries[k]
    decreases rows
  {
    if rows != [] {
      var one := BurnStep(db, rows[0], now);
      BurnStepRow(db, rows[0], now, k);
      SweepRows(one, rows[1..], now, k);
      assert k in rows <==> k == rows[0] || k in rows[1..];
      if one.deliveries[k] == db.deliveries[k] { DueAgain(db, one, k, now); } else { DoneOnce(one, k, now); }
    }
  }

  function Blanked(row: Msg): Msg { row.(content := PurgedContent(row.isFile, row.content), purged := true) }

  lemma PurgeOneTables(db: Db, first: Id)
    ensures PurgeOne(db, first).deliveries == db.deliveries
    ensures PurgeOne(db, first).messages == if IsPurgeable(db, first) then db.messages[first := Blanked(db.messages[first])] else db.messages
  {
  }

  lemma PurgeOneRow(db: Db, first: Id, m: Id)
    requires m in db.messages
    ensures var r := PurgeOne(db, first);
            && r.deliveries == db.deliveries && m in r.messages
            && r.messages[m] == if m == first && IsPurgeable(db, m) then Blanked(db.messages[m]) else db.messages[m]
  {
    PurgeOneTables(db, first);
  }

  lemma PurgeableAgain(a: Db, b: Db, m: Id)
    requires a.deliveries == b.deliveries && m in a.messages && m in b.messages && a.messages[m] == b.messages[m]
    ensures IsPurgeable(a, m) <==> IsPurgeable(b, m)
  {
  }

  /** The purge blanks exactly the listed messages that were purgeable, and touches no delivery row. */
  lemma {:induction false} PurgeRows(db: Db, rows: seq<Id>, m: Id)
    requires m in db.messages
    ensures PurgeSweep(db, rows).deliveries == db.deliveries && m in PurgeSweep(db, rows).messages
    ensures PurgeSweep(db, rows).messages[m] == if m in rows && IsPurgeable(db, m) then Blanked(db.messages[m]) else db.messages[m]
    decreases rows
  {
    if rows != [] {
      var one := PurgeOne(db, rows[0]);
      PurgeOneRow(db, rows[0], m);
      PurgeRows(one, rows[1..], m);
      assert m in rows <==> m == rows[0] || m in rows[1..];
      if one.messages[m] == db.messages[m] { PurgeableAgain(db, one, m); }
    }
  }

  // ---------- confirmation ----------

  lemma ConfirmVerdict(db: Db, user: Id, device: Id, cursor: nat, now: int, listed: seq<Id>)
    ensures var r := ConfirmApplied(db, user, device, cursor, now, listed);
            && (r.1 == None <==> device == "" || cursor > |StreamOf(db.streams, user)|)
            && (r.1 == Some(true) <==> Confirms(db, user, device, cursor))
            && (forall u, d :: Applied(r.0, u, d) == if Confirms(db, user, device, cursor) && (u, d) == (user, device) then cursor else Applied(db, u, d))
  {
    ConfirmOutcome(db, user, device, cursor, now, listed);
    DeliverAllProgress(db, user, listed, now);
  }

  /** After a confirmation a row is past 'sent' exactly if it was before or the prefix carries its message. */
  lemma ConfirmRows(db: Db, user: Id, device: Id, cursor: nat, now: int, listed: seq<Id>, m: Id)
    requires Confirms(db, user, device, cursor) && ListsDelivered(db, user, device, cursor, listed)
    requires SafetyOk(db.deliveries, db.streams, db.applied) && (m, user) in db.deliveries && m in db.messages
    ensures var r := ConfirmApplied(db, user, device, cursor, now, listed).0;
            (m, user) in r.deliveries
            && (r.deliveries[(m, user)].status != Sent
                <==> db.deliveries[(m, user)].status != Sent || CarriesMessage(StreamOf(db.streams, user), 0, cursor, m))
  {
    var r := ConfirmApplied(db, user, device, cursor, now, listed).0;
    OnlyCovered(db, user, device, cursor, now, listed, (m, user));
    ConfirmOutcome(db, user, device, cursor, now, listed);
    if db.deliveries[(m, user)].status == Sent && CarriesMessage(StreamOf(db.streams, user), 0, cursor, m) {
      var i :| 0 <= i < cursor && StreamOf(db.streams, user)[i].Message? && StreamOf(db.streams, user)[i].id == m;
      CoveredEntry(db, user, device, cursor, listed, i);
      DeliverAllReaches(db, user, listed, now, m);
    }
  }
}
