/** Create, rename, add, join, remove and leave: read positions survive, and every member's stream
    ends with the conversation as it now stands. */
module ServerMembership {
  import opened SyncEvents
  import opened ServerState
  import opened ServerStreams
  import opened ServerInvariants

  lemma {:induction false} InsertUsers(roster: seq<Member>, m: Member)
    ensures UserSet(InsertMember(roster, m)) == UserSet(roster) + {m.user}
    decreases roster
  {
    if roster == [] || ListedBefore(m, roster[0]) {
      assert forall x :: x in [m] + roster <==> x == m || x in roster;
    } else {
      InsertUsers(roster[1..], m);
      UsersCons(roster);
      var rest := InsertMember(roster[1..], m);
      assert ([roster[0]] + rest)[1..] == rest;
      UsersCons([roster[0]] + rest);
    }
  }

  lemma UsersCons(roster: seq<Member>)
    requires roster != []
    ensures UserSet(roster) == {roster[0].user} + UserSet(roster[1..])
  {
    assert forall x :: x in roster <==> x == roster[0] || x in roster[1..];
  }

  lemma {:induction false} WithoutUsers(roster: seq<Member>, user: Id)
    ensures UserSet(Without(roster, user)) == UserSet(roster) - {user}
    decreases roster
  {
    if roster != [] {
      WithoutUsers(roster[1..], user);
      UsersCons(roster);
      if roster[0].user != user {
        var rest := Without(roster[1..], user);
        assert ([roster[0]] + rest)[1..] == rest;
        UsersCons([roster[0]] + rest);
      }
    }
  }

  /** Same read position for everyone, whatever the membership tables did. */
  ghost predicate SamePositions(a: Db, b: Db) {
    forall c, u :: Position(a.positions, a.history, c, u) == Position(b.positions, b.history, c, u)
  }

  /** What any membership operation leaves: positions and tables as they were, streams extended. */
  ghost predicate Announced(a: Db, b: Db) {
    && b == a.(users := b.users, infos := b.infos, rosters := b.rosters, created := b.created,
               positions := b.positions, history := b.history, streams := b.streams)
    && a.infos.Keys <= b.infos.Keys && SamePositions(a, b) && Extends(a.streams, b.streams)
  }

  /** b is a with membership rows of one conversation changed. */
  ghost predicate Reshaped(a: Db, b: Db, conv: Id) {
    && b == a.(users := b.users, infos := b.infos, rosters := b.rosters, created := b.created,
               positions := b.positions, history := b.history)
    && (b.users == {} ==> a.users == {} && b.created == a.created)
    && SamePositions(a, b)
    && RostersOk(b.infos, b.rosters, b.positions, b.history)
    && a.infos.Keys <= b.infos.Keys && conv in b.infos
    && (forall c :: c in b.infos && c in b.rosters && c != conv ==>
          c in a.infos && c in a.rosters && b.infos[c] == a.infos[c] && b.rosters[c] == a.rosters[c])
  }

  lemma EnrollKeeps(db: Db, conv: Id, user: Id, now: int)
    requires RostersOk(db.infos, db.rosters, db.positions, db.history) && conv in db.infos
    requires !IsMember(db, conv, user)
    ensures Reshaped(db, Enroll(db, conv, user, now), conv)
    ensures UserSet(RosterOf(Enroll(db, conv, user, now), conv)) == UserSet(RosterOf(db, conv)) + {user}
  {
    InsertUsers(RosterOf(db, conv), Member(now, user));
    var e := Enroll(db, conv, user, now);
    assert (conv, user) !in db.positions;
    assert forall c, u :: (c, u) in e.positions <==> (c, u) in db.positions || (c == conv && u == user);
  }

  lemma ReshapedTrans(a: Db, b: Db, c: Db, conv: Id)
    requires Reshaped(a, b, conv) && Reshaped(b, c, conv)
    ensures Reshaped(a, c, conv)
  {
  }

  lemma TailDistinct(ids: seq<Id>)
    requires ids != [] && Distinct(ids)
    ensures Distinct(ids[1..]) && ids[0] !in Listed(ids[1..]) && Listed(ids) == {ids[0]} + Listed(ids[1..])
  {
    assert forall i :: 0 <= i < |ids[1..]| ==> ids[1..][i] == ids[i + 1];
    assert forall u :: u in ids <==> u == ids[0] || u in ids[1..];
  }

  ghost predicate Distinct(ids: seq<Id>) { forall i, j :: 0 <= i < j < |ids| ==> ids[i] != ids[j] }

  lemma {:induction false} EnrollAllKeeps(db: Db, conv: Id, members: seq<Id>, now: int)
    requires RostersOk(db.infos, db.rosters, db.positions, db.history) && conv in db.infos
    requires Distinct(members) && Listed(members) !! UserSet(RosterOf(db, conv))
    ensures Reshaped(db, EnrollAll(db, conv, members, now), conv)
    ensures UserSet(RosterOf(EnrollAll(db, conv, members, now), conv)) == UserSet(RosterOf(db, conv)) + Listed(members)
    decreases members
  {
    if members == [] {
      assert Listed(members) == {};
    } else {
      var one := Enroll(db, conv, members[0], now);
      EnrollKeeps(db, conv, members[0], now);
      TailDistinct(members);
      EnrollAllKeeps(one, conv, members[1..], now);
      ReshapedTrans(db, one, EnrollAll(db, conv, members, now), conv);
    }
  }

  lemma DismissKeeps(db: Db, conv: Id, user: Id)
    requires RostersOk(db.infos, db.rosters, db.positions, db.history) && conv in db.infos
    requires IsMember(db, conv, user)
    ensures Reshaped(db, Dismiss(db, conv, user), conv)
    ensures UserSet(RosterOf(Dismiss(db, conv, user), conv)) == UserSet(RosterOf(db, conv)) - {user}
  {
    WithoutUsers(RosterOf(db, conv), user);
    var d := Dismiss(db, conv, user);
    assert (conv, user) in db.positions;
    assert forall c, u :: (c, u) in d.positions <==> (c, u) in db.positions && !(c == conv && u == user);
  }

  lemma {:induction false} DismissAllKeeps(db: Db, conv: Id, members: seq<Id>)
    requires RostersOk(db.infos, db.rosters, db.positions, db.history) && conv in db.infos
    requires Distinct(members) && Listed(members) <= UserSet(RosterOf(db, conv))
    ensures Reshaped(db, DismissAll(db, conv, members), conv)
    ensures UserSet(RosterOf(DismissAll(db, conv, members), conv)) == UserSet(RosterOf(db, conv)) - Listed(members)
    decreases members
  {
    if members == [] {
      assert Listed(members) == {};
    } else {
      var one := Dismiss(db, conv, members[0]);
      DismissKeeps(db, conv, members[0]);
      TailDistinct(members);
      DismissAllKeeps(one, conv, members[1..]);
      ReshapedTrans(db, one, DismissAll(db, conv, members), conv);
    }
  }

  lemma {:induction false} NotInDistinct(ids: seq<Id>, present: set<Id>)
    ensures Distinct(NotIn(ids, present))
    ensures forall u :: u in NotIn(ids, present) <==> u in ids && u !in present
    decreases ids
  {
    if ids != [] {
      assert forall u :: u in ids <==> u == ids[0] || u in ids[1..];
      if ids[0] in present { NotInDistinct(ids[1..], present); }
      else {
        NotInDistinct(ids[1..], present + {ids[0]});
        assert forall u :: u in [ids[0]] + NotIn(ids[1..], present + {ids[0]})
                       <==> u == ids[0] || u in NotIn(ids[1..], present + {ids[0]});
      }
    }
  }

  lemma {:induction false} TargetsDistinct(ids: seq<Id>, roster: set<Id>, owner: Id)
    ensures Distinct(Targets(ids, roster, owner))
    ensures forall u :: u in Targets(ids, roster, owner) <==> u in ids && u in roster && u != owner
    decreases ids
  {
    if ids != [] {
      assert forall u :: u in ids <==> u == ids[0] || u in ids[1..];
      if ids[0] in roster && ids[0] != owner {
        TargetsDistinct(ids[1..], roster - {ids[0]}, owner);
        var rest := Targets(ids[1..], roster - {ids[0]}, owner);
        assert forall u :: u in [ids[0]] + rest <==> u == ids[0] || u in rest;
      } else {
        TargetsDistinct(ids[1..], roster, owner);
      }
    }
  }

  // ---------- the common last step ----------

  lemma ReshapedLedger(a: Db, b: Db, conv: Id)
    requires Reshaped(a, b, conv)
    requires LedgerOk(a.infos, a.messages, a.deliveries, a.counters, a.positions, a.history)
    ensures LedgerOk(b.infos, b.messages, b.deliveries, b.counters, b.positions, b.history)
  {
    forall c, u ensures Position(b.positions, b.history, c, u) <= Top(b.messages, c) {
      assert Position(a.positions, a.history, c, u) <= Top(a.messages, c);
    }
  }

  lemma ReshapedFeeds(a: Db, b: Db, conv: Id, targets: set<Id>, body: Body)
    requires Reshaped(a, b, conv) && body.Conversation? && body.conv == conv && conv != ""
    requires FeedsOk(a.infos, a.messages, a.deliveries, a.positions, a.history, a.files, a.streams)
    ensures FeedsOk(b.infos, b.messages, b.deliveries, b.positions, b.history, b.files, Emit(b.streams, targets, body))
  {
    EmitStreams(b.streams, targets, body);
    EmitCarried(b.deliveries, b.streams, targets, body);
    forall u, i | 0 <= i < |StreamOf(b.streams, u)|
      ensures EntryOk(b.infos, b.messages, b.deliveries, b.positions, b.history, b.files, u, StreamOf(b.streams, u)[i])
    {
      assert EntryOk(a.infos, a.messages, a.deliveries, a.positions, a.history, a.files, u, StreamOf(a.streams, u)[i]);
    }
    EmitEntries(b.infos, b.messages, b.deliveries, b.positions, b.history, b.files, b.streams, targets, body);
  }

  lemma ReshapedCurrent(a: Db, b: Db, conv: Id, targets: set<Id>, now: int)
    requires Reshaped(a, b, conv) && UserSet(RosterOf(b, conv)) <= targets
    requires CurrentOk(a.infos, a.rosters, a.deliveries, a.counters, a.positions, a.history, a.streams)
    ensures CurrentOk(b.infos, b.rosters, b.deliveries, b.counters, b.positions, b.history,
                      Emit(b.streams, targets, ConversationBody(b, conv, now)))
  {
    var body := ConversationBody(b, conv, now);
    forall c, u
      ensures var l := Latest(StreamOf(b.streams, u), ReceiptKey(c, u));
              Position(b.positions, b.history, c, u) == (if l.Some? && l.value.Receipt? then l.value.lastRead else 0)
    {
      assert Position(a.positions, a.history, c, u) == Position(b.positions, b.history, c, u);
    }
    EmitReceipts(b.positions, b.history, b.streams, targets, body);
    EmitCounts0(b.deliveries, b.counters, b.streams, targets, body);
    AnnounceReaches(a, b, conv, targets, now);
  }

  lemma AnnounceReaches(a: Db, b: Db, conv: Id, targets: set<Id>, now: int)
    requires Reshaped(a, b, conv) && UserSet(RosterOf(b, conv)) <= targets
    requires ConversationsCurrent(a.infos, a.rosters, a.streams)
    ensures ConversationsCurrent(b.infos, b.rosters, Emit(b.streams, targets, ConversationBody(b, conv, now)))
  {
    var body := ConversationBody(b, conv, now);
    forall c, u | c in b.infos && c in b.rosters && u in UserSet(b.rosters[c])
      ensures var l := Latest(StreamOf(Emit(b.streams, targets, body), u), ConversationKey(c));
              l.Some? && Describes(l.value, b.infos, b.rosters, c)
    {
      LatestConversation(b.streams, targets, body, c, u);
      if c != conv { OtherDescribed(a, b, conv, c, u); }
    }
  }

  lemma LatestConversation(streams: Streams, targets: set<Id>, body: Body, c: Id, u: Id)
    requires body.Conversation?
    ensures Latest(StreamOf(Emit(streams, targets, body), u), ConversationKey(c))
         == if u in targets && c == body.conv then Some(body) else Latest(StreamOf(streams, u), ConversationKey(c))
  {
    EmitAt(streams, targets, body, u);
    LatestAppend(StreamOf(streams, u), body, ConversationKey(c));
  }

  lemma OtherDescribed(a: Db, b: Db, conv: Id, c: Id, u: Id)
    requires Reshaped(a, b, conv) && ConversationsCurrent(a.infos, a.rosters, a.streams)
    requires c != conv && c in b.infos && c in b.rosters && u in UserSet(b.rosters[c])
    ensures var l := Latest(StreamOf(b.streams, u), ConversationKey(c)); l.Some? && Describes(l.value, b.infos, b.rosters, c)
  {
    assert u in UserSet(a.rosters[c]);
    assert Describes(Latest(StreamOf(a.streams, u), ConversationKey(c)).value, a.infos, a.rosters, c);
  }

  /** Every membership operation ends by announcing the rows to a superset of the current members. */
  lemma AnnounceKeeps(a: Db, b: Db, conv: Id, targets: set<Id>, now: int)
    requires Inv(a) && Reshaped(a, b, conv) && OwnersOk(b.infos, b.rosters) && conv != ""
    requires UserSet(RosterOf(b, conv)) <= targets
    ensures Inv(Announce(b, conv, targets, now))
  {
    var body := ConversationBody(b, conv, now);
    ReshapedMembership(a, b, conv);
    ReshapedLedger(a, b, conv);
    ReshapedFeeds(a, b, conv, targets, body);
    ReshapedCurrent(a, b, conv, targets, now);
    EmitSafety(b.deliveries, b.streams, b.applied, targets, body);
  }

  lemma ReshapedMembership(a: Db, b: Db, conv: Id)
    requires Reshaped(a, b, conv) && OwnersOk(b.infos, b.rosters)
    requires MembershipOk(a.users, a.created, a.infos, a.rosters, a.positions, a.history)
    ensures MembershipOk(b.users, b.created, b.infos, b.rosters, b.positions, b.history)
  {
  }

  // ---------- the operations ----------

  /** What an operation has done before it announces: b is ready to be announced to `targets`. */
  ghost predicate Ready(a: Db, b: Db, conv: Id, targets: set<Id>) {
    Reshaped(a, b, conv) && OwnersOk(b.infos, b.rosters) && conv != "" && UserSet(RosterOf(b, conv)) <= targets
  }

  ghost predicate MembersOk(db: Db) {
    MembershipOk(db.users, db.created, db.infos, db.rosters, db.positions, db.history)
  }

  lemma BlankRosters(db: Db, conv: Id, info: Info, clientId: Id)
    requires MembersOk(db) && conv != "" && conv !in db.infos
    ensures var b := Blank(db, conv, info, clientId); RostersOk(b.infos, b.rosters, b.positions, b.history)
  {
    assert forall u :: (conv, u) !in db.positions;
  }

  lemma BlankShape(db: Db, users: set<Id>, conv: Id, info: Info, clientId: Id)
    requires MembersOk(db) && conv != "" && conv !in db.infos && users != {}
    ensures Reshaped(db, Blank(db.(users := users), conv, info, clientId), conv)
    ensures UserSet(RosterOf(Blank(db.(users := users), conv, info, clientId), conv)) == {}
  {
    var b := Blank(db.(users := users), conv, info, clientId);
    BlankRosters(db, conv, info, clientId);
    assert b.positions == db.positions && b.history == db.history;
  }

  lemma CreateShape(db: Db, members: seq<Id>, conv: Id, info: Info, clientId: Id)
    requires MembersOk(db) && conv != "" && conv !in db.infos && members != []
    ensures var b := Blank(WithUsers(db, members), conv, info, clientId);
            Reshaped(db, b, conv) && UserSet(RosterOf(b, conv)) == {}
  {
    var users := if db.users == {} then Listed(members) else db.users;
    assert members[0] in Listed(members);
    BlankShape(db, users, conv, info, clientId);
    assert WithUsers(db, members) == db.(users := users);
  }

  lemma OwnersAfter(a: Db, b: Db, conv: Id)
    requires MembersOk(a) && Reshaped(a, b, conv) && conv in b.rosters
    requires b.infos[conv].owner in UserSet(b.rosters[conv])
    ensures OwnersOk(b.infos, b.rosters)
  {
  }

  lemma CreateReady(db: Db, conv: Id, info: Info, clientId: Id, members: seq<Id>, now: int)
    requires MembersOk(db) && conv != "" && conv !in db.infos && Distinct(members) && info.owner in members
    ensures Ready(db, EnrollAll(Blank(WithUsers(db, members), conv, info, clientId), conv, members, now), conv, Listed(members))
  {
    var made := Blank(WithUsers(db, members), conv, info, clientId);
    CreateShape(db, members, conv, info, clientId);
    EnrollAllKeeps(made, conv, members, now);
    var full := EnrollAll(made, conv, members, now);
    ReshapedTrans(db, made, full, conv);
    OwnersAfter(db, full, conv);
  }

  lemma RenameReady(db: Db, conv: Id, title: string)
    requires MembersOk(db) && conv in db.infos
    ensures Ready(db, db.(infos := db.infos[conv := db.infos[conv].(title := title)]), conv, UserSet(RosterOf(db, conv)))
  {
  }

  lemma AddReady(db: Db, conv: Id, ids: seq<Id>, now: int)
    requires MembersOk(db) && conv in db.infos
    ensures var joining := NotIn(ids, UserSet(RosterOf(db, conv)) + {""});
            var full := EnrollAll(db, conv, joining, now);
            Ready(db, full, conv, UserSet(RosterOf(full, conv)))
  {
    var present := UserSet(RosterOf(db, conv));
    NotInDistinct(ids, present + {""});
    EnrollAllKeeps(db, conv, NotIn(ids, present + {""}), now);
  }

  lemma JoinReady(db: Db, user: Id, conv: Id, now: int)
    requires MembersOk(db) && conv in db.infos && !IsMember(db, conv, user)
    ensures Ready(db, Enroll(db, conv, user, now), conv, UserSet(RosterOf(Enroll(db, conv, user, now), conv)))
  {
    EnrollKeeps(db, conv, user, now);
  }

  lemma RemoveReady(db: Db, conv: Id, ids: seq<Id>)
    requires MembersOk(db) && conv in db.infos
    ensures var before := UserSet(RosterOf(db, conv));
            Ready(db, DismissAll(db, conv, Targets(ids, before, db.infos[conv].owner)), conv, before)
  {
    var before, owner := UserSet(RosterOf(db, conv)), db.infos[conv].owner;
    TargetsDistinct(ids, before, owner);
    DismissAllKeeps(db, conv, Targets(ids, before, owner));
  }

  /** The member row leaves; an owner hands over to the first member listed after them. */
  function Gone(db: Db, user: Id, conv: Id): Db
    requires conv in db.infos && Without(RosterOf(db, conv), user) != []
  {
    var gone := Dismiss(db, conv, user);
    if db.infos[conv].owner != user then gone
    else gone.(infos := gone.infos[conv := gone.infos[conv].(owner := Without(RosterOf(db, conv), user)[0].user)])
  }

  lemma LeaveReady(db: Db, user: Id, conv: Id)
    requires MembersOk(db) && conv in db.infos && IsMember(db, conv, user) && Without(RosterOf(db, conv), user) != []
    ensures Ready(db, Gone(db, user, conv), conv, UserSet(RosterOf(db, conv)))
  {
    var remaining := Without(RosterOf(db, conv), user);
    var gone := Dismiss(db, conv, user);
    DismissKeeps(db, conv, user);
    assert remaining[0] in remaining;
    assert gone.rosters[conv] == remaining;
    if db.infos[conv].owner == user { RenameShape(db, gone, conv, gone.infos[conv].(owner := remaining[0].user)); }
    OwnersAfter(db, Gone(db, user, conv), conv);
  }

  lemma RenameShape(a: Db, b: Db, conv: Id, info: Info)
    requires Reshaped(a, b, conv)
    ensures Reshaped(a, b.(infos := b.infos[conv := info]), conv)
  {
    var c := b.(infos := b.infos[conv := info]);
    assert RostersOk(c.infos, c.rosters, c.positions, c.history);
  }

  lemma ReadyKeeps(a: Db, b: Db, conv: Id, targets: set<Id>, now: int)
    requires Inv(a) && Ready(a, b, conv, targets)
    ensures Inv(Announce(b, conv, targets, now)) && Announced(a, Announce(b, conv, targets, now))
  {
    AnnounceKeeps(a, b, conv, targets, now);
    EmitExtends(b.streams, targets, ConversationBody(b, conv, now));
  }

  lemma LoginKeeps(db: Db, user: Id)
    requires Inv(db)
    ensures Inv(EnsureUser(db, user)) && Announced(db, EnsureUser(db, user))
  {
    AnnouncedSelf(db);
    if user != "" { MoreUsers(db, db.users + {user}); }
  }

  lemma MoreUsers(db: Db, users: set<Id>)
    requires Inv(db) && db.users <= users
    ensures Inv(db.(users := users)) && Announced(db, db.(users := users))
  {
    var r := db.(users := users);
    UsersOnly(db, users);
    assert MembershipOk(r.users, r.created, r.infos, r.rosters, r.positions, r.history);
  }

  lemma UsersOnly(db: Db, users: set<Id>)
    ensures var r := db.(users := users);
            && r.infos == db.infos && r.rosters == db.rosters && r.created == db.created && r.positions == db.positions
            && r.history == db.history && r.messages == db.messages && r.deliveries == db.deliveries && r.counters == db.counters
            && r.streams == db.streams && r.files == db.files && r.applied == db.applied
    ensures Announced(db, db.(users := users))
  {
  }

  lemma CreateKeeps(db: Db, conv: Id, info: Info, clientId: Id, ids: seq<Id>, now: int)
    requires Inv(db) && conv != "" && conv !in db.infos
    ensures var r := CreateConversation(db, conv, info, clientId, ids, now).0;
            Inv(r) && Announced(db, r)
  {
    var members := [info.owner] + NotIn(ids, {info.owner, ""});
    CreateMembers(info.owner, ids);
    CreateReady(db, conv, info, clientId, members, now);
    var full := EnrollAll(Blank(WithUsers(db, members), conv, info, clientId), conv, members, now);
    ReadyKeeps(db, full, conv, Listed(members), now);
    CreateOutcome(db, conv, info, clientId, ids, now);
  }

  lemma CreateOutcome(db: Db, conv: Id, info: Info, clientId: Id, ids: seq<Id>, now: int)
    requires db.users == {} ==> db.created == map[]
    ensures var r := CreateConversation(db, conv, info, clientId, ids, now).0;
            var members := [info.owner] + NotIn(ids, {info.owner, ""});
            r == db || r == Announce(EnrollAll(Blank(WithUsers(db, members), conv, info, clientId), conv, members, now),
                                     conv, Listed(members), now)
  {
  }

  lemma CreateMembers(owner: Id, ids: seq<Id>)
    ensures var members := [owner] + NotIn(ids, {owner, ""}); Distinct(members) && owner in members
  {
    NotInDistinct(ids, {owner, ""});
  }

  lemma AnnouncedSelf(db: Db)
    ensures Announced(db, db)
  {
  }

  lemma RenameOutcome(db: Db, operator: Id, conv: Id, title: string, now: int)
    ensures var r := RenameConversation(db, operator, conv, title, now).0;
            r == db || (conv in db.infos
                        && r == Announce(db.(infos := db.infos[conv := db.infos[conv].(title := title)]), conv,
                                         UserSet(RosterOf(db, conv)), now))
  {
  }

  lemma RenameKeeps(db: Db, operator: Id, conv: Id, title: string, now: int)
    requires Inv(db)
    ensures var r := RenameConversation(db, operator, conv, title, now).0; Inv(r) && Announced(db, r)
  {
    AnnouncedSelf(db);
    RenameOutcome(db, operator, conv, title, now);
    if conv in db.infos {
      RenameReady(db, conv, title);
      ReadyKeeps(db, db.(infos := db.infos[conv := db.infos[conv].(title := title)]), conv, UserSet(RosterOf(db, conv)), now);
    }
  }

  lemma AddOutcome(db: Db, operator: Id, conv: Id, ids: seq<Id>, now: int)
    ensures var r := AddMembers(db, operator, conv, ids, now).0;
            var full := EnrollAll(db, conv, NotIn(ids, UserSet(RosterOf(db, conv)) + {""}), now);
            r == db || (conv in db.infos && r == Announce(full, conv, UserSet(RosterOf(full, conv)), now))
  {
  }

  lemma AddKeeps(db: Db, operator: Id, conv: Id, ids: seq<Id>, now: int)
    requires Inv(db)
    ensures var r := AddMembers(db, operator, conv, ids, now).0; Inv(r) && Announced(db, r)
  {
    AnnouncedSelf(db);
    AddOutcome(db, operator, conv, ids, now);
    if conv in db.infos {
      AddReady(db, conv, ids, now);
      var full := EnrollAll(db, conv, NotIn(ids, UserSet(RosterOf(db, conv)) + {""}), now);
      ReadyKeeps(db, full, conv, UserSet(RosterOf(full, conv)), now);
    }
  }

  lemma JoinOutcome(db: Db, user: Id, conv: Id, now: int)
    ensures var r := JoinConversation(db, user, conv, now).0;
            var full := Enroll(db, conv, user, now);
            r == db || (conv in db.infos && !IsMember(db, conv, user)
                        && r == Announce(full, conv, UserSet(RosterOf(full, conv)), now))
  {
  }

  lemma JoinKeeps(db: Db, user: Id, conv: Id, now: int)
    requires Inv(db)
    ensures var r := JoinConversation(db, user, conv, now).0; Inv(r) && Announced(db, r)
  {
    AnnouncedSelf(db);
    JoinOutcome(db, user, conv, now);
    if conv in db.infos && !IsMember(db, conv, user) {
      JoinReady(db, user, conv, now);
      var full := Enroll(db, conv, user, now);
      ReadyKeeps(db, full, conv, UserSet(RosterOf(full, conv)), now);
    }
  }

  lemma RemoveOutcome(db: Db, operator: Id, conv: Id, ids: seq<Id>, now: int)
    ensures var r := RemoveMembers(db, operator, conv, ids, now).0;
            var before := UserSet(RosterOf(db, conv));
            r == db || (conv in db.infos && db.infos[conv].owner == operator
                        && r == Announce(DismissAll(db, conv, Targets(ids, before, operator)), conv, before, now))
  {
  }

  lemma RemoveKeeps(db: Db, operator: Id, conv: Id, ids: seq<Id>, now: int)
    requires Inv(db)
    ensures var r := RemoveMembers(db, operator, conv, ids, now).0; Inv(r) && Announced(db, r)
  {
    AnnouncedSelf(db);
    RemoveOutcome(db, operator, conv, ids, now);
    if conv in db.infos && db.infos[conv].owner == operator {
      RemoveReady(db, conv, ids);
      var before := UserSet(RosterOf(db, conv));
      ReadyKeeps(db, DismissAll(db, conv, Targets(ids, before, operator)), conv, before, now);
    }
  }

  predicate Leaves(db: Db, user: Id, conv: Id) {
    conv in db.infos && IsMember(db, conv, user) && Without(RosterOf(db, conv), user) != []
  }

  lemma LeaveOutcome(db: Db, user: Id, conv: Id, now: int)
    ensures var r := LeaveConversation(db, user, conv, now).0;
            r == db || (Leaves(db, user, conv) && r == Announce(Gone(db, user, conv), conv, UserSet(RosterOf(db, conv)), now))
  {
  }

  lemma LeaveKeeps(db: Db, user: Id, conv: Id, now: int)
    requires Inv(db)
    ensures var r := LeaveConversation(db, user, conv, now).0; Inv(r) && Announced(db, r)
  {
    AnnouncedSelf(db);
    LeaveOutcome(db, user, conv, now);
    if Leaves(db, user, conv) {
      LeaveReady(db, user, conv);
      ReadyKeeps(db, Gone(db, user, conv), conv, UserSet(RosterOf(db, conv)), now);
    }
  }
}
