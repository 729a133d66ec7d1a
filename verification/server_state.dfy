/** The server database as maps of rows, and each repository operation as the state it leaves.
    An UPDATE over a range is a map comprehension; a loop over rows is a recursion. */
module ServerState {
  import opened SyncEvents

  datatype Info = Info(group: bool, title: string, owner: Id)

  datatype Member = Member(joinedAt: int, user: Id)

  datatype Msg = Msg(conv: Id, sender: Id, number: nat, isFile: bool, content: Content, createdAt: int,
                     recalled: bool, burnAfterRead: bool, ttl: nat, purged: bool)

  datatype DeliveryRow = DeliveryRow(conv: Id, number: nat, status: Status, sentAt: int,
                                     deliveredAt: Option<int>, readAt: Option<int>,
                                     burnStartedAt: Option<int>, burnAt: Option<int>, burnedAt: Option<int>)

  datatype Counter = Counter(conv: Id, number: nat, members: nat, readers: nat, unread: int)

  type Infos = map<Id, Info>
  type Rosters = map<Id, seq<Member>>
  /** Keyed by (conversation, user): the member row's last_read_seq, and the read history. */
  type Positions = map<(Id, Id), nat>
  type Msgs = map<Id, Msg>
  /** Keyed by (message, user). */
  type Deliveries = map<(Id, Id), DeliveryRow>
  type Counters = map<Id, Counter>
  /** One dense stream per user: entry i carries global_seq i + 1. */
  type Streams = map<Id, seq<Body>>

  datatype Db = Db(users: set<Id>, infos: Infos, rosters: Rosters, created: map<(Id, Id), Id>,
                   positions: Positions, history: Positions,
                   messages: Msgs, deliveries: Deliveries, counters: Counters,
                   streams: Streams, files: map<Id, nat>, applied: map<(Id, Id), nat>)

  const EMPTY_DB: Db := Db({}, map[], map[], map[], map[], map[], map[], map[], map[], map[], map[], map[])

  const SYSTEM_BURN: Id := "system-burn"

  // ---------- streams ----------

  function StreamOf(streams: Streams, user: Id): seq<Body> {
    if user in streams then streams[user] else []
  }

  /** AppendSyncEvents: the same body at the end of each listed user's stream. */
  function Emit(streams: Streams, users: set<Id>, b: Body): Streams {
    map u | u in streams.Keys + users :: if u in users then StreamOf(streams, u) + [b] else streams[u]
  }

  /** The latest entry that claims a slot. */
  function Latest(s: seq<Body>, k: Key): Option<Body>
    decreases |s|
  {
    if s == [] then None
    else if Claims(s[|s| - 1], k) then Some(s[|s| - 1])
    else Latest(s[..|s| - 1], k)
  }

  /** What redaction leaves of a message body: nothing, or for a file message its file id. */
  function PurgedContent(isFile: bool, c: Content): (r: Content)
    ensures r == BLANK || (isFile && c.FileNote? && r == FileNote(c.fileId, ""))
  {
    if isFile && c.FileNote? && c.fileId != "" then FileNote(c.fileId, "") else BLANK
  }

  function RedactBody(b: Body, id: Id): Body {
    if b.Message? && b.id == id then b.(text := PurgedContent(b.isFile, b.text), recalled := true) else b
  }

  function RedactStream(s: seq<Body>, id: Id): seq<Body> {
    seq(|s|, i requires 0 <= i < |s| => RedactBody(s[i], id))
  }

  /** RedactMessageEvents, for every user or for one. */
  function Redact(streams: Streams, id: Id, users: set<Id>): Streams {
    map u | u in streams :: if u in users then RedactStream(streams[u], id) else streams[u]
  }

  // ---------- reading state ----------

  /** A user's read position in a conversation: the member row, or the history after leaving. */
  function Position(positions: Positions, history: Positions, conv: Id, user: Id): nat {
    if (conv, user) in positions then positions[(conv, user)]
    else if (conv, user) in history then history[(conv, user)]
    else 0
  }

  lemma MaxExists(s: set<nat>)
    requires s != {}
    ensures exists top :: top in s && forall x :: x in s ==> x <= top
  {
    var x :| x in s;
    if s - {x} == {} {
      assert s == {x};
    } else {
      MaxExists(s - {x});
      var top :| top in s - {x} && forall y :: y in s - {x} ==> y <= top;
      var best := if x > top then x else top;
      assert best in s && forall y :: y in s ==> y <= best by {
        forall y | y in s ensures y <= best { if y != x { assert y in s - {x}; } }
      }
    }
  }

  /** MAX over a column. */
  function MaxOf(s: set<nat>): (r: nat)
    ensures forall x :: x in s ==> x <= r
    ensures r in s || (s == {} && r == 0)
  {
    if s == {} then 0 else
      MaxExists(s);
      var top :| top in s && forall x :: x in s ==> x <= top;
      top
  }

  function Top(messages: Msgs, conv: Id): nat {
    MaxOf(Numbers(messages, conv))
  }

  function Numbers(messages: Msgs, conv: Id): set<nat> {
    set m | m in messages && messages[m].conv == conv :: messages[m].number
  }

  // ---------- membership ----------

  predicate TextLess(a: string, b: string) {
    if b == "" then false
    else if a == "" then true
    else a[0] < b[0] || (a[0] == b[0] && TextLess(a[1..], b[1..]))
  }

  /** ORDER BY joined_at_ms, user_id. */
  predicate ListedBefore(a: Member, b: Member) {
    a.joinedAt < b.joinedAt || (a.joinedAt == b.joinedAt && TextLess(a.user, b.user))
  }

  function InsertMember(roster: seq<Member>, m: Member): seq<Member>
    decreases roster
  {
    if roster == [] || ListedBefore(m, roster[0]) then [m] + roster
    else [roster[0]] + InsertMember(roster[1..], m)
  }

  function Users(roster: seq<Member>): seq<Id> {
    seq(|roster|, i requires 0 <= i < |roster| => roster[i].user)
  }

  function UserSet(roster: seq<Member>): set<Id> {
    set m | m in roster :: m.user
  }

  function RosterOf(db: Db, conv: Id): seq<Member> {
    if conv in db.rosters then db.rosters[conv] else []
  }

  predicate IsMember(db: Db, conv: Id, user: Id) { user in UserSet(RosterOf(db, conv)) }

  function ConversationBody(db: Db, conv: Id, now: int): Body
    requires conv in db.infos
  {
    Conversation(conv, db.infos[conv].title, db.infos[conv].owner, Users(RosterOf(db, conv)), now)
  }

  /** One conversation_updated event to each target, describing the rows as they now stand. */
  function Announce(db: Db, conv: Id, targets: set<Id>, now: int): Db
    requires conv in db.infos
  {
    db.(streams := Emit(db.streams, targets, ConversationBody(db, conv, now)))
  }

  /** INSERT of a member row, resuming at the preserved read position. */
  function Enroll(db: Db, conv: Id, user: Id, now: int): Db {
    db.(rosters := db.rosters[conv := InsertMember(RosterOf(db, conv), Member(now, user))],
        positions := db.positions[(conv, user) := if (conv, user) in db.history then db.history[(conv, user)] else 0])
  }

  function EnrollAll(db: Db, conv: Id, members: seq<Id>, now: int): (r: Db)
    ensures r == db.(rosters := r.rosters, positions := r.positions)
    decreases members
  {
    if members == [] then db else EnrollAll(Enroll(db, conv, members[0], now), conv, members[1..], now)
  }

  function Without(roster: seq<Member>, user: Id): seq<Member>
    decreases roster
  {
    if roster == [] then []
    else if roster[0].user == user then Without(roster[1..], user)
    else [roster[0]] + Without(roster[1..], user)
  }

  /** PreserveReadPosition, then DELETE of the member row. */
  function Dismiss(db: Db, conv: Id, user: Id): Db {
    var kept := if (conv, user) !in db.positions then db.history else
      var last := db.positions[(conv, user)];
      db.history[(conv, user) :=
        if (conv, user) in db.history && db.history[(conv, user)] > last then db.history[(conv, user)] else last];
    db.(history := kept,
        rosters := db.rosters[conv := Without(RosterOf(db, conv), user)],
        positions := db.positions - {(conv, user)})
  }

  function DismissAll(db: Db, conv: Id, members: seq<Id>): (r: Db)
    ensures r == db.(rosters := r.rosters, positions := r.positions, history := r.history)
    decreases members
  {
    if members == [] then db else DismissAll(Dismiss(db, conv, members[0]), conv, members[1..])
  }

  /** None: refused.  Some(changed): acknowledged, with or without an effect. */
  type Answer = Option<bool>

  /** Blank ids are skipped. */
  predicate UsersExist(db: Db, ids: seq<Id>) { forall u :: u in ids ==> u == "" || u in db.users }

  function Listed(ids: seq<Id>): set<Id> { set u | u in ids }

  /** ensure_user, on every login. */
  function EnsureUser(db: Db, user: Id): Db {
    if user == "" then db else db.(users := db.users + {user})
  }

  /** The rows a new conversation starts from, before its members are enrolled. */
  function Blank(db: Db, conv: Id, info: Info, clientId: Id): Db {
    db.(infos := db.infos[conv := info],
        rosters := db.rosters[conv := []],
        created := db.created[(info.owner, clientId) := conv])
  }

  /** An empty users table is filled from the first conversation's members. */
  function WithUsers(db: Db, members: seq<Id>): Db {
    db.(users := if db.users == {} then Listed(members) else db.users)
  }

  /** `conv` is the fresh id a new conversation would get. */
  function CreateConversation(db: Db, conv: Id, info: Info, clientId: Id, ids: seq<Id>, now: int): (Db, Answer)
  {
    var members := [info.owner] + NotIn(ids, {info.owner, ""});
    if db.users != {} && !UsersExist(db, members) then (db, None)
    else if (info.owner, clientId) in db.created then (WithUsers(db, members), Some(false))
    else
      var made := Blank(WithUsers(db, members), conv, info, clientId);
      (Announce(EnrollAll(made, conv, members, now), conv, Listed(members), now), Some(true))
  }

  function RenameConversation(db: Db, operator: Id, conv: Id, title: string, now: int): (Db, Answer) {
    if conv !in db.infos || !db.infos[conv].group || db.infos[conv].owner != operator then (db, None)
    else if db.infos[conv].title == title then (db, Some(false))
    else
      var renamed := db.(infos := db.infos[conv := db.infos[conv].(title := title)]);
      (Announce(renamed, conv, UserSet(RosterOf(db, conv)), now), Some(true))
  }

  function AddMembers(db: Db, operator: Id, conv: Id, ids: seq<Id>, now: int): (Db, Answer) {
    if conv !in db.infos || !db.infos[conv].group || db.infos[conv].owner != operator then (db, None) else
      var joining := NotIn(ids, UserSet(RosterOf(db, conv)) + {""});
      if joining == [] then (db, Some(false))
      else if !UsersExist(db, joining) then (db, None)
      else
        var enrolled := EnrollAll(db, conv, joining, now);
        (Announce(enrolled, conv, UserSet(RosterOf(enrolled, conv)), now), Some(true))
  }

  /** The listed users outside a set, first occurrences only (blank ids are in the set). */
  function NotIn(ids: seq<Id>, present: set<Id>): seq<Id>
    decreases ids
  {
    if ids == [] then []
    else if ids[0] in present then NotIn(ids[1..], present)
    else [ids[0]] + NotIn(ids[1..], present + {ids[0]})
  }

  function JoinConversation(db: Db, user: Id, conv: Id, now: int): (Db, Answer) {
    if conv !in db.infos || !db.infos[conv].group || user !in db.users then (db, None)
    else if IsMember(db, conv, user) then (db, Some(false))
    else
      var enrolled := Enroll(db, conv, user, now);
      (Announce(enrolled, conv, UserSet(RosterOf(enrolled, conv)), now), Some(true))
  }

  /** The listed members other than the owner, first occurrences only. */
  function Targets(ids: seq<Id>, roster: set<Id>, owner: Id): seq<Id>
    decreases ids
  {
    if ids == [] then []
    else if ids[0] in roster && ids[0] != owner then [ids[0]] + Targets(ids[1..], roster - {ids[0]}, owner)
    else Targets(ids[1..], roster, owner)
  }

  function RemoveMembers(db: Db, operator: Id, conv: Id, ids: seq<Id>, now: int): (Db, Answer) {
    if conv !in db.infos || !db.infos[conv].group || db.infos[conv].owner != operator then (db, None) else
      var before := UserSet(RosterOf(db, conv));
      var leaving := Targets(ids, before, operator);
      if leaving == [] then (db, Some(false))
      else (Announce(DismissAll(db, conv, leaving), conv, before, now), Some(true))
  }

  function LeaveConversation(db: Db, user: Id, conv: Id, now: int): (Db, Answer) {
    if conv !in db.infos || !db.infos[conv].group || !IsMember(db, conv, user) then (db, None) else
      var remaining := Without(RosterOf(db, conv), user);
      if remaining == [] then (db, None) else
        var gone := Dismiss(db, conv, user);
        var owned := if db.infos[conv].owner != user then gone
          else gone.(infos := gone.infos[conv := gone.infos[conv].(owner := remaining[0].user)]);
        (Announce(owned, conv, UserSet(RosterOf(db, conv)), now), Some(true))
  }

  // ---------- messages and reads ----------

  /** The counters row of a message, recomputed from its delivery rows. */
  function CountRow(messages: Msgs, deliveries: Deliveries, m: Id): Counter
    requires m in messages
  {
    var all := Recipients(messages, deliveries, m);
    var read := set u | u in all && deliveries[(m, u)].readAt.Some?;
    Counter(messages[m].conv, messages[m].number, |all|, |read|, |all| - |read|)
  }

  /** Users other than the sender who hold a delivery row of the message. */
  function Recipients(messages: Msgs, deliveries: Deliveries, m: Id): set<Id>
    requires m in messages
  {
    set k | k in deliveries && k.0 == m && k.1 != messages[m].sender :: k.1
  }

  function Holders(deliveries: Deliveries, m: Id): set<Id> {
    set k | k in deliveries && k.0 == m :: k.1
  }

  function NewDelivery(user: Id, sender: Id, conv: Id, number: nat, burns: bool, ttl: nat, now: int): DeliveryRow {
    if user == sender then
      var timed := burns && ttl > 0;
      DeliveryRow(conv, number, Read, now, Some(now), Some(now),
                  if timed then Some(now) else None, if timed then Some(now + ttl * 1000) else None, None)
    else
      DeliveryRow(conv, number, Sent, now, None, None, None, None, None)
  }

  function PostRows(deliveries: Deliveries, m: Id, members: set<Id>, row: Msg, now: int): Deliveries {
    deliveries + (map u | u in members ::
      (m, u) := NewDelivery(u, row.sender, row.conv, row.number, row.burnAfterRead, row.ttl, now))
  }

  /** The row of a new message: next number of its conversation, not yet recalled. */
  function Numbered(db: Db, draft: Msg, now: int): Msg {
    draft.(number := Top(db.messages, draft.conv) + 1, createdAt := now, recalled := false, purged := false)
  }

  function OtherMembers(db: Db, row: Msg): nat { |UserSet(RosterOf(db, row.conv)) - {row.sender}| }

  function MessageBody(db: Db, m: Id, row: Msg, clientMsgId: Id): Body {
    Message(m, row.conv, row.sender, clientMsgId, row.number, row.isFile, row.content, row.createdAt, false, false,
            OtherMembers(db, row))
  }

  /** The message row, a delivery row and an event per member, and the counters row. */
  function Post(db: Db, m: Id, row: Msg, body: Body, now: int): Db {
    var members := UserSet(RosterOf(db, row.conv));
    db.(messages := db.messages[m := row],
        deliveries := PostRows(db.deliveries, m, members, row, now),
        counters := db.counters[m := Counter(row.conv, row.number, OtherMembers(db, row), 0, OtherMembers(db, row))],
        streams := Emit(db.streams, members, body))
  }

  /** The number, time and flags of `draft` are ignored. */
  function AppendMessage(db: Db, m: Id, draft: Msg, clientMsgId: Id, now: int): Db {
    var row := Numbered(db, draft, now);
    Post(db, m, row, MessageBody(db, m, row, clientMsgId), now)
  }

  predicate InRange(row: DeliveryRow, conv: Id, low: nat, high: nat) {
    row.conv == conv && low < row.number <= high
  }

  function OrElse(a: Option<int>, b: int): Option<int> { if a.Some? then a else Some(b) }

  /** Marks a row read and, for a timed message of someone else, starts its burn clock. */
  function ReadRow(row: DeliveryRow, m: Msg, user: Id, now: int, burning: bool): DeliveryRow {
    var read := row.(status := Read, readAt := OrElse(row.readAt, now), deliveredAt := OrElse(row.deliveredAt, now));
    if burning && row.burnedAt.None? && row.burnStartedAt.None? && m.sender != user && m.burnAfterRead && m.ttl > 0
    then read.(burnStartedAt := Some(now), burnAt := OrElse(row.burnAt, now + m.ttl * 1000))
    else read
  }

  function MarkRead(messages: Msgs, deliveries: Deliveries, user: Id, conv: Id, low: nat, high: nat,
                    now: int, burning: bool): Deliveries
  {
    map k | k in deliveries ::
      if k.1 == user && InRange(deliveries[k], conv, low, high) && k.0 in messages
      then ReadRow(deliveries[k], messages[k.0], user, now, burning) else deliveries[k]
  }

  /** RebuildReadCounters over one conversation and a half-open range of numbers. */
  function Rebuild(messages: Msgs, deliveries: Deliveries, counters: Counters, conv: Id, low: nat, high: nat): Counters {
    map m | m in counters.Keys + (set m | m in messages && messages[m].conv == conv && low < messages[m].number <= high) ::
      if m in messages && messages[m].conv == conv && low < messages[m].number <= high
      then CountRow(messages, deliveries, m) else counters[m]
  }

  /** The messages of others that this receipt reads for the first time. */
  function NewlyRead(db: Db, user: Id, conv: Id, low: nat, high: nat): set<Id> {
    set k | k in db.deliveries && k.1 == user && InRange(db.deliveries[k], conv, low, high)
            && db.deliveries[k].readAt.None? && k.0 in db.messages && db.messages[k.0].sender != user :: k.0
  }

  /** AppendReadCounts: the rebuilt count of each listed message, to every holder of a delivery row. */
  function EmitCounts(streams: Streams, deliveries: Deliveries, counters: Counters, changed: seq<Id>): Streams
    decreases changed
  {
    if changed == [] then streams
    else if changed[0] !in counters then EmitCounts(streams, deliveries, counters, changed[1..])
    else
      var c := counters[changed[0]];
      var count := if c.unread > 0 then c.unread else 0;
      EmitCounts(Emit(streams, Holders(deliveries, changed[0]), ReadCount(changed[0], c.conv, count)),
                 deliveries, counters, changed[1..])
  }

  function NewPosition(db: Db, user: Id, conv: Id, requested: nat): nat {
    var prior := Position(db.positions, db.history, conv, user);
    var top := Top(db.messages, conv);
    var capped := if requested < top then requested else top;
    if prior > capped then prior else capped
  }

  /** `changed` lists the newly read messages in whatever order the query returned them. */
  function ApplyReceipt(db: Db, user: Id, conv: Id, requested: nat, now: int, burning: bool, changed: seq<Id>): (Db, Answer) {
    if (conv, user) !in db.positions then (db, None) else
      var prior := db.positions[(conv, user)];
      var next := NewPosition(db, user, conv, requested);
      if next <= prior then (db, Some(false)) else
        var deliveries := MarkRead(db.messages, db.deliveries, user, conv, prior, next, now, burning);
        var counters := Rebuild(db.messages, deliveries, db.counters, conv, prior, next);
        var receipt := Receipt(conv, user, next, now);
        var streams := Emit(db.streams, UserSet(RosterOf(db, conv)), receipt);
        (db.(positions := db.positions[(conv, user) := next], deliveries := deliveries, counters := counters,
             streams := EmitCounts(streams, deliveries, counters, changed)), Some(true))
  }

  // ---------- recall, burn and purge ----------

  function EndBody(m: Id, conv: Id, operator: Id, now: int): Body {
    Terminal(m, conv, operator, now, operator == SYSTEM_BURN)
  }

  function RecalledRows(deliveries: Deliveries, m: Id, now: int): Deliveries {
    map k | k in deliveries ::
      if k.0 == m then deliveries[k].(burnedAt := OrElse(deliveries[k].burnedAt, now)) else deliveries[k]
  }

  function ApplyRecall(db: Db, user: Id, conv: Id, m: Id, now: int): (Db, Answer) {
    if m !in db.messages || db.messages[m].conv != conv || db.messages[m].sender != user then (db, None)
    else if db.messages[m].recalled then (db, Some(false))
    else
      (Recall(db, m, UserSet(RosterOf(db, conv)), EndBody(m, conv, user, now), now), Some(true))
  }

  /** Flag, burn every delivery row, redact every stored copy, announce to the members. */
  function Recall(db: Db, m: Id, users: set<Id>, body: Body, now: int): Db
    requires m in db.messages
  {
    db.(messages := db.messages[m := db.messages[m].(recalled := true)],
        deliveries := RecalledRows(db.deliveries, m, now),
        streams := Emit(Redact(db.streams, m, db.streams.Keys), users, body))
  }

  /** A row the sweep may burn now. */
  predicate IsDue(db: Db, k: (Id, Id), now: int) {
    && k in db.deliveries && k.0 in db.messages
    && !db.messages[k.0].recalled && db.messages[k.0].burnAfterRead
    && db.deliveries[k].burnAt.Some? && 0 < db.deliveries[k].burnAt.value <= now
    && db.deliveries[k].burnedAt.None?
  }

  function BurnRow(db: Db, k: (Id, Id), now: int): Db
    requires k in db.deliveries && k.0 in db.messages
  {
    var conv := db.messages[k.0].conv;
    db.(deliveries := db.deliveries[k := db.deliveries[k].(burnedAt := Some(now))],
        streams := Redact(Emit(db.streams, {k.1}, EndBody(k.0, conv, SYSTEM_BURN, now)), k.0, {k.1}))
  }

  /** One turn of the sweep's loop: a row that is no longer due is skipped. */
  function BurnStep(db: Db, k: (Id, Id), now: int): Db {
    if IsDue(db, k, now) then BurnRow(db, k, now) else db
  }

  function BurnRows(db: Db, rows: seq<(Id, Id)>, now: int): Db
    decreases rows
  {
    if rows == [] then db else BurnRows(BurnStep(db, rows[0], now), rows[1..], now)
  }

  predicate AllBurned(deliveries: Deliveries, m: Id) {
    forall k :: k in deliveries && k.0 == m ==> deliveries[k].burnedAt.Some?
  }

  /** Messages touched by the sweep whose every delivery row is now burned become recalled. */
  function Settle(messages: Msgs, deliveries: Deliveries, touched: set<Id>): Msgs {
    map m | m in messages ::
      if m in touched && AllBurned(deliveries, m) then messages[m].(recalled := true) else messages[m]
  }

  function BurnSweep(db: Db, rows: seq<(Id, Id)>, now: int): Db {
    var burned := BurnRows(db, rows, now);
    burned.(messages := Settle(burned.messages, burned.deliveries, set k | k in rows :: k.0))
  }

  predicate IsPurgeable(db: Db, m: Id) {
    && m in db.messages && db.messages[m].burnAfterRead && db.messages[m].recalled && !db.messages[m].purged
    && AllBurned(db.deliveries, m)
  }

  function PurgeOne(db: Db, m: Id): Db {
    if !IsPurgeable(db, m) then db else
      var row := db.messages[m];
      db.(messages := db.messages[m := row.(content := PurgedContent(row.isFile, row.content), purged := true)],
          streams := Redact(db.streams, m, db.streams.Keys))
  }

  function PurgeSweep(db: Db, rows: seq<Id>): Db
    decreases rows
  {
    if rows == [] then db else PurgeSweep(PurgeOne(db, rows[0]), rows[1..])
  }

  // ---------- delivery confirmation ----------

  predicate CarriesMessage(s: seq<Body>, low: nat, high: nat, m: Id)
    requires low <= high <= |s|
  {
    exists i :: low <= i < high && s[i].Message? && s[i].id == m
  }

  /** Delivery rows of `user` still 'sent' for a message event in (low, high]. */
  function NewlyDelivered(db: Db, user: Id, low: nat, high: nat): set<Id>
    requires low <= high <= |StreamOf(db.streams, user)|
  {
    set k | k in db.deliveries && k.1 == user && db.deliveries[k].status == Sent
            && CarriesMessage(StreamOf(db.streams, user), low, high, k.0) :: k.0
  }

  predicate Undelivered(db: Db, k: (Id, Id)) {
    k in db.deliveries && db.deliveries[k].status == Sent && k.0 in db.messages
  }

  function DeliveredRow(row: DeliveryRow, now: int): DeliveryRow {
    row.(status := Delivered, deliveredAt := Some(if now > row.sentAt then now else row.sentAt))
  }

  function DeliveredBody(k: (Id, Id), row: DeliveryRow, now: int): Body {
    Delivery(k.0, row.conv, k.1, Delivered, row.sentAt, if now > row.sentAt then now else row.sentAt)
  }

  function DeliverRow(db: Db, k: (Id, Id), now: int): Db
    requires Undelivered(db, k)
  {
    var row := db.deliveries[k];
    db.(deliveries := db.deliveries[k := DeliveredRow(row, now)],
        streams := Emit(db.streams, {db.messages[k.0].sender, k.1}, DeliveredBody(k, row, now)))
  }

  function DeliverOne(db: Db, user: Id, m: Id, now: int): Db {
    if Undelivered(db, (m, user)) then DeliverRow(db, (m, user), now) else db
  }

  function DeliverAll(db: Db, user: Id, ms: seq<Id>, now: int): Db
    decreases ms
  {
    if ms == [] then db else DeliverAll(DeliverOne(db, user, ms[0], now), user, ms[1..], now)
  }

  /** `listed` is the query result: the newly delivered messages, in its order. */
  function ConfirmApplied(db: Db, user: Id, device: Id, cursor: nat, now: int, listed: seq<Id>): (Db, Answer) {
    if device == "" || cursor > |StreamOf(db.streams, user)| then (db, None) else
      var prior := if (user, device) in db.applied then db.applied[(user, device)] else 0;
      if cursor <= prior then (db, Some(false)) else
        var delivered := DeliverAll(db, user, listed, now);
        (delivered.(applied := delivered.applied[(user, device) := cursor]), Some(true))
  }

  // ---------- files ----------

  /** A file_updated event with the next version of its transfer row. */
  function UpdateFile(db: Db, file: Id, conv: Id, users: set<Id>, transferred: nat, completed: bool, now: int): Db {
    var version := if file in db.files then db.files[file] + 1 else 1;
    db.(files := db.files[file := version],
        streams := Emit(db.streams, users, File(file, conv, transferred, completed, version, now)))
  }
}
