/** The client's durable projection: one table of objects, the seen events, the contiguous
    cursor and the incrementally maintained unread total. */
module StateStore {
  import opened SyncEvents

  datatype Row = Row(position: nat, data: Body)

  type Objects = map<Key, Row>

  datatype Store = Store(objects: Objects, seen: map<nat, Id>)

  const EMPTY: Store := Store(map[], map[])

  /** The one unfinished delivery confirmation the store may hold. */
  datatype Confirmation = Confirmation(requestId: Id, cursor: nat)

  // ---------- reading single values, with the defaults of absent JSON fields ----------

  predicate Recalled(objects: Objects, id: Id) {
    MessageKey(id) in objects && objects[MessageKey(id)].data.Message? && objects[MessageKey(id)].data.recalled
  }

  predicate Burned(objects: Objects, id: Id) {
    MessageKey(id) in objects && objects[MessageKey(id)].data.Message? && objects[MessageKey(id)].data.burned
  }

  predicate TerminalBurned(objects: Objects, id: Id) {
    TerminalKey(id) in objects && objects[TerminalKey(id)].data.Terminal? && objects[TerminalKey(id)].data.burn
  }

  function CountOf(objects: Objects, id: Id): nat {
    if CountKey(id) in objects && objects[CountKey(id)].data.ReadCount? then objects[CountKey(id)].data.count else 0
  }

  function LastRead(objects: Objects, conv: Id, reader: Id): nat {
    var k := ReceiptKey(conv, reader);
    if k in objects && objects[k].data.Receipt? then objects[k].data.lastRead else 0
  }

  // ---------- one event ----------

  /** Terminal state always wins over message content, whichever arrived first. */
  function Protect(objects: Objects, m: Body): Body
    requires m.Message?
  {
    var recalled := m.recalled || TerminalKey(m.id) in objects;
    var burned := m.burned || TerminalBurned(objects, m.id);
    m.(recalled := recalled, burned := burned, text := if recalled || burned then BLANK else m.text)
  }

  /** The table after one unseen event, or None when the projection throws. */
  function Project(objects: Objects, e: Event): (r: Option<Objects>)
    ensures r.Some? <==> Supported(e.body)
  {
    match e.body
    case Message(id, conv, _, _, _, _, _, _, recalled, burned, unread) =>
      if id == "" then None else
        var counted := if CountKey(id) in objects then objects
                       else objects[CountKey(id) := Row(e.position, ReadCount(id, conv, unread))];
        var merged := e.body.(recalled := recalled || Recalled(objects, id),
                              burned := burned || Burned(objects, id),
                              unread := CountOf(counted, id));
        Some(counted[MessageKey(id) := Row(e.position, Protect(counted, merged))])
    case Terminal(id, _, _, _, burn) =>
      if id == "" then None else
        var ended := objects[TerminalKey(id) :=
          Row(e.position, e.body.(burn := burn || TerminalBurned(objects, id)))];
        if MessageKey(id) in objects && objects[MessageKey(id)].data.Message? then
          Some(ended[MessageKey(id) := Row(e.position, Protect(ended, objects[MessageKey(id)].data))])
        else
          Some(ended)
    case ReadCount(id, _, _) =>
      if id == "" then None
      else if CountKey(id) in objects && objects[CountKey(id)].position >= e.position then Some(objects)
      else Some(objects[CountKey(id) := Row(e.position, e.body)])
    case Delivery(id, _, user, _, _, _) =>
      var k := DeliveryKey(id, user);
      if k in objects && objects[k].position > e.position then Some(objects)
      else Some(objects[k := Row(e.position, e.body)])
    case Receipt(conv, reader, lastRead, _) =>
      if lastRead > LastRead(objects, conv, reader) then
        Some(objects[ReceiptKey(conv, reader) := Row(e.position, e.body)])
      else
        Some(objects)
    case Conversation(conv, _, _, _, _) =>
      var k := ConversationKey(conv);
      if conv == "" then None
      else if k in objects && e.position < objects[k].position then Some(objects)
      else Some(objects[k := Row(e.position, e.body)])
    case File(id, _, _, _, version, _) =>
      var k := FileKey(id);
      if id == "" then None
      else if k in objects && objects[k].data.File? && version < objects[k].data.version then Some(objects)
      else Some(objects[k := Row(e.position, e.body)])
    case Unsupported => None
  }

  /** `seen` holds a row with this position or with this event id. */
  ghost predicate Known(seen: map<nat, Id>, e: Event) {
    e.position in seen || exists p :: p in seen && seen[p] == e.eventId
  }

  /** One iteration of the batch loop; None when it throws and the batch rolls back. */
  ghost function Accept(s: Store, e: Event): Option<Store> {
    if e.position == 0 || e.position > MAX_POSITION || e.eventId == "" then None
    else if Known(s.seen, e) then
      if e.position in s.seen && s.seen[e.position] == e.eventId then Some(s) else None
    else
      var r := Project(s.objects, e);
      if r.None? then None else Some(Store(r.value, s.seen[e.position := e.eventId]))
  }

  ghost function AcceptAll(s: Store, batch: seq<Event>): Option<Store>
    decreases batch
  {
    if batch == [] then Some(s) else
      var r := Accept(s, batch[0]);
      if r.None? then None else AcceptAll(r.value, batch[1..])
  }

  /** The unique index on event ids. */
  ghost predicate Injective(seen: map<nat, Id>) {
    forall p, q :: p in seen && q in seen && seen[p] == seen[q] ==> p == q
  }

  // ---------- cursor and gap ----------

  /** The greatest k such that positions 1..k have all been seen. */
  ghost predicate IsCursor(seen: map<nat, Id>, k: nat) {
    (forall p :: 1 <= p <= k ==> p in seen) && k + 1 !in seen
  }

  lemma CursorUnique(seen: map<nat, Id>, j: nat, k: nat)
    requires IsCursor(seen, j) && IsCursor(seen, k)
    ensures j == k
  {
    assert j < k ==> j + 1 in seen;
    assert k < j ==> k + 1 in seen;
  }

  // ---------- unread total ----------

  predicate IsUnread(objects: Objects, user: Id, k: Key) {
    && k.MessageKey? && k in objects && objects[k].data.Message?
    && !objects[k].data.recalled && !objects[k].data.burned
    && objects[k].data.number > LastRead(objects, objects[k].data.conv, user)
    && objects[k].data.sender != user
  }

  function UnreadKeys(objects: Objects, user: Id): set<Key> {
    set k | k in objects && IsUnread(objects, user, k)
  }

  /** Full recount over every cached message. */
  function Recount(objects: Objects, user: Id): nat {
    |UnreadKeys(objects, user)|
  }

  /** The unread messages of some conversations, the groups of the recount query. */
  function UnreadIn(objects: Objects, user: Id, groups: set<Id>): set<Key> {
    set k | k in UnreadKeys(objects, user) && objects[k].data.conv in groups
  }

  lemma NextGroup(objects: Objects, user: Id, groups: set<Id>, conv: Id)
    requires conv in groups
    ensures var u := UnreadKeys(objects, user);
            |u - UnreadIn(objects, user, groups - {conv})|
            == |u - UnreadIn(objects, user, groups)| + |UnreadIn(objects, user, {conv})|
  {
    var u := UnreadKeys(objects, user);
    var one := UnreadIn(objects, user, {conv});
    assert u - UnreadIn(objects, user, groups - {conv}) == (u - UnreadIn(objects, user, groups)) + one;
    assert (u - UnreadIn(objects, user, groups)) !! one;
  }

  function AffectedKeys(objects: Objects, user: Id, e: Event): set<Key> {
    match e.body
    case Receipt(conv, reader, lastRead, _) =>
      if reader != user then {} else
        set k | k in objects && IsUnread(objects, user, k)
                && objects[k].data.conv == conv && objects[k].data.number <= lastRead
    case Message(id, _, _, _, _, _, _, _, _, _, _) =>
      if IsUnread(objects, user, MessageKey(id)) then {MessageKey(id)} else {}
    case Terminal(id, _, _, _, _) =>
      if IsUnread(objects, user, MessageKey(id)) then {MessageKey(id)} else {}
    case _ => {}
  }

  /** The narrow query run before and after each projection. */
  function Affected(objects: Objects, user: Id, e: Event): nat {
    |AffectedKeys(objects, user, e)|
  }

  lemma AffectedInside(objects: Objects, user: Id, e: Event)
    ensures AffectedKeys(objects, user, e) <= UnreadKeys(objects, user)
    ensures Affected(objects, user, e) <= Recount(objects, user)
  {
    SubsetSize(AffectedKeys(objects, user, e), UnreadKeys(objects, user));
  }

  lemma SubsetSize<T>(a: set<T>, b: set<T>)
    requires a <= b
    ensures |a| <= |b|
    ensures |b - a| == |b| - |a|
  {
    assert b == a + (b - a);
  }

  /** Projection moves messages in or out of the unread set only inside the two queried sets. */
  lemma UnreadOutside(objects: Objects, user: Id, e: Event, k: Key)
    requires Supported(e.body)
    ensures var next := Project(objects, e).value;
            k !in AffectedKeys(objects, user, e) && k !in AffectedKeys(next, user, e)
            ==> (k in UnreadKeys(objects, user) <==> k in UnreadKeys(next, user))
  {
    var next := Project(objects, e).value;
    if e.body.Receipt? {
      var conv, reader := e.body.conv, e.body.reader;
      assert forall c, r :: (c != conv || r != reader) ==> LastRead(next, c, r) == LastRead(objects, c, r);
    } else {
      assert forall c, r :: LastRead(next, c, r) == LastRead(objects, c, r);
    }
  }

  /** The incremental formula is exact after every event of every kind, and its guard never fires. */
  lemma IncrementalUnread(objects: Objects, user: Id, e: Event)
    requires Supported(e.body)
    ensures var next := Project(objects, e).value;
            && Affected(objects, user, e) <= Recount(objects, user)
            && Recount(next, user) == Recount(objects, user) - Affected(objects, user, e) + Affected(next, user, e)
  {
    var next := Project(objects, e).value;
    var u, v := UnreadKeys(objects, user), UnreadKeys(next, user);
    var a, b := AffectedKeys(objects, user, e), AffectedKeys(next, user, e);
    AffectedInside(objects, user, e);
    AffectedInside(next, user, e);
    if e.body.Receipt? && e.body.reader == user {
      ReceiptClearsInterval(objects, user, e);
    } else {
      OthersUntouched(objects, user, e);
      SubsetSize(a, u);
      SubsetSize(b, v);
    }
  }

  lemma OthersUntouched(objects: Objects, user: Id, e: Event)
    requires Supported(e.body) && !(e.body.Receipt? && e.body.reader == user)
    ensures var next := Project(objects, e).value;
            UnreadKeys(objects, user) - AffectedKeys(objects, user, e)
            == UnreadKeys(next, user) - AffectedKeys(next, user, e)
  {
    var next := Project(objects, e).value;
    var u, v := UnreadKeys(objects, user), UnreadKeys(next, user);
    var a, b := AffectedKeys(objects, user, e), AffectedKeys(next, user, e);
    forall k ensures k in u - a <==> k in v - b {
      UnreadOutside(objects, user, e, k);
      if !e.body.Receipt? { SingleKey(objects, user, e, k); }
    }
  }

  /** For events other than receipts only the message they name can be in either queried set. */
  lemma SingleKey(objects: Objects, user: Id, e: Event, k: Key)
    requires Supported(e.body) && !e.body.Receipt?
    ensures var next := Project(objects, e).value;
            && (k in AffectedKeys(objects, user, e) && k in UnreadKeys(next, user) ==> k in AffectedKeys(next, user, e))
            && (k in AffectedKeys(next, user, e) && k in UnreadKeys(objects, user) ==> k in AffectedKeys(objects, user, e))
  {
  }

  /** After the user's own receipt the interval it named holds nothing unread. */
  lemma ReceiptClearsInterval(objects: Objects, user: Id, e: Event)
    requires e.body.Receipt? && e.body.reader == user
    ensures var next := Project(objects, e).value;
            && AffectedKeys(next, user, e) == {}
            && UnreadKeys(next, user) == UnreadKeys(objects, user) - AffectedKeys(objects, user, e)
            && Recount(next, user) == Recount(objects, user) - Affected(objects, user, e)
  {
    var next := Project(objects, e).value;
    assert LastRead(next, e.body.conv, user) >= e.body.lastRead;
    forall k ensures k in UnreadKeys(next, user) <==> k in UnreadKeys(objects, user) - AffectedKeys(objects, user, e) {
      UnreadOutside(objects, user, e, k);
    }
    AffectedInside(objects, user, e);
    SubsetSize(AffectedKeys(objects, user, e), UnreadKeys(objects, user));
  }
}
