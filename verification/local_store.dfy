/** The store object itself: SQL rows as fields, transactions as saved copies. */
module LocalStore {
  import opened SyncEvents
  import opened StateStore

  /** Walks the seen positions past `from` while they stay contiguous. */
  method AdvanceCursor(seen: map<nat, Id>, from: nat) returns (next: nat)
    requires forall p :: 1 <= p <= from ==> p in seen
    ensures IsCursor(seen, next) && from <= next
  {
    next := from;
    while next + 1 in seen
      invariant from <= next && forall p :: 1 <= p <= next ==> p in seen
      decreases |set p | p in seen && p > next|
    {
      ghost var beyond, rest := set p | p in seen && p > next, set p | p in seen && p > next + 1;
      assert next + 1 in beyond - rest;
      SubsetSize(rest, beyond);
      next := next + 1;
    }
  }

  /** The recount query, one conversation group at a time. */
  method RecountByConversation(objects: Objects, user: Id) returns (total: nat)
    ensures total == Recount(objects, user)
  {
    total := 0;
    var groups := set k | k in objects && k.MessageKey? && objects[k].data.Message? :: objects[k].data.conv;
    assert UnreadKeys(objects, user) - UnreadIn(objects, user, groups) == {};
    while groups != {}
      invariant total == |UnreadKeys(objects, user) - UnreadIn(objects, user, groups)|
      decreases |groups|
    {
      var conv :| conv in groups;
      NextGroup(objects, user, groups, conv);
      total := total + |UnreadIn(objects, user, {conv})|;
      groups := groups - {conv};
    }
    assert UnreadKeys(objects, user) - UnreadIn(objects, user, {}) == UnreadKeys(objects, user);
  }

  class MiniImStateStore {
    const user: Id
    var objects: Objects
    var seen: map<nat, Id>
    var cursor: nat
    var unreadTotal: Option<nat>
    var pendingConfirmation: Option<Confirmation>
    var confirmedCursor: nat

    ghost predicate Valid()
      reads this
    {
      && Injective(seen)
      && IsCursor(seen, cursor)
      && (unreadTotal.Some? ==> unreadTotal.value == Recount(objects, user))
      && confirmedCursor <= cursor
      && (pendingConfirmation.Some? ==> confirmedCursor < pendingConfirmation.value.cursor <= cursor)
    }

    ghost function Contents(): Store
      reads this
    {
      Store(objects, seen)
    }

    constructor (user: Id)
      ensures Valid() && Contents() == EMPTY && cursor == 0 && this.user == user
      ensures unreadTotal == None && pendingConfirmation == None && confirmedCursor == 0
    {
      this.user := user;
      objects, seen, cursor, unreadTotal := map[], map[], 0, None;
      pendingConfirmation, confirmedCursor := None, 0;
    }

    method Project(e: Event) returns (ok: bool)
      modifies this`objects
      ensures ok <==> StateStore.Project(old(objects), e).Some?
      ensures objects == if ok then StateStore.Project(old(objects), e).value else old(objects)
    {
      ok := true;
      match e.body
      case Message(id, conv, _, _, _, _, _, _, recalled, burned, unread) =>
        var wasRecalled, wasBurned := Recalled(objects, id), Burned(objects, id);
        if id == "" { return false; }
        if CountKey(id) !in objects {
          objects := objects[CountKey(id) := Row(e.position, ReadCount(id, conv, unread))];
        }
        var data := e.body.(recalled := recalled || wasRecalled, burned := burned || wasBurned);
        data := data.(unread := CountOf(objects, id));
        data := Protect(objects, data);
        objects := objects[MessageKey(id) := Row(e.position, data)];
      case Terminal(id, _, _, _, burn) =>
        if id == "" { return false; }
        var data := e.body.(burn := burn || TerminalBurned(objects, id));
        objects := objects[TerminalKey(id) := Row(e.position, data)];
        if MessageKey(id) in objects && objects[MessageKey(id)].data.Message? {
          objects := objects[MessageKey(id) := Row(e.position, Protect(objects, objects[MessageKey(id)].data))];
        }
      case ReadCount(id, _, _) =>
        if CountKey(id) in objects && objects[CountKey(id)].position >= e.position {
          ok := id != "";
          return;
        }
        if id == "" { return false; }
        objects := objects[CountKey(id) := Row(e.position, e.body)];
      case Delivery(id, _, target, _, _, _) =>
        var k := DeliveryKey(id, target);
        if k in objects && objects[k].position > e.position { return; }
        objects := objects[k := Row(e.position, e.body)];
      case Receipt(conv, reader, lastRead, _) =>
        if lastRead > LastRead(objects, conv, reader) {
          objects := objects[ReceiptKey(conv, reader) := Row(e.position, e.body)];
        }
      case Conversation(conv, _, _, _, _) =>
        var k := ConversationKey(conv);
        if conv == "" { return false; }
        if k in objects && e.position < objects[k].position { return; }
        objects := objects[k := Row(e.position, e.body)];
      case File(id, _, _, _, version, _) =>
        var k := FileKey(id);
        if id == "" { return false; }
        if k in objects && objects[k].data.File? && version < objects[k].data.version { return; }
        objects := objects[k := Row(e.position, e.body)];
      case Unsupported =>
        return false;
    }

    /** One event of the batch loop: seen rows are looked up by position or event id, and a row
        that matches only one of the two is a conflict. */
    method Take(e: Event, unread: Option<nat>) returns (ok: bool, isNew: bool, nextUnread: Option<nat>)
      requires Injective(seen)
      requires unread.Some? ==> unread.value == Recount(objects, user)
      modifies this`objects, this`seen
      ensures ok <==> Accept(old(Contents()), e).Some?
      ensures ok ==> Contents() == Accept(old(Contents()), e).value
      ensures ok ==> (isNew <==> e.position !in old(seen))
      ensures nextUnread.Some? <==> unread.Some?
      ensures ok && nextUnread.Some? ==> nextUnread.value == Recount(objects, user)
      ensures ok ==> Injective(seen)
    {
      ok, isNew, nextUnread := false, false, unread;
      if e.position == 0 || e.position > MAX_POSITION || e.eventId == "" { return; }
      var rows := set p | p in seen && (p == e.position || seen[p] == e.eventId);
      if rows != {} {
        var p :| p in rows;
        assert Known(seen, e);
        assert e.position in seen && seen[e.position] == e.eventId ==> p == e.position;
        ok := p == e.position && seen[p] == e.eventId;
        return;
      }
      assert !Known(seen, e) by {
        assert forall p :: p in seen && (p == e.position || seen[p] == e.eventId) ==> p in rows;
      }
      isNew := true;
      var before := if unread.Some? then Affected(objects, user, e) else 0;
      ghost var was := objects;
      ok := Project(e);
      if !ok { return; }
      IncrementalUnread(was, user, e);
      if unread.Some? {
        var after := Affected(objects, user, e);
        if unread.value < before {
          assert false;  // "unread count does not match cached projections" cannot happen
        }
        nextUnread := Some(unread.value - before + after);
      }
      seen := seen[e.position := e.eventId];
    }

    /** Takes the whole batch in one transaction; on any failure every field keeps its old value. */
    method Apply(batch: seq<Event>) returns (ok: bool, applied: seq<Event>)
      requires Valid()
      modifies this
      ensures Valid()
      ensures ok <==> AcceptAll(old(Contents()), batch).Some?
      ensures ok ==> Contents() == AcceptAll(old(Contents()), batch).value && old(cursor) <= cursor
      ensures !ok ==> Contents() == old(Contents()) && cursor == old(cursor) && applied == []
      ensures !ok ==> unreadTotal == old(unreadTotal)
      ensures unreadTotal.Some? <==> old(unreadTotal).Some?
      ensures pendingConfirmation == old(pendingConfirmation) && confirmedCursor == old(confirmedCursor)
      ensures forall e :: e in applied ==> e in batch && e.position !in old(seen)
    {
      var savedObjects, savedSeen := objects, seen;
      var changes: seq<Event> := [];
      var nextUnread := unreadTotal;
      for i := 0 to |batch|
        invariant cursor == old(cursor) && unreadTotal == old(unreadTotal)
        invariant pendingConfirmation == old(pendingConfirmation) && confirmedCursor == old(confirmedCursor)
        invariant Injective(seen)
        invariant nextUnread.Some? <==> unreadTotal.Some?
        invariant nextUnread.Some? ==> nextUnread.value == Recount(objects, user)
        invariant AcceptAll(old(Contents()), batch) == AcceptAll(Contents(), batch[i..])
        invariant old(seen).Keys <= seen.Keys
        invariant forall e :: e in changes ==> e in batch && e.position !in old(seen)
      {
        var good, unseen, next := Take(batch[i], nextUnread);
        if !good {
          objects, seen := savedObjects, savedSeen;
          return false, [];
        }
        nextUnread := next;
        if unseen { changes := changes + [batch[i]]; }
      }
      var next := AdvanceCursor(seen, cursor);
      cursor, unreadTotal := next, nextUnread;
      return true, changes;
    }

    /** Full recount, one conversation at a time, cached until the store closes. */
    method UnreadTotal() returns (total: nat)
      requires Valid()
      modifies this`unreadTotal
      ensures Valid() && total == Recount(objects, user) && unreadTotal == Some(total)
    {
      if unreadTotal.Some? { return unreadTotal.value; }
      total := RecountByConversation(objects, user);
      unreadTotal := Some(total);
    }

    method HasGap() returns (gap: bool)
      requires Valid()
      ensures gap <==> exists p :: p in seen && p > cursor
    {
      var beyond := set p | p in seen && p > cursor;
      assert forall p :: p in seen && p > cursor ==> p in beyond;
      gap := beyond != {};
    }

    /** None of the four refusals changes anything; a saved confirmation names a cursor that is
        above the confirmed one and already covered by this store. */
    method SaveConfirmation(requestId: Id, upTo: nat) returns (ok: bool)
      requires Valid()
      modifies this`pendingConfirmation
      ensures Valid()
      ensures ok <==> requestId != "" && upTo <= cursor && confirmedCursor < upTo && old(pendingConfirmation) == None
      ensures pendingConfirmation == if ok then Some(Confirmation(requestId, upTo)) else old(pendingConfirmation)
    {
      if requestId == "" || upTo == 0 || upTo > cursor || upTo <= confirmedCursor || pendingConfirmation != None {
        return false;
      }
      pendingConfirmation := Some(Confirmation(requestId, upTo));
      return true;
    }

    /** Only the pending request moves the confirmed cursor, to exactly the cursor it named. */
    method CompleteConfirmation(requestId: Id)
      requires Valid()
      modifies this`pendingConfirmation, this`confirmedCursor
      ensures Valid() && old(confirmedCursor) <= confirmedCursor
      ensures var was := old(pendingConfirmation);
              if was.Some? && was.value.requestId == requestId
              then pendingConfirmation == None && confirmedCursor == was.value.cursor
              else pendingConfirmation == was && confirmedCursor == old(confirmedCursor)
    {
      if pendingConfirmation.Some? && pendingConfirmation.value.requestId == requestId {
        confirmedCursor := pendingConfirmation.value.cursor;
        pendingConfirmation := None;
      }
    }
  }
}
