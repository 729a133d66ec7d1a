/** The client's view is a closed form over the set of events it has taken, so it does not
    depend on arrival order, batching or duplication. */
module Convergence {
  import opened SyncEvents
  import opened StateStore

  // ---------- the closed form ----------

  /** What decides between two claimants of one slot. */
  function Rank(e: Event): nat {
    match e.body
    case Receipt(_, _, lastRead, _) => lastRead
    case File(_, _, _, _, version, _) => version
    case _ => e.position
  }

  function Entry(e: Event): Row {
    if e.body.Message? then Row(e.position, ReadCount(e.body.id, e.body.conv, e.body.unread)) else Row(e.position, e.body)
  }

  /** e is the claimant of greatest rank. */
  ghost predicate Wins(events: set<Event>, k: Key, e: Event) {
    e in events && Claims(e.body, k) && forall f :: f in events && Claims(f.body, k) ==> Rank(f) <= Rank(e)
  }

  predicate IsMessage(e: Event, id: Id) { e.body.Message? && e.body.id == id }

  predicate Ends(e: Event, id: Id) { e.body.Terminal? && e.body.id == id }

  predicate Burns(e: Event, id: Id) { Ends(e, id) && e.body.burn }

  ghost predicate Ended(events: set<Event>, id: Id) { exists e :: e in events && Ends(e, id) }

  ghost predicate Burnt(events: set<Event>, id: Id) { exists e :: e in events && Burns(e, id) }

  /** A message as the history page shows it, its read count aside. */
  ghost function Shown(events: set<Event>, m: Body): Body
    requires m.Message?
  {
    var recalled, burned := m.recalled || Ended(events, m.id), m.burned || Burnt(events, m.id);
    m.(recalled := recalled, burned := burned, unread := 0,
       text := if recalled || burned then BLANK else m.text)
  }

  ghost predicate Register(events: set<Event>, objects: Objects, k: Key) {
    if k in objects then exists e :: Wins(events, k, e) && objects[k] == Entry(e)
    else forall e :: e in events ==> !Claims(e.body, k)
  }

  ghost predicate Terminals(events: set<Event>, objects: Objects, id: Id) {
    && (TerminalKey(id) in objects <==> Ended(events, id))
    && (TerminalBurned(objects, id) <==> Burnt(events, id))
  }

  ghost predicate Messages(events: set<Event>, objects: Objects, id: Id) {
    && (MessageKey(id) in objects <==> exists e :: e in events && IsMessage(e, id))
    && (forall e :: e in events && IsMessage(e, id) ==>
          && MessageKey(id) in objects && objects[MessageKey(id)].data.Message?
          && objects[MessageKey(id)].data.(unread := 0) == Shown(events, e.body))
  }

  predicate IsRegister(k: Key) { !k.MessageKey? && !k.TerminalKey? }

  ghost predicate ClosedForm(events: set<Event>, objects: Objects) {
    && (forall k :: IsRegister(k) ==> Register(events, objects, k))
    && (forall id :: Terminals(events, objects, id))
    && (forall id :: Messages(events, objects, id))
  }

  ghost predicate SeenExactly(events: set<Event>, seen: map<nat, Id>) {
    && (forall e :: e in events ==> e.position in seen && seen[e.position] == e.eventId)
    && (forall p :: p in seen ==> exists e :: e in events && e.position == p)
  }

  ghost predicate Reflects(events: set<Event>, s: Store) {
    ClosedForm(events, s.objects) && SeenExactly(events, s.seen)
  }

  // ---------- one step ----------

  lemma RanksDiffer(events: set<Event>, k: Key, e: Event, f: Event)
    requires WellFormed(events) && e in events && f in events && e != f
    requires Claims(e.body, k) && Claims(f.body, k)
    ensures Rank(e) != Rank(f)
  {
    assert Compatible(e, f);
  }

  lemma RegisterStep(events: set<Event>, objects: Objects, e: Event, k: Key)
    requires WellFormed(events + {e}) && e !in events && IsRegister(k)
    requires Register(events, objects, k)
    ensures Register(events + {e}, Project(objects, e).value, k)
  {
    var next, more := Project(objects, e).value, events + {e};
    assert Sound(e);
    if !Claims(e.body, k) {
      UnclaimedKept(objects, e, k);
      if k in objects {
        var w :| Wins(events, k, w) && objects[k] == Entry(w);
        assert Wins(more, k, w);
      }
    } else if k !in objects {
      assert Wins(more, k, e) && next[k] == Entry(e);
    } else {
      var w :| Wins(events, k, w) && objects[k] == Entry(w);
      RanksDiffer(more, k, e, w);
      assert Compatible(e, w);
      if Rank(w) < Rank(e) {
        assert Wins(more, k, e) && next[k] == Entry(e);
      } else {
        assert Wins(more, k, w) && next[k] == Entry(w);
      }
    }
  }

  lemma UnclaimedKept(objects: Objects, e: Event, k: Key)
    requires Supported(e.body) && IsRegister(k) && !Claims(e.body, k)
    ensures var next := Project(objects, e).value;
            (k in next <==> k in objects) && (k in objects ==> next[k] == objects[k])
  {
  }

  lemma TerminalsStep(events: set<Event>, objects: Objects, e: Event, id: Id)
    requires WellFormed(events + {e}) && Terminals(events, objects, id)
    ensures Terminals(events + {e}, Project(objects, e).value, id)
  {
    assert Sound(e);
    var more := events + {e};
    assert Ended(more, id) <==> Ended(events, id) || Ends(e, id) by {
      if Ended(events, id) { var f :| f in events && Ends(f, id); assert f in more; }
      assert e in more;
    }
    assert Burnt(more, id) <==> Burnt(events, id) || Burns(e, id) by {
      if Burnt(events, id) { var f :| f in events && Burns(f, id); assert f in more; }
      assert e in more;
    }
  }

  lemma MessagesStep(events: set<Event>, objects: Objects, e: Event, id: Id)
    requires WellFormed(events + {e}) && e !in events
    requires Terminals(events, objects, id) && Messages(events, objects, id)
    ensures Messages(events + {e}, Project(objects, e).value, id)
  {
    var next, more := Project(objects, e).value, events + {e};
    assert Sound(e);
    TerminalsStep(events, objects, e, id);
    assert e in more;
    forall f | f in more && IsMessage(f, id)
      ensures MessageKey(id) in next && next[MessageKey(id)].data.Message?
      ensures next[MessageKey(id)].data.(unread := 0) == Shown(more, f.body)
    {
      if f == e {
        assert MessageKey(id) !in objects by {
          assert forall g :: g in events && IsMessage(g, id) ==> Compatible(g, e);
        }
      } else {
        assert f in events;
        assert Compatible(e, f);
      }
    }
    if MessageKey(id) in objects {
      var f :| f in events && IsMessage(f, id);
      assert f in more;
    }
  }

  // ---------- copies: the server may redact a stored message between two deliveries ----------

  /** Two deliveries of stream rows: the same row twice, or two compatible rows. */
  predicate Copies(e: Event, f: Event) {
    if e.position == f.position then e.eventId == f.eventId else Compatible(e, f)
  }

  ghost predicate WellCopied(pool: set<Event>) {
    && (forall e :: e in pool ==> Sound(e))
    && (forall e, f :: e in pool && f in pool ==> Copies(e, f))
  }

  /** The events taken so far, one copy per position. */
  ghost predicate TakenFrom(pool: set<Event>, taken: set<Event>) {
    taken <= pool && forall e, f :: e in taken && f in taken && e.position == f.position ==> e == f
  }

  ghost function TakeOne(taken: set<Event>, e: Event): set<Event> {
    if exists f :: f in taken && f.position == e.position then taken else taken + {e}
  }

  ghost function TakeAll(taken: set<Event>, batch: seq<Event>): set<Event>
    decreases batch
  {
    if batch == [] then taken else TakeAll(TakeOne(taken, batch[0]), batch[1..])
  }

  ghost function TakeRuns(taken: set<Event>, batches: seq<seq<Event>>): set<Event>
    decreases batches
  {
    if batches == [] then taken else TakeRuns(TakeAll(taken, batches[0]), batches[1..])
  }

  lemma TakenWellFormed(pool: set<Event>, taken: set<Event>)
    requires WellCopied(pool) && TakenFrom(pool, taken)
    ensures WellFormed(taken)
  {
    forall e, f | e in taken && f in taken && e != f ensures Compatible(e, f) { assert Copies(e, f); }
  }

  /** An event of the stream is never refused, and taking it keeps the closed form. */
  lemma AcceptStep(pool: set<Event>, taken: set<Event>, s: Store, e: Event)
    requires WellCopied(pool) && TakenFrom(pool, taken) && e in pool && Reflects(taken, s)
    ensures TakenFrom(pool, TakeOne(taken, e))
    ensures Accept(s, e).Some? && Reflects(TakeOne(taken, e), Accept(s, e).value)
  {
    assert Sound(e);
    if f :| f in taken && f.position == e.position {
      assert Copies(e, f);
    } else {
      var more := TakeOne(taken, e);
      TakenWellFormed(pool, more);
      Unknown(taken, s.seen, e);
      var next := Project(s.objects, e).value;
      forall k | IsRegister(k) ensures Register(more, next, k) { RegisterStep(taken, s.objects, e, k); }
      forall id ensures Terminals(more, next, id) { TerminalsStep(taken, s.objects, e, id); }
      forall id ensures Messages(more, next, id) { MessagesStep(taken, s.objects, e, id); }
      SeenStep(taken, s.seen, e);
    }
  }

  lemma Unknown(events: set<Event>, seen: map<nat, Id>, e: Event)
    requires WellFormed(events + {e}) && e !in events && SeenExactly(events, seen)
    ensures !Known(seen, e)
  {
    forall f | f in events ensures f.position != e.position && f.eventId != e.eventId { assert Compatible(e, f); }
    forall p | p in seen ensures seen[p] != e.eventId { var f :| f in events && f.position == p; }
  }

  lemma SeenStep(events: set<Event>, seen: map<nat, Id>, e: Event)
    requires WellFormed(events + {e}) && e !in events && SeenExactly(events, seen)
    ensures SeenExactly(events + {e}, seen[e.position := e.eventId])
  {
    forall f | f in events ensures f.position != e.position { assert Compatible(e, f); }
    var after := seen[e.position := e.eventId];
    forall p | p in after
      ensures exists f :: f in events + {e} && f.position == p
    {
      if p == e.position { assert e in events + {e}; }
      else { var f :| f in events && f.position == p; assert f in events + {e}; }
    }
  }

  // ---------- whole runs ----------

  ghost predicate Drawn(pool: set<Event>, batches: seq<seq<Event>>) {
    forall i, e :: 0 <= i < |batches| && e in batches[i] ==> e in pool
  }

  /** A batch either takes effect whole or, when the transaction throws, not at all. */
  ghost function Commit(s: Store, batch: seq<Event>): Store {
    var r := AcceptAll(s, batch);
    if r.Some? then r.value else s
  }

  ghost function Run(s: Store, batches: seq<seq<Event>>): Store
    decreases batches
  {
    if batches == [] then s else Run(Commit(s, batches[0]), batches[1..])
  }

  lemma {:induction false} BatchClosedForm(pool: set<Event>, taken: set<Event>, s: Store, batch: seq<Event>)
    requires WellCopied(pool) && TakenFrom(pool, taken) && Reflects(taken, s)
    requires forall e :: e in batch ==> e in pool
    ensures TakenFrom(pool, TakeAll(taken, batch)) && AcceptAll(s, batch).Some?
    ensures Reflects(TakeAll(taken, batch), AcceptAll(s, batch).value)
    decreases batch
  {
    if batch != [] {
      AcceptStep(pool, taken, s, batch[0]);
      BatchClosedForm(pool, TakeOne(taken, batch[0]), Accept(s, batch[0]).value, batch[1..]);
    }
  }

  /** No batch drawn from one stream ever fails, and the table is the closed form of what was taken. */
  lemma {:induction false} RunClosedForm(pool: set<Event>, taken: set<Event>, s: Store, batches: seq<seq<Event>>)
    requires WellCopied(pool) && TakenFrom(pool, taken) && Reflects(taken, s) && Drawn(pool, batches)
    ensures TakenFrom(pool, TakeRuns(taken, batches))
    ensures Reflects(TakeRuns(taken, batches), Run(s, batches))
    decreases batches
  {
    if batches != [] {
      BatchClosedForm(pool, taken, s, batches[0]);
      forall i, e | 0 <= i < |batches[1..]| && e in batches[1..][i] ensures e in pool {
        assert batches[1..][i] == batches[i + 1];
      }
      RunClosedForm(pool, TakeAll(taken, batches[0]), Commit(s, batches[0]), batches[1..]);
    }
  }

  // ---------- the view ----------

  /** What pages and snapshots expose: the read count comes from its own object, the stored
      message's position and copied count are hidden, terminal markers are internal. */
  ghost function View(objects: Objects): map<Key, Row> {
    map k | k in objects && !k.TerminalKey? ::
      if k.MessageKey? && objects[k].data.Message? then Row(0, objects[k].data.(unread := CountOf(objects, k.id)))
      else objects[k]
  }

  lemma RegisterUnique(events: set<Event>, a: Objects, b: Objects, k: Key)
    requires WellFormed(events) && Register(events, a, k) && Register(events, b, k)
    ensures (k in a <==> k in b) && (k in a ==> a[k] == b[k])
  {
    if k in a && k in b {
      var e :| Wins(events, k, e) && a[k] == Entry(e);
      var f :| Wins(events, k, f) && b[k] == Entry(f);
      if e != f { RanksDiffer(events, k, e, f); }
    }
  }

  lemma MessageUnique(events: set<Event>, a: Objects, b: Objects, id: Id)
    requires WellFormed(events) && ClosedForm(events, a) && ClosedForm(events, b)
    ensures var k := MessageKey(id);
            (k in a <==> k in b) && (k in a ==> k in View(a) && k in View(b) && View(a)[k] == View(b)[k])
  {
    var k := MessageKey(id);
    assert Messages(events, a, id) && Messages(events, b, id);
    assert IsRegister(CountKey(id));
    RegisterUnique(events, a, b, CountKey(id));
    assert CountOf(a, id) == CountOf(b, id);
    if k in a {
      var e :| e in events && IsMessage(e, id);
      var x, y := a[k].data, b[k].data;
      assert x.(unread := 0) == y.(unread := 0);
      assert x.(unread := CountOf(a, id)) == x.(unread := 0).(unread := CountOf(a, id));
    }
  }

  lemma ViewUnique(events: set<Event>, a: Objects, b: Objects)
    requires WellFormed(events) && ClosedForm(events, a) && ClosedForm(events, b)
    ensures View(a) == View(b)
  {
    forall k: Key | !k.TerminalKey?
      ensures (k in a <==> k in b) && (k in a ==> View(a)[k] == View(b)[k])
    {
      if k.MessageKey? { MessageUnique(events, a, b, k.id); }
      else { assert IsRegister(k); RegisterUnique(events, a, b, k); }
    }
    assert View(a).Keys == View(b).Keys;
  }

  lemma SeenUnique(events: set<Event>, a: map<nat, Id>, b: map<nat, Id>)
    requires SeenExactly(events, a) && SeenExactly(events, b)
    ensures a == b
  {
    forall p ensures (p in a <==> p in b) && (p in a ==> a[p] == b[p]) {
      if p in a { var e :| e in events && e.position == p; }
      if p in b { var e :| e in events && e.position == p; }
    }
    assert a.Keys == b.Keys;
  }

  /** The recount reads nothing but the view. */
  lemma RecountFromView(a: Objects, b: Objects, user: Id)
    requires View(a) == View(b)
    ensures Recount(a, user) == Recount(b, user)
  {
    forall k ensures k in UnreadKeys(a, user) <==> k in UnreadKeys(b, user) {
      if k in UnreadKeys(a, user) { UnreadFromView(a, b, user, k); }
      if k in UnreadKeys(b, user) { UnreadFromView(b, a, user, k); }
    }
    assert UnreadKeys(a, user) == UnreadKeys(b, user);
  }

  lemma UnreadFromView(a: Objects, b: Objects, user: Id, k: Key)
    requires View(a) == View(b) && k in UnreadKeys(a, user)
    ensures k in UnreadKeys(b, user)
  {
    assert k in View(a) && k in View(b);
    assert View(a)[k] == View(b)[k];
    var conv := a[k].data.conv;
    var r := ReceiptKey(conv, user);
    assert r in View(a) <==> r in View(b);
    assert r in a ==> View(a)[r] == a[r];
    assert r in b ==> View(b)[r] == b[r];
    if b[k].data.Message? {
      assert View(b)[k].data.conv == b[k].data.conv;
    }
  }

  lemma StartsEmpty()
    ensures Reflects({}, EMPTY)
  {
  }

  /** Every position delivered at least once ends up taken, and nothing else. */
  lemma {:induction false} TakeAllPositions(taken: set<Event>, batch: seq<Event>, p: nat)
    ensures (exists e :: e in TakeAll(taken, batch) && e.position == p)
       <==> (exists e :: e in taken && e.position == p) || (exists e :: e in batch && e.position == p)
    decreases batch
  {
    if batch != [] {
      var one := TakeOne(taken, batch[0]);
      TakeAllPositions(one, batch[1..], p);
      assert batch == [batch[0]] + batch[1..];
      assert forall e :: e in batch <==> e == batch[0] || e in batch[1..];
      if e :| e in taken && e.position == p { assert e in one; }
      if batch[0].position == p { assert batch[0] in taken + {batch[0]}; }
    }
  }

  ghost predicate Delivered(batches: seq<seq<Event>>, p: nat) {
    exists i, e :: 0 <= i < |batches| && e in batches[i] && e.position == p
  }

  lemma {:induction false} TakeRunsPositions(taken: set<Event>, batches: seq<seq<Event>>, p: nat)
    ensures (exists e :: e in TakeRuns(taken, batches) && e.position == p)
       <==> (exists e :: e in taken && e.position == p) || Delivered(batches, p)
    decreases batches
  {
    if batches != [] {
      TakeAllPositions(taken, batches[0], p);
      TakeRunsPositions(TakeAll(taken, batches[0]), batches[1..], p);
      if Delivered(batches[1..], p) {
        var i, e :| 0 <= i < |batches[1..]| && e in batches[1..][i] && e.position == p;
        assert e in batches[i + 1];
      }
      if Delivered(batches, p) {
        var i, e :| 0 <= i < |batches| && e in batches[i] && e.position == p;
        if i > 0 { assert e in batches[1..][i - 1]; }
      }
    }
  }

  /** Any two orders, batchings and duplications that deliver the same events of one stream leave
      the same view, the same seen table (hence the same cursor and gap) and the same unread total. */
  lemma Converge(pool: set<Event>, user: Id, left: seq<seq<Event>>, right: seq<seq<Event>>)
    requires WellFormed(pool) && Drawn(pool, left) && Drawn(pool, right)
    requires forall p :: Delivered(left, p) <==> Delivered(right, p)
    ensures View(Run(EMPTY, left).objects) == View(Run(EMPTY, right).objects)
    ensures Run(EMPTY, left).seen == Run(EMPTY, right).seen
    ensures Recount(Run(EMPTY, left).objects, user) == Recount(Run(EMPTY, right).objects, user)
  {
    StartsEmpty();
    assert WellCopied(pool);
    RunClosedForm(pool, {}, EMPTY, left);
    RunClosedForm(pool, {}, EMPTY, right);
    var a, b := TakeRuns({}, left), TakeRuns({}, right);
    SamePositions(pool, a, b, left, right);
    TakenWellFormed(pool, a);
    ViewUnique(a, Run(EMPTY, left).objects, Run(EMPTY, right).objects);
    SeenUnique(a, Run(EMPTY, left).seen, Run(EMPTY, right).seen);
    RecountFromView(Run(EMPTY, left).objects, Run(EMPTY, right).objects, user);
  }

  lemma SamePositions(pool: set<Event>, a: set<Event>, b: set<Event>, left: seq<seq<Event>>, right: seq<seq<Event>>)
    requires WellFormed(pool) && a == TakeRuns({}, left) && b == TakeRuns({}, right) && a <= pool && b <= pool
    requires forall p :: Delivered(left, p) <==> Delivered(right, p)
    ensures a == b
  {
    forall e: Event ensures e in a <==> e in b {
      TakeRunsPositions({}, left, e.position);
      TakeRunsPositions({}, right, e.position);
      assert Delivered(left, e.position) <==> Delivered(right, e.position);
      if e in a { var f :| f in b && f.position == e.position; assert e == f || Compatible(e, f); }
      if e in b { var f :| f in a && f.position == e.position; assert e == f || Compatible(e, f); }
    }
  }
}
