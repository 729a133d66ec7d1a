/** The web store's updates: a batch is the same as single pushes, and the incremental unread total
    is the recount. */
module WebStore {
  import opened SyncEvents
  import opened WebMessages

  datatype PendingState = PendingState(recalled: bool, burned: bool)

  datatype CountState = CountState(count: nat, globalSeq: nat)

  type Lists = map<Id, seq<Item>>

  /** Maps keyed by (conversation, message), (conversation, reader) and (conversation, message, user). */
  datatype Web = Web(user: Id, total: int, authoritative: bool, lists: Lists,
                     pending: map<(Id, Id), PendingState>, counts: map<(Id, Id), CountState>,
                     progress: map<(Id, Id), nat>, deliveries: map<(Id, Id, Id), nat>)

  datatype Update =
    | CountUpdate(conv: Id, id: Id, count: nat, globalSeq: nat)
    | DeliveryUpdate(conv: Id, id: Id, target: Id, globalSeq: nat)
    | EndUpdate(conv: Id, id: Id, burn: bool)
    | ReceiptUpdate(conv: Id, reader: Id, lastRead: nat)

  function ListOf(lists: Lists, conv: Id): seq<Item> { if conv in lists then lists[conv] else [] }

  function ReadUpTo(progress: map<(Id, Id), nat>, conv: Id, reader: Id): nat {
    if (conv, reader) in progress then progress[(conv, reader)] else 0
  }

  predicate CountsAsUnread(x: Item, user: Id, readUpTo: nat) {
    x.sender != user && !x.recalled && !x.burned && x.number > readUpTo
  }

  function Number(b: bool): nat { if b then 1 else 0 }

  function AtLeastZero(n: int): int { if n > 0 then n else 0 }

  function Merge(existing: Option<Item>, item: Item): Item {
    var next := if existing.None? then item
      else item.(recalled := existing.value.recalled || item.recalled, burned := existing.value.burned || item.burned);
    if next.recalled || next.burned then next.(text := "") else next
  }

  /** The arriving item with what is already known about it. */
  function Prepared(w: Web, raw: Item): Item {
    var k := (raw.conv, raw.id);
    var flagged := if k in w.pending
      then raw.(recalled := raw.recalled || w.pending[k].recalled, burned := raw.burned || w.pending[k].burned) else raw;
    if k in w.counts then flagged.(unread := w.counts[k].count, known := true) else flagged
  }

  // ---------- pushing ----------

  function BatchList(w: Web, batches: Lists, conv: Id): seq<Item> {
    if conv in batches then batches[conv] else ListOf(w.lists, conv)
  }

  function Merged(w: Web, batches: Lists, raw: Item): Item {
    Merge(Find(BatchList(w, batches, raw.conv), raw.id), Prepared(w, raw))
  }

  function TotalAfter(w: Web, conv: Id, existing: Option<Item>, merged: Item): int {
    var read := ReadUpTo(w.progress, conv, w.user);
    if w.authoritative then w.total
    else AtLeastZero(w.total + Number(CountsAsUnread(merged, w.user, read))
                     - Number(existing.Some? && CountsAsUnread(existing.value, w.user, read)))
  }

  /** The state with one more item counted and its pending state used up. */
  function Taken(w: Web, conv: Id, id: Id, existing: Option<Item>, merged: Item): Web {
    w.(pending := w.pending - {(conv, id)}, total := TotalAfter(w, conv, existing, merged))
  }

  /** One item of a batch. */
  function Take(w: Web, batches: Lists, raw: Item): (Web, Lists) {
    var list := BatchList(w, batches, raw.conv);
    var merged := Merged(w, batches, raw);
    (Taken(w, raw.conv, raw.id, Find(list, raw.id), merged), batches[raw.conv := Delete(list, raw.id) + [merged]])
  }

  function TakeAll(w: Web, batches: Lists, raws: seq<Item>): (Web, Lists)
    decreases raws
  {
    if raws == [] then (w, batches) else
      var r := Take(w, batches, raws[0]);
      TakeAll(r.0, r.1, raws[1..])
  }

  /** The touched lists replaced by their sorted batch. */
  function FlushLists(lists: Lists, batches: Lists): Lists {
    map c | c in lists.Keys + batches.Keys :: if c in batches then Sort(batches[c]) else lists[c]
  }

  function Flush(w: Web, batches: Lists): Web { w.(lists := FlushLists(w.lists, batches)) }

  function PushMessages(w: Web, raws: seq<Item>): Web {
    var r := TakeAll(w, map[], raws);
    Flush(r.0, r.1)
  }

  function PushEach(w: Web, raws: seq<Item>): Web
    decreases raws
  {
    if raws == [] then w else PushEach(PushMessages(w, [raws[0]]), raws[1..])
  }

  ghost predicate ListsOk(lists: Lists) {
    forall c :: c in lists ==> WebMessages.Sorted(lists[c]) && Distinct(lists[c])
  }

  ghost predicate BatchesOk(batches: Lists) { forall c :: c in batches ==> Distinct(batches[c]) }

  lemma SinglePush(w: Web, raw: Item)
    ensures PushMessages(w, [raw]) == Flush(Take(w, map[], raw).0, Take(w, map[], raw).1)
  {
    var r := Take(w, map[], raw);
    assert [raw][1..] == [];
    assert TakeAll(w, map[], [raw]) == TakeAll(r.0, r.1, []);
  }

  lemma FlushNothing(w: Web)
    ensures Flush(w, map[]) == w
  {
    assert Flush(w, map[]).lists == w.lists;
  }

  /** The list a single push sees is the batch list, sorted. */
  lemma SameList(w: Web, batches: Lists, conv: Id)
    requires ListsOk(w.lists) && BatchesOk(batches)
    ensures ListOf(Flush(w, batches).lists, conv) == Sort(BatchList(w, batches, conv))
    ensures Distinct(BatchList(w, batches, conv))
  {
    if conv !in batches && conv in w.lists { SortedStays(w.lists[conv]); }
  }

  lemma SameFound(w: Web, batches: Lists, conv: Id, id: Id)
    requires ListsOk(w.lists) && BatchesOk(batches)
    ensures Find(ListOf(Flush(w, batches).lists, conv), id) == Find(BatchList(w, batches, conv), id)
  {
    var l := BatchList(w, batches, conv);
    SameList(w, batches, conv);
    SortedDistinct(l);
    SameFind(l, Sort(l), id);
  }

  lemma FlushTwice(lists: Lists, batches: Lists, conv: Id, x: seq<Item>, y: seq<Item>)
    requires Sort(x) == Sort(y)
    ensures FlushLists(FlushLists(lists, batches), map[conv := y]) == FlushLists(lists, batches[conv := x])
  {
    var a, b := FlushLists(FlushLists(lists, batches), map[conv := y]), FlushLists(lists, batches[conv := x]);
    assert a.Keys == b.Keys;
  }

  /** The item merges the same way whether the earlier ones were flushed or not. */
  lemma SameMerge(w: Web, batches: Lists, raw: Item)
    requires ListsOk(w.lists) && BatchesOk(batches)
    ensures var s := Flush(w, batches);
            && Find(BatchList(s, map[], raw.conv), raw.id) == Find(BatchList(w, batches, raw.conv), raw.id)
            && Merged(s, map[], raw) == Merged(w, batches, raw) && Merged(w, batches, raw).id == raw.id
            && BatchList(s, map[], raw.conv) == Sort(BatchList(w, batches, raw.conv))
  {
    SameFound(w, batches, raw.conv, raw.id);
    SameList(w, batches, raw.conv);
  }

  lemma TakeKeeps(w: Web, batches: Lists, raw: Item)
    requires ListsOk(w.lists) && BatchesOk(batches)
    ensures Take(w, batches, raw).0.lists == w.lists && BatchesOk(Take(w, batches, raw).1)
  {
    SameList(w, batches, raw.conv);
    SameMerge(w, batches, raw);
    PutDistinct(BatchList(w, batches, raw.conv), Merged(w, batches, raw));
  }

  /** One more item of the batch is one more single push. */
  lemma TakeIsPush(w: Web, batches: Lists, raw: Item)
    requires ListsOk(w.lists) && BatchesOk(batches)
    ensures var r := Take(w, batches, raw); Flush(r.0, r.1) == PushMessages(Flush(w, batches), [raw])
  {
    var s := Flush(w, batches);
    var l, merged := BatchList(w, batches, raw.conv), Merged(w, batches, raw);
    var x, y := Delete(l, raw.id) + [merged], Delete(Sort(l), raw.id) + [merged];
    SinglePush(s, raw);
    SameMerge(w, batches, raw);
    SortOnce(l, merged);
    FlushTwice(w.lists, batches, raw.conv, x, y);
    TakeResult(w, batches, raw, l, merged);
    TakeResult(s, map[], raw, Sort(l), merged);
    TakenFrame(w, s.lists, raw.conv, raw.id, Find(l, raw.id), merged);
  }

  lemma TakeResult(w: Web, batches: Lists, raw: Item, list: seq<Item>, merged: Item)
    requires list == BatchList(w, batches, raw.conv) && merged == Merged(w, batches, raw)
    ensures var r := Take(w, batches, raw);
            Flush(r.0, r.1) == Taken(w, raw.conv, raw.id, Find(list, raw.id), merged)
                               .(lists := FlushLists(w.lists, batches[raw.conv := Delete(list, raw.id) + [merged]]))
  {
  }

  lemma TakenFrame(w: Web, lists: Lists, conv: Id, id: Id, existing: Option<Item>, merged: Item)
    ensures Taken(w.(lists := lists), conv, id, existing, merged) == Taken(w, conv, id, existing, merged).(lists := lists)
  {
  }

  lemma {:induction false} BatchIsEachFrom(w: Web, batches: Lists, raws: seq<Item>)
    requires ListsOk(w.lists) && BatchesOk(batches)
    ensures var r := TakeAll(w, batches, raws); Flush(r.0, r.1) == PushEach(Flush(w, batches), raws)
    decreases raws
  {
    if raws != [] {
      var r := Take(w, batches, raws[0]);
      TakeIsPush(w, batches, raws[0]);
      TakeKeeps(w, batches, raws[0]);
      BatchIsEachFrom(r.0, r.1, raws[1..]);
    }
  }

  /** Same lists, same pending states, same total: a batch is its items pushed one at a time. */
  lemma BatchIsEach(w: Web, raws: seq<Item>)
    requires ListsOk(w.lists)
    ensures PushMessages(w, raws) == PushEach(w, raws)
  {
    BatchIsEachFrom(w, map[], raws);
    FlushNothing(w);
  }

  // ---------- updates ----------

  /** In-place changes of the item with this id. */
  function Ended(x: Item, burn: bool): Item { x.(recalled := true, text := "", burned := x.burned || burn) }

  function Counted(x: Item, count: nat): Item { x.(unread := count, known := true) }

  function EndItem(s: seq<Item>, id: Id, burn: bool): seq<Item> {
    seq(|s|, i requires 0 <= i < |s| => if s[i].id == id then Ended(s[i], burn) else s[i])
  }

  function CountItem(s: seq<Item>, id: Id, count: nat): seq<Item> {
    seq(|s|, i requires 0 <= i < |s| => if s[i].id == id then Counted(s[i], count) else s[i])
  }

  /** Items this receipt reads for the first time. */
  function NewlyRead(s: seq<Item>, user: Id, readUpTo: nat, lastRead: nat): nat
    decreases |s|
  {
    if s == [] then 0 else
      var last := s[|s| - 1];
      NewlyRead(s[..|s| - 1], user, readUpTo, lastRead)
      + Number(CountsAsUnread(last, user, readUpTo) && last.number <= lastRead)
  }

  function Apply(w: Web, u: Update): Web {
    match u
    case CountUpdate(conv, id, count, globalSeq) =>
      if (conv, id) in w.counts && globalSeq <= w.counts[(conv, id)].globalSeq then w
      else
        var counted := w.(counts := w.counts[(conv, id) := CountState(count, globalSeq)]);
        if conv in w.lists then counted.(lists := w.lists[conv := CountItem(w.lists[conv], id, count)]) else counted
    case DeliveryUpdate(conv, id, target, globalSeq) =>
      if (conv, id, target) in w.deliveries && globalSeq <= w.deliveries[(conv, id, target)] then w
      else w.(deliveries := w.deliveries[(conv, id, target) := globalSeq])
    case EndUpdate(conv, id, burn) =>
      var found := Find(ListOf(w.lists, conv), id);
      if found.Some? then
        var drop := !w.authoritative && CountsAsUnread(found.value, w.user, ReadUpTo(w.progress, conv, w.user));
        w.(total := if drop then AtLeastZero(w.total - 1) else w.total,
           lists := w.lists[conv := EndItem(ListOf(w.lists, conv), id, burn)])
      else
        var known := if (conv, id) in w.pending then w.pending[(conv, id)].burned else false;
        w.(pending := w.pending[(conv, id) := PendingState(true, known || burn)])
    case ReceiptUpdate(conv, reader, lastRead) =>
      var before := ReadUpTo(w.progress, conv, reader);
      if lastRead <= before then w
      else
        var readNow := if reader == w.user then NewlyRead(ListOf(w.lists, conv), w.user, before, lastRead) else 0;
        w.(progress := w.progress[(conv, reader) := lastRead], lists := w.lists[conv := ListOf(w.lists, conv)],
           total := if w.authoritative then w.total else AtLeastZero(w.total - readNow))
  }

  // ---------- the recount ----------

  function UnreadIds(s: seq<Item>, user: Id, readUpTo: nat): set<Id> {
    set x | x in s && CountsAsUnread(x, user, readUpTo) :: x.id
  }

  /** Every unread message of every conversation. */
  function UnreadPairs(w: Web): set<(Id, Id)> {
    set c, id | c in w.lists && id in UnreadIds(w.lists[c], w.user, ReadUpTo(w.progress, c, w.user)) :: (c, id)
  }

  ghost predicate Consistent(w: Web) {
    ListsOk(w.lists) && (!w.authoritative ==> w.total == |UnreadPairs(w)|)
  }

  lemma InPairs(w: Web, c: Id, id: Id)
    ensures (c, id) in UnreadPairs(w) <==>
              c in w.lists && id in UnreadIds(w.lists[c], w.user, ReadUpTo(w.progress, c, w.user))
  {
    if (c, id) in UnreadPairs(w) {
      var c1, id1 :| c1 in w.lists && id1 in UnreadIds(w.lists[c1], w.user, ReadUpTo(w.progress, c1, w.user)) && (c1, id1) == (c, id);
    }
  }

  /** An item counts exactly when the recount holds its pair. */
  lemma FoundCounts(s: seq<Item>, id: Id, user: Id, readUpTo: nat)
    requires Distinct(s)
    ensures id in UnreadIds(s, user, readUpTo) <==> Find(s, id).Some? && CountsAsUnread(Find(s, id).value, user, readUpTo)
  {
    if id in UnreadIds(s, user, readUpTo) {
      var x :| x in s && CountsAsUnread(x, user, readUpTo) && x.id == id;
      UniqueById(s, x, Find(s, id).value);
    }
  }

  lemma PutUnread(s: seq<Item>, x: Item, user: Id, readUpTo: nat)
    requires Distinct(s)
    ensures UnreadIds(Sort(Delete(s, x.id) + [x]), user, readUpTo)
         == UnreadIds(s, user, readUpTo) - {x.id} + if CountsAsUnread(x, user, readUpTo) then {x.id} else {}
  {
    var t := Delete(s, x.id) + [x];
    PutDistinct(s, x);
    SortedDistinct(t);
    var a, b := UnreadIds(Sort(t), user, readUpTo), UnreadIds(s, user, readUpTo);
    forall id ensures id in a <==> (id in b && id != x.id) || (id == x.id && CountsAsUnread(x, user, readUpTo)) {
      if id in a { var y :| y in Sort(t) && CountsAsUnread(y, user, readUpTo) && y.id == id; assert y in t; }
      if id in b && id != x.id { var y :| y in s && CountsAsUnread(y, user, readUpTo) && y.id == id; assert y in t && y in Sort(t); }
      if id == x.id && CountsAsUnread(x, user, readUpTo) { assert x in t && x in Sort(t); }
    }
  }

  /** v is w with one conversation's list or read position changed. */
  ghost predicate DiffersAt(w: Web, v: Web, conv: Id) {
    && v.user == w.user && conv in v.lists
    && (forall c :: c != conv ==> (c in v.lists <==> c in w.lists) && (c in w.lists ==> v.lists[c] == w.lists[c]))
    && (forall c :: c != conv ==> ReadUpTo(v.progress, c, w.user) == ReadUpTo(w.progress, c, w.user))
  }

  function UnreadAt(w: Web, conv: Id): set<Id> {
    UnreadIds(ListOf(w.lists, conv), w.user, ReadUpTo(w.progress, conv, w.user))
  }

  lemma PairsAt(w: Web, p: (Id, Id))
    ensures p in UnreadPairs(w) <==> p.1 in UnreadAt(w, p.0)
  {
    InPairs(w, p.0, p.1);
    assert p == (p.0, p.1);
  }

  lemma PairsChanged(w: Web, v: Web, conv: Id)
    requires DiffersAt(w, v, conv)
    ensures UnreadPairs(v) == (UnreadPairs(w) - Pairs(conv, UnreadAt(w, conv))) + Pairs(conv, UnreadAt(v, conv))
    ensures Pairs(conv, UnreadAt(w, conv)) <= UnreadPairs(w)
    ensures (UnreadPairs(w) - Pairs(conv, UnreadAt(w, conv))) !! Pairs(conv, UnreadAt(v, conv))
  {
    var pa, pb := Pairs(conv, UnreadAt(w, conv)), Pairs(conv, UnreadAt(v, conv));
    forall p: (Id, Id)
      ensures p in UnreadPairs(v) <==> (p in UnreadPairs(w) && p !in pa) || p in pb
      ensures p in pa ==> p in UnreadPairs(w)
      ensures p in UnreadPairs(w) && p !in pa ==> p !in pb
    {
      PairsAt(w, p);
      PairsAt(v, p);
      PairIn(conv, UnreadAt(w, conv), p);
      PairIn(conv, UnreadAt(v, conv), p);
    }
  }

  /** One list changes: the recount changes by the pairs of that list only. */
  lemma OneListChanged(w: Web, v: Web, conv: Id)
    requires DiffersAt(w, v, conv)
    ensures |UnreadPairs(w)| >= |UnreadAt(w, conv)|
    ensures |UnreadPairs(v)| == |UnreadPairs(w)| - |UnreadAt(w, conv)| + |UnreadAt(v, conv)|
  {
    PairsChanged(w, v, conv);
    PairsSize(conv, UnreadAt(w, conv));
    PairsSize(conv, UnreadAt(v, conv));
    SetSwap(UnreadPairs(w), UnreadPairs(v), Pairs(conv, UnreadAt(w, conv)), Pairs(conv, UnreadAt(v, conv)));
  }

  lemma SetSwap<T>(a: set<T>, b: set<T>, gone: set<T>, come: set<T>)
    requires gone <= a && b == (a - gone) + come && (a - gone) !! come
    ensures |a| >= |gone| && |b| == |a| - |gone| + |come|
  {
    assert a == (a - gone) + gone;
  }

  function Pairs(conv: Id, ids: set<Id>): set<(Id, Id)> { set id | id in ids :: (conv, id) }

  lemma PairIn(conv: Id, ids: set<Id>, p: (Id, Id))
    ensures p in Pairs(conv, ids) <==> p.0 == conv && p.1 in ids
  {
    if p.0 == conv && p.1 in ids { assert p == (conv, p.1); }
  }

  lemma {:induction false} PairsSize(conv: Id, ids: set<Id>)
    ensures |Pairs(conv, ids)| == |ids|
    decreases |ids|
  {
    if ids == {} {
      assert Pairs(conv, ids) == {};
    } else {
      var id :| id in ids;
      PairsSize(conv, ids - {id});
      assert Pairs(conv, ids) == Pairs(conv, ids - {id}) + {(conv, id)};
      assert (conv, id) !in Pairs(conv, ids - {id});
    }
  }

  // ---------- pushing keeps the total ----------

  /** What a single push leaves. */
  lemma PushShape(w: Web, raw: Item)
    ensures var l, merged, v := ListOf(w.lists, raw.conv), Merged(w, map[], raw), PushMessages(w, [raw]);
            v == Taken(w, raw.conv, raw.id, Find(l, raw.id), merged)
                 .(lists := FlushLists(w.lists, map[raw.conv := Delete(l, raw.id) + [merged]]))
  {
    SinglePush(w, raw);
    TakeResult(w, map[], raw, ListOf(w.lists, raw.conv), Merged(w, map[], raw));
    assert map[][raw.conv := Delete(ListOf(w.lists, raw.conv), raw.id) + [Merged(w, map[], raw)]]
        == map[raw.conv := Delete(ListOf(w.lists, raw.conv), raw.id) + [Merged(w, map[], raw)]];
  }

  lemma FlushOne(lists: Lists, conv: Id, x: seq<Item>)
    requires ListsOk(lists) && Distinct(x)
    ensures var v := FlushLists(lists, map[conv := x]);
            ListsOk(v) && conv in v && v[conv] == Sort(x) && forall c :: c != conv ==> (c in v <==> c in lists) && (c in lists ==> v[c] == lists[c])
  {
    SortSorts(x);
    SortedDistinct(x);
  }

  lemma PushLists(w: Web, raw: Item)
    requires ListsOk(w.lists)
    ensures var l, merged, v := ListOf(w.lists, raw.conv), Merged(w, map[], raw), PushMessages(w, [raw]);
            && merged.id == raw.id && Distinct(l) && ListsOk(v.lists) && DiffersAt(w, v, raw.conv)
            && v.lists[raw.conv] == Sort(Delete(l, raw.id) + [merged])
  {
    var l, merged := ListOf(w.lists, raw.conv), Merged(w, map[], raw);
    PushShape(w, raw);
    PutDistinct(l, merged);
    FlushOne(w.lists, raw.conv, Delete(l, raw.id) + [merged]);
  }

  lemma PushUnread(w: Web, raw: Item)
    requires ListsOk(w.lists)
    ensures var l, merged, v := ListOf(w.lists, raw.conv), Merged(w, map[], raw), PushMessages(w, [raw]);
            var read, found := ReadUpTo(w.progress, raw.conv, w.user), Find(l, raw.id);
            var was, now := found.Some? && CountsAsUnread(found.value, w.user, read), CountsAsUnread(merged, w.user, read);
            && |UnreadPairs(v)| == |UnreadPairs(w)| - Number(was) + Number(now)
            && (was ==> |UnreadPairs(w)| >= 1)
  {
    var l, merged := ListOf(w.lists, raw.conv), Merged(w, map[], raw);
    var read := ReadUpTo(w.progress, raw.conv, w.user);
    PushShape(w, raw);
    PushLists(w, raw);
    PutUnread(l, merged, w.user, read);
    FoundCounts(l, raw.id, w.user, read);
    var v := PushMessages(w, [raw]);
    assert v.progress == w.progress && ListOf(v.lists, raw.conv) == Sort(Delete(l, raw.id) + [merged]);
    OneListChanged(w, PushMessages(w, [raw]), raw.conv);
    SwapSize(UnreadIds(l, w.user, read), raw.id, CountsAsUnread(merged, w.user, read));
  }

  /** The clamp at zero never changes the value. */
  lemma PushKeeps(w: Web, raw: Item)
    requires Consistent(w)
    ensures Consistent(PushMessages(w, [raw]))
    ensures var l, merged := ListOf(w.lists, raw.conv), Merged(w, map[], raw);
            var read, found := ReadUpTo(w.progress, raw.conv, w.user), Find(l, raw.id);
            !w.authoritative ==>
              PushMessages(w, [raw]).total == w.total + Number(CountsAsUnread(merged, w.user, read))
                                              - Number(found.Some? && CountsAsUnread(found.value, w.user, read))
  {
    PushShape(w, raw);
    PushLists(w, raw);
    PushUnread(w, raw);
  }

  lemma SwapSize(a: set<Id>, id: Id, now: bool)
    ensures |a - {id} + if now then {id} else {}| == |a| - Number(id in a) + Number(now)
    ensures id in a ==> |a| >= 1
  {
    if id in a { assert a == (a - {id}) + {id}; } else { assert a - {id} == a; }
  }

  lemma {:induction false} EachKeeps(w: Web, raws: seq<Item>)
    requires Consistent(w)
    ensures Consistent(PushEach(w, raws))
    decreases raws
  {
    if raws != [] {
      PushKeeps(w, raws[0]);
      EachKeeps(PushMessages(w, [raws[0]]), raws[1..]);
    }
  }

  /** After any batch the incremental total is the recount. */
  lemma BatchKeeps(w: Web, raws: seq<Item>)
    requires Consistent(w)
    ensures Consistent(PushMessages(w, raws))
  {
    BatchIsEach(w, raws);
    EachKeeps(w, raws);
  }

  // ---------- updates keep the total ----------

  /** Same ids and order keys. */
  ghost predicate SameKeys(a: seq<Item>, b: seq<Item>) {
    |a| == |b| && forall i :: 0 <= i < |a| ==> b[i].id == a[i].id && b[i].number == a[i].number && b[i].createdAt == a[i].createdAt
  }

  lemma SameKeysOk(a: seq<Item>, b: seq<Item>)
    requires SameKeys(a, b) && WebMessages.Sorted(a) && Distinct(a)
    ensures WebMessages.Sorted(b) && Distinct(b)
  {
  }

  lemma EndUnread(s: seq<Item>, id: Id, burn: bool, user: Id, readUpTo: nat)
    requires Distinct(s)
    ensures UnreadIds(EndItem(s, id, burn), user, readUpTo) == UnreadIds(s, user, readUpTo) - {id}
  {
    var t := EndItem(s, id, burn);
    forall m ensures m in UnreadIds(t, user, readUpTo) <==> m in UnreadIds(s, user, readUpTo) && m != id {
      if m in UnreadIds(t, user, readUpTo) {
        var y :| y in t && CountsAsUnread(y, user, readUpTo) && y.id == m;
        var i :| 0 <= i < |t| && t[i] == y;
        assert s[i] in s;
      }
      if m in UnreadIds(s, user, readUpTo) && m != id {
        var y :| y in s && CountsAsUnread(y, user, readUpTo) && y.id == m;
        var i :| 0 <= i < |s| && s[i] == y;
        assert t[i] in t;
      }
    }
  }

  lemma CountUnread(s: seq<Item>, id: Id, count: nat, user: Id, readUpTo: nat)
    ensures UnreadIds(CountItem(s, id, count), user, readUpTo) == UnreadIds(s, user, readUpTo)
  {
    var t := CountItem(s, id, count);
    forall m ensures m in UnreadIds(t, user, readUpTo) <==> m in UnreadIds(s, user, readUpTo) {
      if m in UnreadIds(t, user, readUpTo) {
        var y :| y in t && CountsAsUnread(y, user, readUpTo) && y.id == m;
        var i :| 0 <= i < |t| && t[i] == y;
        assert s[i] in s;
      }
      if m in UnreadIds(s, user, readUpTo) {
        var y :| y in s && CountsAsUnread(y, user, readUpTo) && y.id == m;
        var i :| 0 <= i < |s| && s[i] == y;
        assert t[i] in t;
      }
    }
  }

  lemma IdsAppend(s: seq<Item>, user: Id, readUpTo: nat)
    requires s != [] && Distinct(s)
    ensures var init, last := s[..|s| - 1], s[|s| - 1];
            && Distinct(init) && last.id !in UnreadIds(init, user, readUpTo)
            && UnreadIds(s, user, readUpTo) == UnreadIds(init, user, readUpTo) + if CountsAsUnread(last, user, readUpTo) then {last.id} else {}
  {
    var init, last := s[..|s| - 1], s[|s| - 1];
    assert forall x :: x in s <==> x in init || x == last;
    forall x | x in init ensures x.id != last.id { var i :| 0 <= i < |init| && init[i] == x; assert s[i].id != s[|s| - 1].id; }
  }

  /** The loop over the list counts exactly what leaves the unread set when the position rises. */
  lemma {:induction false} ReadCounts(s: seq<Item>, user: Id, from: nat, to: nat)
    requires Distinct(s) && from <= to
    ensures |UnreadIds(s, user, to)| == |UnreadIds(s, user, from)| - NewlyRead(s, user, from, to)
    decreases |s|
  {
    if s != [] {
      var last := s[|s| - 1];
      IdsAppend(s, user, from);
      IdsAppend(s, user, to);
      ReadCounts(s[..|s| - 1], user, from, to);
    }
  }

  lemma EndKeeps(w: Web, conv: Id, id: Id, burn: bool)
    requires Consistent(w)
    ensures Consistent(Apply(w, EndUpdate(conv, id, burn)))
    ensures var found := Find(ListOf(w.lists, conv), id);
            !w.authoritative && found.Some? && CountsAsUnread(found.value, w.user, ReadUpTo(w.progress, conv, w.user)) ==> w.total >= 1
  {
    var l := ListOf(w.lists, conv);
    if Find(l, id).Some? {
      SameKeysOk(l, EndItem(l, id, burn));
      EndSize(w, conv, id, burn);
    } else {
      assert UnreadPairs(Apply(w, EndUpdate(conv, id, burn))) == UnreadPairs(w);
    }
  }

  lemma EndLists(w: Web, conv: Id, id: Id, burn: bool)
    requires Distinct(ListOf(w.lists, conv)) && Find(ListOf(w.lists, conv), id).Some?
    ensures var v := Apply(w, EndUpdate(conv, id, burn));
            DiffersAt(w, v, conv) && UnreadAt(v, conv) == UnreadAt(w, conv) - {id}
  {
    EndUnread(ListOf(w.lists, conv), id, burn, w.user, ReadUpTo(w.progress, conv, w.user));
  }

  lemma EndSize(w: Web, conv: Id, id: Id, burn: bool)
    requires Distinct(ListOf(w.lists, conv)) && Find(ListOf(w.lists, conv), id).Some?
    ensures var v, x := Apply(w, EndUpdate(conv, id, burn)), Find(ListOf(w.lists, conv), id).value;
            var was := CountsAsUnread(x, w.user, ReadUpTo(w.progress, conv, w.user));
            |UnreadPairs(v)| == |UnreadPairs(w)| - Number(was) && (was ==> |UnreadPairs(w)| >= 1)
  {
    EndLists(w, conv, id, burn);
    FoundCounts(ListOf(w.lists, conv), id, w.user, ReadUpTo(w.progress, conv, w.user));
    OneListChanged(w, Apply(w, EndUpdate(conv, id, burn)), conv);
    OneGone(UnreadAt(w, conv), id);
  }

  lemma OneGone(a: set<Id>, id: Id)
    ensures |a - {id}| == |a| - Number(id in a) && (id in a ==> |a| >= 1)
  {
    SwapSize(a, id, false);
    assert a - {id} + {} == a - {id};
  }

  lemma CountKeeps(w: Web, conv: Id, id: Id, count: nat, globalSeq: nat)
    requires Consistent(w)
    ensures Consistent(Apply(w, CountUpdate(conv, id, count, globalSeq)))
  {
    var v := Apply(w, CountUpdate(conv, id, count, globalSeq));
    if conv in w.lists && v != w {
      var l := w.lists[conv];
      SameKeysOk(l, CountItem(l, id, count));
      CountUnread(l, id, count, w.user, ReadUpTo(w.progress, conv, w.user));
      OneListChanged(w, v, conv);
    } else {
      assert UnreadPairs(v) == UnreadPairs(w);
    }
  }

  lemma DeliveryKeeps(w: Web, conv: Id, id: Id, target: Id, globalSeq: nat)
    requires Consistent(w)
    ensures Consistent(Apply(w, DeliveryUpdate(conv, id, target, globalSeq)))
  {
    assert UnreadPairs(Apply(w, DeliveryUpdate(conv, id, target, globalSeq))) == UnreadPairs(w);
  }

  /** Here too the clamp never changes the value. */
  lemma ReceiptKeeps(w: Web, conv: Id, reader: Id, lastRead: nat)
    requires Consistent(w)
    ensures Consistent(Apply(w, ReceiptUpdate(conv, reader, lastRead)))
    ensures !w.authoritative && reader == w.user && ReadUpTo(w.progress, conv, reader) < lastRead ==>
              w.total >= NewlyRead(ListOf(w.lists, conv), w.user, ReadUpTo(w.progress, conv, reader), lastRead)
  {
    var before := ReadUpTo(w.progress, conv, reader);
    if lastRead > before {
      var v := Apply(w, ReceiptUpdate(conv, reader, lastRead));
      var l := ListOf(w.lists, conv);
      OneListChanged(w, v, conv);
      if reader == w.user { ReadCounts(l, w.user, before, lastRead); }
    }
  }

  /** After every update of every kind the incremental total is the recount. */
  lemma ApplyKeeps(w: Web, u: Update)
    requires Consistent(w)
    ensures Consistent(Apply(w, u))
  {
    match u
    case CountUpdate(conv, id, count, globalSeq) => CountKeeps(w, conv, id, count, globalSeq);
    case DeliveryUpdate(conv, id, target, globalSeq) => DeliveryKeeps(w, conv, id, target, globalSeq);
    case EndUpdate(conv, id, burn) => EndKeeps(w, conv, id, burn);
    case ReceiptUpdate(conv, reader, lastRead) => ReceiptKeeps(w, conv, reader, lastRead);
  }

  /** Batches and updates in any order. */
  datatype Change = Pushed(raws: seq<Item>) | Updated(u: Update)

  function Changed(w: Web, change: Change): Web {
    match change
    case Pushed(raws) => PushMessages(w, raws)
    case Updated(u) => Apply(w, u)
  }

  function Run(w: Web, changes: seq<Change>): Web
    decreases changes
  {
    if changes == [] then w
    else Run(Changed(w, changes[0]), changes[1..])
  }

  /** From a consistent start the total is the recount after any sequence of batches and updates. */
  lemma {:induction false} RunKeeps(w: Web, changes: seq<Change>)
    requires Consistent(w)
    ensures Consistent(Run(w, changes))
    decreases changes
  {
    if changes != [] {
      match changes[0]
      case Pushed(raws) => BatchKeeps(w, raws); RunKeeps(PushMessages(w, raws), changes[1..]);
      case Updated(u) => ApplyKeeps(w, u); RunKeeps(Apply(w, u), changes[1..]);
    }
  }
}
