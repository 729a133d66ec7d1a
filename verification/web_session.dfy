/** The session store as it stands in memory: item objects shared between list objects, and a lookup
    cache keyed by list object that in-place changes and replaced lists must never make wrong. */
module WebSession {
  import opened SyncEvents
  import opened WebMessages
  import opened WebStore

  /** `data` stands for the object's fields; changes in place assign to it. */
  class MessageItem {
    var data: Item

    constructor (data: Item)
      ensures this.data == data
    {
      this.data := data;
    }
  }

  class MessageArray {
    var items: seq<MessageItem>

    constructor (items: seq<MessageItem>)
      ensures this.items == items
    {
      this.items := items;
    }
  }

  type LookupMap = map<Id, MessageItem>

  /** Lists under construction: a Map in insertion order, as the sequence of its values. */
  type Batches = map<Id, seq<MessageItem>>

  /** The fields of the objects, in order. */
  ghost predicate Mirrors(items: seq<MessageItem>, v: seq<Item>)
    reads items
  {
    |v| == |items| && forall i :: 0 <= i < |items| ==> items[i].data == v[i]
  }

  ghost predicate AllIn(v: seq<Item>, conv: Id) { forall x :: x in v ==> x.conv == conv }

  /** The map answers for every id as a search of the list does. */
  ghost predicate Agrees(items: seq<MessageItem>, m: LookupMap)
    reads items
  {
    && (forall id :: id in m ==> m[id] in items && m[id].data.id == id)
    && (forall x :: x in items ==> x.data.id in m && m[x.data.id] == x)
  }

  lemma AgreesFind(items: seq<MessageItem>, v: seq<Item>, m: LookupMap, id: Id)
    requires Mirrors(items, v) && Distinct(v) && Agrees(items, m)
    ensures Find(v, id) == if id in m then Some(m[id].data) else None
  {
    if id in m {
      var k :| 0 <= k < |items| && items[k] == m[id];
      assert v[k] in v;
      UniqueById(v, v[k], Find(v, id).value);
    } else {
      assert forall k :: 0 <= k < |items| ==> items[k] in items && v[k].id in m;
    }
  }

  // ---------- reading lists of objects ----------

  method FindObject(items: seq<MessageItem>, id: Id, ghost v: seq<Item>) returns (found: Option<MessageItem>)
    requires Mirrors(items, v)
    ensures Find(v, id) == if found.Some? then Some(found.value.data) else None
    decreases |items|
  {
    if items == [] { return None; }
    if items[|items| - 1].data.id == id { return Some(items[|items| - 1]); }
    found := FindObject(items[..|items| - 1], id, v[..|items| - 1]);
  }

  method DeleteObject(items: seq<MessageItem>, id: Id, ghost v: seq<Item>) returns (rest: seq<MessageItem>)
    requires Mirrors(items, v)
    ensures Mirrors(rest, Delete(v, id)) && forall x :: x in rest ==> x in items
    decreases |items|
  {
    if items == [] { return []; }
    rest := DeleteObject(items[..|items| - 1], id, v[..|items| - 1]);
    if items[|items| - 1].data.id != id { rest := rest + [items[|items| - 1]]; }
  }

  method InsertObject(items: seq<MessageItem>, x: MessageItem, ghost v: seq<Item>) returns (more: seq<MessageItem>)
    requires Mirrors(items, v)
    ensures Mirrors(more, Insert(v, x.data)) && forall y :: y in more ==> y in items || y == x
    decreases |items|
  {
    if items == [] || !After(items[|items| - 1].data, x.data) { return items + [x]; }
    more := InsertObject(items[..|items| - 1], x, v[..|items| - 1]);
    more := more + [items[|items| - 1]];
  }

  method SortObjects(items: seq<MessageItem>, ghost v: seq<Item>) returns (sorted: seq<MessageItem>)
    requires Mirrors(items, v)
    ensures Mirrors(sorted, Sort(v)) && forall x :: x in sorted ==> x in items
    decreases |items|
  {
    if items == [] { return []; }
    sorted := SortObjects(items[..|items| - 1], v[..|items| - 1]);
    sorted := InsertObject(sorted, items[|items| - 1], Sort(v[..|items| - 1]));
  }

  method CountNewlyRead(list: seq<MessageItem>, user: Id, readUpTo: nat, lastRead: nat, ghost v: seq<Item>) returns (n: nat)
    requires Mirrors(list, v)
    ensures n == NewlyRead(v, user, readUpTo, lastRead)
  {
    n := 0;
    for i := 0 to |list|
      invariant n == NewlyRead(v[..i], user, readUpTo, lastRead)
    {
      assert v[..i + 1][..i] == v[..i];
      if CountsAsUnread(list[i].data, user, readUpTo) && list[i].data.number <= lastRead { n := n + 1; }
    }
    assert v[..|list|] == v;
  }

  // ---------- what the store keeps true of its objects ----------

  type Arrays = map<Id, MessageArray>
  type Lookups = map<MessageArray, LookupMap>

  /** A list of one conversation whose objects are known and show `view`. */
  ghost predicate Shows(items: seq<MessageItem>, held: set<MessageItem>, conv: Id, view: seq<Item>)
    reads held
  {
    (forall x :: x in items ==> x in held) && Mirrors(items, view) && Distinct(view) && AllIn(view, conv)
  }

  ghost predicate Owned(arrays: set<MessageArray>, held: set<MessageItem>)
    reads arrays
  {
    forall a :: a in arrays ==> forall x :: x in a.items ==> x in held
  }

  /** Every cached map answers as a search of its list would, for lists that have been replaced as well. */
  ghost predicate CacheKept(lookups: Lookups, arrays: set<MessageArray>, held: set<MessageItem>)
    requires Owned(arrays, held)
    reads arrays, held
  {
    forall a :: a in lookups ==> a in arrays && Agrees(a.items, lookups[a])
  }

  /** The current lists show `contents`, each only items of its own conversation and no id twice. */
  ghost predicate ListsKept(lists: Arrays, arrays: set<MessageArray>, held: set<MessageItem>, contents: Lists)
    requires Owned(arrays, held)
    reads arrays, held
  {
    && lists.Keys == contents.Keys
    && (forall c :: c in lists ==> lists[c] in arrays && Mirrors(lists[c].items, contents[c]))
    && (forall c :: c in lists ==> AllIn(contents[c], c) && Distinct(contents[c]))
  }

  ghost predicate Kept(lists: Arrays, lookups: Lookups, arrays: set<MessageArray>, held: set<MessageItem>, contents: Lists)
    reads arrays, held
  {
    Owned(arrays, held) && CacheKept(lookups, arrays, held) && ListsKept(lists, arrays, held, contents)
  }

  ghost predicate BatchesKept(batches: Batches, held: set<MessageItem>, view: Lists)
    reads held
  {
    batches.Keys == view.Keys && forall c :: c in batches ==> Shows(batches[c], held, c, view[c])
  }

  /** Naming more objects changes nothing that is stated about the old ones. */
  lemma MoreHeld(lists: Arrays, lookups: Lookups, arrays: set<MessageArray>, held: set<MessageItem>, contents: Lists,
                 batches: Batches, view: Lists, x: MessageItem)
    requires Kept(lists, lookups, arrays, held, contents) && BatchesKept(batches, held, view)
    ensures Kept(lists, lookups, arrays, held + {x}, contents) && BatchesKept(batches, held + {x}, view)
  {
  }

  /** One more list object, now the current one of a conversation. */
  lemma ArrayPut(lists: Arrays, lookups: Lookups, arrays: set<MessageArray>, held: set<MessageItem>, contents: Lists,
                 c: Id, a: MessageArray, view: seq<Item>)
    requires Kept(lists, lookups, arrays, held, contents) && Shows(a.items, held, c, view)
    ensures Kept(lists[c := a], lookups, arrays + {a}, held, contents[c := view])
  {
  }

  /** One more list object and its cached map. */
  lemma LookupPut(lists: Arrays, lookups: Lookups, arrays: set<MessageArray>, held: set<MessageItem>, contents: Lists,
                  a: MessageArray, m: LookupMap)
    requires Kept(lists, lookups, arrays, held, contents) && Agrees(a.items, m) && forall x :: x in a.items ==> x in held
    ensures Kept(lists, lookups[a := m], arrays + {a}, held, contents)
  {
  }

  /** A rebuilt list still has every id once and only items of its conversation. */
  lemma PutShows(items: seq<MessageItem>, rest: seq<MessageItem>, held: set<MessageItem>, conv: Id, view: seq<Item>, merged: MessageItem)
    requires Shows(items, held, conv, view) && merged in held && merged.data.conv == conv
    requires Mirrors(rest, Delete(view, merged.data.id)) && forall x :: x in rest ==> x in items
    ensures Shows(rest + [merged], held, conv, Delete(view, merged.data.id) + [merged.data])
  {
    PutDistinct(view, merged.data);
  }

  lemma PutBatch(batches: Batches, view: Lists, items: seq<MessageItem>, rest: seq<MessageItem>, held: set<MessageItem>,
                 shown: seq<Item>, merged: MessageItem)
    requires BatchesKept(batches, held, view) && Shows(items, held, merged.data.conv, shown) && merged in held
    requires Mirrors(rest, Delete(shown, merged.data.id)) && forall x :: x in rest ==> x in items
    ensures BatchesKept(batches[merged.data.conv := rest + [merged]], held,
                        view[merged.data.conv := Delete(shown, merged.data.id) + [merged.data]])
  {
    PutShows(items, rest, held, merged.data.conv, shown, merged);
  }

  /** new Map(messages.map(item => [item.id, item])). */
  method BuildLookup(items: seq<MessageItem>, ghost v: seq<Item>) returns (m: LookupMap)
    requires Mirrors(items, v) && Distinct(v)
    ensures Agrees(items, m)
  {
    m := map[];
    for i := 0 to |items|
      invariant Agrees(items[..i], m)
    {
      assert items[..i + 1] == items[..i] + [items[i]];
      m := m[items[i].data.id := items[i]];
    }
    assert items[..|items|] == items;
  }

  lemma FlushMore(lists: Lists, done: Lists, c: Id, list: seq<Item>)
    ensures FlushLists(lists, done[c := list]) == FlushLists(lists, done)[c := Sort(list)]
  {
    assert FlushLists(lists, done[c := list]).Keys == FlushLists(lists, done)[c := Sort(list)].Keys;
  }

  lemma FlushNone(lists: Lists)
    ensures FlushLists(lists, map[]) == lists
  {
  }

  lemma RestrictMore(batches: Lists, todo: set<Id>, c: Id)
    requires c in todo && todo <= batches.Keys
    ensures (batches - todo)[c := batches[c]] == batches - (todo - {c})
  {
  }

  /** The lists with all batches but those in `todo` sorted into place. */
  ghost predicate Partly(lists: Lists, view: Lists, todo: set<Id>, next: Lists) { next == FlushLists(lists, view - todo) }

  lemma FlushStep(lists: Lists, view: Lists, todo: set<Id>, c: Id, next: Lists)
    requires c in todo && todo <= view.Keys && Partly(lists, view, todo, next)
    ensures Partly(lists, view, todo - {c}, next[c := Sort(view[c])])
  {
    FlushMore(lists, view - todo, c, view[c]);
    RestrictMore(view, todo, c);
  }

  lemma FlushEnds(lists: Lists, view: Lists)
    ensures view - {} == view && FlushLists(lists, view - view.Keys) == lists
  {
    FlushNone(lists);
    assert view - view.Keys == map[];
  }

  /** A new list object with the batch's objects in order. */
  method SortedArray(items: seq<MessageItem>, ghost held: set<MessageItem>, ghost conv: Id, ghost view: seq<Item>) returns (a: MessageArray)
    requires Shows(items, held, conv, view)
    ensures fresh(a) && Shows(a.items, held, conv, Sort(view))
  {
    var sorted := SortObjects(items, view);
    SortedDistinct(view);
    a := new MessageArray(sorted);
  }

  method Assign(x: MessageItem, data: Item, ghost was: map<MessageItem, Item>, ghost lists: Arrays, ghost lookups: Lookups,
                ghost arrays: set<MessageArray>, ghost held: set<MessageItem>, ghost contents: Lists)
    requires Owned(arrays, held) && Remembered(lists, lookups, arrays, contents, was) && x in held
    requires was.Keys == held && forall y :: y in held ==> was[y] == y.data
    requires data.id == x.data.id && data.conv == x.data.conv
    modifies x
    ensures x.data == data && Owned(arrays, held) && Remembered(lists, lookups, arrays, contents, was) && OnlyChanged(held, was, x)
  {
    x.data := data;
  }

  /** Nothing but the one list notices the change. */
  lemma ChangedKept(lists: Arrays, lookups: Lookups, arrays: set<MessageArray>, held: set<MessageItem>, was: map<MessageItem, Item>,
                    x: MessageItem, contents: Lists)
    requires Owned(arrays, held) && OnlyChanged(held, was, x) && Remembered(lists, lookups, arrays, contents, was)
    requires x.data.conv in lists && x in lists[x.data.conv].items
    ensures Kept(lists, lookups, arrays, held, contents[x.data.conv := Replaced(contents[x.data.conv], x.data.id, x.data)])
  {
    ChangedLists(lists, arrays, held, was, x, contents);
    ChangedCache(lookups, arrays, held, was, x);
  }

  /** What `Kept` says, with the objects' earlier fields. */
  ghost predicate Remembered(lists: Arrays, lookups: Lookups, arrays: set<MessageArray>, contents: Lists, was: map<MessageItem, Item>)
    reads arrays
  {
    && lists.Keys == contents.Keys
    && (forall c :: c in lists ==> lists[c] in arrays && Mirrored(lists[c].items, contents[c], was))
    && (forall c :: c in lists ==> AllIn(contents[c], c) && Distinct(contents[c]))
    && (forall a :: a in lookups ==> a in arrays && Agreed(a.items, lookups[a], was))
  }

  /** Overwriting the item with an id. */
  function Replaced(s: seq<Item>, id: Id, data: Item): (r: seq<Item>)
    ensures |r| == |s|
  {
    seq(|s|, i requires 0 <= i < |s| => if s[i].id == id then data else s[i])
  }

  lemma EndedIs(s: seq<Item>, id: Id, burn: bool)
    requires Distinct(s)
    ensures Find(s, id).Some? ==> EndItem(s, id, burn) == Replaced(s, id, Ended(Find(s, id).value, burn))
  {
    forall i | 0 <= i < |s| && s[i].id == id ensures Find(s, id) == Some(s[i]) { UniqueById(s, s[i], Find(s, id).value); }
  }

  lemma CountedIs(s: seq<Item>, id: Id, count: nat)
    requires Distinct(s)
    ensures CountItem(s, id, count) == match Find(s, id) case Some(x) => Replaced(s, id, Counted(x, count)) case None => s
  {
    forall i | 0 <= i < |s| && s[i].id == id ensures Find(s, id) == Some(s[i]) { UniqueById(s, s[i], Find(s, id).value); }
    if Find(s, id).None? { assert CountItem(s, id, count) == s; }
  }

  // ---------- a change in place, against what the objects held before it ----------

  ghost predicate Mirrored(items: seq<MessageItem>, v: seq<Item>, was: map<MessageItem, Item>) {
    |v| == |items| && forall i :: 0 <= i < |items| ==> items[i] in was && was[items[i]] == v[i]
  }

  ghost predicate Agreed(items: seq<MessageItem>, m: LookupMap, was: map<MessageItem, Item>) {
    && (forall id :: id in m ==> m[id] in items && m[id] in was && was[m[id]].id == id)
    && (forall y :: y in items ==> y in was && was[y].id in m && m[was[y].id] == y)
  }

  ghost predicate OnlyChanged(held: set<MessageItem>, was: map<MessageItem, Item>, x: MessageItem)
    reads held
  {
    && x in held && was.Keys == held && (forall y :: y in held && y != x ==> y.data == was[y])
    && x.data.id == was[x].id && x.data.conv == was[x].conv
  }

  /** Only the list of the item's own conversation shows it. */
  lemma ChangedView(items: seq<MessageItem>, held: set<MessageItem>, was: map<MessageItem, Item>, x: MessageItem, c: Id, view: seq<Item>)
    requires OnlyChanged(held, was, x) && Mirrored(items, view, was) && Distinct(view) && AllIn(view, c)
    ensures Mirrors(items, if c == x.data.conv && x in items then Replaced(view, x.data.id, x.data) else view)
  {
    assert forall i :: 0 <= i < |items| ==> was[items[i]] == view[i] && view[i] in view;
    if x in items {
      var k :| 0 <= k < |items| && items[k] == x;
      assert forall i :: 0 <= i < |items| && view[i].id == x.data.id ==> i == k;
    }
  }

  lemma ReplacedKeeps(view: seq<Item>, conv: Id, id: Id, data: Item)
    requires Distinct(view) && AllIn(view, conv) && data.id == id && data.conv == conv
    ensures Distinct(Replaced(view, id, data)) && AllIn(Replaced(view, id, data), conv)
  {
  }

  /** A cached map stays right when an item changes in place but keeps its id. */
  lemma ChangedLookup(items: seq<MessageItem>, m: LookupMap, held: set<MessageItem>, was: map<MessageItem, Item>, x: MessageItem)
    requires OnlyChanged(held, was, x) && Agreed(items, m, was)
    ensures Agrees(items, m)
  {
    assert forall y :: y in held ==> y.data.id == was[y].id;
  }

  lemma ChangedLists(lists: Arrays, arrays: set<MessageArray>, held: set<MessageItem>, was: map<MessageItem, Item>, x: MessageItem,
                     contents: Lists)
    requires Owned(arrays, held) && OnlyChanged(held, was, x) && lists.Keys == contents.Keys
    requires forall c :: c in lists ==> lists[c] in arrays && Mirrored(lists[c].items, contents[c], was)
    requires forall c :: c in lists ==> AllIn(contents[c], c) && Distinct(contents[c])
    requires x.data.conv in lists && x in lists[x.data.conv].items
    ensures ListsKept(lists, arrays, held, contents[x.data.conv := Replaced(contents[x.data.conv], x.data.id, x.data)])
  {
    var conv := x.data.conv;
    var next := contents[conv := Replaced(contents[conv], x.data.id, x.data)];
    ReplacedKeeps(contents[conv], conv, x.data.id, x.data);
    forall c | c in lists ensures Mirrors(lists[c].items, next[c]) { ChangedView(lists[c].items, held, was, x, c, contents[c]); }
  }

  lemma ChangedCache(lookups: Lookups, arrays: set<MessageArray>, held: set<MessageItem>, was: map<MessageItem, Item>, x: MessageItem)
    requires Owned(arrays, held) && OnlyChanged(held, was, x)
    requires forall a :: a in lookups ==> a in arrays && Agreed(a.items, lookups[a], was)
    ensures CacheKept(lookups, arrays, held)
  {
    forall a | a in lookups ensures Agrees(a.items, lookups[a]) { ChangedLookup(a.items, lookups[a], held, was, x); }
  }

  lemma InList(items: seq<MessageItem>, view: seq<Item>, held: set<MessageItem>, conv: Id, x: MessageItem)
    requires Shows(items, held, conv, view) && x in items
    ensures x in held && x.data.conv == conv
  {
    var k :| 0 <= k < |items| && items[k] == x;
    assert view[k] in view;
  }

  function CountedLists(lists: Lists, conv: Id, id: Id, count: nat): Lists {
    if conv in lists then lists[conv := CountItem(lists[conv], id, count)] else lists
  }

  lemma CountIs(w: Web, conv: Id, id: Id, count: nat, globalSeq: nat)
    requires (conv, id) in w.counts ==> w.counts[(conv, id)].globalSeq < globalSeq
    ensures Apply(w, CountUpdate(conv, id, count, globalSeq))
         == w.(counts := w.counts[(conv, id) := CountState(count, globalSeq)], lists := CountedLists(w.lists, conv, id, count))
  {
  }

  function EndTotal(w: Web, conv: Id, x: Item): int {
    if !w.authoritative && CountsAsUnread(x, w.user, ReadUpTo(w.progress, conv, w.user)) then AtLeastZero(w.total - 1) else w.total
  }

  lemma EndIs(w: Web, conv: Id, id: Id, burn: bool, x: Item)
    requires conv in w.lists && Find(w.lists[conv], id) == Some(x) && Distinct(w.lists[conv])
    ensures Apply(w, EndUpdate(conv, id, burn))
         == w.(total := EndTotal(w, conv, x), lists := w.lists[conv := Replaced(w.lists[conv], x.id, Ended(x, burn))])
  {
    EndedIs(w.lists[conv], id, burn);
  }

  lemma ReceiptIs(w: Web, conv: Id, reader: Id, lastRead: nat, readNow: nat)
    requires ReadUpTo(w.progress, conv, reader) < lastRead
    requires readNow == if reader == w.user then NewlyRead(ListOf(w.lists, conv), w.user, ReadUpTo(w.progress, conv, reader), lastRead) else 0
    ensures Apply(w, ReceiptUpdate(conv, reader, lastRead))
         == w.(progress := w.progress[(conv, reader) := lastRead], lists := w.lists[conv := ListOf(w.lists, conv)],
               total := if w.authoritative then w.total else AtLeastZero(w.total - readNow))
  {
  }

  lemma TakeIs(w: Web, batches: Lists, raw: Item, data: Item, total: int)
    requires data == Merge(Find(BatchList(w, batches, raw.conv), raw.id), Prepared(w, raw))
    requires total == TotalAfter(w, data.conv, Find(BatchList(w, batches, raw.conv), raw.id), data)
    ensures data.conv == raw.conv && data.id == raw.id
    ensures Take(w, batches, raw) == (w.(pending := w.pending - {(data.conv, data.id)}, total := total),
                                      batches[data.conv := Delete(BatchList(w, batches, raw.conv), data.id) + [data]])
  {
  }

  // ---------- the store ----------

  class SessionStore {
    var currentUserId: Id
    var unreadTotal: int
    var unreadAuthoritative: bool
    var messagesByConversation: Arrays
    var pendingState: map<(Id, Id), PendingState>
    var readCounts: map<(Id, Id), CountState>
    var readProgress: map<(Id, Id), nat>
    var deliveries: map<(Id, Id, Id), nat>
    /** Weak keys in the source: an entry may vanish at any time. */
    var lookups: Lookups

    /** Every list object and item object there has been, and what the current lists show. */
    ghost var arrays: set<MessageArray>
    ghost var held: set<MessageItem>
    ghost var contents: Lists

    ghost predicate Valid()
      reads this, arrays, held
    {
      Kept(messagesByConversation, lookups, arrays, held, contents)
    }

    ghost function State(): Web
      reads this
    {
      Web(currentUserId, unreadTotal, unreadAuthoritative, contents, pendingState, readCounts, readProgress, deliveries)
    }

    constructor (user: Id)
      ensures Valid() && State() == Web(user, 0, false, map[], map[], map[], map[], map[]) && Consistent(State())
    {
      currentUserId, unreadTotal, unreadAuthoritative := user, 0, false;
      messagesByConversation, pendingState, readCounts, readProgress, deliveries := map[], map[], map[], map[], map[];
      lookups, arrays, held, contents := map[], {}, {}, map[];
      new;
      assert UnreadPairs(State()) == {};
    }

    function Position(conv: Id, reader: Id): nat
      reads this
    {
      if (conv, reader) in readProgress then readProgress[(conv, reader)] else 0
    }

    /** `messagesByConversation[conv] ?? []`. */
    method CurrentArray(conv: Id) returns (a: MessageArray)
      requires Valid()
      ensures if conv in messagesByConversation then a == messagesByConversation[conv] else fresh(a)
      ensures Valid() && Shows(a.items, held, conv, ListOf(contents, conv))
    {
      if conv in messagesByConversation { return messagesByConversation[conv]; }
      a := new MessageArray([]);
    }

    /** messageLookup: cached, or built from the list and cached. */
    method MessageLookup(a: MessageArray, ghost v: seq<Item>) returns (m: LookupMap)
      requires Valid() && Mirrors(a.items, v) && Distinct(v) && forall x :: x in a.items ==> x in held
      modifies this`lookups, this`arrays
      ensures Valid() && Agrees(a.items, m) && lookups == old(lookups)[a := m] && arrays == old(arrays) + {a}
    {
      if a in lookups {
        m := lookups[a];
        assert arrays + {a} == arrays;
      } else {
        m := BuildLookup(a.items, v);
        Cache(a, m);
      }
    }

    method Cache(a: MessageArray, m: LookupMap)
      requires Valid() && Agrees(a.items, m) && forall x :: x in a.items ==> x in held
      modifies this`lookups, this`arrays
      ensures Valid() && lookups == old(lookups)[a := m] && arrays == old(arrays) + {a}
    {
      LookupPut(messagesByConversation, lookups, arrays, held, contents, a, m);
      lookups, arrays := lookups[a := m], arrays + {a};
    }

    /** The garbage collector takes a list nobody holds any more. */
    method Collect(a: MessageArray)
      requires Valid()
      modifies this`lookups
      ensures Valid() && lookups == old(lookups) - {a}
    {
      lookups := lookups - {a};
    }

    /** The current list of a conversation and, from its cached map, what it holds under the id. */
    method LookUp(conv: Id, id: Id) returns (items: seq<MessageItem>, existing: Option<MessageItem>)
      requires Valid()
      modifies this`lookups, this`arrays
      ensures Valid() && Shows(items, held, conv, ListOf(contents, conv))
      ensures conv in messagesByConversation ==> items == messagesByConversation[conv].items
      ensures existing.Some? ==> existing.value in items && conv in messagesByConversation
      ensures Find(ListOf(contents, conv), id) == if existing.Some? then Some(existing.value.data) else None
      ensures fresh(arrays - old(arrays))
    {
      var a := CurrentArray(conv);
      items := a.items;
      var m := MessageLookup(a, ListOf(contents, conv));
      AgreesFind(items, ListOf(contents, conv), m, id);
      existing := if id in m then Some(m[id]) else None;
    }

    // ---------- pushing ----------

    /** The batch's list so far, or a copy of the current one, and what it holds under the id. */
    method Existing(conv: Id, id: Id, batches: Batches, ghost view: Lists) returns (items: seq<MessageItem>, existing: Option<MessageItem>)
      requires Valid() && BatchesKept(batches, held, view)
      modifies this`lookups, this`arrays
      ensures Valid() && Shows(items, held, conv, BatchList(State(), view, conv))
      ensures Find(BatchList(State(), view, conv), id) == if existing.Some? then Some(existing.value.data) else None
      ensures fresh(arrays - old(arrays))
    {
      if conv in batches {
        items := batches[conv];
        existing := FindObject(items, id, view[conv]);
      } else {
        items, existing := LookUp(conv, id);
      }
    }

    /** The arriving item with what is already known about it, merged with the one it replaces. */
    method MergeItem(raw: Item, existing: Option<Item>) returns (merged: Item)
      ensures merged == Merge(existing, Prepared(State(), raw))
    {
      var k := (raw.conv, raw.id);
      var item := raw;
      if k in pendingState {
        item := item.(recalled := item.recalled || pendingState[k].recalled, burned := item.burned || pendingState[k].burned);
      }
      if k in readCounts { item := item.(unread := readCounts[k].count, known := true); }
      assert item == Prepared(State(), raw);
      merged := Merge(existing, item);
    }

    method TotalWith(existing: Option<Item>, merged: Item) returns (n: int)
      ensures n == TotalAfter(State(), merged.conv, existing, merged)
    {
      var read := Position(merged.conv, currentUserId);
      n := unreadTotal;
      if !unreadAuthoritative {
        n := AtLeastZero(n + Number(CountsAsUnread(merged, currentUserId, read))
                         - Number(existing.Some? && CountsAsUnread(existing.value, currentUserId, read)));
      }
    }

    /** A new object at the end of the batch's list, in place of the one with its id. */
    method Rebuild(items: seq<MessageItem>, data: Item, batches: Batches, ghost view: Lists, ghost shown: seq<Item>) returns (next: Batches)
      requires Valid() && BatchesKept(batches, held, view) && Shows(items, held, data.conv, shown)
      modifies this`held
      ensures Valid() && old(held) <= held && fresh(held - old(held))
      ensures BatchesKept(next, held, view[data.conv := Delete(shown, data.id) + [data]])
    {
      var rest := DeleteObject(items, data.id, shown);
      var merged := new MessageItem(data);
      Hold(merged, items, data.conv, shown, batches, view);
      PutBatch(batches, view, items, rest, held, shown, merged);
      next := batches[data.conv := rest + [merged]];
    }

    ghost method Hold(x: MessageItem, items: seq<MessageItem>, conv: Id, shown: seq<Item>, batches: Batches, view: Lists)
      requires Valid() && BatchesKept(batches, held, view) && Shows(items, held, conv, shown)
      modifies this`held
      ensures held == old(held) + {x} && Valid() && BatchesKept(batches, held, view) && Shows(items, held, conv, shown)
    {
      MoreHeld(messagesByConversation, lookups, arrays, held, contents, batches, view, x);
      held := held + {x};
    }

    /** One item of a batch, counted at once. */
    method TakeItem(raw: Item, batches: Batches, ghost view: Lists) returns (next: Batches, ghost shown: Lists)
      requires Valid() && BatchesKept(batches, held, view)
      modifies this`unreadTotal, this`pendingState, this`lookups, this`arrays, this`held
      ensures Valid() && BatchesKept(next, held, shown) && (State(), shown) == Take(old(State()), view, raw)
      ensures old(held) <= held && fresh(held - old(held)) && fresh(arrays - old(arrays))
    {
      ghost var list;
      var items, data, total;
      items, data, total, list := Prepare(raw, batches, view);
      Settle(data.conv, data.id, total);
      next := Rebuild(items, data, batches, view, list);
      shown := view[data.conv := Delete(list, data.id) + [data]];
    }

    /** What taking an item comes to: the list it goes into, the merged item and the new total. */
    method Prepare(raw: Item, batches: Batches, ghost view: Lists)
      returns (items: seq<MessageItem>, data: Item, total: int, ghost list: seq<Item>)
      requires Valid() && BatchesKept(batches, held, view)
      modifies this`lookups, this`arrays
      ensures Valid() && Shows(items, held, data.conv, list) && fresh(arrays - old(arrays))
      ensures Take(State(), view, raw) == (State().(pending := pendingState - {(data.conv, data.id)}, total := total),
                                           view[data.conv := Delete(list, data.id) + [data]])
    {
      list := BatchList(State(), view, raw.conv);
      var existing;
      items, existing := Existing(raw.conv, raw.id, batches, view);
      data, total := Combine(raw, if existing.Some? then Some(existing.value.data) else None, view);
    }

    method Combine(raw: Item, found: Option<Item>, ghost view: Lists) returns (data: Item, total: int)
      requires found == Find(BatchList(State(), view, raw.conv), raw.id)
      ensures data.conv == raw.conv && data.id == raw.id
      ensures Take(State(), view, raw) == (State().(pending := pendingState - {(data.conv, data.id)}, total := total),
                                           view[data.conv := Delete(BatchList(State(), view, raw.conv), data.id) + [data]])
    {
      data := MergeItem(raw, found);
      total := TotalWith(found, data);
      TakeIs(State(), view, raw, data, total);
    }

    method Settle(conv: Id, id: Id, total: int)
      requires Valid()
      modifies this`unreadTotal, this`pendingState
      ensures Valid() && State() == old(State()).(pending := old(pendingState) - {(conv, id)}, total := total)
    {
      unreadTotal, pendingState := total, pendingState - {(conv, id)};
    }

    method TakeItems(raws: seq<Item>) returns (batches: Batches, ghost view: Lists)
      requires Valid()
      modifies this`unreadTotal, this`pendingState, this`lookups, this`arrays, this`held
      ensures Valid() && BatchesKept(batches, held, view) && (State(), view) == TakeAll(old(State()), map[], raws)
      ensures old(held) <= held && fresh(held - old(held)) && fresh(arrays - old(arrays))
    {
      ghost var was := State();
      batches, view := map[], map[];
      for i := 0 to |raws|
        invariant Valid() && BatchesKept(batches, held, view)
        invariant old(held) <= held && fresh(held - old(held)) && fresh(arrays - old(arrays))
        invariant TakeAll(was, map[], raws) == TakeAll(State(), view, raws[i..])
      {
        assert raws[i..][0] == raws[i] && raws[i..][1..] == raws[i + 1..];
        batches, view := TakeItem(raws[i], batches, view);
      }
    }

    method PutArray(conv: Id, a: MessageArray, ghost view: seq<Item>)
      requires Valid() && Shows(a.items, held, conv, view)
      modifies this`messagesByConversation, this`arrays, this`contents
      ensures Valid() && contents == old(contents)[conv := view] && arrays == old(arrays) + {a}
      ensures messagesByConversation == old(messagesByConversation)[conv := a]
    {
      ArrayPut(messagesByConversation, lookups, arrays, held, contents, conv, a, view);
      messagesByConversation := messagesByConversation[conv := a];
      arrays, contents := arrays + {a}, contents[conv := view];
    }

    method PublishOne(c: Id, batches: Batches, ghost view: Lists)
      requires Valid() && BatchesKept(batches, held, view) && c in batches
      modifies this`messagesByConversation, this`arrays, this`contents
      ensures Valid() && BatchesKept(batches, held, view)
      ensures contents == old(contents)[c := Sort(view[c])] && fresh(arrays - old(arrays))
    {
      var a := SortedArray(batches[c], held, c, view[c]);
      PutArray(c, a, Sort(view[c]));
    }

    /** Each touched conversation gets a new list object. */
    method Publish(batches: Batches, ghost view: Lists)
      requires Valid() && BatchesKept(batches, held, view)
      modifies this`messagesByConversation, this`arrays, this`contents
      ensures Valid() && contents == FlushLists(old(contents), view) && fresh(arrays - old(arrays))
    {
      ghost var was, keys := contents, view.Keys;
      var todo := batches.Keys;
      FlushEnds(was, view);
      while todo != {}
        invariant todo <= keys && Valid() && BatchesKept(batches, held, view) && fresh(arrays - old(arrays))
        invariant Partly(was, view, todo, contents)
      {
        var c :| c in todo;
        FlushStep(was, view, todo, c, contents);
        PublishOne(c, batches, view);
        todo := todo - {c};
      }
    }

    method PushMessages(raws: seq<Item>)
      requires Valid()
      modifies this`unreadTotal, this`pendingState, this`lookups, this`arrays, this`held, this`messagesByConversation, this`contents
      ensures Valid() && State() == WebStore.PushMessages(old(State()), raws)
      ensures old(held) <= held && fresh(held - old(held)) && fresh(arrays - old(arrays))
    {
      ghost var view;
      var batches;
      batches, view := TakeItems(raws);
      Publish(batches, view);
    }

    // ---------- updates ----------

    /** What the objects hold now, for comparison after a change. */
    ghost method Remember() returns (was: map<MessageItem, Item>)
      requires Valid()
      ensures was.Keys == held && forall y :: y in held ==> was[y] == y.data
      ensures Remembered(messagesByConversation, lookups, arrays, contents, was)
    {
      was := map y | y in held :: y.data;
    }

    /** Assigning to an item object in place: one list shows it, and no cached map notices. */
    method ChangeItem(x: MessageItem, conv: Id, data: Item)
      requires Valid() && conv in messagesByConversation && x in messagesByConversation[conv].items
      requires data.id == x.data.id && data.conv == conv == x.data.conv
      modifies x, this`contents
      ensures Valid() && contents == old(contents)[conv := Replaced(old(contents)[conv], data.id, data)]
    {
      ghost var was := Remember();
      Assign(x, data, was, messagesByConversation, lookups, arrays, held, contents);
      ChangedKept(messagesByConversation, lookups, arrays, held, was, x, contents);
      contents := contents[conv := Replaced(contents[conv], data.id, data)];
    }

    method SetCount(conv: Id, id: Id, state: CountState)
      requires Valid()
      modifies this`readCounts
      ensures Valid() && State() == old(State()).(counts := old(readCounts)[(conv, id) := state])
    {
      readCounts := readCounts[(conv, id) := state];
    }

    method SetTotal(total: int)
      requires Valid()
      modifies this`unreadTotal
      ensures Valid() && State() == old(State()).(total := total)
    {
      unreadTotal := total;
    }

    method SetProgress(conv: Id, reader: Id, lastRead: nat, total: int)
      requires Valid()
      modifies this`readProgress, this`unreadTotal
      ensures Valid() && State() == old(State()).(progress := old(readProgress)[(conv, reader) := lastRead], total := total)
    {
      readProgress, unreadTotal := readProgress[(conv, reader) := lastRead], total;
    }

    method SetPending(conv: Id, id: Id, state: PendingState)
      requires Valid()
      modifies this`pendingState
      ensures Valid() && State() == old(State()).(pending := old(pendingState)[(conv, id) := state])
    {
      pendingState := pendingState[(conv, id) := state];
    }

    /** The count is remembered even before its message arrives; the item changes in place. */
    method ApplyCount(conv: Id, id: Id, count: nat, globalSeq: nat)
      requires Valid()
      modifies this`readCounts, this`lookups, this`arrays, this`contents, held
      ensures Valid() && State() == Apply(old(State()), CountUpdate(conv, id, count, globalSeq)) && fresh(arrays - old(arrays))
    {
      if (conv, id) in readCounts && globalSeq <= readCounts[(conv, id)].globalSeq { return; }
      CountIs(State(), conv, id, count, globalSeq);
      SetCount(conv, id, CountState(count, globalSeq));
      CountInPlace(conv, id, count);
    }

    method CountInPlace(conv: Id, id: Id, count: nat)
      requires Valid()
      modifies this`lookups, this`arrays, this`contents, held
      ensures Valid() && fresh(arrays - old(arrays))
      ensures contents == CountedLists(old(contents), conv, id, count)
    {
      ghost var list := ListOf(contents, conv);
      var items, existing := LookUp(conv, id);
      CountedIs(list, id, count);
      if existing.Some? {
        InList(items, list, held, conv, existing.value);
        ChangeItem(existing.value, conv, Counted(existing.value.data, count));
      } else {
        assert conv in contents ==> contents[conv := list] == contents;
      }
    }

    method ApplyDelivery(conv: Id, id: Id, target: Id, globalSeq: nat)
      requires Valid()
      modifies this`deliveries
      ensures Valid() && State() == Apply(old(State()), DeliveryUpdate(conv, id, target, globalSeq))
    {
      if (conv, id, target) in deliveries && globalSeq <= deliveries[(conv, id, target)] { return; }
      deliveries := deliveries[(conv, id, target) := globalSeq];
    }

    /** A recall or burn: the item changes in place and a copy of the list replaces it. */
    method ApplyEnd(conv: Id, id: Id, burn: bool)
      requires Valid()
      modifies this`unreadTotal, this`pendingState, this`messagesByConversation, this`lookups, this`arrays, this`contents, held
      ensures Valid() && State() == Apply(old(State()), EndUpdate(conv, id, burn)) && fresh(arrays - old(arrays))
    {
      var items, existing := LookUp(conv, id);
      if existing.Some? {
        InList(items, contents[conv], held, conv, existing.value);
        EndFound(conv, id, existing.value, burn);
      } else {
        var known := if (conv, id) in pendingState then pendingState[(conv, id)].burned else false;
        SetPending(conv, id, PendingState(true, known || burn));
      }
    }

    method EndFound(conv: Id, id: Id, x: MessageItem, burn: bool)
      requires Valid() && conv in messagesByConversation && x in messagesByConversation[conv].items && x.data.conv == conv
      requires Find(contents[conv], id) == Some(x.data)
      modifies this`unreadTotal, this`messagesByConversation, this`arrays, this`contents, x
      ensures Valid() && State() == Apply(old(State()), EndUpdate(conv, id, burn)) && fresh(arrays - old(arrays))
    {
      EndIs(State(), conv, id, burn, x.data);
      var total := TotalEnded(conv, x.data);
      EndInPlace(conv, x, burn);
      SetTotal(total);
    }

    method TotalEnded(conv: Id, x: Item) returns (n: int)
      ensures n == EndTotal(State(), conv, x)
    {
      n := unreadTotal;
      if !unreadAuthoritative && CountsAsUnread(x, currentUserId, Position(conv, currentUserId)) { n := AtLeastZero(n - 1); }
    }

    method EndInPlace(conv: Id, x: MessageItem, burn: bool)
      requires Valid() && conv in messagesByConversation && x in messagesByConversation[conv].items && x.data.conv == conv
      modifies this`messagesByConversation, this`arrays, this`contents, x
      ensures Valid() && fresh(arrays - old(arrays))
      ensures contents == old(contents)[conv := Replaced(old(contents)[conv], old(x.data.id), Ended(old(x.data), burn))]
    {
      ChangeItem(x, conv, Ended(x.data, burn));
      CopyArray(conv);
    }

    /** `messagesByConversation[conv] = [...list]`. */
    method CopyArray(conv: Id)
      requires Valid()
      modifies this`messagesByConversation, this`arrays, this`contents
      ensures Valid() && contents == old(contents)[conv := ListOf(old(contents), conv)] && fresh(arrays - old(arrays))
      ensures conv in messagesByConversation && fresh(messagesByConversation[conv])
    {
      var list := CurrentArray(conv);
      var copy := new MessageArray(list.items);
      PutArray(conv, copy, ListOf(contents, conv));
    }

    /** What the reader's new position takes out of the unread items here. */
    method ReadNow(conv: Id, reader: Id, before: nat, lastRead: nat) returns (n: nat)
      requires Valid()
      ensures Valid() && n == if reader == currentUserId then NewlyRead(ListOf(contents, conv), currentUserId, before, lastRead) else 0
    {
      var list := CurrentArray(conv);
      n := 0;
      if reader == currentUserId { n := CountNewlyRead(list.items, currentUserId, before, lastRead, ListOf(contents, conv)); }
    }

    method ApplyReceipt(conv: Id, reader: Id, lastRead: nat)
      requires Valid()
      modifies this`unreadTotal, this`readProgress, this`messagesByConversation, this`arrays, this`contents
      ensures Valid() && State() == Apply(old(State()), ReceiptUpdate(conv, reader, lastRead)) && fresh(arrays - old(arrays))
    {
      var before := Position(conv, reader);
      if lastRead <= before { return; }
      var readNow := ReadNow(conv, reader, before, lastRead);
      ReceiptIs(State(), conv, reader, lastRead, readNow);
      SetProgress(conv, reader, lastRead, if unreadAuthoritative then unreadTotal else AtLeastZero(unreadTotal - readNow));
      CopyArray(conv);
    }

    /** Every update, with the cached maps of all lists still right afterwards. */
    method ApplyMessageUpdated(u: Update)
      requires Valid()
      modifies this, held
      ensures Valid() && State() == Apply(old(State()), u)
      ensures held == old(held) && fresh(arrays - old(arrays))
    {
      match u {
        case CountUpdate(conv, id, count, globalSeq) => ApplyCount(conv, id, count, globalSeq);
        case DeliveryUpdate(conv, id, target, globalSeq) => ApplyDelivery(conv, id, target, globalSeq);
        case EndUpdate(conv, id, burn) => ApplyEnd(conv, id, burn);
        case ReceiptUpdate(conv, reader, lastRead) => ApplyReceipt(conv, reader, lastRead);
      }
    }

    method ApplyChange(change: Change)
      requires Valid()
      modifies this, held
      ensures Valid() && State() == Changed(old(State()), change)
      ensures old(held) <= held && fresh(held - old(held)) && fresh(arrays - old(arrays))
    {
      match change {
        case Pushed(raws) => PushMessages(raws);
        case Updated(u) => ApplyMessageUpdated(u);
      }
    }

    /** Any batches and updates: the lists show what the store's value says, the total is the recount,
        and every cached map, of current and of replaced lists, still agrees with its list. */
    method RunChanges(changes: seq<Change>)
      requires Valid()
      modifies this, held
      ensures Valid() && State() == Run(old(State()), changes)
      ensures old(Consistent(State())) ==> Consistent(State())
    {
      ghost var was := State();
      for i := 0 to |changes|
        invariant Valid() && Run(was, changes) == Run(State(), changes[i..])
        invariant old(held) <= held && fresh(held - old(held)) && fresh(arrays - old(arrays))
      {
        assert changes[i..][0] == changes[i] && changes[i..][1..] == changes[i + 1..];
        ApplyChange(changes[i]);
      }
      if Consistent(was) { WebStore.RunKeeps(was, changes); }
    }
  }
}
