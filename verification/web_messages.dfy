/** The web store's message lists: stable order, merging, and batches against single pushes. */
module WebMessages {
  import opened SyncEvents

  datatype Item = Item(id: Id, conv: Id, sender: Id, number: nat, text: string, createdAt: int,
                       recalled: bool, burned: bool, unread: nat, known: bool)

  /** compareMessages(a, b) > 0. */
  predicate After(a: Item, b: Item) {
    a.number > b.number || (a.number == b.number && a.createdAt > b.createdAt)
  }

  // ---------- stable sorting ----------

  ghost predicate Sorted(s: seq<Item>) { forall i, j :: 0 <= i < j < |s| ==> !After(s[i], s[j]) }

  /** Behind every item that does not come after it. */
  function Insert(s: seq<Item>, x: Item): seq<Item>
    decreases |s|
  {
    if s == [] || !After(s[|s| - 1], x) then s + [x] else Insert(s[..|s| - 1], x) + [s[|s| - 1]]
  }

  /** Array.prototype.sort, which is stable. */
  function Sort(s: seq<Item>): seq<Item>
    decreases |s|
  {
    if s == [] then [] else Insert(Sort(s[..|s| - 1]), s[|s| - 1])
  }

  function Delete(s: seq<Item>, id: Id): seq<Item>
    decreases |s|
  {
    if s == [] then [] else
      var rest := Delete(s[..|s| - 1], id);
      if s[|s| - 1].id == id then rest else rest + [s[|s| - 1]]
  }

  lemma {:induction false} InsertHolds(s: seq<Item>, x: Item)
    ensures multiset(Insert(s, x)) == multiset(s) + multiset{x}
    ensures forall y :: y in Insert(s, x) <==> y in s || y == x
    decreases |s|
  {
    if s != [] && After(s[|s| - 1], x) {
      assert s == s[..|s| - 1] + [s[|s| - 1]];
      InsertHolds(s[..|s| - 1], x);
    }
  }

  lemma {:induction false} InsertSorted(s: seq<Item>, x: Item)
    requires Sorted(s)
    ensures Sorted(Insert(s, x))
    decreases |s|
  {
    if s != [] && After(s[|s| - 1], x) {
      var init, last := s[..|s| - 1], s[|s| - 1];
      InsertSorted(init, x);
      InsertHolds(init, x);
      var r := Insert(init, x);
      forall i | 0 <= i < |r| ensures !After(r[i], last) { assert r[i] in r; }
    }
  }

  lemma {:induction false} SortSorts(s: seq<Item>)
    ensures Sorted(Sort(s)) && multiset(Sort(s)) == multiset(s)
    decreases |s|
  {
    if s != [] {
      assert s == s[..|s| - 1] + [s[|s| - 1]];
      SortSorts(s[..|s| - 1]);
      InsertSorted(Sort(s[..|s| - 1]), s[|s| - 1]);
      InsertHolds(Sort(s[..|s| - 1]), s[|s| - 1]);
    }
  }

  lemma {:induction false} SortedStays(s: seq<Item>)
    requires Sorted(s)
    ensures Sort(s) == s
    decreases |s|
  {
    if s != [] {
      SortedStays(s[..|s| - 1]);
      assert |s| > 1 ==> !After(s[|s| - 2], s[|s| - 1]);
    }
  }

  lemma SortAppend(s: seq<Item>, x: Item)
    ensures Sort(s + [x]) == Insert(Sort(s), x)
  {
    assert (s + [x])[..|s|] == s;
  }

  lemma DeleteAppend(s: seq<Item>, x: Item, id: Id)
    ensures Delete(s + [x], id) == if x.id == id then Delete(s, id) else Delete(s, id) + [x]
  {
    assert (s + [x])[..|s|] == s;
  }

  lemma {:induction false} DeleteKeeps(s: seq<Item>, id: Id)
    ensures forall x :: x in Delete(s, id) <==> x in s && x.id != id
    ensures Sorted(s) ==> Sorted(Delete(s, id))
    decreases |s|
  {
    if s != [] {
      var init, last := s[..|s| - 1], s[|s| - 1];
      DeleteKeeps(init, id);
      assert forall x :: x in s <==> x in init || x == last;
      if Sorted(s) {
        var r := Delete(init, id);
        forall i | 0 <= i < |r| ensures !After(r[i], last) {
          assert r[i] in r;
          var k :| 0 <= k < |init| && init[k] == r[i];
          assert !After(s[k], s[|s| - 1]);
        }
      }
    }
  }

  /** Deleting commutes with inserting. */
  lemma {:induction false} DeleteInsert(s: seq<Item>, x: Item, id: Id)
    requires Sorted(s)
    ensures Delete(Insert(s, x), id) == if x.id == id then Delete(s, id) else Insert(Delete(s, id), x)
    decreases |s|
  {
    if s == [] || !After(s[|s| - 1], x) {
      DeleteAppend(s, x, id);
      DeleteKeeps(s, id);
      var d := Delete(s, id);
      if d != [] {
        assert d[|d| - 1] in d;
        var k :| 0 <= k < |s| && s[k] == d[|d| - 1];
        assert k < |s| - 1 ==> !After(s[k], s[|s| - 1]);
        NotAfterTrans(s, k, x);
      }
    } else {
      var init, last := s[..|s| - 1], s[|s| - 1];
      DeleteInsert(init, x, id);
      DeleteAppend(Insert(init, x), last, id);
      if last.id != id {
        var d := Delete(init, id);
        assert (d + [last])[..|d|] == d;
      }
    }
  }

  lemma NotAfterTrans(s: seq<Item>, k: nat, x: Item)
    requires Sorted(s) && k < |s| && !After(s[|s| - 1], x)
    ensures !After(s[k], x)
  {
    if k < |s| - 1 { assert !After(s[k], s[|s| - 1]); }
  }

  lemma {:induction false} SortDelete(s: seq<Item>, id: Id)
    ensures Sort(Delete(s, id)) == Delete(Sort(s), id)
    decreases |s|
  {
    if s != [] {
      var init, last := s[..|s| - 1], s[|s| - 1];
      SortDelete(init, id);
      SortSorts(init);
      DeleteInsert(Sort(init), last, id);
      if last.id != id { SortAppend(Delete(init, id), last); }
    }
  }

  /** Sorting after every change or once at the end gives the same list. */
  lemma SortOnce(s: seq<Item>, x: Item)
    ensures Sort(Delete(Sort(s), x.id) + [x]) == Sort(Delete(s, x.id) + [x])
  {
    SortDelete(s, x.id);
    SortSorts(s);
    DeleteKeeps(Sort(s), x.id);
    SortedStays(Delete(Sort(s), x.id));
    SortAppend(Delete(Sort(s), x.id), x);
    SortAppend(Delete(s, x.id), x);
  }

  // ---------- lookup ----------

  ghost predicate Distinct(s: seq<Item>) { forall i, j :: 0 <= i < j < |s| ==> s[i].id != s[j].id }

  function Find(s: seq<Item>, id: Id): (r: Option<Item>)
    ensures r.Some? ==> r.value in s && r.value.id == id
    ensures r.None? ==> forall x :: x in s ==> x.id != id
    decreases |s|
  {
    if s == [] then None else if s[|s| - 1].id == id then Some(s[|s| - 1]) else Find(s[..|s| - 1], id)
  }

  lemma UniqueById(s: seq<Item>, a: Item, b: Item)
    requires Distinct(s) && a in s && b in s && a.id == b.id
    ensures a == b
  {
    var i :| 0 <= i < |s| && s[i] == a;
    var j :| 0 <= j < |s| && s[j] == b;
  }

  lemma SameFind(a: seq<Item>, b: seq<Item>, id: Id)
    requires Distinct(a) && Distinct(b) && forall x :: x in a <==> x in b
    ensures Find(a, id) == Find(b, id)
  {
    if Find(a, id).Some? && Find(b, id).Some? { UniqueById(a, Find(a, id).value, Find(b, id).value); }
  }

  lemma {:induction false} DistinctMultiset(a: seq<Item>, b: seq<Item>)
    requires Distinct(a) && multiset(a) == multiset(b)
    ensures Distinct(b) && forall x :: x in a <==> x in b
  {
    forall x ensures x in a <==> x in b { assert x in multiset(a) <==> x in multiset(b); }
    forall i, j | 0 <= i < j < |b| ensures b[i].id != b[j].id {
      if b[i].id == b[j].id {
        assert b[i] in b && b[j] in b;
        UniqueById(a, b[i], b[j]);
        TwiceIn(b, i, j);
        OnceIn(a, b[i]);
      }
    }
  }

  lemma TwiceIn(b: seq<Item>, i: nat, j: nat)
    requires i < j < |b| && b[i] == b[j]
    ensures multiset(b)[b[i]] >= 2
  {
    assert b == b[..i] + [b[i]] + b[i + 1..j] + [b[j]] + b[j + 1..];
  }

  lemma {:induction false} OnceIn(a: seq<Item>, x: Item)
    requires Distinct(a)
    ensures multiset(a)[x] <= 1
    decreases |a|
  {
    if a != [] {
      assert a == a[..|a| - 1] + [a[|a| - 1]];
      OnceIn(a[..|a| - 1], x);
      assert forall i :: 0 <= i < |a| - 1 ==> a[i].id != a[|a| - 1].id;
    }
  }

  lemma {:induction false} DeleteDistinct(s: seq<Item>, id: Id)
    requires Distinct(s)
    ensures Distinct(Delete(s, id))
    decreases |s|
  {
    if s != [] {
      var init, last := s[..|s| - 1], s[|s| - 1];
      DeleteDistinct(init, id);
      DeleteKeeps(init, id);
      var r := Delete(init, id);
      forall i | 0 <= i < |r| ensures r[i].id != last.id {
        assert r[i] in r;
        var k :| 0 <= k < |init| && init[k] == r[i];
        assert s[k].id != s[|s| - 1].id;
      }
    }
  }

  lemma PutDistinct(s: seq<Item>, x: Item)
    requires Distinct(s)
    ensures Distinct(Delete(s, x.id) + [x])
    ensures forall y :: y in Delete(s, x.id) + [x] <==> y == x || (y in s && y.id != x.id)
  {
    DeleteDistinct(s, x.id);
    DeleteKeeps(s, x.id);
    var d := Delete(s, x.id);
    forall i | 0 <= i < |d| ensures d[i].id != x.id { assert d[i] in d; }
  }

  lemma SortedDistinct(s: seq<Item>)
    requires Distinct(s)
    ensures Distinct(Sort(s)) && forall x :: x in Sort(s) <==> x in s
  {
    SortSorts(s);
    DistinctMultiset(s, Sort(s));
  }
}
