/** Two-way paging over one conversation's cached messages, ordered by number and then id. */
module HistoryPaging {
  import opened SyncEvents
  import opened StateStore
  import ServerState

  const PAGE: nat := 50

  /** What a cursor names: a message's number and id. */
  datatype Slot = Slot(number: nat, id: Id)

  predicate Less(a: Slot, b: Slot) {
    a.number < b.number || (a.number == b.number && ServerState.TextLess(a.id, b.id))
  }

  lemma {:induction false} TextOrder(a: string, b: string, c: string)
    ensures !ServerState.TextLess(a, a)
    ensures a != b ==> ServerState.TextLess(a, b) || ServerState.TextLess(b, a)
    ensures ServerState.TextLess(a, b) && ServerState.TextLess(b, c) ==> ServerState.TextLess(a, c)
    decreases |a| + |b| + |c|
  {
    if a != "" && b != "" && c != "" {
      TextOrder(a[1..], b[1..], c[1..]);
      if a[0] == b[0] && a != b { assert a[1..] != b[1..]; }
    } else if a != "" && b != "" {
      TextOrder(a[1..], b[1..], c);
      if a[0] == b[0] && a != b { assert a[1..] != b[1..]; }
    } else if a != "" {
      TextOrder(a[1..], b, c);
    }
  }

  lemma SlotOrder(a: Slot, b: Slot, c: Slot)
    ensures !Less(a, a) && (a != b ==> Less(a, b) || Less(b, a))
    ensures Less(a, b) && Less(b, c) ==> Less(a, c)
    ensures Less(a, b) ==> !Less(b, a)
  {
    TextOrder(a.id, b.id, c.id);
    TextOrder(a.id, b.id, a.id);
  }

  ghost predicate Sorted(rows: seq<Slot>) { forall i, j :: 0 <= i < j < |rows| ==> Less(rows[i], rows[j]) }

  /** The index over the cached messages of a conversation. */
  ghost predicate Lists(objects: Objects, conv: Id, rows: seq<Slot>) {
    && Sorted(rows)
    && forall s :: s in rows <==>
         && MessageKey(s.id) in objects && objects[MessageKey(s.id)].data.Message?
         && objects[MessageKey(s.id)].data.conv == conv && objects[MessageKey(s.id)].data.number == s.number
  }

  /** How many rows stand before a slot, and up to and including it. */
  function Below(rows: seq<Slot>, b: Slot): (k: nat)
    ensures k <= |rows|
    decreases |rows|
  {
    if rows == [] then 0
    else if Less(rows[|rows| - 1], b) then |rows| else Below(rows[..|rows| - 1], b)
  }

  function UpTo(rows: seq<Slot>, b: Slot): (k: nat)
    ensures k <= |rows|
    decreases |rows|
  {
    if rows == [] then 0
    else if !Less(b, rows[|rows| - 1]) then |rows| else UpTo(rows[..|rows| - 1], b)
  }

  lemma {:induction false} BelowSplits(rows: seq<Slot>, b: Slot)
    requires Sorted(rows)
    ensures forall i :: 0 <= i < |rows| ==> (Less(rows[i], b) <==> i < Below(rows, b))
    decreases |rows|
  {
    if rows != [] {
      var last := rows[|rows| - 1];
      if Less(last, b) {
        forall i | 0 <= i < |rows| ensures Less(rows[i], b) { SlotOrder(rows[i], last, b); }
      } else {
        BelowSplits(rows[..|rows| - 1], b);
      }
    }
  }

  lemma {:induction false} UpToSplits(rows: seq<Slot>, b: Slot)
    requires Sorted(rows)
    ensures forall i :: 0 <= i < |rows| ==> (!Less(b, rows[i]) <==> i < UpTo(rows, b))
    decreases |rows|
  {
    if rows != [] {
      var last := rows[|rows| - 1];
      if !Less(b, last) {
        forall i | 0 <= i < |rows| ensures !Less(b, rows[i]) { SlotOrder(b, rows[i], last); }
      } else {
        UpToSplits(rows[..|rows| - 1], b);
      }
    }
  }

  lemma AtIndex(rows: seq<Slot>, i: nat)
    requires Sorted(rows) && i < |rows|
    ensures Below(rows, rows[i]) == i && UpTo(rows, rows[i]) == i + 1
  {
    BelowSplits(rows, rows[i]);
    UpToSplits(rows, rows[i]);
    SlotOrder(rows[i], rows[i], rows[i]);
    var b, u := Below(rows, rows[i]), UpTo(rows, rows[i]);
    if i + 1 < |rows| { SlotOrder(rows[i], rows[i + 1], rows[i]); }
    if i > 0 { SlotOrder(rows[i - 1], rows[i], rows[i]); }
    assert b <= i && (i > 0 ==> Less(rows[i - 1], rows[i]) && i - 1 < b);
    assert u >= i + 1 && (i + 1 < |rows| ==> Less(rows[i], rows[i + 1]) && !(i + 1 < u));
  }

  // ---------- one page ----------

  datatype Direction = Latest | Older | Newer | OtherDirection

  datatype Boundary = Absent | Malformed | At(slot: Slot)

  datatype Page = Page(messages: seq<Slot>, cursor: Option<Slot>, hasMore: bool,
                       before: Option<Slot>, after: Option<Slot>, hasOlder: bool, hasNewer: bool)

  predicate Refused(conv: Id, boundary: Boundary, direction: Direction) {
    conv == "" || direction == OtherDirection || (direction == Newer && boundary == Absent)
    || (direction == Latest && boundary != Absent) || boundary == Malformed
  }

  /** The rows a page shows, as an interval. */
  function Interval(rows: seq<Slot>, boundary: Boundary, newer: bool): (r: (nat, nat))
    ensures r.0 <= r.1 <= |rows|
  {
    if newer then
      var from := if boundary.At? then UpTo(rows, boundary.slot) else 0;
      (from, if |rows| - from > PAGE then from + PAGE else |rows|)
    else
      var to := if boundary.At? then Below(rows, boundary.slot) else |rows|;
      (if to > PAGE then to - PAGE else 0, to)
  }

  /** SELECT ... ORDER BY ... LIMIT page + 1, in visiting order. */
  method Visit(rows: seq<Slot>, boundary: Boundary, newer: bool, limit: nat) returns (found: seq<Slot>)
    requires Sorted(rows)
    ensures var to := if boundary.At? then Below(rows, boundary.slot) else |rows|;
            var from := if boundary.At? then UpTo(rows, boundary.slot) else 0;
            && |found| == (if newer then (if |rows| - from < limit then |rows| - from else limit) else (if to < limit then to else limit))
            && forall i :: 0 <= i < |found| ==> found[i] == if newer then rows[from + i] else rows[to - 1 - i]
  {
    if boundary.At? {
      BelowSplits(rows, boundary.slot);
      UpToSplits(rows, boundary.slot);
    }
    ghost var to := if boundary.At? then Below(rows, boundary.slot) else |rows|;
    ghost var from := if boundary.At? then UpTo(rows, boundary.slot) else 0;
    found := [];
    var i := 0;
    while i < |rows| && |found| < limit
      invariant i <= |rows| && |found| <= limit
      invariant |found| == if newer then (if i > from then i - from else 0) else (if i > |rows| - to then i - (|rows| - to) else 0)
      invariant forall j :: 0 <= j < |found| ==> found[j] == if newer then rows[from + j] else rows[to - 1 - j]
    {
      var row := if newer then rows[i] else rows[|rows| - 1 - i];
      if boundary.At? ==> (if newer then Less(boundary.slot, row) else Less(row, boundary.slot)) {
        found := found + [row];
      }
      i := i + 1;
    }
  }

  method HasBeyond(rows: seq<Slot>, edge: Option<Slot>, forward: bool) returns (found: bool)
    ensures found <==> edge.Some? && exists s :: s in rows && if forward then Less(edge.value, s) else Less(s, edge.value)
  {
    if edge.None? { return false; }
    for i := 0 to |rows|
      invariant forall j :: 0 <= j < i ==> !(if forward then Less(edge.value, rows[j]) else Less(rows[j], edge.value))
    {
      if (if forward then Less(edge.value, rows[i]) else Less(rows[i], edge.value)) {
        assert rows[i] in rows;
        return true;
      }
    }
    return false;
  }

  /** The result loop: appended or prepended one by one, stopping at the page size. */
  method Collect(found: seq<Slot>, newer: bool) returns (messages: seq<Slot>, cursor: Option<Slot>, first: Option<Slot>, more: bool)
    ensures var n := if |found| > PAGE then PAGE else |found|;
            && |messages| == n && (more <==> |found| > PAGE)
            && (forall i :: 0 <= i < n ==> messages[if newer then i else n - 1 - i] == found[i])
            && cursor == (if n == 0 then None else Some(found[n - 1])) && first == (if n == 0 then None else Some(found[0]))
  {
    messages, cursor, first, more := [], None, None, false;
    var i := 0;
    while i < |found| && !more
      invariant i <= |found| && |messages| == i <= PAGE && (more ==> i == PAGE && |found| > PAGE)
      invariant forall j :: 0 <= j < i ==> messages[if newer then j else i - 1 - j] == found[j]
      invariant cursor == (if i == 0 then None else Some(found[i - 1])) && first == (if i == 0 then None else Some(found[0]))
      decreases |found| - i, !more
    {
      if |messages| == PAGE {
        more := true;
      } else {
        messages := if newer then messages + [found[i]] else [found[i]] + messages;
        cursor := Some(found[i]);
        if first == None { first := cursor; }
        i := i + 1;
      }
    }
  }

  /** The collected rows are the interval [lo, hi), and its ends are the edges. */
  lemma CollectedInterval(rows: seq<Slot>, lo: nat, hi: nat, newer: bool, found: seq<Slot>, messages: seq<Slot>)
    requires lo <= hi <= |rows| && hi - lo == |messages| <= |found|
    requires forall i :: 0 <= i < |messages| ==> found[i] == if newer then rows[lo + i] else rows[hi - 1 - i]
    requires forall i :: 0 <= i < |messages| ==> messages[if newer then i else |messages| - 1 - i] == found[i]
    ensures messages == rows[lo..hi]
    ensures messages != [] ==> var n := |messages|;
              if newer then found[0] == messages[0] && found[n - 1] == messages[n - 1]
              else found[0] == messages[n - 1] && found[n - 1] == messages[0]
  {
    var n := |messages|;
    forall k | 0 <= k < n ensures messages[k] == rows[lo + k] {
      var i := if newer then k else n - 1 - k;
      assert messages[if newer then i else n - 1 - i] == found[i];
    }
  }

  /** The page's rows with the first and last row visited. */
  method PageRows(rows: seq<Slot>, boundary: Boundary, newer: bool)
    returns (messages: seq<Slot>, cursor: Option<Slot>, first: Option<Slot>, more: bool)
    requires Sorted(rows)
    ensures var r := Interval(rows, boundary, newer);
            && messages == rows[r.0..r.1] && (more <==> if newer then r.1 < |rows| else r.0 > 0)
            && (messages != [] ==>
                  && first == Some(if newer then rows[r.0] else rows[r.1 - 1])
                  && cursor == Some(if newer then rows[r.1 - 1] else rows[r.0]))
  {
    var found := Visit(rows, boundary, newer, PAGE + 1);
    messages, cursor, first, more := Collect(found, newer);
    ghost var r := Interval(rows, boundary, newer);
    CollectedInterval(rows, r.0, r.1, newer, found, messages);
  }

  /** messagePage: the interval next to the boundary, and on a non-empty page both flags say exactly
      whether a message lies beyond that edge. */
  method MessagePage(rows: seq<Slot>, conv: Id, boundary: Boundary, direction: Direction) returns (page: Option<Page>)
    requires Sorted(rows)
    ensures page.None? <==> Refused(conv, boundary, direction)
    ensures page.Some? ==> PageOk(rows, Interval(rows, boundary, direction == Newer), direction == Newer, page.value)
  {
    if conv == "" { return None; }
    var newer := direction == Newer;
    if direction == OtherDirection || (newer && boundary == Absent) || (direction == Latest && boundary != Absent) { return None; }
    if boundary == Malformed { return None; }
    var messages, cursor, first, more := PageRows(rows, boundary, newer);
    ghost var r := Interval(rows, boundary, newer);
    var edge := if boundary.At? then Some(boundary.slot) else None;
    var before := if messages == [] then edge else if newer then first else cursor;
    var after := if messages == [] then edge else if newer then cursor else first;
    var older, beyond := more, more;
    if newer { older := HasBeyond(rows, before, false); } else { beyond := HasBeyond(rows, after, true); }
    if messages != [] { EdgeExists(rows, r.0, r.1); }
    page := Some(Page(messages, cursor, more, before, after, older, beyond));
  }

  ghost predicate PageOk(rows: seq<Slot>, r: (nat, nat), newer: bool, p: Page)
    requires r.0 <= r.1 <= |rows|
  {
    && p.messages == rows[r.0..r.1]
    && (p.hasMore <==> if newer then r.1 < |rows| else r.0 > 0)
    && (p.messages != [] ==>
          && p.before == Some(p.messages[0]) && p.after == Some(p.messages[|p.messages| - 1])
          && (p.hasOlder <==> exists s :: s in rows && Less(s, p.messages[0]))
          && (p.hasNewer <==> exists s :: s in rows && Less(p.messages[|p.messages| - 1], s)))
  }

  /** Something lies beyond an edge exactly when the interval stops short of that end. */
  lemma EdgeExists(rows: seq<Slot>, lo: nat, hi: nat)
    requires Sorted(rows) && lo < hi <= |rows|
    ensures lo > 0 <==> exists s :: s in rows && Less(s, rows[lo])
    ensures hi < |rows| <==> exists s :: s in rows && Less(rows[hi - 1], s)
  {
    BelowSplits(rows, rows[lo]);
    UpToSplits(rows, rows[hi - 1]);
    AtIndex(rows, lo);
    AtIndex(rows, hi - 1);
    if lo > 0 { assert rows[lo - 1] in rows && Less(rows[lo - 1], rows[lo]); }
    if hi < |rows| { assert rows[hi] in rows && Less(rows[hi - 1], rows[hi]); }
  }

  // ---------- walks ----------

  /** Older pages from a boundary on, concatenated in reading order. */
  function WalkOlder(rows: seq<Slot>, boundary: Boundary, rounds: nat): seq<Slot>
    decreases rounds
  {
    var r := Interval(rows, boundary, false);
    if rounds == 0 || r.0 == r.1 then []
    else WalkOlder(rows, At(rows[r.0]), rounds - 1) + rows[r.0..r.1]
  }

  /** Newer pages after a boundary. */
  function WalkNewer(rows: seq<Slot>, boundary: Boundary, rounds: nat): seq<Slot>
    decreases rounds
  {
    var r := Interval(rows, boundary, true);
    if rounds == 0 || r.0 == r.1 then []
    else rows[r.0..r.1] + WalkNewer(rows, At(rows[r.1 - 1]), rounds - 1)
  }

  lemma {:induction false} OlderFrom(rows: seq<Slot>, boundary: Boundary, rounds: nat, k: nat)
    requires Sorted(rows) && k <= |rows| && k <= rounds
    requires k == if boundary.At? then Below(rows, boundary.slot) else |rows|
    ensures WalkOlder(rows, boundary, rounds) == rows[..k]
    decreases rounds
  {
    var r := Interval(rows, boundary, false);
    if k > 0 {
      AtIndex(rows, r.0);
      OlderFrom(rows, At(rows[r.0]), rounds - 1, r.0);
      assert rows[..r.0] + rows[r.0..k] == rows[..k];
    }
  }

  lemma Glue(rows: seq<Slot>, k: nat, m: nat)
    requires k <= m <= |rows|
    ensures rows[k..m] + rows[m..] == rows[k..] && rows[..k] + rows[k..m] == rows[..m] && rows[0..] == rows == rows[..|rows|]
  {
  }

  lemma {:induction false} NewerFrom(rows: seq<Slot>, boundary: Boundary, rounds: nat, k: nat)
    requires Sorted(rows) && k <= |rows| && |rows| - k <= rounds
    requires k == if boundary.At? then UpTo(rows, boundary.slot) else 0
    ensures WalkNewer(rows, boundary, rounds) == rows[k..]
    decreases rounds
  {
    if k < |rows| {
      var m := if |rows| - k > PAGE then k + PAGE else |rows|;
      AtIndex(rows, m - 1);
      NewerFrom(rows, At(rows[m - 1]), rounds - 1, m);
      NewerBack(rows, boundary, rounds, k, m);
    } else {
      NewerDone(rows, boundary, rounds);
    }
  }

  lemma NewerBack(rows: seq<Slot>, boundary: Boundary, rounds: nat, k: nat, m: nat)
    requires k < |rows| && rounds > 0 && k == (if boundary.At? then UpTo(rows, boundary.slot) else 0)
    requires m == if |rows| - k > PAGE then k + PAGE else |rows|
    requires WalkNewer(rows, At(rows[m - 1]), rounds - 1) == rows[m..]
    ensures WalkNewer(rows, boundary, rounds) == rows[k..]
  {
    NewerStep(rows, boundary, rounds, k, m);
    Glue(rows, k, m);
  }

  lemma NewerDone(rows: seq<Slot>, boundary: Boundary, rounds: nat)
    requires |rows| == if boundary.At? then UpTo(rows, boundary.slot) else 0
    ensures WalkNewer(rows, boundary, rounds) == [] == rows[|rows|..]
  {
  }

  lemma NewerStep(rows: seq<Slot>, boundary: Boundary, rounds: nat, k: nat, m: nat)
    requires k < |rows| && rounds > 0 && k == (if boundary.At? then UpTo(rows, boundary.slot) else 0)
    requires m == if |rows| - k > PAGE then k + PAGE else |rows|
    ensures WalkNewer(rows, boundary, rounds) == rows[k..m] + WalkNewer(rows, At(rows[m - 1]), rounds - 1)
  {
  }

  /** Walking older from the latest page visits every cached message of the conversation exactly once
      and rebuilds the sorted list. */
  lemma OlderWalkCovers(objects: Objects, conv: Id, rows: seq<Slot>)
    requires Lists(objects, conv, rows)
    ensures WalkOlder(rows, Absent, |rows|) == rows
    ensures forall i, j :: 0 <= i < j < |rows| ==> rows[i].id != rows[j].id
  {
    OlderFrom(rows, Absent, |rows|, |rows|);
    Glue(rows, 0, |rows|);
    forall i, j | 0 <= i < j < |rows| ensures rows[i].id != rows[j].id {
      assert rows[i] in rows && rows[j] in rows;
      SlotOrder(rows[i], rows[j], rows[i]);
    }
  }

  /** Walking newer from the oldest page rebuilds the same list. */
  lemma NewerWalkCovers(rows: seq<Slot>, oldest: nat)
    requires Sorted(rows) && rows != [] && oldest == (if |rows| > PAGE then PAGE else |rows|)
    ensures rows[..oldest] + WalkNewer(rows, At(rows[oldest - 1]), |rows|) == rows
  {
    AtIndex(rows, oldest - 1);
    NewerFrom(rows, At(rows[oldest - 1]), |rows|, oldest);
    Glue(rows, 0, oldest);
  }
}
