/** handle_sync_request and load_events: one page of a user's stream after a cursor. */
module SyncPaging {
  import opened SyncEvents

  datatype PageReply = PageReply(events: seq<Event>, hasMore: bool, newCursor: nat)

  const DEFAULT_PAGE: nat := 50
  const MAX_PAGE: nat := 200

  function PageLimit(limit: nat): (r: nat)
    ensures 1 <= r <= MAX_PAGE && (1 <= limit <= MAX_PAGE ==> r == limit)
  {
    var asked := if limit > 0 then limit else DEFAULT_PAGE;
    if asked < MAX_PAGE then asked else MAX_PAGE
  }

  function ConversationOf(b: Body): Id {
    if b.Unsupported? then "" else b.conv
  }

  /** WHERE seq > after AND (no filter OR conversation_id matches). */
  predicate Selected(e: Event, after: nat, conv: Id) {
    e.position > after && (conv == "" || ConversationOf(e.body) == conv)
  }

  function Matching(rows: seq<Event>, after: nat, conv: Id): (r: seq<Event>)
    ensures forall e :: e in r <==> e in rows && Selected(e, after, conv)
    decreases rows
  {
    if rows == [] then []
    else if Selected(rows[0], after, conv) then [rows[0]] + Matching(rows[1..], after, conv)
    else Matching(rows[1..], after, conv)
  }

  function Take<T>(s: seq<T>, n: nat): seq<T> { if n < |s| then s[..n] else s }

  ghost predicate Ascending(rows: seq<Event>) {
    forall i, j :: 0 <= i < j < |rows| ==> rows[i].position < rows[j].position
  }

  lemma {:induction false} MatchingTail(rows: seq<Event>, i: nat, after: nat, conv: Id)
    requires i < |rows|
    ensures Matching(rows[i..], after, conv)
         == (if Selected(rows[i], after, conv) then [rows[i]] else []) + Matching(rows[i + 1..], after, conv)
  {
    assert rows[i..][0] == rows[i] && rows[i..][1..] == rows[i + 1..];
  }

  lemma {:induction false} MatchingAscends(rows: seq<Event>, after: nat, conv: Id)
    requires Ascending(rows)
    ensures Ascending(Matching(rows, after, conv))
    decreases rows
  {
    if rows != [] {
      assert Ascending(rows[1..]) by {
        forall i, j | 0 <= i < j < |rows[1..]| ensures rows[1..][i].position < rows[1..][j].position {
          assert rows[1..][i] == rows[i + 1] && rows[1..][j] == rows[j + 1];
        }
      }
      MatchingAscends(rows[1..], after, conv);
      var rest := Matching(rows[1..], after, conv);
      forall j | 0 <= j < |rest| ensures rows[0].position < rest[j].position {
        assert rest[j] in rest;
        var k :| 0 <= k < |rows[1..]| && rows[1..][k] == rest[j];
        assert rows[1..][k] == rows[k + 1];
      }
    }
  }

  /** The SELECT with its LIMIT. */
  method LoadEvents(rows: seq<Event>, after: nat, limit: nat, conv: Id) returns (found: seq<Event>)
    ensures found == Take(Matching(rows, after, conv), limit)
  {
    found := [];
    var i := 0;
    while i < |rows| && |found| < limit
      invariant i <= |rows| && |found| <= limit
      invariant Matching(rows, after, conv) == found + Matching(rows[i..], after, conv)
    {
      MatchingTail(rows, i, after, conv);
      if Selected(rows[i], after, conv) { found := found + [rows[i]]; }
      i := i + 1;
    }
  }

  /** The running maximum of the new cursor. */
  method LastPosition(selected: seq<Event>, after: nat) returns (cursor: nat)
    requires Ascending(selected) && forall e :: e in selected ==> e.position > after
    ensures cursor == if selected == [] then after else selected[|selected| - 1].position
  {
    cursor := after;
    for i := 0 to |selected|
      invariant cursor == if i == 0 then after else selected[i - 1].position
    {
      assert selected[i] in selected;
      if selected[i].position > cursor { cursor := selected[i].position; }
    }
  }

  lemma TakeTwice<T>(s: seq<T>, n: nat)
    ensures var f := Take(s, n + 1); (if n < |f| then f[..n] else f) == Take(s, n) && (|f| > n <==> |s| > n)
  {
  }

  lemma TakeAscends(s: seq<Event>, n: nat)
    requires Ascending(s)
    ensures Ascending(Take(s, n)) && forall e :: e in Take(s, n) ==> e in s
  {
  }

  /** One row more than the page is fetched to learn whether anything is left. */
  method HandleSyncRequest(rows: seq<Event>, after: nat, limit: nat, conv: Id) returns (reply: PageReply)
    requires Ascending(rows)
    ensures reply.events == Take(Matching(rows, after, conv), PageLimit(limit))
    ensures reply.hasMore <==> |Matching(rows, after, conv)| > PageLimit(limit)
    ensures reply.newCursor == if reply.events == [] then after else reply.events[|reply.events| - 1].position
  {
    var size := PageLimit(limit);
    var fetched := LoadEvents(rows, after, size + 1, conv);
    var selected := if size < |fetched| then fetched[..size] else fetched;
    TakeTwice(Matching(rows, after, conv), size);
    MatchingAscends(rows, after, conv);
    TakeAscends(Matching(rows, after, conv), size);
    var cursor := LastPosition(selected, after);
    reply := PageReply(selected, |fetched| > size, cursor);
  }

  // ---------- an unfiltered page of a dense stream ----------

  ghost predicate Dense(rows: seq<Event>) {
    forall i :: 0 <= i < |rows| ==> rows[i].position == i + 1
  }

  function Page(rows: seq<Event>, after: nat, limit: nat): PageReply {
    var size := PageLimit(limit);
    if after >= |rows| then PageReply([], false, after)
    else if after + size < |rows| then PageReply(rows[after..after + size], true, after + size)
    else PageReply(rows[after..], false, |rows|)
  }

  lemma {:induction false} MatchingSuffix(rows: seq<Event>, i: nat, after: nat)
    requires Dense(rows) && i <= |rows|
    ensures Matching(rows[i..], after, "") == rows[(if i > after then i else if after < |rows| then after else |rows|)..]
    decreases |rows| - i
  {
    if i < |rows| {
      MatchingTail(rows, i, after, "");
      MatchingSuffix(rows, i + 1, after);
      if i >= after { assert [rows[i]] + rows[i + 1..] == rows[i..]; }
    }
  }

  /** What HandleSyncRequest promises for the whole stream is exactly the dense page. */
  lemma DensePage(rows: seq<Event>, after: nat, limit: nat)
    requires Dense(rows)
    ensures var p, m := Page(rows, after, limit), Matching(rows, after, "");
            && p.events == Take(m, PageLimit(limit)) && (p.hasMore <==> |m| > PageLimit(limit))
            && p.newCursor == if p.events == [] then after else p.events[|p.events| - 1].position
  {
    MatchingSuffix(rows, 0, after);
    assert rows[0..] == rows;
  }

  /** A last page reaches the end of the stream it was cut from; any other page moves the cursor. */
  lemma PageReaches(rows: seq<Event>, after: nat, limit: nat)
    requires Dense(rows) && after <= |rows|
    ensures var p := Page(rows, after, limit);
            && p.newCursor == after + |p.events| <= |rows|
            && (p.hasMore <==> p.newCursor < |rows|)
            && (p.hasMore ==> after < p.newCursor)
            && forall i :: after <= i < p.newCursor ==> rows[i] in p.events
  {
    var p := Page(rows, after, limit);
    forall i | after <= i < p.newCursor ensures rows[i] in p.events {
      assert p.events[i - after] == rows[i];
    }
  }
}
