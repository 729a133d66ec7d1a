/** The sync_events table: rows of all users in one table, numbered by MAX(seq) + 1 per user, hold
    exactly the dense streams the rest of the model speaks of. */
module SyncEventTable {
  import opened SyncEvents
  import opened ServerState
  import opened ServerStreams

  datatype EventRow = EventRow(user: Id, position: nat, body: Body)

  /** The bodies of one user's rows in table order. */
  function StreamIn(rows: seq<EventRow>, u: Id): seq<Body>
    decreases |rows|
  {
    if rows == [] then [] else
      var last := rows[|rows| - 1];
      StreamIn(rows[..|rows| - 1], u) + if last.user == u then [last.body] else []
  }

  /** Every row carries the number of its user's rows up to and including itself. */
  ghost predicate InSequence(rows: seq<EventRow>) {
    forall i :: 0 <= i < |rows| ==> rows[i].position == |StreamIn(rows[..i], rows[i].user)| + 1
  }

  lemma StreamAppend(rows: seq<EventRow>, r: EventRow, u: Id)
    ensures StreamIn(rows + [r], u) == StreamIn(rows, u) + if r.user == u then [r.body] else []
  {
    assert (rows + [r])[..|rows|] == rows;
  }

  lemma SequenceAppend(rows: seq<EventRow>, r: EventRow)
    requires InSequence(rows) && r.position == |StreamIn(rows, r.user)| + 1
    ensures InSequence(rows + [r])
  {
    forall i | 0 <= i < |rows + [r]|
      ensures (rows + [r])[i].position == |StreamIn((rows + [r])[..i], (rows + [r])[i].user)| + 1
    {
      if i < |rows| { assert (rows + [r])[..i] == rows[..i]; } else { assert (rows + [r])[..i] == rows; }
    }
  }

  lemma {:induction false} LengthGrows(rows: seq<EventRow>, i: nat, u: Id)
    requires i <= |rows|
    ensures |StreamIn(rows[..i], u)| <= |StreamIn(rows, u)|
    decreases |rows| - i
  {
    if i == |rows| {
      assert rows[..i] == rows;
    } else {
      assert rows[..i + 1] == rows[..i] + [rows[i]];
      StreamAppend(rows[..i], rows[i], u);
      LengthGrows(rows, i + 1, u);
    }
  }

  /** One row per position: the row numbered p holds the stream's entry p - 1, and each of 1..n occurs. */
  lemma {:induction false} RowHolds(rows: seq<EventRow>, u: Id, p: nat)
    requires InSequence(rows) && 1 <= p <= |StreamIn(rows, u)|
    ensures exists i :: 0 <= i < |rows| && rows[i].user == u && rows[i].position == p && rows[i].body == StreamIn(rows, u)[p - 1]
    decreases |rows|
  {
    var last, init := rows[|rows| - 1], rows[..|rows| - 1];
    assert rows == init + [last];
    if p <= |StreamIn(init, u)| {
      assert InSequence(init) by { assert forall i :: 0 <= i < |init| ==> rows[..i] == init[..i]; }
      RowHolds(init, u, p);
      var i :| 0 <= i < |init| && init[i].user == u && init[i].position == p && init[i].body == StreamIn(init, u)[p - 1];
      assert rows[i] == init[i];
    } else {
      assert rows[|rows| - 1].position == p;
    }
  }

  /** A position is never used twice by one user. */
  lemma NumbersDiffer(rows: seq<EventRow>, i: nat, j: nat)
    requires InSequence(rows) && i < j < |rows| && rows[i].user == rows[j].user
    ensures rows[i].position < rows[j].position <= |StreamIn(rows, rows[j].user)|
  {
    var u := rows[i].user;
    OneMore(rows, i);
    OneMore(rows, j);
    PrefixGrows(rows, i + 1, j, u);
    LengthGrows(rows, j + 1, u);
  }

  lemma PrefixGrows(rows: seq<EventRow>, i: nat, j: nat, u: Id)
    requires i <= j <= |rows|
    ensures |StreamIn(rows[..i], u)| <= |StreamIn(rows[..j], u)|
  {
    assert rows[..j][..i] == rows[..i];
    LengthGrows(rows[..j], i, u);
  }

  lemma OneMore(rows: seq<EventRow>, i: nat)
    requires i < |rows|
    ensures |StreamIn(rows[..i + 1], rows[i].user)| == |StreamIn(rows[..i], rows[i].user)| + 1
  {
    assert rows[..i + 1] == rows[..i] + [rows[i]];
    StreamAppend(rows[..i], rows[i], rows[i].user);
  }

  /** COALESCE(MAX(seq), 0) over one user's rows. */
  method MaxSeq(rows: seq<EventRow>, u: Id) returns (top: nat)
    requires InSequence(rows)
    ensures top == |StreamIn(rows, u)|
  {
    top := 0;
    for i := 0 to |rows|
      invariant top == |StreamIn(rows[..i], u)|
    {
      assert rows[..i + 1] == rows[..i] + [rows[i]];
      StreamAppend(rows[..i], rows[i], u);
      if rows[i].user == u && rows[i].position > top { top := rows[i].position; }
    }
    assert rows[..|rows|] == rows;
  }

  function RedactRow(r: EventRow, m: Id, users: set<Id>): EventRow {
    if r.user in users then r.(body := RedactBody(r.body, m)) else r
  }

  lemma {:induction false} RedactedStream(a: seq<EventRow>, b: seq<EventRow>, m: Id, users: set<Id>, u: Id)
    requires |a| == |b| && forall i :: 0 <= i < |a| ==> b[i] == RedactRow(a[i], m, users)
    ensures StreamIn(b, u) == if u in users then RedactStream(StreamIn(a, u), m) else StreamIn(a, u)
    decreases |a|
  {
    if a != [] { RedactedStream(a[..|a| - 1], b[..|b| - 1], m, users, u); }
  }

  class SyncEventStore {
    var rows: seq<EventRow>

    ghost predicate Valid()
      reads this
    {
      InSequence(rows)
    }

    /** The table holds exactly these streams. */
    ghost predicate Holds(streams: Streams)
      reads this
    {
      forall u :: StreamIn(rows, u) == StreamOf(streams, u)
    }

    constructor ()
      ensures Valid() && Holds(map[])
    {
      rows := [];
    }

    /** One row at the end of a user's stream, numbered one past the largest. */
    method AppendRow(u: Id, b: Body)
      requires Valid()
      modifies this
      ensures Valid()
      ensures forall x :: StreamIn(rows, x) == StreamIn(old(rows), x) + if x == u then [b] else []
    {
      var top := MaxSeq(rows, u);
      var row := EventRow(u, top + 1, b);
      SequenceAppend(rows, row);
      forall x ensures StreamIn(rows + [row], x) == StreamIn(rows, x) + if row.user == x then [b] else [] {
        StreamAppend(rows, row, x);
      }
      rows := rows + [row];
    }

    /** AppendSyncEvents: each distinct user's next number is one past the largest it has. */
    method AppendSyncEvents(users: seq<Id>, b: Body)
      requires Valid()
      modifies this
      ensures Valid()
      ensures forall u :: StreamIn(rows, u) == StreamIn(old(rows), u) + if u in users then [b] else []
      ensures forall streams :: old(Holds(streams)) ==> Holds(Emit(streams, Listed(users), b))
    {
      ghost var was := rows;
      var done: set<Id> := {};
      for i := 0 to |users|
        invariant Valid() && forall u :: u in done <==> u in users[..i]
        invariant forall u :: StreamIn(rows, u) == StreamIn(was, u) + if u in done then [b] else []
      {
        assert users[..i + 1] == users[..i] + [users[i]];
        if users[i] !in done { AppendRow(users[i], b); }
        done := done + {users[i]};
      }
      assert users[..|users|] == users;
      forall streams | old(Holds(streams)) ensures Holds(Emit(streams, Listed(users), b)) {
        forall u ensures StreamIn(rows, u) == StreamOf(Emit(streams, Listed(users), b), u) { EmitAt(streams, Listed(users), b, u); }
      }
    }

    /** RedactMessageEvents: bodies change in place, numbers do not. */
    method RedactMessageEvents(m: Id, users: set<Id>)
      requires Valid()
      modifies this
      ensures Valid()
      ensures forall streams :: old(Holds(streams)) ==> Holds(Redact(streams, m, users))
    {
      ghost var was := rows;
      var next: seq<EventRow> := [];
      for i := 0 to |rows|
        invariant rows == was && |next| == i && forall j :: 0 <= j < i ==> next[j] == RedactRow(rows[j], m, users)
      {
        next := next + [RedactRow(rows[i], m, users)];
      }
      forall i | 0 <= i < |next| ensures next[i].position == |StreamIn(next[..i], next[i].user)| + 1 {
        RedactedStream(was[..i], next[..i], m, users, next[i].user);
      }
      rows := next;
      forall streams | old(Holds(streams)) ensures Holds(Redact(streams, m, users)) {
        forall u ensures StreamIn(rows, u) == StreamOf(Redact(streams, m, users), u) {
          RedactedStream(was, rows, m, users, u);
          RedactAt(streams, m, users, u);
        }
      }
    }
  }
}
