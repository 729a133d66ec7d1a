/** The outbox, its coordinator and the server's result table as the objects the source uses. */
module ControlStores {
  import opened SyncEvents
  import opened ControlWrites
  import opened SqliteDb

  /** A request handed to the sender, by row id. */
  datatype Sending = Sending(id: Id, op: string, payload: string)

  class MiniImControlWriteStore {
    var rows: seq<Row>

    constructor ()
      ensures rows == []
    {
      rows := [];
    }

    /** Fails on an incomplete intent, or when the id or client conversation id already belongs to
        different content; otherwise leaves exactly one row for the intent. */
    method EnqueueWrite(id: Id, op: string, conv: Id, clientConvId: Id, payload: string) returns (row: Option<Row>)
      modifies this
      ensures row.Some? <==> Enqueue(old(rows), id, op, conv, clientConvId, payload).Some?
      ensures row.Some? ==> Enqueue(old(rows), id, op, conv, clientConvId, payload).value == (rows, row.value)
      ensures row.None? ==> rows == old(rows)
    {
      if id == "" || op == "" || payload == "" { return None; }
      var i := Lookup(rows, id, clientConvId);
      if i < |rows| {
        if rows[i].op != op || rows[i].payload != payload { return None; }
        return Some(rows[i]);
      }
      var item := Row(id, op, conv, clientConvId, payload, Pending, 0, "", 0);
      rows := rows + [item];
      return Some(item);
    }

    method NextPending() returns (row: Option<Row>)
      ensures row == if Head(rows) < |rows| then Some(rows[Head(rows)]) else None
    {
      var i := 0;
      while i < |rows| && rows[i].status != Pending
        invariant i <= |rows| && forall j :: 0 <= j < i ==> rows[j].status != Pending
      {
        i := i + 1;
      }
      HeadIs(rows, i);
      return if i < |rows| then Some(rows[i]) else None;
    }

    method Attempt(id: Id)
      modifies this
      ensures rows == MarkAttempt(old(rows), id)
    {
      rows := MarkAttempt(rows, id);
    }

    /** Settles the row named by an answer.  `known` is false when no row has that id, `broken` when a
        success carries no entity id; neither changes a row, nor does an answer to a settled row. */
    method Acknowledged(a: Ack) returns (known: bool, broken: bool)
      requires forall i, j :: 0 <= i < j < |rows| ==> rows[i].id != rows[j].id
      modifies this
      ensures known <==> exists r :: r in old(rows) && r.id == a.requestId
      ensures broken <==> Breaks(old(rows), a)
      ensures rows == Acknowledge(old(rows), a)
      ensures forall i :: 0 <= i < |rows| && old(rows)[i].status != Pending ==> rows[i] == old(rows)[i]
    {
      var i := Lookup(rows, a.requestId, "");
      if i == |rows| {
        assert Acknowledge(rows, a) == rows;
        return false, false;
      }
      assert rows[i] in rows;
      if rows[i].status != Pending || (a.success && a.entity == "") {
        assert Acknowledge(rows, a) == rows;
        return true, rows[i].status == Pending;
      }
      rows := rows[i := Settled(rows[i], a)];
      assert rows == Acknowledge(old(rows), a);
      return true, false;
    }
  }

  /** Index of the first matching row, or the number of rows. */
  method Lookup(rows: seq<Row>, id: Id, clientConvId: Id) returns (i: nat)
    ensures i <= |rows| && forall j :: 0 <= j < i ==> !Matches(rows[j], id, clientConvId)
    ensures i < |rows| ==> Matches(rows[i], id, clientConvId) && Find(rows, id, clientConvId) == Some(rows[i])
    ensures i == |rows| ==> Find(rows, id, clientConvId) == None
  {
    i := 0;
    while i < |rows| && !Matches(rows[i], id, clientConvId)
      invariant i <= |rows| && forall j :: 0 <= j < i ==> !Matches(rows[j], id, clientConvId)
      invariant Find(rows, id, clientConvId) == Find(rows[i..], id, clientConvId)
    {
      i := i + 1;
    }
  }

  lemma {:induction false} HeadIs(rows: seq<Row>, i: nat)
    requires i <= |rows| && (forall j :: 0 <= j < i ==> rows[j].status != Pending) && (i < |rows| ==> rows[i].status == Pending)
    ensures Head(rows) == i
  {
    var h := Head(rows);
    assert h < |rows| ==> rows[h].status == Pending;
  }

  function SendingOf(r: Row): Sending { Sending(r.id, r.op, r.payload) }

  /** There is a pending head, and it is not the request still waiting for its answer. */
  predicate Goes(rows: seq<Row>, active: Id, waiting: bool) {
    Head(rows) < |rows| && !(rows[Head(rows)].id == active && waiting)
  }

  /** The answer names a row of this outbox. */
  predicate Known(rows: seq<Row>, a: Ack) { exists r :: r in rows && r.id == a.requestId }

  class MiniImControlWriteCoordinator {
    const store: MiniImControlWriteStore
    var running: bool
    var syncReady: bool
    var activeRequest: Id
    /** Everything handed to the sender, in order. */
    var sent: seq<Sending>

    ghost predicate Valid()
      reads this, store
    {
      forall i, j :: 0 <= i < j < |store.rows| ==> store.rows[i].id != store.rows[j].id
    }

    constructor (store: MiniImControlWriteStore)
      requires forall i, j :: 0 <= i < j < |store.rows| ==> store.rows[i].id != store.rows[j].id
      ensures Valid() && this.store == store && !running && !syncReady && sent == []
    {
      this.store := store;
      running, syncReady, activeRequest, sent := false, false, "", [];
    }

    method Start()
      modifies this
      ensures running && !syncReady && activeRequest == "" && sent == old(sent)
    {
      Stop();
      running := true;
    }

    method Stop()
      modifies this
      ensures !running && !syncReady && activeRequest == "" && sent == old(sent)
    {
      running, syncReady, activeRequest := false, false, "";
    }

    /** Sends the head of the queue and nothing else.  `waiting` is true while the last attempt is
        younger than the retry interval. */
    method Pump(waiting: bool)
      requires Valid()
      modifies this, store
      ensures Valid() && running == old(running) && syncReady == old(syncReady)
      ensures var rows, i := old(store.rows), Head(old(store.rows));
              if running && syncReady && Goes(rows, old(activeRequest), waiting)
              then store.rows == MarkAttempt(rows, rows[i].id) && activeRequest == rows[i].id && sent == old(sent) + [SendingOf(rows[i])]
              else store.rows == rows && sent == old(sent)
    {
      if !running || !syncReady { return; }
      var item := store.NextPending();
      if item == None {
        activeRequest := "";
        return;
      }
      if item.value.id == activeRequest && waiting { return; }
      store.Attempt(item.value.id);
      activeRequest := item.value.id;
      sent := sent + [Sending(item.value.id, item.value.op, item.value.payload)];
    }

    /** An answer settles its row, then the next head goes out at once. */
    method HandleResult(a: Ack, waiting: bool)
      requires Valid()
      modifies this, store
      ensures Valid()
      ensures !old(running) || Breaks(old(store.rows), a) ==> store.rows == old(store.rows) && sent == old(sent)
      ensures old(running) && Breaks(old(store.rows), a) ==> !running
      ensures old(running) && !Breaks(old(store.rows), a) ==>
                && running
                && var settled := Acknowledge(old(store.rows), a);
                   if Known(old(store.rows), a) && syncReady && Goes(settled, old(activeRequest), waiting)
                   then store.rows == MarkAttempt(settled, settled[Head(settled)].id) && activeRequest == settled[Head(settled)].id
                        && sent == old(sent) + [SendingOf(settled[Head(settled)])]
                   else store.rows == settled && sent == old(sent)
    {
      if !running { return; }
      var known, broken := store.Acknowledged(a);
      if broken {
        assert store.rows == old(store.rows);
        Stop();
      } else if known {
        assert Valid();
        Pump(waiting);
      }
    }
  }

  /** The callback's statements, which touch the business tables only. */
  function Lift<S>(body: seq<Stmt<S>>, results: Results): seq<Stmt<Tables<S>>>
    decreases body
  {
    if body == [] then [] else [LiftOne(body[0], results)] + Lift(body[1..], results)
  }

  function LiftOne<S>(stmt: Stmt<S>, results: Results): Stmt<Tables<S>>
    decreases stmt
  {
    match stmt
    case Put(v) => Put(Tables(v, results))
    case Raise => Raise
    case Abort => Abort
    case Block(body) => Block(Lift(body, results))
    case Try(body) => Try(Lift(body, results))
  }

  /** Run on both tables, the callback does to the business tables what it does on its own. */
  lemma {:induction false} LiftEval<S>(s: S, body: seq<Stmt<S>>, results: Results)
    ensures Eval(Tables(s, results), Lift(body, results)) == (Tables(Eval(s, body).0, results), Eval(s, body).1)
    decreases body
  {
    if body != [] {
      var lifted := Lift(body, results);
      assert lifted[0] == LiftOne(body[0], results) && lifted[1..] == Lift(body[1..], results);
      match body[0]
      case Put(v) => LiftEval(v, body[1..], results);
      case Block(inner) =>
        LiftEval(s, inner, results);
        LiftEval(Eval(s, inner).0, body[1..], results);
      case Try(inner) =>
        LiftEval(s, inner, results);
        LiftEval(if Eval(s, inner).1 == Done then Eval(s, inner).0 else s, body[1..], results);
      case _ =>
    }
  }

  predicate Addressed(user: Id, id: Id) { user != "" && !Blank(id) }

  /** The callback runs: the request is new and its id not taken by a file. */
  predicate IsNew<S>(t: Tables<S>, taken: set<(Id, Id)>, user: Id, id: Id) {
    Addressed(user, id) && (user, id) !in t.results && (user, id) !in taken
  }

  /** execute(): the recorded answer and the callback's changes commit together. */
  class ControlWriteRepo<S> {
    const db: MiniImSqliteDb<Tables<S>>

    constructor (db: MiniImSqliteDb<Tables<S>>)
      ensures this.db == db
    {
      this.db := db;
    }

    /** `body` is the callback, nested blocks included, and `answer` what it returns if it gets that far.
        The durable tables are afterwards what Execute makes of the callback's meaning, or untouched;
        there is no answer exactly if the callback raised or the commit failed. */
    method ExecuteWrite(taken: set<(Id, Id)>, user: Id, id: Id, op: string, payload: string,
                        body: seq<Stmt<S>>, answer: Ack, commits: bool) returns (ack: Option<Ack>)
      requires db.Valid() && db.saves == []
      modifies db
      ensures db.Valid() && db.saves == []
      ensures var t := old(db.durable); var e := Eval(t.business, body); var runs := IsNew(t, taken, user, id);
              && (ack == None <==> Addressed(user, id) && if runs && e.1 != Done then true else !commits && !(runs && !Final(answer)))
              && (ack == None ==> db.durable == t)
              && (ack != None ==> (db.durable, ack.value) == Execute(t, taken, user, id, op, payload, Outcome(e.0, answer)))
    {
      if !Addressed(user, id) { return Some(Ack(id, false, 400, "")); }
      db.Savepoint();
      var t := db.working;
      if IsNew(t, taken, user, id) {
        ack := ExecuteNew(user, id, op, payload, body, answer, commits);
      } else {
        var settled := if (user, id) !in t.results || Mismatch(t.results[(user, id)], op, payload) then Ack(id, false, 409, "")
                       else t.results[(user, id)].ack;
        ack := Close(settled, commits);
      }
    }

    /** The end of the block: its commit, and the answer if that succeeds. */
    method Close(answer: Ack, commits: bool) returns (ack: Option<Ack>)
      requires |db.saves| == 1
      modifies db
      ensures db.Valid() && db.saves == []
      ensures db.durable == (if commits then old(db.working) else old(db.durable)) && ack == if commits then Some(answer) else None
    {
      var ok := db.Release(commits);
      if !ok { db.Unwind(true); }
      ack := if ok then Some(answer) else None;
    }

    /** A first execution: the callback, then the row that remembers its answer; a transient failure
        rolls both back and is answered all the same. */
    method ExecuteNew(user: Id, id: Id, op: string, payload: string, body: seq<Stmt<S>>, answer: Ack, commits: bool)
      returns (ack: Option<Ack>)
      requires db.saves == [db.durable] && db.working == db.durable
      modifies db
      ensures db.Valid() && db.saves == []
      ensures var t := old(db.durable); var e := Eval(t.business, body);
              if e.1 != Done then ack == None && db.durable == t
              else if !Final(answer) then ack == Some(answer) && db.durable == t
              else if !commits then ack == None && db.durable == t
              else ack == Some(answer) && db.durable == Tables(e.0, t.results[(user, id) := Recorded(op, payload, answer)])
    {
      var t := db.working;
      LiftEval(t.business, body, t.results);
      var exit := db.RunBody(Lift(body, t.results));
      if exit != Done || !Final(answer) {
        db.Unwind(true);
        return if exit == Done then Some(answer) else None;
      }
      db.working := db.working.(results := t.results[(user, id) := Recorded(op, payload, answer)]);
      ack := Close(answer, commits);
    }
  }
}
