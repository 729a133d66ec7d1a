/** Control writes: the client's durable outbox and the server's recorded results, as values. */
module ControlWrites {
  import opened SyncEvents

  datatype Ack = Ack(requestId: Id, success: bool, code: nat, entity: Id)

  predicate Retryable(code: nat) { code == 401 || code == 408 || code == 429 || code >= 500 }

  /** The server gives this answer once and for all. */
  predicate Final(a: Ack) { a.success || !Retryable(a.code) }

  predicate Blank(id: Id) { forall i :: 0 <= i < |id| ==> id[i] in {' ', '\t', '\n', '\r'} }

  // ---------- the server ----------

  /** The payload stands for its digest. */
  datatype Recorded = Recorded(op: string, fingerprint: string, ack: Ack)

  type Results = map<(Id, Id), Recorded>

  /** The tables one transaction may change. */
  datatype Tables<+S> = Tables(business: S, results: Results)

  /** What the callback would do now: the tables it leaves and the answer it gives. */
  datatype Outcome<+S> = Outcome(business: S, ack: Ack)

  predicate Mismatch(r: Recorded, op: string, payload: string) { r.op != op || r.fingerprint != payload }

  /** `taken` holds the request ids that belong to file initialisations. */
  function Execute<S>(t: Tables<S>, taken: set<(Id, Id)>, user: Id, id: Id, op: string, payload: string,
                      outcome: Outcome<S>): (Tables<S>, Ack)
  {
    if user == "" || Blank(id) then (t, Ack(id, false, 400, ""))
    else if (user, id) in t.results then
      (t, if Mismatch(t.results[(user, id)], op, payload) then Ack(id, false, 409, "") else t.results[(user, id)].ack)
    else if (user, id) in taken then (t, Ack(id, false, 409, ""))
    else if !Final(outcome.ack) then (t, outcome.ack)
    else (Tables(outcome.business, t.results[(user, id) := Recorded(op, payload, outcome.ack)]), outcome.ack)
  }

  /** Whatever a later execution would have done, a recorded request is answered as it was and
      changes nothing. */
  lemma ReplayIsSilent<S>(t: Tables<S>, taken: set<(Id, Id)>, user: Id, id: Id, op: string, payload: string,
                          first: Outcome<S>, later: Tables<S>, second: Outcome<S>)
    requires var r := Execute(t, taken, user, id, op, payload, first);
             (user, id) in r.0.results && (user, id) in later.results && later.results[(user, id)] == r.0.results[(user, id)]
    requires user != "" && !Blank(id) && (user, id) !in t.results
    ensures Execute(later, taken, user, id, op, payload, second) == (later, Execute(t, taken, user, id, op, payload, first).1)
  {
  }

  // ---------- the outbox ----------

  datatype RowStatus = Pending | Confirmed | Failed

  datatype Row = Row(id: Id, op: string, conv: Id, clientConvId: Id, payload: string,
                     status: RowStatus, code: nat, entity: Id, attempts: nat)

  predicate Matches(r: Row, id: Id, clientConvId: Id) {
    r.id == id || (clientConvId != "" && r.clientConvId == clientConvId)
  }

  /** The first row the lookup finds. */
  function Find(rows: seq<Row>, id: Id, clientConvId: Id): (r: Option<Row>)
    ensures r.Some? ==> r.value in rows && Matches(r.value, id, clientConvId)
    ensures r.None? <==> forall x :: x in rows ==> !Matches(x, id, clientConvId)
    decreases rows
  {
    if rows == [] then None
    else if Matches(rows[0], id, clientConvId) then Some(rows[0])
    else Find(rows[1..], id, clientConvId)
  }

  /** None when the intent is refused; otherwise the rows afterwards and the row that stands for it. */
  function Enqueue(rows: seq<Row>, id: Id, op: string, conv: Id, clientConvId: Id, payload: string): Option<(seq<Row>, Row)> {
    if id == "" || op == "" || payload == "" then None else
      var found := Find(rows, id, clientConvId);
      if found.Some? then
        if found.value.op != op || found.value.payload != payload then None else Some((rows, found.value))
      else
        var row := Row(id, op, conv, clientConvId, payload, Pending, 0, "", 0);
        Some((rows + [row], row))
  }

  /** Index of the first pending row, or the number of rows. */
  function Head(rows: seq<Row>): (i: nat)
    ensures i <= |rows|
    ensures forall j :: 0 <= j < i ==> rows[j].status != Pending
    ensures i < |rows| ==> rows[i].status == Pending
    decreases rows
  {
    if rows == [] then 0
    else if rows[0].status == Pending then 0
    else
      var k := Head(rows[1..]);
      assert forall j :: 1 <= j < |rows| ==> rows[j] == rows[1..][j - 1];
      1 + k
  }

  function Settled(r: Row, a: Ack): Row {
    r.(status := if a.success then Confirmed else if Retryable(a.code) then Pending else Failed,
       code := a.code, entity := a.entity)
  }

  /** One acknowledgement: rows already settled are left alone; a success without entity is refused. */
  function AckRow(r: Row, a: Ack): Row {
    if r.id != a.requestId || r.status != Pending || (a.success && a.entity == "") then r else Settled(r, a)
  }

  function Acknowledge(rows: seq<Row>, a: Ack): seq<Row> {
    seq(|rows|, i requires 0 <= i < |rows| => AckRow(rows[i], a))
  }

  /** The acknowledgement makes the coordinator stop. */
  predicate Breaks(rows: seq<Row>, a: Ack) {
    a.success && a.entity == "" && exists r :: r in rows && r.id == a.requestId && r.status == Pending
  }

  function MarkAttempt(rows: seq<Row>, id: Id): seq<Row> {
    seq(|rows|, i requires 0 <= i < |rows| =>
      if rows[i].id == id && rows[i].status == Pending then rows[i].(attempts := rows[i].attempts + 1) else rows[i])
  }
}

/** Exactly once and in order: the outboxes of any number of devices against one server, over a
    network that may lose, duplicate, delay and reorder, with crashes on either side. */
module ExactlyOnce {
  import opened SyncEvents
  import opened ControlWrites

  datatype Request = Request(id: Id, op: string, payload: string)

  /** `sent` and `replies` hold everything ever put on the wire for this device. */
  datatype Device = Device(user: Id, rows: seq<Row>, running: bool, syncReady: bool,
                           sent: set<Request>, replies: set<Ack>)

  /** `log` lists first executions in commit order. */
  datatype Sys<+S> = Sys(tables: Tables<S>, taken: set<(Id, Id)>, log: seq<(Id, Id)>, devices: map<Id, Device>)

  datatype Step<+S> =
    | Install(d: Id, user: Id)
    | Begin(d: Id)
    | Crash(d: Id)
    | Ready(d: Id, ready: bool)
    | Accept(d: Id, id: Id, op: string, conv: Id, clientConvId: Id, payload: string)
    | Pump(d: Id)
    | Serve(d: Id, request: Request, outcome: Outcome<S>)
    | Reply(d: Id, ack: Ack)
    | TakeFile(user: Id, id: Id)

  ghost predicate UsedId<S>(sys: Sys<S>, id: Id) {
    || (exists d :: d in sys.devices && exists r :: r in sys.devices[d].rows && r.id == id)
    || (exists k :: k in sys.taken && k.1 == id)
    || (exists k :: k in sys.tables.results && k.1 == id)
  }

  ghost predicate Can<S>(sys: Sys<S>, step: Step<S>) {
    match step
    case Install(d, user) => d !in sys.devices && user != ""
    case Begin(d) => d in sys.devices
    case Crash(d) => d in sys.devices
    case Ready(d, _) => d in sys.devices
    case Accept(d, id, _, _, _, _) => d in sys.devices && !Blank(id) && !UsedId(sys, id)
    case Pump(d) => d in sys.devices
    case Serve(d, request, outcome) =>
      d in sys.devices && request in sys.devices[d].sent && outcome.ack.requestId == request.id
    case Reply(d, ack) => d in sys.devices && ack in sys.devices[d].replies
    case TakeFile(user, id) => !UsedId(sys, id)
  }

  function RequestOf(r: Row): Request { Request(r.id, r.op, r.payload) }

  /** enqueue, which pumps afterwards in its own step; a refused intent changes nothing. */
  function Accepted(dev: Device, id: Id, op: string, conv: Id, clientConvId: Id, payload: string): Device {
    var r := Enqueue(dev.rows, id, op, conv, clientConvId, payload);
    if !dev.running || r.None? then dev else dev.(rows := r.value.0)
  }

  function Pumped(dev: Device): Device {
    var i := Head(dev.rows);
    if !dev.running || !dev.syncReady || i == |dev.rows| then dev
    else dev.(rows := MarkAttempt(dev.rows, dev.rows[i].id), sent := dev.sent + {RequestOf(dev.rows[i])})
  }

  function Replied(dev: Device, a: Ack): Device {
    if !dev.running then dev
    else if Breaks(dev.rows, a) then dev.(running := false, syncReady := false)
    else dev.(rows := Acknowledge(dev.rows, a))
  }

  function Do<S>(sys: Sys<S>, step: Step<S>): Sys<S>
    requires Can(sys, step)
  {
    match step
    case Install(d, user) => sys.(devices := sys.devices[d := Device(user, [], false, false, {}, {})])
    case Begin(d) => sys.(devices := sys.devices[d := sys.devices[d].(running := true, syncReady := false)])
    case Crash(d) => sys.(devices := sys.devices[d := sys.devices[d].(running := false, syncReady := false)])
    case Ready(d, ready) => sys.(devices := sys.devices[d := sys.devices[d].(syncReady := ready)])
    case Accept(d, id, op, conv, clientConvId, payload) =>
      sys.(devices := sys.devices[d := Accepted(sys.devices[d], id, op, conv, clientConvId, payload)])
    case Pump(d) => sys.(devices := sys.devices[d := Pumped(sys.devices[d])])
    case Serve(d, q, outcome) =>
      var dev := sys.devices[d];
      var r := Execute(sys.tables, sys.taken, dev.user, q.id, q.op, q.payload, outcome);
      sys.(tables := r.0,
           log := if r.0.results.Keys == sys.tables.results.Keys then sys.log else sys.log + [(dev.user, q.id)],
           devices := sys.devices[d := dev.(replies := dev.replies + {r.1})])
    case Reply(d, ack) => sys.(devices := sys.devices[d := Replied(sys.devices[d], ack)])
    case TakeFile(user, id) => sys.(taken := sys.taken + {(user, id)})
  }

  // ---------- the invariant ----------

  function Ids(rows: seq<Row>): seq<Id> { seq(|rows|, i requires 0 <= i < |rows| => rows[i].id) }

  /** The entries of the commit log that belong to one device, in order. */
  function Commits(log: seq<(Id, Id)>, user: Id, ids: set<Id>): seq<Id>
    decreases |log|
  {
    if log == [] then [] else
      var last := log[|log| - 1];
      Commits(log[..|log| - 1], user, ids) + if last.0 == user && last.1 in ids then [last.1] else []
  }

  function IdSet(rows: seq<Row>): set<Id> { set r | r in rows :: r.id }

  ghost predicate RowsOk(user: Id, rows: seq<Row>, taken: set<(Id, Id)>) {
    && user != ""
    && (forall i :: 0 <= i < |rows| ==> !Blank(rows[i].id) && (user, rows[i].id) !in taken)
    && (forall i, j :: 0 <= i < j < |rows| ==> rows[i].id != rows[j].id)
  }

  predicate Tells(status: RowStatus, a: Ack) {
    match status case Pending => true case Confirmed => a.success case Failed => !a.success && !Retryable(a.code)
  }

  /** Exactly the first k rows have been executed, with their own content, and only those can be settled. */
  ghost predicate Executed(user: Id, rows: seq<Row>, results: Results, k: nat) {
    && k <= |rows|
    && (forall i :: 0 <= i < |rows| ==> ((user, rows[i].id) in results <==> i < k))
    && (forall i :: 0 <= i < k ==> !Mismatch(results[(user, rows[i].id)], rows[i].op, rows[i].payload)
                                   && Tells(rows[i].status, results[(user, rows[i].id)].ack))
    && (forall i :: k <= i < |rows| ==> rows[i].status == Pending)
  }

  /** Only rows whose predecessors are all executed have ever been sent. */
  ghost predicate SentOk(rows: seq<Row>, sent: set<Request>, k: nat) {
    forall q :: q in sent ==> exists i :: 0 <= i < |rows| && i <= k && q == RequestOf(rows[i])
  }

  ghost predicate RepliesOk(user: Id, rows: seq<Row>, results: Results, replies: set<Ack>) {
    forall a :: a in replies && Final(a) ==>
      (user, a.requestId) in results && results[(user, a.requestId)].ack == a && a.requestId in IdSet(rows)
  }

  ghost predicate DeviceAt<S>(tables: Tables<S>, taken: set<(Id, Id)>, log: seq<(Id, Id)>, dev: Device, k: nat) {
    && RowsOk(dev.user, dev.rows, taken)
    && Executed(dev.user, dev.rows, tables.results, k)
    && SentOk(dev.rows, dev.sent, k)
    && RepliesOk(dev.user, dev.rows, tables.results, dev.replies)
    && Commits(log, dev.user, IdSet(dev.rows)) == Ids(dev.rows)[..k]
  }

  ghost predicate DeviceOk<S>(tables: Tables<S>, taken: set<(Id, Id)>, log: seq<(Id, Id)>, dev: Device) {
    exists k :: DeviceAt(tables, taken, log, dev, k)
  }

  /** The log is the recorded requests, each once. */
  ghost predicate LogOk(results: Results, log: seq<(Id, Id)>) {
    && (forall k :: k in results <==> k in log)
    && (forall i, j :: 0 <= i < j < |log| ==> log[i] != log[j])
  }

  /** No request id is in two outboxes. */
  ghost predicate Apart(devices: map<Id, Device>) {
    forall d, e :: d in devices && e in devices && d != e ==> IdSet(devices[d].rows) !! IdSet(devices[e].rows)
  }

  ghost predicate ResultsOk(results: Results) {
    forall k :: k in results ==> Final(results[k].ack) && results[k].ack.requestId == k.1
  }

  ghost predicate SysInv<S>(sys: Sys<S>) {
    && LogOk(sys.tables.results, sys.log) && ResultsOk(sys.tables.results) && Apart(sys.devices)
    && forall d :: d in sys.devices ==> DeviceOk(sys.tables, sys.taken, sys.log, sys.devices[d])
  }

  // ---------- the commit log of one device ----------

  lemma {:induction false} CommitsSame(log: seq<(Id, Id)>, user: Id, a: set<Id>, b: set<Id>)
    requires forall x :: x in log && x.0 == user ==> (x.1 in a <==> x.1 in b)
    ensures Commits(log, user, a) == Commits(log, user, b)
    decreases |log|
  {
    if log != [] {
      assert log[|log| - 1] in log;
      assert forall x :: x in log[..|log| - 1] ==> x in log;
      CommitsSame(log[..|log| - 1], user, a, b);
    }
  }

  lemma CommitsAppend(log: seq<(Id, Id)>, x: (Id, Id), user: Id, ids: set<Id>)
    ensures Commits(log + [x], user, ids) == Commits(log, user, ids) + if x.0 == user && x.1 in ids then [x.1] else []
  {
    assert (log + [x])[..|log|] == log;
  }

  lemma SameRowIds(a: seq<Row>, b: seq<Row>)
    requires |a| == |b| && forall i :: 0 <= i < |a| ==> a[i].id == b[i].id
    ensures IdSet(a) == IdSet(b) && Ids(a) == Ids(b)
  {
    forall x ensures x in IdSet(a) <==> x in IdSet(b) {
      if x in IdSet(a) { var r :| r in a && r.id == x; var i :| 0 <= i < |a| && a[i] == r; assert b[i] in b; }
      if x in IdSet(b) { var r :| r in b && r.id == x; var i :| 0 <= i < |b| && b[i] == r; assert a[i] in a; }
    }
  }

  /** Same intents, possibly settled differently. */
  ghost predicate SameIntents(a: seq<Row>, b: seq<Row>) {
    |a| == |b| && forall i :: 0 <= i < |a| ==> b[i].id == a[i].id && b[i].op == a[i].op && b[i].payload == a[i].payload
  }

  lemma SameIntentsOk<S>(tables: Tables<S>, taken: set<(Id, Id)>, log: seq<(Id, Id)>, dev: Device, k: nat, rows: seq<Row>)
    requires DeviceAt(tables, taken, log, dev, k) && SameIntents(dev.rows, rows)
    requires Executed(dev.user, rows, tables.results, k)
    ensures DeviceAt(tables, taken, log, dev.(rows := rows), k)
  {
    SameRowIds(dev.rows, rows);
    forall q | q in dev.sent ensures exists i :: 0 <= i < |rows| && i <= k && q == RequestOf(rows[i]) {
      var i :| 0 <= i < |dev.rows| && i <= k && q == RequestOf(dev.rows[i]);
      assert q == RequestOf(rows[i]);
    }
  }

  // ---------- steps of one device ----------

  lemma AcceptOk<S>(tables: Tables<S>, taken: set<(Id, Id)>, log: seq<(Id, Id)>, dev: Device, k: nat, row: Row)
    requires DeviceAt(tables, taken, log, dev, k) && (forall x :: x in log ==> x in tables.results)
    requires !Blank(row.id) && (dev.user, row.id) !in taken && (dev.user, row.id) !in tables.results
    requires row.id !in IdSet(dev.rows) && row.status == Pending
    ensures DeviceAt(tables, taken, log, dev.(rows := dev.rows + [row]), k)
  {
    var rows := dev.rows + [row];
    RowsAppend(dev.user, dev.rows, row, taken, tables.results, k);
    IdSetAppend(dev.rows, row);
    CommitsSame(log, dev.user, IdSet(dev.rows), IdSet(rows));
    assert Ids(rows)[..k] == Ids(dev.rows)[..k];
    SentAppend(dev.rows, row, dev.sent, k);
  }

  lemma RowsAppend(user: Id, rows: seq<Row>, row: Row, taken: set<(Id, Id)>, results: Results, k: nat)
    requires RowsOk(user, rows, taken) && Executed(user, rows, results, k)
    requires !Blank(row.id) && (user, row.id) !in taken && (user, row.id) !in results && row.id !in IdSet(rows) && row.status == Pending
    ensures RowsOk(user, rows + [row], taken) && Executed(user, rows + [row], results, k)
  {
    forall i | 0 <= i < |rows| ensures (rows + [row])[i] == rows[i] && rows[i].id in IdSet(rows) { assert rows[i] in rows; }
  }

  lemma SentAppend(rows: seq<Row>, row: Row, sent: set<Request>, k: nat)
    requires SentOk(rows, sent, k)
    ensures SentOk(rows + [row], sent, k)
  {
    forall q | q in sent ensures exists i :: 0 <= i < |rows + [row]| && i <= k && q == RequestOf((rows + [row])[i]) {
      var i :| 0 <= i < |rows| && i <= k && q == RequestOf(rows[i]);
      assert q == RequestOf((rows + [row])[i]);
    }
  }

  /** The head of the queue is the first row not yet executed, or one executed but not yet answered. */
  lemma HeadWithin(user: Id, rows: seq<Row>, results: Results, k: nat)
    requires Executed(user, rows, results, k) && Head(rows) < |rows|
    ensures Head(rows) <= k
  {
    assert k < |rows| ==> rows[k].status == Pending;
  }

  lemma MarkedExecuted(user: Id, rows: seq<Row>, results: Results, k: nat, id: Id)
    requires Executed(user, rows, results, k)
    ensures Executed(user, MarkAttempt(rows, id), results, k) && SameIntents(rows, MarkAttempt(rows, id))
  {
  }

  lemma MoreSent(rows: seq<Row>, sent: set<Request>, k: nat, i: nat)
    requires SentOk(rows, sent, k) && i < |rows| && i <= k
    ensures SentOk(rows, sent + {RequestOf(rows[i])}, k)
  {
  }

  lemma PumpOk<S>(tables: Tables<S>, taken: set<(Id, Id)>, log: seq<(Id, Id)>, dev: Device, k: nat)
    requires DeviceAt(tables, taken, log, dev, k)
    ensures DeviceAt(tables, taken, log, Pumped(dev), k)
  {
    var i := Head(dev.rows);
    if dev.running && dev.syncReady && i < |dev.rows| {
      var rows := MarkAttempt(dev.rows, dev.rows[i].id);
      HeadWithin(dev.user, dev.rows, tables.results, k);
      MarkedExecuted(dev.user, dev.rows, tables.results, k, dev.rows[i].id);
      SameIntentsOk(tables, taken, log, dev, k, rows);
      MoreSent(rows, dev.sent, k, i);
      assert RequestOf(dev.rows[i]) == RequestOf(rows[i]);
    }
  }

  lemma ReplyOk<S>(tables: Tables<S>, taken: set<(Id, Id)>, log: seq<(Id, Id)>, dev: Device, k: nat, a: Ack)
    requires DeviceAt(tables, taken, log, dev, k) && a in dev.replies
    ensures DeviceAt(tables, taken, log, Replied(dev, a), k)
  {
    SameIntentsOk(tables, taken, log, dev, k, Acknowledge(dev.rows, a));
  }

  // ---------- execution ----------

  lemma ServeShape<S>(tables: Tables<S>, taken: set<(Id, Id)>, log: seq<(Id, Id)>, dev: Device, k: nat, i: nat, outcome: Outcome<S>)
    requires DeviceAt(tables, taken, log, dev, k) && i < |dev.rows| && i <= k && outcome.ack.requestId == dev.rows[i].id
    requires ResultsOk(tables.results)
    ensures var q, key := RequestOf(dev.rows[i]), (dev.user, dev.rows[i].id);
            var r := Execute(tables, taken, dev.user, q.id, q.op, q.payload, outcome);
            if key in tables.results then i < k && r == (tables, tables.results[key].ack)
            else
              && i == k && r.1 == outcome.ack
              && r.0 == (if !Final(outcome.ack) then tables
                         else Tables(outcome.business, tables.results[key := Recorded(q.op, q.payload, outcome.ack)]))
  {
  }

  lemma ServeOwn<S>(tables: Tables<S>, taken: set<(Id, Id)>, log: seq<(Id, Id)>, dev: Device, k: nat, i: nat, outcome: Outcome<S>)
    requires DeviceAt(tables, taken, log, dev, k) && i < |dev.rows| && i <= k && outcome.ack.requestId == dev.rows[i].id
    requires ResultsOk(tables.results)
    ensures var q, key := RequestOf(dev.rows[i]), (dev.user, dev.rows[i].id);
            var r := Execute(tables, taken, dev.user, q.id, q.op, q.payload, outcome);
            var after := if r.0.results.Keys == tables.results.Keys then log else log + [key];
            DeviceOk(r.0, taken, after, dev.(replies := dev.replies + {r.1}))
  {
    var q, key := RequestOf(dev.rows[i]), (dev.user, dev.rows[i].id);
    var r := Execute(tables, taken, dev.user, q.id, q.op, q.payload, outcome);
    var replied := dev.(replies := dev.replies + {r.1});
    assert dev.rows[i] in dev.rows;
    ServeShape(tables, taken, log, dev, k, i, outcome);
    if key in tables.results || !Final(outcome.ack) {
      assert DeviceAt(tables, taken, log, replied, k);
    } else {
      ServeCommit(tables, taken, log, dev, k, outcome);
    }
  }

  lemma ServeCommit<S>(tables: Tables<S>, taken: set<(Id, Id)>, log: seq<(Id, Id)>, dev: Device, k: nat, outcome: Outcome<S>)
    requires DeviceAt(tables, taken, log, dev, k) && k < |dev.rows| && outcome.ack.requestId == dev.rows[k].id && Final(outcome.ack)
    ensures var row, key := dev.rows[k], (dev.user, dev.rows[k].id);
            var t := Tables(outcome.business, tables.results[key := Recorded(row.op, row.payload, outcome.ack)]);
            t.results.Keys != tables.results.Keys
            && DeviceOk(t, taken, log + [key], dev.(replies := dev.replies + {outcome.ack}))
  {
    var row, key := dev.rows[k], (dev.user, dev.rows[k].id);
    var t := Tables(outcome.business, tables.results[key := Recorded(row.op, row.payload, outcome.ack)]);
    assert key in t.results.Keys && key !in tables.results.Keys;
    assert row in dev.rows && row.id in IdSet(dev.rows);
    CommitsAppend(log, key, dev.user, IdSet(dev.rows));
    assert Ids(dev.rows)[..k + 1] == Ids(dev.rows)[..k] + [row.id];
    SentLater(dev.rows, dev.sent, k);
    assert DeviceAt(t, taken, log + [key], dev.(replies := dev.replies + {outcome.ack}), k + 1);
  }

  lemma SentLater(rows: seq<Row>, sent: set<Request>, k: nat)
    requires SentOk(rows, sent, k)
    ensures SentOk(rows, sent, k + 1)
  {
    forall q | q in sent ensures exists i :: 0 <= i < |rows| && i <= k + 1 && q == RequestOf(rows[i]) {
      var i :| 0 <= i < |rows| && i <= k && q == RequestOf(rows[i]);
    }
  }

  /** Another device's first execution is invisible to this one. */
  lemma OtherCommit<S>(tables: Tables<S>, taken: set<(Id, Id)>, log: seq<(Id, Id)>, dev: Device, key: (Id, Id), rec: Recorded, business: S)
    requires DeviceOk(tables, taken, log, dev) && key.1 !in IdSet(dev.rows) && key !in tables.results
    ensures DeviceOk(Tables(business, tables.results[key := rec]), taken, log + [key], dev)
  {
    var k :| DeviceAt(tables, taken, log, dev, k);
    CommitsAppend(log, key, dev.user, IdSet(dev.rows));
    forall i | 0 <= i < |dev.rows| ensures (dev.user, dev.rows[i].id) != key {
      assert dev.rows[i] in dev.rows && dev.rows[i].id in IdSet(dev.rows);
    }
    assert DeviceAt(Tables(business, tables.results[key := rec]), taken, log + [key], dev, k);
  }

  // ---------- the whole system ----------

  lemma DeviceAtOf<S>(sys: Sys<S>, d: Id) returns (k: nat)
    requires SysInv(sys) && d in sys.devices
    ensures DeviceAt(sys.tables, sys.taken, sys.log, sys.devices[d], k)
  {
    assert DeviceOk(sys.tables, sys.taken, sys.log, sys.devices[d]);
    k :| DeviceAt(sys.tables, sys.taken, sys.log, sys.devices[d], k);
  }

  /** A step of one device that leaves its request ids alone. */
  lemma LocalOk<S>(sys: Sys<S>, d: Id, dev: Device)
    requires SysInv(sys) && d in sys.devices && DeviceOk(sys.tables, sys.taken, sys.log, dev)
    requires IdSet(dev.rows) == IdSet(sys.devices[d].rows)
    ensures SysInv(sys.(devices := sys.devices[d := dev]))
  {
  }

  lemma IdSetAppend(rows: seq<Row>, row: Row)
    ensures IdSet(rows + [row]) == IdSet(rows) + {row.id}
  {
    assert row in rows + [row];
    assert forall r :: r in rows + [row] <==> r in rows || r == row;
  }

  lemma AcceptedShape(dev: Device, id: Id, op: string, conv: Id, clientConvId: Id, payload: string)
    ensures var after, row := Accepted(dev, id, op, conv, clientConvId, payload), Row(id, op, conv, clientConvId, payload, Pending, 0, "", 0);
            after == dev || after == dev.(rows := dev.rows + [row])
  {
  }

  lemma FreshEverywhere<S>(sys: Sys<S>, d: Id, id: Id)
    requires SysInv(sys) && d in sys.devices && !UsedId(sys, id)
    ensures (sys.devices[d].user, id) !in sys.taken && (sys.devices[d].user, id) !in sys.tables.results
    ensures forall e :: e in sys.devices ==> id !in IdSet(sys.devices[e].rows)
  {
    assert (sys.devices[d].user, id).1 == id;
  }

  lemma AddRow<S>(sys: Sys<S>, d: Id, row: Row)
    requires SysInv(sys) && d in sys.devices && !UsedId(sys, row.id) && !Blank(row.id) && row.status == Pending
    ensures SysInv(sys.(devices := sys.devices[d := sys.devices[d].(rows := sys.devices[d].rows + [row])]))
  {
    var dev := sys.devices[d];
    var k := DeviceAtOf(sys, d);
    FreshEverywhere(sys, d, row.id);
    AcceptOk(sys.tables, sys.taken, sys.log, dev, k, row);
    IdSetAppend(dev.rows, row);
    WiderOk(sys, d, dev.(rows := dev.rows + [row]), row.id);
  }

  /** A step of one device that adds one new request id. */
  lemma WiderOk<S>(sys: Sys<S>, d: Id, dev: Device, id: Id)
    requires SysInv(sys) && d in sys.devices && DeviceOk(sys.tables, sys.taken, sys.log, dev)
    requires IdSet(dev.rows) == IdSet(sys.devices[d].rows) + {id}
    requires forall e :: e in sys.devices ==> id !in IdSet(sys.devices[e].rows)
    ensures SysInv(sys.(devices := sys.devices[d := dev]))
  {
  }

  lemma AcceptStep<S>(sys: Sys<S>, d: Id, id: Id, op: string, conv: Id, clientConvId: Id, payload: string)
    requires SysInv(sys) && Can(sys, Accept(d, id, op, conv, clientConvId, payload))
    ensures SysInv(Do(sys, Accept(d, id, op, conv, clientConvId, payload)))
  {
    var row := Row(id, op, conv, clientConvId, payload, Pending, 0, "", 0);
    AcceptedShape(sys.devices[d], id, op, conv, clientConvId, payload);
    AddRow(sys, d, row);
    assert sys.devices[d := sys.devices[d]] == sys.devices;
  }

  lemma PumpedIds(dev: Device)
    ensures IdSet(Pumped(dev).rows) == IdSet(dev.rows)
  {
    SameRowIds(dev.rows, Pumped(dev).rows);
  }

  lemma PumpStep<S>(sys: Sys<S>, d: Id)
    requires SysInv(sys) && d in sys.devices
    ensures SysInv(Do(sys, Pump(d)))
  {
    var k := DeviceAtOf(sys, d);
    PumpOk(sys.tables, sys.taken, sys.log, sys.devices[d], k);
    PumpedIds(sys.devices[d]);
    LocalOk(sys, d, Pumped(sys.devices[d]));
  }

  lemma RepliedIds(dev: Device, a: Ack)
    ensures IdSet(Replied(dev, a).rows) == IdSet(dev.rows)
  {
    SameRowIds(dev.rows, Replied(dev, a).rows);
  }

  lemma ReplyStep<S>(sys: Sys<S>, d: Id, a: Ack)
    requires SysInv(sys) && Can(sys, Reply(d, a))
    ensures SysInv(Do(sys, Reply(d, a)))
  {
    var k := DeviceAtOf(sys, d);
    ReplyOk(sys.tables, sys.taken, sys.log, sys.devices[d], k, a);
    RepliedIds(sys.devices[d], a);
    LocalOk(sys, d, Replied(sys.devices[d], a));
  }

  lemma FlagsStep<S>(sys: Sys<S>, d: Id, running: bool, syncReady: bool)
    requires SysInv(sys) && d in sys.devices
    ensures SysInv(sys.(devices := sys.devices[d := sys.devices[d].(running := running, syncReady := syncReady)]))
  {
    var k := DeviceAtOf(sys, d);
    var dev := sys.devices[d].(running := running, syncReady := syncReady);
    assert DeviceAt(sys.tables, sys.taken, sys.log, dev, k);
    LocalOk(sys, d, dev);
  }

  lemma LogStep(results: Results, log: seq<(Id, Id)>, key: (Id, Id), rec: Recorded)
    requires LogOk(results, log) && key !in results
    ensures LogOk(results[key := rec], log + [key])
  {
    forall i | 0 <= i < |log| ensures log[i] != key { assert log[i] in log; }
  }

  lemma SentRow<S>(sys: Sys<S>, d: Id, q: Request) returns (k: nat, i: nat)
    requires SysInv(sys) && d in sys.devices && q in sys.devices[d].sent
    ensures DeviceAt(sys.tables, sys.taken, sys.log, sys.devices[d], k)
    ensures i < |sys.devices[d].rows| && i <= k && q == RequestOf(sys.devices[d].rows[i])
  {
    k := DeviceAtOf(sys, d);
    var j :| 0 <= j < |sys.devices[d].rows| && j <= k && q == RequestOf(sys.devices[d].rows[j]);
    i := j;
  }

  lemma OthersServed<S>(sys: Sys<S>, d: Id, key: (Id, Id), rec: Recorded, business: S, e: Id)
    requires SysInv(sys) && d in sys.devices && e in sys.devices && e != d
    requires key.1 in IdSet(sys.devices[d].rows) && key !in sys.tables.results
    ensures DeviceOk(Tables(business, sys.tables.results[key := rec]), sys.taken, sys.log + [key], sys.devices[e])
  {
    assert DeviceOk(sys.tables, sys.taken, sys.log, sys.devices[e]);
    assert IdSet(sys.devices[d].rows) !! IdSet(sys.devices[e].rows);
    OtherCommit(sys.tables, sys.taken, sys.log, sys.devices[e], key, rec, business);
  }

  /** A first execution is recorded, logged and answered. */
  lemma FirstExecution<S>(sys: Sys<S>, d: Id, k: nat, outcome: Outcome<S>)
    requires SysInv(sys) && d in sys.devices && Final(outcome.ack)
    requires DeviceAt(sys.tables, sys.taken, sys.log, sys.devices[d], k) && k < |sys.devices[d].rows|
    requires outcome.ack.requestId == sys.devices[d].rows[k].id
    ensures var dev := sys.devices[d]; var row, key := dev.rows[k], (dev.user, dev.rows[k].id);
            var t := Tables(outcome.business, sys.tables.results[key := Recorded(row.op, row.payload, outcome.ack)]);
            && t.results.Keys != sys.tables.results.Keys
            && SysInv(Sys(t, sys.taken, sys.log + [key], sys.devices[d := dev.(replies := dev.replies + {outcome.ack})]))
  {
    var dev := sys.devices[d];
    var row, key := dev.rows[k], (dev.user, dev.rows[k].id);
    var rec := Recorded(row.op, row.payload, outcome.ack);
    var t := Tables(outcome.business, sys.tables.results[key := rec]);
    ServeCommit(sys.tables, sys.taken, sys.log, dev, k, outcome);
    FirstAlone(sys, d, k);
    LogStep(sys.tables.results, sys.log, key, rec);
    AllOthers(sys, d, key, rec, outcome.business);
    Reassemble(sys, t, sys.log + [key], d, dev.(replies := dev.replies + {outcome.ack}));
  }

  lemma FirstAlone<S>(sys: Sys<S>, d: Id, k: nat)
    requires SysInv(sys) && d in sys.devices && k < |sys.devices[d].rows|
    requires DeviceAt(sys.tables, sys.taken, sys.log, sys.devices[d], k)
    ensures var dev := sys.devices[d]; dev.rows[k].id in IdSet(dev.rows) && (dev.user, dev.rows[k].id) !in sys.tables.results
  {
    assert sys.devices[d].rows[k] in sys.devices[d].rows;
  }

  lemma AllOthers<S>(sys: Sys<S>, d: Id, key: (Id, Id), rec: Recorded, business: S)
    requires SysInv(sys) && d in sys.devices && key.1 in IdSet(sys.devices[d].rows) && key !in sys.tables.results
    ensures forall e :: e in sys.devices && e != d ==>
              DeviceOk(Tables(business, sys.tables.results[key := rec]), sys.taken, sys.log + [key], sys.devices[e])
  {
    forall e | e in sys.devices && e != d
      ensures DeviceOk(Tables(business, sys.tables.results[key := rec]), sys.taken, sys.log + [key], sys.devices[e])
    {
      OthersServed(sys, d, key, rec, business, e);
    }
  }

  lemma Reassemble<S>(sys: Sys<S>, t: Tables<S>, log: seq<(Id, Id)>, d: Id, dev: Device)
    requires d in sys.devices && LogOk(t.results, log) && ResultsOk(t.results) && Apart(sys.devices)
    requires IdSet(dev.rows) == IdSet(sys.devices[d].rows) && DeviceOk(t, sys.taken, log, dev)
    requires forall e :: e in sys.devices && e != d ==> DeviceOk(t, sys.taken, log, sys.devices[e])
    ensures SysInv(Sys(t, sys.taken, log, sys.devices[d := dev]))
  {
  }

  /** A repeated or transient execution only answers. */
  lemma Answered<S>(sys: Sys<S>, d: Id, k: nat, i: nat, outcome: Outcome<S>)
    requires SysInv(sys) && d in sys.devices && DeviceAt(sys.tables, sys.taken, sys.log, sys.devices[d], k)
    requires i < |sys.devices[d].rows| && i <= k && outcome.ack.requestId == sys.devices[d].rows[i].id
    requires (sys.devices[d].user, sys.devices[d].rows[i].id) in sys.tables.results || !Final(outcome.ack)
    ensures var dev := sys.devices[d]; var q := RequestOf(dev.rows[i]);
            var r := Execute(sys.tables, sys.taken, dev.user, q.id, q.op, q.payload, outcome);
            r.0 == sys.tables && SysInv(sys.(devices := sys.devices[d := dev.(replies := dev.replies + {r.1})]))
  {
    var dev := sys.devices[d];
    ServeShape(sys.tables, sys.taken, sys.log, dev, k, i, outcome);
    ServeOwn(sys.tables, sys.taken, sys.log, dev, k, i, outcome);
    var q := RequestOf(dev.rows[i]);
    var r := Execute(sys.tables, sys.taken, dev.user, q.id, q.op, q.payload, outcome);
    LocalOk(sys, d, dev.(replies := dev.replies + {r.1}));
  }

  lemma ServeStep<S>(sys: Sys<S>, d: Id, q: Request, outcome: Outcome<S>)
    requires SysInv(sys) && Can(sys, Serve(d, q, outcome))
    ensures SysInv(Do(sys, Serve(d, q, outcome)))
  {
    var dev := sys.devices[d];
    var k, i := SentRow(sys, d, q);
    ServeShape(sys.tables, sys.taken, sys.log, dev, k, i, outcome);
    if (dev.user, q.id) in sys.tables.results || !Final(outcome.ack) {
      Answered(sys, d, k, i, outcome);
    } else {
      FirstExecution(sys, d, k, outcome);
    }
  }

  lemma TakeFileStep<S>(sys: Sys<S>, user: Id, id: Id)
    requires SysInv(sys) && Can(sys, TakeFile(user, id))
    ensures SysInv(Do(sys, TakeFile(user, id)))
  {
    var more := sys.taken + {(user, id)};
    forall d | d in sys.devices ensures DeviceOk(sys.tables, more, sys.log, sys.devices[d]) {
      var k := DeviceAtOf(sys, d);
      forall r | r in sys.devices[d].rows ensures r.id != id { }
      assert DeviceAt(sys.tables, more, sys.log, sys.devices[d], k);
    }
  }

  lemma InstallStep<S>(sys: Sys<S>, d: Id, user: Id)
    requires SysInv(sys) && Can(sys, Install(d, user))
    ensures SysInv(Do(sys, Install(d, user)))
  {
    var dev := Device(user, [], false, false, {}, {});
    NoCommits(sys.log, user);
    assert IdSet(dev.rows) == {};
    assert DeviceAt(sys.tables, sys.taken, sys.log, dev, 0);
  }

  lemma {:induction false} NoCommits(log: seq<(Id, Id)>, user: Id)
    ensures Commits(log, user, {}) == []
    decreases |log|
  {
    if log != [] { NoCommits(log[..|log| - 1], user); }
  }

  lemma StepKeeps<S>(sys: Sys<S>, step: Step<S>)
    requires SysInv(sys) && Can(sys, step)
    ensures SysInv(Do(sys, step))
  {
    match step
    case Install(d, user) => InstallStep(sys, d, user);
    case Begin(d) => FlagsStep(sys, d, true, false);
    case Crash(d) => FlagsStep(sys, d, false, false);
    case Ready(d, ready) => FlagsStep(sys, d, sys.devices[d].running, ready);
    case Accept(d, id, op, conv, clientConvId, payload) => AcceptStep(sys, d, id, op, conv, clientConvId, payload);
    case Pump(d) => PumpStep(sys, d);
    case Serve(d, q, outcome) => ServeStep(sys, d, q, outcome);
    case Reply(d, ack) => ReplyStep(sys, d, ack);
    case TakeFile(user, id) => TakeFileStep(sys, user, id);
  }

  ghost predicate Runs<S>(sys: Sys<S>, steps: seq<Step<S>>)
    decreases steps
  {
    steps != [] ==> Can(sys, steps[0]) && Runs(Do(sys, steps[0]), steps[1..])
  }

  ghost function After<S>(sys: Sys<S>, steps: seq<Step<S>>): Sys<S>
    requires Runs(sys, steps)
    decreases steps
  {
    if steps == [] then sys else After(Do(sys, steps[0]), steps[1..])
  }

  lemma {:induction false} RunKeeps<S>(sys: Sys<S>, steps: seq<Step<S>>)
    requires SysInv(sys) && Runs(sys, steps)
    ensures SysInv(After(sys, steps))
    decreases steps
  {
    if steps != [] {
      StepKeeps(sys, steps[0]);
      RunKeeps(Do(sys, steps[0]), steps[1..]);
    }
  }

  function Initial<S>(business: S): Sys<S> { Sys(Tables(business, map[]), {}, [], map[]) }

  lemma Reaches<S>(business: S, steps: seq<Step<S>>)
    requires Runs(Initial(business), steps)
    ensures SysInv(After(Initial(business), steps))
  {
    RunKeeps(Initial(business), steps);
  }

  /** Each request is executed at most once. */
  lemma AtMostOnce<S>(business: S, steps: seq<Step<S>>, i: nat, j: nat)
    requires Runs(Initial(business), steps) && i < j < |After(Initial(business), steps).log|
    ensures After(Initial(business), steps).log[i] != After(Initial(business), steps).log[j]
  {
    Reaches(business, steps);
  }

  /** First executions of a device's writes follow its enqueue order without gaps. */
  lemma InEnqueueOrder<S>(business: S, steps: seq<Step<S>>, d: Id)
    requires Runs(Initial(business), steps) && d in After(Initial(business), steps).devices
    ensures var sys := After(Initial(business), steps); var dev := sys.devices[d];
            Commits(sys.log, dev.user, IdSet(dev.rows)) <= Ids(dev.rows)
  {
    Reaches(business, steps);
    var k := DeviceAtOf(After(Initial(business), steps), d);
  }

  /** A row is shown confirmed only if the server executed it with success, and failed only if the
      server recorded a lasting refusal. */
  lemma SettledMeansRecorded<S>(business: S, steps: seq<Step<S>>, d: Id, i: nat)
    requires Runs(Initial(business), steps)
    requires d in After(Initial(business), steps).devices && i < |After(Initial(business), steps).devices[d].rows|
    ensures var sys := After(Initial(business), steps); var dev := sys.devices[d]; var row := dev.rows[i];
            row.status != Pending ==>
              && (dev.user, row.id) in sys.tables.results && (dev.user, row.id) in sys.log
              && var rec := sys.tables.results[(dev.user, row.id)];
                 rec.op == row.op && rec.fingerprint == row.payload
                 && (if row.status == Confirmed then rec.ack.success else !rec.ack.success && !Retryable(rec.ack.code))
  {
    Reaches(business, steps);
    var k := DeviceAtOf(After(Initial(business), steps), d);
  }

  // ---------- nothing recorded is ever changed ----------

  ghost predicate Recorded1<S>(a: Sys<S>, b: Sys<S>) {
    && (forall x :: x in a.tables.results ==> x in b.tables.results && b.tables.results[x] == a.tables.results[x])
    && a.log <= b.log
  }

  lemma {:induction false} NeverRewritten<S>(sys: Sys<S>, steps: seq<Step<S>>)
    requires Runs(sys, steps)
    ensures Recorded1(sys, After(sys, steps))
    decreases steps
  {
    if steps != [] {
      var next := Do(sys, steps[0]);
      assert Recorded1(sys, next);
      NeverRewritten(next, steps[1..]);
    }
  }

  lemma {:induction false} DeviceStays<S>(sys: Sys<S>, steps: seq<Step<S>>, d: Id)
    requires Runs(sys, steps) && d in sys.devices
    ensures var late := After(sys, steps);
            d in late.devices && late.devices[d].user == sys.devices[d].user && sys.devices[d].sent <= late.devices[d].sent
    decreases steps
  {
    if steps != [] { DeviceStays(Do(sys, steps[0]), steps[1..], d); }
  }

  /** However late a duplicate of an executed request arrives and whatever executing it would do now,
      the tables stay as they are and the first answer is given again. */
  lemma LateDuplicate<S>(sys: Sys<S>, steps: seq<Step<S>>, d: Id, q: Request, outcome: Outcome<S>)
    requires SysInv(sys) && Runs(sys, steps) && d in sys.devices && q in sys.devices[d].sent
    requires (sys.devices[d].user, q.id) in sys.tables.results && outcome.ack.requestId == q.id
    ensures Can(After(sys, steps), Serve(d, q, outcome))
    ensures var late := After(sys, steps); var next := Do(late, Serve(d, q, outcome));
            && next.tables == late.tables && next.log == late.log
            && next.devices[d].replies == late.devices[d].replies + {sys.tables.results[(sys.devices[d].user, q.id)].ack}
  {
    var late := After(sys, steps);
    RunKeeps(sys, steps);
    NeverRewritten(sys, steps);
    DeviceStays(sys, steps, d);
    var k, i := SentRow(late, d, q);
    ServeShape(late.tables, late.taken, late.log, late.devices[d], k, i, outcome);
  }

  /** A settled row never changes again. */
  lemma {:induction false} SettledForGood<S>(sys: Sys<S>, steps: seq<Step<S>>, d: Id, i: nat)
    requires Runs(sys, steps) && d in sys.devices && i < |sys.devices[d].rows| && sys.devices[d].rows[i].status != Pending
    ensures var late := After(sys, steps);
            d in late.devices && i < |late.devices[d].rows| && late.devices[d].rows[i] == sys.devices[d].rows[i]
    decreases steps
  {
    if steps != [] {
      SettledStep(sys, steps[0], d, i);
      SettledForGood(Do(sys, steps[0]), steps[1..], d, i);
    }
  }

  lemma SettledStep<S>(sys: Sys<S>, step: Step<S>, d: Id, i: nat)
    requires Can(sys, step) && d in sys.devices && i < |sys.devices[d].rows| && sys.devices[d].rows[i].status != Pending
    ensures var next := Do(sys, step);
            d in next.devices && i < |next.devices[d].rows| && next.devices[d].rows[i] == sys.devices[d].rows[i]
  {
  }

  // ---------- a round that loses nothing ----------

  /** What the server does with the request of row i: the recorded answer again, or the body once. */
  function Ended<S>(t: Tables<S>, user: Id, row: Row, outcome: Outcome<S>): Tables<S> {
    if (user, row.id) in t.results then t
    else Tables(outcome.business, t.results[(user, row.id) := Recorded(row.op, row.payload, outcome.ack)])
  }

  lemma HeadAnswered<S>(t: Tables<S>, taken: set<(Id, Id)>, dev: Device, i: nat, k: nat, outcome: Outcome<S>)
    requires RowsOk(dev.user, dev.rows, taken) && Executed(dev.user, dev.rows, t.results, k) && i < |dev.rows| && Final(outcome.ack)
    ensures var row := dev.rows[i]; var r := Ended(t, dev.user, row, outcome);
            && (dev.user, row.id) in r.results
            && Execute(t, taken, dev.user, row.id, row.op, row.payload, outcome) == (r, r.results[(dev.user, row.id)].ack)
  {
    assert (dev.user, dev.rows[i].id) in t.results ==> i < k;
  }

  /** Pumped and served once, the head of the outbox is executed if it never was, and answered. */
  lemma HeadExecutes<S>(sys: Sys<S>, d: Id, outcome: Outcome<S>)
    requires SysInv(sys) && d in sys.devices && sys.devices[d].running && sys.devices[d].syncReady
    requires Head(sys.devices[d].rows) < |sys.devices[d].rows| && Final(outcome.ack)
    requires outcome.ack.requestId == sys.devices[d].rows[Head(sys.devices[d].rows)].id
    ensures var dev := sys.devices[d]; var row := dev.rows[Head(dev.rows)]; var key := (dev.user, row.id);
            var sent := Do(sys, Pump(d));
            && Can(sent, Serve(d, RequestOf(row), outcome))
            && var served := Do(sent, Serve(d, RequestOf(row), outcome));
            && served.tables == Ended(sys.tables, dev.user, row, outcome)
            && served.log == sys.log + (if key in sys.tables.results then [] else [key])
            && served.devices[d] == sent.devices[d].(replies := dev.replies + {served.tables.results[key].ack})
  {
    var dev := sys.devices[d];
    var k := DeviceAtOf(sys, d);
    var row := dev.rows[Head(dev.rows)];
    HeadAnswered(sys.tables, sys.taken, dev, Head(dev.rows), k, outcome);
    var sent := Do(sys, Pump(d));
    assert sent.devices[d] == Pumped(dev) && sent.tables == sys.tables && sent.taken == sys.taken && sent.log == sys.log;
    assert RequestOf(row) in Pumped(dev).sent;
    var t := Ended(sys.tables, dev.user, row, outcome);
    if (dev.user, row.id) !in sys.tables.results { assert (dev.user, row.id) in t.results.Keys; }
  }

  /** The answer settles exactly the head, unless it is a success that names no entity, which stops the client. */
  lemma HeadSettles(dev: Device, a: Ack)
    requires dev.running && Head(dev.rows) < |dev.rows| && Final(a) && a.requestId == dev.rows[Head(dev.rows)].id
    requires forall i, j :: 0 <= i < j < |dev.rows| ==> dev.rows[i].id != dev.rows[j].id
    ensures var i := Head(dev.rows); var next := Replied(dev, a);
            if a.success && a.entity == "" then !next.running && next.rows == dev.rows
            else next.running && next.rows == dev.rows[i := Settled(dev.rows[i], a)] && Head(next.rows) > i
  {
    var i, next := Head(dev.rows), Replied(dev, a);
    assert dev.rows[i] in dev.rows;
    if !(a.success && a.entity == "") {
      assert next.rows == dev.rows[i := Settled(dev.rows[i], a)];
    }
  }

  // ---------- the business tables follow the log ----------

  /** The first executions of a run, in order: which request, and the tables its callback left. */
  ghost function Writes<S>(sys: Sys<S>, steps: seq<Step<S>>): seq<((Id, Id), S)>
    requires Runs(sys, steps)
    decreases steps
  {
    if steps == [] then [] else WritesOf(sys, steps[0]) + Writes(Do(sys, steps[0]), steps[1..])
  }

  ghost function WritesOf<S>(sys: Sys<S>, step: Step<S>): seq<((Id, Id), S)>
    requires Can(sys, step)
  {
    var next := Do(sys, step);
    if next.log == sys.log then [] else [(next.log[|next.log| - 1], step.outcome.business)]
  }

  function Keys<S>(writes: seq<((Id, Id), S)>): seq<(Id, Id)> { seq(|writes|, i requires 0 <= i < |writes| => writes[i].0) }

  lemma KeysJoin<S>(log: seq<(Id, Id)>, a: seq<((Id, Id), S)>, b: seq<((Id, Id), S)>)
    ensures log + Keys(a) + Keys(b) == log + Keys(a + b)
  {
    assert Keys(a) + Keys(b) == Keys(a + b);
  }

  function LastOr<S>(writes: seq<((Id, Id), S)>, business: S): S {
    if writes == [] then business else writes[|writes| - 1].1
  }

  lemma LogGrows<S>(sys: Sys<S>, step: Step<S>)
    requires Can(sys, step)
    ensures var next, writes := Do(sys, step), WritesOf(sys, step);
            next.log == sys.log + Keys(writes) && next.tables.business == LastOr(writes, sys.tables.business)
  {
    if step.Serve? {
      var dev, q := sys.devices[step.d], step.request;
      var r := Execute(sys.tables, sys.taken, dev.user, q.id, q.op, q.payload, step.outcome);
      var key := (dev.user, q.id);
      if key !in sys.tables.results && key in r.0.results { assert key in r.0.results.Keys; }
    }
  }

  /** Over any run the business tables change exactly at the logged executions, each time to what that
      request's callback left: retries, duplicates, transient failures and crashes leave no trace. */
  lemma {:induction false} BusinessFollowsLog<S>(sys: Sys<S>, steps: seq<Step<S>>)
    requires Runs(sys, steps)
    ensures After(sys, steps).log == sys.log + Keys(Writes(sys, steps))
    ensures After(sys, steps).tables.business == LastOr(Writes(sys, steps), sys.tables.business)
    decreases steps
  {
    if steps == [] {
      assert sys.log + Keys<S>([]) == sys.log;
    } else {
      LogGrows(sys, steps[0]);
      BusinessFollowsLog(Do(sys, steps[0]), steps[1..]);
      KeysJoin(sys.log, WritesOf(sys, steps[0]), Writes(Do(sys, steps[0]), steps[1..]));
    }
  }
}
