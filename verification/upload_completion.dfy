/** An attempt nobody disturbs completes the upload, whatever crashed before it. */
module UploadCompletion {
  import opened SyncEvents
  import opened Transfers
  import opened UploadSystem

  // ---------- the attempt, step by step ----------

  function Rounds(waiting: nat): nat
    decreases waiting
  {
    if waiting == 0 then 0 else 1 + Rounds(waiting - Min(COMMIT_BYTES, waiting))
  }

  /** The flush loop, n chunks long. */
  function Flushes(source: Bytes, u: Upload, key: (nat, nat), now: int, n: nat): Upload
    decreases n
  {
    if n == 0 then u else Flushes(source, Do(source, u, Flush(key.0, key.1, Commits, now)), key, now, n - 1)
  }

  /** file_init and its answer's offset, the stream from there to the end, the flushes and file_finish. */
  function Opened(source: Bytes, u: Upload, key: (nat, nat), identity: Identity, priority: int, timeout: nat, now: int): Upload {
    var granted := Do(source, u, InitFile(key.0, identity, priority, timeout, now, true));
    if granted.row.None? then granted else
      var bound := Do(source, granted, Bind(key.0, key.1, granted.row.value.received));
      Do(source, bound, Data(key.0, key.1, |source|))
  }

  function Attempt(source: Bytes, u: Upload, key: (nat, nat), identity: Identity, priority: int, timeout: nat, now: int): Upload {
    var begun := Opened(source, u, key, identity, priority, timeout, now);
    if key !in begun.streams then begun else
      var flushed := Flushes(source, begun, key, now, Rounds(|begun.streams[key].buffer|));
      Do(source, flushed, FinishFile(key.0, true, now, true))
  }

  // ---------- where each step stands ----------

  /** The stream holds the whole rest of the source, and the current lease is its own. */
  ghost predicate Receiving(source: Bytes, u: Upload, key: (nat, nat), identity: Identity) {
    && Live(u, key) && u.granted[u.streams[key].lease].owner == key.0
    && u.row.value.identity == identity && |u.disk| == u.row.value.received
    && u.row.value.received + |u.streams[key].buffer| == |source| == identity.size
    && !u.cancelled
  }

  lemma FlushFrame(source: Bytes, u: Upload, key: (nat, nat), identity: Identity, now: int)
    requires Inv(source, u) && Receiving(source, u, key, identity) && u.streams[key].buffer != []
    ensures var r := Do(source, u, Flush(key.0, key.1, Commits, now)); var n := Min(COMMIT_BYTES, |u.streams[key].buffer|);
            Inv(source, r) && Receiving(source, r, key, identity) && r.messages == u.messages
            && |r.streams[key].buffer| == |u.streams[key].buffer| - n
  {
    assert key == (key.0, key.1);
    MessagesStay(source, u, Flush(key.0, key.1, Commits, now));
    CommitOk(source, u, key, Commits, now);
  }

  lemma {:induction false} FlushesReach(source: Bytes, u: Upload, key: (nat, nat), identity: Identity, now: int)
    requires Inv(source, u) && Receiving(source, u, key, identity)
    ensures var r := Flushes(source, u, key, now, Rounds(|u.streams[key].buffer|));
            Inv(source, r) && Receiving(source, r, key, identity) && r.streams[key].buffer == [] && r.messages == u.messages
    decreases |u.streams[key].buffer|
  {
    if u.streams[key].buffer != [] {
      FlushFrame(source, u, key, identity, now);
      FlushesReach(source, Do(source, u, Flush(key.0, key.1, Commits, now)), key, identity, now);
    }
  }

  lemma InitGrants(source: Bytes, u: Upload, conn: nat, identity: Identity, priority: int, timeout: nat, now: int)
    requires Inv(source, u) && identity.isUpload && identity.size > 0 && !u.cancelled
    requires u.row.Some? ==> u.row.value.identity == identity && u.row.value.status != Completed
    ensures var r := Do(source, u, InitFile(conn, identity, priority, timeout, now, true));
            && Inv(source, r) && r.row.Some? && r.row.value.identity == identity && |r.disk| == r.row.value.received
            && r.current == Some(|u.granted|) && |r.granted| == |u.granted| + 1
            && r.granted[|u.granted|] == Lease(conn, r.row.value.received, None)
            && r.streams == u.streams && !r.cancelled && Unfinished(r.row.value.status) && r.messages == u.messages
  {
    MessagesStay(source, u, InitFile(conn, identity, priority, timeout, now, true));
    var c := CreateOrResume(u.row, identity, priority, timeout, now);
    ResumeShape(u.row, identity, priority, timeout, now);
    ReconcileFrame(u, c.value.0, c.value.1, now);
    ReconcileMeets(source, u, c.value.0, c.value.1, now);
    InitOk(source, u, InitFile(conn, identity, priority, timeout, now, true));
  }

  lemma BindBinds(source: Bytes, u: Upload, key: (nat, nat), identity: Identity)
    requires Inv(source, u) && key !in u.streams && u.row.Some? && u.row.value.identity == identity && Unfinished(u.row.value.status)
    requires u.current.Some? && u.granted[u.current.value] == Lease(key.0, u.row.value.received, None)
    ensures var r := Do(source, u, Bind(key.0, key.1, u.row.value.received));
            && Inv(source, r) && key in r.streams && Live(r, key) && r.streams[key] == Stream([], u.current.value, u.row.value.received, 0)
            && r.granted[u.current.value].owner == key.0
            && r == u.(granted := r.granted, streams := r.streams)
  {
    assert key == (key.0, key.1);
    BindOk(source, u, key.0, key.1, u.row.value.received);
  }

  lemma DataArrives(source: Bytes, u: Upload, key: (nat, nat), identity: Identity)
    requires Inv(source, u) && key in u.streams && Live(u, key) && u.granted[u.streams[key].lease].owner == key.0
    requires u.row.value.identity == identity && |u.disk| == u.row.value.received && !u.cancelled && identity.size == |source|
    requires u.streams[key].buffer == [] && u.streams[key].got == 0 && u.streams[key].start == u.row.value.received
    ensures var r := Do(source, u, Data(key.0, key.1, |source|));
            Inv(source, r) && Receiving(source, r, key, identity) && r.messages == u.messages
  {
    MessagesStay(source, u, Data(key.0, key.1, |source|));
    assert key == (key.0, key.1);
    DataOk(source, u, key.0, key.1, |source|);
    var from := u.row.value.received;
    var arrived := Arrived(source, u.streams[key], |source|);
    assert arrived == source[from..];
    var r := Extended(u, key, arrived);
    assert r.streams[key].buffer == arrived;
  }

  lemma OpenedReceives(source: Bytes, u: Upload, key: (nat, nat), identity: Identity, priority: int, timeout: nat, now: int)
    requires Inv(source, u) && identity.isUpload && identity.size == |source| > 0 && !u.cancelled && key !in u.streams
    requires u.row.Some? ==> u.row.value.identity == identity && u.row.value.status != Completed
    ensures var r := Opened(source, u, key, identity, priority, timeout, now);
            Inv(source, r) && Receiving(source, r, key, identity) && r.messages == u.messages
  {
    InitGrants(source, u, key.0, identity, priority, timeout, now);
    var granted := Do(source, u, InitFile(key.0, identity, priority, timeout, now, true));
    BindBinds(source, granted, key, identity);
    DataArrives(source, Do(source, granted, Bind(key.0, key.1, granted.row.value.received)), key, identity);
  }

  lemma FinishCompletes(source: Bytes, u: Upload, key: (nat, nat), identity: Identity, now: int)
    requires Inv(source, u) && Receiving(source, u, key, identity) && u.streams[key].buffer == [] && identity.digest == source
    ensures var r := Do(source, u, FinishFile(key.0, true, now, true));
            Inv(source, r) && r.row.Some? && r.row.value.status == Completed && r.row.value.received == |source|
            && r.messages == (if u.messages == [] then [FileMessage(identity)] else u.messages) && r.disk == source
  {
    assert u.disk[..|source|] == source[..|source|] && u.disk[..|source|] == u.disk && source[..|source|] == source;
    FinishOk(source, u, true, now);
  }

  /** From every reachable state of an upload that is neither completed nor cancelled, one attempt on a
      new stream completes it with the client's whole file, and publishes the file's note exactly if
      no message has taken its id. */
  lemma AttemptCompletes(source: Bytes, u: Upload, key: (nat, nat), identity: Identity, priority: int, timeout: nat, now: int)
    requires Reachable(source, u) && !u.cancelled && key !in u.streams
    requires identity.isUpload && identity.size == |source| > 0 && identity.digest == source
    requires u.row.Some? ==> u.row.value.identity == identity && u.row.value.status != Completed
    ensures var r := Attempt(source, u, key, identity, priority, timeout, now);
            Inv(source, r) && r.row.Some? && r.row.value.status == Completed && r.row.value.received == |source|
            && r.messages == (if u.messages == [] then [FileMessage(identity)] else u.messages) && r.disk == source
  {
    ReachableInv(source, u);
    OpenedReceives(source, u, key, identity, priority, timeout, now);
    var begun := Opened(source, u, key, identity, priority, timeout, now);
    FlushesReach(source, begun, key, identity, now);
    FinishCompletes(source, Flushes(source, begun, key, now, Rounds(|begun.streams[key].buffer|)), key, identity, now);
  }

  /** What a finish request does to an unfinished upload, by what is on disk. */
  lemma FinishVerdict(source: Bytes, u: Upload, conn: nat, success: bool, now: int)
    requires Inv(source, u) && u.row.Some? && !Settled(u.row.value.status)
    requires u.current.Some? ==> u.granted[u.current.value].owner == conn
    ensures var r := Do(source, u, FinishFile(conn, success, now, true)); var row := u.row.value;
            && r.row.Some? && r.disk == u.disk
            && (r.row.value.status == Completed <==> success && row.received == row.identity.size == |u.disk| && u.disk == row.identity.digest)
            && (success && row.received != row.identity.size ==> r == u)
            && (success && row.received == row.identity.size && u.disk != row.identity.digest ==>
                  r.row.value.received == 0 && r.row.value.status == FailedIntegrity && r.current == None)
            && (!success ==> r.row.value.status == Failed && r.row.value.received == row.received && r.current == None)
  {
  }

  // ---------- an attempt is part of a run ----------

  lemma {:induction false} FlushesReachable(source: Bytes, u: Upload, key: (nat, nat), now: int, n: nat)
    requires Reachable(source, u)
    ensures Reachable(source, Flushes(source, u, key, now, n))
    decreases n
  {
    if n > 0 {
      ReachesNext(source, u, Flush(key.0, key.1, Commits, now));
      FlushesReachable(source, Do(source, u, Flush(key.0, key.1, Commits, now)), key, now, n - 1);
    }
  }

  lemma AttemptReachable(source: Bytes, u: Upload, key: (nat, nat), identity: Identity, priority: int, timeout: nat, now: int)
    requires Reachable(source, u)
    ensures Reachable(source, Attempt(source, u, key, identity, priority, timeout, now))
  {
    OpenedReachable(source, u, key, identity, priority, timeout, now);
    var begun := Opened(source, u, key, identity, priority, timeout, now);
    if key in begun.streams {
      var n := Rounds(|begun.streams[key].buffer|);
      FlushesReachable(source, begun, key, now, n);
      ReachesNext(source, Flushes(source, begun, key, now, n), FinishFile(key.0, true, now, true));
    }
  }

  lemma OpenedReachable(source: Bytes, u: Upload, key: (nat, nat), identity: Identity, priority: int, timeout: nat, now: int)
    requires Reachable(source, u)
    ensures Reachable(source, Opened(source, u, key, identity, priority, timeout, now))
  {
    var granted := Do(source, u, InitFile(key.0, identity, priority, timeout, now, true));
    ReachesNext(source, u, InitFile(key.0, identity, priority, timeout, now, true));
    if granted.row.Some? {
      var bound := Do(source, granted, Bind(key.0, key.1, granted.row.value.received));
      ReachesNext(source, granted, Bind(key.0, key.1, granted.row.value.received));
      ReachesNext(source, bound, Data(key.0, key.1, |source|));
    }
  }

  /** The failing family: whatever the file, a text sent first under the reserved id leaves the upload
      completed, its bytes in place, and its file message never written. */
  lemma SquattedUpload(source: Bytes, text: string, key: (nat, nat), identity: Identity, priority: int, timeout: nat, now: int)
    requires identity.isUpload && identity.size == |source| > 0 && identity.digest == source
    ensures var u := Attempt(source, Do(source, NEW_UPLOAD, Squat(text)), key, identity, priority, timeout, now);
            Reachable(source, u) && IsCompleted(u) && u.disk == source && u.messages == [Ordinary(text)]
  {
    assert Runs(source, NEW_UPLOAD, []) && After(source, NEW_UPLOAD, []) == NEW_UPLOAD;
    ReachesNext(source, NEW_UPLOAD, Squat(text));
    var u := Do(source, NEW_UPLOAD, Squat(text));
    AttemptCompletes(source, u, key, identity, priority, timeout, now);
    AttemptReachable(source, u, key, identity, priority, timeout, now);
  }
}
