/** One upload across crashes, takeovers and late stream data: disk bytes, the transfer row, the
    lease table and the stream buffers are four copies of one position. */
module UploadSystem {
  import opened SyncEvents
  import opened Transfers

  type Bytes = seq<bv8>

  /** Leases are never reused; `stream` is set once. */
  datatype Lease = Lease(owner: nat, offset: nat, stream: Option<nat>)

  /** `start` is the offset the stream was bound at and `got` the bytes it has delivered since. */
  datatype Stream = Stream(buffer: Bytes, lease: nat, start: nat, got: nat)

  /** A message with the upload's reserved client id: the note that completion writes about the file,
      or whatever the user sent under that id, a copy of such a note included. */
  datatype Posted = FileMessage(identity: Identity) | Ordinary(text: string)

  /** `granted` lists every lease ever granted and `current` is the index of the valid one; `messages`
      lists the messages with the reserved client id and `events` the versions announced; `tampered`
      says the file shrank after completion. */
  datatype Upload = Upload(disk: Bytes, row: Option<Transfer>, cancelled: bool, messages: seq<Posted>, events: seq<nat>,
                           granted: seq<Lease>, current: Option<nat>, streams: map<(nat, nat), Stream>, tampered: bool)

  const NEW_UPLOAD: Upload := Upload([], None, false, [], [], [], None, map[], false)

  const COMMIT_BYTES: nat := 65536

  /** How one storage operation ends. */
  datatype Ending = Commits | Fails(written: nat)

  datatype Step =
    | InitFile(conn: nat, identity: Identity, priority: int, timeout: nat, now: int, commits: bool)
    | Bind(conn: nat, id: nat, offset: nat)
    | Data(conn: nat, id: nat, count: nat)
    | Flush(conn: nat, id: nat, ending: Ending, now: int)
    | EndStream(conn: nat, id: nat)
    | Discard(conn: nat, id: nat)
    | Reset(conn: nat, id: nat)
    | Lost(conn: nat)
    | FinishFile(conn: nat, success: bool, now: int, commits: bool)
    | CancelFile(now: int, commits: bool)
    | Squat(text: string)
    | Crash(tail: Bytes)
    | Truncate(length: nat)

  // ---------- pieces ----------

  function Min(a: nat, b: nat): nat { if a < b then a else b }

  predicate Bound(u: Upload, key: (nat, nat)) {
    key in u.streams && u.streams[key].lease < |u.granted|
  }

  /** _upload_transfer: the stream's lease is the current one and agrees with the stored row. */
  predicate Live(u: Upload, key: (nat, nat)) {
    && Bound(u, key) && u.current == Some(u.streams[key].lease)
    && u.row.Some? && u.row.value.identity.isUpload && Unfinished(u.row.value.status)
    && u.row.value.received == u.granted[u.streams[key].lease].offset
  }

  /** release_owner(conn, id). */
  function ReleaseStream(u: Upload, conn: nat, id: nat): Upload {
    if u.current.Some? && u.current.value < |u.granted| && u.granted[u.current.value].owner == conn
       && u.granted[u.current.value].stream == Some(id)
    then u.(current := None) else u
  }

  function ReleaseOwner(u: Upload, conn: nat): Upload {
    if u.current.Some? && u.current.value < |u.granted| && u.granted[u.current.value].owner == conn
    then u.(current := None) else u
  }

  function DropStream(u: Upload, key: (nat, nat)): Upload { u.(streams := u.streams - {key}) }

  function Reject(u: Upload, key: (nat, nat)): Upload { ReleaseStream(DropStream(u, key), key.0, key.1) }

  /** The next bytes of the client's file on a stream. */
  function Arrived(source: Bytes, s: Stream, count: nat): Bytes {
    var from := Min(s.start + s.got, |source|);
    source[from..Min(from + count, |source|)]
  }

  function Extended(u: Upload, key: (nat, nat), arrived: Bytes): Upload
    requires key in u.streams
  {
    var s := u.streams[key];
    u.(streams := u.streams[key := s.(buffer := s.buffer + arrived, got := s.got + |arrived|)])
  }

  predicate TooLong(u: Upload, key: (nat, nat))
    requires Live(u, key)
  {
    u.granted[u.streams[key].lease].offset + |u.streams[key].buffer| > u.row.value.identity.size
  }

  /** Every stream of the connection is cleared and its lease released. */
  function DropConnection(u: Upload, conn: nat): Upload {
    ReleaseOwner(u.(streams := map k | k in u.streams && k.0 != conn :: u.streams[k]), conn)
  }

  function Announced(u: Upload, row: Transfer, changed: bool): Upload {
    u.(row := Some(row), events := if changed then u.events + [row.version] else u.events)
  }

  /** _reconcile_upload: cut the file back to what both the disk and the row have. */
  function Reconciled(u: Upload, row: Transfer, changed: bool, now: int): Upload {
    var offset := Min(Min(|u.disk|, row.received), row.identity.size);
    var cut := Announced(u, row, changed).(disk := u.disk[..offset]);
    var r := Rewind(row, offset, false, now);
    if r.None? then cut else Announced(cut, r.value.0, r.value.1)
  }

  /** append_file_chunk and what the flush loop does with its outcome. */
  function Flushed(u: Upload, key: (nat, nat), ending: Ending, now: int): Upload
    requires Live(u, key)
  {
    var s := u.streams[key];
    var row := u.row.value;
    var chunk := s.buffer[..Min(COMMIT_BYTES, |s.buffer|)];
    if chunk == [] then u
    else if row.received + |chunk| > row.identity.size then Reject(u, key)
    else if |u.disk| != row.received then DropConnection(u, key.0)
    else if ending.Fails? then DropConnection(u.(disk := u.disk + chunk[..Min(ending.written, |chunk|)]), key.0)
    else
      var r := ApplyProgress(row, row.received + |chunk|, now);
      if r.None? then DropConnection(u.(disk := u.disk + chunk), key.0) else
        var written := Announced(u.(disk := u.disk + chunk), r.value.0, r.value.1);
        written.(granted := u.granted[s.lease := u.granted[s.lease].(offset := row.received + |chunk|)],
                 streams := u.streams[key := s.(buffer := s.buffer[|chunk|..])])
  }

  /** _verify_file_sha256: right length and right digest; a digest stands for the content it names. */
  predicate Verified(disk: Bytes, identity: Identity) { |disk| == identity.size && disk == identity.digest }

  /** A message under the reserved id is added only if there is none: _append_file_message looks first,
      and so does an ordinary send. */
  function Publish(u: Upload, message: Posted): Upload {
    if u.messages == [] then u.(messages := [message]) else u
  }

  /** _apply_file_finish for an upload. */
  function Finished(u: Upload, row: Transfer, success: bool, now: int): Upload {
    if row.status == Cancelled then u
    else if success && row.status != Completed && row.received != row.identity.size then u
    else if success && row.status != Completed && !Verified(u.disk, row.identity) then
      var r := Rewind(row, 0, true, now);
      if r.None? then u else Announced(u, r.value.0, r.value.1).(current := None)
    else
      var r := ApplyFinish(row, success, now);
      var after := Announced(u, r.0, r.1).(current := None);
      if success && r.0.status == Completed then Publish(after, FileMessage(row.identity)) else after
  }

  ghost predicate Can(u: Upload, step: Step) {
    match step
    case Truncate(length) => length <= |u.disk|
    // Only an interrupted append leaves bytes behind, and it starts where the row ends.
    case Crash(tail) => tail != [] && u.row.Some? ==> |u.disk| >= u.row.value.received
    case _ => true
  }

  /** `source` is the client's file: an honest stream bound at an offset carries the source from there. */
  function Do(source: Bytes, u: Upload, step: Step): Upload
    requires Can(u, step)
  {
    match step
    case InitFile(conn, identity, priority, timeout, now, commits) =>
      if u.cancelled || !identity.isUpload || identity.size == 0 then u else
        var r := CreateOrResume(u.row, identity, priority, timeout, now);
        if r.None? then u
        else if r.value.0.status == Completed then u
        else
          var repaired := Reconciled(u, r.value.0, r.value.1, now);
          if !commits then u.(disk := repaired.disk)
          else repaired.(granted := u.granted + [Lease(conn, repaired.row.value.received, None)], current := Some(|u.granted|))
    case Bind(conn, id, offset) =>
      if (conn, id) in u.streams then u
      else if u.current.Some? && u.current.value < |u.granted|
              && u.granted[u.current.value] == Lease(conn, offset, None) then
        u.(granted := u.granted[u.current.value := Lease(conn, offset, Some(id))],
           streams := u.streams[(conn, id) := Stream([], u.current.value, offset, 0)])
      else Reject(u, (conn, id))
    case Data(conn, id, count) =>
      if (conn, id) !in u.streams then u else
        var s := u.streams[(conn, id)];
        var extended := Extended(u, (conn, id), Arrived(source, s, count));
        if !Live(extended, (conn, id)) || TooLong(extended, (conn, id)) then Reject(extended, (conn, id)) else extended
    case Flush(conn, id, ending, now) =>
      if (conn, id) !in u.streams then u
      else if !Live(u, (conn, id)) then Reject(u, (conn, id))
      else Flushed(u, (conn, id), ending, now)
    case EndStream(conn, id) =>
      if !Bound(u, (conn, id)) then DropStream(u, (conn, id)) else
        var s := u.streams[(conn, id)];
        var ended := DropStream(u, (conn, id));
        if u.row.Some? && u.granted[s.lease].offset != u.row.value.identity.size && u.current == Some(s.lease)
        then ended.(current := None) else ended
    case Discard(conn, id) => DropStream(u, (conn, id))
    case Reset(conn, id) => Reject(u, (conn, id))
    case Lost(conn) => DropConnection(u, conn)
    case FinishFile(conn, success, now, commits) =>
      if u.current.Some? && u.current.value < |u.granted| && u.granted[u.current.value].owner != conn then u
      else if u.row.None? || !commits then u
      else Finished(u, u.row.value, success, now)
    case CancelFile(now, commits) =>
      if !commits then u
      else if u.row.None? then u.(cancelled := true)
      else
        var r := CancelTransfer(u.row.value, now);
        if r.None? then u else Announced(u, r.value.0, r.value.1).(cancelled := true, current := None, streams := map[])
    case Squat(text) => Publish(u, Ordinary(text))
    case Crash(tail) =>
      var kept := if u.row.Some? && u.row.value.status != Completed then Min(|u.disk|, u.row.value.received) else |u.disk|;
      u.(disk := if u.row.Some? && u.row.value.status == Completed then u.disk else u.disk[..kept] + tail,
         granted := [], current := None, streams := map[])
    case Truncate(length) =>
      u.(disk := u.disk[..length],
         tampered := u.tampered || (u.row.Some? && u.row.value.status == Completed && length < |u.disk|))
  }

  // ---------- the invariant ----------

  /** The bytes both the disk and an unfinished row vouch for are the source's. */
  ghost predicate PrefixOk(source: Bytes, disk: Bytes, received: nat) {
    received <= |source| && disk[..Min(|disk|, received)] == source[..Min(|disk|, received)]
  }

  ghost predicate ContentOk(source: Bytes, disk: Bytes, row: Option<Transfer>, tampered: bool) {
    && (tampered ==> row.Some? && row.value.status == Completed)
    && (row.Some? ==>
      && RowOk(row.value) && row.value.identity.isUpload
      && (row.value.status != Completed ==> PrefixOk(source, disk, row.value.received))
      && (row.value.status == Completed ==> disk <= row.value.identity.digest <= source && (!tampered ==> disk == row.value.identity.digest)))
  }

  ghost predicate LeaseOk(row: Option<Transfer>, granted: seq<Lease>, current: Option<nat>) {
    current.Some? ==>
      current.value < |granted| && row.Some? && Unfinished(row.value.status)
      && granted[current.value].offset == row.value.received
  }

  /** What a stream of the current lease still holds is exactly what follows the committed bytes. */
  ghost predicate StreamOk(source: Bytes, granted: seq<Lease>, current: nat, key: (nat, nat), s: Stream)
    requires current < |granted|
  {
    var lease := granted[current];
    && lease.owner == key.0 && lease.stream == Some(key.1)
    && s.start + s.got == lease.offset + |s.buffer| <= |source|
    && s.buffer == source[lease.offset..lease.offset + |s.buffer|]
  }

  ghost predicate StreamsOk(source: Bytes, granted: seq<Lease>, current: Option<nat>, streams: map<(nat, nat), Stream>) {
    forall k :: k in streams ==>
      && streams[k].lease < |granted|
      && (current == Some(streams[k].lease) ==> StreamOk(source, granted, streams[k].lease, k, streams[k]))
  }

  predicate Rising(events: seq<nat>) { forall i, j :: 0 <= i < j < |events| ==> events[i] < events[j] }

  ghost predicate EventsOk(events: seq<nat>, row: Option<Transfer>) {
    Rising(events) && if row.None? then events == [] else forall v :: v in events ==> v <= row.value.version
  }

  predicate IsCompleted(u: Upload) { u.row.Some? && u.row.value.status == Completed }

  ghost predicate OutcomeOk(u: Upload) {
    && |u.messages| <= 1
    && (IsCompleted(u) ==> u.messages != [])
    && (forall m :: m in u.messages && m.FileMessage? ==> IsCompleted(u) && m.identity == u.row.value.identity)
    && (u.row.Some? ==> (u.cancelled <==> u.row.value.status == Cancelled))
  }

  ghost predicate Inv(source: Bytes, u: Upload) {
    && ContentOk(source, u.disk, u.row, u.tampered)
    && LeaseOk(u.row, u.granted, u.current)
    && StreamsOk(source, u.granted, u.current, u.streams)
    && EventsOk(u.events, u.row)
    && OutcomeOk(u)
  }

  // ---------- pieces keep it ----------

  lemma DropOk(source: Bytes, u: Upload, key: (nat, nat))
    requires Inv(source, u)
    ensures Inv(source, DropStream(u, key)) && Inv(source, Reject(u, key))
  {
  }

  lemma ConnectionOk(source: Bytes, u: Upload, conn: nat)
    requires Inv(source, u)
    ensures Inv(source, DropConnection(u, conn))
  {
  }

  lemma EventStep(events: seq<nat>, row: Option<Transfer>, after: Transfer, changed: bool)
    requires EventsOk(events, row) && (row.Some? ==> if changed then row.value.version < after.version else after.version == row.value.version)
    ensures EventsOk(if changed then events + [after.version] else events, Some(after))
  {
    var more := if changed then events + [after.version] else events;
    forall i, j | 0 <= i < j < |more| ensures more[i] < more[j] {
      if j == |events| { assert events[i] in events; }
    }
  }

  /** Bytes beyond what the row vouches for may be anything. */
  lemma TailOk(source: Bytes, disk: Bytes, received: nat, tail: Bytes)
    requires PrefixOk(source, disk, received) && (tail != [] ==> |disk| >= received)
    ensures PrefixOk(source, disk[..Min(|disk|, received)] + tail, received) && PrefixOk(source, disk + tail, received)
  {
    var kept := disk[..Min(|disk|, received)];
    assert (kept + tail)[..Min(|kept + tail|, received)] == kept;
    assert (disk + tail)[..Min(|disk + tail|, received)] == kept;
  }

  lemma CutOk(source: Bytes, disk: Bytes, received: nat, cut: nat)
    requires PrefixOk(source, disk, received) && cut <= |disk|
    ensures PrefixOk(source, disk[..cut], received)
  {
    var m := Min(cut, received);
    assert disk[..cut][..m] == disk[..Min(|disk|, received)][..m];
    assert source[..Min(|disk|, received)][..m] == source[..m];
  }

  // ---------- initialisation and reconciliation ----------

  /** After reconciliation the file is exactly as long as the row says, and both agree with the source. */
  lemma ReconcileMeets(source: Bytes, u: Upload, row: Transfer, changed: bool, now: int)
    requires RowOk(row) && row.identity.isUpload && Unfinished(row.status) && PrefixOk(source, u.disk, row.received)
    ensures var r := Reconciled(u, row, changed, now);
            && r.row.Some? && RowOk(r.row.value) && Unfinished(r.row.value.status) && r.row.value.identity == row.identity
            && |r.disk| == r.row.value.received && PrefixOk(source, r.disk, r.row.value.received)
            && r.row.value.version >= row.version && (r.row.value.version == row.version ==> r.row.value == row)
  {
    var offset := Min(Min(|u.disk|, row.received), row.identity.size);
    CutOk(source, u.disk, row.received, offset);
    assert PrefixOk(source, u.disk[..offset], offset);
  }

  lemma ReconcileEvents(u: Upload, was: Option<Transfer>, row: Transfer, changed: bool, now: int)
    requires EventsOk(u.events, was) && row.identity.isUpload
    requires was.Some? ==> if changed then was.value.version < row.version else row == was.value
    requires was.None? ==> changed
    ensures var r := Reconciled(u, row, changed, now); EventsOk(r.events, r.row)
  {
    var offset := Min(Min(|u.disk|, row.received), row.identity.size);
    var cut := Announced(u, row, changed).(disk := u.disk[..offset]);
    EventStep(u.events, was, row, changed);
    var r := Rewind(row, offset, false, now);
    if r.Some? { EventStep(cut.events, cut.row, r.value.0, r.value.1); }
  }

  lemma ReconcileFrame(u: Upload, row: Transfer, changed: bool, now: int)
    ensures var r := Reconciled(u, row, changed, now);
            r == u.(disk := r.disk, row := r.row, events := r.events)
    ensures Reconciled(u, row, changed, now).disk == u.disk[..Min(Min(|u.disk|, row.received), row.identity.size)]
  {
  }

  lemma ResumeShape(u: Option<Transfer>, identity: Identity, priority: int, timeout: nat, now: int)
    requires u.Some? ==> RowOk(u.value) && u.value.identity.isUpload && u.value.status != Cancelled
    requires identity.isUpload
    ensures var r := CreateOrResume(u, identity, priority, timeout, now);
            r.Some? && r.value.0.status != Completed ==>
              && RowOk(r.value.0) && Unfinished(r.value.0.status) && r.value.0.identity.isUpload
              && (u.Some? ==> r.value.0.received == u.value.received && u.value.status != Completed
                              && if r.value.1 then u.value.version < r.value.0.version else r.value.0 == u.value)
              && (u.None? ==> r.value.1 && r.value.0.received == 0)
  {
  }

  lemma GrantOk(source: Bytes, u: Upload, r: Upload, conn: nat)
    requires Inv(source, u) && r == u.(disk := r.disk, row := r.row, events := r.events)
    requires ContentOk(source, r.disk, r.row, r.tampered) && EventsOk(r.events, r.row) && OutcomeOk(r)
    requires r.row.Some? && Unfinished(r.row.value.status)
    ensures Inv(source, r.(granted := u.granted + [Lease(conn, r.row.value.received, None)], current := Some(|u.granted|)))
  {
  }

  lemma DiskCutOk(source: Bytes, u: Upload, length: nat)
    requires Inv(source, u) && length <= |u.disk| && (u.row.Some? ==> u.row.value.status != Completed)
    ensures Inv(source, u.(disk := u.disk[..length]))
  {
    if u.row.Some? { CutOk(source, u.disk, u.row.value.received, length); }
  }

  lemma InitOk(source: Bytes, u: Upload, step: Step)
    requires Inv(source, u) && step.InitFile?
    ensures Inv(source, Do(source, u, step))
  {
    var r := CreateOrResume(u.row, step.identity, step.priority, step.timeout, step.now);
    if !u.cancelled && step.identity.isUpload && step.identity.size > 0 && r.Some? && r.value.0.status != Completed {
      InitMeets(source, u, step, r.value.0, r.value.1);
    }
  }

  lemma InitMeets(source: Bytes, u: Upload, step: Step, row: Transfer, changed: bool)
    requires Inv(source, u) && step.InitFile? && !u.cancelled && step.identity.isUpload && step.identity.size > 0
    requires CreateOrResume(u.row, step.identity, step.priority, step.timeout, step.now) == Some((row, changed)) && row.status != Completed
    ensures Inv(source, Do(source, u, step))
  {
    ResumeShape(u.row, step.identity, step.priority, step.timeout, step.now);
    ReconcileFrame(u, row, changed, step.now);
    var repaired := Reconciled(u, row, changed, step.now);
    if !step.commits {
      DiskCutOk(source, u, |repaired.disk|);
    } else {
      ReconcileMeets(source, u, row, changed, step.now);
      ReconcileEvents(u, u.row, row, changed, step.now);
      GrantOk(source, u, repaired, step.conn);
    }
  }

  // ---------- streams ----------

  lemma BindOk(source: Bytes, u: Upload, conn: nat, id: nat, offset: nat)
    requires Inv(source, u)
    ensures Inv(source, Do(source, u, Bind(conn, id, offset)))
  {
    if (conn, id) !in u.streams && u.current.Some? && u.granted[u.current.value] == Lease(conn, offset, None) {
      assert forall k :: k in u.streams ==> u.streams[k].lease != u.current.value;
      assert offset == u.row.value.received <= |source|;
    } else {
      DropOk(source, u, (conn, id));
    }
  }

  lemma DataOk(source: Bytes, u: Upload, conn: nat, id: nat, count: nat)
    requires Inv(source, u)
    ensures Inv(source, Do(source, u, Data(conn, id, count)))
  {
    var key := (conn, id);
    if key in u.streams {
      var arrived := Arrived(source, u.streams[key], count);
      ArrivedOk(source, u, key, arrived);
      DropOk(source, Extended(u, key, arrived), key);
    }
  }

  lemma ArrivedOk(source: Bytes, u: Upload, key: (nat, nat), arrived: Bytes)
    requires Inv(source, u) && key in u.streams
    requires var from := Min(u.streams[key].start + u.streams[key].got, |source|);
             from + |arrived| <= |source| && arrived == source[from..from + |arrived|]
    ensures Inv(source, Extended(u, key, arrived))
  {
    var s := u.streams[key];
    if u.current == Some(s.lease) {
      var o, n := u.granted[s.lease].offset, |s.buffer|;
      assert source[o..o + n] + source[o + n..o + n + |arrived|] == source[o..o + n + |arrived|];
    }
  }

  /** One committed chunk: exactly the next bytes of the source, in one place on every side. */
  lemma CommitOk(source: Bytes, u: Upload, key: (nat, nat), ending: Ending, now: int)
    requires Inv(source, u) && Live(u, key) && ending == Commits && u.streams[key].buffer != []
    requires |u.disk| == u.row.value.received
    requires u.row.value.received + Min(COMMIT_BYTES, |u.streams[key].buffer|) <= u.row.value.identity.size
    ensures var r, n := Flushed(u, key, ending, now), Min(COMMIT_BYTES, |u.streams[key].buffer|);
            && Inv(source, r) && r.row.Some? && r.row.value.received == u.row.value.received + n
            && r.disk == u.disk + source[u.row.value.received..u.row.value.received + n] && r.disk == source[..r.row.value.received]
  {
    var s, row := u.streams[key], u.row.value;
    var n := Min(COMMIT_BYTES, |s.buffer|);
    var chunk := s.buffer[..n];
    var r := Flushed(u, key, ending, now);
    assert chunk == source[row.received..row.received + n];
    assert u.disk == u.disk[..row.received] == source[..row.received];
    assert source[..row.received] + source[row.received..row.received + n] == source[..row.received + n];
    assert s.buffer[n..] == source[row.received + n..row.received + |s.buffer|];
    EventStep(u.events, u.row, ApplyProgress(row, row.received + n, now).value.0, true);
    CommitStreams(source, u, key, n, r);
  }

  lemma CommitStreams(source: Bytes, u: Upload, key: (nat, nat), n: nat, r: Upload)
    requires StreamsOk(source, u.granted, u.current, u.streams) && Bound(u, key) && u.current == Some(u.streams[key].lease)
    requires n <= |u.streams[key].buffer|
    requires var s := u.streams[key]; var lease := u.granted[s.lease];
             && r.current == u.current && r.granted == u.granted[s.lease := lease.(offset := lease.offset + n)]
             && r.streams == u.streams[key := s.(buffer := s.buffer[n..])]
    ensures StreamsOk(source, r.granted, r.current, r.streams)
  {
    var s := u.streams[key];
    assert StreamOk(source, u.granted, s.lease, key, s);
    assert s.buffer[n..] == source[u.granted[s.lease].offset + n..u.granted[s.lease].offset + |s.buffer|];
    forall k | k in r.streams && k != key ensures r.current != Some(r.streams[k].lease) {
      assert k == (k.0, k.1) && key == (key.0, key.1);
    }
  }

  lemma FlushOk(source: Bytes, u: Upload, conn: nat, id: nat, ending: Ending, now: int)
    requires Inv(source, u)
    ensures Inv(source, Do(source, u, Flush(conn, id, ending, now)))
  {
    var key := (conn, id);
    DropOk(source, u, key);
    if key in u.streams && Live(u, key) {
      var s, row := u.streams[key], u.row.value;
      var n := Min(COMMIT_BYTES, |s.buffer|);
      if n > 0 && row.received + n <= row.identity.size {
        ConnectionOk(source, u, conn);
        if |u.disk| == row.received {
          if ending == Commits { CommitOk(source, u, key, ending, now); }
          else { FailOk(source, u, key, ending, now); }
        }
      }
    }
  }

  /** A failed append leaves bytes behind only beyond what the row vouches for. */
  lemma FailOk(source: Bytes, u: Upload, key: (nat, nat), ending: Ending, now: int)
    requires Inv(source, u) && Live(u, key) && ending.Fails? && u.streams[key].buffer != []
    requires |u.disk| == u.row.value.received
    requires u.row.value.received + Min(COMMIT_BYTES, |u.streams[key].buffer|) <= u.row.value.identity.size
    ensures Inv(source, Flushed(u, key, ending, now))
  {
    var chunk := u.streams[key].buffer[..Min(COMMIT_BYTES, |u.streams[key].buffer|)];
    var tail := chunk[..Min(ending.written, |chunk|)];
    TailOk(source, u.disk, u.row.value.received, tail);
    assert Inv(source, u.(disk := u.disk + tail));
    ConnectionOk(source, u.(disk := u.disk + tail), key.0);
  }

  lemma EndOk(source: Bytes, u: Upload, conn: nat, id: nat)
    requires Inv(source, u)
    ensures Inv(source, Do(source, u, EndStream(conn, id)))
  {
    DropOk(source, u, (conn, id));
  }

  // ---------- completion, cancellation, faults ----------

  lemma FinishOk(source: Bytes, u: Upload, success: bool, now: int)
    requires Inv(source, u) && u.row.Some?
    ensures Inv(source, Finished(u, u.row.value, success, now))
  {
    var row := u.row.value;
    if row.status != Cancelled {
      if success && row.status != Completed && row.received == row.identity.size && !Verified(u.disk, row.identity) {
        var r := Rewind(row, 0, true, now);
        EventStep(u.events, u.row, r.value.0, r.value.1);
      } else if !(success && row.status != Completed && row.received != row.identity.size) {
        var r := ApplyFinish(row, success, now);
        EventStep(u.events, u.row, r.0, r.1);
      }
    }
  }

  lemma CancelOk(source: Bytes, u: Upload, now: int, commits: bool)
    requires Inv(source, u)
    ensures Inv(source, Do(source, u, CancelFile(now, commits)))
  {
    if commits && u.row.Some? {
      var r := CancelTransfer(u.row.value, now);
      if r.Some? { EventStep(u.events, u.row, r.value.0, r.value.1); }
    }
  }

  lemma CrashOk(source: Bytes, u: Upload, tail: Bytes)
    requires Inv(source, u) && Can(u, Crash(tail))
    ensures Inv(source, Do(source, u, Crash(tail)))
  {
    if u.row.Some? && u.row.value.status != Completed { TailOk(source, u.disk, u.row.value.received, tail); }
  }

  lemma TruncateOk(source: Bytes, u: Upload, length: nat)
    requires Inv(source, u) && length <= |u.disk|
    ensures Inv(source, Do(source, u, Truncate(length)))
  {
    if u.row.Some? && u.row.value.status != Completed { CutOk(source, u.disk, u.row.value.received, length); }
  }

  lemma SquatOk(source: Bytes, u: Upload, step: Step)
    requires Inv(source, u) && step.Squat?
    ensures Inv(source, Do(source, u, step))
  {
  }

  lemma StepOk(source: Bytes, u: Upload, step: Step)
    requires Inv(source, u) && Can(u, step)
    ensures Inv(source, Do(source, u, step))
  {
    match step
    case InitFile(_, _, _, _, _, _) => InitOk(source, u, step);
    case Bind(conn, id, offset) => BindOk(source, u, conn, id, offset);
    case Data(conn, id, count) => DataOk(source, u, conn, id, count);
    case Flush(conn, id, ending, now) => FlushOk(source, u, conn, id, ending, now);
    case EndStream(conn, id) => EndOk(source, u, conn, id);
    case Discard(conn, id) => DropOk(source, u, (conn, id));
    case Reset(conn, id) => DropOk(source, u, (conn, id));
    case Lost(conn) => ConnectionOk(source, u, conn);
    case FinishFile(conn, success, now, commits) => if u.row.Some? { FinishOk(source, u, success, now); }
    case CancelFile(now, commits) => CancelOk(source, u, now, commits);
    case Squat(_) => SquatOk(source, u, step);
    case Crash(tail) => CrashOk(source, u, tail);
    case Truncate(length) => TruncateOk(source, u, length);
  }

  // ---------- whole runs ----------

  ghost predicate Runs(source: Bytes, u: Upload, steps: seq<Step>)
    decreases steps
  {
    steps != [] ==> Can(u, steps[0]) && Runs(source, Do(source, u, steps[0]), steps[1..])
  }

  ghost function After(source: Bytes, u: Upload, steps: seq<Step>): Upload
    requires Runs(source, u, steps)
    decreases steps
  {
    if steps == [] then u else After(source, Do(source, u, steps[0]), steps[1..])
  }

  lemma {:induction false} RunOk(source: Bytes, u: Upload, steps: seq<Step>)
    requires Inv(source, u) && Runs(source, u, steps)
    ensures Inv(source, After(source, u, steps))
    decreases steps
  {
    if steps != [] {
      StepOk(source, u, steps[0]);
      RunOk(source, Do(source, u, steps[0]), steps[1..]);
    }
  }

  lemma {:induction false} RunOneMore(source: Bytes, u: Upload, steps: seq<Step>, step: Step)
    requires Runs(source, u, steps) && Can(After(source, u, steps), step)
    ensures Runs(source, u, steps + [step]) && After(source, u, steps + [step]) == Do(source, After(source, u, steps), step)
    decreases steps
  {
    var more := steps + [step];
    if steps == [] {
      var next := Do(source, u, step);
      assert more[0] == step && more[1..] == [];
      assert Runs(source, next, []) && After(source, next, []) == next;
    } else {
      assert more[0] == steps[0] && more[1..] == steps[1..] + [step];
      RunOneMore(source, Do(source, u, steps[0]), steps[1..], step);
    }
  }

  lemma ReachesNext(source: Bytes, u: Upload, step: Step)
    requires Reachable(source, u) && Can(u, step)
    ensures Reachable(source, Do(source, u, step))
  {
    var steps :| Runs(source, NEW_UPLOAD, steps) && u == After(source, NEW_UPLOAD, steps);
    RunOneMore(source, NEW_UPLOAD, steps, step);
  }

  ghost predicate Reachable(source: Bytes, u: Upload) {
    exists steps :: Runs(source, NEW_UPLOAD, steps) && u == After(source, NEW_UPLOAD, steps)
  }

  lemma ReachableInv(source: Bytes, u: Upload)
    requires Reachable(source, u)
    ensures Inv(source, u)
  {
    var steps :| Runs(source, NEW_UPLOAD, steps) && u == After(source, NEW_UPLOAD, steps);
    RunOk(source, NEW_UPLOAD, steps);
  }

  /** However appends, crashes, truncations and takeovers interleave, the bytes both sides vouch for
      are the source's, and a completed upload holds exactly the source, which is the declared content. */
  lemma UploadIsSound(source: Bytes, u: Upload)
    requires Reachable(source, u) && u.row.Some?
    ensures var row := u.row.value;
            && row.received <= row.identity.size
            && (row.status != Completed ==> PrefixOk(source, u.disk, row.received))
            && (row.status == Completed ==> row.received == row.identity.size <= |source| && row.identity.digest == source[..row.received])
            && (row.status == Completed && !u.tampered ==> u.disk == source[..row.received])
            && (row.status == Completed && u.tampered ==> u.disk <= source[..row.received])
  {
    ReachableInv(source, u);
    var row := u.row.value;
    if row.status == Completed { CompletedLength(source, u); }
  }

  ghost predicate LengthOk(u: Upload) {
    u.row.Some? && u.row.value.status == Completed ==> |u.row.value.identity.digest| == u.row.value.identity.size
  }

  lemma {:induction false} LengthKept(source: Bytes, u: Upload, steps: seq<Step>)
    requires Inv(source, u) && LengthOk(u) && Runs(source, u, steps)
    ensures LengthOk(After(source, u, steps))
    decreases steps
  {
    if steps != [] {
      StepOk(source, u, steps[0]);
      LengthStep(source, u, steps[0]);
      LengthKept(source, Do(source, u, steps[0]), steps[1..]);
    }
  }

  /** Verification reads a file of the declared size, so a wrong-sized digest never matches. */
  lemma LengthFinish(u: Upload, row: Transfer, success: bool, now: int)
    requires u.row == Some(row) && LengthOk(u)
    ensures LengthOk(Finished(u, row, success, now))
  {
  }

  lemma LengthInit(source: Bytes, u: Upload, step: Step)
    requires step.InitFile? && LengthOk(u)
    ensures LengthOk(Do(source, u, step))
  {
    var r := CreateOrResume(u.row, step.identity, step.priority, step.timeout, step.now);
    if r.Some? && r.value.0.status != Completed { ReconcileStatus(u, r.value.0, r.value.1, step.now); }
  }

  lemma ReconcileStatus(u: Upload, row: Transfer, changed: bool, now: int)
    requires row.status != Completed
    ensures Reconciled(u, row, changed, now).row.Some? && Reconciled(u, row, changed, now).row.value.status != Completed
  {
  }

  lemma LengthFlush(u: Upload, key: (nat, nat), ending: Ending, now: int)
    requires Live(u, key) && LengthOk(u)
    ensures LengthOk(Flushed(u, key, ending, now))
  {
  }

  lemma LengthStep(source: Bytes, u: Upload, step: Step)
    requires Can(u, step) && LengthOk(u)
    ensures LengthOk(Do(source, u, step))
  {
    match step
    case InitFile(_, _, _, _, _, _) => LengthInit(source, u, step);
    case Flush(conn, id, ending, now) => if (conn, id) in u.streams && Live(u, (conn, id)) { LengthFlush(u, (conn, id), ending, now); }
    case FinishFile(conn, success, now, commits) => if u.row.Some? { LengthFinish(u, u.row.value, success, now); }
    case _ =>
  }

  lemma CompletedLength(source: Bytes, u: Upload)
    requires Reachable(source, u) && u.row.Some? && u.row.value.status == Completed
    ensures |u.row.value.identity.digest| == u.row.value.received
  {
    ReachableInv(source, u);
    var steps :| Runs(source, NEW_UPLOAD, steps) && u == After(source, NEW_UPLOAD, steps);
    LengthKept(source, NEW_UPLOAD, steps);
  }

  /** A granted lease starts where the file, the row and the source agree. */
  lemma GrantMeets(source: Bytes, u: Upload, step: Step)
    requires Reachable(source, u) && step.InitFile? && Do(source, u, step).current != u.current
    ensures var r := Do(source, u, step);
            && r.current == Some(|u.granted|) && r.row.Some? && r.granted[|u.granted|].offset == r.row.value.received == |r.disk|
            && r.disk <= source
  {
    ReachableInv(source, u);
    var r := CreateOrResume(u.row, step.identity, step.priority, step.timeout, step.now);
    ResumeShape(u.row, step.identity, step.priority, step.timeout, step.now);
    ReconcileFrame(u, r.value.0, r.value.1, step.now);
    ReconcileMeets(source, u, r.value.0, r.value.1, step.now);
    var repaired := Reconciled(u, r.value.0, r.value.1, step.now);
    assert repaired.disk[..|repaired.disk|] == repaired.disk;
  }

  /** Bytes are committed only by the stream the current lease names, and they are the source's next. */
  lemma OnlyTheOwnerCommits(source: Bytes, u: Upload, step: Step)
    requires Inv(source, u) && Can(u, step) && u.row.Some?
    requires Do(source, u, step).row.Some? && Do(source, u, step).row.value.received > u.row.value.received
    requires u.row.value.status != Completed && Do(source, u, step).row.value.status != Completed
    ensures step.Flush? && Live(u, (step.conn, step.id))
    ensures var lease := u.granted[u.current.value]; lease.owner == step.conn && lease.stream == Some(step.id)
    ensures var r := Do(source, u, step); var from, to := u.row.value.received, r.row.value.received;
            to <= |source| && r.disk == u.disk + source[from..to] && r.disk == source[..to]
  {
    OnlyFlush(source, u, step);
    CommitOk(source, u, (step.conn, step.id), step.ending, step.now);
  }

  /** Initialising never moves the committed position forward. */
  lemma InitNeverAdvances(source: Bytes, u: Upload, step: Step)
    requires step.InitFile? && u.row.Some? && RowOk(u.row.value) && u.row.value.status != Completed
    ensures Do(source, u, step).row.Some? && Do(source, u, step).row.value.received <= u.row.value.received
  {
    var r := CreateOrResume(u.row, step.identity, step.priority, step.timeout, step.now);
    if r.Some? && r.value.0.status != Completed { ReconcileFrame(u, r.value.0, r.value.1, step.now); }
  }

  lemma FinishNeverAdvances(u: Upload, row: Transfer, success: bool, now: int)
    requires u.row == Some(row)
    ensures var r := Finished(u, row, success, now);
            r.row.Some? && (r.row.value.status == Completed || r.row.value.received <= row.received)
  {
  }

  lemma OnlyFlush(source: Bytes, u: Upload, step: Step)
    requires Inv(source, u) && Can(u, step) && u.row.Some?
    requires Do(source, u, step).row.Some? && Do(source, u, step).row.value.received > u.row.value.received
    requires u.row.value.status != Completed && Do(source, u, step).row.value.status != Completed
    ensures step.Flush? && Live(u, (step.conn, step.id)) && step.ending == Commits
    ensures u.streams[(step.conn, step.id)].buffer != [] && |u.disk| == u.row.value.received
    ensures u.row.value.received + Min(COMMIT_BYTES, |u.streams[(step.conn, step.id)].buffer|) <= u.row.value.identity.size
  {
    if step.InitFile? { InitNeverAdvances(source, u, step); }
    else if step.FinishFile? { FinishNeverAdvances(u, u.row.value, step.success, step.now); }
  }

  /** A late flush of a stream whose lease was taken over changes nothing but that stream. */
  lemma FencedStreamIsInert(source: Bytes, u: Upload, conn: nat, id: nat, ending: Ending, now: int)
    requires Inv(source, u) && (conn, id) in u.streams && u.current != Some(u.streams[(conn, id)].lease)
    ensures var r := Do(source, u, Flush(conn, id, ending, now));
            r == u.(streams := u.streams - {(conn, id)}, current := r.current)
    ensures u.current.Some? && u.granted[u.current.value].owner != conn ==> Do(source, u, Flush(conn, id, ending, now)).current == u.current
  {
  }

  /** A completed or cancelled upload stays exactly as it is. */
  lemma {:induction false} TerminalForGood(source: Bytes, u: Upload, steps: seq<Step>)
    requires Inv(source, u) && Runs(source, u, steps) && u.row.Some? && Settled(u.row.value.status)
    ensures After(source, u, steps).row == u.row && After(source, u, steps).events == u.events
    decreases steps
  {
    if steps != [] {
      StepOk(source, u, steps[0]);
      TerminalStep(source, u, steps[0]);
      TerminalForGood(source, Do(source, u, steps[0]), steps[1..]);
    }
  }

  lemma TerminalStep(source: Bytes, u: Upload, step: Step)
    requires Inv(source, u) && Can(u, step) && u.row.Some? && Settled(u.row.value.status)
    ensures Do(source, u, step).row == u.row && Do(source, u, step).events == u.events
  {
  }

  /** Every announcement of the file carries a larger version than all before it. */
  lemma VersionsRise(source: Bytes, u: Upload, i: nat, j: nat)
    requires Reachable(source, u) && i < j < |u.events|
    ensures u.row.Some? && u.events[i] < u.events[j] <= u.row.value.version
  {
    ReachableInv(source, u);
    assert u.events[j] in u.events;
  }

  // ---------- what the reserved message is ----------

  /** The reserved id was taken by an ordinary message. */
  predicate Squatted(u: Upload) { u.messages != [] && u.messages[0].Ordinary? }

  /** No ordinary message was sent under the reserved id before the upload completed. */
  ghost predicate NoEarlySquat(source: Bytes, u: Upload, steps: seq<Step>)
    requires Runs(source, u, steps)
    decreases steps
  {
    steps != [] ==> (steps[0].Squat? ==> IsCompleted(u)) && NoEarlySquat(source, Do(source, u, steps[0]), steps[1..])
  }

  lemma SquatStep(source: Bytes, u: Upload, step: Step)
    requires Inv(source, u) && Can(u, step)
    ensures Squatted(Do(source, u, step)) <==> Squatted(u) || (step.Squat? && !IsCompleted(u))
  {
    StepOk(source, u, step);
    MessagesStay(source, u, step);
  }

  /** A message once there stays, and only a send or a finish adds one. */
  lemma MessagesStay(source: Bytes, u: Upload, step: Step)
    requires Can(u, step)
    ensures u.messages != [] ==> Do(source, u, step).messages == u.messages
    ensures !step.Squat? && !step.FinishFile? ==> Do(source, u, step).messages == u.messages
    ensures step.FinishFile? && u.messages == [] && Do(source, u, step).messages != [] ==> Do(source, u, step).messages[0].FileMessage?
  {
    if step.InitFile? {
      var r := CreateOrResume(u.row, step.identity, step.priority, step.timeout, step.now);
      if r.Some? { ReconcileFrame(u, r.value.0, r.value.1, step.now); }
    }
  }

  lemma {:induction false} SquattedIff(source: Bytes, u: Upload, steps: seq<Step>)
    requires Inv(source, u) && Runs(source, u, steps)
    ensures Squatted(After(source, u, steps)) <==> Squatted(u) || !NoEarlySquat(source, u, steps)
    decreases steps
  {
    if steps != [] {
      StepOk(source, u, steps[0]);
      SquatStep(source, u, steps[0]);
      SquattedIff(source, Do(source, u, steps[0]), steps[1..]);
    }
  }

  /** A completed upload has exactly one message under its reserved id.  It is the upload's own file note
      if and only if every ordinary send under that id came after completion. */
  lemma CompletedIffPublished(source: Bytes, steps: seq<Step>)
    requires Runs(source, NEW_UPLOAD, steps)
    ensures var u := After(source, NEW_UPLOAD, steps);
            && |u.messages| <= 1
            && (IsCompleted(u) ==> |u.messages| == 1
                                   && (u.messages == [FileMessage(u.row.value.identity)] <==> NoEarlySquat(source, NEW_UPLOAD, steps)))
            && ((exists m :: m in u.messages && m.FileMessage?) <==> IsCompleted(u) && NoEarlySquat(source, NEW_UPLOAD, steps))
  {
    var u := After(source, NEW_UPLOAD, steps);
    assert Reachable(source, u);
    ReachableInv(source, u);
    assert Inv(source, NEW_UPLOAD);
    SquattedIff(source, NEW_UPLOAD, steps);
    if u.messages != [] { assert u.messages[0] in u.messages; }
  }
}
