/** The transfer row of one file intent and the operations of the file repository on it. */
module Transfers {
  import opened SyncEvents

  datatype FileStatus = Init | Uploading | Uploaded | Failed | FailedIntegrity | Completed | Cancelled

  /** What a file intent must never change. */
  datatype Identity = Identity(conv: Id, name: string, size: nat, digest: seq<bv8>, isUpload: bool, sourceId: Id)

  datatype Transfer = Transfer(identity: Identity, received: nat, status: FileStatus, version: nat, priority: int, updatedAt: int)

  predicate Settled(s: FileStatus) { s == Completed || s == Cancelled }

  predicate Unfinished(s: FileStatus) { s == Init || s == Uploading || s == Uploaded }

  predicate HasFailed(s: FileStatus) { s == Failed || s == FailedIntegrity }

  /** What every stored row satisfies. */
  predicate RowOk(t: Transfer) {
    && t.received <= t.identity.size && 1 <= t.version
    && (t.identity.isUpload && t.status == Completed ==> t.received == t.identity.size)
  }

  /** _save_progress. */
  function Saved(t: Transfer, now: int): Transfer {
    t.(version := t.version + 1, updatedAt := if now > t.updatedAt + 1 then now else t.updatedAt + 1)
  }

  /** The row afterwards and whether it changed; None is a refusal (conflict, or an exception). */
  type Change = Option<(Transfer, bool)>

  /** create_or_resume_transfer.  `existing` is the intent's row if it has one. */
  function CreateOrResume(existing: Option<Transfer>, identity: Identity, priority: int, timeout: nat, now: int): Change {
    if existing.None? then Some((Transfer(identity, 0, Init, 1, priority, now), true)) else
      var t := existing.value;
      if t.identity != identity || t.status == Cancelled then None
      else if t.status == Completed then Some((t, false))
      else
        var stale := timeout > 0 && Unfinished(t.status) && now - t.updatedAt > timeout;
        var status := if stale || HasFailed(t.status) then Init else t.status;
        if stale || t.status != status || t.priority != priority
        then Some((Saved(t.(status := status, priority := priority), now), true)) else Some((t, false))
  }

  function ApplyProgress(t: Transfer, received: int, now: int): Change {
    if received < 0 || received > t.identity.size then None
    else if !Settled(t.status) && received > t.received then
      Some((Saved(t.(received := received, status := if received == t.identity.size then Uploaded else Uploading), now), true))
    else Some((t, false))
  }

  function Rewind(t: Transfer, received: int, integrityFailed: bool, now: int): Change {
    if !t.identity.isUpload || received < 0 || received > t.received then None
    else if !Settled(t.status) && (received < t.received || (integrityFailed && t.status != FailedIntegrity)) then
      var status := if integrityFailed then FailedIntegrity else if received > 0 then Uploading else Init;
      Some((Saved(t.(received := received, status := status), now), true))
    else Some((t, false))
  }

  function ApplyFinish(t: Transfer, success: bool, now: int): (Transfer, bool) {
    if t.status == Cancelled then (t, false) else
      var target := if success || t.status == Completed then Completed else Failed;
      if target == t.status then (t, false)
      else (Saved(t.(status := target, received := if success then t.identity.size else t.received), now), true)
  }

  /** None: already completed.  The intent itself is marked cancelled by the caller. */
  function CancelTransfer(t: Transfer, now: int): Change {
    if t.status == Completed then None
    else if t.status == Cancelled then Some((t, false))
    else Some((Saved(t.(status := Cancelled), now), true))
  }

  // ---------- what every operation keeps ----------

  /** A change raises the version by one, no change leaves the row alone, and a terminal row never changes. */
  ghost predicate Moves(t: Transfer, r: (Transfer, bool)) {
    && RowOk(r.0) && r.0.identity == t.identity
    && (if r.1 then r.0.version == t.version + 1 && r.0.updatedAt > t.updatedAt && !Settled(t.status) else r.0 == t)
  }

  lemma OperationsMove(t: Transfer, identity: Identity, priority: int, timeout: nat, received: int, flag: bool, now: int)
    requires RowOk(t)
    ensures var r := CreateOrResume(Some(t), identity, priority, timeout, now); r.Some? ==> Moves(t, r.value)
    ensures var r := ApplyProgress(t, received, now); r.Some? ==> Moves(t, r.value)
    ensures var r := Rewind(t, received, flag, now); r.Some? ==> Moves(t, r.value)
    ensures Moves(t, ApplyFinish(t, flag, now))
    ensures var r := CancelTransfer(t, now); r.Some? ==> Moves(t, r.value)
  {
    OtherMoves(t, identity, priority, timeout, received, flag, now);
    FinishMoves(t, flag, now);
  }

  lemma OtherMoves(t: Transfer, identity: Identity, priority: int, timeout: nat, received: int, flag: bool, now: int)
    requires RowOk(t)
    ensures var r := CreateOrResume(Some(t), identity, priority, timeout, now); r.Some? ==> Moves(t, r.value)
    ensures var r := ApplyProgress(t, received, now); r.Some? ==> Moves(t, r.value)
    ensures var r := Rewind(t, received, flag, now); r.Some? ==> Moves(t, r.value)
    ensures var r := CancelTransfer(t, now); r.Some? ==> Moves(t, r.value)
  {
  }

  lemma FinishMoves(t: Transfer, flag: bool, now: int)
    requires RowOk(t)
    ensures Moves(t, ApplyFinish(t, flag, now))
  {
  }

  /** Any sequence of operations on one row. */
  datatype FileOp =
    | Resume(identity: Identity, priority: int, timeout: nat)
    | Progress(received: int)
    | RewindTo(received: int, integrityFailed: bool)
    | Finish(success: bool)
    | Cancel

  function Step(t: Transfer, op: FileOp, now: int): Transfer {
    match op
    case Resume(identity, priority, timeout) =>
      var r := CreateOrResume(Some(t), identity, priority, timeout, now); if r.Some? then r.value.0 else t
    case Progress(received) => var r := ApplyProgress(t, received, now); if r.Some? then r.value.0 else t
    case RewindTo(received, integrityFailed) => var r := Rewind(t, received, integrityFailed, now); if r.Some? then r.value.0 else t
    case Finish(success) => ApplyFinish(t, success, now).0
    case Cancel => var r := CancelTransfer(t, now); if r.Some? then r.value.0 else t
  }

  function Run(t: Transfer, ops: seq<(FileOp, int)>): Transfer
    decreases ops
  {
    if ops == [] then t else Run(Step(t, ops[0].0, ops[0].1), ops[1..])
  }

  lemma StepMoves(t: Transfer, op: FileOp, now: int)
    requires RowOk(t)
    ensures Moves(t, (Step(t, op, now), Step(t, op, now) != t))
  {
    match op
    case Resume(identity, priority, timeout) => OperationsMove(t, identity, priority, timeout, 0, false, now);
    case Progress(received) => OperationsMove(t, t.identity, 0, 0, received, false, now);
    case RewindTo(received, flag) => OperationsMove(t, t.identity, 0, 0, received, flag, now);
    case Finish(success) => OperationsMove(t, t.identity, 0, 0, 0, success, now);
    case Cancel => OperationsMove(t, t.identity, 0, 0, 0, false, now);
  }

  /** Over any run, received stays within the size, versions only rise, and a completed or cancelled
      row is never changed again, by any operation. */
  lemma {:induction false} RunMoves(t: Transfer, ops: seq<(FileOp, int)>)
    requires RowOk(t)
    ensures var r := Run(t, ops);
            && RowOk(r) && r.identity == t.identity && t.version <= r.version
            && (r.version == t.version ==> r == t)
            && (Settled(t.status) ==> r == t)
    decreases ops
  {
    if ops != [] {
      StepMoves(t, ops[0].0, ops[0].1);
      RunMoves(Step(t, ops[0].0, ops[0].1), ops[1..]);
    }
  }
}
