/** Upload streams as the connection keeps them: storage, stream state and lease change in place. */
module UploadConnections {
  import opened SyncEvents
  import opened Transfers
  import opened UploadSystem
  import opened UploadRegistries

  datatype Appended = Refused | Raised | Progressed(received: nat)

  /** One file on disk and its transfer row. */
  class UploadStorage {
    var disk: Bytes
    var row: Transfer

    constructor (row: Transfer)
      ensures this.row == row && disk == []
    {
      this.row, disk := row, [];
    }

    /** The write loop: short writes are continued, a write of no valid progress raises. */
    method WriteAll(chunk: Bytes, sizes: seq<nat>) returns (ok: bool)
      modifies this`disk
      ensures old(disk) <= disk <= old(disk) + chunk
      ensures ok ==> disk == old(disk) + chunk
    {
      var done, i := 0, 0;
      while done < |chunk|
        invariant done <= |chunk| && disk == old(disk) + chunk[..done]
        decreases |chunk| - done
      {
        var written := if i < |sizes| then sizes[i] else |chunk| - done;
        if written == 0 || written > |chunk| - done { return false; }
        disk := disk + chunk[done..done + written];
        assert chunk[..done] + chunk[done..done + written] == chunk[..done + written];
        done, i := done + written, i + 1;
      }
      assert chunk[..done] == chunk;
      return true;
    }

    /** append_file_chunk.  `sizes` are the results of the single writes, `commits` whether the row's
        transaction goes through.  Nothing is acknowledged that is not both written and committed. */
    method AppendFileChunk(chunk: Bytes, sizes: seq<nat>, commits: bool, now: int) returns (outcome: Appended)
      modifies this
      ensures outcome.Progressed? ==>
        && |old(disk)| == old(row).received && disk == old(disk) + chunk && |disk| == row.received == outcome.received
        && ApplyProgress(old(row), old(row).received + |chunk|, now) == Some((row, true))
      ensures !outcome.Progressed? ==> row == old(row)
      ensures outcome.Refused? <==> !old(row).identity.isUpload || !Unfinished(old(row).status) || chunk == []
                                    || old(row).received + |chunk| > old(row).identity.size
      ensures outcome.Refused? ==> disk == old(disk)
      ensures old(disk) <= disk <= old(disk) + chunk
      ensures outcome.Raised? && |old(disk)| != old(row).received ==> disk == old(disk)
    {
      if !row.identity.isUpload || !Unfinished(row.status) || chunk == [] || row.received + |chunk| > row.identity.size {
        return Refused;
      }
      if |disk| != row.received { return Raised; }
      var ok := WriteAll(chunk, sizes);
      if !ok || !commits { return Raised; }
      var next := ApplyProgress(row, row.received + |chunk|, now);
      row := next.value.0;
      return Progressed(row.received);
    }

    /** _reconcile_upload: afterwards the file is as long as the row says. */
    method ReconcileUpload(commits: bool, now: int) returns (ok: bool)
      requires RowOk(row) && row.identity.isUpload && !Settled(row.status)
      modifies this
      ensures ok <==> commits
      ensures disk == old(disk)[..Min(Min(|old(disk)|, old(row).received), old(row).identity.size)]
      ensures ok ==> |disk| == row.received && RowOk(row) && Rewind(old(row), |disk|, false, now).value.0 == row
      ensures !ok ==> row == old(row)
    {
      var offset := Min(Min(|disk|, row.received), row.identity.size);
      if |disk| > offset { disk := disk[..offset]; }
      if !commits { return false; }
      var next := Rewind(row, offset, false, now);
      row := next.value.0;
      return true;
    }
  }

  class FileStreamState {
    var buffer: Bytes
    var lease: UploadLease?

    constructor ()
      ensures buffer == [] && lease == null
    {
      buffer, lease := [], null;
    }
  }

  datatype FlushExit = Flushed(left: nat) | Rejected | StorageFailed

  /** The loop of _flush_upload_buffer.  The storage is free to fail at chunk number `faultAt`, after
      any of its bytes; until then every round commits the head of the buffer, advances the lease to
      the committed offset and only then forgets the bytes. */
  method FlushChunks(state: FileStreamState, lease: UploadLease, storage: UploadStorage, force: bool,
                     faultAt: nat, sizes: seq<nat>, faultCommits: bool, now: int)
    returns (exit: FlushExit, ghost moved: nat)
    requires storage.row.received == lease.offset && Unfinished(storage.row.status) && storage.row.identity.isUpload
    requires lease.offset + |state.buffer| <= storage.row.identity.size
    modifies state`buffer, lease`offset, lease`touched, storage
    ensures moved <= |old(state.buffer)| && state.buffer == old(state.buffer)[moved..]
    ensures lease.offset == old(lease.offset) + moved && storage.row.received == lease.offset
    ensures |old(storage.disk)| == old(storage.row.received) ==>
              old(storage.disk) + old(state.buffer)[..moved] <= storage.disk <= old(storage.disk) + old(state.buffer)
    ensures exit.Flushed? ==>
              && (if force then state.buffer == [] else |state.buffer| < COMMIT_BYTES) && exit.left == |state.buffer|
              && storage.disk == old(storage.disk) + old(state.buffer)[..moved]
    ensures exit != Rejected
    ensures storage.row.identity == old(storage.row.identity) && Unfinished(storage.row.status)
  {
    moved := 0;
    var round := 0;
    while state.buffer != [] && (force || |state.buffer| >= COMMIT_BYTES)
      invariant moved <= |old(state.buffer)| && state.buffer == old(state.buffer)[moved..]
      invariant lease.offset == old(lease.offset) + moved && storage.row.received == lease.offset
      invariant storage.disk == old(storage.disk) + old(state.buffer)[..moved]
      invariant Unfinished(storage.row.status) && storage.row.identity == old(storage.row.identity)
      decreases |state.buffer|
    {
      var n := Min(COMMIT_BYTES, |state.buffer|);
      var chunk := state.buffer[..n];
      var projected := lease.offset + n;
      assert old(state.buffer)[..moved] + chunk == old(state.buffer)[..moved + n];
      ghost var before := storage.disk;
      var outcome := storage.AppendFileChunk(chunk, if round == faultAt then sizes else [], round != faultAt || faultCommits, now);
      assert before <= storage.disk <= before + chunk;
      if outcome.Raised? {
        BetweenDisks(old(storage.disk), old(state.buffer), moved, n, storage.disk);
        return StorageFailed, moved;
      }
      if outcome.Refused? || outcome.received != projected { return Rejected, moved; }
      lease.offset, lease.touched := projected, now;
      state.buffer := state.buffer[n..];
      moved := moved + n;
      round := round + 1;
    }
    exit := Flushed(|state.buffer|);
    BetweenDisks(old(storage.disk), old(state.buffer), moved, 0, storage.disk);
  }

  lemma BetweenDisks(was: Bytes, buffer: Bytes, moved: nat, n: nat, disk: Bytes)
    requires moved + n <= |buffer|
    requires was + buffer[..moved] <= disk <= was + buffer[..moved] + buffer[moved..moved + n]
    ensures was + buffer[..moved] <= disk <= was + buffer
  {
    assert was + buffer[..moved] + buffer[moved..moved + n] + buffer[moved + n..] == was + buffer;
  }
}
