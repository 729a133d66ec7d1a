/** The lease table: two maps that stay exact mirrors, over lease objects changed in place. */
module UploadRegistries {
  import opened SyncEvents

  class UploadLease {
    const userId: Id
    const intent: Id
    const fileId: Id
    /** The connection object, by identity. */
    const owner: nat
    const deviceId: Id
    const generation: nat
    var offset: nat
    var touched: int
    var streamId: Option<nat>

    constructor (userId: Id, intent: Id, fileId: Id, owner: nat, deviceId: Id, generation: nat, offset: nat, now: int)
      ensures this.userId == userId && this.intent == intent && this.fileId == fileId && this.owner == owner
      ensures this.deviceId == deviceId && this.generation == generation
      ensures this.offset == offset && touched == now && streamId == None
    {
      this.userId, this.intent, this.fileId, this.owner := userId, intent, fileId, owner;
      this.deviceId, this.generation := deviceId, generation;
      this.offset, touched, streamId := offset, now, None;
    }

    function Key(): (Id, Id) { (userId, intent) }
  }

  class UploadRegistry {
    const idleTimeoutMs: nat
    var generation: nat
    var byIntent: map<(Id, Id), UploadLease>
    var byFile: map<Id, UploadLease>

    /** Each map sends a lease's own key to it, and both hold the same leases. */
    ghost predicate Valid()
      reads this
    {
      && (forall k :: k in byIntent ==> byIntent[k].Key() == k && byIntent[k].fileId in byFile && byFile[byIntent[k].fileId] == byIntent[k])
      && (forall f :: f in byFile ==> byFile[f].fileId == f && byFile[f].Key() in byIntent && byIntent[byFile[f].Key()] == byFile[f])
    }

    ghost function Leases(): set<UploadLease>
      reads this
    {
      set f | f in byFile :: byFile[f]
    }

    lemma HeldIsCurrent()
      requires Valid()
      ensures forall l :: l in Leases() <==> Current(l)
    {
      forall l | Current(l) ensures l in Leases() { assert byFile[l.fileId] == l; }
    }

    constructor (idleTimeoutMs: nat)
      ensures Valid() && byIntent == map[] && byFile == map[] && generation == 0 && this.idleTimeoutMs == idleTimeoutMs
    {
      this.idleTimeoutMs := idleTimeoutMs;
      generation, byIntent, byFile := 0, map[], map[];
    }

    method NextGeneration() returns (g: nat)
      requires Valid()
      modifies this`generation
      ensures Valid() && g == generation == old(generation) + 1
    {
      generation := generation + 1;
      g := generation;
    }

    /** A new upload may start: nobody holds the intent, its own owner has not bound a stream yet, the
        same device came back on a newer connection, or the holder has been idle too long. */
    method Available(userId: Id, intent: Id, owner: nat, deviceId: Id, gen: nat, now: int) returns (ok: bool)
      requires Valid()
      ensures ok <==>
        || (userId, intent) !in byIntent
        || var lease := byIntent[(userId, intent)];
           || (lease.owner == owner && lease.streamId == None)
           || (deviceId != "" && lease.deviceId == deviceId && gen > lease.generation)
           || (idleTimeoutMs > 0 && now - lease.touched >= idleTimeoutMs)
    {
      if (userId, intent) !in byIntent { return true; }
      var lease := byIntent[(userId, intent)];
      ok := (lease.owner == owner && lease.streamId == None)
            || (deviceId != "" && lease.deviceId == deviceId && gen > lease.generation)
            || (idleTimeoutMs > 0 && now - lease.touched >= idleTimeoutMs);
    }

    predicate Current(lease: UploadLease)
      reads this
    {
      lease.fileId in byFile && byFile[lease.fileId] == lease
    }

    /** Releases a lease that is still current; an outdated lease releases nothing. */
    method Release(lease: UploadLease)
      requires Valid()
      modifies this`byIntent, this`byFile
      ensures Valid() && !Current(lease)
      ensures Leases() == old(Leases()) - {lease}
      ensures byFile == if old(Current(lease)) then old(byFile) - {lease.fileId} else old(byFile)
      ensures byIntent == if old(Current(lease)) then old(byIntent) - {lease.Key()} else old(byIntent)
    {
      HeldIsCurrent();
      if Current(lease) {
        ghost var others := byFile.Keys - {lease.fileId};
        assert forall f :: f in others ==> byFile[f] != lease && byFile[f].Key() != lease.Key();
        byFile := byFile - {lease.fileId};
        byIntent := byIntent - {lease.Key()};
        assert Valid();
        HeldIsCurrent();
      }
    }

    /** Takes the intent over.  A file belongs to one intent, so no other intent's lease is displaced. */
    method Grant(userId: Id, intent: Id, fileId: Id, owner: nat, offset: nat, deviceId: Id, gen: nat, now: int)
      returns (lease: UploadLease)
      requires Valid() && (fileId in byFile ==> byFile[fileId].Key() == (userId, intent))
      modifies this`byIntent, this`byFile
      ensures Valid() && fresh(lease) && Current(lease)
      ensures lease.owner == owner && lease.offset == offset && lease.streamId == None && lease.touched == now
      ensures lease.fileId == fileId && lease.Key() == (userId, intent)
      ensures Leases() == old(Leases()) - (if (userId, intent) in old(byIntent) then {old(byIntent)[(userId, intent)]} else {}) + {lease}
    {
      if (userId, intent) in byIntent { Release(byIntent[(userId, intent)]); }
      assert fileId !in byFile;
      lease := new UploadLease(userId, intent, fileId, owner, deviceId, gen, offset, now);
      Insert(lease);
    }

    method Insert(lease: UploadLease)
      requires Valid() && lease.fileId !in byFile && lease.Key() !in byIntent
      modifies this`byIntent, this`byFile
      ensures Valid() && Current(lease) && Leases() == old(Leases()) + {lease}
    {
      HeldIsCurrent();
      byIntent := byIntent[lease.Key() := lease];
      byFile := byFile[lease.fileId := lease];
      assert Valid();
      HeldIsCurrent();
    }

    /** One stream per lease, only for its owner, and only from its exact offset. */
    method BindStream(owner: nat, fileId: Id, streamId: nat, offset: nat, now: int) returns (lease: Option<UploadLease>)
      requires Valid()
      modifies if fileId in byFile then {byFile[fileId]} else {}
      ensures Valid()
      ensures lease.Some? <==> fileId in byFile && byFile[fileId].owner == owner
                               && old(byFile[fileId].streamId) == None && old(byFile[fileId].offset) == offset
      ensures lease.Some? ==> lease.value == byFile[fileId] && lease.value.streamId == Some(streamId)
                              && lease.value.offset == offset && lease.value.touched == now
      ensures lease.None? && fileId in byFile ==> unchanged(byFile[fileId])
    {
      if fileId !in byFile { return None; }
      var held := byFile[fileId];
      if held.owner != owner || held.streamId != None || held.offset != offset { return None; }
      held.streamId := Some(streamId);
      held.touched := now;
      return Some(held);
    }

    method Advance(lease: UploadLease, offset: nat, now: int)
      requires Valid()
      modifies lease
      ensures Valid() && lease.offset == offset && lease.touched == now && lease.streamId == old(lease.streamId)
    {
      lease.offset := offset;
      lease.touched := now;
    }

    /** Releases exactly the leases of one connection, or of one of its streams. */
    method ReleaseOwner(owner: nat, streamId: Option<nat>)
      requires Valid()
      modifies this`byIntent, this`byFile
      ensures Valid()
      ensures byFile == map f | f in old(byFile) && !Gone(old(byFile)[f], owner, streamId) :: old(byFile)[f]
    {
      var victims := Owned(owner, streamId);
      OwnedFiles(victims, owner, streamId);
      ReleaseAll(victims);
    }

    /** Releases leases that were all current to begin with, whether or not one is listed twice. */
    method ReleaseAll(victims: seq<UploadLease>)
      requires Valid() && forall l :: l in victims ==> l.fileId in byFile && byFile[l.fileId] == l
      modifies this`byIntent, this`byFile
      ensures Valid() && byFile == old(byFile) - Files(victims)
    {
      for i := 0 to |victims|
        invariant Valid() && byFile == old(byFile) - Files(victims[..i])
      {
        FilesMore(victims, i);
        assert victims[i] in victims;
        Release(victims[i]);
      }
      assert victims[..|victims|] == victims;
    }

    lemma FilesMore(victims: seq<UploadLease>, i: nat)
      requires i < |victims|
      ensures Files(victims[..i + 1]) == Files(victims[..i]) + {victims[i].fileId}
    {
      assert victims[..i + 1] == victims[..i] + [victims[i]];
    }

    ghost function Files(leases: seq<UploadLease>): set<Id> { set l | l in leases :: l.fileId }

    lemma OwnedFiles(victims: seq<UploadLease>, owner: nat, streamId: Option<nat>)
      requires Valid() && forall l :: l in victims <==> l in Leases() && Gone(l, owner, streamId)
      ensures forall l :: l in victims ==> l.fileId in byFile && byFile[l.fileId] == l
      ensures byFile - Files(victims) == map f | f in byFile && !Gone(byFile[f], owner, streamId) :: byFile[f]
    {
      forall f | f in byFile ensures f in Files(victims) <==> Gone(byFile[f], owner, streamId) {
        assert byFile[f] in Leases();
      }
    }

    /** list(by_file.values()), filtered. */
    method Owned(owner: nat, streamId: Option<nat>) returns (found: seq<UploadLease>)
      requires Valid()
      ensures forall l :: l in found <==> l in Leases() && Gone(l, owner, streamId)
    {
      found := [];
      var files := byFile.Keys;
      while files != {}
        invariant files <= byFile.Keys
        invariant forall l :: l in found ==> l in Leases() && l.fileId !in files && Gone(l, owner, streamId)
        invariant forall f :: f in byFile && f !in files && Gone(byFile[f], owner, streamId) ==> byFile[f] in found
        decreases |files|
      {
        var f :| f in files;
        files := files - {f};
        if byFile[f].owner == owner && (streamId.None? || byFile[f].streamId == streamId) { found := found + [byFile[f]]; }
      }
    }

    predicate Gone(l: UploadLease, owner: nat, streamId: Option<nat>)
      reads l
    {
      l.owner == owner && (streamId.None? || l.streamId == streamId)
    }
  }
}
