/** Facts about one user's stream: what appending and redacting do to it. */
module ServerStreams {
  import opened SyncEvents
  import opened ServerState

  /** Body b may stand before body c in one stream. */
  predicate Ordered(b: Body, c: Body) {
    && !(b.Message? && c.Message? && b.id == c.id)
    && !(b.ReadCount? && c.Message? && b.id == c.id)
    && (b.Receipt? && c.Receipt? && b.conv == c.conv && b.reader == c.reader ==> b.lastRead < c.lastRead)
    && (b.File? && c.File? && b.id == c.id ==> b.version < c.version)
  }

  ghost predicate StreamOk(s: seq<Body>) {
    && (forall i :: 0 <= i < |s| ==> Supported(s[i]))
    && (forall i, j :: 0 <= i < j < |s| ==> Ordered(s[i], s[j]))
  }

  lemma RedactOk(s: seq<Body>, m: Id)
    requires StreamOk(s)
    ensures StreamOk(RedactStream(s, m))
  {
    forall i, j | 0 <= i < j < |s| ensures Ordered(RedactBody(s[i], m), RedactBody(s[j], m)) {
      assert Ordered(s[i], s[j]);
    }
  }

  lemma LatestAppend(s: seq<Body>, b: Body, k: Key)
    ensures Latest(s + [b], k) == if Claims(b, k) then Some(b) else Latest(s, k)
  {
    assert (s + [b])[..|s|] == s;
  }

  /** Redaction never touches a claim other than a message's own, and keeps that one's count. */
  lemma {:induction false} LatestRedact(s: seq<Body>, m: Id, k: Key)
    ensures Latest(RedactStream(s, m), k)
         == if Latest(s, k).Some? then Some(RedactBody(Latest(s, k).value, m)) else None
    decreases |s|
  {
    if s != [] {
      assert RedactStream(s, m)[..|s| - 1] == RedactStream(s[..|s| - 1], m);
      LatestRedact(s[..|s| - 1], m, k);
    }
  }

  /** The latest claimant stands at some index and nothing after it claims the slot. */
  lemma {:induction false} LatestAt(s: seq<Body>, k: Key) returns (i: int)
    ensures Latest(s, k).None? ==> i == -1 && forall j :: 0 <= j < |s| ==> !Claims(s[j], k)
    ensures Latest(s, k).Some? ==> 0 <= i < |s| && s[i] == Latest(s, k).value && Claims(s[i], k)
                                   && forall j :: i < j < |s| ==> !Claims(s[j], k)
    decreases |s|
  {
    if s == [] {
      i := -1;
    } else if Claims(s[|s| - 1], k) {
      i := |s| - 1;
    } else {
      i := LatestAt(s[..|s| - 1], k);
      assert forall j :: 0 <= j < |s| - 1 ==> s[..|s| - 1][j] == s[j];
    }
  }

  lemma EmitAt(streams: Streams, users: set<Id>, b: Body, u: Id)
    ensures StreamOf(Emit(streams, users, b), u)
         == if u in users then StreamOf(streams, u) + [b] else StreamOf(streams, u)
  {
  }

  lemma RedactAt(streams: Streams, m: Id, users: set<Id>, u: Id)
    ensures StreamOf(Redact(streams, m, users), u)
         == if u in users then RedactStream(StreamOf(streams, u), m) else StreamOf(streams, u)
  {
  }

  /** A stream only ever grows at its end. */
  ghost predicate Extends(a: Streams, b: Streams) {
    forall u :: StreamOf(a, u) <= StreamOf(b, u)
  }

  lemma EmitExtends(streams: Streams, users: set<Id>, b: Body)
    ensures Extends(streams, Emit(streams, users, b))
  {
    forall u ensures StreamOf(streams, u) <= StreamOf(Emit(streams, users, b), u) { EmitAt(streams, users, b, u); }
  }
}
