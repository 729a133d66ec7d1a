/** The receiving side of a download: header, staging file, verified publication. */
module DownloadClient {
  import opened SyncEvents
  import opened DownloadServer

  /** Index of the first newline, or the length. */
  function NewlineAt(b: Bytes): (i: nat)
    ensures i <= |b| && (forall j :: 0 <= j < i ==> b[j] != NEWLINE) && (i < |b| ==> b[i] == NEWLINE)
    decreases b
  {
    if b == [] then 0 else if b[0] == NEWLINE then 0 else
      var k := NewlineAt(b[1..]);
      assert forall j :: 1 <= j < |b| ==> b[j] == b[1..][j - 1];
      k + 1
  }

  lemma {:induction false} NewlineIs(b: Bytes, i: nat)
    requires i <= |b| && (forall j :: 0 <= j < i ==> b[j] != NEWLINE) && (i < |b| ==> b[i] == NEWLINE)
    ensures NewlineAt(b) == i
  {
    var k := NewlineAt(b);
    assert k < |b| ==> b[k] == NEWLINE;
  }

  datatype Head = Incomplete | Dropped | Parsed(fileId: Bytes, body: Bytes)

  /** What the accumulated bytes of a stream mean. */
  function ReadHead(b: Bytes): Head {
    var split := NewlineAt(b);
    if split == |b| then (if |b| >= HEADER_MAX then Dropped else Incomplete)
    else if split >= HEADER_MAX then Dropped
    else if split < |PREFIX| || b[..|PREFIX|] != PREFIX || Trimmed(b[|PREFIX|..split]) == [] then Dropped
    else Parsed(Trimmed(b[|PREFIX|..split]), b[split + 1..])
  }

  predicate IsSpace(b: bv8) { 0x09 <= b <= 0x0D || b == 0x20 }

  /** QString::trimmed: no white space at either end. */
  function Trimmed(b: Bytes): (r: Bytes)
    ensures |r| <= |b| && (r != [] ==> !IsSpace(r[0]) && !IsSpace(r[|r| - 1]))
    ensures b != [] && !IsSpace(b[0]) && !IsSpace(b[|b| - 1]) ==> r == b
    decreases |b|
  {
    if b == [] then []
    else if IsSpace(b[0]) then Trimmed(b[1..])
    else if IsSpace(b[|b| - 1]) then Trimmed(b[..|b| - 1])
    else b
  }

  /** A file id a header can carry.  The client knows the file by the trimmed id. */
  predicate Named(fileId: Bytes) {
    Trimmed(fileId) != [] && |Header(fileId)| <= HEADER_MAX && forall i :: 0 <= i < |fileId| ==> fileId[i] != NEWLINE
  }

  lemma HeaderFront(fileId: Bytes, body: Bytes)
    requires Named(fileId)
    ensures ReadHead(Header(fileId) + body) == Parsed(Trimmed(fileId), body)
    ensures forall cut :: 0 <= cut < |Header(fileId)| ==> ReadHead(Header(fileId)[..cut]) == Incomplete
  {
    var h := Header(fileId);
    var n := |PREFIX| + |fileId|;
    assert forall j :: 0 <= j < n ==> h[j] != NEWLINE;
    NewlineIs(h + body, n);
    assert (h + body)[..|PREFIX|] == PREFIX && (h + body)[|PREFIX|..n] == fileId && (h + body)[n + 1..] == body;
    forall cut | 0 <= cut < |h| ensures ReadHead(h[..cut]) == Incomplete { NewlineIs(h[..cut], cut); }
  }

  function Concat(parts: seq<Bytes>): Bytes
    decreases |parts|
  {
    if parts == [] then [] else Concat(parts[..|parts| - 1]) + parts[|parts| - 1]
  }

  lemma ConcatNext(parts: seq<Bytes>, i: nat)
    requires i < |parts|
    ensures Concat(parts[..i + 1]) == Concat(parts[..i]) + parts[i]
  {
    assert parts[..i + 1][..i] == parts[..i];
  }

  /** One incoming stream: bytes not yet staged, and the file id once the header is complete. */
  class DownloadStreamState {
    var buffer: Bytes
    var headerParsed: bool
    var fileId: Bytes
    var dropped: bool

    constructor ()
      ensures buffer == [] && !headerParsed && fileId == [] && !dropped
    {
      buffer, headerParsed, fileId, dropped := [], false, [], false;
    }

    /** handleIncomingFileStream up to the flush. */
    method Receive(payload: Bytes)
      requires !dropped
      modifies this
      ensures var was := old(buffer) + payload;
              if old(headerParsed) then headerParsed && !dropped && fileId == old(fileId) && buffer == was
              else match ReadHead(was)
                case Incomplete => !headerParsed && !dropped && buffer == was && fileId == old(fileId)
                case Dropped => dropped
                case Parsed(id, body) => headerParsed && !dropped && fileId == id && buffer == body
    {
      buffer := buffer + payload;
      if !headerParsed {
        var split := 0;
        while split < |buffer| && buffer[split] != NEWLINE
          invariant split <= |buffer| && forall j :: 0 <= j < split ==> buffer[j] != NEWLINE
        {
          split := split + 1;
        }
        NewlineIs(buffer, split);
        if split == |buffer| {
          dropped := |buffer| >= HEADER_MAX;
          return;
        }
        if split >= HEADER_MAX {
          dropped := true;
          return;
        }
        var header := buffer[..split];
        var rest := buffer[split + 1..];
        if |header| < |PREFIX| || header[..|PREFIX|] != PREFIX || Trimmed(header[|PREFIX|..]) == [] {
          assert |header| >= |PREFIX| ==> header[..|PREFIX|] == buffer[..|PREFIX|] && header[|PREFIX|..] == buffer[|PREFIX|..split];
          dropped := true;
          return;
        }
        assert header[..|PREFIX|] == buffer[..|PREFIX|] && header[|PREFIX|..] == buffer[|PREFIX|..split];
        fileId, buffer, headerParsed := Trimmed(header[|PREFIX|..]), rest, true;
      }
    }

    method TakeBuffer() returns (data: Bytes)
      modifies this`buffer
      ensures data == old(buffer) && buffer == []
    {
      data, buffer := buffer, [];
    }
  }

  /** The staging file and its publication.  A digest stands for the content it names. */
  class MiniImDownloadSink {
    var target: Option<Bytes>
    var staging: Bytes
    var isOpen: bool
    var failed: bool
    var finished: bool
    var expectedSize: nat
    var expected: Bytes

    ghost predicate Valid()
      reads this
    {
      && (isOpen ==> |staging| <= expectedSize && !finished && !failed)
      && (finished ==> target == Some(expected) && |expected| == expectedSize)
    }

    constructor (target: Option<Bytes>, staging: Bytes)
      ensures Valid() && this.target == target && this.staging == staging && !isOpen && !failed && !finished
    {
      this.target, this.staging := target, staging;
      isOpen, failed, finished, expectedSize, expected := false, false, false, 0, [];
    }

    /** Keeps the first resumeOffset staged bytes; fewer than that is an error. */
    method OpenAt(size: nat, digest: Bytes, resumeOffset: nat) returns (ok: bool)
      requires Valid() && !isOpen
      modifies this
      ensures Valid() && target == old(target) && !finished
      ensures ok <==> size > 0 && resumeOffset <= size && resumeOffset <= |old(staging)|
      ensures ok ==> isOpen && expectedSize == size && expected == digest && staging == old(staging)[..resumeOffset]
      ensures !ok ==> !isOpen && staging == old(staging)
    {
      if size == 0 || resumeOffset > size {
        finished := false;
        failed := true;
        return false;
      }
      expectedSize, expected, failed, finished := size, digest, false, false;
      if |staging| < resumeOffset {
        failed := true;
        return false;
      }
      staging, isOpen := staging[..resumeOffset], true;
      return true;
    }

    /** `sizes` are the results of the single writes.  The target is never touched. */
    method Append(data: Bytes, sizes: seq<nat>) returns (ok: bool)
      requires Valid()
      modifies this
      ensures Valid() && target == old(target) && expectedSize == old(expectedSize) && expected == old(expected)
      ensures finished == old(finished)
      ensures ok ==> old(isOpen) && isOpen && staging == old(staging) + data && |staging| <= expectedSize
      ensures old(isOpen) && sizes == [] ==> (ok <==> |old(staging)| + |data| <= expectedSize)
      ensures !ok ==> old(staging) <= staging <= old(staging) + data && !isOpen && (old(isOpen) ==> failed)
    {
      if failed || finished || !isOpen { return false; }
      if |data| > expectedSize - |staging| {
        failed, isOpen := true, false;
        return false;
      }
      var done, i := 0, 0;
      while done < |data|
        invariant done <= |data| && staging == old(staging) + data[..done]
        invariant target == old(target) && expectedSize == old(expectedSize) && expected == old(expected)
        invariant finished == old(finished) && isOpen && !failed && Valid()
        decreases |data| - done
      {
        var written := if i < |sizes| then sizes[i] else |data| - done;
        if written == 0 || written > |data| - done {
          failed, isOpen := true, false;
          return false;
        }
        staging := staging + data[done..done + written];
        assert data[..done] + data[done..done + written] == data[..done + written];
        done, i := done + written, i + 1;
      }
      assert data[..done] == data;
      return true;
    }

    /** Publishes only a complete file whose digest matches; anything else leaves the target alone.
        `commits` is whether the final atomic replacement succeeds. */
    method Finish(commits: bool) returns (ok: bool)
      requires Valid()
      modifies this
      ensures Valid()
      ensures ok <==> old(finished) || (old(isOpen) && |old(staging)| == expectedSize && old(staging) == expected && commits)
      ensures target == if ok && !old(finished) then Some(old(staging)) else old(target)
      ensures ok ==> finished && target == Some(expected) && |expected| == expectedSize
      ensures expectedSize == old(expectedSize) && expected == old(expected)
    {
      if finished { return true; }
      if failed || !isOpen { return false; }
      if |staging| != expectedSize {
        failed, isOpen := true, false;
        return false;
      }
      var output := CopyChunks(staging);
      if output != expected || !commits {
        failed, isOpen := true, false;
        return false;
      }
      target, finished, isOpen, staging := Some(output), true, false, [];
      return true;
    }
  }

  /** The copy loop, one chunk at a time. */
  method CopyChunks(staging: Bytes) returns (output: Bytes)
    ensures output == staging
  {
    output := [];
    var at := 0;
    while at < |staging|
      invariant at <= |staging| && output == staging[..at]
      decreases |staging| - at
    {
      var n := if |staging| - at < CHUNK_SIZE then |staging| - at else CHUNK_SIZE;
      output := output + staging[at..at + n];
      at := at + n;
    }
  }

  lemma StagedMore(staging: Bytes, waiting: Bytes, before: Bytes, got: Bytes, part: Bytes, h: nat)
    requires h <= |got| && staging + waiting == before + got[h..]
    ensures staging + (waiting + part) == before + (got + part)[h..]
  {
    assert (got + part)[h..] == got[h..] + part;
    assert staging + (waiting + part) == (staging + waiting) + part;
    assert before + (got[h..] + part) == (before + got[h..]) + part;
  }

  /** One more part, flushed to the sink when `ready`. */
  method ReceivePart(state: DownloadStreamState, sink: MiniImDownloadSink, ghost before: Bytes, fileId: Bytes,
                     ghost got: Bytes, part: Bytes, ready: bool) returns (ok: bool)
    requires !state.dropped && sink.Valid() && sink.isOpen && Staged(state, sink, before, fileId, got)
    requires var now := got + part; var h := |Header(fileId)|;
             ReadHead(now) == if |now| < h then Incomplete else Parsed(Trimmed(fileId), now[h..])
    modifies state, sink
    ensures sink.Valid() && sink.target == old(sink.target) && sink.expected == old(sink.expected)
    ensures sink.expectedSize == old(sink.expectedSize)
    ensures ok ==> !state.dropped && sink.isOpen && Staged(state, sink, before, fileId, got + part)
    ensures !ok ==> |got + part| >= |Header(fileId)| && |before| + |got + part| - |Header(fileId)| > sink.expectedSize
  {
    ghost var h, waiting, known := |Header(fileId)|, state.buffer, state.headerParsed;
    if known { StagedMore(sink.staging, waiting, before, got, part, h); }
    state.Receive(part);
    assert Staged(state, sink, before, fileId, got + part);
    if state.headerParsed && ready {
      var data := state.TakeBuffer();
      var stored := sink.Append(data, []);
      if !stored { return false; }
      assert sink.staging + [] == sink.staging;
    }
    return true;
  }

  /** A whole stream: however the header and body are cut, and whenever the sink becomes available
      (`ready[i]` after part i), what is staged and what is still buffered are exactly the body. */
  method ReceiveStream(state: DownloadStreamState, sink: MiniImDownloadSink, fileId: Bytes, body: Bytes,
                       parts: seq<Bytes>, ready: seq<bool>) returns (ok: bool)
    requires Named(fileId) && |ready| == |parts|
    requires Concat(parts) == Header(fileId) + body
    requires state.buffer == [] && !state.headerParsed && !state.dropped
    requires sink.Valid() && sink.isOpen
    modifies state, sink
    ensures sink.Valid() && sink.target == old(sink.target) && sink.expected == old(sink.expected)
    ensures ok ==> state.headerParsed && !state.dropped && state.fileId == Trimmed(fileId) && sink.isOpen
                   && sink.staging + state.buffer == old(sink.staging) + body
    ensures !ok ==> |old(sink.staging)| + |body| > sink.expectedSize
    ensures sink.expectedSize == old(sink.expectedSize)
  {
    var i := 0;
    while i < |parts|
      invariant i <= |parts| && sink.Valid() && sink.isOpen && !state.dropped
      invariant sink.target == old(sink.target) && sink.expected == old(sink.expected) && sink.expectedSize == old(sink.expectedSize)
      invariant Staged(state, sink, old(sink.staging), fileId, Concat(parts[..i]))
    {
      ConcatNext(parts, i);
      ConcatPrefix(parts, i + 1);
      HeadNow(fileId, body, Concat(parts[..i + 1]));
      var stored := ReceivePart(state, sink, old(sink.staging), fileId, Concat(parts[..i]), parts[i], ready[i]);
      if !stored { return false; }
      i := i + 1;
    }
    assert parts[..|parts|] == parts;
    assert (Header(fileId) + body)[|Header(fileId)|..] == body;
    return true;
  }

  /** Everything received so far is either still an incomplete header, or staged, or buffered. */
  ghost predicate Staged(state: DownloadStreamState, sink: MiniImDownloadSink, before: Bytes, fileId: Bytes, got: Bytes)
    reads state, sink
  {
    var h := |Header(fileId)|;
    if state.headerParsed then |got| >= h && state.fileId == Trimmed(fileId) && sink.staging + state.buffer == before + got[h..]
    else |got| < h && state.buffer == got && sink.staging == before
  }

  lemma {:induction false} ConcatPrefix(parts: seq<Bytes>, i: nat)
    requires i <= |parts|
    ensures Concat(parts[..i]) <= Concat(parts)
    decreases |parts| - i
  {
    if i == |parts| { assert parts[..i] == parts; }
    else {
      ConcatNext(parts, i);
      ConcatPrefix(parts, i + 1);
    }
  }

  /** A prefix of the stream is either a proper part of the header or the header and some of the body. */
  lemma HeadNow(fileId: Bytes, body: Bytes, got: Bytes)
    requires Named(fileId) && got <= Header(fileId) + body
    ensures if |got| < |Header(fileId)| then ReadHead(got) == Incomplete
            else ReadHead(got) == Parsed(Trimmed(fileId), got[|Header(fileId)|..]) && got == Header(fileId) + got[|Header(fileId)|..]
  {
    var h := Header(fileId);
    if |got| < |h| {
      HeaderFront(fileId, body);
      assert got == h[..|got|];
    } else {
      HeaderFront(fileId, got[|h|..]);
      assert got == h + got[|h|..];
    }
  }

  /** From the server's file to the client's: a stream the scheduler has ended with FIN, cut into any parts
      and read whenever the sink is ready, then finished, publishes exactly the file it was started for. */
  method DownloadWhole(j: Job, o: Out, state: DownloadStreamState, sink: MiniImDownloadSink, parts: seq<Bytes>, ready: seq<bool>)
    requires JobOk(j, o) && o.fin && j.size == |j.content| && Named(j.fileId)
    requires Concat(parts) == o.sent && |ready| == |parts|
    requires state.buffer == [] && !state.headerParsed && !state.dropped
    requires sink.Valid() && sink.isOpen && sink.staging == j.content[..j.start] && sink.expectedSize == j.size && sink.expected == j.content
    modifies state, sink
    ensures sink.Valid() && sink.finished && sink.target == Some(j.content)
  {
    FinMeansWhole(j, o);
    assert j.content[..j.start] + j.content[j.start..] == j.content;
    var stored := ReceiveStream(state, sink, j.fileId, j.content[j.start..], parts, ready);
    ghost var staged := sink.staging;
    var rest := state.TakeBuffer();
    var kept := sink.Append(rest, []);
    assert staged + rest == j.content;
    var published := sink.Finish(true);
  }

  // ---------- all streams of the connection ----------

  /** A stream whose header is known: what waits for the sink, and whether FIN has arrived. */
  datatype In = In(fileId: Bytes, buffer: Bytes, finished: bool)

  /** What the streams hold, one after the other. */
  function Joined(streams: map<nat, In>, order: seq<nat>): Bytes
    decreases |order|
  {
    if order == [] then [] else
      var s := order[|order| - 1];
      Joined(streams, order[..|order| - 1]) + if s in streams then streams[s].buffer else []
  }

  predicate AnyEnded(streams: map<nat, In>, order: seq<nat>)
    decreases |order|
  {
    order != [] && (AnyEnded(streams, order[..|order| - 1]) || (order[|order| - 1] in streams && streams[order[|order| - 1]].finished))
  }

  function Emptied(streams: map<nat, In>, order: seq<nat>): map<nat, In> {
    map s | s in streams :: if s in order then streams[s].(buffer := []) else streams[s]
  }

  /** The streams of one file, each once, in the order the table is walked. */
  ghost predicate Walks(streams: map<nat, In>, fileId: Bytes, order: seq<nat>) {
    && (forall s :: s in order <==> s in streams && streams[s].fileId == fileId)
    && forall i, k :: 0 <= i < k < |order| ==> order[i] != order[k]
  }

  lemma EmptiedMore(streams: map<nat, In>, order: seq<nat>, i: nat)
    requires i < |order| && (forall s :: s in order ==> s in streams) && forall a, b :: 0 <= a < b < |order| ==> order[a] != order[b]
    ensures var now := Emptied(streams, order[..i]); var s := order[i];
            now[s] == streams[s] && Emptied(streams, order[..i + 1]) == now[s := streams[s].(buffer := [])]
    ensures Joined(streams, order[..i + 1]) == Joined(streams, order[..i]) + streams[order[i]].buffer
    ensures AnyEnded(streams, order[..i + 1]) <==> AnyEnded(streams, order[..i]) || streams[order[i]].finished
  {
    assert order[..i + 1] == order[..i] + [order[i]] && order[..i + 1][..i] == order[..i];
    assert order[i] !in order[..i];
  }

  class MiniImFileReceiver {
    var streams: map<nat, In>
    /** The pending downloads that have a sink, and those that have failed. */
    var sinks: map<Bytes, MiniImDownloadSink>
    var failed: set<Bytes>

    constructor ()
      ensures streams == map[] && sinks == map[] && failed == {}
    {
      streams, sinks, failed := map[], map[], {};
    }

    predicate Receiving(fileId: Bytes)
      reads this
    {
      fileId in sinks && fileId !in failed
    }

    /** flushPendingDownloadBuffers: every stream of the file, in turn, into its sink.  A refused append fails
        the file for good; the target is not touched here. */
    method FlushPending(fileId: Bytes, order: seq<nat>) returns (finished: bool)
      requires Walks(streams, fileId, order) && (fileId in sinks ==> sinks[fileId].Valid())
      modifies this`streams, this`failed, if fileId in sinks then {sinks[fileId]} else {}
      ensures fileId in sinks ==> sinks[fileId].Valid() && sinks[fileId].target == old(sinks[fileId].target)
      ensures !old(Receiving(fileId)) ==> !finished && streams == old(streams) && failed == old(failed)
                                          && (fileId in sinks ==> unchanged(sinks[fileId]))
      ensures old(Receiving(fileId)) && Receiving(fileId) ==>
                && failed == old(failed) && streams == Emptied(old(streams), order)
                && sinks[fileId].staging == old(sinks[fileId].staging) + Joined(old(streams), order)
                && (finished <==> AnyEnded(old(streams), order))
      ensures old(Receiving(fileId)) && !Receiving(fileId) ==>
                !finished && failed == old(failed) + {fileId} && !sinks[fileId].isOpen
    {
      if !Receiving(fileId) { return false; }
      var stored;
      stored, finished := FlushEach(order, sinks[fileId]);
      if !stored {
        failed := failed + {fileId};
        finished := false;
      }
    }

    method FlushEach(order: seq<nat>, sink: MiniImDownloadSink) returns (ok: bool, finished: bool)
      requires sink.Valid() && (forall s :: s in order ==> s in streams)
      requires forall i, k :: 0 <= i < k < |order| ==> order[i] != order[k]
      modifies this`streams, sink
      ensures sink.Valid() && sink.target == old(sink.target) && (!ok ==> !sink.isOpen)
      ensures ok ==> streams == Emptied(old(streams), order) && sink.staging == old(sink.staging) + Joined(old(streams), order)
      ensures ok ==> (finished <==> AnyEnded(old(streams), order))
    {
      ghost var was, before := streams, sink.staging;
      ok, finished := true, false;
      for i := 0 to |order|
        invariant sink.Valid() && sink.target == old(sink.target)
        invariant streams == Emptied(was, order[..i]) && sink.staging == before + Joined(was, order[..i])
        invariant finished <==> AnyEnded(was, order[..i])
      {
        EmptiedMore(was, order, i);
        finished := finished || streams[order[i]].finished;
        ok := FlushOne(order[i], sink);
        if !ok { return; }
      }
      assert order[..|order|] == order;
    }

    method FlushOne(s: nat, sink: MiniImDownloadSink) returns (ok: bool)
      requires s in streams && sink.Valid()
      modifies this`streams, sink
      ensures sink.Valid() && sink.target == old(sink.target) && (!ok ==> !sink.isOpen)
      ensures ok ==> streams == old(streams)[s := old(streams)[s].(buffer := [])] && sink.staging == old(sink.staging) + old(streams)[s].buffer
    {
      ok := true;
      if streams[s].buffer != [] { ok := sink.Append(streams[s].buffer, []); }
      if ok { streams := streams[s := streams[s].(buffer := [])]; }
    }

    /** finishDownload: publishes exactly content of the declared size and digest, else the file has failed. */
    method FinishDownload(fileId: Bytes, commits: bool)
      requires fileId in sinks && sinks[fileId].Valid()
      modifies this`failed, sinks[fileId]
      ensures sinks[fileId].Valid()
      ensures var sink := sinks[fileId];
              var whole := old(sink.isOpen && |sink.staging| == sink.expectedSize && sink.staging == sink.expected) && commits;
              && sink.target == (if whole && !old(sink.finished) then Some(old(sink.staging)) else old(sink.target))
              && failed == if whole || old(sink.finished) then old(failed) else old(failed) + {fileId}
    {
      var published := sinks[fileId].Finish(commits);
      if !published { failed := failed + {fileId}; }
    }
  }
}
