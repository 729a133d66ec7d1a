/** The download scheduler: file reads bounded by what the peer has not acknowledged yet. */
module DownloadServer {
  import opened SyncEvents

  type Bytes = seq<bv8>

  const CHUNK_SIZE: nat := 64 * 1024
  const STREAM_BUFFER_LIMIT: nat := 128 * 1024
  const MAX_DOWNLOADS: nat := 8
  const HEADER_MAX: nat := 512

  /** "MINIIMFILE1 " */
  const PREFIX: Bytes := [0x4D, 0x49, 0x4E, 0x49, 0x49, 0x4D, 0x46, 0x49, 0x4C, 0x45, 0x31, 0x20]
  const NEWLINE: bv8 := 0x0A

  function Header(fileId: Bytes): Bytes { PREFIX + fileId + [NEWLINE] }

  /** `content` is the file behind the job's path; `start` is the offset the client asked for. */
  datatype Job = Job(fileId: Bytes, content: Bytes, start: nat, offset: nat, size: nat, priority: int, eof: bool)

  /** One QUIC send stream: everything handed to it, the acknowledged prefix, FIN, a requested reset and
      its acknowledgement. */
  datatype Out = Out(sent: Bytes, acked: nat, fin: bool, reset: bool, resetDone: bool)

  /** Bytes handed to the stream and not acknowledged yet. */
  function Pending(o: Out): int { |o.sent| - o.acked }

  /** All sent bytes and FIN acknowledged, or the reset acknowledged. */
  predicate FinishedOut(o: Out) { o.resetDone || (o.fin && o.acked == |o.sent|) }

  /** Bytes a to b of the file, as far as it has them. */
  function Slice(content: Bytes, a: nat, b: nat): Bytes { if a <= b <= |content| then content[a..b] else [] }

  /** What a stream has carried is the header and the file from `start` to the job's offset, no more
      than the limit is unacknowledged, and FIN means the whole declared size went out. */
  ghost predicate JobOk(j: Job, o: Out) {
    && j.start <= j.offset <= j.size && (j.start < j.offset ==> j.offset <= |j.content|)
    && o.sent == Header(j.fileId) + Slice(j.content, j.start, j.offset)
    && o.acked <= |o.sent| && Pending(o) <= STREAM_BUFFER_LIMIT
    && (o.fin ==> j.offset == j.size && j.eof)
    && (j.eof ==> o.fin || o.reset) && (o.resetDone ==> o.reset)
  }

  /** What can happen while a read is in progress. */
  datatype During =
    | Ack(stream: nat, upTo: nat)
    | PeerReset(stream: nat)
    | ResetAcked(stream: nat)
    | CancelFile(fileId: Bytes)
    | StartFile(fileId: Bytes, content: Bytes, size: int, offset: int, priority: int)
    | Close

  type Jobs = map<nat, Job>
  type Outs = map<nat, Out>

  ghost predicate SchedulerOk(jobs: Jobs, streams: Outs, nextStream: nat) {
    && |jobs| <= MAX_DOWNLOADS
    && (forall s :: s in jobs ==> s in streams && JobOk(jobs[s], streams[s]))
    && (forall s :: s in streams ==> s < nextStream)
    && (forall s, t :: s in jobs && t in jobs && s != t ==> jobs[s].fileId != jobs[t].fileId)
  }

  /** Nothing was sent on an old stream, no offset moved, acknowledgements only grew. */
  ghost predicate Unmoved(jobs: Jobs, streams: Outs, jobs2: Jobs, streams2: Outs) {
    && (forall s :: s in jobs ==> s in jobs2 && jobs2[s] == jobs[s].(eof := jobs2[s].eof))
    && (forall s :: s in streams ==> s in streams2 && StillOut(streams[s], streams2[s]))
  }

  predicate StillOut(a: Out, b: Out) {
    && b.sent == a.sent && b.fin == a.fin && a.acked <= b.acked
    && (a.reset ==> b.reset) && (a.resetDone ==> b.resetDone)
  }

  lemma UnmovedTrans(j1: Jobs, s1: Outs, j2: Jobs, s2: Outs, j3: Jobs, s3: Outs)
    requires Unmoved(j1, s1, j2, s2) && Unmoved(j2, s2, j3, s3)
    ensures Unmoved(j1, s1, j3, s3)
  {
  }

  lemma JobReplaced(jobs: Jobs, streams: Outs, nextStream: nat, s: nat, j: Job, o: Out)
    requires SchedulerOk(jobs, streams, nextStream) && s in jobs && j.fileId == jobs[s].fileId && JobOk(j, o)
    ensures SchedulerOk(jobs[s := j], streams[s := o], nextStream)
  {
  }

  lemma StreamReplaced(jobs: Jobs, streams: Outs, nextStream: nat, s: nat, o: Out)
    requires SchedulerOk(jobs, streams, nextStream) && s in streams && (s in jobs ==> JobOk(jobs[s], o))
    ensures SchedulerOk(jobs, streams[s := o], nextStream)
  {
  }

  lemma JobAdded(jobs: Jobs, streams: Outs, nextStream: nat, j: Job, o: Out)
    requires SchedulerOk(jobs, streams, nextStream) && |jobs| < MAX_DOWNLOADS && JobOk(j, o)
    requires forall s :: s in jobs ==> jobs[s].fileId != j.fileId
    ensures SchedulerOk(jobs[nextStream := j], streams[nextStream := o], nextStream + 1)
    ensures nextStream !in jobs && nextStream !in streams
  {
  }

  lemma FreshOk(fileId: Bytes, content: Bytes, size: nat, offset: nat, priority: int)
    requires offset <= size && |Header(fileId)| <= HEADER_MAX
    ensures JobOk(Job(fileId, content, offset, offset, size, priority, false), Out(Header(fileId), 0, false, false, false))
  {
    assert Header(fileId) + Slice(content, offset, offset) == Header(fileId);
  }

  lemma ResetOk(j: Job, o: Out)
    requires JobOk(j, o)
    ensures JobOk(j.(eof := true), o.(reset := true))
  {
  }

  lemma SentOk(j: Job, o: Out, chunk: Bytes)
    requires JobOk(j, o) && !o.fin && Fits(j, o, chunk) && j.offset + |chunk| <= j.size && (chunk == [] ==> j.offset == j.size)
    ensures JobOk(j.(offset := j.offset + |chunk|, eof := chunk == []), o.(sent := o.sent + chunk, fin := chunk == []))
  {
    SliceGrows(Header(j.fileId), j.content, j.start, j.offset, chunk);
  }

  lemma SettleOk(j: Job, o: Out, chunk: Bytes)
    requires JobOk(j, o) && !o.fin && Fits(j, o, chunk)
    ensures var r := Settle(j, o, chunk); JobOk(r.0, r.1) && r.0.fileId == j.fileId && o.sent <= r.1.sent
  {
    if (chunk == [] && j.offset != j.size) || j.offset + |chunk| > j.size { ResetOk(j, o); } else { SentOk(j, o, chunk); }
  }

  /** The file's jobs send nothing more. */
  ghost predicate Silenced(jobs: Jobs, jobs2: Jobs, streams2: Outs, fileId: Bytes) {
    forall s :: s in jobs && jobs[s].fileId == fileId ==> s in jobs2 && jobs2[s].eof && s in streams2 && streams2[s].reset
  }

  lemma CancelledAll(jobs: Jobs, streams: Outs, nextStream: nat, s: nat, jobs2: Jobs, streams2: Outs)
    requires SchedulerOk(jobs, streams, nextStream) && s in jobs
    requires jobs2 == jobs[s := jobs[s].(eof := true)] && streams2 == streams[s := streams[s].(reset := true)]
    ensures Unmoved(jobs, streams, jobs2, streams2) && Silenced(jobs, jobs2, streams2, jobs[s].fileId)
  {
  }

  /** How much one read may ask for. */
  function Budget(pending: int): (n: nat)
    requires pending <= STREAM_BUFFER_LIMIT
    ensures n <= CHUNK_SIZE && pending + n <= STREAM_BUFFER_LIMIT
  {
    if CHUNK_SIZE < STREAM_BUFFER_LIMIT - pending then CHUNK_SIZE else STREAM_BUFFER_LIMIT - pending
  }

  /** The end of a read: bytes go out up to the declared size, FIN exactly at it; a source that proves
      too short or too long resets the stream. */
  function Settle(j: Job, o: Out, chunk: Bytes): (Job, Out) {
    if (chunk == [] && j.offset != j.size) || j.offset + |chunk| > j.size then (j.(eof := true), o.(reset := true))
    else (j.(offset := j.offset + |chunk|, eof := chunk == []), o.(sent := o.sent + chunk, fin := chunk == []))
  }

  /** One uninterrupted turn of an open job. */
  function Served(j: Job, o: Out): (Job, Out)
    requires Pending(o) <= STREAM_BUFFER_LIMIT
  {
    if j.eof || o.reset || Pending(o) >= STREAM_BUFFER_LIMIT then (j, o)
    else Settle(j, o, ReadChunk(j.content, j.offset, Budget(Pending(o))))
  }

  /** Nothing sent is taken back, on any stream. */
  ghost predicate Grown(streams: Outs, streams2: Outs) {
    forall s :: s in streams ==> s in streams2 && streams[s].sent <= streams2[s].sent && (streams[s].fin ==> streams2[s].fin && streams2[s].sent == streams[s].sent)
  }

  /** The jobs of a turn: each once, by falling priority. */
  ghost predicate Scheduled(jobs: Jobs, order: seq<nat>) {
    && (forall s :: s in jobs <==> s in order)
    && (forall i, k :: 0 <= i < k < |order| ==> order[i] != order[k] && (order[i] in jobs && order[k] in jobs ==> jobs[order[i]].priority >= jobs[order[k]].priority))
  }

  /** What an uninterrupted turn leaves of the job on stream s. */
  ghost predicate Turned(jobs: Jobs, streams: Outs, jobs2: Jobs, streams2: Outs, s: nat)
    requires s in jobs && s in streams && Pending(streams[s]) <= STREAM_BUFFER_LIMIT
  {
    if FinishedOut(streams[s]) then s !in jobs2
    else s in jobs2 && s in streams2 && (jobs2[s], streams2[s]) == Served(jobs[s], streams[s])
  }

  ghost predicate Untouched(jobs: Jobs, streams: Outs, jobs2: Jobs, streams2: Outs, s: nat) {
    s in jobs && s in streams && s in jobs2 && s in streams2 && jobs2[s] == jobs[s] && streams2[s] == streams[s]
  }

  /** What fitted before the wait still fits after it. */
  lemma FitsLater(j: Job, o: Out, j2: Job, o2: Out, chunk: Bytes)
    requires Fits(j, o, chunk) && j2 == j.(eof := j2.eof) && StillOut(o, o2)
    ensures Fits(j2, o2, chunk)
  {
  }

  lemma JobRemoved(jobs: Jobs, streams: Outs, nextStream: nat, s: nat)
    requires SchedulerOk(jobs, streams, nextStream) && s in jobs
    ensures SchedulerOk(jobs - {s}, streams, nextStream)
  {
    assert (jobs - {s}).Keys < jobs.Keys;
    SmallerSet((jobs - {s}).Keys, jobs.Keys);
  }

  lemma SmallerSet(a: set<nat>, b: set<nat>)
    requires a <= b
    ensures |a| <= |b|
  {
    assert b == a + (b - a);
  }

  class DownloadScheduler {
    var jobs: Jobs
    var streams: Outs
    var nextStream: nat
    var closed: bool

    ghost predicate Valid()
      reads this
    {
      SchedulerOk(jobs, streams, nextStream)
    }

    constructor ()
      ensures Valid() && jobs == map[] && streams == map[] && !closed
    {
      jobs, streams, nextStream, closed := map[], map[], 0, false;
    }

    predicate Active(fileId: Bytes)
      reads this
    {
      exists s :: s in jobs && jobs[s].fileId == fileId
    }

    predicate Refuses(fileId: Bytes, size: int, offset: int)
      reads this
    {
      closed || |jobs| >= MAX_DOWNLOADS || size <= 0 || offset < 0 || offset > size || |Header(fileId)| > HEADER_MAX
    }

    method AddJob(job: Job, out: Out)
      requires Valid() && |jobs| < MAX_DOWNLOADS && JobOk(job, out) && !Active(job.fileId)
      modifies this`jobs, this`streams, this`nextStream
      ensures Valid()
      ensures jobs == old(jobs)[old(nextStream) := job] && streams == old(streams)[old(nextStream) := out]
      ensures old(nextStream) !in old(jobs) && old(nextStream) !in old(streams)
    {
      JobAdded(jobs, streams, nextStream, job, out);
      streams, jobs, nextStream := streams[nextStream := out], jobs[nextStream := job], nextStream + 1;
    }

    method ReplaceJob(s: nat, job: Job, out: Out)
      requires Valid() && s in jobs && job.fileId == jobs[s].fileId && JobOk(job, out)
      modifies this`jobs, this`streams
      ensures Valid() && jobs == old(jobs)[s := job] && streams == old(streams)[s := out]
    {
      JobReplaced(jobs, streams, nextStream, s, job, out);
      streams, jobs := streams[s := out], jobs[s := job];
    }

    /** A second download of the same file is ignored; a full queue or bad numbers are refused. */
    method Start(fileId: Bytes, content: Bytes, size: int, offset: int, priority: int) returns (refused: bool)
      requires Valid()
      modifies this
      ensures Valid() && closed == old(closed)
      ensures refused <==> !old(Active(fileId)) && old(Refuses(fileId, size, offset))
      ensures if old(Active(fileId)) || refused then jobs == old(jobs) && streams == old(streams)
              else
                && jobs == old(jobs)[old(nextStream) := Job(fileId, content, offset, offset, size, priority, false)]
                && streams == old(streams)[old(nextStream) := Out(Header(fileId), 0, false, false, false)]
      ensures Unmoved(old(jobs), old(streams), jobs, streams)
    {
      if Active(fileId) { return false; }
      if Refuses(fileId, size, offset) { return true; }
      var header := Header(fileId);
      var job, out := Job(fileId, content, offset, offset, size, priority, false), Out(header, 0, false, false, false);
      FreshOk(fileId, content, size, offset, priority);
      AddJob(job, out);
      return false;
    }

    method CancelJob(s: nat)
      requires Valid() && s in jobs
      modifies this`jobs, this`streams
      ensures Valid() && jobs == old(jobs)[s := old(jobs)[s].(eof := true)]
      ensures streams == old(streams)[s := old(streams)[s].(reset := true)]
    {
      ResetOk(jobs[s], streams[s]);
      ReplaceJob(s, jobs[s].(eof := true), streams[s].(reset := true));
    }

    /** Resets the file's stream; the job stays until the stream is finished. */
    method Cancel(fileId: Bytes)
      requires Valid()
      modifies this`jobs, this`streams
      ensures Valid() && Unmoved(old(jobs), old(streams), jobs, streams)
      ensures Silenced(old(jobs), jobs, streams, fileId)
    {
      ghost var j0, s0, n0 := jobs, streams, nextStream;
      if s :| s in jobs && jobs[s].fileId == fileId {
        CancelJob(s);
        CancelledAll(j0, s0, n0, s, jobs, streams);
      }
    }

    /** A cumulative acknowledgement. */
    method Acknowledge(stream: nat, upTo: nat)
      requires Valid()
      modifies this`streams
      ensures Valid() && Unmoved(old(jobs), old(streams), jobs, streams)
    {
      if stream in streams && streams[stream].acked <= upTo <= |streams[stream].sent| {
        StreamReplaced(jobs, streams, nextStream, stream, streams[stream].(acked := upTo));
        streams := streams[stream := streams[stream].(acked := upTo)];
      }
    }

    method Reset(stream: nat)
      requires Valid()
      modifies this`streams
      ensures Valid() && Unmoved(old(jobs), old(streams), jobs, streams)
      ensures stream in streams ==> streams[stream].reset
    {
      if stream in streams {
        StreamReplaced(jobs, streams, nextStream, stream, streams[stream].(reset := true));
        streams := streams[stream := streams[stream].(reset := true)];
      }
    }

    /** The peer acknowledges a reset that was requested. */
    method ResetDone(stream: nat)
      requires Valid()
      modifies this`streams
      ensures Valid() && Unmoved(old(jobs), old(streams), jobs, streams)
    {
      if stream in streams && streams[stream].reset {
        StreamReplaced(jobs, streams, nextStream, stream, streams[stream].(resetDone := true));
        streams := streams[stream := streams[stream].(resetDone := true)];
      }
    }

    method Happen(event: During)
      requires Valid()
      modifies this
      ensures Valid() && (old(closed) ==> closed) && Unmoved(old(jobs), old(streams), jobs, streams)
    {
      match event
      case Ack(stream, upTo) => Acknowledge(stream, upTo);
      case PeerReset(stream) => Reset(stream);
      case ResetAcked(stream) => ResetDone(stream);
      case CancelFile(fileId) => Cancel(fileId);
      case StartFile(fileId, content, size, offset, priority) => var refused := Start(fileId, content, size, offset, priority);
      case Close => closed := true;
    }

    /** Whatever happens while one read is awaited. */
    method Meanwhile(events: seq<During>)
      requires Valid()
      modifies this
      ensures Valid() && (old(closed) ==> closed) && Unmoved(old(jobs), old(streams), jobs, streams)
      ensures events == [] ==> jobs == old(jobs) && streams == old(streams) && closed == old(closed)
    {
      for i := 0 to |events|
        invariant Valid() && (old(closed) ==> closed) && Unmoved(old(jobs), old(streams), jobs, streams)
        invariant i == 0 ==> jobs == old(jobs) && streams == old(streams) && closed == old(closed)
      {
        ghost var j, s := jobs, streams;
        Happen(events[i]);
        UnmovedTrans(old(jobs), old(streams), j, s, jobs, streams);
      }
    }

    method SendChunk(s: nat, chunk: Bytes)
      requires Valid() && s in jobs && !streams[s].fin && !streams[s].reset && Fits(jobs[s], streams[s], chunk)
      modifies this`jobs, this`streams
      ensures Valid()
      ensures var r := Settle(old(jobs)[s], old(streams)[s], chunk);
              jobs == old(jobs)[s := r.0] && streams == old(streams)[s := r.1]
    {
      SettleOk(jobs[s], streams[s], chunk);
      var r := Settle(jobs[s], streams[s], chunk);
      ReplaceJob(s, r.0, r.1);
    }

    /** Sends what was read unless the job was stopped meanwhile. */
    method Deliver(s: nat, chunk: Bytes)
      requires Valid() && s in jobs && !streams[s].fin && Fits(jobs[s], streams[s], chunk)
      modifies this`jobs, this`streams
      ensures Valid() && s in jobs && Grown(old(streams), streams)
      ensures var r := if closed || old(streams)[s].reset then (old(jobs)[s], old(streams)[s]) else Settle(old(jobs)[s], old(streams)[s], chunk);
              jobs == old(jobs)[s := r.0] && streams == old(streams)[s := r.1]
    {
      if !closed && !streams[s].reset {
        SettleOk(jobs[s], streams[s], chunk);
        GrownPut(streams, s, Settle(jobs[s], streams[s], chunk).1);
        SendChunk(s, chunk);
      }
    }

    /** One turn of one job, with arbitrary events while its read waits; nothing but a close, a full
        buffer or a reset keeps the bytes from going out. */
    method ServeJob(s: nat, during: seq<During>)
      requires Valid() && s in jobs && !jobs[s].eof && !streams[s].reset && !streams[s].fin
      modifies this
      ensures Valid() && s in jobs && (old(closed) ==> closed) && Grown(old(streams), streams)
      ensures !closed && s in streams && !streams[s].reset ==> Advanced(old(jobs)[s], old(streams)[s], jobs[s], streams[s])
      ensures during == [] && !old(closed) ==> !closed && OnlyServed(old(jobs), old(streams), jobs, streams, s)
    {
      if Pending(streams[s]) < STREAM_BUFFER_LIMIT { ReadAndSend(s, during); }
    }

    /** One read within what the peer has room for. */
    method ReadAndSend(s: nat, during: seq<During>)
      requires Valid() && s in jobs && !jobs[s].eof && !streams[s].reset && !streams[s].fin && Pending(streams[s]) < STREAM_BUFFER_LIMIT
      modifies this
      ensures Valid() && s in jobs && (old(closed) ==> closed) && Grown(old(streams), streams)
      ensures !closed && s in streams && !streams[s].reset ==> Advanced(old(jobs)[s], old(streams)[s], jobs[s], streams[s])
      ensures during == [] && !old(closed) ==> !closed && OnlyServed(old(jobs), old(streams), jobs, streams, s)
    {
      var chunk := ReadChunk(jobs[s].content, jobs[s].offset, Budget(Pending(streams[s])));
      ghost var s0 := streams;
      ReadFits(jobs[s], streams[s], chunk);
      Await(s, during, chunk);
      ghost var s1 := streams;
      Deliver(s, chunk);
      GrownTrans(s0, s1, streams);
    }

    /** The wait for a read: what was read still fits, and delivering it will count as one read. */
    method Await(s: nat, during: seq<During>, ghost chunk: Bytes)
      requires Valid() && s in jobs && !jobs[s].eof && !streams[s].reset && !streams[s].fin && Fits(jobs[s], streams[s], chunk)
      requires chunk == ReadChunk(jobs[s].content, jobs[s].offset, Budget(Pending(streams[s])))
      modifies this
      ensures Valid() && s in jobs && (old(closed) ==> closed) && Grown(old(streams), streams)
      ensures !streams[s].fin && Fits(jobs[s], streams[s], chunk)
      ensures var r := Settle(jobs[s], streams[s], chunk); r.1.reset || Advanced(old(jobs)[s], old(streams)[s], r.0, r.1)
      ensures during == [] ==> jobs == old(jobs) && streams == old(streams) && closed == old(closed)
    {
      ghost var j0, s0 := jobs, streams;
      Meanwhile(during);
      FitsLater(j0[s], s0[s], jobs[s], streams[s], chunk);
      SettleAdvances(j0[s], s0[s], jobs[s], streams[s]);
      UnmovedGrown(j0, s0, jobs, streams);
    }

    /** Finished streams free their place. */
    method Reap(s: nat)
      requires Valid() && s in jobs && FinishedOut(streams[s])
      modifies this`jobs
      ensures Valid() && jobs == old(jobs) - {s}
    {
      JobRemoved(jobs, streams, nextStream, s);
      jobs := jobs - {s};
    }

    method ServeOpen(s: nat, during: seq<During>)
      requires Valid() && s in jobs && !jobs[s].eof && !streams[s].reset && !streams[s].fin
      modifies this
      ensures Valid() && (old(closed) ==> closed) && Grown(old(streams), streams)
      ensures during == [] && !old(closed) ==>
                !closed && Elsewhere(old(jobs), old(streams), jobs, streams, s) && Turned(old(jobs), old(streams), jobs, streams, s)
    {
      ghost var j0, s0 := jobs, streams;
      ServeJob(s, during);
      if OnlyServed(j0, s0, jobs, streams, s) { ServedElsewhere(j0, s0, jobs, streams, s); }
    }

    /** One job's place in the turn: gone by now, finished, ended, or served. */
    method Visit(s: nat, during: seq<During>)
      requires Valid()
      modifies this
      ensures Valid() && (old(closed) ==> closed) && Grown(old(streams), streams)
      ensures during == [] && !old(closed) ==> !closed && Elsewhere(old(jobs), old(streams), jobs, streams, s)
      ensures during == [] && !old(closed) && s in old(jobs) ==> Turned(old(jobs), old(streams), jobs, streams, s)
    {
      if s in jobs {
        if FinishedOut(streams[s]) { Reap(s); }
        else if !jobs[s].eof && !streams[s].reset { ServeOpen(s, during); }
      }
    }

    method VisitNext(order: seq<nat>, i: nat, during: seq<During>, ghost j0: Jobs, ghost s0: Outs)
      requires Valid() && i < |order| && Scheduled(j0, order) && Grown(s0, streams)
      modifies this
      ensures Valid() && Grown(s0, streams)
      ensures during == [] && !old(closed) && old(Halfway(j0, s0, jobs, streams, order, i))
              ==> !closed && Halfway(j0, s0, jobs, streams, order, i + 1)
    {
      ghost var j1, s1, open := jobs, streams, !closed;
      Visit(order[i], during);
      GrownTrans(s0, s1, streams);
      if during == [] && open && Halfway(j0, s0, j1, s1, order, i) {
        assert Untouched(j0, s0, j1, s1, order[i]);
        OneFurther(j0, s0, j1, s1, jobs, streams, order, i);
      }
    }

    /** The scheduling loop: every job once, each with its own interruptions.  The bounds hold whatever
        happens, and without interruptions every open job gets its read and every finished one leaves. */
    method Turn(order: seq<nat>, during: seq<seq<During>>)
      requires Valid() && |during| == |order| && Scheduled(jobs, order)
      modifies this
      ensures Valid() && Grown(old(streams), streams)
      ensures |jobs| <= MAX_DOWNLOADS && forall s :: s in jobs ==> s in streams && Pending(streams[s]) <= STREAM_BUFFER_LIMIT
      ensures !old(closed) && (forall i :: 0 <= i < |during| ==> during[i] == []) ==>
                forall s :: s in old(jobs) ==> Turned(old(jobs), old(streams), jobs, streams, s)
    {
      ghost var quiet := !closed && forall i :: 0 <= i < |during| ==> during[i] == [];
      ghost var j0, s0 := jobs, streams;
      for i := 0 to |order|
        invariant Valid() && Grown(s0, streams)
        invariant quiet ==> !closed && Halfway(j0, s0, jobs, streams, order, i)
      {
        if closed { break; }
        VisitNext(order, i, during[i], j0, s0);
      }
    }
  }

  /** What one read adds: the chunk and nothing else, with FIN exactly on an empty one. */
  ghost predicate Advanced(j: Job, o: Out, j2: Job, o2: Out)
    requires Pending(o) <= STREAM_BUFFER_LIMIT
  {
    var chunk := ReadChunk(j.content, j.offset, Budget(Pending(o)));
    Pending(o) < STREAM_BUFFER_LIMIT ==> o2.sent == o.sent + chunk && j2.offset == j.offset + |chunk| && (o2.fin <==> chunk == [])
  }

  lemma SettleAdvances(j: Job, o: Out, j1: Job, o1: Out)
    requires Pending(o) <= STREAM_BUFFER_LIMIT && j1 == j.(eof := j1.eof) && StillOut(o, o1)
    ensures var r := Settle(j1, o1, ReadChunk(j.content, j.offset, Budget(Pending(o))));
            r.1.reset || Advanced(j, o, r.0, r.1)
  {
  }

  lemma ReadFits(j: Job, o: Out, chunk: Bytes)
    requires Pending(o) < STREAM_BUFFER_LIMIT && chunk == ReadChunk(j.content, j.offset, Budget(Pending(o)))
    ensures Fits(j, o, chunk)
    ensures !j.eof && !o.reset ==> Served(j, o) == Settle(j, o, chunk)
  {
  }

  ghost predicate OnlyServed(jobs: Jobs, streams: Outs, jobs2: Jobs, streams2: Outs, s: nat)
    requires s in jobs && s in streams && Pending(streams[s]) <= STREAM_BUFFER_LIMIT
  {
    var r := Served(jobs[s], streams[s]);
    jobs2 == jobs[s := r.0] && streams2 == streams[s := r.1]
  }

  /** Every other job is as it was. */
  ghost predicate Elsewhere(jobs: Jobs, streams: Outs, jobs2: Jobs, streams2: Outs, s: nat) {
    && (forall t :: t in streams && t != s ==> t in streams2 && streams2[t] == streams[t])
    && jobs2 - {s} == jobs - {s}
  }

  /** The first i jobs have had their turn and the others are still as they were. */
  ghost predicate Halfway(j0: Jobs, s0: Outs, jobs: Jobs, streams: Outs, order: seq<nat>, i: nat) {
    && (forall k :: 0 <= k < |order| ==> order[k] in j0 && order[k] in s0 && Pending(s0[order[k]]) <= STREAM_BUFFER_LIMIT)
    && (forall k :: 0 <= k < i && k < |order| ==> Turned(j0, s0, jobs, streams, order[k]))
    && (forall k :: i <= k < |order| ==> Untouched(j0, s0, jobs, streams, order[k]))
  }

  lemma TurnedLater(j0: Jobs, s0: Outs, j1: Jobs, s1: Outs, j2: Jobs, s2: Outs, s: nat, t: nat)
    requires s in j0 && s in s0 && Pending(s0[s]) <= STREAM_BUFFER_LIMIT && s != t
    requires Elsewhere(j1, s1, j2, s2, t) && Turned(j0, s0, j1, s1, s)
    ensures Turned(j0, s0, j2, s2, s)
  {
    assert s in j1 <==> s in j1 - {t};
    assert s in j2 <==> s in j2 - {t};
    if s in j1 { assert (j1 - {t})[s] == j1[s]; }
    if s in j2 { assert (j2 - {t})[s] == j2[s]; }
  }

  lemma UntouchedLater(j0: Jobs, s0: Outs, j1: Jobs, s1: Outs, j2: Jobs, s2: Outs, s: nat, t: nat)
    requires Elsewhere(j1, s1, j2, s2, t) && Untouched(j0, s0, j1, s1, s) && s != t
    ensures Untouched(j0, s0, j2, s2, s)
  {
    assert s in j1 - {t};
    assert (j1 - {t})[s] == j1[s] == (j2 - {t})[s] == j2[s];
  }

  lemma OneFurther(j0: Jobs, s0: Outs, j1: Jobs, s1: Outs, j2: Jobs, s2: Outs, order: seq<nat>, i: nat)
    requires i < |order| && Scheduled(j0, order) && Halfway(j0, s0, j1, s1, order, i)
    requires Elsewhere(j1, s1, j2, s2, order[i])
    requires order[i] in j1 && order[i] in s1 && Pending(s1[order[i]]) <= STREAM_BUFFER_LIMIT && Turned(j1, s1, j2, s2, order[i])
    ensures Halfway(j0, s0, j2, s2, order, i + 1)
  {
    assert Untouched(j0, s0, j1, s1, order[i]);
    forall k | 0 <= k < i ensures Turned(j0, s0, j2, s2, order[k]) { TurnedLater(j0, s0, j1, s1, j2, s2, order[k], order[i]); }
    forall k | i < k < |order| ensures Untouched(j0, s0, j2, s2, order[k]) { UntouchedLater(j0, s0, j1, s1, j2, s2, order[k], order[i]); }
  }

  lemma ServedElsewhere(jobs: Jobs, streams: Outs, jobs2: Jobs, streams2: Outs, s: nat)
    requires s in jobs && s in streams && Pending(streams[s]) <= STREAM_BUFFER_LIMIT && !FinishedOut(streams[s])
    requires OnlyServed(jobs, streams, jobs2, streams2, s)
    ensures Elsewhere(jobs, streams, jobs2, streams2, s) && Turned(jobs, streams, jobs2, streams2, s)
  {
  }

  lemma UnmovedGrown(jobs: Jobs, streams: Outs, jobs2: Jobs, streams2: Outs)
    requires Unmoved(jobs, streams, jobs2, streams2)
    ensures Grown(streams, streams2)
  {
  }

  lemma GrownPut(streams: Outs, s: nat, o: Out)
    requires s in streams && streams[s].sent <= o.sent && !streams[s].fin
    ensures Grown(streams, streams[s := o])
  {
  }

  lemma GrownTrans(a: Outs, b: Outs, c: Outs)
    requires Grown(a, b) && Grown(b, c)
    ensures Grown(a, c)
  {
  }

  /** The chunk was read at the job's offset and fits in what the stream may still leave unacknowledged. */
  predicate Fits(j: Job, o: Out, chunk: Bytes) {
    && |chunk| + |o.sent| <= STREAM_BUFFER_LIMIT + o.acked
    && (chunk != [] ==> j.offset + |chunk| <= |j.content| && chunk == j.content[j.offset..j.offset + |chunk|])
  }

  function ReadChunk(content: Bytes, offset: nat, n: nat): (chunk: Bytes)
    ensures |chunk| <= n
    ensures chunk != [] ==> offset + |chunk| <= |content| && chunk == content[offset..offset + |chunk|]
    ensures chunk == [] ==> n == 0 || offset >= |content|
  {
    if offset >= |content| then [] else if offset + n <= |content| then content[offset..offset + n] else content[offset..]
  }

  lemma SliceGrows(header: Bytes, content: Bytes, start: nat, offset: nat, chunk: Bytes)
    requires start <= offset && (start < offset ==> offset <= |content|)
    requires chunk != [] ==> offset + |chunk| <= |content| && chunk == content[offset..offset + |chunk|]
    ensures header + Slice(content, start, offset) + chunk == header + Slice(content, start, offset + |chunk|)
  {
    if chunk != [] { assert content[start..offset] + content[offset..offset + |chunk|] == content[start..offset + |chunk|]; }
  }

  /** A stream whose FIN went out carried the header and exactly the rest of a file of the declared size. */
  lemma FinMeansWhole(j: Job, o: Out)
    requires JobOk(j, o) && o.fin && j.size == |j.content|
    ensures o.sent == Header(j.fileId) + j.content[j.start..]
  {
  }
}
