/** The write queue: accepted operations run exactly once, in acceptance order, whatever fails. */
module WriteQueue {
  import opened SyncEvents

  /** What running an operation does to its caller's future. */
  datatype Outcome = Returned(value: int) | Threw(error: string)

  datatype FutureState = Waiting | Cancelled | Settled(outcome: Outcome)

  /** `id` is the acceptance number, which also names the caller's future. */
  datatype Entry = Entry(id: nat, payloadBytes: nat)

  datatype Verdict = Accepted(id: nat) | Stopping | Negative | Full

  function Total(queue: seq<Entry>): nat
    decreases |queue|
  {
    if queue == [] then 0 else Total(queue[..|queue| - 1]) + queue[|queue| - 1].payloadBytes
  }

  lemma TotalAppend(queue: seq<Entry>, e: Entry)
    ensures Total(queue + [e]) == Total(queue) + e.payloadBytes
  {
    assert (queue + [e])[..|queue|] == queue;
  }

  lemma {:induction false} TotalFront(queue: seq<Entry>)
    requires queue != []
    ensures Total(queue) == queue[0].payloadBytes + Total(queue[1..])
    decreases |queue|
  {
    if |queue| > 1 {
      var init := queue[..|queue| - 1];
      TotalFront(init);
      assert queue[1..] == init[1..] + [queue[|queue| - 1]];
      TotalAppend(init[1..], queue[|queue| - 1]);
    }
  }

  class SqliteWriteQueue {
    const maxOperations: nat
    const maxPayloadBytes: nat
    var pendingPayloadBytes: nat
    var queue: seq<Entry>
    var accepting: bool
    var workerRunning: bool
    /** Acceptance numbers given out, operations run so far in order, and the callers' futures. */
    var accepted: nat
    var ran: seq<nat>
    var futures: map<nat, FutureState>

    /** Every accepted operation has either run or waits, once, in acceptance order. */
    ghost predicate Valid()
      reads this
    {
      && maxOperations > 0 && maxPayloadBytes > 0
      && pendingPayloadBytes == Total(queue) <= maxPayloadBytes && |queue| <= maxOperations
      && |ran| + |queue| == accepted
      && (forall i :: 0 <= i < |ran| ==> ran[i] == i)
      && (forall i :: 0 <= i < |queue| ==> queue[i].id == |ran| + i)
      && (queue != [] ==> workerRunning)
      && (forall id: nat :: id in futures <==> id < accepted)
      && (forall id :: id in futures && futures[id] == Waiting ==> id >= |ran|)
    }

    constructor (maxOperations: nat, maxPayloadBytes: nat)
      requires maxOperations > 0 && maxPayloadBytes > 0
      ensures Valid() && accepting && queue == [] && ran == [] && accepted == 0
      ensures this.maxOperations == maxOperations && this.maxPayloadBytes == maxPayloadBytes
    {
      this.maxOperations, this.maxPayloadBytes := maxOperations, maxPayloadBytes;
      pendingPayloadBytes, queue, accepting, workerRunning := 0, [], true, false;
      accepted, ran, futures := 0, [], map[];
    }

    /** A refusal changes nothing; an acceptance appends exactly one entry and keeps both limits. */
    method Enqueue(payloadBytes: int) returns (verdict: Verdict)
      requires Valid()
      modifies this
      ensures Valid()
      ensures accepting == old(accepting) && ran == old(ran)
      ensures verdict == if !old(accepting) then Stopping else if payloadBytes < 0 then Negative
                         else if |old(queue)| >= maxOperations || payloadBytes > maxPayloadBytes - old(pendingPayloadBytes) then Full
                         else Accepted(old(accepted))
      ensures verdict.Accepted? ==> queue == old(queue) + [Entry(verdict.id, payloadBytes)] && futures[verdict.id] == Waiting
      ensures !verdict.Accepted? ==> queue == old(queue) && accepted == old(accepted) && futures == old(futures)
    {
      if !accepting { return Stopping; }
      if payloadBytes < 0 { return Negative; }
      if |queue| >= maxOperations || payloadBytes > maxPayloadBytes - pendingPayloadBytes { return Full; }
      verdict := Accepted(accepted);
      Append(payloadBytes);
    }

    /** Queues one entry with a waiting future and makes sure the worker runs. */
    method Append(payloadBytes: nat)
      requires Valid() && |queue| < maxOperations && payloadBytes <= maxPayloadBytes - pendingPayloadBytes
      modifies this`futures, this`queue, this`pendingPayloadBytes, this`accepted, this`workerRunning
      ensures Valid() && accepted == old(accepted) + 1
      ensures queue == old(queue) + [Entry(old(accepted), payloadBytes)] && futures == old(futures)[old(accepted) := Waiting]
    {
      var entry := Entry(accepted, payloadBytes);
      TotalAppend(queue, entry);
      futures := futures[accepted := Waiting];
      queue := queue + [entry];
      pendingPayloadBytes := pendingPayloadBytes + payloadBytes;
      accepted := accepted + 1;
      workerRunning := true;
    }

    /** The caller gives up waiting; the operation stays in the queue. */
    method CancelCaller(id: nat)
      requires Valid() && id in futures
      modifies this`futures
      ensures Valid()
      ensures futures == if old(futures)[id] == Waiting then old(futures)[id := Cancelled] else old(futures)
    {
      if futures[id] == Waiting { futures := futures[id := Cancelled]; }
    }

    /** One turn of the worker.  A failure of the operation reaches only its own caller. */
    method RunNext(outcome: Outcome)
      requires Valid() && queue != []
      modifies this`queue, this`pendingPayloadBytes, this`ran, this`futures
      ensures Valid() && accepted == old(accepted)
      ensures ran == old(ran) + [old(queue)[0].id] && queue == old(queue)[1..]
      ensures var id := old(queue)[0].id;
              futures == if old(futures)[id] == Waiting then old(futures)[id := Settled(outcome)] else old(futures)
    {
      var entry := queue[0];
      TotalFront(queue);
      queue := queue[1..];
      pendingPayloadBytes := pendingPayloadBytes - entry.payloadBytes;
      ran := ran + [entry.id];
      if futures[entry.id] == Waiting { futures := futures[entry.id := Settled(outcome)]; }
    }

    /** The worker drains the queue; `outcomes` are what the operations do, none stops it. */
    method WorkerLoop(outcomes: seq<Outcome>)
      requires Valid() && |outcomes| >= |queue|
      modifies this
      ensures Valid() && queue == [] && accepted == old(accepted) && accepting == old(accepting)
      ensures |ran| == accepted && old(ran) <= ran && pendingPayloadBytes == 0
      ensures forall id :: id in futures ==> futures[id] != Waiting
    {
      var i := 0;
      while queue != []
        invariant Valid() && accepted == old(accepted) && accepting == old(accepting) && old(ran) <= ran
        invariant i + |queue| <= |outcomes|
        decreases |queue|
      {
        RunNext(outcomes[i]);
        i := i + 1;
      }
      workerRunning := false;
    }

    /** Returns only after every accepted operation has run, and nothing is accepted from then on. */
    method Stop(outcomes: seq<Outcome>)
      requires Valid() && |outcomes| >= |queue|
      modifies this
      ensures Valid() && !accepting && queue == [] && |ran| == accepted == old(accepted)
      ensures forall i :: 0 <= i < |ran| ==> ran[i] == i
      ensures forall id :: id in futures ==> futures[id] != Waiting
    {
      accepting := false;
      WorkerLoop(outcomes);
    }
  }

  // ---------- interleavings ----------

  /** Everything that can happen between two turns of the worker. */
  datatype Event = Offer(payloadBytes: int) | GiveUp(id: nat) | Turn(outcome: Outcome) | StopAccepting

  /** One event; the acceptance number when it admits an operation. */
  method Handle(q: SqliteWriteQueue, event: Event) returns (id: Option<nat>)
    requires q.Valid()
    modifies q
    ensures q.Valid() && old(q.ran) <= q.ran
    ensures if id.Some? then id.value == old(q.accepted) && q.accepted == old(q.accepted) + 1 && q.accepting
            else q.accepted == old(q.accepted)
    ensures !old(q.accepting) ==> id == None && !q.accepting
  {
    id := None;
    match event
    case Offer(payloadBytes) =>
      var verdict := q.Enqueue(payloadBytes);
      if verdict.Accepted? { id := Some(verdict.id); }
    case GiveUp(future) => if future in q.futures { q.CancelCaller(future); }
    case Turn(outcome) => if q.queue != [] { q.RunNext(outcome); }
    case StopAccepting => q.accepting := false;
  }

  /** Any interleaving of callers, cancellations, worker turns and a stop request: what has run is
      always 0, 1, 2, ... and together with what waits it is everything ever accepted. */
  method RunEvents(q: SqliteWriteQueue, events: seq<Event>) returns (admitted: seq<nat>)
    requires q.Valid()
    modifies q
    ensures q.Valid() && q.accepted == old(q.accepted) + |admitted|
    ensures forall i :: 0 <= i < |admitted| ==> admitted[i] == old(q.accepted) + i
    ensures old(q.ran) <= q.ran
    ensures forall i :: 0 <= i < |q.ran| ==> q.ran[i] == i
    ensures |q.ran| + |q.queue| == q.accepted
    ensures !old(q.accepting) ==> admitted == [] && !q.accepting
  {
    admitted := [];
    for i := 0 to |events|
      invariant q.Valid() && q.accepted == old(q.accepted) + |admitted| && old(q.ran) <= q.ran
      invariant forall j :: 0 <= j < |admitted| ==> admitted[j] == old(q.accepted) + j
      invariant !old(q.accepting) ==> admitted == [] && !q.accepting
    {
      var id := Handle(q, events[i]);
      if id.Some? { admitted := admitted + [id.value]; }
    }
  }
}
