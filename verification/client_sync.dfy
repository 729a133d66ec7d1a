/** The sync coordinator's transitions over the durable store and its own volatile fields. */
module ClientSync {
  import opened SyncEvents
  import opened StateStore

  /** An acknowledgement of a confirmation; `entity` is the cursor it names. */
  datatype Ack = Ack(requestId: Id, success: bool, code: nat, entity: nat)

  /** A sync response, or a live push when requestId is empty.  `after` repeats the request's cursor
      and `had` is the stream's length when the server answered; neither is on the wire. */
  datatype Packet = Packet(requestId: Id, after: nat, events: seq<Event>, hasMore: bool, newCursor: nat, had: nat)

  /** The first three fields are durable. */
  datatype Client = Client(store: Store, confirmed: nat, pending: Option<Confirmation>,
                           running: bool, caughtUp: bool, requestId: Id, requestCursor: nat,
                           confirmationId: Id, confirmationCursor: nat)

  const NEW_CLIENT: Client := Client(EMPTY, 0, None, false, false, "", 0, "", 0)

  const PAGE_SIZE: nat := 200

  // ---------- the cursor as a function of the seen positions ----------

  lemma CursorExists(seen: map<nat, Id>, from: nat) returns (k: nat)
    requires forall p :: 1 <= p <= from ==> p in seen
    ensures IsCursor(seen, k) && from <= k
    decreases |set p | p in seen && p > from|
  {
    k := from;
    if from + 1 in seen {
      var beyond, rest := set p | p in seen && p > from, set p | p in seen && p > from + 1;
      assert from + 1 in beyond - rest;
      SubsetSize(rest, beyond);
      k := CursorExists(seen, from + 1);
    }
  }

  ghost function CursorOf(seen: map<nat, Id>): (k: nat)
    ensures IsCursor(seen, k)
  {
    assert exists k :: IsCursor(seen, k) by {
      var k := CursorExists(seen, 0);
      assert IsCursor(seen, k);
    }
    var k :| IsCursor(seen, k);
    k
  }

  lemma CursorGrows(a: map<nat, Id>, b: map<nat, Id>)
    requires a.Keys <= b.Keys
    ensures CursorOf(a) <= CursorOf(b)
  {
    var k := CursorExists(b, CursorOf(a));
    CursorUnique(b, k, CursorOf(b));
  }

  ghost predicate HasGap(seen: map<nat, Id>) {
    exists p :: p in seen && p > CursorOf(seen)
  }

  // ---------- transitions ----------

  /** stop(), and equally a crash: only the volatile fields are lost. */
  function Stop(c: Client): Client {
    c.(running := false, caughtUp := false, requestId := "", confirmationId := "", confirmationCursor := 0)
  }

  ghost function RequestNext(c: Client, freshId: Id): Client {
    if !c.running || c.requestId != "" then c
    else c.(caughtUp := false, requestId := freshId, requestCursor := CursorOf(c.store.seen))
  }

  ghost function Start(c: Client, freshId: Id): Client {
    RequestNext(Stop(c).(running := true), freshId)
  }

  predicate Requested(c: Client, p: Packet) { c.requestId != "" && p.requestId == c.requestId }

  ghost predicate More(store: Store, p: Packet) {
    p.hasMore || HasGap(store.seen) || p.newCursor > CursorOf(store.seen)
  }

  /** handleResponse once the batch has been stored. */
  ghost function Settle(c: Client, p: Packet, requested: bool, freshId: Id): Client {
    if !requested then (if HasGap(c.store.seen) then RequestNext(c, freshId) else c)
    else if More(c.store, p) && CursorOf(c.store.seen) <= c.requestCursor then c
    else if More(c.store, p) then RequestNext(c.(requestId := ""), freshId)
    else c.(requestId := "", caughtUp := true)
  }

  ghost function Receive(c: Client, p: Packet, freshId: Id): Client {
    if !c.running then c else
      var r := AcceptAll(c.store, p.events);
      if r.None? then Stop(c) else Settle(c.(store := r.value), p, Requested(c, p), freshId)
  }

  /** Saves a confirmation of the current cursor unless one is pending already. */
  ghost function PumpConfirmation(c: Client, freshId: Id): Client {
    if !c.running || c.confirmationId != "" then c
    else if c.pending.None? && CursorOf(c.store.seen) <= c.confirmed then c
    else
      var next := if c.pending.Some? then c.pending.value else Confirmation(freshId, CursorOf(c.store.seen));
      c.(pending := Some(next), confirmationId := next.requestId, confirmationCursor := next.cursor)
  }

  predicate Retryable(code: nat) { code == 401 || code == 408 || code == 429 || code >= 500 }

  function HandleAck(c: Client, a: Ack): Client {
    if !c.running || c.confirmationId == "" || a.requestId != c.confirmationId then c
    else if a.success then
      if a.entity != c.confirmationCursor then Stop(c)
      else if c.pending.Some? && c.pending.value.requestId == a.requestId then
        c.(confirmed := c.pending.value.cursor, pending := None, confirmationId := "")
      else c.(confirmationId := "")
    else if Retryable(a.code) then c
    else Stop(c)
  }

  // ---------- a confirmation round that loses nothing ----------

  /** A running client with something to confirm confirms its cursor, or first what is still pending. */
  lemma ConfirmationCompletes(c: Client, freshId: Id)
    requires c.running && c.confirmationId == "" && freshId != ""
    requires c.pending.Some? ==> c.pending.value.requestId != ""
    ensures var p := PumpConfirmation(c, freshId); var want := if c.pending.Some? then c.pending.value.cursor else CursorOf(c.store.seen);
            if c.pending.None? && CursorOf(c.store.seen) <= c.confirmed then p == c
            else p.pending == Some(Confirmation(p.confirmationId, want))
                 && HandleAck(p, Ack(p.confirmationId, true, 0, want)) == c.(pending := None, confirmed := want, confirmationCursor := want)
  {
  }

  /** After a restart the pending confirmation goes out again under its own id and cursor. */
  lemma ConfirmationSurvives(c: Client, freshId: Id, otherId: Id)
    requires c.pending.Some? && otherId != ""
    ensures var p := PumpConfirmation(Start(Stop(c), otherId), freshId);
            p.pending == c.pending && p.confirmationId == c.pending.value.requestId && p.confirmationCursor == c.pending.value.cursor
  {
  }
}
