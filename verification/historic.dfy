/** Events as one user's stream has ever served them, and what holding a prefix of them means. */
module Historic {
  import opened SyncEvents
  import opened StateStore
  import opened Convergence
  import opened ServerState
  import opened ServerStreams
  import opened ServerProgress
  import opened ServerBurn
  import opened SyncPaging

  /** The event ids a user's stream draws, in order. */
  type Names = map<Id, seq<Id>>

  function NameOf(names: Names, u: Id, p: nat): Id {
    if u in names && 1 <= p <= |names[u]| then names[u][p - 1] else ""
  }

  ghost predicate NamesOk(names: Names) {
    forall u :: u in names ==>
      && |names[u]| <= MAX_POSITION
      && (forall i :: 0 <= i < |names[u]| ==> names[u][i] != "")
      && (forall i, j :: 0 <= i < j < |names[u]| ==> names[u][i] != names[u][j])
  }

  /** Every stream entry so far has its id. */
  ghost predicate Room(names: Names, streams: Streams) {
    forall u :: StreamOf(streams, u) != [] ==> u in names && |StreamOf(streams, u)| <= |names[u]|
  }

  function Rows(names: Names, streams: Streams, u: Id): seq<Event> {
    seq(|StreamOf(streams, u)|, i requires 0 <= i < |StreamOf(streams, u)| =>
      Event(i + 1, NameOf(names, u, i + 1), StreamOf(streams, u)[i]))
  }

  /** e was the stream's entry at its position now or at some earlier time. */
  predicate WasServed(names: Names, s: seq<Body>, u: Id, e: Event) {
    1 <= e.position <= |s| && e.eventId == NameOf(names, u, e.position) && Worn(e.body, s[e.position - 1])
  }

  ghost predicate AllServed(names: Names, s: seq<Body>, u: Id, events: set<Event>) {
    forall e :: e in events ==> WasServed(names, s, u, e)
  }

  lemma RowsServed(names: Names, streams: Streams, u: Id)
    ensures forall e :: e in Rows(names, streams, u) ==> WasServed(names, StreamOf(streams, u), u, e)
    ensures Dense(Rows(names, streams, u))
  {
  }

  lemma ServedLater(names: Names, s: seq<Body>, t: seq<Body>, u: Id, e: Event)
    requires WasServed(names, s, u, e) && StreamAges(s, t)
    ensures WasServed(names, t, u, e)
  {
    WornTrans(e.body, s[e.position - 1], t[e.position - 1]);
  }

  lemma WornOrdered(a: Body, b: Body, x: Body, y: Body)
    requires Worn(a, x) && Worn(b, y) && Ordered(x, y)
    ensures Ordered(a, b)
  {
  }

  lemma ServedSound(names: Names, s: seq<Body>, u: Id, e: Event)
    requires WasServed(names, s, u, e) && StreamOk(s) && NamesOk(names) && (s != [] ==> u in names && |s| <= |names[u]|)
    ensures Sound(e)
  {
    assert Supported(s[e.position - 1]);
  }

  /** Any two of them are the same row twice or two rows that a stream may both hold. */
  lemma ServedCopies(names: Names, s: seq<Body>, u: Id, e: Event, f: Event)
    requires WasServed(names, s, u, e) && WasServed(names, s, u, f)
    requires StreamOk(s) && NamesOk(names) && (s != [] ==> u in names && |s| <= |names[u]|)
    ensures Copies(e, f)
  {
    var i, j := e.position - 1, f.position - 1;
    if i < j { WornOrdered(e.body, f.body, s[i], s[j]); }
    if j < i { WornOrdered(f.body, e.body, s[j], s[i]); }
  }

  lemma ServedPool(names: Names, s: seq<Body>, u: Id, pool: set<Event>)
    requires AllServed(names, s, u, pool) && StreamOk(s) && NamesOk(names) && (s != [] ==> u in names && |s| <= |names[u]|)
    ensures WellCopied(pool)
  {
    forall e | e in pool ensures Sound(e) { ServedSound(names, s, u, e); }
    forall e, f | e in pool && f in pool ensures Copies(e, f) { ServedCopies(names, s, u, e, f); }
  }

  // ---------- a client that holds the whole stream ----------

  /** One event per position 1..|s|, each as the stream once served it. */
  ghost predicate Complete(names: Names, s: seq<Body>, u: Id, taken: set<Event>) {
    && AllServed(names, s, u, taken)
    && (forall p :: 1 <= p <= |s| ==> HasPosition(taken, p))
  }

  ghost predicate HasPosition(taken: set<Event>, p: nat) { exists e :: e in taken && e.position == p }

  lemma WornClaims(a: Body, b: Body, k: Key)
    requires Worn(a, b)
    ensures Claims(a, k) <==> Claims(b, k)
  {
  }

  function Inner(b: Body): Body {
    if b.Message? then ReadCount(b.id, b.conv, b.unread) else b
  }

  lemma InnerWorn(a: Body, b: Body)
    requires Worn(a, b)
    ensures Inner(a) == Inner(b)
  {
  }

  /** Ranks of claimants rise along the stream. */
  lemma RankRises(names: Names, s: seq<Body>, u: Id, e: Event, f: Event, k: Key)
    requires StreamOk(s) && WasServed(names, s, u, e) && WasServed(names, s, u, f) && e.position < f.position
    requires Claims(e.body, k) && Claims(f.body, k)
    ensures Rank(e) < Rank(f)
  {
    WornOrdered(e.body, f.body, s[e.position - 1], s[f.position - 1]);
  }

  lemma RegisterHeld(names: Names, s: seq<Body>, u: Id, taken: set<Event>, objects: Objects, k: Key, i: nat)
    requires StreamOk(s) && Complete(names, s, u, taken) && Register(taken, objects, k)
    requires i < |s| && Claims(s[i], k) && forall j :: i < j < |s| ==> !Claims(s[j], k)
    ensures k in objects && objects[k].data == Inner(s[i])
  {
    assert HasPosition(taken, i + 1);
    var e :| e in taken && e.position == i + 1;
    WornClaims(e.body, s[i], k);
    var w :| Wins(taken, k, w) && objects[k] == Entry(w);
    WinnerLatest(names, s, u, taken, k, i, e, w);
    InnerWorn(w.body, s[i]);
  }

  /** The winner is the copy of the stream's latest claimant. */
  lemma WinnerLatest(names: Names, s: seq<Body>, u: Id, taken: set<Event>, k: Key, i: nat, e: Event, w: Event)
    requires StreamOk(s) && AllServed(names, s, u, taken) && Wins(taken, k, w)
    requires i < |s| && forall j :: i < j < |s| ==> !Claims(s[j], k)
    requires e in taken && e.position == i + 1 && Claims(e.body, k)
    ensures w.position == i + 1 && Worn(w.body, s[i])
  {
    WornClaims(w.body, s[w.position - 1], k);
    if w.position - 1 < i { RankRises(names, s, u, w, e, k); }
  }

  lemma RegisterAbsent(names: Names, s: seq<Body>, u: Id, taken: set<Event>, objects: Objects, k: Key)
    requires AllServed(names, s, u, taken) && Register(taken, objects, k) && forall j :: 0 <= j < |s| ==> !Claims(s[j], k)
    ensures k !in objects
  {
    forall w | w in taken ensures !Claims(w.body, k) { WornClaims(w.body, s[w.position - 1], k); }
  }

  /** The projection of a complete stream holds, in every last-writer-wins slot, the stream's own
      latest entry for that slot; and nothing in slots the stream never claimed. */
  lemma CompleteRegister(names: Names, s: seq<Body>, u: Id, taken: set<Event>, objects: Objects, k: Key)
    requires StreamOk(s) && Complete(names, s, u, taken) && Register(taken, objects, k)
    ensures k in objects <==> Latest(s, k).Some?
    ensures k in objects ==> objects[k].data == Inner(Latest(s, k).value)
  {
    var i := LatestAt(s, k);
    if i >= 0 { RegisterHeld(names, s, u, taken, objects, k, i); }
    else { RegisterAbsent(names, s, u, taken, objects, k); }
  }

  // ---------- two devices that took different copies of the same rows ----------

  /** One copy per position, and the same positions on both sides. */
  ghost predicate SamePlaces(a: set<Event>, b: set<Event>) {
    && (forall e :: e in a ==> HasPosition(b, e.position)) && (forall f :: f in b ==> HasPosition(a, f.position))
  }

  /** The same claim, whichever copy was taken. */
  lemma CopyOf(names: Names, s: seq<Body>, u: Id, e: Event, f: Event, k: Key)
    requires WasServed(names, s, u, e) && WasServed(names, s, u, f) && e.position == f.position
    ensures (Claims(e.body, k) <==> Claims(f.body, k)) && Inner(e.body) == Inner(f.body)
    ensures Rank(e) == Rank(f)
  {
    WornClaims(e.body, s[e.position - 1], k);
    WornClaims(f.body, s[e.position - 1], k);
    InnerWorn(e.body, s[e.position - 1]);
    InnerWorn(f.body, s[e.position - 1]);
  }

  lemma WinnersMeet(names: Names, s: seq<Body>, u: Id, a: set<Event>, b: set<Event>, k: Key, v: Event, w: Event)
    requires StreamOk(s) && AllServed(names, s, u, a) && AllServed(names, s, u, b) && SamePlaces(a, b)
    requires Wins(a, k, v) && Wins(b, k, w)
    ensures Entry(v) == Entry(w)
  {
    assert HasPosition(b, v.position) && HasPosition(a, w.position);
    var v2 :| v2 in b && v2.position == v.position;
    var w2 :| w2 in a && w2.position == w.position;
    CopyOf(names, s, u, v, v2, k);
    CopyOf(names, s, u, w, w2, k);
    if v.position < w.position { RankRises(names, s, u, v, w, k); }
    if w.position < v.position { RankRises(names, s, u, w, v, k); }
    CopyOf(names, s, u, v, w, k);
  }

  /** Redaction between two deliveries never shows in any last-writer-wins slot. */
  lemma RegistersMeet(names: Names, s: seq<Body>, u: Id, a: set<Event>, b: set<Event>, x: Objects, y: Objects, k: Key)
    requires StreamOk(s) && AllServed(names, s, u, a) && AllServed(names, s, u, b) && SamePlaces(a, b)
    requires Register(a, x, k) && Register(b, y, k)
    ensures (k in x <==> k in y) && (k in x ==> x[k] == y[k])
  {
    PresentThere(names, s, u, a, b, x, y, k);
    PresentThere(names, s, u, b, a, y, x, k);
    if k in x { SameEntry(names, s, u, a, b, x, y, k); }
  }

  lemma SameEntry(names: Names, s: seq<Body>, u: Id, a: set<Event>, b: set<Event>, x: Objects, y: Objects, k: Key)
    requires StreamOk(s) && AllServed(names, s, u, a) && AllServed(names, s, u, b) && SamePlaces(a, b)
    requires Register(a, x, k) && Register(b, y, k) && k in x && k in y
    ensures x[k] == y[k]
  {
    var v :| Wins(a, k, v) && x[k] == Entry(v);
    var w :| Wins(b, k, w) && y[k] == Entry(w);
    WinnersMeet(names, s, u, a, b, k, v, w);
  }

  lemma PresentThere(names: Names, s: seq<Body>, u: Id, a: set<Event>, b: set<Event>, x: Objects, y: Objects, k: Key)
    requires AllServed(names, s, u, a) && AllServed(names, s, u, b) && SamePlaces(a, b)
    requires Register(a, x, k) && Register(b, y, k)
    ensures k in x ==> k in y
  {
    if k in x {
      var v :| Wins(a, k, v) && x[k] == Entry(v);
      ClaimedThere(names, s, u, a, b, y, k, v);
    }
  }

  lemma ClaimedThere(names: Names, s: seq<Body>, u: Id, a: set<Event>, b: set<Event>, y: Objects, k: Key, e: Event)
    requires AllServed(names, s, u, a) && AllServed(names, s, u, b) && SamePlaces(a, b) && Register(b, y, k)
    requires e in a && Claims(e.body, k)
    ensures k in y
  {
    assert HasPosition(b, e.position);
    var f :| f in b && f.position == e.position;
    CopyOf(names, s, u, e, f, k);
  }

  /** Everything of a message but the two fields redaction touches. */
  function Undisturbed(m: Body): Body
    requires m.Message?
  {
    m.(text := BLANK, recalled := false, unread := 0)
  }

  /** Both devices show the same message, up to text and recall mark; and exactly the same, blanked,
      once the message has ended for them. */
  lemma MessagesMeet(names: Names, s: seq<Body>, u: Id, a: set<Event>, b: set<Event>, x: Objects, y: Objects, e: Event, f: Event, id: Id)
    requires AllServed(names, s, u, a) && AllServed(names, s, u, b) && SamePlaces(a, b)
    requires Messages(a, x, id) && Messages(b, y, id)
    requires e in a && f in b && e.position == f.position && IsMessage(e, id)
    ensures IsMessage(f, id) && MessageKey(id) in x && MessageKey(id) in y
    ensures var m, n := x[MessageKey(id)].data, y[MessageKey(id)].data;
            && m.Message? && n.Message? && Undisturbed(m) == Undisturbed(n)
            && (Ended(a, id) ==> m.recalled && n.recalled && m.text == BLANK == n.text)
  {
    var p := s[e.position - 1];
    assert Worn(e.body, p) && Worn(f.body, p);
    EndedBoth(names, s, u, a, b, id);
    assert x[MessageKey(id)].data.(unread := 0) == Shown(a, e.body);
    assert y[MessageKey(id)].data.(unread := 0) == Shown(b, f.body);
  }

  lemma EndedBoth(names: Names, s: seq<Body>, u: Id, a: set<Event>, b: set<Event>, id: Id)
    requires AllServed(names, s, u, a) && AllServed(names, s, u, b) && SamePlaces(a, b)
    ensures (Ended(a, id) <==> Ended(b, id)) && (Burnt(a, id) <==> Burnt(b, id))
  {
    forall e | e in a ensures (Ends(e, id) ==> Ended(b, id)) && (Burns(e, id) ==> Burnt(b, id)) {
      assert HasPosition(b, e.position);
      var f :| f in b && f.position == e.position;
      assert Worn(e.body, s[e.position - 1]) && Worn(f.body, s[e.position - 1]);
    }
    forall f | f in b ensures (Ends(f, id) ==> Ended(a, id)) && (Burns(f, id) ==> Burnt(a, id)) {
      assert HasPosition(a, f.position);
      var e :| e in a && e.position == f.position;
      assert Worn(e.body, s[f.position - 1]) && Worn(f.body, s[f.position - 1]);
    }
  }
}
