/** Length-prefixed frames: however the stream is cut, both decoders deliver exactly the payloads. */
module Framing {
  import opened SyncEvents

  newtype Byte = x: int | 0 <= x < 256

  type Bytes = seq<Byte>

  const MAX_FRAME: nat := 16 * 1024 * 1024
  const WORD: nat := 0x1_0000_0000

  function BigEndian(n: nat): (r: Bytes)
    requires n < WORD
    ensures |r| == 4 && ReadSize(r) == n
  {
    var high, low := n / 0x1_0000, n % 0x1_0000;
    HalfWord(high);
    HalfWord(low);
    [(high / 0x100) as Byte, (high % 0x100) as Byte, (low / 0x100) as Byte, (low % 0x100) as Byte]
  }

  lemma HalfWord(h: nat)
    requires h < 0x1_0000
    ensures 0 <= h / 0x100 < 0x100 && 0 <= h % 0x100 < 0x100 && h == h / 0x100 * 0x100 + h % 0x100
  {
  }

  function ReadSize(b: Bytes): (n: nat)
    requires |b| == 4
    ensures n < WORD
  {
    (b[0] as nat) * 0x100_0000 + (b[1] as nat) * 0x1_0000 + (b[2] as nat) * 0x100 + b[3] as nat
  }

  /** encode_frame and BuildEnvelopeFrame: the client stores the low 32 bits of the length. */
  function Encode(payload: Bytes): Bytes { BigEndian(|payload| % WORD) + payload }

  predicate Sendable(payload: Bytes) { 1 <= |payload| <= MAX_FRAME }

  function Wire(payloads: seq<Bytes>): Bytes
    decreases payloads
  {
    if payloads == [] then [] else Encode(payloads[0]) + Wire(payloads[1..])
  }

  function Concat(parts: seq<Bytes>): Bytes
    decreases parts
  {
    if parts == [] then [] else parts[0] + Concat(parts[1..])
  }

  /** What stands at the front of a buffer. */
  datatype Front = Short | Refused | Frame(size: nat)

  function FrontOf(buffer: Bytes): Front {
    if |buffer| < 4 then Short else
      var size := ReadSize(buffer[..4]);
      if size == 0 || size > MAX_FRAME then Refused
      else if |buffer| < 4 + size then Short else Frame(size)
  }

  /** The frames at the front of a buffer and what is left, or a frame of refused size. */
  datatype Drained = Drained(items: seq<Bytes>, rest: Bytes, broken: bool)

  function Drain(buffer: Bytes): (r: Drained)
    ensures |r.rest| <= |buffer|
    decreases |buffer|
  {
    match FrontOf(buffer)
    case Short => Drained([], buffer, false)
    case Refused => Drained([], buffer, true)
    case Frame(size) =>
      Prepend([buffer[4..4 + size]], Drain(buffer[4 + size..]))
  }

  function Prepend(items: seq<Bytes>, d: Drained): Drained { Drained(items + d.items, d.rest, d.broken) }

  lemma PrependTwice(a: seq<Bytes>, b: seq<Bytes>, d: Drained)
    ensures Prepend(a, Prepend(b, d)) == Prepend(a + b, d) && Prepend([], d) == d
  {
    assert a + (b + d.items) == a + b + d.items;
  }

  lemma FrontFrame(payload: Bytes, rest: Bytes)
    requires Sendable(payload)
    ensures Drain(Encode(payload) + rest) == Prepend([payload], Drain(rest))
  {
    var b := Encode(payload) + rest;
    assert b[..4] == BigEndian(|payload|);
    assert b[4..4 + |payload|] == payload && b[4 + |payload|..] == rest;
  }

  /** Decoding undoes encoding, for any list of payloads followed by anything. */
  lemma {:induction false} RoundTrip(payloads: seq<Bytes>, rest: Bytes)
    requires forall i :: 0 <= i < |payloads| ==> Sendable(payloads[i])
    ensures Drain(Wire(payloads) + rest) == Prepend(payloads, Drain(rest))
    decreases payloads
  {
    if payloads == [] {
      assert Wire(payloads) + rest == rest;
      PrependTwice([], [], Drain(rest));
    } else {
      RoundTrip(payloads[1..], rest);
      assert Wire(payloads) + rest == Encode(payloads[0]) + (Wire(payloads[1..]) + rest);
      FrontFrame(payloads[0], Wire(payloads[1..]) + rest);
      PrependTwice([payloads[0]], payloads[1..], Drain(rest));
      assert [payloads[0]] + payloads[1..] == payloads;
    }
  }

  /** A front that is decided does not change when more bytes arrive. */
  lemma FrontMore(a: Bytes, b: Bytes)
    requires FrontOf(a) != Short
    ensures FrontOf(a + b) == FrontOf(a)
  {
    assert (a + b)[..4] == a[..4];
  }

  /** What was already decoded does not depend on what arrives later. */
  lemma {:induction false} DrainMore(a: Bytes, b: Bytes)
    requires !Drain(a).broken
    ensures Drain(a + b) == Prepend(Drain(a).items, Drain(Drain(a).rest + b))
    decreases |a|
  {
    if FrontOf(a) == Short {
      PrependTwice([], [], Drain(a + b));
    } else {
      var size := FrontOf(a).size;
      var item, tail := a[4..4 + size], a[4 + size..];
      DrainMore(tail, b);
      FrameThen(a, b);
      PrependTwice([item], Drain(tail).items, Drain(Drain(tail).rest + b));
    }
  }

  lemma FrameThen(a: Bytes, b: Bytes)
    requires FrontOf(a).Frame?
    ensures var size := FrontOf(a).size; Drain(a + b) == Prepend([a[4..4 + size]], Drain(a[4 + size..] + b))
  {
    var size := FrontOf(a).size;
    FrontMore(a, b);
    assert (a + b)[4 + size..] == a[4 + size..] + b;
    assert (a + b)[4..4 + size] == a[4..4 + size];
  }

  /** One part after another, each drained as it arrives. */
  function Feed(buffer: Bytes, parts: seq<Bytes>): Drained
    decreases parts
  {
    if parts == [] then Drained([], buffer, false) else
      var d := Drain(buffer + parts[0]);
      if d.broken then d else
        Prepend(d.items, Feed(d.rest, parts[1..]))
  }

  predicate Settled(buffer: Bytes) { Drain(buffer) == Drained([], buffer, false) }

  lemma {:induction false} RestSettled(a: Bytes)
    requires !Drain(a).broken
    ensures Settled(Drain(a).rest)
    decreases |a|
  {
    if FrontOf(a).Frame? { RestSettled(a[4 + FrontOf(a).size..]); }
  }

  /** However the bytes are split, the outcome is that of the whole. */
  lemma {:induction false} SplitIrrelevant(buffer: Bytes, parts: seq<Bytes>)
    requires Settled(buffer) && !Drain(buffer + Concat(parts)).broken
    ensures Feed(buffer, parts) == Drain(buffer + Concat(parts))
    decreases parts
  {
    if parts == [] {
      assert buffer + Concat(parts) == buffer;
    } else {
      var rest := Concat(parts[1..]);
      assert buffer + Concat(parts) == buffer + parts[0] + rest;
      if !Drain(buffer + parts[0]).broken {
        DrainMore(buffer + parts[0], rest);
        RestSettled(buffer + parts[0]);
        SplitIrrelevant(Drain(buffer + parts[0]).rest, parts[1..]);
      } else {
        BrokenStays(buffer + parts[0], rest);
      }
    }
  }

  lemma {:induction false} BrokenStays(a: Bytes, b: Bytes)
    requires Drain(a).broken
    ensures Drain(a + b).broken
    decreases |a|
  {
    if FrontOf(a).Frame? {
      FrameThen(a, b);
      BrokenStays(a[4 + FrontOf(a).size..], b);
    } else {
      FrontMore(a, b);
    }
  }

  /** For every list of sendable payloads, every proper prefix of one more frame and every way of
      cutting the bytes: exactly those payloads in order, with that prefix left over. */
  lemma AnyFragmentation(payloads: seq<Bytes>, next: Bytes, cut: nat, parts: seq<Bytes>)
    requires forall i :: 0 <= i < |payloads| ==> Sendable(payloads[i])
    requires Sendable(next) && cut < |Encode(next)|
    requires Concat(parts) == Wire(payloads) + Encode(next)[..cut]
    ensures Feed([], parts) == Drained(payloads, Encode(next)[..cut], false)
  {
    var tail := Encode(next)[..cut];
    PrefixSettled(next, cut);
    RoundTrip(payloads, tail);
    assert payloads + [] == payloads;
    assert [] + Concat(parts) == Wire(payloads) + tail;
    SplitIrrelevant([], parts);
  }

  lemma PrefixSettled(next: Bytes, cut: nat)
    requires Sendable(next) && cut < |Encode(next)|
    ensures Settled(Encode(next)[..cut])
  {
    var tail := Encode(next)[..cut];
    if cut >= 4 {
      assert tail[..4] == BigEndian(|next|);
    }
  }

  // ---------- the two decoders ----------

  /** The server's shared byte buffer. */
  class FrameBuffer {
    var buffer: Bytes

    constructor ()
      ensures buffer == []
    {
      buffer := [];
    }

    method Extend(data: Bytes)
      modifies this
      ensures buffer == old(buffer) + data
    {
      buffer := buffer + data;
    }

    /** decode_frames: None stands for the ValueError of a refused size. */
    method DecodeFrames() returns (items: Option<seq<Bytes>>)
      modifies this
      ensures items == if Drain(old(buffer)).broken then None else Some(Drain(old(buffer)).items)
      ensures !Drain(old(buffer)).broken ==> buffer == Drain(old(buffer)).rest
    {
      var found: seq<Bytes> := [];
      PrependTwice([], [], Drain(buffer));
      while |buffer| >= 4
        invariant Drain(old(buffer)) == Prepend(found, Drain(buffer))
        decreases |buffer|
      {
        var size := ReadSize(buffer[..4]);
        if size <= 0 || size > MAX_FRAME { return None; }
        var frame := 4 + size;
        if |buffer| < frame {
          assert Drain(buffer) == Drained([], buffer, false);
          assert found + [] == found;
          return Some(found);
        }
        PrependTwice(found, [buffer[4..frame]], Drain(buffer[frame..]));
        found := found + [buffer[4..frame]];
        buffer := buffer[frame..];
      }
      assert Drain(buffer) == Drained([], buffer, false);
      assert found + [] == found;
      return Some(found);
    }
  }

  /** The client's control stream.  `restarted` means the connection was restarted over a bad frame. */
  class ControlStream {
    var buffer: Bytes
    var restarted: bool
    var delivered: seq<Bytes>

    constructor ()
      ensures buffer == [] && !restarted && delivered == []
    {
      buffer, restarted, delivered := [], false, [];
    }

    /** Removes one frame from the front, if a whole one is there. */
    method NextFrame() returns (front: Front, item: Bytes)
      modifies this`buffer
      ensures front == FrontOf(old(buffer))
      ensures !front.Frame? ==> buffer == old(buffer) && Drain(buffer) == Drained([], buffer, front == Refused)
      ensures front.Frame? ==> |buffer| < |old(buffer)| && Drain(old(buffer)) == Prepend([item], Drain(buffer))
    {
      if |buffer| < 4 { return Short, []; }
      var size := ReadSize(buffer[..4]);
      var frame := (4 + size) % WORD;
      if size == 0 || size > MAX_FRAME { return Refused, []; }
      if |buffer| < frame { return Short, []; }
      item := buffer[4..frame];
      buffer := buffer[frame..];
      return Frame(size), item;
    }

    /** Every whole frame is delivered in order; a refused size empties the buffer and restarts. */
    method HandleIncoming(payload: Bytes)
      modifies this
      ensures var d := Drain(old(buffer) + payload);
              && delivered == old(delivered) + d.items
              && (restarted <==> old(restarted) || d.broken)
              && buffer == if d.broken then [] else d.rest
    {
      buffer := buffer + payload;
      ghost var whole := Drain(buffer);
      var found: seq<Bytes> := [];
      var front, item := NextFrame();
      while front.Frame?
        invariant delivered == old(delivered) && restarted == old(restarted)
        invariant front.Frame? ==> whole == Prepend(found, Prepend([item], Drain(buffer)))
        invariant !front.Frame? ==> whole == Drained(found, buffer, front == Refused)
        decreases |buffer| + if front.Frame? then 1 else 0
      {
        PrependTwice(found, [item], Drain(buffer));
        found := found + [item];
        front, item := NextFrame();
        assert !front.Frame? ==> found + [] == found;
      }
      delivered := delivered + found;
      if front == Refused { buffer, restarted := [], true; }
    }
  }
}
