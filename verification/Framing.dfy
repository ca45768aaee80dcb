/** Length-delimited frames over a byte stream. */
module Framing {
  import opened Basics
  import Bits

  type Frame = seq<byte>

  const U32_LIMIT := 0x1_0000_0000

  // ---- the format -----------------------------------------------------------------------

  function Be32(n: nat): (r: seq<byte>)
    requires n < U32_LIMIT
    ensures |r| == 4
  {
    [(n / 0x100_0000) as byte, (n / 0x1_0000 % 256) as byte, (n / 0x100 % 256) as byte, (n % 256) as byte]
  }

  function FromBe32(b: seq<byte>): (n: nat)
    requires |b| >= 4
    ensures n < U32_LIMIT
  {
    b[0] as nat * 0x100_0000 + b[1] as nat * 0x1_0000 + b[2] as nat * 0x100 + b[3] as nat
  }

  lemma LengthRoundTrip(n: nat, rest: seq<byte>)
    requires n < U32_LIMIT
    ensures FromBe32(Be32(n) + rest) == n
  {
    var hi, mid := n / 0x1_0000, n / 0x100;
    assert n == mid * 256 + n % 256 && mid == hi * 256 + mid % 256 && hi == n / 0x100_0000 * 256 + hi % 256;
  }

  function Nats(b: seq<byte>): seq<nat> { seq(|b|, i requires 0 <= i < |b| => b[i] as nat) }

  /** A length prefix is the length, in base 256, most significant byte first. */
  lemma LengthIsBigEndian(n: nat)
    requires n < U32_LIMIT
    ensures |Be32(n)| == 4 && Bits.Number(Nats(Be32(n)), 256) == n
  {
    var ds := Nats(Be32(n));
    assert ds[..3][..2][..1][..0] == [];
    assert Bits.Number(ds[..3][..2][..1], 256) == ds[0];
    assert Bits.Number(ds[..3][..2], 256) == ds[0] * 256 + ds[1];
    assert Bits.Number(ds[..3], 256) == (ds[0] * 256 + ds[1]) * 256 + ds[2];
    LengthRoundTrip(n, []);
    assert Be32(n) + [] == Be32(n);
  }

  lemma Div256(x: nat, q: nat, r: nat)
    requires x == q * 256 + r && r < 256
    ensures x / 256 == q && x % 256 == r
  {
  }

  lemma LengthBack(b: seq<byte>)
    requires |b| >= 4
    ensures Be32(FromBe32(b)) == b[..4]
  {
    var n := FromBe32(b);
    var hi := b[0] as nat * 256 + b[1] as nat;
    var mid := hi * 256 + b[2] as nat;
    assert n == mid * 256 + b[3] as nat;
    Div256(n, mid, b[3] as nat);
    Div256(mid, hi, b[2] as nat);
    Div256(hi, b[0] as nat, b[1] as nat);
    assert n / 0x1_0000 == mid / 256 && n / 0x100_0000 == hi / 256;
  }

  function Encode(f: Frame): seq<byte>
    requires |f| < U32_LIMIT
  {
    Be32(|f|) + f
  }

  predicate Writable(fs: seq<Frame>) { forall i :: 0 <= i < |fs| ==> |fs[i]| < U32_LIMIT }

  function EncodeAll(fs: seq<Frame>): seq<byte>
    requires Writable(fs)
  {
    if fs == [] then [] else Encode(fs[0]) + EncodeAll(fs[1..])
  }

  /** The bytes begin with a whole frame. */
  predicate Complete(b: seq<byte>) { |b| >= 4 && |b| >= 4 + FromBe32(b) }

  function Head(b: seq<byte>): Frame
    requires Complete(b)
  {
    b[4..4 + FromBe32(b)]
  }

  function Tail(b: seq<byte>): seq<byte>
    requires Complete(b)
  {
    b[4 + FromBe32(b)..]
  }

  /** Every whole frame in the bytes, in order. */
  function Frames(b: seq<byte>): seq<Frame>
    decreases |b|
  {
    if Complete(b) then [Head(b)] + Frames(Tail(b)) else []
  }

  lemma {:induction false} FramesOfEncoded(fs: seq<Frame>, tail: seq<byte>)
    requires Writable(fs)
    ensures Frames(EncodeAll(fs) + tail) == fs + Frames(tail)
    decreases |fs|
  {
    if fs == [] {
      assert EncodeAll(fs) + tail == tail;
    } else {
      hide Encode, Complete, Head, Tail;
      var rest := EncodeAll(fs[1..]) + tail;
      assert EncodeAll(fs) + tail == Encode(fs[0]) + rest;
      FirstFrame(fs[0], rest);
      FramesOfEncoded(fs[1..], tail);
    }
  }

  lemma FirstFrame(f: Frame, rest: seq<byte>)
    requires |f| < U32_LIMIT
    ensures var b := Encode(f) + rest; Complete(b) && Head(b) == f && Tail(b) == rest
  {
    hide Be32, FromBe32;
    var b := Encode(f) + rest;
    assert b == Be32(|f|) + (f + rest);
    LengthRoundTrip(|f|, f + rest);
  }

  function Rest(b: seq<byte>): seq<byte>
    decreases |b|
  {
    if Complete(b) then Rest(Tail(b)) else b
  }

  /** Every byte string is its frames, written out again, and a remainder that holds none. */
  lemma {:induction false} BytesAreFrames(b: seq<byte>)
    ensures Writable(Frames(b)) && EncodeAll(Frames(b)) + Rest(b) == b && !Complete(Rest(b))
    decreases |b|
  {
    if Complete(b) {
      BytesAreFrames(Tail(b));
      HeadEncodes(b);
      var fs := Frames(b);
      assert fs[0] == Head(b) && fs[1..] == Frames(Tail(b));
    }
  }

  lemma HeadEncodes(b: seq<byte>)
    requires Complete(b)
    ensures |Head(b)| < U32_LIMIT && Encode(Head(b)) + Tail(b) == b
  {
    LengthBack(b);
    hide Be32, FromBe32;
  }

  // ---- the writer ---------------------------------------------------------------------------

  /** A frame whose length does not fit the prefix is refused before anything is written. */
  method WriteOneFrame(written: seq<byte>, data: Frame) returns (out: seq<byte>, ok: bool)
    ensures ok <==> |data| < U32_LIMIT
    ensures out == if |data| < U32_LIMIT then written + Encode(data) else written
  {
    if |data| >= U32_LIMIT { return written, false; }
    out := written + Be32(|data|);
    out := out + data;
    assert out == written + Encode(data);
    ok := true;
  }

  // ---- the reader -----------------------------------------------------------------------------

  function Flat(chunks: seq<seq<byte>>): seq<byte> { if chunks == [] then [] else chunks[0] + Flat(chunks[1..]) }

  datatype FrameResult = Got(frame: Frame) | UnexpectedEof | OtherError

  datatype ReadEvent = FrameEvent(frame: Frame) | Closed | ErrorEvent

  function Events(fs: seq<Frame>): seq<ReadEvent> { seq(|fs|, i requires 0 <= i < |fs| => FrameEvent(fs[i])) }

  class Reader {
    var accum: seq<byte>
    var chunks: seq<seq<byte>>
    const breaks: bool

    /** The transport hands out `chunks` one read at a time; then it reports end of file, or an error. */
    constructor (chunks: seq<seq<byte>>, breaks: bool)
      requires forall i :: 0 <= i < |chunks| ==> 0 < |chunks[i]| <= 4096
      ensures Valid() && accum == [] && this.chunks == chunks && this.breaks == breaks
    {
      accum, this.chunks, this.breaks := [], chunks, breaks;
    }

    ghost predicate Valid()
      reads this
    {
      forall i :: 0 <= i < |chunks| ==> 0 < |chunks[i]| <= 4096
    }

    /** Everything not yet handed on. */
    ghost function Ahead(): seq<byte>
      reads this
    {
      accum + Flat(chunks)
    }

    /** Read until there are `n` bytes, or the transport is at its end. */
    method Fill(n: nat) returns (ok: bool)
      requires Valid()
      modifies this
      ensures Valid() && Ahead() == old(Ahead()) && |chunks| <= |old(chunks)|
      ensures if ok then |accum| >= n else |accum| < n && chunks == []
    {
      while |accum| < n
        invariant Valid() && Ahead() == old(Ahead()) && |chunks| <= |old(chunks)|
        decreases |chunks|
      {
        if chunks == [] { return false; }
        assert accum + chunks[0] + Flat(chunks[1..]) == accum + Flat(chunks);
        accum, chunks := accum + chunks[0], chunks[1..];
      }
      ok := true;
    }

    /** Hands on the first frame of what is ahead, or finds that what is left holds none. */
    method ReadOneFrame() returns (r: FrameResult)
      requires Valid()
      modifies this
      ensures Valid()
      ensures r.Got? ==> Complete(old(Ahead())) && r.frame == Head(old(Ahead())) && Ahead() == Tail(old(Ahead()))
      ensures !r.Got? ==> !Complete(old(Ahead())) && Ahead() == old(Ahead()) && chunks == []
      ensures !r.Got? ==> r == if breaks then OtherError else UnexpectedEof
    {
      ghost var all := Ahead();
      var ok := Fill(4);
      if !ok { return if breaks then OtherError else UnexpectedEof; }
      var len := FromBe32(accum);
      assert all[..4] == accum[..4] && FromBe32(all) == len;
      ok := Fill(4 + len);
      if !ok { return if breaks then OtherError else UnexpectedEof; }
      assert all[..4 + len] == accum[..4 + len];
      var frame := accum[4..4 + len];
      assert frame == Head(all);
      accum := accum[4 + len..];
      assert Ahead() == Tail(all);
      r := Got(frame);
    }

    /** The reader task: every frame in order, then one closing event; a half frame at the end is dropped. */
    method Pump() returns (events: seq<ReadEvent>)
      requires Valid()
      modifies this
      ensures events == Events(Frames(old(Ahead()))) + [if breaks then ErrorEvent else Closed]
    {
      events := [];
      ghost var done: seq<Frame> := [];
      while true
        invariant Valid() && events == Events(done) && done + Frames(Ahead()) == Frames(old(Ahead()))
        decreases |Ahead()|
      {
        ghost var was := Ahead();
        var r := ReadOneFrame();
        match r
        case Got(frame) =>
          assert Frames(was) == [frame] + Frames(Ahead());
          events := events + [FrameEvent(frame)];
          done := done + [frame];
        case UnexpectedEof => events := events + [Closed]; break;
        case OtherError => events := events + [ErrorEvent]; break;
      }
    }
  }
}
