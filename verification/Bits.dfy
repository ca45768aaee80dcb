/** Numbers as bit strings, most significant bit first, and regrouping them. */
module Bits {

  function Pow2(n: nat): (p: nat)
    ensures p > 0
  {
    if n == 0 then 1 else 2 * Pow2(n - 1)
  }

  /** The low `w` bits of `v`. */
  function ToBits(v: nat, w: nat): (b: seq<bool>)
    ensures |b| == w
    decreases w
  {
    if w == 0 then [] else ToBits(v / 2, w - 1) + [v % 2 == 1]
  }

  function FromBits(b: seq<bool>): nat {
    if b == [] then 0 else 2 * FromBits(b[..|b| - 1]) + if b[|b| - 1] then 1 else 0
  }

  lemma {:induction false} BackFromBits(v: nat, w: nat)
    requires v < Pow2(w)
    ensures FromBits(ToBits(v, w)) == v
    decreases w
  {
    if w > 0 {
      BackFromBits(v / 2, w - 1);
      assert ToBits(v, w)[..w - 1] == ToBits(v / 2, w - 1);
    }
  }

  lemma {:induction false} BackToBits(b: seq<bool>)
    ensures FromBits(b) < Pow2(|b|) && ToBits(FromBits(b), |b|) == b
  {
    if b != [] {
      var init := b[..|b| - 1];
      BackToBits(init);
      assert FromBits(b) / 2 == FromBits(init);
      assert b == init + [b[|b| - 1]];
    }
  }

  /** `v >> w`. */
  function Shr(v: nat, w: nat): nat
    decreases w
  {
    if w == 0 then v else Shr(v / 2, w - 1)
  }

  /** The high bits are what a right shift leaves. */
  lemma {:induction false} Shifted(v: nat, a: nat, w: nat)
    ensures ToBits(v, a + w) == ToBits(Shr(v, w), a) + ToBits(v, w)
    decreases w
  {
    if w > 0 { Shifted(v / 2, a, w - 1); }
  }

  lemma Halved(v: nat, u: nat, w: nat)
    requires w > 0
    ensures var x := v * Pow2(w) + u; x / 2 == v * Pow2(w - 1) + u / 2 && x % 2 == u % 2
  {
    Doubled(v, w - 1);
    var y := v * Pow2(w - 1);
    hide Pow2;
    assert v * Pow2(w) + u == 2 * y + u;
  }

  lemma Doubled(x: nat, n: nat)
    ensures 2 * (x * Pow2(n)) == x * Pow2(n + 1)
  {
    var p := Pow2(n);
    assert Pow2(n + 1) == 2 * p;
    hide Pow2;
  }

  /** A left shift with something put into the freed bits. */
  lemma {:induction false} Appended(v: nat, u: nat, a: nat, w: nat)
    requires u < Pow2(w)
    ensures ToBits(v * Pow2(w) + u, a + w) == ToBits(v, a) + ToBits(u, w)
    decreases w
  {
    if w == 0 {
      assert v * Pow2(0) + u == v;
    } else {
      assert u / 2 < Pow2(w - 1);
      Halved(v, u, w);
      Appended(v, u / 2, a, w - 1);
      hide Pow2;
      assert ToBits(v * Pow2(w) + u, a + w) == ToBits(v * Pow2(w - 1) + u / 2, a + w - 1) + [u % 2 == 1];
    }
  }

  /** Bits above those one looks at do not matter. */
  lemma {:induction false} HighBits(r: nat, c: nat, n: nat, k: nat)
    requires k <= n
    ensures ToBits(r + c * Pow2(n), k) == ToBits(r, k)
    decreases k
  {
    if k > 0 {
      var p := Pow2(n - 1);
      var x := r + c * Pow2(n);
      assert x == r + 2 * (c * p);
      assert x / 2 == r / 2 + c * p && x % 2 == r % 2;
      HighBits(r / 2, c, n - 1, k - 1);
    }
  }

  lemma Powers()
    ensures Pow2(5) == 32 && Pow2(8) == 256 && Pow2(32) == 0x1_0000_0000
  {
    assert Pow2(4) == 16;
    assert Pow2(8) == 16 * Pow2(4);
    assert Pow2(12) == 16 * Pow2(8);
    assert Pow2(16) == 16 * Pow2(12);
    assert Pow2(20) == 16 * Pow2(16);
    assert Pow2(24) == 16 * Pow2(20);
    assert Pow2(28) == 16 * Pow2(24);
    assert Pow2(32) == 16 * Pow2(28);
  }

  /** `& 0x1f` keeps the low five bits. */
  lemma Mask5(v: nat, k: nat)
    requires k <= 5
    ensures ToBits(v % 32, k) == ToBits(v, k)
  {
    Powers();
    hide Pow2, ToBits;
    var c := v / 32;
    assert v == v % 32 + c * 32;
    HighBits(v % 32, c, 5, k);
  }

  /** `& 0xff` keeps the low eight bits. */
  lemma Mask8(v: nat, k: nat)
    requires k <= 8
    ensures ToBits(v % 256, k) == ToBits(v, k)
  {
    Powers();
    hide Pow2, ToBits;
    var c := v / 256;
    assert v == v % 256 + c * 256;
    HighBits(v % 256, c, 8, k);
  }

  /** Wrapping at 32 bits keeps the low 32. */
  lemma Mask32(v: nat, k: nat)
    requires k <= 32
    ensures ToBits(v % 0x1_0000_0000, k) == ToBits(v, k)
  {
    Powers();
    hide Pow2, ToBits;
    var c := v / 0x1_0000_0000;
    assert v == v % 0x1_0000_0000 + c * 0x1_0000_0000;
    HighBits(v % 0x1_0000_0000, c, 32, k);
  }

  lemma {:induction false} ZeroBits(w: nat)
    ensures ToBits(0, w) == seq(w, i => false)
    decreases w
  {
    if w > 0 { ZeroBits(w - 1); }
  }

  // ---- regrouping ----------------------------------------------------------------------

  predicate AllBelow(vs: seq<nat>, w: nat) { forall i :: 0 <= i < |vs| ==> vs[i] < Pow2(w) }

  /** Every value as `w` bits, one after the other. */
  function Spread(vs: seq<nat>, w: nat): (b: seq<bool>)
    ensures |b| == |vs| * w
  {
    if vs == [] then [] else Spread(vs[..|vs| - 1], w) + ToBits(vs[|vs| - 1], w)
  }

  /** As many values of `w` bits as there are, left to right; what is left over is dropped. */
  function Gather(b: seq<bool>, w: nat): (vs: seq<nat>)
    requires w > 0
    decreases |b|
  {
    if |b| < w then [] else [FromBits(b[..w])] + Gather(b[w..], w)
  }

  lemma {:induction false} SpreadFront(v: nat, vs: seq<nat>, w: nat)
    ensures Spread([v] + vs, w) == ToBits(v, w) + Spread(vs, w)
    decreases |vs|
  {
    if vs == [] {
      assert [v] + vs == [v] && [v][..0] == [];
    } else {
      var n := |vs| - 1;
      SpreadFront(v, vs[..n], w);
      assert ([v] + vs)[..|vs|] == [v] + vs[..n] && ([v] + vs)[|vs|] == vs[n];
    }
  }

  /** Gathering undoes spreading, whatever short remainder follows. */
  lemma {:induction false} GatherSpread(vs: seq<nat>, w: nat, tail: seq<bool>)
    requires w > 0 && AllBelow(vs, w) && |tail| < w
    ensures Gather(Spread(vs, w) + tail, w) == vs
    decreases |vs|
  {
    if vs != [] {
      var v, rest := vs[0], vs[1..];
      assert vs == [v] + rest;
      SpreadFront(v, rest, w);
      var b := Spread(vs, w) + tail;
      assert b[..w] == ToBits(v, w) && b[w..] == Spread(rest, w) + tail;
      BackFromBits(v, w);
      GatherSpread(rest, w, tail);
    }
  }

  /** Spreading undoes gathering when nothing is left over; groups of five. */
  lemma {:induction false} SpreadGather(b: seq<bool>, n: nat)
    requires |b| == 5 * n
    ensures |Gather(b, 5)| == n && AllBelow(Gather(b, 5), 5) && Spread(Gather(b, 5), 5) == b
    decreases n
  {
    hide Spread, ToBits, FromBits, Pow2;
    if n == 0 {
      assert Spread([], 5) == [];
    } else {
      var v, rest := FromBits(b[..5]), b[5..];
      SpreadGather(rest, n - 1);
      BackToBits(b[..5]);
      SpreadFront(v, Gather(rest, 5), 5);
      assert b == b[..5] + rest;
    }
  }

  // ---- values ----------------------------------------------------------------------------

  /** The digits of a number in some base, the most significant first. */
  function Number(digits: seq<nat>, base: nat): nat {
    if digits == [] then 0 else Number(digits[..|digits| - 1], base) * base + digits[|digits| - 1]
  }

  lemma {:induction false} JoinedValue(a: seq<bool>, b: seq<bool>)
    ensures FromBits(a + b) == FromBits(a) * Pow2(|b|) + FromBits(b)
    decreases |b|
  {
    hide Pow2;
    if b == [] {
      assert a + b == a && Pow2(0) == 1 by { NoPow(); }
    } else {
      var n := |b| - 1;
      JoinedValue(a, b[..n]);
      assert (a + b)[..|a + b| - 1] == a + b[..n] && (a + b)[|a + b| - 1] == b[n];
      Doubled(FromBits(a), n);
    }
  }

  lemma NoPow()
    ensures Pow2(0) == 1
  {
  }

  /** Values of `w` bits written one after the other are the digits of one number in base two to the `w`. */
  lemma {:induction false} SpreadValue(vs: seq<nat>, w: nat)
    requires AllBelow(vs, w)
    ensures FromBits(Spread(vs, w)) == Number(vs, Pow2(w))
    decreases |vs|
  {
    if vs != [] {
      var n := |vs| - 1;
      SpreadValue(vs[..n], w);
      JoinedValue(Spread(vs[..n], w), ToBits(vs[n], w));
      BackFromBits(vs[n], w);
    }
  }

  lemma {:induction false} ZerosValue(w: nat)
    ensures FromBits(seq(w, i => false)) == 0
    decreases w
  {
    if w > 0 {
      ZerosValue(w - 1);
      assert seq(w, i => false)[..w - 1] == seq(w - 1, i => false);
    }
  }
}
