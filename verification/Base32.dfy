/** Crockford base32 without padding, as the relay and the phone spell keys and ids. */
module Base32 {
  import opened Basics
  import opened Bits

  /** Code units of `0123456789abcdefghjkmnpqrstvwxyz`. */
  const ALPHABET: seq<byte> := [
    0x30, 0x31, 0x32, 0x33, 0x34, 0x35, 0x36, 0x37, 0x38, 0x39,
    0x61, 0x62, 0x63, 0x64, 0x65, 0x66, 0x67, 0x68, 0x6a, 0x6b, 0x6d,
    0x6e, 0x70, 0x71, 0x72, 0x73, 0x74, 0x76, 0x77, 0x78, 0x79, 0x7a]

  const U32 := 0x1_0000_0000

  // ---- characters --------------------------------------------------------------------

  function Lower(c: byte): byte { if 0x41 <= c <= 0x5a then c + 0x20 else c }

  /** Lower case, with the look-alikes i and l read as 1, and o as 0. */
  function Fold(c: byte): byte {
    var d := Lower(c);
    if d == 0x69 || d == 0x6c then 0x31 else if d == 0x6f then 0x30 else d
  }

  function Position(c: byte, from: nat): (r: Option<nat>)
    requires from <= 32
    ensures r.Some? ==> from <= r.value < 32 && ALPHABET[r.value] == c
    ensures r.None? ==> forall i :: from <= i < 32 ==> ALPHABET[i] != c
    decreases 32 - from
  {
    if from == 32 then None else if ALPHABET[from] == c then Some(from) else Position(c, from + 1)
  }

  function CharValue(code: byte): (r: Option<nat>)
    ensures r.Some? ==> r.value < 32
  {
    var c := Fold(code);
    if 0x30 <= c <= 0x39 then Some((c - 0x30) as nat)
    else if 0x61 <= c <= 0x7a then Position(c, 0)
    else None
  }

  lemma NextLetter(i: nat)
    requires i < 31
    ensures ALPHABET[i] < ALPHABET[i + 1]
  {
  }

  lemma {:induction false} LettersAscend(i: nat, j: nat)
    requires i < j < 32
    ensures ALPHABET[i] < ALPHABET[j]
    decreases j
  {
    NextLetter(j - 1);
    if i < j - 1 { LettersAscend(i, j - 1); }
  }

  /** Ten digits, then letters that fold to themselves. */
  lemma LetterShape(i: nat)
    requires i < 32
    ensures Fold(ALPHABET[i]) == ALPHABET[i]
    ensures (if i < 10 then ALPHABET[i] == (0x30 + i) as byte else 0x61 <= ALPHABET[i] <= 0x7a)
  {
  }

  lemma CharRoundTrip(v: nat)
    requires v < 32
    ensures CharValue(ALPHABET[v]) == Some(v)
  {
    LetterShape(v);
    var r := Position(ALPHABET[v], 0);
    if r.Some? && r.value < v { LettersAscend(r.value, v); }
    if r.Some? && r.value > v { LettersAscend(v, r.value); }
  }

  predicate Legal(c: byte) { Fold(c) in ALPHABET }

  /** A character is legal exactly when its folded form is in the alphabet. */
  lemma LegalExactly(c: byte)
    ensures CharValue(c).Some? <==> Legal(c)
    ensures CharValue(c).Some? ==> ALPHABET[CharValue(c).value] == Fold(c)
  {
    var f := Fold(c);
    if f in ALPHABET {
      var i :| 0 <= i < 32 && ALPHABET[i] == f;
      LetterShape(i);
    }
    if 0x30 <= f <= 0x39 { LetterShape((f - 0x30) as nat); }
  }

  lemma FoldTwice(c: byte)
    ensures Fold(Fold(c)) == Fold(c) && CharValue(Fold(c)) == CharValue(c) && CharValue(Lower(c)) == CharValue(c)
  {
  }

  /** The letters are those of Crockford's alphabet. */
  lemma AlphabetSpelled(i: nat)
    requires i < 32
    ensures ALPHABET[i] as int == "0123456789abcdefghjkmnpqrstvwxyz"[i] as int
  {
  }

  /**
   * What a reader may type: either case, i and l for 1, o for 0; digits are themselves; u, and everything that is no
   * digit and no letter, is illegal.
   */
  lemma LookAlikes(c: byte)
    ensures 0x30 <= c <= 0x39 ==> CharValue(c) == Some((c - 0x30) as nat)
    ensures 0x61 <= c <= 0x7a ==> CharValue(c - 0x20) == CharValue(c)
    ensures c == 0x69 || c == 0x6c ==> CharValue(c) == Some(1)
    ensures c == 0x6f ==> CharValue(c) == Some(0)
    ensures c == 0x75 ==> CharValue(c) == None
    ensures !(0x30 <= c <= 0x39 || 0x41 <= c <= 0x5a || 0x61 <= c <= 0x7a) ==> CharValue(c) == None
  {
    hide Position;
    LegalExactly(c);
    assert c == 0x75 ==> !Legal(c) by { NoU(); }
  }

  lemma NoU()
    ensures 0x75 !in ALPHABET && Fold(0x75) == 0x75
  {
    forall i | 0 <= i < 32 ensures ALPHABET[i] != 0x75 {
      if i <= 26 { LettersUpTo(i); } else { LettersFrom(i); }
    }
  }

  lemma LettersUpTo(i: nat)
    requires i <= 26
    ensures ALPHABET[i] <= 0x74
  {
    if i < 26 { LettersAscend(i, 26); }
  }

  lemma LettersFrom(i: nat)
    requires 27 <= i < 32
    ensures ALPHABET[i] >= 0x76
  {
    if i > 27 { LettersAscend(27, i); }
  }

  // ---- what encoding and decoding mean --------------------------------------------------

  function Nats(bytes: seq<byte>): seq<nat> { seq(|bytes|, i requires 0 <= i < |bytes| => bytes[i] as nat) }

  function PadLen(n: nat): nat { (5 - 8 * n % 5) % 5 }

  function Zeros(n: nat): seq<bool> { seq(n, i => false) }

  /** The message as bits, filled up with zeros to whole groups of five. */
  function Filled(bytes: seq<byte>): seq<bool> {
    Spread(Nats(bytes), 8) + Zeros(PadLen(|bytes|))
  }

  function Spell(vs: seq<nat>): (text: seq<byte>)
    ensures |text| == |vs|
  {
    seq(|vs|, i requires 0 <= i < |vs| => Letter(vs[i]))
  }

  function Letter(v: nat): byte { if v < 32 then ALPHABET[v] else 0 }

  function Values(s: seq<byte>): Option<seq<nat>> {
    if s == [] then Some([])
    else
      var init, last := Values(s[..|s| - 1]), CharValue(s[|s| - 1]);
      if init.None? || last.None? then None else Some(init.value + [last.value])
  }

  /** The message's bits, filled up with zeros, spelled five at a time. */
  function Encoded(bytes: seq<byte>): seq<byte> { Spell(Gather(Filled(bytes), 5)) }

  /** The bytes in the bits of the characters; fewer than eight left-over bits are dropped. */
  function Decoded(s: seq<byte>): Option<seq<nat>> {
    var vs := Values(s);
    if vs.None? then None else Some(Gather(Spread(vs.value, 5), 8))
  }

  // ---- the loops ------------------------------------------------------------------------------

  /** One turn of the inner loop: the top five of the buffered bits become a value. */
  lemma EmitFive(buffer: nat, bits: nat)
    requires bits >= 5
    ensures ToBits(buffer, bits) == ToBits(Shr(buffer, bits - 5) % 32, 5) + ToBits(buffer, bits - 5)
  {
    Shifted(buffer, 5, bits - 5);
    Mask5(Shr(buffer, bits - 5), 5);
  }

  lemma EmitEight(buffer: nat, bits: nat)
    requires bits >= 8
    ensures ToBits(buffer, bits) == ToBits(Shr(buffer, bits - 8) % 256, 8) + ToBits(buffer, bits - 8)
  {
    Shifted(buffer, 8, bits - 8);
    Mask8(Shr(buffer, bits - 8), 8);
  }

  /** Shifting bits into a buffer that wraps keeps every bit that is still wanted. */
  lemma ShiftIn(buffer: nat, bits: nat, v: nat, w: nat)
    requires v < Pow2(w) && bits + w <= 32
    ensures ToBits((buffer * Pow2(w) + v) % U32, bits + w) == ToBits(buffer, bits) + ToBits(v, w)
  {
    hide Pow2, ToBits;
    Appended(buffer, v, bits, w);
    Mask32(buffer * Pow2(w) + v, bits + w);
  }

  lemma SpreadMore(vs: seq<nat>, v: nat, w: nat)
    ensures Spread(vs + [v], w) == Spread(vs, w) + ToBits(v, w)
  {
    assert (vs + [v])[..|vs|] == vs;
  }

  lemma SpellMore(vs: seq<nat>, v: nat)
    requires AllBelow(vs, 5) && v < 32
    ensures AllBelow(vs + [v], 5) && Spell(vs + [v]) == Spell(vs) + [ALPHABET[v]]
  {
    Powers();
  }

  method Encode(bytes: seq<byte>) returns (out: seq<byte>)
    ensures out == Encoded(bytes) && |out| == (8 * |bytes| + 4) / 5
  {
    hide Spread, ToBits, Spell, AllBelow, Pow2, Gather;
    out := [];
    var buffer: nat, bits: nat := 0, 0;
    ghost var vs: seq<nat> := [];
    EncodeStarts(bytes);
    for i := 0 to |bytes|
      invariant bits < 5 && buffer < U32 && Holding(vs, out, buffer, bits, Nats(bytes[..i]))
    {
      var was := buffer;
      buffer := (buffer * 256 + bytes[i] as nat) % U32;
      bits := bits + 8;
      EncodeTakes(bytes, i, vs, out, was, buffer, bits);
      while bits >= 5
        invariant bits < 13 && buffer < U32 && Holding(vs, out, buffer, bits, Nats(bytes[..i + 1]))
      {
        bits := bits - 5;
        var idx := Shr(buffer, bits) % 32;
        EncodeEmits(vs, out, buffer, bits, idx, Nats(bytes[..i + 1]));
        vs := vs + [idx];
        out := out + [ALPHABET[idx]];
      }
    }
    assert bytes[..|bytes|] == bytes;
    if bits > 0 {
      var idx := (buffer * Pow2(5 - bits) % U32) % 32;
      out := out + [ALPHABET[idx]];
      EncodeFlushes(bytes, vs, out, buffer, bits, idx);
    } else {
      EncodeEven(bytes, vs, out, buffer);
    }
  }

  /** The values spelled so far and the buffered bits are the bits of the bytes taken so far. */
  ghost predicate Holding(vs: seq<nat>, out: seq<byte>, buffer: nat, bits: nat, taken: seq<nat>) {
    AllBelow(vs, 5) && out == Spell(vs) && Spread(vs, 5) + ToBits(buffer, bits) == Spread(taken, 8)
  }

  lemma EncodeStarts(bytes: seq<byte>)
    ensures Holding([], [], 0, 0, Nats(bytes[..0]))
  {
  }

  lemma EncodeTakes(bytes: seq<byte>, i: nat, vs: seq<nat>, out: seq<byte>, was: nat, buffer: nat, bits: nat)
    requires i < |bytes| && 8 <= bits < 13 && Holding(vs, out, was, bits - 8, Nats(bytes[..i]))
    requires buffer == (was * 256 + bytes[i] as nat) % U32
    ensures Holding(vs, out, buffer, bits, Nats(bytes[..i + 1]))
  {
    hide Spread, ToBits, Spell, Pow2;
    var b := bytes[i] as nat;
    Powers();
    ShiftIn(was, bits - 8, b, 8);
    SpreadMore(Nats(bytes[..i]), b, 8);
    assert Nats(bytes[..i + 1]) == Nats(bytes[..i]) + [b];
    assert Spread(vs, 5) + (ToBits(was, bits - 8) + ToBits(b, 8))
           == Spread(vs, 5) + ToBits(was, bits - 8) + ToBits(b, 8);
  }

  lemma EncodeEmits(vs: seq<nat>, out: seq<byte>, buffer: nat, bits: nat, idx: nat, taken: seq<nat>)
    requires Holding(vs, out, buffer, bits + 5, taken) && idx == Shr(buffer, bits) % 32
    ensures Holding(vs + [idx], out + [ALPHABET[idx]], buffer, bits, taken)
  {
    hide Spread, ToBits, Spell, Pow2, Shr;
    EmitFive(buffer, bits + 5);
    SpreadMore(vs, idx, 5);
    SpellMore(vs, idx);
    assert Spread(vs, 5) + (ToBits(idx, 5) + ToBits(buffer, bits))
           == Spread(vs, 5) + ToBits(idx, 5) + ToBits(buffer, bits);
  }

  lemma EncodeFlushes(bytes: seq<byte>, vs: seq<nat>, out: seq<byte>, buffer: nat, bits: nat, idx: nat)
    requires 0 < bits < 5 && idx == (buffer * Pow2(5 - bits) % U32) % 32
    requires |out| > 0 && Holding(vs, out[..|out| - 1], buffer, bits, Nats(bytes)) && out[|out| - 1] == ALPHABET[idx]
    ensures out == Encoded(bytes) && |out| == (8 * |bytes| + 4) / 5
  {
    hide ToBits, Pow2, Spread, Spell;
    var pad := 5 - bits;
    var x := buffer * Pow2(pad);
    Mask5(x % U32, 5);
    Mask32(x, 5);
    Appended(buffer, 0, bits, pad);
    ZeroBits(pad);
    SpreadMore(vs, idx, 5);
    SpellMore(vs, idx);
    var all := vs + [idx];
    assert |Spread(Nats(bytes), 8)| == 8 * |bytes| == 5 * |vs| + bits;
    FlushLen(|bytes|, |vs|, bits);
    assert Spread(all, 5) == Filled(bytes);
    assert out == out[..|out| - 1] + [ALPHABET[idx]] == Spell(all);
    GatherSpread(all, 5, []);
    assert Spread(all, 5) + [] == Spread(all, 5);
  }

  lemma FlushLen(n: nat, groups: nat, bits: nat)
    requires 8 * n == 5 * groups + bits && bits < 5
    ensures PadLen(n) == (if bits == 0 then 0 else 5 - bits)
    ensures (8 * n + 4) / 5 == (if bits == 0 then groups else groups + 1)
  {
    DivFive(8 * n, groups, bits);
    if bits == 0 { DivFive(8 * n + 4, groups, 4); } else { DivFive(8 * n + 4, groups + 1, bits - 1); }
  }

  lemma DivFive(x: nat, q: nat, r: nat)
    requires x == 5 * q + r && r < 5
    ensures x / 5 == q && x % 5 == r
  {
  }

  lemma EncodeEven(bytes: seq<byte>, vs: seq<nat>, out: seq<byte>, buffer: nat)
    requires Holding(vs, out, buffer, 0, Nats(bytes))
    ensures out == Encoded(bytes) && |out| == (8 * |bytes| + 4) / 5
  {
    hide Spread, Spell;
    assert |Spread(Nats(bytes), 8)| == 8 * |bytes| == 5 * |vs|;
    FlushLen(|bytes|, |vs|, 0);
    assert Spread(vs, 5) == Filled(bytes);
    GatherSpread(vs, 5, []);
    assert Spread(vs, 5) + [] == Spread(vs, 5);
  }

  method Decode(s: seq<byte>) returns (r: Option<seq<byte>>)
    ensures r.None? <==> Decoded(s).None?
    ensures r.Some? ==> Nats(r.value) == Decoded(s).value
  {
    hide Spread, ToBits, Gather, CharValue, Pow2;
    var out: seq<byte> := [];
    var buffer: nat, bits: nat := 0, 0;
    ghost var vs: seq<nat> := [];
    assert Fed([], [], 0, 0) && s[..0] == [] by { FedStarts(); }
    for i := 0 to |s|
      invariant bits < 8 && buffer < U32 && Values(s[..i]) == Some(vs) && Fed(vs, out, buffer, bits)
    {
      assert s[..i + 1][..i] == s[..i];
      var value := CharValue(s[i]);
      if value.None? {
        NoneEver(s, i);
        return None;
      }
      ValueBound(s[i]);
      ghost var was := buffer;
      buffer := (buffer * 32 + value.value) % U32;
      bits := bits + 5;
      FedTakes(vs, out, was, buffer, bits, value.value);
      vs := vs + [value.value];
      if bits >= 8 {
        bits := bits - 8;
        var b := Shr(buffer, bits) % 256;
        FedEmits(vs, out, buffer, bits, b);
        out := out + [b as byte];
      }
    }
    assert s[..|s|] == s;
    FedDone(vs, out, buffer, bits);
    r := Some(out);
  }

  ghost predicate Fed(vs: seq<nat>, out: seq<byte>, buffer: nat, bits: nat) {
    Spread(Nats(out), 8) + ToBits(buffer, bits) == Spread(vs, 5)
  }

  lemma FedStarts()
    ensures Fed([], [], 0, 0)
  {
  }

  lemma ValueBound(c: byte)
    requires CharValue(c).Some?
    ensures CharValue(c).value < 32
  {
  }

  lemma {:induction false} NoneEver(s: seq<byte>, i: nat)
    requires i < |s| && CharValue(s[i]).None?
    ensures Values(s).None?
    decreases |s|
  {
    if i < |s| - 1 { NoneEver(s[..|s| - 1], i); }
  }

  lemma FedTakes(vs: seq<nat>, out: seq<byte>, was: nat, buffer: nat, bits: nat, v: nat)
    requires 5 <= bits < 13 && Fed(vs, out, was, bits - 5) && v < 32 && buffer == (was * 32 + v) % U32
    ensures Fed(vs + [v], out, buffer, bits)
  {
    hide Spread, ToBits, Pow2;
    Powers();
    ShiftIn(was, bits - 5, v, 5);
    SpreadMore(vs, v, 5);
    assert Spread(Nats(out), 8) + (ToBits(was, bits - 5) + ToBits(v, 5))
           == Spread(Nats(out), 8) + ToBits(was, bits - 5) + ToBits(v, 5);
  }

  lemma FedEmits(vs: seq<nat>, out: seq<byte>, buffer: nat, bits: nat, b: nat)
    requires Fed(vs, out, buffer, bits + 8) && b == Shr(buffer, bits) % 256
    ensures Fed(vs, out + [b as byte], buffer, bits)
  {
    hide Spread, ToBits, Pow2, Shr;
    EmitEight(buffer, bits + 8);
    SpreadMore(Nats(out), b, 8);
    assert Nats(out + [b as byte]) == Nats(out) + [b];
    assert Spread(Nats(out), 8) + (ToBits(b, 8) + ToBits(buffer, bits))
           == Spread(Nats(out), 8) + ToBits(b, 8) + ToBits(buffer, bits);
  }

  lemma NatsBelow(bytes: seq<byte>)
    ensures AllBelow(Nats(bytes), 8)
  {
    Powers();
  }

  lemma FedDone(vs: seq<nat>, out: seq<byte>, buffer: nat, bits: nat)
    requires Fed(vs, out, buffer, bits) && bits < 8
    ensures Gather(Spread(vs, 5), 8) == Nats(out)
  {
    NatsBelow(out);
    GatherSpread(Nats(out), 8, ToBits(buffer, bits));
  }

  // ---- what is promised -----------------------------------------------------------------------------

  lemma {:induction false} ValuesOfSpell(vs: seq<nat>)
    requires AllBelow(vs, 5)
    ensures Values(Spell(vs)) == Some(vs)
    decreases |vs|
  {
    if vs != [] {
      var n := |vs| - 1;
      ValuesOfSpell(vs[..n]);
      Powers();
      assert Spell(vs)[..n] == Spell(vs[..n]);
      CharRoundTrip(vs[n]);
      assert vs == vs[..n] + [vs[n]];
    }
  }

  lemma FilledLen(bytes: seq<byte>)
    ensures |Filled(bytes)| == 5 * ((8 * |bytes| + 4) / 5)
  {
    var n := 8 * |bytes|;
    FlushLen(|bytes|, n / 5, n % 5);
  }

  /** Decoding gives back what was encoded. */
  lemma RoundTrip(bytes: seq<byte>)
    ensures Decoded(Encoded(bytes)) == Some(Nats(bytes))
  {
    hide Spread, Gather, Spell, Values;
    var vs := Gather(Filled(bytes), 5);
    FilledLen(bytes);
    SpreadGather(Filled(bytes), (8 * |bytes| + 4) / 5);
    ValuesOfSpell(vs);
    NatsBelow(bytes);
    GatherSpread(Nats(bytes), 8, Zeros(PadLen(|bytes|)));
  }

  /**
   * What a spelling means: read as digits in base 32, most significant first, it is the number whose digits in base 256
   * are the message, shifted left to fill the last character.
   */
  lemma EncodedValue(bytes: seq<byte>)
    ensures var vs := Values(Encoded(bytes));
            vs.Some? && Number(vs.value, 32) == Number(Nats(bytes), 256) * Pow2(PadLen(|bytes|))
  {
    hide Spread, Gather, Spell, Values, Number, FromBits;
    var vs, bits := Gather(Filled(bytes), 5), Spread(Nats(bytes), 8);
    FilledLen(bytes);
    SpreadGather(Filled(bytes), (8 * |bytes| + 4) / 5);
    ValuesOfSpell(vs);
    NatsBelow(bytes);
    Powers();
    SpreadValue(vs, 5);
    SpreadValue(Nats(bytes), 8);
    JoinedValue(bits, Zeros(PadLen(|bytes|)));
    ZerosValue(PadLen(|bytes|));
  }

  /** No two messages are spelled alike. */
  lemma EncodedDiffer(a: seq<byte>, b: seq<byte>)
    requires Encoded(a) == Encoded(b)
    ensures a == b
  {
    hide Encoded, Decoded;
    RoundTrip(a);
    RoundTrip(b);
    NatsInjective(a, b);
  }

  lemma NatsInjective(a: seq<byte>, b: seq<byte>)
    requires Nats(a) == Nats(b)
    ensures a == b
  {
    forall i | 0 <= i < |a| ensures a[i] == b[i] { assert Nats(a)[i] == Nats(b)[i]; }
  }

  /** A text decodes exactly when every character is legal. */
  lemma {:induction false} DecodesExactly(s: seq<byte>)
    ensures Decoded(s).Some? <==> forall i :: 0 <= i < |s| ==> Legal(s[i])
  {
    hide Legal, CharValue, Spread, Gather;
    if s != [] {
      var n := |s| - 1;
      DecodesExactly(s[..n]);
      LegalExactly(s[n]);
      assert forall i :: 0 <= i < n ==> s[..n][i] == s[i];
    }
  }

  lemma {:induction false} SameValues(s: seq<byte>, t: seq<byte>)
    requires |s| == |t| && forall i :: 0 <= i < |s| ==> CharValue(s[i]) == CharValue(t[i])
    ensures Values(s) == Values(t)
    decreases |s|
  {
    if s != [] { SameValues(s[..|s| - 1], t[..|t| - 1]); }
  }

  /** Decoding does not see case, nor the difference between i, l and 1, nor between o and 0. */
  lemma FoldedDecodesAlike(s: seq<byte>, t: seq<byte>)
    requires |s| == |t| && forall i :: 0 <= i < |s| ==> Fold(s[i]) == Fold(t[i])
    ensures Decoded(s) == Decoded(t)
  {
    forall i | 0 <= i < |s| ensures CharValue(s[i]) == CharValue(t[i]) { FoldTwice(s[i]); FoldTwice(t[i]); }
    SameValues(s, t);
  }
}
