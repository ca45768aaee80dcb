/** The bytes an owner's request signature covers, before hashing. */
module SignedRequest {
  import opened Basics
  import Bits

  type Bytes = seq<byte>

  /** `starling-owner-req-v1`. */
  const DOMAIN: Bytes := [
    0x73, 0x74, 0x61, 0x72, 0x6c, 0x69, 0x6e, 0x67, 0x2d, 0x6f, 0x77, 0x6e, 0x65, 0x72, 0x2d,
    0x72, 0x65, 0x71, 0x2d, 0x76, 0x31]

  const SLASH: byte := 0x2f

  const U64 := 0x1_0000_0000_0000_0000

  /** A signed 64-bit timestamp cast to unsigned: negative values wrap to the top half. */
  predicate IsI64(ts: int) { -0x8000_0000_0000_0000 <= ts < 0x8000_0000_0000_0000 }

  function AsU64(ts: int): (n: nat)
    requires IsI64(ts)
    ensures n < U64
  {
    if ts < 0 then ts + U64 else ts
  }

  /** The low `w` bytes of `n`, most significant first. */
  function BigEndian(n: nat, w: nat): (b: Bytes)
    ensures |b| == w
    decreases w
  {
    if w == 0 then [] else BigEndian(n / 256, w - 1) + [(n % 256) as byte]
  }

  function Width(w: nat): (p: nat)
    ensures p > 0
  {
    if w == 0 then 1 else 256 * Width(w - 1)
  }

  lemma {:induction false} BigEndianInjective(m: nat, n: nat, w: nat)
    requires m < Width(w) && n < Width(w) && BigEndian(m, w) == BigEndian(n, w)
    ensures m == n
    decreases w
  {
    if w > 0 {
      var a, b := BigEndian(m, w), BigEndian(n, w);
      assert a[w - 1] == b[w - 1] && a[..w - 1] == BigEndian(m / 256, w - 1) && b[..w - 1] == BigEndian(n / 256, w - 1);
      BigEndianInjective(m / 256, n / 256, w - 1);
    }
  }

  function Nats(b: Bytes): seq<nat> { seq(|b|, i requires 0 <= i < |b| => b[i] as nat) }

  /** Read in base 256, most significant byte first, the bytes are the number. */
  lemma {:induction false} BigEndianValue(n: nat, w: nat)
    requires n < Width(w)
    ensures Bits.Number(Nats(BigEndian(n, w)), 256) == n
    decreases w
  {
    if w > 0 {
      BigEndianValue(n / 256, w - 1);
      assert Nats(BigEndian(n, w))[..w - 1] == Nats(BigEndian(n / 256, w - 1));
    }
  }

  lemma EightBytes()
    ensures Width(8) == U64
  {
    assert Width(2) == 0x1_0000;
    assert Width(4) == 0x1_0000 * Width(2);
    assert Width(6) == 0x1_0000 * Width(4);
    assert Width(8) == 0x1_0000 * Width(6);
  }

  /** `blake2b256` stands for any function to 32 bytes. */
  ghost predicate IsDigest(hash: Bytes -> Bytes) { forall x :: |hash(x)| == 32 }

  function Covered(method_: Bytes, path: Bytes, ts: int, digest: Bytes): Bytes
    requires IsI64(ts)
  {
    DOMAIN + method_ + path + BigEndian(AsU64(ts), 8) + digest
  }

  /**
   * Appending field after field to one buffer, as the digest function does: 21 bytes that separate this use, method,
   * path, the timestamp in eight bytes, most significant first and modulo two to the 64th, and the digest of the body.
   */
  method RequestBytes(hash: Bytes -> Bytes, method_: Bytes, path: Bytes, ts: int, body: Bytes) returns (buf: Bytes)
    requires IsI64(ts) && IsDigest(hash)
    ensures buf == Covered(method_, path, ts, hash(body)) && |buf| == 61 + |method_| + |path|
    ensures buf[..21] == DOMAIN && buf[|buf| - 32..] == hash(body)
    ensures var m, p := 21 + |method_|, 21 + |method_| + |path|;
            && buf[21..m] == method_ && buf[m..p] == path
            && Bits.Number(Nats(buf[p..p + 8]), 256) == if ts < 0 then ts + 0x1_0000_0000_0000_0000 else ts
  {
    buf := DOMAIN;
    buf := buf + method_;
    buf := buf + path;
    buf := buf + BigEndian(AsU64(ts), 8);
    buf := buf + hash(body);
    hide BigEndian;
    CoveredFields(method_, path, ts, hash(body));
  }

  /** Where each field is in the covered bytes. */
  lemma CoveredFields(method_: Bytes, path: Bytes, ts: int, digest: Bytes)
    requires IsI64(ts) && |digest| == 32
    ensures var buf, m, p := Covered(method_, path, ts, digest), 21 + |method_|, 21 + |method_| + |path|;
            && |buf| == p + 40 && buf[..21] == DOMAIN && buf[21..m] == method_ && buf[m..p] == path
            && buf[p + 8..] == digest
            && Bits.Number(Nats(buf[p..p + 8]), 256) == if ts < 0 then ts + 0x1_0000_0000_0000_0000 else ts
  {
    EightBytes();
    BigEndianValue(AsU64(ts), 8);
    hide BigEndian, Bits.Number, Nats;
    var stamp := BigEndian(AsU64(ts), 8);
    Sliced(DOMAIN, method_, path, stamp, digest);
  }

  lemma Sliced(a: Bytes, b: Bytes, c: Bytes, d: Bytes, e: Bytes)
    ensures var all, i, j, k := a + b + c + d + e, |a| + |b|, |a| + |b| + |c|, |a| + |b| + |c| + |d|;
            all[..|a|] == a && all[|a|..i] == b && all[i..j] == c && all[j..k] == d && all[k..] == e
  {
  }

  predicate HttpLike(method_: Bytes, path: Bytes) { SLASH !in method_ && path != [] && path[0] == SLASH }

  function FirstSlash(b: Bytes): nat {
    if b == [] || b[0] == SLASH then 0 else 1 + FirstSlash(b[1..])
  }

  /** The first slash is where the path begins. */
  lemma {:induction false} PathStarts(m: Bytes, p: Bytes)
    requires HttpLike(m, p)
    ensures FirstSlash(m + p) == |m|
  {
    if m == [] {
      assert m + p == p;
    } else {
      PathStarts(m[1..], p);
      assert (m + p)[1..] == m[1..] + p;
    }
  }

  /** What the bytes determine for any fields at all: timestamp, digest, and method and path run together. */
  lemma CoversExactly(m: Bytes, p: Bytes, ts: int, d: Bytes, m': Bytes, p': Bytes, ts': int, d': Bytes)
    requires IsI64(ts) && IsI64(ts') && |d| == 32 && |d'| == 32
    ensures Covered(m, p, ts, d) == Covered(m', p', ts', d') <==> m + p == m' + p' && ts == ts' && d == d'
  {
    hide BigEndian;
    var b, b' := Covered(m, p, ts, d), Covered(m', p', ts', d');
    var t, t' := BigEndian(AsU64(ts), 8), BigEndian(AsU64(ts'), 8);
    assert b == DOMAIN + (m + p) + t + d && b' == DOMAIN + (m' + p') + t' + d';
    if b == b' {
      var n := |b|;
      assert b[n - 32..] == d && b'[n - 32..] == d';
      assert b[n - 40..n - 32] == t && b'[n - 40..n - 32] == t';
      assert b[21..n - 40] == m + p && b'[21..n - 40] == m' + p';
      EightBytes();
      BigEndianInjective(AsU64(ts), AsU64(ts'), 8);
    }
  }

  /** For methods without a slash and paths that begin with one, the bytes determine every field. */
  lemma Unambiguous(m: Bytes, p: Bytes, ts: int, d: Bytes, m': Bytes, p': Bytes, ts': int, d': Bytes)
    requires IsI64(ts) && IsI64(ts') && |d| == 32 && |d'| == 32 && HttpLike(m, p) && HttpLike(m', p')
    ensures Covered(m, p, ts, d) == Covered(m', p', ts', d') <==> m == m' && p == p' && ts == ts' && d == d'
  {
    hide Covered;
    CoversExactly(m, p, ts, d, m', p', ts', d');
    PathStarts(m, p);
    PathStarts(m', p');
    if m + p == m' + p' {
      assert m == (m + p)[..|m|] && p == (m + p)[|m|..];
      assert m' == (m' + p')[..|m'|] && p' == (m' + p')[|m'|..];
    }
  }
}
