/**
 * Where blobs live: `<owner hex>/<hash[0:2]>/<hash[0:4]>/<hash>` below the media directory, one component per entry.
 */
module MediaPaths {
  import opened Basics

  type Owner = seq<byte>
  type Path = seq<string>

  datatype Blob = Blob(owner: Owner, hash: string)

  const HEX: string := "0123456789abcdef"

  predicate IsHex(c: char) { '0' <= c <= '9' || 'a' <= c <= 'f' }

  function Digit(n: int): (c: char)
    requires 0 <= n < 16
    ensures IsHex(c)
    ensures forall m :: 0 <= m < 16 && m != n ==> HEX[m] != c
  {
    HEX[n]
  }

  function HexEncode(bytes: seq<byte>): string {
    if bytes == [] then "" else [Digit(bytes[0] as int / 16), Digit(bytes[0] as int % 16)] + HexEncode(bytes[1..])
  }

  predicate ValidHash(hash: string) { |hash| == 64 && forall i :: 0 <= i < |hash| ==> IsHex(hash[i]) }

  function ShardPath(hash: string): Path
    requires |hash| >= 4
  {
    [hash[0..2], hash[0..4], hash]
  }

  function BlobPath(b: Blob): Path
    requires ValidHash(b.hash)
  {
    [HexEncode(b.owner)] + ShardPath(b.hash)
  }

  /** The path with extension `tmp`; a hash has no dot, so nothing is replaced. */
  function TmpPath(b: Blob): Path
    requires ValidHash(b.hash)
  {
    [HexEncode(b.owner), b.hash[0..2], b.hash[0..4], b.hash + ".tmp"]
  }

  /** The value of a hex digit. */
  function HexValue(c: char): nat
    requires IsHex(c)
  {
    if c <= '9' then (c - '0') as nat else 10 + (c - 'a') as nat
  }

  /** Two digits a byte, the high one first. */
  ghost predicate Spells(text: string, bytes: seq<byte>) {
    && |text| == 2 * |bytes| && (forall i :: 0 <= i < |text| ==> IsHex(text[i]))
    && forall i :: 0 <= i < |bytes| ==> bytes[i] as nat == 16 * HexValue(text[2 * i]) + HexValue(text[2 * i + 1])
  }

  lemma DigitValue(n: nat)
    requires n < 16
    ensures HexValue(Digit(n)) == n
  {
  }

  lemma SpellsMore(x: char, y: char, text: string, b: byte, bytes: seq<byte>)
    requires Spells(text, bytes) && IsHex(x) && IsHex(y) && b as nat == 16 * HexValue(x) + HexValue(y)
    ensures Spells([x, y] + text, [b] + bytes)
  {
    hide IsHex, HexValue;
    var t, bs := [x, y] + text, [b] + bytes;
    assert forall i :: 2 <= i < |t| ==> t[i] == text[i - 2];
    forall i | 0 <= i < |bs| ensures bs[i] as nat == 16 * HexValue(t[2 * i]) + HexValue(t[2 * i + 1]) {
      if i > 0 { assert bs[i] == bytes[i - 1] && t[2 * i] == text[2 * (i - 1)]; }
    }
  }

  lemma {:induction false} HexSpells(bytes: seq<byte>)
    ensures Spells(HexEncode(bytes), bytes)
  {
    if bytes != [] {
      var n := bytes[0] as nat;
      HexSpells(bytes[1..]);
      DigitValue(n / 16);
      DigitValue(n % 16);
      hide Spells, HexValue;
      assert bytes == [bytes[0]] + bytes[1..];
      SpellsMore(Digit(n / 16), Digit(n % 16), HexEncode(bytes[1..]), bytes[0], bytes[1..]);
    }
  }

  lemma HexInjective(a: seq<byte>, b: seq<byte>)
    requires HexEncode(a) == HexEncode(b)
    ensures a == b
  {
    HexSpells(a);
    HexSpells(b);
    forall i | 0 <= i < |a| ensures a[i] == b[i] { assert a[i] as nat == b[i] as nat; }
  }

  /** Where a blob is: below its owner's key in hex, below two and then four digits of its hash, under its hash. */
  lemma PathParts(b: Blob)
    requires ValidHash(b.hash)
    ensures var p, tmp := BlobPath(b), TmpPath(b);
            && |p| == 4 && Spells(p[0], b.owner) && |p[1]| == 2 && |p[2]| == 4 && p[1] <= p[2] <= p[3] == b.hash
            && tmp == p[3 := b.hash + ".tmp"]
  {
    HexSpells(b.owner);
  }

  /** No two blobs share a path, whoever owns them. */
  lemma PathsDiffer(a: Blob, b: Blob)
    requires ValidHash(a.hash) && ValidHash(b.hash)
    ensures BlobPath(a) == BlobPath(b) <==> a == b
    ensures BlobPath(a)[0] == HexEncode(b.owner) <==> a.owner == b.owner
  {
    if BlobPath(a)[0] == HexEncode(b.owner) { HexInjective(a.owner, b.owner); }
    if BlobPath(a) == BlobPath(b) {
      assert BlobPath(a)[3] == a.hash && BlobPath(b)[3] == b.hash && BlobPath(b)[0] == HexEncode(b.owner);
    }
  }

  /** A temporary file is never where a blob belongs. */
  lemma TmpIsNoBlob(a: Blob, b: Blob)
    requires ValidHash(a.hash) && ValidHash(b.hash)
    ensures TmpPath(a) != BlobPath(b)
  {
    assert |TmpPath(a)[3]| == 68 && |BlobPath(b)[3]| == 64;
  }
}
