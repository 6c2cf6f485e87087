/** Big-endian numbers and fixed-width chunks of bytes. */
module Bytes {
  newtype byte = x: int | 0 <= x < 256

  function Pow256(k: nat): (r: nat)
    ensures r > 0
  {
    if k == 0 then 1 else 256 * Pow256(k - 1)
  }

  /** `n` in exactly `k` bytes, most significant first. */
  function BigEndian(n: nat, k: nat): (r: seq<byte>)
    requires n < Pow256(k)
    ensures |r| == k
  {
    if k == 0 then [] else BigEndian(n / 256, k - 1) + [(n % 256) as byte]
  }

  function FromBigEndian(b: seq<byte>): nat {
    if b == [] then 0 else 256 * FromBigEndian(b[..|b| - 1]) + b[|b| - 1] as nat
  }

  lemma {:induction false} BigEndianRoundTrip(n: nat, k: nat)
    requires n < Pow256(k)
    ensures FromBigEndian(BigEndian(n, k)) == n
  {
    if k > 0 {
      BigEndianRoundTrip(n / 256, k - 1);
      var b := BigEndian(n, k);
      assert b[..|b| - 1] == BigEndian(n / 256, k - 1);
    }
  }

  lemma {:induction false} FromBigEndianFits(b: seq<byte>)
    ensures FromBigEndian(b) < Pow256(|b|)
  {
    if b != [] {
      FromBigEndianFits(b[..|b| - 1]);
    }
  }

  /** Reading bytes as a number loses nothing either. */
  lemma {:induction false} FromBigEndianRoundTrip(b: seq<byte>)
    ensures FromBigEndian(b) < Pow256(|b|) && BigEndian(FromBigEndian(b), |b|) == b
  {
    FromBigEndianFits(b);
    if b != [] {
      var front := b[..|b| - 1];
      FromBigEndianRoundTrip(front);
      assert FromBigEndian(b) / 256 == FromBigEndian(front);
      assert b == front + [b[|b| - 1]];
    }
  }

  /** The width of a keyed digest. */
  const DIGEST_BYTES: nat := 16

  /** Concatenation of the chunks. */
  function Join(chunks: seq<seq<byte>>): seq<byte> {
    if chunks == [] then [] else Join(chunks[..|chunks| - 1]) + chunks[|chunks| - 1]
  }

  /** Cut into chunks of DIGEST_BYTES bytes. */
  function Split(b: seq<byte>): (r: seq<seq<byte>>)
    requires |b| % DIGEST_BYTES == 0
    ensures |b| == DIGEST_BYTES * |r|
    decreases |b|
  {
    if b == [] then [] else Split(b[..|b| - DIGEST_BYTES]) + [b[|b| - DIGEST_BYTES..]]
  }

  lemma {:induction false} SplitJoin(chunks: seq<seq<byte>>)
    requires forall i | 0 <= i < |chunks| :: |chunks[i]| == DIGEST_BYTES
    ensures |Join(chunks)| == DIGEST_BYTES * |chunks|
    ensures Split(Join(chunks)) == chunks
  {
    if chunks != [] {
      var front, last := chunks[..|chunks| - 1], chunks[|chunks| - 1];
      SplitJoin(front);
      var b := Join(chunks);
      assert b[..|b| - DIGEST_BYTES] == Join(front) && b[|b| - DIGEST_BYTES..] == last;
    }
  }
}
