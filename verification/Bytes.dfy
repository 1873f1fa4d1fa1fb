/** Bytes and the little-endian integers of the segment files. */
module Bytes {

  type Byte = x: nat | x < 256

  type Data = seq<Byte>

  function Power256(k: nat): (p: nat)
    ensures p >= 1
  {
    if k == 0 then 1 else 256 * Power256(k - 1)
  }

  /** The `k` low bytes of `n`, lowest first. */
  function Encode(n: nat, k: nat): (s: Data)
    ensures |s| == k
  {
    if k == 0 then [] else [n % 256] + Encode(n / 256, k - 1)
  }

  function Decode(s: Data): nat {
    if s == [] then 0 else s[0] + 256 * Decode(s[1..])
  }

  /** Integers that fit survive encoding. */
  lemma {:induction false} DecodeEncode(n: nat, k: nat)
    requires n < Power256(k)
    ensures Decode(Encode(n, k)) == n
  {
    if k == 0 {
    } else {
      DecodeEncode(n / 256, k - 1);
      assert Encode(n, k)[1..] == Encode(n / 256, k - 1);
    }
  }

  /** Every sequence of bytes is the encoding of the integer it is read as. */
  lemma {:induction false} EncodeDecode(s: Data)
    ensures Encode(Decode(s), |s|) == s
  {
    if s == [] {
    } else {
      EncodeDecode(s[1..]);
      assert s == [s[0]] + s[1..];
    }
  }

  /** The low byte comes first. */
  lemma LowByteFirst(low: Byte, n: nat, k: nat)
    ensures Encode(low + 256 * n, k + 1) == [low] + Encode(n, k)
  {
    assert (low + 256 * n) % 256 == low && (low + 256 * n) / 256 == n;
  }

  /** Eight bytes hold every size below 2 to the 64th, four bytes every id below 2 to the 32nd. */
  lemma Widths()
    ensures Power256(8) == 0x1_0000_0000_0000_0000 && Power256(4) == 0x1_0000_0000
  {
    assert Power256(2) == 0x1_0000;
    assert Power256(4) == 256 * 256 * Power256(2);
    assert Power256(6) == 256 * 256 * Power256(4);
  }

  function Zeros(n: nat): (s: Data)
    ensures |s| == n && forall i :: 0 <= i < n ==> s[i] == 0
  {
    seq(n, _ => 0)
  }

  lemma {:induction false} DecodeZeros(s: Data)
    requires forall i :: 0 <= i < |s| ==> s[i] == 0
    ensures Decode(s) == 0
  {
    if s == [] {
    } else {
      DecodeZeros(s[1..]);
    }
  }

  /** `data` continues with `part` at `at`. */
  predicate Holds(data: Data, at: nat, part: Data) {
    at + |part| <= |data| && data[at..at + |part|] == part
  }
}
