/** Bytes, sixteen-byte cipher blocks and bytewise exclusive or. */
module Bytes {

  type Byte = bv8

  function Zeros(n: nat): (r: seq<Byte>)
    ensures |r| == n
  {
    seq(n, _ => 0)
  }

  const ZERO_BLOCK: seq<Byte> := Zeros(16)

  /** The unit on which the block cipher works. */
  type Block = b: seq<Byte> | |b| == 16 witness ZERO_BLOCK

  /** A block cipher under a fixed key. Nothing is assumed about it beyond its type. */
  type Cipher = Block -> Block

  function Xor(a: seq<Byte>, b: seq<Byte>): (r: seq<Byte>)
    requires |a| == |b|
    ensures |r| == |a|
  {
    seq(|a|, i requires 0 <= i < |a| => a[i] ^ b[i])
  }

  /** A final partial block, filled up with zero bytes. */
  function Padded(tail: seq<Byte>): (r: Block)
    requires |tail| <= 16
    ensures r[..|tail|] == tail && forall i :: |tail| <= i < 16 ==> r[i] == 0
  {
    tail + Zeros(16 - |tail|)
  }
}
