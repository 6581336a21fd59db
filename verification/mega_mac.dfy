/** The incremental MAC calculator: bytes arrive in arbitrary pieces. */
module MegaMacCalculator {
  import opened Bytes
  import opened MegaMacSpec

  class MacCalculator {
    const encrypt: Cipher
    const nonce: seq<Byte>
    const base: Block
    const fileMac: array<Byte>
    const chunkMac: array<Byte>
    const pendingBlock: array<Byte>
    var pendingLen: nat
    var chunkIndex: nat
    var chunkRemaining: nat
    var chunkHasData: bool

    /** Every byte handed to `Write` so far. */
    ghost var written: seq<Byte>
    /** The part of `written` that lies in the chunk still open. */
    ghost var current: seq<Byte>
    /** Whether `Sum` has already closed a chunk that was not full. */
    ghost var summed: bool

    ghost predicate Shape()
      reads this
    {
      && |nonce| == 8 && base == nonce + nonce
      && fileMac.Length == chunkMac.Length == pendingBlock.Length == 16
      && fileMac != chunkMac && fileMac != pendingBlock && chunkMac != pendingBlock
      && pendingLen < 16
    }

    /** The chunk state after `current` has been written into the open chunk. */
    ghost predicate InChunk(current: seq<Byte>)
      requires Shape()
      reads this, chunkMac, pendingBlock
    {
      && Absorbed(encrypt, base, current, chunkMac[..], pendingBlock[..pendingLen])
      && chunkHasData == (current != [])
    }

    ghost predicate Valid()
      reads this, fileMac, chunkMac, pendingBlock
    {
      && Shape()
      && |written| == ChunkStart(chunkIndex) + |current|
      && |current| + chunkRemaining == ChunkSize(chunkIndex) && 0 < chunkRemaining
      && if summed
         then pendingLen == 0 && !chunkHasData && Condense(fileMac[..]) == MegaMac(encrypt, nonce, written)
         else InChunk(current) && Tracks(encrypt, base, written, chunkIndex, current, fileMac[..])
    }

    constructor (encrypt: Cipher, nonce: seq<Byte>)
      requires |nonce| == 8
      ensures Valid() && !summed && written == []
      ensures this.encrypt == encrypt && this.nonce == nonce
      ensures fresh(fileMac) && fresh(chunkMac) && fresh(pendingBlock)
    {
      this.encrypt := encrypt;
      this.nonce := nonce;
      var b := nonce + nonce;
      base := b;
      fileMac := new Byte[16](_ => 0);
      chunkMac := new Byte[16](i requires 0 <= i < 16 => b[i]);
      pendingBlock := new Byte[16](_ => 0);
      pendingLen := 0;
      chunkIndex := 0;
      chunkRemaining := ChunkSize(0);
      chunkHasData := false;
      written, current := [], [];
      summed := false;
      new;
      assert fileMac[..] == ZERO_BLOCK;
      assert chunkMac[..] == base;
    }

    /**
     * The counters are functions of the number of bytes written, and a block can be
     * short only at the very end of the data.
     */
    lemma Position()
      requires Valid()
      ensures ChunkStart(chunkIndex) <= |written| < ChunkStart(chunkIndex + 1)
      ensures chunkRemaining == ChunkStart(chunkIndex + 1) - |written|
      ensures forall k: nat :: ChunkStart(k) <= |written| < ChunkStart(k + 1) ==> k == chunkIndex
      ensures !summed ==> pendingLen == |written| % 16
    {
      OnlyChunkOf(|written|, chunkIndex);
      OffsetInBlock(chunkIndex, |current|);
    }

    /** Absorbs `p`, wherever the block and chunk boundaries fall. */
    method Write(p: seq<Byte>)
      requires Valid() && !summed
      modifies this, fileMac, chunkMac, pendingBlock
      ensures Valid() && !summed
      ensures written == old(written) + p
    {
      var rest := p;
      while |rest| > 0
        invariant Valid() && !summed
        invariant written + rest == old(written) + p
      {
        var take := |rest|;
        if take > chunkRemaining {
          take := chunkRemaining;
        }
        ConcatShift(written, rest, take);
        WriteWithinChunk(rest[..take]);
        rest := rest[take..];
      }
      assert written + rest == written;
    }

    /** One turn of the loop of `Write`: a piece that the open chunk can take. */
    method WriteWithinChunk(piece: seq<Byte>)
      requires Valid() && !summed
      requires 0 < |piece| <= chunkRemaining
      modifies this, fileMac, chunkMac, pendingBlock
      ensures Valid() && !summed
      ensures written == old(written) + piece
    {
      WriteChunkBytes(piece);
      TracksMore(encrypt, base, written, chunkIndex, current, fileMac[..], piece);
      written, current := written + piece, current + piece;
      chunkRemaining := chunkRemaining - |piece|;
      if chunkRemaining == 0 {
        CloseChunk();
      }
    }

    /** The end of a chunk inside `Write`: fold it in and open the next one. */
    method CloseChunk()
      requires Shape() && !summed && InChunk(current)
      requires |written| == ChunkStart(chunkIndex) + |current| && |current| == ChunkSize(chunkIndex)
      requires Tracks(encrypt, base, written, chunkIndex, current, fileMac[..])
      modifies this, fileMac, chunkMac
      ensures Valid() && !summed && written == old(written) && chunkIndex == old(chunkIndex) + 1
    {
      TracksNext(encrypt, base, written, chunkIndex, current, fileMac[..]);
      FinalizeChunk();
      OpenChunk();
    }

    /** The second half of `CloseChunk`: the chunks so far are folded in, the next one is empty. */
    method OpenChunk()
      requires Shape() && !summed && pendingLen == 0 && !chunkHasData
      requires |written| == ChunkStart(chunkIndex + 1)
      requires Tracks(encrypt, base, written, chunkIndex + 1, [], fileMac[..])
      modifies this, chunkMac
      ensures Valid() && !summed && written == old(written) && chunkIndex == old(chunkIndex) + 1
    {
      chunkIndex := chunkIndex + 1;
      current := [];
      CopyBlock(chunkMac, base);
      chunkRemaining := ChunkSize(chunkIndex);
      AbsorbedNothing(encrypt, base);
      assert pendingBlock[..0] == [];
    }

    /** Moves `p` through the sixteen-byte buffer, encrypting whenever it fills up. */
    method WriteChunkBytes(p: seq<Byte>)
      requires Shape() && InChunk(current)
      modifies `pendingLen, `chunkHasData, chunkMac, pendingBlock
      ensures Shape() && InChunk(current + p)
    {
      if |p| == 0 {
        assert current + p == current;
        return;
      }
      chunkHasData := true;
      var rest := p;
      ghost var seen := current;
      while |rest| > 0
        invariant Shape() && chunkHasData
        invariant seen + rest == current + p
        invariant Absorbed(encrypt, base, seen, chunkMac[..], pendingBlock[..pendingLen])
      {
        var n := if 16 - pendingLen < |rest| then 16 - pendingLen else |rest|;
        AbsorbPiece(seen, rest[..n]);
        ConcatShift(seen, rest, n);
        seen := seen + rest[..n];
        rest := rest[n..];
      }
      assert seen == current + p;
    }

    /** One turn of the loop of `WriteChunkBytes`: a piece that the buffer can take. */
    method AbsorbPiece(ghost seen: seq<Byte>, piece: seq<Byte>)
      requires Shape() && pendingLen + |piece| <= 16
      requires Absorbed(encrypt, base, seen, chunkMac[..], pendingBlock[..pendingLen])
      modifies `pendingLen, chunkMac, pendingBlock
      ensures Shape()
      ensures Absorbed(encrypt, base, seen + piece, chunkMac[..], pendingBlock[..pendingLen])
    {
      ghost var pending := pendingBlock[..pendingLen];
      CopyPending(piece);
      if pendingLen == 16 {
        AbsorbBlock(encrypt, base, seen, chunkMac[..], pending, piece);
        assert pendingBlock[..] == pending + piece;
        MixBlock(pendingBlock[..]);
        pendingLen := 0;
        assert pendingBlock[..0] == [];
      } else {
        AbsorbPart(encrypt, base, seen, chunkMac[..], pending, piece);
      }
    }

    /** Appends to the sixteen-byte buffer as much as fits. */
    method CopyPending(piece: seq<Byte>)
      requires pendingBlock.Length == 16 && pendingLen + |piece| <= 16
      modifies `pendingLen, pendingBlock
      ensures pendingLen == old(pendingLen) + |piece|
      ensures pendingBlock[..pendingLen] == old(pendingBlock[..pendingLen]) + piece
    {
      forall i | 0 <= i < |piece| {
        pendingBlock[pendingLen + i] := piece[i];
      }
      pendingLen := pendingLen + |piece|;
    }

    /** Ends the open chunk, padding its last block if that is short. */
    method FinalizeChunk()
      requires Shape()
      requires if chunkHasData then InChunk(current) else pendingLen == 0
      modifies `pendingLen, `chunkHasData, chunkMac, fileMac
      ensures Shape() && pendingLen == 0 && !chunkHasData
      ensures fileMac[..] == if !old(chunkHasData) then old(fileMac[..])
                             else encrypt(Xor(old(fileMac[..]), CbcMac(encrypt, base, current)))
      ensures !old(chunkHasData) ==> chunkMac[..] == old(chunkMac[..])
    {
      if !chunkHasData {
        return;
      }
      AbsorbedTotal(encrypt, base, current, chunkMac[..], pendingBlock[..pendingLen]);
      if pendingLen > 0 {
        var padded := Padded(pendingBlock[..pendingLen]);
        MixBlock(padded);
        pendingLen := 0;
      }
      assert chunkMac[..] == CbcMac(encrypt, base, current);
      XorInto(fileMac, chunkMac[..]);
      EncryptInPlace(fileMac);
      chunkHasData := false;
    }

    /** One CBC step on the chunk MAC. */
    method MixBlock(block: Block)
      requires chunkMac.Length == 16
      modifies chunkMac
      ensures chunkMac[..] == encrypt(Xor(old(chunkMac[..]), block))
    {
      XorInto(chunkMac, block);
      EncryptInPlace(chunkMac);
    }

    method EncryptInPlace(a: array<Byte>)
      requires a.Length == 16
      modifies a
      ensures a[..] == encrypt(old(a[..]))
    {
      CopyBlock(a, encrypt(a[..]));
    }

    /** The MAC of everything written; calling it again returns the same value. */
    method Sum() returns (out: seq<Byte>)
      requires Valid()
      modifies `pendingLen, `chunkHasData, `summed, chunkMac, fileMac
      ensures Valid() && written == old(written)
      ensures out == MegaMac(encrypt, nonce, written) && IsMacOf(encrypt, nonce, written, out)
      ensures summed == (old(summed) || current != [])
    {
      if !summed {
        TracksTotal(encrypt, nonce, written, chunkIndex, current, fileMac[..]);
      }
      summed := summed || chunkHasData;
      FinalizeChunk();
      out := Condense(fileMac[..]);
      SumReadOut(encrypt, nonce, written, out);
    }
  }

  lemma SumReadOut(e: Cipher, nonce: seq<Byte>, data: seq<Byte>, out: seq<Byte>)
    requires |nonce| == 8 && out == MegaMac(e, nonce, data)
    ensures IsMacOf(e, nonce, data, out)
  {
    MacReadOut(e, nonce, data);
  }

  function Flatten(pieces: seq<seq<Byte>>): seq<Byte> {
    if pieces == [] then [] else pieces[0] + Flatten(pieces[1..])
  }

  lemma {:induction false} FlattenSnoc(pieces: seq<seq<Byte>>, last: seq<Byte>)
    ensures Flatten(pieces + [last]) == Flatten(pieces) + last
  {
    if pieces == [] {
      assert pieces + [last] == [last];
      assert [last][1..] == [];
    } else {
      FlattenSnoc(pieces[1..], last);
      assert (pieces + [last])[1..] == pieces[1..] + [last];
      assert pieces[0] + (Flatten(pieces[1..]) + last) == (pieces[0] + Flatten(pieces[1..])) + last;
    }
  }

  /** A whole life of a calculator: any pieces, then the sum, asked for twice. */
  method MacOfPieces(e: Cipher, nonce: seq<Byte>, pieces: seq<seq<Byte>>) returns (mac: seq<Byte>, again: seq<Byte>)
    requires |nonce| == 8
    ensures mac == MegaMac(e, nonce, Flatten(pieces)) && IsMacOf(e, nonce, Flatten(pieces), mac)
    ensures again == mac
  {
    var macCalc := new MacCalculator(e, nonce);
    for i := 0 to |pieces|
      invariant macCalc.Valid() && !macCalc.summed && macCalc.encrypt == e && macCalc.nonce == nonce
      invariant fresh(macCalc) && fresh(macCalc.fileMac) && fresh(macCalc.chunkMac) && fresh(macCalc.pendingBlock)
      invariant macCalc.written == Flatten(pieces[..i])
    {
      macCalc.Write(pieces[i]);
      FlattenSnoc(pieces[..i], pieces[i]);
      assert pieces[..i + 1] == pieces[..i] + [pieces[i]];
    }
    assert pieces[..|pieces|] == pieces;
    mac := macCalc.Sum();
    again := macCalc.Sum();
  }

  lemma ConcatShift(a: seq<Byte>, b: seq<Byte>, n: nat)
    requires n <= |b|
    ensures (a + b[..n]) + b[n..] == a + b
  {
  }

  method CopyBlock(a: array<Byte>, b: Block)
    requires a.Length == 16
    modifies a
    ensures a[..] == b
  {
    forall i | 0 <= i < 16 {
      a[i] := b[i];
    }
  }

  /** Exclusive or of `b` into `a`, byte by byte. */
  method XorInto(a: array<Byte>, b: Block)
    requires a.Length == 16
    modifies a
    ensures a[..] == Xor(old(a[..]), b)
  {
    var i := 0;
    while i < 16
      invariant 0 <= i <= 16
      invariant forall j :: 0 <= j < i ==> a[j] == old(a[j]) ^ b[j]
      invariant forall j :: i <= j < 16 ==> a[j] == old(a[j])
    {
      a[i] := a[i] ^ b[i];
      i := i + 1;
    }
  }
}
