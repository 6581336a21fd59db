/** The one-shot definition of the MEGA content MAC, and the arithmetic of its chunk schedule. */
module MegaMacSpec {
  import opened Bytes

  /** The length of chunk number `index`: 128 KiB more each time up to 1 MiB, then 1 MiB for ever. */
  function ChunkSize(index: nat): nat {
    if index < 8 then (index + 1) * 0x20000 else 0x100000
  }

  /** The offset at which chunk number `index` starts. */
  function ChunkStart(index: nat): nat {
    if index == 0 then 0 else ChunkStart(index - 1) + ChunkSize(index - 1)
  }

  /** Cuts `data` by the chunk schedule, the first piece being chunk number `index`. */
  function Chunks(data: seq<Byte>, index: nat): seq<seq<Byte>>
    decreases |data|
  {
    if data == [] then []
    else if |data| <= ChunkSize(index) then [data]
    else [data[..ChunkSize(index)]] + Chunks(data[ChunkSize(index)..], index + 1)
  }

  /** CBC-MAC of one chunk, its last block zero-padded. */
  function CbcMac(e: Cipher, iv: Block, data: seq<Byte>): Block
    decreases |data|
  {
    if data == [] then iv
    else if |data| <= 16 then e(Xor(iv, Padded(data)))
    else CbcMac(e, e(Xor(iv, data[..16])), data[16..])
  }

  /** Folds the chunk MACs into the file MAC: exclusive or, then encrypt. */
  function FoldChunks(e: Cipher, base: Block, chunks: seq<seq<Byte>>, acc: Block): Block {
    if chunks == [] then acc
    else FoldChunks(e, base, chunks[1..], e(Xor(acc, CbcMac(e, base, chunks[0]))))
  }

  /** The sixteen-byte file MAC reduced to eight bytes: first word by second, third by fourth. */
  function Condense(mac: Block): (r: seq<Byte>)
    ensures |r| == 8
  {
    Xor(mac[0..4], mac[4..8]) + Xor(mac[8..12], mac[12..16])
  }

  /** The MEGA content MAC of a whole file. */
  function MegaMac(e: Cipher, nonce: seq<Byte>, data: seq<Byte>): (r: seq<Byte>)
    requires |nonce| == 8
    ensures |r| == 8
  {
    Condense(FoldChunks(e, nonce + nonce, Chunks(data, 0), ZERO_BLOCK))
  }

  // ---------------------------------------------------------------------
  // The definition, read out

  /** `out` is the MAC of `data`: the file MAC folded from zero over all chunks, its words joined in pairs. */
  ghost predicate IsMacOf(e: Cipher, nonce: seq<Byte>, data: seq<Byte>, out: seq<Byte>)
    requires |nonce| == 8
  {
    var f := FoldChunks(e, nonce + nonce, Chunks(data, 0), seq(16, _ => 0));
    out == [f[0] ^ f[4], f[1] ^ f[5], f[2] ^ f[6], f[3] ^ f[7], f[8] ^ f[12], f[9] ^ f[13], f[10] ^ f[14], f[11] ^ f[15]]
  }

  lemma MacReadOut(e: Cipher, nonce: seq<Byte>, data: seq<Byte>)
    requires |nonce| == 8
    ensures IsMacOf(e, nonce, data, MegaMac(e, nonce, data))
  {
    assert ZERO_BLOCK == seq(16, _ => 0);
    WordsJoined(FoldChunks(e, nonce + nonce, Chunks(data, 0), ZERO_BLOCK));
  }

  lemma WordsJoined(f: Block)
    ensures Condense(f)
         == [f[0] ^ f[4], f[1] ^ f[5], f[2] ^ f[6], f[3] ^ f[7], f[8] ^ f[12], f[9] ^ f[13], f[10] ^ f[14], f[11] ^ f[15]]
  {
    var low, high := Xor(f[0..4], f[4..8]), Xor(f[8..12], f[12..16]);
    assert low == [f[0] ^ f[4], f[1] ^ f[5], f[2] ^ f[6], f[3] ^ f[7]];
    assert high == [f[8] ^ f[12], f[9] ^ f[13], f[10] ^ f[14], f[11] ^ f[15]];
  }

  /** One more chunk costs one exclusive or and one encryption of the file MAC. */
  lemma {:induction false} FoldSnoc(e: Cipher, base: Block, chunks: seq<seq<Byte>>, last: seq<Byte>, acc: Block)
    ensures FoldChunks(e, base, chunks + [last], acc) == e(Xor(FoldChunks(e, base, chunks, acc), CbcMac(e, base, last)))
  {
    if chunks == [] {
      assert chunks + [last] == [last];
      assert [last][1..] == [];
    } else {
      assert (chunks + [last])[1..] == chunks[1..] + [last];
      FoldSnoc(e, base, chunks[1..], last, e(Xor(acc, CbcMac(e, base, chunks[0]))));
    }
  }

  function Min(a: nat, b: nat): nat {
    if a < b then a else b
  }

  /** Chunk number `i` of the data: from one chunk start to the next, or to the end of the data. */
  function ChunkAt(data: seq<Byte>, i: nat): seq<Byte>
    requires ChunkStart(i) <= |data|
  {
    data[ChunkStart(i)..Min(ChunkStart(i + 1), |data|)]
  }

  /** `cut` consists of the chunks from number `k` on, and covers the data. */
  ghost predicate IsCut(data: seq<Byte>, k: nat, cut: seq<seq<Byte>>) {
    && (forall i :: 0 <= i < |cut| ==> ChunkStart(k + i) < |data| && cut[i] == ChunkAt(data, k + i))
    && |data| <= ChunkStart(k + |cut|)
  }

  lemma {:induction false} ChunksReadOut(data: seq<Byte>, k: nat)
    requires ChunkStart(k) <= |data|
    ensures IsCut(data, k, Chunks(data[ChunkStart(k)..], k))
    decreases |data| - ChunkStart(k)
  {
    var rest := data[ChunkStart(k)..];
    if |rest| > ChunkSize(k) {
      assert rest[ChunkSize(k)..] == data[ChunkStart(k + 1)..];
      assert rest[..ChunkSize(k)] == ChunkAt(data, k);
      ChunksReadOut(data, k + 1);
      CutGrows(data, k, Chunks(data[ChunkStart(k + 1)..], k + 1));
    } else if rest != [] {
      assert rest == ChunkAt(data, k);
    }
  }

  lemma CutGrows(data: seq<Byte>, k: nat, tail: seq<seq<Byte>>)
    requires ChunkStart(k) < |data| && IsCut(data, k + 1, tail)
    ensures IsCut(data, k, [ChunkAt(data, k)] + tail)
  {
    var cut := [ChunkAt(data, k)] + tail;
    forall i | 0 <= i < |cut|
      ensures ChunkStart(k + i) < |data| && cut[i] == ChunkAt(data, k + i)
    {
      if 0 < i {
        CutShift(data, k, tail, i);
      }
    }
  }

  lemma CutShift(data: seq<Byte>, k: nat, tail: seq<seq<Byte>>, i: nat)
    requires IsCut(data, k + 1, tail) && 0 < i <= |tail|
    ensures ChunkStart(k + i) < |data| && tail[i - 1] == ChunkAt(data, k + i)
  {
    var j := i - 1;
    var piece := tail[j];
    assert k + 1 + j == k + i;
    assert ChunkStart(k + 1 + j) < |data|;
  }

  // ---------------------------------------------------------------------
  // The chunk schedule

  /** Chunk starts in closed form: triangular up to 0x480000, linear beyond. */
  lemma {:induction false} ChunkStartClosedForm(index: nat)
    ensures index <= 8 ==> ChunkStart(index) == 0x10000 * (index * (index + 1))
    ensures index >= 8 ==> ChunkStart(index) == 0x480000 + (index - 8) * 0x100000
  {
    if 0 < index {
      ChunkStartClosedForm(index - 1);
      if index <= 8 {
        assert index * (index + 1) == (index - 1) * index + 2 * index;
      }
    }
  }

  lemma {:induction false} ChunkStartMonotone(j: nat, k: nat)
    requires j <= k
    ensures ChunkStart(j) <= ChunkStart(k)
    decreases k - j
  {
    if j < k {
      ChunkStartMonotone(j, k - 1);
    }
  }

  /** The chunk a position falls into is determined by the position. */
  lemma ChunkIndexUnique(n: nat, j: nat, k: nat)
    requires ChunkStart(j) <= n < ChunkStart(j + 1)
    requires ChunkStart(k) <= n < ChunkStart(k + 1)
    ensures j == k
  {
    if j < k {
      ChunkStartMonotone(j + 1, k);
    } else if k < j {
      ChunkStartMonotone(k + 1, j);
    }
  }

  /** Every position falls into some chunk. */
  lemma {:induction false} ChunkIndexExists(n: nat) returns (k: nat)
    ensures ChunkStart(k) <= n < ChunkStart(k + 1)
  {
    if n == 0 {
      k := 0;
    } else {
      k := ChunkIndexExists(n - 1);
      if n == ChunkStart(k + 1) {
        k := k + 1;
      }
    }
  }

  lemma OnlyChunkOf(n: nat, index: nat)
    requires ChunkStart(index) <= n < ChunkStart(index + 1)
    ensures forall k: nat :: ChunkStart(k) <= n < ChunkStart(k + 1) ==> k == index
  {
    forall k: nat | ChunkStart(k) <= n < ChunkStart(k + 1)
      ensures k == index
    {
      ChunkIndexUnique(n, k, index);
    }
  }

  lemma ChunkSizesAligned(index: nat)
    ensures ChunkSize(index) > 0 && ChunkSize(index) % 16 == 0
  {
  }

  /** Chunks start on a block boundary, so only the last block of a file can be short. */
  lemma {:induction false} ChunkStartsAligned(index: nat)
    ensures ChunkStart(index) % 16 == 0
  {
    if 0 < index {
      ChunkStartsAligned(index - 1);
      ChunkSizesAligned(index - 1);
    }
  }

  lemma OffsetInBlock(index: nat, n: nat)
    ensures (ChunkStart(index) + n) % 16 == n % 16
  {
    ChunkStartsAligned(index);
    var blocks := ChunkStart(index) / 16;
    assert ChunkStart(index) + n == 16 * (blocks + n / 16) + n % 16;
  }

  // ---------------------------------------------------------------------
  // Incremental forms of the two folds

  /** Adding one block to an aligned prefix costs one encryption. */
  lemma {:induction false} CbcMacSnoc(e: Cipher, iv: Block, data: seq<Byte>, last: seq<Byte>)
    requires |data| % 16 == 0 && 0 < |last| <= 16
    ensures CbcMac(e, iv, data + last) == e(Xor(CbcMac(e, iv, data), Padded(last)))
    decreases |data|
  {
    var all := data + last;
    if data == [] {
      assert all == last;
    } else {
      var next := e(Xor(iv, data[..16]));
      assert all[..16] == data[..16];
      assert all[16..] == data[16..] + last;
      CbcMacSnoc(e, next, data[16..], last);
      if |data| == 16 {
        assert Padded(data) == data[..16];
        assert data[16..] == [];
      }
    }
  }

  /**
   * The open chunk holds `current`: its whole blocks are in `mac`, the rest is `pending`.
   */
  ghost predicate Absorbed(e: Cipher, base: Block, current: seq<Byte>, mac: seq<Byte>, pending: seq<Byte>) {
    && |pending| == |current| % 16
    && pending == current[|current| - |pending|..]
    && mac == CbcMac(e, base, current[..|current| - |pending|])
  }

  /** The pending bytes are what follows the whole blocks. */
  lemma AbsorbedSplit(e: Cipher, base: Block, current: seq<Byte>, mac: seq<Byte>, pending: seq<Byte>)
    returns (whole: seq<Byte>)
    requires Absorbed(e, base, current, mac, pending)
    ensures current == whole + pending && |whole| % 16 == 0 && mac == CbcMac(e, base, whole)
  {
    whole := current[..|current| - |pending|];
  }

  lemma AbsorbedNothing(e: Cipher, base: Block)
    ensures Absorbed(e, base, [], base, [])
  {
  }

  /** A piece that does not fill the buffer only lengthens it. */
  lemma AbsorbPart(e: Cipher, base: Block, current: seq<Byte>, mac: seq<Byte>, pending: seq<Byte>, piece: seq<Byte>)
    requires Absorbed(e, base, current, mac, pending)
    requires |pending| + |piece| < 16
    ensures Absorbed(e, base, current + piece, mac, pending + piece)
  {
    var whole := AbsorbedSplit(e, base, current, mac, pending);
    assert current + piece == whole + (pending + piece);
    assert (current + piece)[..|whole|] == whole;
  }

  /** A piece that fills the buffer costs one CBC step and empties it. */
  lemma AbsorbBlock(e: Cipher, base: Block, current: seq<Byte>, mac: Block, pending: seq<Byte>, piece: seq<Byte>)
    requires Absorbed(e, base, current, mac, pending)
    requires |pending| + |piece| == 16
    ensures Absorbed(e, base, current + piece, e(Xor(mac, pending + piece)), [])
  {
    var whole := AbsorbedSplit(e, base, current, mac, pending);
    assert current + piece == whole + (pending + piece);
    assert Padded(pending + piece) == pending + piece;
    CbcMacSnoc(e, base, whole, pending + piece);
    assert (current + piece)[..|current + piece|] == current + piece;
  }

  /** Padding what is pending completes the MAC of the chunk. */
  lemma AbsorbedTotal(e: Cipher, base: Block, current: seq<Byte>, mac: Block, pending: seq<Byte>)
    requires Absorbed(e, base, current, mac, pending)
    ensures CbcMac(e, base, current) == if pending == [] then mac else e(Xor(mac, Padded(pending)))
  {
    var whole := AbsorbedSplit(e, base, current, mac, pending);
    if pending == [] {
      assert whole == current;
    } else {
      CbcMacSnoc(e, base, whole, pending);
    }
  }

  /** The file MAC after the first `n` chunks of `data`, all of them complete. */
  function MacOfClosed(e: Cipher, base: Block, data: seq<Byte>, n: nat): Block
    requires ChunkStart(n) <= |data|
    decreases n
  {
    if n == 0 then ZERO_BLOCK
    else
      e(Xor(MacOfClosed(e, base, data, n - 1), CbcMac(e, base, data[ChunkStart(n - 1)..ChunkStart(n)])))
  }

  /** Bytes after the closed chunks do not matter to their MAC. */
  lemma {:induction false} MacOfClosedPrefix(e: Cipher, base: Block, data: seq<Byte>, more: seq<Byte>, n: nat)
    requires ChunkStart(n) <= |data|
    ensures MacOfClosed(e, base, data + more, n) == MacOfClosed(e, base, data, n)
  {
    if 0 < n {
      MacOfClosedPrefix(e, base, data, more, n - 1);
      assert (data + more)[ChunkStart(n - 1)..ChunkStart(n)] == data[ChunkStart(n - 1)..ChunkStart(n)];
    }
  }

  /** The fold over all chunks can be picked up after any number of complete ones. */
  lemma {:induction false} FoldResumes(e: Cipher, base: Block, data: seq<Byte>, n: nat)
    requires ChunkStart(n) <= |data|
    ensures FoldChunks(e, base, Chunks(data, 0), ZERO_BLOCK)
         == FoldChunks(e, base, Chunks(data[ChunkStart(n)..], n), MacOfClosed(e, base, data, n))
  {
    if n == 0 {
      assert data[0..] == data;
    } else {
      FoldResumes(e, base, data, n - 1);
      var rest := data[ChunkStart(n - 1)..];
      var size := ChunkSize(n - 1);
      var chunk := data[ChunkStart(n - 1)..ChunkStart(n)];
      var tail := data[ChunkStart(n)..];
      assert rest[..size] == chunk && rest[size..] == tail;
      var cut := Chunks(rest, n - 1);
      if |rest| == size {
        assert rest == chunk && tail == [];
        assert cut == [chunk] && cut[1..] == Chunks(tail, n);
      } else {
        assert cut == [chunk] + Chunks(tail, n);
        assert cut[0] == chunk && cut[1..] == Chunks(tail, n);
      }
    }
  }

  /** `mac` covers the first `index` chunks of `data`, which are complete; `current` is what follows. */
  ghost predicate Tracks(e: Cipher, base: Block, data: seq<Byte>, index: nat, current: seq<Byte>, mac: seq<Byte>) {
    && ChunkStart(index) <= |data|
    && current == data[ChunkStart(index)..]
    && mac == MacOfClosed(e, base, data, index)
  }

  lemma TracksMore(e: Cipher, base: Block, data: seq<Byte>, index: nat, current: seq<Byte>, mac: seq<Byte>,
                   piece: seq<Byte>)
    requires Tracks(e, base, data, index, current, mac)
    ensures Tracks(e, base, data + piece, index, current + piece, mac)
  {
    MacOfClosedPrefix(e, base, data, piece, index);
  }

  lemma TracksNext(e: Cipher, base: Block, data: seq<Byte>, index: nat, current: seq<Byte>, mac: Block)
    requires Tracks(e, base, data, index, current, mac) && |current| == ChunkSize(index)
    ensures Tracks(e, base, data, index + 1, [], e(Xor(mac, CbcMac(e, base, current))))
  {
    assert ChunkStart(index + 1) == |data|;
    assert data[ChunkStart(index)..ChunkStart(index + 1)] == current;
  }

  /** The whole MAC from the closed chunks and a final chunk that is not full. */
  lemma TracksTotal(e: Cipher, nonce: seq<Byte>, data: seq<Byte>, index: nat, current: seq<Byte>, mac: Block)
    requires |nonce| == 8 && Tracks(e, nonce + nonce, data, index, current, mac)
    requires |current| <= ChunkSize(index)
    ensures MegaMac(e, nonce, data)
         == Condense(if current == [] then mac else e(Xor(mac, CbcMac(e, nonce + nonce, current))))
  {
    FoldResumes(e, nonce + nonce, data, index);
    var cut := Chunks(current, index);
    assert current != [] ==> cut == [current] && cut[1..] == [];
  }
}
