/** Content keys, counter-mode decryption, and the replacement of a downloaded file by its plaintext. */
module MegaPayload {
  import opened Bytes
  import opened MegaMacSpec
  import opened MegaMacCalculator

  // ---------------------------------------------------------------------
  // Content keys

  type Half = b: seq<Byte> | |b| == 8 witness Zeros(8)

  datatype ContentKey = ContentKey(aesKey: Block, nonce: Half, expectMac: Half, verifyMac: bool)

  datatype ParseResult = Parsed(key: ContentKey) | BadLength(length: nat)

  /** The key material of a link: 32 bytes carry nonce and MAC, 16 bytes carry neither. */
  function ParseContentKey(raw: seq<Byte>): ParseResult {
    if |raw| == 32 then
      Parsed(ContentKey(Xor(raw[..16], raw[16..]), raw[16..24], raw[24..32], true))
    else if |raw| == 16 then
      Parsed(ContentKey(raw, Zeros(8), Zeros(8), false))
    else
      BadLength(|raw|)
  }

  /** Where the parts of the key material are found. */
  lemma KeyLayout(raw: seq<Byte>, i: nat)
    requires |raw| == 32 && i < 16
    ensures var key := ParseContentKey(raw).key;
            && key.verifyMac && key.aesKey[i] == raw[i] ^ raw[16 + i]
            && (i < 8 ==> key.nonce[i] == raw[16 + i] && key.expectMac[i] == raw[24 + i])
  {
  }

  /** The key material that carries `key`. */
  function PackContentKey(key: ContentKey): seq<Byte> {
    if key.verifyMac then Xor(key.aesKey, key.nonce + key.expectMac) + (key.nonce + key.expectMac)
    else key.aesKey
  }

  lemma XorTwice(a: seq<Byte>, b: seq<Byte>)
    requires |a| == |b|
    ensures Xor(Xor(a, b), b) == a
  {
    forall i | 0 <= i < |a|
      ensures (a[i] ^ b[i]) ^ b[i] == a[i]
    {
    }
  }

  /** Parsing inverts packing, so every AES key, nonce and MAC can be carried by some link. */
  lemma ParsePackedKey(key: ContentKey)
    requires key.verifyMac || (key.nonce == Zeros(8) && key.expectMac == Zeros(8))
    ensures ParseContentKey(PackContentKey(key)) == Parsed(key)
  {
    if key.verifyMac {
      var tail := key.nonce + key.expectMac;
      var raw := PackContentKey(key);
      assert raw[..16] == Xor(key.aesKey, tail) && raw[16..] == tail;
      XorTwice(key.aesKey, tail);
      assert raw[16..24] == key.nonce && raw[24..32] == key.expectMac;
    }
  }

  /** Packing inverts parsing, and parsing fails exactly on the other lengths. */
  lemma PackParsedKey(raw: seq<Byte>)
    ensures ParseContentKey(raw).Parsed? <==> |raw| == 32 || |raw| == 16
    ensures ParseContentKey(raw).Parsed? ==> PackContentKey(ParseContentKey(raw).key) == raw
  {
    if |raw| == 32 {
      XorTwice(raw[..16], raw[16..]);
      assert raw[16..24] + raw[24..32] == raw[16..];
      assert raw[..16] + raw[16..] == raw;
    }
  }

  // ---------------------------------------------------------------------
  // Counter mode (section 6.5 of NIST SP 800-38A)

  /** The next counter block: add one to the last byte and carry, dropping the last carry. */
  function Incremented(b: seq<Byte>): (r: seq<Byte>)
    ensures |r| == |b|
  {
    if b == [] then []
    else if b[|b| - 1] == 255 then Incremented(b[..|b| - 1]) + [0]
    else b[..|b| - 1] + [b[|b| - 1] + 1]
  }

  /** The counter block number `k`, counting from `iv`. */
  function CounterBlock(iv: Block, k: nat): Block {
    if k == 0 then iv else Incremented(CounterBlock(iv, k - 1))
  }

  function FromBigEndian(b: seq<Byte>): nat {
    if b == [] then 0 else FromBigEndian(b[..|b| - 1]) * 256 + b[|b| - 1] as nat
  }

  function Pow256(n: nat): (p: nat)
    ensures 0 < p
  {
    if n == 0 then 1 else Pow256(n - 1) * 256
  }

  lemma {:induction false} NumberFits(b: seq<Byte>)
    ensures FromBigEndian(b) < Pow256(|b|)
  {
    if b != [] {
      NumberFits(b[..|b| - 1]);
    }
  }

  lemma ByteSteps(b: Byte)
    ensures b as nat == 255 <==> b == 255
    ensures b != 255 ==> (b + 1) as nat == b as nat + 1
  {
  }

  /** Read as a number, the next block is one more, or zero after the greatest. */
  lemma {:induction false} CounterSteps(b: seq<Byte>)
    ensures FromBigEndian(Incremented(b)) == if FromBigEndian(b) + 1 == Pow256(|b|) then 0 else FromBigEndian(b) + 1
  {
    if b != [] {
      var front, last := b[..|b| - 1], b[|b| - 1];
      NumberFits(front);
      ByteSteps(last);
      if last == 255 {
        CounterSteps(front);
      }
    }
  }

  function KeystreamByte(e: Cipher, iv: Block, i: nat): Byte {
    e(CounterBlock(iv, i / 16))[i % 16]
  }

  /** Encryption and decryption of `data`, which starts at `offset` in the stream. */
  function Ctr(e: Cipher, iv: Block, offset: nat, data: seq<Byte>): (r: seq<Byte>)
    ensures |r| == |data|
  {
    seq(|data|, i requires 0 <= i < |data| => data[i] ^ KeystreamByte(e, iv, offset + i))
  }

  /** The stream may be cut anywhere: each piece is decrypted at its own offset. */
  lemma CtrSlice(e: Cipher, iv: Block, content: seq<Byte>, pos: nat, next: nat)
    requires pos <= next <= |content|
    ensures Ctr(e, iv, 0, content)[..pos] + Ctr(e, iv, pos, content[pos..next]) == Ctr(e, iv, 0, content)[..next]
  {
  }

  lemma PrefixEnds(s: seq<Byte>)
    ensures s[..0] == [] && s[..|s|] == s
  {
  }

  lemma CtrTwice(e: Cipher, iv: Block, offset: nat, data: seq<Byte>)
    ensures Ctr(e, iv, offset, Ctr(e, iv, offset, data)) == data
  {
    forall i | 0 <= i < |data|
      ensures (data[i] ^ KeystreamByte(e, iv, offset + i)) ^ KeystreamByte(e, iv, offset + i) == data[i]
    {
    }
  }

  // ---------------------------------------------------------------------
  // The file system and what can go wrong

  type FileMap = map<string, seq<Byte>>

  class Disk {
    var files: FileMap
    /** Every content the disk has had, oldest first. */
    ghost var history: seq<FileMap>

    method Put(path: string, data: seq<Byte>)
      modifies this
      ensures files == old(files)[path := data]
      ensures history == old(history) + [files]
    {
      files := files[path := data];
      history := history + [files];
    }

    method Delete(path: string)
      modifies this
      ensures files == old(files) - {path}
      ensures history == old(history) + [files]
    {
      files := files - {path};
      history := history + [files];
    }

    method Rename(from: string, to: string)
      requires from in files && from != to
      modifies this
      ensures files == (old(files) - {from})[to := old(files[from])]
      ensures history == old(history) + [files]
    {
      files := (files - {from})[to := files[from]];
      history := history + [files];
    }
  }

  /** One turn of the read loop as the environment chooses it. */
  datatype ReadStep = ReadStep(
    cancelled: bool,   // the context is done before the read
    size: nat,         // how many bytes the read would like to deliver
    eager: bool,       // whether end of file comes together with the last bytes
    readFault: bool,   // the read reports an error after its bytes
    writeFault: bool   // the write of the decrypted bytes fails
  )

  const BUFFER_SIZE: nat := 1024 * 1024

  /** What a read does when nothing was scheduled: it fills the buffer. */
  const PLAIN_READ := ReadStep(false, BUFFER_SIZE, false, false, false)

  datatype Faults = Faults(open: bool, stat: bool, createTemp: bool, chmod: bool,
                           sync: bool, closeTemp: bool, closeInput: bool, rename: bool, removeTemp: bool)
  {
    /** Whether some step outside the read loop fails. Removal is not one: its error is ignored. */
    predicate Stops() {
      open || stat || createTemp || chmod || sync || closeTemp || closeInput || rename
    }
  }

  /** How many bytes a read delivers out of `remaining`. */
  function Delivered(step: ReadStep, remaining: nat): (n: nat)
    ensures n <= remaining && n <= BUFFER_SIZE
  {
    var wish := if step.size < BUFFER_SIZE then step.size else BUFFER_SIZE;
    if wish < remaining then wish else remaining
  }

  /** End of file: reported with the last bytes or after them, unless an error is reported instead. */
  predicate HitsEof(step: ReadStep, remaining: nat) {
    !step.readFault && Delivered(step, remaining) == remaining && (remaining == 0 || step.eager)
  }

  function StepAt(schedule: seq<ReadStep>, i: nat): ReadStep {
    if i < |schedule| then schedule[i] else PLAIN_READ
  }

  function StepsLeft(schedule: seq<ReadStep>, i: nat): nat {
    if i < |schedule| then |schedule| - i else 0
  }

  /** Whether the read loop gets through `remaining` bytes undisturbed from step `i` on. */
  ghost predicate ReadsThrough(schedule: seq<ReadStep>, i: nat, remaining: nat)
    decreases StepsLeft(schedule, i), remaining
  {
    var step := StepAt(schedule, i);
    var n := Delivered(step, remaining);
    && TurnSucceeds(step, n)
    && (HitsEof(step, remaining) || ReadsThrough(schedule, i + 1, remaining - n))
  }

  /** Whether one turn of the loop that delivers `n` bytes goes well. */
  predicate TurnSucceeds(step: ReadStep, n: nat) {
    !step.cancelled && !(0 < n && step.writeFault) && !step.readFault
  }

  /**
   * Where the loop stands before step `i`: it has failed and was bound to, it is through and was
   * bound to be, or the rest of the schedule decides.
   */
  ghost predicate OnCourse(schedule: seq<ReadStep>, total: nat, i: nat, pos: nat, done: bool, eof: bool) {
    && pos <= total
    && ReadsThrough(schedule, 0, total) == (done && (eof || ReadsThrough(schedule, i, total - pos)))
    && (done && eof ==> pos == total)
  }

  lemma CourseEnds(schedule: seq<ReadStep>, total: nat, i: nat, pos: nat, done: bool, eof: bool)
    requires OnCourse(schedule, total, i, pos, done, eof) && (eof || !done)
    ensures done <==> ReadsThrough(schedule, 0, total)
    ensures done ==> pos == total
  {
  }

  lemma TurnKeepsCourse(schedule: seq<ReadStep>, total: nat, i: nat, pos: nat)
    requires OnCourse(schedule, total, i, pos, true, false)
    ensures var step := StepAt(schedule, i);
            var n := Delivered(step, total - pos);
            && OnCourse(schedule, total, i + 1, pos + n, TurnSucceeds(step, n), HitsEof(step, total - pos))
            && (i < |schedule| || HitsEof(step, total - pos) || 0 < n)
  {
  }

  /** A step that is reached and disturbed stops the loop. */
  lemma DisturbedReadsFail(schedule: seq<ReadStep>, i: nat, remaining: nat)
    requires i < |schedule| && ReadsThrough(schedule, i, remaining)
    ensures !schedule[i].cancelled && !schedule[i].readFault
    ensures schedule[i].writeFault ==> remaining == 0 || schedule[i].size == 0
  {
  }

  /** Unless end of file comes with the last bytes, the loop reads on, and the next read must go well too. */
  lemma ReadsUntilEof(schedule: seq<ReadStep>, i: nat, remaining: nat)
    requires i < |schedule| && ReadsThrough(schedule, i, remaining) && 0 < remaining && !schedule[i].eager
    ensures var n := if schedule[i].size < 0x10_0000 then schedule[i].size else 0x10_0000;
            ReadsThrough(schedule, i + 1, if n < remaining then remaining - n else 0)
  {
  }

  /** However the reads are cut, a schedule without failures gets through. */
  lemma {:induction false} QuietReadsGetThrough(schedule: seq<ReadStep>, i: nat, remaining: nat)
    requires forall j :: 0 <= j < |schedule| ==> !schedule[j].cancelled && !schedule[j].readFault && !schedule[j].writeFault
    ensures ReadsThrough(schedule, i, remaining)
    decreases StepsLeft(schedule, i), remaining
  {
    var step := StepAt(schedule, i);
    if !HitsEof(step, remaining) {
      QuietReadsGetThrough(schedule, i + 1, remaining - Delivered(step, remaining));
    }
  }

  datatype Error = IoError | Cancelled | MacMismatch

  datatype Outcome = Done | Failed(error: Error)

  function InitialCounter(key: ContentKey): Block {
    key.nonce + Zeros(8)
  }

  /** The plaintext of a downloaded file; in counter mode, also the other way round. */
  function Plaintext(aes: Block -> Cipher, key: ContentKey, content: seq<Byte>): seq<Byte> {
    Ctr(aes(key.aesKey), InitialCounter(key), 0, content)
  }

  /** The counters of a file: the nonce and eight zero bytes, then one step each. */
  ghost predicate AreCounters(nonce: Half, ts: seq<Block>) {
    && (ts != [] ==> ts[0] == nonce + [0, 0, 0, 0, 0, 0, 0, 0])
    && forall k :: 0 < k < |ts| ==> ts[k] == Incremented(ts[k - 1])
  }

  lemma {:induction false} CounterIs(key: ContentKey, ts: seq<Block>, k: nat)
    requires AreCounters(key.nonce, ts) && k < |ts|
    ensures CounterBlock(InitialCounter(key), k) == ts[k]
  {
    if k == 0 {
      assert Zeros(8) == [0, 0, 0, 0, 0, 0, 0, 0];
    } else {
      CounterIs(key, ts, k - 1);
    }
  }

  /** Every byte of a file is its exclusive or with the byte at its place in the encrypted counter of its block. */
  lemma PlaintextReadOut(aes: Block -> Cipher, key: ContentKey, content: seq<Byte>, ts: seq<Block>, k: nat, i: nat)
    requires i < 16 && 16 * k + i < |content| && AreCounters(key.nonce, ts) && k < |ts|
    ensures Plaintext(aes, key, content)[16 * k + i] == content[16 * k + i] ^ aes(key.aesKey)(ts[k])[i]
  {
    CounterIs(key, ts, k);
    KeystreamIs(aes(key.aesKey), InitialCounter(key), k, i);
  }

  lemma KeystreamIs(e: Cipher, iv: Block, k: nat, i: nat)
    requires i < 16
    ensures KeystreamByte(e, iv, 16 * k + i) == e(CounterBlock(iv, k))[i]
  {
    assert (16 * k + i) / 16 == k && (16 * k + i) % 16 == i;
  }

  /** A key without a MAC accepts anything. */
  predicate Accepts(aes: Block -> Cipher, key: ContentKey, plain: seq<Byte>) {
    key.verifyMac ==> MegaMac(aes(key.aesKey), key.nonce, plain) == key.expectMac
  }

  /** Everything a caller would have to know in advance to predict success. */
  ghost predicate WillSucceed(files: FileMap, path: string, tmpPath: string, aes: Block -> Cipher, key: ContentKey,
                        faults: Faults, schedule: seq<ReadStep>)
  {
    && path in files && tmpPath !in files
    && !faults.Stops()
    && ReadsThrough(schedule, 0, |files[path]|)
    && Accepts(aes, key, Plaintext(aes, key, files[path]))
  }

  /** The disk differs from `before` at most by the temporary file. */
  ghost predicate OnlyTemp(before: FileMap, tmpPath: string, now: FileMap) {
    now - {tmpPath} == before
  }

  /** From `files` and `history` on, nothing but the temporary file has changed, and it is still there. */
  ghost predicate OnlyTempMoved(tmpPath: string, files: FileMap, history: seq<FileMap>,
                                files': FileMap, history': seq<FileMap>)
  {
    && tmpPath in files' && files' - {tmpPath} == files - {tmpPath}
    && history <= history'
    && forall k :: |history| <= k < |history'| ==> history'[k] - {tmpPath} == files - {tmpPath}
  }

  lemma OnlyTempMovedOn(tmpPath: string, f0: FileMap, h0: seq<FileMap>, f1: FileMap, h1: seq<FileMap>,
                        f2: FileMap, h2: seq<FileMap>)
    requires OnlyTempMoved(tmpPath, f0, h0, f1, h1) && OnlyTempMoved(tmpPath, f1, h1, f2, h2)
    ensures OnlyTempMoved(tmpPath, f0, h0, f2, h2)
  {
    forall k | |h0| <= k < |h2|
      ensures h2[k] - {tmpPath} == f0 - {tmpPath}
    {
      assert k < |h1| ==> h2[k] == h1[k];
    }
  }

  lemma OnlyTempPut(tmpPath: string, files: FileMap, history: seq<FileMap>, data: seq<Byte>)
    ensures OnlyTempMoved(tmpPath, files, history, files[tmpPath := data], history + [files[tmpPath := data]])
  {
    assert files[tmpPath := data] - {tmpPath} == files - {tmpPath};
  }

  /**
   * Replaces the file by its plaintext, all or nothing. At no moment, failures and
   * cancellation included, does `path` hold anything but the original or the complete plaintext.
   */
  method DecryptInPlace(disk: Disk, path: string, tmpPath: string, aes: Block -> Cipher, key: ContentKey,
                        faults: Faults, schedule: seq<ReadStep>)
    returns (outcome: Outcome)
    modifies disk
    ensures outcome.Done? <==> WillSucceed(old(disk.files), path, tmpPath, aes, key, faults, schedule)
    ensures outcome.Done? ==>
              disk.files == old(disk.files)[path := Plaintext(aes, key, old(disk.files)[path])]
    ensures outcome.Done? && key.verifyMac ==> IsMacOf(aes(key.aesKey), key.nonce, disk.files[path], key.expectMac)
    ensures outcome.Done? ==>
              && !faults.open && !faults.stat && !faults.createTemp && !faults.chmod
              && !faults.sync && !faults.closeTemp && !faults.closeInput && !faults.rename
    ensures outcome.Failed? && (!faults.removeTemp || tmpPath in old(disk.files)) ==> disk.files == old(disk.files)
    ensures outcome.Failed? && tmpPath !in old(disk.files) ==> OnlyTemp(old(disk.files), tmpPath, disk.files)
    ensures old(disk.history) <= disk.history
    ensures forall k :: |old(disk.history)| <= k < |disk.history| ==>
              || OnlyTemp(old(disk.files), tmpPath, disk.history[k])
              || (outcome.Done? && k == |disk.history| - 1 && disk.history[k] == disk.files)
  {
    if path !in disk.files || faults.open || faults.stat {
      return Failed(IoError);
    }
    var content := disk.files[path];
    if tmpPath in disk.files || faults.createTemp {
      return Failed(IoError);
    }
    disk.Put(tmpPath, []);
    if faults.chmod {
      outcome := Failed(IoError);
    } else {
      outcome := FillTemp(disk, content, tmpPath, aes, key, faults, schedule);
    }
    if outcome.Done? {
      disk.Rename(tmpPath, path);
    } else if !faults.removeTemp {
      disk.Delete(tmpPath);
    }
  }

  /** The read loop and the checks after it, up to the point where the temporary file is renamed. */
  method FillTemp(disk: Disk, content: seq<Byte>, tmpPath: string, aes: Block -> Cipher, key: ContentKey,
                  faults: Faults, schedule: seq<ReadStep>)
    returns (outcome: Outcome)
    requires tmpPath in disk.files && disk.files[tmpPath] == []
    modifies disk
    ensures outcome.Done? <==>
              && ReadsThrough(schedule, 0, |content|)
              && Accepts(aes, key, Plaintext(aes, key, content))
              && !faults.sync && !faults.closeTemp && !faults.closeInput && !faults.rename
    ensures OnlyTempMoved(tmpPath, old(disk.files), old(disk.history), disk.files, disk.history)
    ensures outcome.Done? ==> disk.files[tmpPath] == Plaintext(aes, key, content)
    ensures outcome.Done? && key.verifyMac ==> IsMacOf(aes(key.aesKey), key.nonce, Plaintext(aes, key, content), key.expectMac)
  {
    var macCalc := new MacCalculator(aes(key.aesKey), key.nonce);
    outcome := ReadLoop(disk, content, tmpPath, macCalc, InitialCounter(key), key.verifyMac, schedule);
    if outcome.Failed? {
      return;
    }
    if key.verifyMac {
      var got := macCalc.Sum();
      if got != key.expectMac {
        return Failed(MacMismatch);
      }
    }
    if faults.sync || faults.closeTemp || faults.closeInput || faults.rename {
      return Failed(IoError);
    }
  }

  /** Temporary file and MAC calculator have both taken exactly `plain`. */
  ghost predicate Synced(disk: Disk, tmpPath: string, macCalc: MacCalculator, verify: bool, plain: seq<Byte>)
    reads disk, macCalc, macCalc.fileMac, macCalc.chunkMac, macCalc.pendingBlock
  {
    && tmpPath in disk.files && disk.files[tmpPath] == plain
    && macCalc.Valid() && !macCalc.summed
    && (verify ==> macCalc.written == plain)
  }

  method ReadLoop(disk: Disk, content: seq<Byte>, tmpPath: string, macCalc: MacCalculator, iv: Block, verify: bool,
                  schedule: seq<ReadStep>)
    returns (outcome: Outcome)
    requires Synced(disk, tmpPath, macCalc, verify, [])
    modifies disk, macCalc, macCalc.fileMac, macCalc.chunkMac, macCalc.pendingBlock
    ensures outcome.Done? <==> ReadsThrough(schedule, 0, |content|)
    ensures outcome.Done? ==> Synced(disk, tmpPath, macCalc, verify, Ctr(macCalc.encrypt, iv, 0, content))
    ensures OnlyTempMoved(tmpPath, old(disk.files), old(disk.history), disk.files, disk.history)
  {
    var i: nat, pos: nat := 0, 0;
    ghost var plain := Ctr(macCalc.encrypt, iv, 0, content);
    PrefixEnds(plain);
    while true
      invariant OnCourse(schedule, |content|, i, pos, true, false)
      invariant Synced(disk, tmpPath, macCalc, verify, plain[..pos])
      invariant OnlyTempMoved(tmpPath, old(disk.files), old(disk.history), disk.files, disk.history)
      decreases StepsLeft(schedule, i), |content| - pos
    {
      var eof;
      outcome, pos, eof := ReadTurn(disk, content, tmpPath, macCalc, iv, verify, plain, pos, schedule, i,
                                    old(disk.files), old(disk.history));
      i := i + 1;
      if outcome.Failed? || eof {
        CourseEnds(schedule, |content|, i, pos, outcome.Done?, eof);
        return;
      }
    }
  }

  /** One turn of the read loop, seen from its start: `files` and `history` are what it started from. */
  method ReadTurn(disk: Disk, content: seq<Byte>, tmpPath: string, macCalc: MacCalculator, iv: Block, verify: bool,
                  ghost plain: seq<Byte>, pos: nat, schedule: seq<ReadStep>, i: nat,
                  ghost files: FileMap, ghost history: seq<FileMap>)
    returns (outcome: Outcome, next: nat, eof: bool)
    requires plain == Ctr(macCalc.encrypt, iv, 0, content)
    requires OnCourse(schedule, |content|, i, pos, true, false)
    requires Synced(disk, tmpPath, macCalc, verify, plain[..pos])
    requires OnlyTempMoved(tmpPath, files, history, disk.files, disk.history)
    modifies disk, macCalc, macCalc.fileMac, macCalc.chunkMac, macCalc.pendingBlock
    ensures OnCourse(schedule, |content|, i + 1, next, outcome.Done?, eof)
    ensures eof || StepsLeft(schedule, i + 1) < StepsLeft(schedule, i)
         || (StepsLeft(schedule, i + 1) == StepsLeft(schedule, i) && pos < next)
    ensures outcome.Done? ==> Synced(disk, tmpPath, macCalc, verify, plain[..next])
    ensures OnlyTempMoved(tmpPath, files, history, disk.files, disk.history)
  {
    ghost var files', history' := disk.files, disk.history;
    TurnKeepsCourse(schedule, |content|, i, pos);
    outcome, next, eof := ReadOnce(disk, content, tmpPath, macCalc, iv, verify, plain, pos, StepAt(schedule, i));
    OnlyTempMovedOn(tmpPath, files, history, files', history', disk.files, disk.history);
  }

  /** One turn of the read loop; `plain` is the plaintext of the whole file. */
  method ReadOnce(disk: Disk, content: seq<Byte>, tmpPath: string, macCalc: MacCalculator, iv: Block, verify: bool,
                  ghost plain: seq<Byte>, pos: nat, step: ReadStep)
    returns (outcome: Outcome, next: nat, eof: bool)
    requires plain == Ctr(macCalc.encrypt, iv, 0, content)
    requires pos <= |content| && Synced(disk, tmpPath, macCalc, verify, plain[..pos])
    modifies disk, macCalc, macCalc.fileMac, macCalc.chunkMac, macCalc.pendingBlock
    ensures next == pos + Delivered(step, |content| - pos)
    ensures eof == HitsEof(step, |content| - pos)
    ensures outcome.Done? <==> TurnSucceeds(step, next - pos)
    ensures outcome.Done? ==> Synced(disk, tmpPath, macCalc, verify, plain[..next])
    ensures OnlyTempMoved(tmpPath, old(disk.files), old(disk.history), disk.files, disk.history)
  {
    next := pos + Delivered(step, |content| - pos);
    eof := HitsEof(step, |content| - pos);
    if step.cancelled {
      return Failed(Cancelled), next, eof;
    }
    if pos < next {
      var out := Ctr(macCalc.encrypt, iv, pos, content[pos..next]);
      CtrSlice(macCalc.encrypt, iv, content, pos, next);
      OnlyTempPut(tmpPath, disk.files, disk.history, plain[..pos] + out);
      AppendPlain(disk, tmpPath, macCalc, verify, plain[..pos], out, step.writeFault);
      if step.writeFault {
        return Failed(IoError), next, eof;
      }
    }
    outcome := if step.readFault then Failed(IoError) else Done;
  }

  /** Feeds decrypted bytes to the MAC and appends them to the temporary file. */
  method AppendPlain(disk: Disk, tmpPath: string, macCalc: MacCalculator, verify: bool,
                     ghost plain: seq<Byte>, out: seq<Byte>, writeFault: bool)
    requires Synced(disk, tmpPath, macCalc, verify, plain)
    modifies disk, macCalc, macCalc.fileMac, macCalc.chunkMac, macCalc.pendingBlock
    ensures !writeFault ==> Synced(disk, tmpPath, macCalc, verify, plain + out)
    ensures disk.history == old(disk.history) + (if writeFault then [] else [disk.files])
    ensures disk.files == if writeFault then old(disk.files) else old(disk.files)[tmpPath := plain + out]
  {
    if verify {
      macCalc.Write(out);
    }
    if !writeFault {
      disk.Put(tmpPath, disk.files[tmpPath] + out);
    }
  }

  // ---------------------------------------------------------------------
  // Round trips

  /**
   * A file encrypted in counter mode under a 32-byte key whose last quarter is the MAC of the plaintext
   * decrypts to that plaintext, however the reads are cut.
   */
  lemma DecryptUndoesEncrypt(files: FileMap, path: string, tmpPath: string, aes: Block -> Cipher,
                             raw: seq<Byte>, plain: seq<Byte>, faults: Faults, schedule: seq<ReadStep>)
    requires |raw| == 32
    requires raw[24..] == MegaMac(aes(Xor(raw[..16], raw[16..])), raw[16..24], plain)
    requires tmpPath !in files && path in files
    requires files[path] == Plaintext(aes, ParseContentKey(raw).key, plain)
    requires !faults.Stops()
    requires forall j :: 0 <= j < |schedule| ==> !schedule[j].cancelled && !schedule[j].readFault && !schedule[j].writeFault
    ensures WillSucceed(files, path, tmpPath, aes, ParseContentKey(raw).key, faults, schedule)
    ensures Plaintext(aes, ParseContentKey(raw).key, files[path]) == plain
  {
    var key := ParseContentKey(raw).key;
    QuietReadsGetThrough(schedule, 0, |files[path]|);
    CtrTwice(aes(key.aesKey), InitialCounter(key), 0, plain);
    assert raw[24..] == raw[24..32];
  }

  /** With a 16-byte key nothing tells plaintext from ciphertext: decrypting twice restores the download. */
  method DecryptTwice(disk: Disk, path: string, tmpPath: string, aes: Block -> Cipher, raw: seq<Byte>,
                      schedule: seq<ReadStep>, scheduleAgain: seq<ReadStep>)
    returns (first: Outcome, second: Outcome)
    requires |raw| == 16 && path in disk.files && tmpPath !in disk.files
    requires ReadsThrough(schedule, 0, |disk.files[path]|) && ReadsThrough(scheduleAgain, 0, |disk.files[path]|)
    modifies disk
    ensures first == Done && second == Done && disk.files == old(disk.files)
  {
    var key := ParseContentKey(raw).key;
    var none := Faults(false, false, false, false, false, false, false, false, false);
    first := DecryptInPlace(disk, path, tmpPath, aes, key, none, schedule);
    CtrTwice(aes(key.aesKey), InitialCounter(key), 0, old(disk.files[path]));
    second := DecryptInPlace(disk, path, tmpPath, aes, key, none, scheduleAgain);
  }
}
