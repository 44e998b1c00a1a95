/** Block-wise reads of a staged file: whole-file and prefix digests, line offsets, and the complete-record prefix. */
module Scan {
  import opened Common

  const LF: byte := 10
  const CR: byte := 13

  /** Number of newline bytes. */
  function CountLF(data: Bytes): nat {
    if data == [] then 0 else CountLF(data[..|data| - 1]) + if data[|data| - 1] == LF then 1 else 0
  }

  /** A file of complete records is empty or ends with a newline. */
  predicate Complete(data: Bytes) {
    data == [] || data[|data| - 1] == LF
  }

  lemma {:induction false} CountConcat(a: Bytes, b: Bytes)
    ensures CountLF(a + b) == CountLF(a) + CountLF(b)
    decreases |b|
  {
    if b == [] {
      assert a + b == a;
    } else {
      var c := b[..|b| - 1];
      assert (a + b)[..|a + b| - 1] == a + c;
      CountConcat(a, c);
    }
  }

  lemma CountSplit(data: Bytes, n: nat)
    requires n <= |data|
    ensures CountLF(data) == CountLF(data[..n]) + CountLF(data[n..])
  {
    assert data == data[..n] + data[n..];
    CountConcat(data[..n], data[n..]);
  }

  lemma {:induction false} CountZero(data: Bytes)
    ensures CountLF(data) == 0 <==> LF !in data
    decreases |data|
  {
    if data != [] {
      CountZero(data[..|data| - 1]);
      assert data == data[..|data| - 1] + [data[|data| - 1]];
    }
  }

  /** `n` is the first position of `data` with `k` newlines before it: 0, or the byte just after the k-th newline. */
  predicate LineStart(data: Bytes, k: nat, n: nat) {
    n <= |data| && CountLF(data[..n]) == k && (n == 0 || data[n - 1] == LF)
  }

  /** At most one position starts a given line, so stating LineStart of a result fixes the result. */
  lemma LineStartUnique(data: Bytes, k: nat, m: nat, n: nat)
    requires LineStart(data, k, m) && LineStart(data, k, n)
    ensures m == n
  {
    if m < n {
      LineStartOrder(data, k, m, n);
    } else if n < m {
      LineStartOrder(data, k, n, m);
    }
  }

  lemma LineStartOrder(data: Bytes, k: nat, m: nat, n: nat)
    requires LineStart(data, k, m) && m < n <= |data| && data[n - 1] == LF
    ensures CountLF(data[..n]) > k
  {
    CountSplit(data[..n], m);
    assert data[..n][..m] == data[..m];
    var tail := data[..n][m..];
    assert tail[|tail| - 1] == LF;
    CountZero(tail);
  }

  /** The one position that starts line k + 1 of a file with at least k newlines. */
  function LineStartOf(data: Bytes, k: nat): (n: nat)
    requires k <= CountLF(data)
    ensures LineStart(data, k, n)
  {
    if data == [] then 0
    else
      var front := data[..|data| - 1];
      if k <= CountLF(front) then
        var n := LineStartOf(front, k);
        assert front[..n] == data[..n];
        n
      else
        assert data[..|data|] == data;
        |data|
  }

  // ---- scan_bytes ----

  datatype Scanned = Scanned(size: nat, lines: nat, sha256: Sha256, prefix: Option<Sha256>)

  /** The digest of the first `prefixSize` bytes is reported when the file is that long. */
  function PrefixDigest(data: Bytes, prefixSize: nat): Option<Sha256> {
    if prefixSize <= |data| then Some(Sha256(data[..prefixSize])) else None
  }

  /** What one `stream.read(n)` returns at position `at`. */
  function Read(data: Bytes, at: nat, n: nat): (block: Bytes)
    requires at <= |data|
    ensures |block| == Min(n, |data| - at)
    ensures data[..at] + block == data[..at + |block|]
  {
    data[at..at + Min(n, |data| - at)]
  }

  /** How the prefix digest changes when one more block is hashed. */
  lemma PrefixStep(done: Bytes, block: Bytes, prefixSize: nat)
    ensures var split := prefixSize - |done|;
            PrefixDigest(done + block, prefixSize) ==
              if PrefixDigest(done, prefixSize) == None && 0 < split <= |block|
              then Some(Sha256(done + block[..split])) else PrefixDigest(done, prefixSize)
  {
    var split := prefixSize - |done|;
    if split <= 0 {
      assert (done + block)[..prefixSize] == done[..prefixSize];
    } else if split <= |block| {
      assert (done + block)[..prefixSize] == done + block[..split];
    }
  }

  /** Any block size gives the digests of the whole file and of the requested prefix. */
  method ScanBytes(data: Bytes, prefixSize: nat, blockSize: nat) returns (r: Result<Scanned>)
    requires blockSize > 0
    ensures r == if Complete(data)
                 then Ok(Scanned(|data|, CountLF(data), Sha256(data), PrefixDigest(data, prefixSize)))
                 else Err
  {
    assert CountLF([]) == 0 && PrefixDigest([], prefixSize) == if prefixSize == 0 then Some(Sha256([])) else None;
    hide CountLF, PrefixDigest, Read;
    var full: Bytes := [];
    var prefixDigest := if prefixSize == 0 then Some(Sha256(full)) else None;
    var size, lines := 0, 0;
    var last := 0;
    while size < |data|
      invariant size <= |data| && full == data[..size]
      invariant lines == CountLF(full)
      invariant prefixDigest == PrefixDigest(full, prefixSize)
      invariant size > 0 ==> last == full[size - 1]
    {
      var block := Read(data, size, blockSize);
      var split := prefixSize - size;
      PrefixStep(full, block, prefixSize);
      CountConcat(full, block);
      if prefixDigest == None && 0 < split <= |block| {
        prefixDigest := Some(Sha256(full + block[..split]));
      }
      full := full + block;              // two updates of the hash state leave it as one does
      size := size + |block|;
      lines := lines + CountLF(block);
      last := block[|block| - 1];
    }
    assert full == data;
    if size > 0 && last != LF {
      return Err;
    }
    return Ok(Scanned(size, lines, Sha256(full), prefixDigest));
  }

  // ---- line_offset ----

  /** Index of the first newline at or after `from`, or |block|. */
  function Find(block: Bytes, from: nat): (n: nat)
    requires from <= |block|
    ensures from <= n <= |block|
    ensures LF !in block[from..n]
    ensures n < |block| ==> block[n] == LF
    decreases |block| - from
  {
    if from == |block| || block[from] == LF then from
    else
      var n := Find(block, from + 1);
      assert block[from..n] == [block[from]] + block[from + 1..n];
      n
  }

  /** The newline at index n that Find reports closes the next line. */
  lemma FindCounts(block: Bytes, from: nat)
    requires from <= |block| && CountLF(block[from..]) > 0
    ensures var n := Find(block, from);
            n < |block| && CountLF(block[..n + 1]) == CountLF(block[..from]) + 1
            && CountLF(block[n + 1..]) == CountLF(block[from..]) - 1
  {
    var n := Find(block, from);
    CountZero(block[from..n]);
    assert block[from..] == block[from..|block|];
    if n < |block| {
      OneNewline(block, from, n);
      CountSplit(block, from);
      CountSplit(block, n + 1);
    }
  }

  lemma OneNewline(block: Bytes, from: nat, n: nat)
    requires from <= n < |block| && block[n] == LF && CountLF(block[from..n]) == 0
    ensures CountLF(block[..n + 1]) == CountLF(block[..from]) + 1
  {
    assert block[..n + 1] == block[..n] + [LF] && block[..n + 1][..n] == block[..n];
    assert block[..n] == block[..from] + block[from..n];
    CountConcat(block[..from], block[from..n]);
  }

  /** The inner loop: the position just after the `count`-th newline of a block that holds that many. */
  method SkipLines(block: Bytes, count: nat) returns (n: nat)
    requires 0 < count <= CountLF(block)
    ensures n > 0 && LineStart(block, count, n)
  {
    n := 0;
    assert block[..0] == [] && block[0..] == block;
    for i := 0 to count
      invariant n <= |block| && CountLF(block[..n]) == i && CountLF(block[n..]) == CountLF(block) - i
      invariant i > 0 ==> n > 0 && block[n - 1] == LF
    {
      FindCounts(block, n);
      n := Find(block, n) + 1;
    }
  }

  /** The bytes from `startOffset` on; seeking past the end leaves nothing to read. */
  function From(data: Bytes, startOffset: nat): Bytes {
    if startOffset <= |data| then data[startOffset..] else []
  }

  /** The target line lies before the known line boundary, or past the newlines that follow it. */
  predicate OutsideFile(data: Bytes, target: int, startOffset: nat, startLine: int) {
    target < startLine || target - startLine > CountLF(From(data, startOffset))
  }

  /** Any block size gives the byte just after the (target - startLine)-th newline counted from startOffset. */
  method LineOffset(data: Bytes, target: int, startOffset: nat, startLine: int, blockSize: nat) returns (r: Result<nat>)
    requires blockSize > 0
    ensures r.Err? <==> OutsideFile(data, target, startOffset, startLine)
    ensures r.Err? <==> target < startLine || CountLF(From(data, startOffset)) < target - startLine
    ensures r.Ok? ==> r.value >= startOffset
    ensures r.Ok? ==> LineStart(From(data, startOffset), target - startLine, r.value - startOffset)
    ensures r.Ok? && target == startLine ==> r.value == startOffset
  {
    if target < startLine {
      return Err;
    }
    var rest := From(data, startOffset);
    var offset := OffsetWithin(rest, target - startLine, blockSize);
    match offset {
      case Ok(n) => return Ok(startOffset + n);
      case Err => return Err;
    }
  }

  /** The read loop of LineOffset over the bytes it reads. */
  method OffsetWithin(rest: Bytes, lines: nat, blockSize: nat) returns (r: Result<nat>)
    requires blockSize > 0
    ensures r.Err? <==> lines > CountLF(rest)
    ensures r.Ok? ==> LineStart(rest, lines, r.value) && (lines == 0 ==> r.value == 0)
  {
    var remaining, offset := lines, 0;
    while remaining > 0
      invariant 0 <= offset <= |rest| && 0 <= remaining <= lines
      invariant CountLF(rest[..offset]) == lines - remaining
      invariant remaining == 0 ==> offset == 0 && lines == 0
      decreases |rest| - offset
    {
      var block := Read(rest, offset, blockSize);
      if block == [] {
        assert rest[..offset] == rest;
        return Err;
      }
      var count := CountLF(block);
      CountConcat(rest[..offset], block);
      if count < remaining {
        remaining := remaining - count;
        offset := offset + |block|;
      } else {
        var n := SkipLines(block, remaining);
        SkipWithin(rest, offset, block, remaining, n);
        return Ok(offset + n);
      }
    }
    return Ok(offset);
  }

  lemma SkipWithin(rest: Bytes, offset: nat, block: Bytes, count: nat, n: nat)
    requires offset + |block| <= |rest| && rest[..offset] + block == rest[..offset + |block|]
    requires n > 0 && LineStart(block, count, n)
    ensures LineStart(rest, CountLF(rest[..offset]) + count, offset + n)
    ensures CountLF(rest) >= CountLF(rest[..offset]) + count
  {
    hide CountLF;
    SkipBytes(rest, offset, block, n);
    CountConcat(rest[..offset], block[..n]);
    CountSplit(rest, offset + n);
  }

  lemma SkipBytes(rest: Bytes, offset: nat, block: Bytes, n: nat)
    requires offset + |block| <= |rest| && rest[..offset] + block == rest[..offset + |block|] && 0 < n <= |block|
    ensures rest[..offset + n] == rest[..offset] + block[..n] && rest[offset + n - 1] == block[n - 1]
  {
    assert rest[..offset + n] == rest[..offset + |block|][..offset + n];
    assert rest[offset + n - 1] == (rest[..offset] + block)[offset + n - 1];
  }

  // ---- copy_complete_records ----

  /** Index of the last newline of a block, or -1. */
  function RFind(block: Bytes): (n: int)
    ensures -1 <= n < |block|
    ensures n >= 0 ==> block[n] == LF
    ensures forall i :: n < i < |block| ==> block[i] != LF
  {
    if block == [] then -1
    else if block[|block| - 1] == LF then |block| - 1
    else RFind(block[..|block| - 1])
  }

  /** `complete` bytes are the longest prefix made of whole records. */
  predicate LongestComplete(data: Bytes, complete: nat) {
    complete <= |data| && Complete(data[..complete]) && LF !in data[complete..]
  }

  lemma LongestCompleteIsLongest(data: Bytes, complete: nat, n: nat)
    requires LongestComplete(data, complete) && n <= |data| && Complete(data[..n])
    ensures n <= complete
  {
    assert forall i | complete <= i < |data| :: data[i] in data[complete..];
  }

  method CopyCompleteRecords(data: Bytes, chunkSize: nat) returns (output: Bytes, complete: nat, partialTail: bool)
    requires chunkSize > 0
    ensures LongestComplete(data, complete)
    ensures output == data[..complete]
    ensures partialTail <==> complete < |data|
  {
    complete := LastBoundary(data, chunkSize);
    output := [];
    var remaining := complete;
    while remaining > 0
      invariant 0 <= remaining <= complete
      invariant output == data[..complete - remaining]
    {
      var block := Read(data, complete - remaining, Min(chunkSize, remaining));
      output := output + block;
      remaining := remaining - |block|;
    }
    partialTail := complete < |data|;
  }

  /** The backward search of CopyCompleteRecords, one block at a time from the end. */
  method LastBoundary(data: Bytes, chunkSize: nat) returns (complete: nat)
    requires chunkSize > 0
    ensures LongestComplete(data, complete)
  {
    var end := |data|;
    while end > 0
      invariant 0 <= end <= |data|
      invariant forall i :: end <= i < |data| ==> data[i] != LF
    {
      var start := Max(0, end - chunkSize);
      var block := data[start..end];
      var newline := RFind(block);
      assert forall i :: start <= i < end ==> data[i] == block[i - start];
      if newline >= 0 {
        return start + newline + 1;
      }
      end := start;
    }
    return 0;
  }
}
