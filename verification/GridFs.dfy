/** GridFS: cutting a file into chunks, storing it piece by piece and reading it back
    (driver/src/gridfs.rs:72-93, driver/src/gridfs/upload.rs:276-346, 373-440,
    driver/src/gridfs/download.rs:112-225).
 */
module GridFs {
  import opened Wrappers
  import opened Utf8

  const MAX_UINT32 := 0xFFFF_FFFF

  // ---------------------------------------------------------------------
  // Chunk arithmetic
  // ---------------------------------------------------------------------

  type ChunkSize = n: nat | 0 < n <= MAX_UINT32 witness 1

  function Pieces(length: nat, size: ChunkSize): nat { length / size + if length % size == 0 then 0 else 1 }

  /** `n_from_vals`; `None` where the conversion to 32 bits fails. */
  function ChunkCount(length: nat, size: ChunkSize): Option<nat> {
    if Pieces(length, size) <= MAX_UINT32 then Some(Pieces(length, size)) else None
  }

  /** `expected_chunk_length_from_vals`; `None` where it panics. */
  function ExpectedLength(length: nat, size: ChunkSize, n: nat): Option<nat> {
    var count := ChunkCount(length, size);
    if count.None? || count.value == 0 then None
    else if n == count.value - 1 && length % size != 0 then Some(length % size)
    else Some(size)
  }

  /** A file cut into pieces of `size` bytes. */
  function Split(data: Bytes, size: ChunkSize): seq<Bytes> {
    if data == [] then [] else if |data| <= size then [data] else [data[..size]] + Split(data[size..], size)
  }

  function Concat(pieces: seq<Bytes>): Bytes { if pieces == [] then [] else pieces[0] + Concat(pieces[1..]) }

  lemma DivUnique(a: int, s: int, q: int, r: int)
    requires s > 0 && a == s * q + r && 0 <= r < s
    ensures a / s == q && a % s == r
  {
    var d := a / s - q;
    assert a == s * (a / s) + a % s;
    assert s * d == r - a % s by {
      assert s * d == s * (a / s) - s * q;
    }
    assert d >= 1 ==> s * d >= s;
    assert d <= -1 ==> s * d <= -s;
  }

  lemma OneChunkLess(length: nat, size: ChunkSize)
    requires length >= size
    ensures (length - size) / size == length / size - 1 && (length - size) % size == length % size
  {
    var q, r := length / size, length % size;
    assert length == size * q + r;
    assert length - size == size * (q - 1) + r;
    DivUnique(length - size, size, q - 1, r);
  }

  /** Splitting and putting together again gives the file back. */
  lemma {:induction false} SplitConcat(data: Bytes, size: ChunkSize)
    ensures Concat(Split(data, size)) == data
    decreases |data|
  {
    if |data| > size {
      SplitConcat(data[size..], size);
      assert data[..size] + data[size..] == data;
    } else if data != [] {
      assert Concat([data]) == data + Concat([]);
    }
  }

  lemma SmallFile(length: nat, size: ChunkSize)
    requires 0 < length <= size
    ensures Pieces(length, size) == 1
    ensures length < size ==> length % size == length
    ensures length == size ==> length % size == 0
  {
    if length < size {
      DivUnique(length, size, 0, length);
    } else {
      DivUnique(length, size, 1, 0);
    }
  }

  lemma {:induction false} SplitCount(data: Bytes, size: ChunkSize)
    ensures |Split(data, size)| == Pieces(|data|, size)
    decreases |data|
  {
    if data == [] {
      DivUnique(0, size, 0, 0);
    } else if |data| <= size {
      SmallFile(|data|, size);
    } else {
      OneChunkLess(|data|, size);
      SplitCount(data[size..], size);
    }
  }

  /** The pieces have the lengths that the arithmetic predicts. */
  lemma {:induction false} SplitLengths(data: Bytes, size: ChunkSize, n: nat)
    requires n < |Split(data, size)|
    ensures |Split(data, size)[n]| ==
            if n == Pieces(|data|, size) - 1 && |data| % size != 0 then |data| % size else size
    decreases |data|
  {
    if |data| <= size {
      SmallFile(|data|, size);
    } else {
      OneChunkLess(|data|, size);
      SplitCount(data[size..], size);
      if n > 0 {
        SplitLengths(data[size..], size, n - 1);
      }
    }
  }

  function ExpectedSum(length: nat, size: ChunkSize, n: nat): nat {
    if n == 0 then 0 else ExpectedSum(length, size, n - 1) + ExpectedLength(length, size, n - 1).UnwrapOr(0)
  }

  /** For every file whose chunks can be numbered: no conversion fails, every chunk has at least one byte and
      at most the chunk size, only the last may be shorter, and the lengths add up to the file. */
  lemma ExpectedLengthsFit(length: nat, size: ChunkSize)
    requires length > 0 && Pieces(length, size) <= MAX_UINT32
    ensures ChunkCount(length, size) == Some(Pieces(length, size)) && Pieces(length, size) > 0
    ensures forall n: nat | n < Pieces(length, size) ::
              var e := ExpectedLength(length, size, n);
              e.Some? && 1 <= e.value <= size && (n < Pieces(length, size) - 1 ==> e.value == size)
    ensures ExpectedSum(length, size, Pieces(length, size)) == length
  {
    var count := Pieces(length, size);
    SomePieces(length, size);
    FullChunksSum(length, size, count - 1);
    LastPiece(length, size);
  }

  lemma SomePieces(length: nat, size: ChunkSize)
    requires length > 0
    ensures Pieces(length, size) > 0
  {
    if length <= size {
      SmallFile(length, size);
    } else {
      OneChunkLess(length, size);
    }
  }

  lemma LastPiece(length: nat, size: ChunkSize)
    requires length > 0 && Pieces(length, size) > 0
    ensures size * (Pieces(length, size) - 1) + (if length % size != 0 then length % size else size) == length
  {
    var q := length / size;
    assert length == size * q + length % size;
    assert size * (q - 1) + size == size * q;
  }

  lemma {:induction false} FullChunksSum(length: nat, size: ChunkSize, n: nat)
    requires 0 < Pieces(length, size) <= MAX_UINT32 && n < Pieces(length, size)
    ensures ExpectedSum(length, size, n) == size * n
  {
    if n > 0 {
      FullChunksSum(length, size, n - 1);
      assert size * (n - 1) + size == size * n;
    } else {
      assert size * 0 == 0;
    }
  }

  // ---------------------------------------------------------------------
  // Uploading
  // ---------------------------------------------------------------------

  datatype Chunk = Chunk(n: nat, data: Bytes)

  datatype File = File(length: nat, size: ChunkSize)

  /** The pieces as chunks, numbered from `n`. */
  function Numbered(pieces: seq<Bytes>, n: nat): seq<Chunk> {
    seq(|pieces|, i requires 0 <= i < |pieces| => Chunk(n + i, pieces[i]))
  }

  /** Whole pieces can be split off. */
  lemma {:induction false} SplitAppend(a: Bytes, b: Bytes, size: ChunkSize)
    requires |a| % size == 0
    ensures Split(a + b, size) == Split(a, size) + Split(b, size)
    decreases |a|
  {
    if a == [] {
      assert a + b == b;
    } else {
      if |a| < size {
        SmallFile(|a|, size);
      }
      OneChunkLess(|a|, size);
      SplitAppend(a[size..], b, size);
      assert (a + b)[size..] == a[size..] + b && (a + b)[..size] == a[..size];
      if |a| == size {
        assert a[..size] == a && a[size..] == [];
        if b == [] {
          assert a + b == a;
        }
      }
    }
  }

  lemma WholePieces(k: nat, size: ChunkSize)
    ensures k * size % size == 0 && k * size / size == k && Pieces(k * size, size) == k
  {
    assert k * size == size * k;
    DivUnique(k * size, size, k, 0);
  }

  /** `write_bytes`: the chunks to insert, and how many bytes they take. */
  method CutChunks(buffer: Bytes, startingN: nat, size: ChunkSize) returns (chunks: seq<Chunk>, n: nat, taken: nat)
    ensures taken == n * size && taken <= |buffer| < taken + size
    ensures chunks == Numbered(Split(buffer[..taken], size), startingN) && |chunks| == n
  {
    n, chunks, taken := 0, [], 0;
    while |buffer| - taken >= size
      invariant taken == n * size && taken <= |buffer|
      invariant chunks == Numbered(Split(buffer[..taken], size), startingN) && |chunks| == n
      decreases |buffer| - taken
    {
      var piece := buffer[taken..taken + size];
      OneMorePiece(buffer, size, n, taken);
      chunks := chunks + [Chunk(startingN + n, piece)];
      n, taken := n + 1, taken + size;
    }
  }

  lemma OneMorePiece(buffer: Bytes, size: ChunkSize, n: nat, taken: nat)
    requires taken == n * size && taken + size <= |buffer|
    ensures Split(buffer[..taken + size], size) == Split(buffer[..taken], size) + [buffer[taken..taken + size]]
    ensures taken + size == (n + 1) * size
  {
    var piece := buffer[taken..taken + size];
    WholePieces(n, size);
    SplitAppend(buffer[..taken], piece, size);
    assert buffer[..taken] + piece == buffer[..taken + size];
    assert Split(piece, size) == [piece];
  }

  class UploadStream {
    const size: ChunkSize
    var open: bool
    var buffer: Bytes
    var currentN: nat
    var chunks: seq<Chunk>        // the chunks collection, for this file
    var file: Option<File>        // the files collection, for this file
    ghost var data: Bytes         // everything written so far

    /** Whole chunks are stored, the rest is in the buffer. */
    ghost predicate Valid()
      reads this
    {
      && currentN * size <= |data|
      && buffer == data[currentN * size..] && |buffer| < size
      && chunks == Numbered(Split(data[..currentN * size], size), 0)
      && file.None?
    }

    constructor (size: ChunkSize)
      ensures Valid() && open && data == [] && this.size == size
    {
      this.size := size;
      open, buffer, currentN, chunks, file, data := true, [], 0, [], None, [];
      new;
      assert 0 * this.size == 0;
    }

    /** A write takes all its bytes; if the insert fails, the chunks are deleted, if that works. */
    method Write(bytes: Bytes, inserts: bool, deletes: bool) returns (ok: bool)
      requires open ==> Valid()
      modifies this
      ensures ok == (old(open) && (inserts || |old(buffer)| + |bytes| < size))
      ensures open == ok
      ensures ok ==> Valid() && data == old(data) + bytes
      ensures old(open) && !ok && deletes ==> chunks == []
      ensures !old(open) ==> chunks == old(chunks)
      ensures file == old(file)
    {
      if !open {
        return false;
      }
      data := data + bytes;
      buffer := buffer + bytes;
      assert buffer == data[currentN * size..] && data[..currentN * size] == old(data)[..currentN * size];
      if |buffer| < size {
        return true;
      }
      var more, n, taken := CutChunks(buffer, currentN, size);
      if !inserts {
        open := false;
        if deletes { chunks := []; }
        return false;
      }
      StoredSoFar(data, size, currentN, n, taken);
      chunks := chunks + more;
      buffer := buffer[taken..];
      currentN := currentN + n;
      return true;
    }

    /** Closing stores the rest and the file document. Afterwards the collections hold exactly the file. */
    method Close(inserts: bool, deletes: bool) returns (ok: bool)
      requires open ==> Valid()
      requires Pieces(|data|, size) <= MAX_UINT32
      modifies this
      ensures ok == (old(open) && inserts) && !open && data == old(data)
      ensures ok ==> chunks == Numbered(Split(data, size), 0) && file == Some(File(|data|, size))
      ensures old(open) && !ok && deletes ==> chunks == []
      ensures !ok ==> file == old(file)
    {
      if !open {
        return false;
      }
      open := false;
      if !inserts {
        if deletes { chunks := []; }
        return false;
      }
      var length := currentN * size + |buffer|;
      LastChunk(data, size, currentN, currentN * size);
      if buffer != [] {
        var n := ChunkCount(length, size).value - 1;
        chunks := chunks + [Chunk(n, buffer)];
      }
      file := Some(File(length, size));
      return true;
    }
  }

  lemma StoredSoFar(data: Bytes, size: ChunkSize, k: nat, n: nat, taken: nat)
    requires k * size + taken <= |data| && taken == n * size
    ensures (k + n) * size == k * size + taken
    ensures Numbered(Split(data[..(k + n) * size], size), 0) ==
            Numbered(Split(data[..k * size], size), 0) + Numbered(Split(data[k * size..][..taken], size), k)
  {
    assert (k + n) * size == k * size + n * size;
    StoredUpTo(data, size, k, k * size, taken);
  }

  lemma StoredUpTo(data: Bytes, size: ChunkSize, k: nat, at: nat, taken: nat)
    requires at == k * size && at + taken <= |data|
    ensures Numbered(Split(data[..at + taken], size), 0) ==
            Numbered(Split(data[..at], size), 0) + Numbered(Split(data[at..][..taken], size), k)
  {
    var a, b := data[..at], data[at..][..taken];
    assert data[..at + taken] == a + b;
    WholeSplit(a, b, size, k);
    NumberedConcat(Split(a, size), Split(b, size), 0);
  }

  lemma WholeSplit(a: Bytes, b: Bytes, size: ChunkSize, k: nat)
    requires |a| == k * size
    ensures Split(a + b, size) == Split(a, size) + Split(b, size) && |Split(a, size)| == k
  {
    WholePieces(k, size);
    SplitAppend(a, b, size);
    SplitCount(a, size);
  }

  lemma NumberedConcat(first: seq<Bytes>, second: seq<Bytes>, n: nat)
    ensures Numbered(first + second, n) == Numbered(first, n) + Numbered(second, n + |first|)
  {
  }

  lemma LastChunk(data: Bytes, size: ChunkSize, k: nat, at: nat)
    requires at == k * size && at <= |data| < at + size
    ensures var rest := data[at..];
            && (rest == [] ==> Numbered(Split(data, size), 0) == Numbered(Split(data[..at], size), 0))
            && (rest != [] ==>
                  && Pieces(|data|, size) == k + 1
                  && Numbered(Split(data, size), 0) == Numbered(Split(data[..at], size), 0) + [Chunk(k, rest)])
  {
    var a, rest := data[..at], data[at..];
    assert data == a + rest;
    if rest == [] {
      assert a == data;
    } else {
      SplitWithRest(a, rest, size, k);
      SplitCount(data, size);
      NumberedSnoc(Split(a, size), rest, 0);
    }
  }

  lemma SplitWithRest(a: Bytes, rest: Bytes, size: ChunkSize, k: nat)
    requires |a| == k * size && 0 < |rest| < size
    ensures Split(a + rest, size) == Split(a, size) + [rest] && |Split(a, size)| == k
  {
    WholeSplit(a, rest, size, k);
  }

  lemma NumberedSnoc(pieces: seq<Bytes>, last: Bytes, n: nat)
    ensures Numbered(pieces + [last], n) == Numbered(pieces, n) + [Chunk(n + |pieces|, last)]
  {
  }

  // ---------------------------------------------------------------------
  // Downloading
  // ---------------------------------------------------------------------

  /** Why there is no chunk to look at: the batch could not be fetched, an element of it is no document, or
      the document is no chunk. */
  datatype Fault = CursorFailed(message: string) | NotADocument | Undecodable(message: string)

  datatype DownloadError =
    | MissingChunk(n: nat)
    | WrongSizeChunk(actual: nat, expected: nat, n: nat)
    | Unreadable(cause: Fault)

  /** What the cursor brings: a chunk, or a fault in its place. A batch that could not be fetched is a batch
      with one bad item. */
  datatype Item = Good(chunk: Chunk) | Bad(cause: Fault)

  function Payload(item: Item): Bytes { if item.Good? then item.chunk.data else [] }

  function Items(chunks: seq<Chunk>): seq<Item> {
    seq(|chunks|, i requires 0 <= i < |chunks| => Good(chunks[i]))
  }

  /** `Idle`: bytes read ahead, the batches the cursor still has, and the number of the next chunk. */
  datatype Idle = Idle(buffer: Bytes, cursor: seq<seq<Item>>, currentN: nat)

  /** The item is the chunk that is expected next. */
  function CheckItem(file: File, currentN: nat, item: Item): Option<DownloadError> {
    match item
    case Bad(cause) => Some(Unreadable(cause))
    case Good(c) =>
      var expected := ExpectedLength(file.length, file.size, currentN).UnwrapOr(0);
      if c.n != currentN then Some(MissingChunk(currentN))
      else if |c.data| != expected then Some(WrongSizeChunk(|c.data|, expected, currentN))
      else None
  }

  /** Chunks `n`, `n + 1` and so on, each with the right number and length, and no failure among them. */
  predicate InSequence(file: File, items: seq<Item>, n: nat) { All(Check(file), items, n) }

  type ItemCheck = (nat, Item) -> Option<DownloadError>

  function Check(file: File): ItemCheck { (n: nat, item: Item) => CheckItem(file, n, item) }

  predicate All(check: ItemCheck, items: seq<Item>, n: nat) {
    forall i: nat | i < |items| :: check(n + i, items[i]).None?
  }

  lemma AllAppend(check: ItemCheck, a: seq<Item>, b: seq<Item>, n: nat)
    requires All(check, a, n) && All(check, b, n + |a|)
    ensures All(check, a + b, n)
  {
    forall i: nat | i < |a + b|
      ensures check(n + i, (a + b)[i]).None?
    {
      if i >= |a| {
        var j: nat := i - |a|;
        assert check(n + |a| + j, b[j]).None?;
      }
    }
  }

  function Data(items: seq<Item>): Bytes {
    if items == [] then [] else Data(items[..|items| - 1]) + Payload(items[|items| - 1])
  }

  function Flatten(batches: seq<seq<Item>>): seq<Item> {
    if batches == [] then [] else batches[0] + Flatten(batches[1..])
  }

  lemma AllOneMore(check: ItemCheck, items: seq<Item>, i: nat, n: nat, buffer: Bytes)
    requires i < |items| && All(check, items[..i], n) && check(n + i, items[i]).None?
    ensures All(check, items[..i + 1], n)
    ensures buffer + Data(items[..i + 1]) == buffer + Data(items[..i]) + Payload(items[i])
  {
    var more := items[..i + 1];
    assert more[..i] == items[..i];
    Associative(buffer, Data(items[..i]), Payload(items[i]));
    forall j: nat | j < |more|
      ensures check(n + j, more[j]).None?
    {
      if j < i {
        assert more[j] == items[..i][j];
      }
    }
  }

  /** Takes in one batch, up to the first chunk that is out of sequence. */
  method TakeBatch(check: ItemCheck, batch: seq<Item>, buffer: Bytes, n: nat)
    returns (buffer': Bytes, n': nat, problem: Option<DownloadError>)
    ensures n <= n' <= n + |batch| && (problem.None? ==> n' == n + |batch|)
    ensures All(check, batch[..n' - n], n) && buffer' == buffer + Data(batch[..n' - n])
    ensures problem.Some? ==> n' - n < |batch| && check(n', batch[n' - n]) == problem
  {
    buffer', n', problem := buffer, n, None;
    for i := 0 to |batch|
      invariant n' == n + i && problem.None?
      invariant All(check, batch[..i], n) && buffer' == buffer + Data(batch[..i])
    {
      problem := check(n', batch[i]);
      if problem.Some? {
        return;
      }
      AllOneMore(check, batch, i, n, buffer);
      buffer' := buffer' + Payload(batch[i]);
      n' := n' + 1;
    }
  }

  /** The chunks read so far are in sequence and their bytes are in the buffer, behind what it had. */
  predicate Gathered(check: ItemCheck, from: Idle, read: seq<Item>, now: Idle) {
    && All(check, read, from.currentN)
    && Flatten(from.cursor) == read + Flatten(now.cursor)
    && now.buffer == from.buffer + Data(read)
    && now.currentN == from.currentN + |read|
  }

  lemma GatheredOneBatch(check: ItemCheck, from: Idle, read: seq<Item>, now: Idle, batch: seq<Item>, next: Idle)
    requires Gathered(check, from, read, now) && now.cursor != [] && now.cursor[0] == batch
    requires All(check, batch, now.currentN)
    requires next == Idle(now.buffer + Data(batch), now.cursor[1..], now.currentN + |batch|)
    ensures Gathered(check, from, read + batch, next)
  {
    AllAppend(check, read, batch, from.currentN);
    assert next.buffer == from.buffer + Data(read + batch) by {
      DataAppend(read, batch);
      Associative(from.buffer, Data(read), Data(batch));
    }
    assert Flatten(from.cursor) == read + batch + Flatten(next.cursor) by {
      Associative(read, batch, Flatten(next.cursor));
    }
  }

  lemma Associative<T>(a: seq<T>, b: seq<T>, c: seq<T>)
    ensures a + b + c == a + (b + c)
  {
  }

  /** `get_bytes`: reads batches until the buffer has `wanted` bytes or there are no more. An error is about
      the chunk after those in `read`. */
  method GetBytes(idle: Idle, check: ItemCheck, wanted: nat)
    returns (r: Result<Idle, DownloadError>, ghost read: seq<Item>)
    ensures r.Ok? ==> Gathered(check, idle, read, r.value) && (|r.value.buffer| >= wanted || r.value.cursor == [])
    ensures r.Err? ==>
              && |read| < |Flatten(idle.cursor)| && read == Flatten(idle.cursor)[..|read|]
              && All(check, read, idle.currentN)
              && check(idle.currentN + |read|, Flatten(idle.cursor)[|read|]) == Some(r.error)
  {
    var now := idle;
    read := [];
    while |now.buffer| < wanted && now.cursor != []
      invariant Gathered(check, idle, read, now)
      decreases |now.cursor|
    {
      var batch := now.cursor[0];
      var buffer, n, problem := TakeBatch(check, batch, now.buffer, now.currentN);
      if problem.Some? {
        var k := n - now.currentN;
        FailsInBatch(check, idle, read, now, k);
        read := read + batch[..k];
        assert idle.currentN + |read| == n && Flatten(idle.cursor)[|read|] == batch[k];
        return Err(problem.value), read;
      }
      assert batch[..|batch|] == batch;
      var next := Idle(buffer, now.cursor[1..], n);
      GatheredOneBatch(check, idle, read, now, batch, next);
      read := read + batch;
      now := next;
    }
    return Ok(now), read;
  }

  lemma FailsInBatch(check: ItemCheck, from: Idle, read: seq<Item>, now: Idle, k: nat)
    requires Gathered(check, from, read, now) && now.cursor != [] && k < |now.cursor[0]|
    requires All(check, now.cursor[0][..k], now.currentN)
    ensures var all, read' := Flatten(from.cursor), read + now.cursor[0][..k];
            && |read'| < |all| && read' == all[..|read'|] && all[|read'|] == now.cursor[0][k]
            && All(check, read', from.currentN)
  {
    var batch := now.cursor[0];
    var read' := read + batch[..k];
    assert Flatten(from.cursor) == read + (batch + Flatten(now.cursor[1..]));
    AllAppend(check, read, batch[..k], from.currentN);
  }

  /** What was read has been handed out or is in the buffer; the cursor has the rest of what is stored. */
  predicate Ahead(file: File, stored: seq<Item>, read: seq<Item>, delivered: Bytes, now: Idle) {
    && stored == read + Flatten(now.cursor)
    && InSequence(file, read, 0)
    && delivered + now.buffer == Data(read)
    && now.currentN == |read|
  }

  lemma AheadAfterGathering(file: File, stored: seq<Item>, read: seq<Item>, delivered: Bytes, now: Idle,
                            more: seq<Item>, next: Idle)
    requires Ahead(file, stored, read, delivered, now) && Gathered(Check(file), now, more, next)
    ensures Ahead(file, stored, read + more, delivered, next)
  {
    assert InSequence(file, read + more, 0) by { AllAppend(Check(file), read, more, 0); }
    assert stored == read + more + Flatten(next.cursor) by { Associative(read, more, Flatten(next.cursor)); }
    assert delivered + next.buffer == Data(read + more) by {
      DataAppend(read, more);
      Associative(delivered, now.buffer, Data(more));
    }
  }

  lemma AheadAfterHandingOut(file: File, stored: seq<Item>, read: seq<Item>, delivered: Bytes, now: Idle, count: nat)
    requires Ahead(file, stored, read, delivered, now) && count <= |now.buffer|
    ensures Ahead(file, stored, read, delivered + now.buffer[..count], now.(buffer := now.buffer[count..]))
  {
    assert delivered + now.buffer[..count] + now.buffer[count..] == delivered + now.buffer;
  }

  /** All of the file's chunks were read and handed out, and nothing else is stored. */
  predicate Complete(file: File, stored: seq<Item>, delivered: Bytes) {
    && (file.length == 0 ==> delivered == [])
    && (file.length > 0 ==>
          && InSequence(file, stored, 0) && delivered == Data(stored)
          && |stored| == Pieces(file.length, file.size))
  }

  /** The end is reached when nothing is left to hand out or to fetch. */
  lemma AtTheEnd(file: File, stored: seq<Item>, read: seq<Item>, delivered: Bytes, now: Idle)
    requires Ahead(file, stored, read, delivered, now) && now.buffer == [] && now.cursor == [] && file.length > 0
    ensures now.currentN == |stored|
    ensures now.currentN == Pieces(file.length, file.size) ==> Complete(file, stored, delivered)
  {
    assert stored == read && delivered == Data(read);
  }

  method IsCount(file: File, n: nat) returns (b: bool)
    requires Pieces(file.length, file.size) <= MAX_UINT32
    ensures b <==> n == Pieces(file.length, file.size)
  {
    b := n == ChunkCount(file.length, file.size).value;
  }

  class DownloadStream {
    const file: File
    var idle: Option<Idle>          // none once the stream is done
    ghost var failed: bool
    ghost const stored: seq<Item>  // what the cursor brings
    ghost var read: seq<Item>
    ghost var delivered: Bytes

    ghost predicate Valid()
      reads this
    {
      && (idle.Some? ==> file.length > 0 && !failed && Ahead(file, stored, read, delivered, idle.value))
      && (idle.None? && !failed ==> Complete(file, stored, delivered))
    }

    constructor (file: File, cursor: seq<seq<Item>>)
      ensures Valid() && delivered == [] && !failed && this.file == file && stored == Flatten(cursor)
    {
      this.file := file;
      idle := if file.length == 0 then None else Some(Idle([], cursor, 0));
      failed, read, delivered, stored := false, [], [], Flatten(cursor);
    }

    /** `poll_read` into a buffer of `wanted` bytes. Until it has been asked, the cursor may claim to have
        more when it has not. Nothing is read into a buffer with room only when the stream is done; an error
        means that what is stored is not the file. */
    method Read(wanted: nat, claimsMore: bool) returns (r: Result<Bytes, DownloadError>)
      requires Valid()
      requires file.length > 0 ==> Pieces(file.length, file.size) <= MAX_UINT32
      modifies this
      ensures Valid()
      ensures r.Ok? ==> |r.value| <= wanted && delivered == old(delivered) + r.value && failed == old(failed)
      ensures r.Ok? && r.value == [] && wanted > 0 ==> idle.None?
      ensures r.Ok? && |r.value| < wanted && idle.Some? ==> idle.value.buffer == []
      ensures r.Err? ==> failed && idle.None?
      ensures r.Err? ==> !InSequence(file, stored, 0) || |stored| != Pieces(file.length, file.size)
      ensures r.Err? && r.error.Unreadable? ==> Bad(r.error.cause) in stored
    {
      if idle.None? {
        return Ok([]);
      }
      var now, exhausted := idle.value, false;
      if now.buffer == [] {
        var got;
        ghost var more;
        got, more := GetBytes(now, Check(file), wanted);
        if got.Err? {
          idle, failed := None, true;
          NotInSequence(file, stored, |read| + |more|, got.error);
          return Err(got.error);
        }
        exhausted := |got.value.buffer| < wanted;
        AheadAfterGathering(file, stored, read, delivered, now, more, got.value);
        now := got.value;
        read := read + more;
      }
      var count := if |now.buffer| < wanted then |now.buffer| else wanted;
      var bytes := now.buffer[..count];
      AheadAfterHandingOut(file, stored, read, delivered, now, count);
      now := now.(buffer := now.buffer[count..]);
      delivered := delivered + bytes;
      if now.buffer != [] || now.cursor != [] || (claimsMore && !exhausted) {
        idle := Some(now);
        return Ok(bytes);
      }
      idle := None;
      AtTheEnd(file, stored, read, delivered, now);
      var all := IsCount(file, now.currentN);
      if !all {
        failed := true;
        return Err(MissingChunk(now.currentN));
      }
      return Ok(bytes);
    }
  }

  lemma NotInSequence(file: File, stored: seq<Item>, k: nat, error: DownloadError)
    requires k < |stored| && CheckItem(file, k, stored[k]) == Some(error)
    ensures !InSequence(file, stored, 0)
    ensures error.Unreadable? ==> Bad(error.cause) in stored
  {
    assert Check(file)(0 + k, stored[k]).Some?;
  }

  lemma {:induction false} DataAppend(a: seq<Item>, b: seq<Item>)
    ensures Data(a + b) == Data(a) + Data(b)
    decreases |b|
  {
    if b == [] {
      assert a + b == a;
    } else {
      var init, last := b[..|b| - 1], b[|b| - 1];
      DataAppend(a, init);
      assert (a + b)[..|a + b| - 1] == a + init && (a + b)[|a + b| - 1] == last;
      Associative(Data(a), Data(init), Payload(last));
    }
  }

  lemma {:induction false} DataLength(file: File, items: seq<Item>, n: nat)
    requires InSequence(file, items, 0) && n <= |items|
    ensures |Data(items[..n])| == ExpectedSum(file.length, file.size, n)
    decreases n
  {
    if n > 0 {
      DataLength(file, items, n - 1);
      assert items[..n][..n - 1] == items[..n - 1];
      assert Check(file)(0 + (n - 1), items[n - 1]).None?;
    }
  }

  /** A download that ends without an error has delivered as many bytes as the file is long. */
  lemma CompleteMeansWholeFile(file: File, stored: seq<Item>, delivered: Bytes)
    requires Complete(file, stored, delivered) && Pieces(file.length, file.size) <= MAX_UINT32
    ensures |delivered| == file.length
  {
    if file.length > 0 {
      ExpectedLengthsFit(file.length, file.size);
      DataLength(file, stored, |stored|);
      assert stored[..|stored|] == stored;
    }
  }

  lemma {:induction false} DataOfNumbered(pieces: seq<Bytes>, n: nat)
    ensures Data(Items(Numbered(pieces, n))) == Concat(pieces)
    decreases |pieces|
  {
    if pieces != [] {
      DataOfNumbered(pieces[1..], n + 1);
      var first, rest := [Good(Chunk(n, pieces[0]))], Items(Numbered(pieces[1..], n + 1));
      assert Items(Numbered(pieces, n)) == first + rest;
      DataAppend(first, rest);
      assert first[..0] == [] && Data(first) == pieces[0];
    }
  }

  /** What an upload stores is what a download accepts, and it is the file that was uploaded. */
  lemma DownloadGivesBackTheUpload(data: Bytes, size: ChunkSize, delivered: Bytes)
    requires Pieces(|data|, size) <= MAX_UINT32
    ensures InSequence(File(|data|, size), Items(Numbered(Split(data, size), 0)), 0)
    ensures Complete(File(|data|, size), Items(Numbered(Split(data, size), 0)), delivered) <==> delivered == data
  {
    var file, pieces := File(|data|, size), Split(data, size);
    var stored := Items(Numbered(pieces, 0));
    SplitCount(data, size);
    SplitConcat(data, size);
    DataOfNumbered(pieces, 0);
    forall i: nat | i < |stored|
      ensures Check(file)(0 + i, stored[i]).None?
    {
      SplitLengths(data, size, i);
    }
  }
}
