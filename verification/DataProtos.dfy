/** Dispatching a batch: padding to a divisor, chunking, a row-wise computation on every chunk, concatenation and unpadding.
    Tensor and non-tensor columns go through different library routines; rows must stay together. */
module DataProtos {
  import opened Arithmetic
  import opened Options
  import opened Weights
  import opened NumpySplit

  type Column = seq<int>

  // len: rows; tensors are absent if the batch is None.
  datatype DataProto = DataProto(len: nat, hasBatch: bool, tensors: map<string, Column>, others: map<string, Column>)

  // check_consistency: every column has one entry per row.
  ghost predicate Aligned(d: DataProto) {
    && (!d.hasBatch ==> d.tensors == map[])
    && (forall k :: k in d.tensors ==> |d.tensors[k]| == d.len)
    && forall k :: k in d.others ==> |d.others[k]| == d.len
  }

  // ---- Selecting rows: what all the operations amount to ----

  ghost predicate Valid(idx: seq<nat>, n: nat) {
    forall j :: 0 <= j < |idx| ==> idx[j] < n
  }

  function Pick(c: Column, idx: seq<nat>): Column
    requires forall j :: 0 <= j < |idx| ==> idx[j] < |c|
  {
    seq(|idx|, j requires 0 <= j < |idx| => c[idx[j]])
  }

  ghost function Select(d: DataProto, idx: seq<nat>): (r: DataProto)
    requires Aligned(d) && Valid(idx, d.len)
    ensures Aligned(r) && r.len == |idx|
  {
    DataProto(|idx|, d.hasBatch, map k | k in d.tensors :: Pick(d.tensors[k], idx), map k | k in d.others :: Pick(d.others[k], idx))
  }

  function Range(lo: nat, hi: nat): (s: seq<nat>)
    requires lo <= hi
    ensures |s| == hi - lo
  {
    seq(hi - lo, j requires 0 <= j < hi - lo => lo + j)
  }

  lemma SelectAll(d: DataProto)
    requires Aligned(d)
    ensures Valid(Range(0, d.len), d.len) && Select(d, Range(0, d.len)) == d
  {
    var r := Select(d, Range(0, d.len));
    assert forall k :: k in d.tensors ==> r.tensors[k] == d.tensors[k];
    assert forall k :: k in d.others ==> r.others[k] == d.others[k];
    assert r.tensors == d.tensors && r.others == d.others;
  }

  lemma SelectTwice(d: DataProto, a: seq<nat>, b: seq<nat>)
    requires Aligned(d) && Valid(a, d.len) && Valid(b, |a|)
    ensures Valid(Pick(a, b), d.len) && Select(Select(d, a), b) == Select(d, Pick(a, b))
  {
    var l, r := Select(Select(d, a), b), Select(d, Pick(a, b));
    assert forall k :: k in d.tensors ==> l.tensors[k] == r.tensors[k];
    assert forall k :: k in d.others ==> l.others[k] == r.others[k];
    assert l.tensors == r.tensors && l.others == r.others;
  }

  // ---- Operations ----

  // data[lo:hi] with 0 <= lo <= hi <= len(data)
  function Slice(d: DataProto, lo: nat, hi: nat): DataProto
    requires Aligned(d) && lo <= hi <= d.len
  {
    DataProto(hi - lo, d.hasBatch, map k | k in d.tensors :: d.tensors[k][lo..hi], map k | k in d.others :: d.others[k][lo..hi])
  }

  lemma SliceIsSelect(d: DataProto, lo: nat, hi: nat)
    requires Aligned(d) && lo <= hi <= d.len
    ensures Valid(Range(lo, hi), d.len) && Slice(d, lo, hi) == Select(d, Range(lo, hi))
  {
    var l, r := Slice(d, lo, hi), Select(d, Range(lo, hi));
    assert forall k :: k in d.tensors ==> l.tensors[k] == r.tensors[k];
    assert forall k :: k in d.others ==> l.others[k] == r.others[k];
    assert l.tensors == r.tensors && l.others == r.others;
  }

  predicate SameKeys(a: DataProto, b: DataProto) {
    a.hasBatch == b.hasBatch && a.tensors.Keys == b.tensors.Keys && a.others.Keys == b.others.Keys
  }

  function Append(a: DataProto, b: DataProto): DataProto
    requires SameKeys(a, b)
  {
    DataProto(a.len + b.len, a.hasBatch, map k | k in a.tensors :: a.tensors[k] + b.tensors[k],
              map k | k in a.others :: a.others[k] + b.others[k])
  }

  // concat; None where the libraries raise: nothing to concatenate, or columns that do not match.
  function Concat(ds: seq<DataProto>): (r: Option<DataProto>)
    ensures r.Some? ==> ds != [] && SameKeys(r.value, ds[0])
  {
    if ds == [] then None
    else if |ds| == 1 then Some(ds[0])
    else
      var init := Concat(ds[..|ds| - 1]);
      if init == None || !SameKeys(ds[0], ds[|ds| - 1]) then None else Some(Append(init.value, ds[|ds| - 1]))
  }

  lemma PickAppend(c: Column, a: seq<nat>, b: seq<nat>)
    requires Valid(a, |c|) && Valid(b, |c|)
    ensures Valid(a + b, |c|) && Pick(c, a + b) == Pick(c, a) + Pick(c, b)
  {
  }

  lemma AppendSelects(d: DataProto, a: seq<nat>, b: seq<nat>)
    requires Aligned(d) && Valid(a, d.len) && Valid(b, d.len)
    ensures Valid(a + b, d.len) && Append(Select(d, a), Select(d, b)) == Select(d, a + b)
  {
    hide Pick;
    var l, r := Append(Select(d, a), Select(d, b)), Select(d, a + b);
    forall k | k in d.tensors
      ensures l.tensors[k] == r.tensors[k]
    {
      PickAppend(d.tensors[k], a, b);
    }
    forall k | k in d.others
      ensures l.others[k] == r.others[k]
    {
      PickAppend(d.others[k], a, b);
    }
    assert l.tensors == r.tensors && l.others == r.others;
  }

  ghost predicate AllValid(idxs: seq<seq<nat>>, n: nat) {
    forall i :: 0 <= i < |idxs| ==> Valid(idxs[i], n)
  }

  ghost predicate Selections(ds: seq<DataProto>, d: DataProto, idxs: seq<seq<nat>>)
    requires Aligned(d) && AllValid(idxs, d.len)
  {
    |ds| == |idxs| && forall i :: 0 <= i < |ds| ==> ds[i] == Select(d, idxs[i])
  }

  // Concatenating selections of one batch selects by the concatenated indices.
  lemma {:induction false} ConcatSelections(ds: seq<DataProto>, d: DataProto, idxs: seq<seq<nat>>)
    requires Aligned(d) && AllValid(idxs, d.len) && Selections(ds, d, idxs) && ds != []
    ensures Valid(Flatten(idxs), d.len) && Concat(ds) == Some(Select(d, Flatten(idxs)))
  {
    hide Select, Valid, Append, Flatten;
    var n := |ds| - 1;
    if n == 0 {
      FlattenSingle(idxs[0]);
      assert idxs == [idxs[0]];
    } else {
      ConcatSelections(ds[..n], d, idxs[..n]);
      AppendSelects(d, Flatten(idxs[..n]), idxs[n]);
      FlattenAppend(idxs[..n], idxs[n]);
      assert idxs == idxs[..n] + [idxs[n]];
      KeysOfSelect(d, idxs[0], idxs[n]);
    }
  }

  lemma KeysOfSelect(d: DataProto, a: seq<nat>, b: seq<nat>)
    requires Aligned(d) && Valid(a, d.len) && Valid(b, d.len)
    ensures SameKeys(Select(d, a), Select(d, b))
  {
  }

  // ---- Padding ----

  // j mod n for j < total
  function Cycle(n: nat, total: nat): (c: seq<nat>)
    requires n > 0
    ensures |c| == total
  {
    seq(total, j requires 0 <= j < total => j % n)
  }

  // Another run of the first rows, after whole runs.
  lemma CycleNext(n: nat, total: nat, take: nat)
    requires n > 0 && total % n == 0 && take <= n
    ensures Cycle(n, total + take) == Cycle(n, total) + Range(0, take)
  {
    var c, m := Cycle(n, total + take), total / n * n;
    assert total == m;
    forall x | total <= x < |c|
      ensures c[x] == x - total
    {
      AddMultiple(total / n, n, x - m);
    }
  }

  // Row j of a batch padded cyclically is row j mod n, in every column.
  ghost predicate RowsRepeat(d: DataProto, p: DataProto) {
    && p.tensors.Keys == d.tensors.Keys && p.others.Keys == d.others.Keys && d.len > 0
    && (forall k, j :: k in d.tensors && 0 <= j < p.len ==>
          |p.tensors[k]| == p.len && |d.tensors[k]| == d.len && p.tensors[k][j] == d.tensors[k][j % d.len])
    && forall k, j :: k in d.others && 0 <= j < p.len ==>
         |p.others[k]| == p.len && |d.others[k]| == d.len && p.others[k][j] == d.others[k][j % d.len]
  }

  lemma CycledRows(d: DataProto, total: nat)
    requires Aligned(d) && d.len > 0 && Valid(Cycle(d.len, total), d.len)
    ensures RowsRepeat(d, Select(d, Cycle(d.len, total)))
  {
  }

  // The padded batch repeats the rows cyclically up to the next multiple of the divisor; the loop ends for every size.
  method PadDataprotoToDivisor(d: DataProto, divisor: nat) returns (padded: Option<DataProto>, padSize: nat)
    requires Aligned(d) && divisor > 0
    ensures padSize < divisor && (d.len + padSize) % divisor == 0
    ensures d.len == 0 ==> padSize == 0 && padded == Some(d)
    ensures d.len > 0 ==>
              Valid(Cycle(d.len, d.len + padSize), d.len) && padded == Some(Select(d, Cycle(d.len, d.len + padSize)))
    ensures d.len > 0 ==> padded.Some? && padded.value.len == d.len + padSize && RowsRepeat(d, padded.value)
  {
    hide Select, Concat, Cycle, RowsRepeat;
    if d.len % divisor == 0 {
      if d.len > 0 {
        WholeCycle(d);
        CycledRows(d, d.len);
      } else {
        SmallQuotient(0, divisor);
      }
      return Some(d), 0;
    }
    PadSize(d.len, divisor);
    padSize := divisor - d.len % divisor;
    padded := PadBy(d, padSize);
    CycledRows(d, d.len + padSize);
  }

  method PadBy(d: DataProto, padSize: nat) returns (padded: Option<DataProto>)
    requires Aligned(d) && d.len > 0
    ensures Valid(Cycle(d.len, d.len + padSize), d.len) && padded == Some(Select(d, Cycle(d.len, d.len + padSize)))
  {
    hide Select, Concat, Cycle, Slice;
    var parts: seq<DataProto> := [d];
    ghost var idxs := [Range(0, d.len)];
    var remaining: nat := padSize;
    WholeCycle(d);
    SelectAll(d);
    FlattenSingle(Range(0, d.len));
    NextMultiple(0, d.len);
    while remaining > 0
      invariant remaining <= padSize && AllValid(idxs, d.len) && Selections(parts, d, idxs) && parts != []
      invariant Flatten(idxs) == Cycle(d.len, d.len + padSize - remaining)
      invariant remaining > 0 ==> (d.len + padSize - remaining) % d.len == 0
      decreases remaining
    {
      ghost var total := d.len + padSize - remaining;
      var take := if remaining < d.len then remaining else d.len;
      SliceIsSelect(d, 0, take);
      FlattenAppend(idxs, Range(0, take));
      CycleNext(d.len, total, take);
      NextMultiple(total, d.len);
      parts, idxs := AddPart(d, parts, Slice(d, 0, take), idxs, Range(0, take));
      remaining := remaining - take;
    }
    ConcatSelections(parts, d, idxs);
    padded := Concat(parts);
  }

  method AddPart(ghost d: DataProto, parts: seq<DataProto>, part: DataProto, ghost idxs: seq<seq<nat>>, ghost idx: seq<nat>)
    returns (parts': seq<DataProto>, ghost idxs': seq<seq<nat>>)
    requires Aligned(d) && AllValid(idxs, d.len) && Selections(parts, d, idxs) && Valid(idx, d.len) && part == Select(d, idx)
    ensures parts' == parts + [part] && idxs' == idxs + [idx]
    ensures AllValid(idxs', d.len) && Selections(parts', d, idxs')
  {
    hide Select;
    parts', idxs' := parts + [part], idxs + [idx];
  }

  lemma PadSize(n: nat, divisor: nat)
    requires divisor > 0 && n % divisor != 0
    ensures (n + (divisor - n % divisor)) % divisor == 0 && n > 0
  {
    assert n == n / divisor * divisor + n % divisor;
    NextProduct(n / divisor, divisor);
    Bracket(n / divisor + 1, divisor, n + (divisor - n % divisor));
    SmallQuotient(0, divisor);
  }

  lemma NextMultiple(total: nat, n: nat)
    requires n > 0
    ensures total % n == 0 ==> (total + n) % n == 0
    ensures 0 % n == 0
  {
    SmallQuotient(0, n);
    if total % n != 0 {
      return;
    }
    NextProduct(total / n, n);
    Bracket(total / n + 1, n, total + n);
  }

  lemma WholeCycle(d: DataProto)
    requires Aligned(d) && d.len > 0
    ensures Cycle(d.len, d.len) == Range(0, d.len)
    ensures Valid(Cycle(d.len, d.len), d.len) && Select(d, Cycle(d.len, d.len)) == d
  {
    forall j: nat | j < d.len
      ensures j % d.len == j
    {
      SmallQuotient(j, d.len);
    }
    assert Cycle(d.len, d.len) == Range(0, d.len);
    SelectAll(d);
  }

  // data[:-pad_size]
  function Unpad(d: DataProto, padSize: nat): DataProto
    requires Aligned(d) && padSize <= d.len
  {
    if padSize != 0 then Slice(d, 0, d.len - padSize) else d
  }

  // ---- Chunking ----

  // The row counts of torch's chunk: ceil(n / chunks) each, the last smaller, possibly fewer than asked for.
  function TorchSize(n: nat, chunks: nat): nat
    requires chunks > 0
  {
    CeilDiv(n, chunks)
  }

  function TorchCount(n: nat, chunks: nat): nat
    requires chunks > 0 && n > 0
  {
    CeilAtMost(0, n, chunks);
    CeilDiv(n, TorchSize(n, chunks))
  }

  // The least size that n rows fit into the chunks with, and the number of chunks they then need.
  lemma TorchSizeIsLeast(n: nat, chunks: nat, size: nat)
    requires chunks > 0 && n > 0
    ensures TorchSize(n, chunks) <= size <==> n <= size * chunks
    ensures TorchSize(n, chunks) > 0
    ensures forall count: nat :: TorchCount(n, chunks) <= count <==> n <= Mul(count, TorchSize(n, chunks))
  {
    CeilAtMost(size, n, chunks);
    CeilAtMost(0, n, chunks);
    forall count: nat
      ensures TorchCount(n, chunks) <= count <==> n <= Mul(count, TorchSize(n, chunks))
    {
      CeilAtMost(count, n, TorchSize(n, chunks));
    }
  }

  // Rows of the first i torch chunks: np.cumsum of the batch sizes.
  function RowsBefore(n: nat, size: nat, i: nat): nat {
    if i == 0 then 0 else RowsBefore(n, size, i - 1) + TorchRows(n, size, i - 1)
  }

  // Rows of torch chunk i.
  function TorchRows(n: nat, size: nat, i: nat): nat {
    Monotone(0, i, size);
    if i * size > n then 0 else Min(i * size + size, n) - i * size
  }

  lemma {:induction false} RowsBeforeIs(n: nat, size: nat, i: nat)
    ensures 0 <= i * size && RowsBefore(n, size, i) == Min(i * size, n)
  {
    Monotone(0, i, size);
    if i > 0 {
      RowsBeforeIs(n, size, i - 1);
      NextProduct(i - 1, size);
    }
  }

  // np.array_split(val, cumsum[:-1]) ends its last piece at the end of the column.
  function CutEnd(n: nat, size: nat, count: nat, i: nat): nat {
    if i + 1 == count then n else RowsBefore(n, size, i + 1)
  }

  lemma Cuts(n: nat, size: nat, count: nat, i: nat)
    requires i < count && n <= count * size
    ensures RowsBefore(n, size, i) <= CutEnd(n, size, count, i) <= n && 0 <= i * size
    ensures i * size <= n ==> RowsBefore(n, size, i) == i * size && CutEnd(n, size, count, i) == Min(i * size + size, n)
  {
    RowsBeforeIs(n, size, i);
    RowsBeforeIs(n, size, i + 1);
    NextProduct(i, size);
  }

  // Chunk i of a tensor batch: tensors cut by torch, the other columns by np.array_split at the cumulated sizes.
  function ChunkAt(d: DataProto, size: nat, count: nat, i: nat): DataProto
    requires Aligned(d) && i < count && 0 <= i * size <= d.len <= count * size
  {
    Cuts(d.len, size, count, i);
    var lo, hi := i * size, Min(i * size + size, d.len);
    DataProto(hi - lo, d.hasBatch, map k | k in d.tensors :: d.tensors[k][lo..hi],
              map k | k in d.others :: d.others[k][RowsBefore(d.len, size, i)..CutEnd(d.len, size, count, i)])
  }

  // The two libraries cut at the same rows.
  lemma ChunkIsSlice(d: DataProto, size: nat, count: nat, i: nat)
    requires Aligned(d) && i < count && 0 <= i * size <= d.len <= count * size
    ensures ChunkAt(d, size, count, i) == Slice(d, i * size, Min(i * size + size, d.len))
  {
    Cuts(d.len, size, count, i);
  }

  // Chunk i of a batch without tensors: np.array_split into equal parts.
  function SplitAt(d: DataProto, chunks: nat, i: nat): DataProto
    requires Aligned(d) && i < chunks
  {
    SplitBetween(d.len, chunks, i);
    Slice(d, SplitStart(d.len, chunks, i), SplitStart(d.len, chunks, i + 1))
  }

  // Where chunk i starts: torch's equal sizes, or numpy's, whose first chunks have a row more.
  function ChunkStart(d: DataProto, chunks: nat, i: nat): nat
    requires chunks > 0
  {
    Monotone(0, i, TorchSize(d.len, chunks));
    if d.hasBatch then Min(i * TorchSize(d.len, chunks), d.len) else SplitStart(d.len, chunks, i)
  }

  lemma ChunkBounds(d: DataProto, chunks: nat, i: nat)
    requires d.len > 0 && i < chunks && (d.hasBatch ==> TorchCount(d.len, chunks) == chunks)
    ensures ChunkStart(d, chunks, i) <= ChunkStart(d, chunks, i + 1) <= d.len
    ensures ChunkStart(d, chunks, 0) == 0 && ChunkStart(d, chunks, chunks) == d.len
  {
    SplitBetween(d.len, chunks, i);
    SplitEnds(d.len, chunks);
    ChunkStarts(d.len, chunks, 0);
    NextProduct(i, TorchSize(d.len, chunks));
  }

  function ChunkRows(d: DataProto, chunks: nat, k: nat): (idxs: seq<seq<nat>>)
    requires d.len > 0 && k <= chunks && chunks > 0 && (d.hasBatch ==> TorchCount(d.len, chunks) == chunks)
    ensures |idxs| == k
  {
    seq(k, i requires 0 <= i < k =>
      (ChunkBounds(d, chunks, i); Range(ChunkStart(d, chunks, i), ChunkStart(d, chunks, i + 1))))
  }

  lemma {:induction false} ChunkRowsFlatten(d: DataProto, chunks: nat, k: nat)
    requires d.len > 0 && k <= chunks && chunks > 0 && (d.hasBatch ==> TorchCount(d.len, chunks) == chunks)
    ensures AllValid(ChunkRows(d, chunks, k), d.len)
    ensures Flatten(ChunkRows(d, chunks, k)) == Range(0, ChunkStart(d, chunks, k))
  {
    hide ChunkStart, TorchCount, Flatten;
    if k == 0 {
      ChunkBounds(d, chunks, 0);
      NoRows();
    } else {
      ChunkBounds(d, chunks, k - 1);
      ChunkRowsFlatten(d, chunks, k - 1);
      var rows := Range(ChunkStart(d, chunks, k - 1), ChunkStart(d, chunks, k));
      assert ChunkRows(d, chunks, k) == ChunkRows(d, chunks, k - 1) + [rows];
      FlattenAppend(ChunkRows(d, chunks, k - 1), rows);
    }
  }

  lemma NoRows()
    ensures Flatten<nat>([]) == []
  {
  }

  // The chunks are consecutive slices of the batch, tensors and other columns cut at the same rows.
  ghost predicate AreChunks(d: DataProto, chunks: nat, ds: seq<DataProto>)
    requires Aligned(d) && d.len > 0 && chunks > 0 && (d.hasBatch ==> TorchCount(d.len, chunks) == chunks)
  {
    && |ds| == chunks
    && forall i :: 0 <= i < chunks ==> ds[i] == ChunkSlice(d, chunks, i)
  }

  function ChunkSlice(d: DataProto, chunks: nat, i: nat): DataProto
    requires Aligned(d) && d.len > 0 && i < chunks && (d.hasBatch ==> TorchCount(d.len, chunks) == chunks)
  {
    ChunkBounds(d, chunks, i);
    Slice(d, ChunkStart(d, chunks, i), ChunkStart(d, chunks, i + 1))
  }

  // Concatenating the chunks gives the batch back, equal chunks or not.
  lemma ConcatChunks(d: DataProto, chunks: nat, ds: seq<DataProto>)
    requires Aligned(d) && d.len > 0 && chunks > 0 && (d.hasBatch ==> TorchCount(d.len, chunks) == chunks)
    requires AreChunks(d, chunks, ds)
    ensures Concat(ds) == Some(d)
  {
    hide Slice, Select, Concat, ChunkStart, TorchCount, Flatten;
    var idxs := ChunkRows(d, chunks, chunks);
    ChunkRowsFlatten(d, chunks, chunks);
    forall i | 0 <= i < chunks
      ensures ds[i] == Select(d, idxs[i])
    {
      ChunkBounds(d, chunks, i);
      SliceIsSelect(d, ChunkStart(d, chunks, i), ChunkStart(d, chunks, i + 1));
    }
    ConcatSelections(ds, d, idxs);
    ChunkBounds(d, chunks, 0);
    SelectAll(d);
  }

  // None where an assertion fails or a chunk is missing.
  method ChunkProto(d: DataProto, chunks: nat, paddingEnabled: bool) returns (r: Option<seq<DataProto>>)
    requires Aligned(d) && d.len > 0 && chunks > 0
    ensures r.Some? <==> (paddingEnabled || d.len % chunks == 0) && (d.hasBatch ==> TorchCount(d.len, chunks) == chunks)
    ensures r.Some? ==> AreChunks(d, chunks, r.value) && Concat(r.value) == Some(d)
  {
    hide Slice, Concat, TorchCount;
    if !paddingEnabled && d.len % chunks != 0 {
      return None;
    }
    if d.hasBatch && TorchCount(d.len, chunks) != chunks {
      return None;
    }
    var output: seq<DataProto> := [];
    var size := TorchSize(d.len, chunks);
    for i := 0 to chunks
      invariant |output| == i
      invariant forall x :: 0 <= x < i ==> output[x] == ChunkSlice(d, chunks, x)
    {
      ChunkBounds(d, chunks, i);
      if d.hasBatch {
        ChunkStarts(d.len, chunks, i);
        ChunkIsSlice(d, size, chunks, i);
        NextProduct(i, size);
        output := output + [ChunkAt(d, size, chunks, i)];
      } else {
        output := output + [SplitAt(d, chunks, i)];
      }
    }
    ConcatChunks(d, chunks, output);
    r := Some(output);
  }

  // Chunk i when the length divides.
  lemma EqualSlice(d: DataProto, chunks: nat, i: nat)
    requires Aligned(d) && d.len > 0 && i < chunks && d.len % chunks == 0
    ensures TorchCount(d.len, chunks) == chunks
    ensures var q := d.len / chunks;
      0 <= i * q && i * q + q <= d.len && ChunkSlice(d, chunks, i) == Slice(d, i * q, i * q + q)
  {
    hide Slice, TorchCount, CeilDiv;
    EqualChunk(d.len, chunks, i);
    NextProduct(i, d.len / chunks);
  }

  lemma ChunkStarts(n: nat, chunks: nat, i: nat)
    requires n > 0 && chunks > 0 && i < TorchCount(n, chunks)
    ensures 0 <= i * TorchSize(n, chunks) < n <= TorchCount(n, chunks) * TorchSize(n, chunks)
  {
    CeilAtMost(0, n, chunks);
    CeilBracket(n, TorchSize(n, chunks));
    Monotone(0, i, TorchSize(n, chunks));
    CeilAtMost(i, n, TorchSize(n, chunks));
  }

  // When the length divides, both libraries cut at the same places.
  lemma EqualChunk(n: nat, chunks: nat, i: nat)
    requires n > 0 && i < chunks && n % chunks == 0
    ensures var q := n / chunks;
      && q > 0 && TorchSize(n, chunks) == q && TorchCount(n, chunks) == chunks
      && 0 <= i * q && i * q + q <= n && SplitStart(n, chunks, i) == i * q && SplitStart(n, chunks, i + 1) == i * q + q
  {
    var q := n / chunks;
    assert n == q * chunks;
    CeilUnique(q, n, chunks);
    CeilAtMost(0, n, chunks);
    assert q * chunks == chunks * q;
    CeilUnique(chunks, n, q);
    Monotone(0, i, q);
    Monotone(i + 1, chunks, q);
    NextProduct(i, q);
  }

  lemma EqualChunks(d: DataProto, chunks: nat, ds: seq<DataProto>)
    requires Aligned(d) && d.len > 0 && chunks > 0 && d.len % chunks == 0
    requires (d.hasBatch ==> TorchCount(d.len, chunks) == chunks) && AreChunks(d, chunks, ds)
    ensures var q := d.len / chunks;
      forall i :: 0 <= i < chunks ==> 0 <= i * q && i * q + q <= d.len && ds[i] == Slice(d, i * q, i * q + q)
  {
    hide Slice, TorchCount, CeilDiv, ChunkSlice;
    var q := d.len / chunks;
    forall i | 0 <= i < chunks
      ensures 0 <= i * q && i * q + q <= d.len && ds[i] == Slice(d, i * q, i * q + q)
    {
      EqualSlice(d, chunks, i);
    }
  }

  // ---- The dispatch round trip ----

  // A computation on batches that treats every row by itself.
  ghost predicate Rowwise(f: DataProto -> DataProto) {
    && (forall d :: Aligned(d) ==> Aligned(f(d)) && f(d).len == d.len)
    && forall d, idx :: Aligned(d) && Valid(idx, d.len) ==> f(Select(d, idx)) == Select(f(d), idx)
  }

  function Parts(size: nat, chunks: nat): seq<seq<nat>> {
    seq(chunks, i requires 0 <= i < chunks => Piece(i, size))
  }

  function Piece(i: nat, size: nat): seq<nat> {
    Monotone(0, i, size);
    Range(i * size, i * size + size)
  }

  lemma {:induction false} PartsFlatten(size: nat, chunks: nat)
    ensures 0 <= chunks * size && Flatten(Parts(size, chunks)) == Range(0, chunks * size)
  {
    Monotone(0, chunks, size);
    if chunks > 0 {
      PartsFlatten(size, chunks - 1);
      NextProduct(chunks - 1, size);
      assert Parts(size, chunks)[..chunks - 1] == Parts(size, chunks - 1);
    }
  }

  // Pad, chunk, compute on every chunk, concatenate, unpad: the computation on the whole batch.
  method Dispatch(d: DataProto, workers: nat, f: DataProto -> DataProto) returns (r: Option<DataProto>)
    requires Aligned(d) && d.len > 0 && workers > 0 && Rowwise(f)
    ensures r == Some(f(d))
  {
    hide Select, Concat, Slice, Cycle, Rowwise, TorchCount, ChunkSlice;
    var padded, padSize := PadDataprotoToDivisor(d, workers);
    var p := padded.value;
    RowwiseAt(f, d, Cycle(d.len, d.len + padSize));
    EqualChunk(p.len, workers, 0);
    var chunks := ChunkProto(p, workers, false);
    EqualChunks(p, workers, chunks.value);
    WholeParts(p.len, workers);
    var whole := MapChunks(p, chunks.value, workers, p.len / workers, f);
    DispatchEnd(d, f, padSize, p, whole.value);
    r := Some(Unpad(whole.value, padSize));
  }

  lemma WholeParts(n: nat, workers: nat)
    requires workers > 0 && n % workers == 0
    ensures n == workers * (n / workers)
  {
  }

  // Every worker computes on its chunk; the results are concatenated in worker order.
  method MapChunks(ghost p: DataProto, chunks: seq<DataProto>, workers: nat, ghost q: nat, f: DataProto -> DataProto)
    returns (whole: Option<DataProto>)
    requires Aligned(p) && workers > 0 && p.len == workers * q && Rowwise(f) && |chunks| == workers
    requires forall i :: 0 <= i < workers ==>
               0 <= i * q && i * q + q <= p.len && chunks[i] == Slice(p, i * q, i * q + q)
    ensures Aligned(f(p)) && f(p).len == p.len && Valid(Range(0, p.len), p.len)
    ensures whole == Some(Select(f(p), Range(0, p.len)))
  {
    hide Select, Concat, Slice, Rowwise;
    ghost var ids := Parts(q, workers);
    PartsValid(q, workers, p.len);
    SelectAll(p);
    RowwiseAt(f, p, Range(0, p.len));
    var outs: seq<DataProto> := [];
    for i := 0 to workers
      invariant |outs| == i && forall x :: 0 <= x < i ==> outs[x] == Select(f(p), ids[x])
    {
      SliceIsSelect(p, i * q, i * q + q);
      RowwiseAt(f, p, ids[i]);
      outs := outs + [f(chunks[i])];
    }
    ConcatSelections(outs, f(p), ids);
    PartsFlatten(q, workers);
    whole := Concat(outs);
  }

  lemma RowwiseAt(f: DataProto -> DataProto, d: DataProto, idx: seq<nat>)
    requires Rowwise(f) && Aligned(d) && Valid(idx, d.len)
    ensures Aligned(f(d)) && f(d).len == d.len && f(Select(d, idx)) == Select(f(d), idx)
  {
  }

  lemma PartsValid(size: nat, chunks: nat, n: nat)
    requires chunks * size == n
    ensures |Parts(size, chunks)| == chunks && AllValid(Parts(size, chunks), n)
  {
    forall i | 0 <= i < chunks
      ensures Valid(Parts(size, chunks)[i], n)
    {
      Monotone(i + 1, chunks, size);
      NextProduct(i, size);
    }
  }

  lemma DispatchEnd(d: DataProto, f: DataProto -> DataProto, padSize: nat, p: DataProto, whole: DataProto)
    requires Aligned(d) && d.len > 0 && Rowwise(f)
    requires Valid(Cycle(d.len, d.len + padSize), d.len) && p == Select(d, Cycle(d.len, d.len + padSize))
    requires Aligned(f(p)) && f(p).len == p.len == d.len + padSize
    requires Valid(Range(0, p.len), p.len) && whole == Select(f(p), Range(0, p.len))
    ensures Aligned(whole) && whole.len == d.len + padSize && Unpad(whole, padSize) == f(d)
  {
    hide Select, Slice, Rowwise;
    var n := d.len;
    var idx := Cycle(n, n + padSize);
    SelectAll(f(p));
    RowwiseAt(f, d, idx);
    SelectAll(f(d));
    SliceIsSelect(whole, 0, n);
    SelectTwice(f(d), idx, Range(0, n));
    FirstOfCycle(n, padSize);
  }

  lemma FirstOfCycle(n: nat, padSize: nat)
    requires n > 0
    ensures Pick(Cycle(n, n + padSize), Range(0, n)) == Range(0, n)
    ensures padSize == 0 ==> Cycle(n, n + padSize) == Range(0, n)
  {
    var c := Cycle(n, n + padSize);
    forall j | 0 <= j < n
      ensures c[j] == j
    {
      SmallQuotient(j, n);
    }
  }

  // ---- Repeating rows ----

  // repeat_interleave(times), one count per row.
  function RepeatEach(c: Column, times: seq<nat>): Column
    requires |c| == |times|
  {
    if c == [] then []
    else var n := |c| - 1; RepeatEach(c[..n], times[..n]) + seq(times[n], _ => c[n])
  }

  function Sum(times: seq<nat>): nat {
    if times == [] then 0 else Sum(times[..|times| - 1]) + times[|times| - 1]
  }

  // repeat(k, interleave=True): row j of the result is row j div k.
  ghost function Repeat(d: DataProto, k: nat): DataProto
    requires Aligned(d)
  {
    RepeatIndexValid(d.len, k);
    Select(d, RepeatIndex(d.len, k))
  }

  function RepeatIndex(n: nat, k: nat): seq<nat> {
    Monotone(0, n, k);
    if k == 0 then [] else seq(n * k, j requires 0 <= j < n * k => j / k)
  }

  lemma RepeatIndexValid(n: nat, k: nat)
    ensures Valid(RepeatIndex(n, k), n)
  {
    forall j | 0 <= j < |RepeatIndex(n, k)|
      ensures RepeatIndex(n, k)[j] < n
    {
      QuotientBelow(j, n, k);
    }
  }

  function SampleLevelRepeat(d: DataProto, times: seq<nat>): DataProto
    requires Aligned(d) && |times| == d.len
  {
    DataProto(Sum(times), d.hasBatch, map k | k in d.tensors :: RepeatEach(d.tensors[k], times),
              map k | k in d.others :: RepeatEach(d.others[k], times))
  }

  // Element i takes up times[i] places after those of the elements before it.
  lemma {:induction false} RepeatEachAt(c: Column, times: seq<nat>, i: nat, t: nat)
    requires |c| == |times| && i < |c| && t < times[i]
    ensures |RepeatEach(c, times)| == Sum(times) && Sum(times[..i]) + t < Sum(times)
    ensures RepeatEach(c, times)[Sum(times[..i]) + t] == c[i]
  {
    var n := |c| - 1;
    RepeatEachLength(c[..n], times[..n]);
    if i < n {
      RepeatEachAt(c[..n], times[..n], i, t);
      assert times[..n][..i] == times[..i];
    }
  }

  lemma {:induction false} RepeatEachLength(c: Column, times: seq<nat>)
    requires |c| == |times|
    ensures |RepeatEach(c, times)| == Sum(times)
  {
    if c != [] {
      RepeatEachLength(c[..|c| - 1], times[..|c| - 1]);
    }
  }

  lemma {:induction false} RepeatEachConstant(c: Column, k: nat)
    ensures Sum(seq(|c|, _ => k)) == |c| * k
    ensures Valid(RepeatIndex(|c|, k), |c|) && RepeatEach(c, seq(|c|, _ => k)) == Pick(c, RepeatIndex(|c|, k))
  {
    hide RepeatIndex;
    RepeatIndexValid(|c|, k);
    if c == [] {
      NoRepeats(k);
    } else {
      var n := |c| - 1;
      RepeatEachConstant(c[..n], k);
      assert seq(|c|, _ => k)[..n] == seq(n, _ => k);
      NextProduct(n, k);
      RepeatNext(n, k);
      RepeatIndexValid(n, k);
      PickAppend(c, RepeatIndex(n, k), seq(k, _ => n));
      assert Pick(c, seq(k, _ => n)) == seq(k, _ => c[n]);
      assert Pick(c[..n], RepeatIndex(n, k)) == Pick(c, RepeatIndex(n, k));
    }
  }

  lemma NoRepeats(k: nat)
    ensures RepeatIndex(0, k) == []
  {
  }

  lemma RepeatNext(n: nat, k: nat)
    ensures RepeatIndex(n + 1, k) == RepeatIndex(n, k) + seq(k, _ => n)
  {
    if k > 0 {
      NextProduct(n, k);
      Monotone(0, n, k);
      var a := RepeatIndex(n + 1, k);
      forall j | n * k <= j < |a|
        ensures a[j] == n
      {
        AddMultiple(n, k, j - n * k);
      }
    }
  }

  // Repeating every sample the same number of times is the interleaved repeat.
  lemma ConstantSampleLevelRepeat(d: DataProto, k: nat)
    requires Aligned(d)
    ensures SampleLevelRepeat(d, seq(d.len, _ => k)) == Repeat(d, k)
  {
    var times := seq(d.len, _ => k);
    var l, r := SampleLevelRepeat(d, times), Repeat(d, k);
    RepeatIndexValid(d.len, k);
    RepeatEachConstant(seq(d.len, _ => 0), k);
    forall x | x in d.tensors
      ensures l.tensors[x] == r.tensors[x]
    {
      RepeatEachConstant(d.tensors[x], k);
    }
    forall x | x in d.others
      ensures l.others[x] == r.others[x]
    {
      RepeatEachConstant(d.others[x], k);
    }
    RepeatLength(d.len, k);
    assert l.tensors == r.tensors && l.others == r.others;
  }

  lemma RepeatLength(n: nat, k: nat)
    ensures |RepeatIndex(n, k)| == n * k
  {
  }
}
