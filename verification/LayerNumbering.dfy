/** How the mergers number the layers of consecutive model chunks, and which output file each key goes to. */
module LayerNumbering {
  import opened Arithmetic
  import opened NumpySplit
  import opened Weights

  // ---- Renumbering ----

  // The largest local layer number in a chunk, zero if it has no layers.
  function Handled(chunk: seq<nat>): nat {
    if chunk == [] then 0
    else
      var h := Handled(chunk[..|chunk| - 1]);
      if chunk[|chunk| - 1] > h then chunk[|chunk| - 1] else h
  }

  // layers_cum before chunk k.
  function LayersBefore(chunks: seq<seq<nat>>, start: nat, k: nat): nat
    requires k <= |chunks|
  {
    if k == 0 then start else LayersBefore(chunks, start, k - 1) + Handled(chunks[k - 1]) + 1
  }

  function Renumbered(chunk: seq<nat>, base: nat): seq<nat> {
    seq(|chunk|, j requires 0 <= j < |chunk| => base + chunk[j])
  }

  // The layer numbers of all keys of all chunks.
  function Merged(chunks: seq<seq<nat>>, start: nat): seq<seq<nat>> {
    seq(|chunks|, k requires 0 <= k < |chunks| => Renumbered(chunks[k], LayersBefore(chunks, start, k)))
  }

  // The loop over one chunk's keys, in dict order.
  method MergeChunk(chunk: seq<nat>, layersCum: nat) returns (row: seq<nat>, layersHandled: nat)
    ensures row == Renumbered(chunk, layersCum) && layersHandled == Handled(chunk)
    ensures |row| == |chunk| && forall j :: 0 <= j < |chunk| ==> row[j] == layersCum + chunk[j]
    ensures (forall j :: 0 <= j < |chunk| ==> chunk[j] <= layersHandled) && (layersHandled == 0 || layersHandled in chunk)
  {
    hide Handled, Renumbered;
    layersHandled, row := 0, [];
    HandledNext([], 0, layersCum);
    for j := 0 to |chunk|
      invariant layersHandled == Handled(chunk[..j]) && row == Renumbered(chunk[..j], layersCum)
    {
      HandledNext(chunk[..j], chunk[j], layersCum);
      assert chunk[..j + 1] == chunk[..j] + [chunk[j]];
      if chunk[j] > layersHandled {
        layersHandled := chunk[j];
      }
      row := row + [layersCum + chunk[j]];
    }
    assert chunk[..|chunk|] == chunk;
    RenumberedAt(chunk, layersCum);
    HandledIsMax(chunk);
    HandledNext([], 0, layersCum);
    assert forall j :: 0 <= j < |chunk| ==> chunk[j] in chunk;
  }

  lemma RenumberedAt(chunk: seq<nat>, base: nat)
    ensures |Renumbered(chunk, base)| == |chunk| && forall j :: 0 <= j < |chunk| ==> Renumbered(chunk, base)[j] == base + chunk[j]
  {
  }

  // _merge_state_dicts on the layer number of every key: chunks in merge order.
  method MergeStateDicts(chunks: seq<seq<nat>>, start: nat) returns (out: seq<seq<nat>>)
    ensures out == Merged(chunks, start)
    ensures |out| == |chunks| && forall k :: 0 <= k < |chunks| ==> |out[k]| == |chunks[k]|
    ensures forall k, j :: 0 <= k < |chunks| && 0 <= j < |chunks[k]| ==> out[k][j] == LayersBefore(chunks, start, k) + chunks[k][j]
  {
    hide Handled, Renumbered, LayersBefore;
    out := [];
    var layersCum := start;
    NoneBefore(chunks, start);
    for k := 0 to |chunks|
      invariant |out| == k && layersCum == LayersBefore(chunks, start, k)
      invariant forall x :: 0 <= x < k ==> out[x] == Renumbered(chunks[x], LayersBefore(chunks, start, x))
    {
      var row, layersHandled := MergeChunk(chunks[k], layersCum);
      NextChunk(chunks, start, k);
      out := out + [row];
      layersCum := layersCum + layersHandled + 1;
    }
    forall k | 0 <= k < |chunks|
      ensures |out[k]| == |chunks[k]|
      ensures forall j :: 0 <= j < |chunks[k]| ==> out[k][j] == LayersBefore(chunks, start, k) + chunks[k][j]
    {
      RenumberedAt(chunks[k], LayersBefore(chunks, start, k));
    }
  }

  lemma NoneBefore(chunks: seq<seq<nat>>, start: nat)
    ensures LayersBefore(chunks, start, 0) == start
  {
  }

  lemma NextChunk(chunks: seq<seq<nat>>, start: nat, k: nat)
    requires k < |chunks|
    ensures LayersBefore(chunks, start, k + 1) == LayersBefore(chunks, start, k) + Handled(chunks[k]) + 1
  {
  }

  lemma HandledNext(chunk: seq<nat>, x: nat, base: nat)
    ensures Handled([]) == 0 && Renumbered([], base) == []
    ensures Handled(chunk + [x]) == if x > Handled(chunk) then x else Handled(chunk)
    ensures Renumbered(chunk + [x], base) == Renumbered(chunk, base) + [base + x]
  {
    assert (chunk + [x])[..|chunk|] == chunk;
  }

  // Chunk k holds exactly the layers 0 .. ns[k]-1, each under at least one key.
  ghost predicate Dense(chunks: seq<seq<nat>>, ns: seq<nat>) {
    |chunks| == |ns| && forall k :: 0 <= k < |ns| ==> Covers(chunks[k], ns[k])
  }

  ghost predicate Covers(chunk: seq<nat>, n: nat) {
    forall x: nat :: x in chunk <==> x < n
  }

  lemma {:induction false} HandledIsMax(chunk: seq<nat>)
    ensures forall x :: x in chunk ==> x <= Handled(chunk)
    ensures chunk != [] ==> Handled(chunk) in chunk
  {
    if chunk != [] {
      var n := |chunk| - 1;
      HandledIsMax(chunk[..n]);
      assert chunk == chunk[..n] + [chunk[n]];
      if n == 0 {
        assert chunk[..0] == [];
      }
    }
  }

  lemma CoversSome(chunk: seq<nat>, n: nat)
    requires Covers(chunk, n) && chunk != []
    ensures n > 0
  {
    assert chunk[0] in chunk;
  }

  lemma HandledOfCover(chunk: seq<nat>, n: nat)
    requires Covers(chunk, n)
    ensures Handled(chunk) + 1 == if n == 0 then 1 else n
  {
    HandledIsMax(chunk);
    if n > 0 {
      assert n - 1 in chunk;
    }
    if chunk != [] {
      CoversSome(chunk, n);
    }
  }

  function Before(ns: seq<nat>, k: nat): nat
    requires k <= |ns|
  {
    if k == 0 then 0 else Before(ns, k - 1) + ns[k - 1]
  }

  // What layers_cum advances by: an empty chunk counts as one layer.
  function Advance(ns: seq<nat>, k: nat): nat
    requires k <= |ns|
  {
    if k == 0 then 0 else Advance(ns, k - 1) + if ns[k - 1] == 0 then 1 else ns[k - 1]
  }

  lemma {:induction false} LayersBeforeIs(chunks: seq<seq<nat>>, ns: seq<nat>, start: nat, k: nat)
    requires Dense(chunks, ns) && k <= |ns|
    ensures LayersBefore(chunks, start, k) == start + Advance(ns, k)
  {
    if k > 0 {
      LayersBeforeIs(chunks, ns, start, k - 1);
      HandledOfCover(chunks[k - 1], ns[k - 1]);
    }
  }

  lemma {:induction false} AdvanceGrows(ns: seq<nat>, j: nat, k: nat)
    requires j < k <= |ns|
    ensures Advance(ns, j) + (if ns[j] == 0 then 1 else ns[j]) <= Advance(ns, k)
  {
    if j < k - 1 {
      AdvanceGrows(ns, j, k - 1);
    }
  }

  // Layer l of chunk k is the g-th to be numbered.
  ghost predicate Gets(ns: seq<nat>, k: nat, l: nat, g: nat) {
    k < |ns| && l < ns[k] && g == Advance(ns, k) + l
  }

  ghost predicate Numbered(ns: seq<nat>, g: nat) {
    exists k, l :: Gets(ns, k, l, g)
  }

  ghost predicate NoGaps(ns: seq<nat>) {
    forall g: nat :: g < Before(ns, |ns|) ==> Numbered(ns, g)
  }

  ghost predicate EmptyOnlyAtEnd(ns: seq<nat>) {
    forall j, k :: 0 <= j < k < |ns| && ns[k] > 0 ==> ns[j] > 0
  }

  lemma {:induction false} AdvanceIsBefore(ns: seq<nat>, k: nat)
    requires k <= |ns| && forall j :: 0 <= j < k ==> ns[j] > 0
    ensures Advance(ns, k) == Before(ns, k)
  {
    if k > 0 {
      AdvanceIsBefore(ns, k - 1);
    }
  }

  lemma {:induction false} BeforeGrows(ns: seq<nat>, j: nat, k: nat)
    requires j < k <= |ns|
    ensures Before(ns, j) + ns[j] <= Before(ns, k)
  {
    if j < k - 1 {
      BeforeGrows(ns, j, k - 1);
    }
  }

  // The chunk a position falls into.
  lemma {:induction false} Locate(ns: seq<nat>, n: nat, g: nat) returns (k: nat)
    requires n <= |ns| && g < Before(ns, n)
    ensures k < n && Before(ns, k) <= g < Before(ns, k) + ns[k]
  {
    if g >= Before(ns, n - 1) {
      k := n - 1;
    } else {
      k := Locate(ns, n - 1, g);
    }
  }

  lemma SkippedNumber(ns: seq<nat>, j: nat, k: nat)
    requires j < k < |ns| && ns[j] == 0 && ns[k] > 0 && forall i :: 0 <= i < j ==> ns[i] > 0
    ensures !NoGaps(ns)
  {
    var g := Advance(ns, j);
    AdvanceIsBefore(ns, j);
    BeforeGrows(ns, k, |ns|);
    if j < k {
      BeforeGrows(ns, j, k);
    }
    if Numbered(ns, g) {
      var i: nat, l: nat :| Gets(ns, i, l, g);
      if i < j {
        AdvanceGrows(ns, i, j);
      } else if j < i {
        AdvanceGrows(ns, j, i);
      }
    }
  }

  lemma FirstEmpty(ns: seq<nat>, j: nat) returns (first: nat)
    requires j < |ns| && ns[j] == 0
    ensures first <= j && ns[first] == 0 && forall i :: 0 <= i < first ==> ns[i] > 0
  {
    first := 0;
    while ns[first] > 0
      invariant first <= j && forall i :: 0 <= i < first ==> ns[i] > 0
      decreases j - first
    {
      first := first + 1;
    }
  }

  lemma NoGapsIff(ns: seq<nat>)
    ensures NoGaps(ns) <==> EmptyOnlyAtEnd(ns)
  {
    if EmptyOnlyAtEnd(ns) {
      forall g: nat | g < Before(ns, |ns|)
        ensures Numbered(ns, g)
      {
        var k := Locate(ns, |ns|, g);
        AdvanceIsBefore(ns, k);
        assert Gets(ns, k, g - Before(ns, k), g);
      }
    } else {
      var j, k :| 0 <= j < k < |ns| && ns[k] > 0 && ns[j] == 0;
      var first := FirstEmpty(ns, j);
      SkippedNumber(ns, first, k);
    }
  }

  lemma NumberedInRange(ns: seq<nat>, g: nat)
    requires EmptyOnlyAtEnd(ns) && Numbered(ns, g)
    ensures g < Before(ns, |ns|)
  {
    var k: nat, l: nat :| Gets(ns, k, l, g);
    AdvanceIsBefore(ns, k);
    BeforeGrows(ns, k, |ns|);
  }

  // ---- The numbers that the merge gives ----

  // Key j of chunk k gets number g.
  ghost predicate Given(out: seq<seq<nat>>, k: nat, j: nat, g: nat) {
    k < |out| && j < |out[k]| && out[k][j] == g
  }

  ghost predicate Occurs(out: seq<seq<nat>>, g: nat) {
    exists k, j :: Given(out, k, j, g)
  }

  lemma {:induction false} LayersBeforeGrows(chunks: seq<seq<nat>>, start: nat, j: nat, k: nat)
    requires j < k <= |chunks|
    ensures LayersBefore(chunks, start, j) + Handled(chunks[j]) < LayersBefore(chunks, start, k)
  {
    if j < k - 1 {
      LayersBeforeGrows(chunks, start, j, k - 1);
    }
  }

  // Two keys get one number exactly when they name one layer of one chunk, whatever layers the chunks have; otherwise the
  // numbers are in the order of the chunks, and of the layers within a chunk.
  lemma NumbersAreUnique(chunks: seq<seq<nat>>, start: nat, k: nat, j: nat, k': nat, j': nat)
    requires k < |chunks| && j < |chunks[k]| && k' < |chunks| && j' < |chunks[k']|
    ensures var out := Merged(chunks, start);
      && (out[k][j] == out[k'][j'] <==> k == k' && chunks[k][j] == chunks[k'][j'])
      && (out[k][j] < out[k'][j'] <==> k < k' || (k == k' && chunks[k][j] < chunks[k'][j']))
  {
    HandledIsMax(chunks[k]);
    HandledIsMax(chunks[k']);
    assert chunks[k][j] in chunks[k] && chunks[k'][j'] in chunks[k'];
    if k < k' {
      LayersBeforeGrows(chunks, start, k, k');
    } else if k' < k {
      LayersBeforeGrows(chunks, start, k', k);
    }
  }

  lemma OccursIff(chunks: seq<seq<nat>>, ns: seq<nat>, start: nat, g: nat)
    requires Dense(chunks, ns)
    ensures Occurs(Merged(chunks, start), g) <==> g >= start && Numbered(ns, g - start)
  {
    hide LayersBefore, Advance, Handled;
    var out := Merged(chunks, start);
    if Occurs(out, g) {
      var k: nat, j: nat :| Given(out, k, j, g);
      LayersBeforeIs(chunks, ns, start, k);
      assert chunks[k][j] in chunks[k];
      assert Gets(ns, k, chunks[k][j], g - start);
    }
    if g >= start && Numbered(ns, g - start) {
      var k: nat, l: nat :| Gets(ns, k, l, g - start);
      LayersBeforeIs(chunks, ns, start, k);
      assert l in chunks[k];
      var j :| 0 <= j < |chunks[k]| && chunks[k][j] == l;
      assert Given(out, k, j, g);
    }
  }

  // The numbers given are start .. start+L-1.
  ghost predicate Consecutive(out: seq<seq<nat>>, start: nat, layers: nat) {
    forall g: nat :: Occurs(out, g) <==> start <= g < start + layers
  }

  // The numbers given are exactly the L from the start on if and only if no chunk without layers precedes one with layers.
  lemma ConsecutiveIff(chunks: seq<seq<nat>>, ns: seq<nat>, start: nat)
    requires Dense(chunks, ns)
    ensures Consecutive(Merged(chunks, start), start, Before(ns, |ns|)) <==> EmptyOnlyAtEnd(ns)
  {
    hide Before, Merged, Occurs, Dense, EmptyOnlyAtEnd, Numbered;
    var out, layers := Merged(chunks, start), Before(ns, |ns|);
    NoGapsIff(ns);
    if EmptyOnlyAtEnd(ns) {
      forall g: nat
        ensures Occurs(out, g) <==> start <= g < start + layers
      {
        OccursIff(chunks, ns, start, g);
        if g >= start && Numbered(ns, g - start) {
          NumberedInRange(ns, g - start);
        }
      }
    } else {
      var g: nat :| g < layers && !Numbered(ns, g);
      OccursIff(chunks, ns, start, start + g);
    }
  }

  // ---- One merge per rank ----

  // Rank r holds chunks with nss[r] layers, shards[r] in all.
  ghost predicate Held(ranks: seq<seq<seq<nat>>>, nss: seq<seq<nat>>, shards: seq<nat>) {
    && |ranks| == |nss| == |shards|
    && forall r :: 0 <= r < |ranks| ==> Dense(ranks[r], nss[r]) && Before(nss[r], |nss[r]|) == shards[r]
  }

  // Rank r numbers its layers from the count of layers on the ranks before it.
  function RankNumbers(ranks: seq<seq<seq<nat>>>, shards: seq<nat>, r: nat): seq<seq<nat>>
    requires r < |ranks| == |shards|
  {
    Merged(ranks[r], Before(shards, r))
  }

  ghost predicate OnRank(ranks: seq<seq<seq<nat>>>, shards: seq<nat>, r: nat, g: nat)
    requires |ranks| == |shards|
  {
    r < |ranks| && Occurs(RankNumbers(ranks, shards, r), g)
  }

  ghost predicate OnSomeRank(ranks: seq<seq<seq<nat>>>, shards: seq<nat>, g: nat)
    requires |ranks| == |shards|
  {
    exists r: nat :: OnRank(ranks, shards, r, g)
  }

  // Exactly the numbers 0 .. L-1 are given, each by one rank only.
  ghost predicate Bijective(ranks: seq<seq<seq<nat>>>, shards: seq<nat>)
    requires |ranks| == |shards|
  {
    && (forall g: nat :: OnSomeRank(ranks, shards, g) <==> g < Before(shards, |shards|))
    && (forall r: nat, r': nat, g: nat :: OnRank(ranks, shards, r, g) && OnRank(ranks, shards, r', g) ==> r == r')
  }

  lemma OnRankRange(ranks: seq<seq<seq<nat>>>, nss: seq<seq<nat>>, shards: seq<nat>, r: nat, g: nat)
    requires Held(ranks, nss, shards) && r < |ranks| && EmptyOnlyAtEnd(nss[r])
    ensures OnRank(ranks, shards, r, g) <==> Before(shards, r) <= g < Before(shards, r) + shards[r]
  {
    hide Before, Merged, Occurs, Dense, EmptyOnlyAtEnd;
    ConsecutiveIff(ranks[r], nss[r], Before(shards, r));
  }

  // Layers of an earlier rank get smaller numbers.
  lemma RanksInOrder(ranks: seq<seq<seq<nat>>>, nss: seq<seq<nat>>, shards: seq<nat>, r: nat, r': nat, g: nat, g': nat)
    requires Held(ranks, nss, shards) && r < r' < |ranks| && EmptyOnlyAtEnd(nss[r]) && EmptyOnlyAtEnd(nss[r'])
    requires OnRank(ranks, shards, r, g) && OnRank(ranks, shards, r', g')
    ensures g < g'
  {
    hide OnRank, EmptyOnlyAtEnd, Dense, Before;
    OnRankRange(ranks, nss, shards, r, g);
    OnRankRange(ranks, nss, shards, r', g');
    BeforeGrows(shards, r, r');
  }

  lemma RanksBijective(ranks: seq<seq<seq<nat>>>, nss: seq<seq<nat>>, shards: seq<nat>)
    requires Held(ranks, nss, shards) && forall r :: 0 <= r < |ranks| ==> EmptyOnlyAtEnd(nss[r])
    ensures Bijective(ranks, shards)
  {
    hide Before, OnRank, Held, EmptyOnlyAtEnd;
    assert |ranks| == |nss| == |shards| by { HeldLengths(ranks, nss, shards); }
    forall r: nat, g: nat | OnRank(ranks, shards, r, g)
      ensures r < |ranks| && Before(shards, r) <= g < Before(shards, r) + shards[r] <= Before(shards, |shards|)
    {
      RankInRange(ranks, shards, r, g);
      OnRankRange(ranks, nss, shards, r, g);
      BeforeGrows(shards, r, |shards|);
    }
    forall g: nat
      ensures OnSomeRank(ranks, shards, g) <==> g < Before(shards, |shards|)
    {
      if g < Before(shards, |shards|) {
        var r := Locate(shards, |shards|, g);
        OnRankRange(ranks, nss, shards, r, g);
      }
    }
    forall r: nat, r': nat, g: nat | OnRank(ranks, shards, r, g) && OnRank(ranks, shards, r', g)
      ensures r == r'
    {
      if r < r' {
        BeforeGrows(shards, r, r');
      } else if r' < r {
        BeforeGrows(shards, r', r);
      }
    }
  }

  lemma HeldLengths(ranks: seq<seq<seq<nat>>>, nss: seq<seq<nat>>, shards: seq<nat>)
    requires Held(ranks, nss, shards)
    ensures |ranks| == |nss| == |shards|
  {
  }

  lemma RankInRange(ranks: seq<seq<seq<nat>>>, shards: seq<nat>, r: nat, g: nat)
    requires |ranks| == |shards| && OnRank(ranks, shards, r, g)
    ensures r < |ranks|
  {
  }

  lemma FirstGappy(nss: seq<seq<nat>>, r: nat) returns (first: nat)
    requires r < |nss| && !EmptyOnlyAtEnd(nss[r])
    ensures first <= r && !EmptyOnlyAtEnd(nss[first]) && forall i :: 0 <= i < first ==> EmptyOnlyAtEnd(nss[i])
  {
    hide EmptyOnlyAtEnd;
    if i :| 0 <= i < r && !EmptyOnlyAtEnd(nss[i]) {
      first := FirstGappy(nss, i);
    } else {
      first := r;
    }
  }

  // A number skipped on the first rank with a gap is given by no rank.
  lemma SkippedOnAll(ranks: seq<seq<seq<nat>>>, nss: seq<seq<nat>>, shards: seq<nat>, r: nat)
    requires Held(ranks, nss, shards) && r < |ranks| && !EmptyOnlyAtEnd(nss[r])
    requires forall i :: 0 <= i < r ==> EmptyOnlyAtEnd(nss[i])
    ensures !Bijective(ranks, shards)
  {
    hide Before, EmptyOnlyAtEnd, Dense, Merged, Occurs, Numbered;
    NoGapsIff(nss[r]);
    var d: nat :| d < shards[r] && !Numbered(nss[r], d);
    var g := Before(shards, r) + d;
    BeforeGrows(shards, r, |shards|);
    forall i: nat | OnRank(ranks, shards, i, g)
      ensures false
    {
      OccursIff(ranks[i], nss[i], Before(shards, i), g);
      if i < r {
        OnRankRange(ranks, nss, shards, i, g);
        BeforeGrows(shards, i, r);
      } else if r < i {
        BeforeGrows(shards, r, i);
      }
    }
    assert !OnSomeRank(ranks, shards, g);
  }

  // Over all ranks the numbering is a bijection onto 0 .. L-1 if and only if on no rank a chunk without layers precedes
  // one with layers.
  lemma BijectiveIff(ranks: seq<seq<seq<nat>>>, nss: seq<seq<nat>>, shards: seq<nat>)
    requires Held(ranks, nss, shards)
    ensures Bijective(ranks, shards) <==> forall r :: 0 <= r < |ranks| ==> EmptyOnlyAtEnd(nss[r])
  {
    hide Bijective, EmptyOnlyAtEnd, Before, Dense;
    if forall r :: 0 <= r < |ranks| ==> EmptyOnlyAtEnd(nss[r]) {
      RanksBijective(ranks, nss, shards);
    } else {
      var r :| 0 <= r < |ranks| && !EmptyOnlyAtEnd(nss[r]);
      var first := FirstGappy(nss, r);
      SkippedOnAll(ranks, nss, shards, first);
    }
  }

  // ---- Output files ----

  type Key = string

  // Files of a rank: its layers times the files per layer.
  function FileCounts(shards: seq<nat>, perLayer: nat): seq<nat> {
    seq(|shards|, r requires 0 <= r < |shards| => FileCount(shards[r], perLayer))
  }

  function FileCount(layers: nat, perLayer: nat): nat {
    Monotone(0, layers, perLayer);
    layers * perLayer
  }

  lemma {:induction false} FilesBefore(shards: seq<nat>, perLayer: nat, r: nat)
    requires r <= |shards|
    ensures Before(FileCounts(shards, perLayer), r) == Before(shards, r) * perLayer
  {
    if r > 0 {
      FilesBefore(shards, perLayer, r - 1);
      Distribute(Before(shards, r - 1), shards[r - 1], perLayer);
    }
  }

  // File i of rank r has save index idx.
  ghost predicate Saves(shards: seq<nat>, perLayer: nat, r: nat, i: nat, idx: int) {
    r < |shards| && i < FileCount(shards[r], perLayer) && idx == Before(shards, r) * perLayer + i
  }

  // Over all ranks the save indices are exactly 0 .. saves_total - 1, each used once.
  lemma SaveIndicesAreAll(shards: seq<nat>, perLayer: nat, idx: nat) returns (r: nat, i: nat)
    requires idx < Before(shards, |shards|) * perLayer
    ensures Saves(shards, perLayer, r, i, idx)
  {
    var ns := FileCounts(shards, perLayer);
    FilesBefore(shards, perLayer, |shards|);
    r := Locate(ns, |ns|, idx);
    FilesBefore(shards, perLayer, r);
    i := idx - Before(ns, r);
  }

  lemma SaveIndicesAreUnique(shards: seq<nat>, perLayer: nat, r: nat, i: nat, r': nat, i': nat, idx: int)
    requires Saves(shards, perLayer, r, i, idx) && Saves(shards, perLayer, r', i', idx)
    ensures r == r' && i == i' && 0 <= idx < Before(shards, |shards|) * perLayer
  {
    var ns := FileCounts(shards, perLayer);
    FilesBefore(shards, perLayer, r);
    FilesBefore(shards, perLayer, r');
    FilesBefore(shards, perLayer, |shards|);
    BeforeGrows(ns, r, |ns|);
    if r' < r {
      BeforeGrows(ns, r', r);
    } else if r < r' {
      BeforeGrows(ns, r, r');
    }
  }

  // The chunks of one rank's keys.
  function KeyChunks(keys: seq<Key>, layers: nat, perLayer: nat): seq<seq<Key>>
    requires FileCount(layers, perLayer) > 0
  {
    ArraySplit(keys, FileCount(layers, perLayer))
  }

  // The loop of one rank over its chunks: the file of every key, and the file indices used.
  method SaveRank(keys: seq<Key>, layers: nat, layerStart: nat, perLayer: nat)
    returns (saved: map<Key, nat>, files: seq<nat>)
    requires FileCount(layers, perLayer) > 0 && forall i, j :: 0 <= i < j < |keys| ==> keys[i] != keys[j]
    ensures 0 <= layerStart * perLayer
    ensures |files| == FileCount(layers, perLayer) && forall i :: 0 <= i < |files| ==> files[i] == layerStart * perLayer + i
    ensures forall k :: k in saved <==> k in keys
    ensures forall i, k :: 0 <= i < |files| && k in KeyChunks(keys, layers, perLayer)[i] ==> k in saved && saved[k] == files[i]
  {
    Monotone(0, layerStart, perLayer);
    var chunks := KeyChunks(keys, layers, perLayer);
    saved, files := map[], [];
    for i := 0 to |chunks|
      invariant |files| == i && forall x :: 0 <= x < i ==> files[x] == layerStart * perLayer + x
      invariant forall k :: k in saved <==> exists x :: 0 <= x < i && k in chunks[x]
      invariant forall x, k :: 0 <= x < i && k in chunks[x] ==> saved[k] == files[x]
    {
      var idx := layerStart * perLayer + i;
      files := files + [idx];
      forall x, k | 0 <= x < i && k in chunks[x]
        ensures k !in chunks[i]
      {
        ChunksDisjoint(keys, FileCount(layers, perLayer), x, i, k);
      }
      saved := map k | k in saved.Keys + (set x | x in chunks[i]) :: if k in chunks[i] then idx else saved[k];
    }
    forall k: Key
      ensures k in keys <==> exists x :: 0 <= x < |chunks| && k in chunks[x]
    {
      ChunkOfKey(keys, FileCount(layers, perLayer), k);
    }
  }

  lemma ChunkAt(keys: seq<Key>, parts: nat, x: nat, a: nat)
    requires parts > 0 && x < parts && a < |ArraySplit(keys, parts)[x]|
    ensures SplitStart(|keys|, parts, x) + a < SplitStart(|keys|, parts, x + 1) <= |keys|
    ensures keys[SplitStart(|keys|, parts, x) + a] == ArraySplit(keys, parts)[x][a]
  {
    SplitBetween(|keys|, parts, x);
  }

  lemma ChunksDisjoint(keys: seq<Key>, parts: nat, x: nat, y: nat, k: Key)
    requires parts > 0 && x < y < parts && forall i, j :: 0 <= i < j < |keys| ==> keys[i] != keys[j]
    requires k in ArraySplit(keys, parts)[x]
    ensures k !in ArraySplit(keys, parts)[y]
  {
    hide ArraySplit, SplitStart;
    SplitMonotone(|keys|, parts, x + 1, y);
    var a :| 0 <= a < |ArraySplit(keys, parts)[x]| && ArraySplit(keys, parts)[x][a] == k;
    if b :| 0 <= b < |ArraySplit(keys, parts)[y]| && ArraySplit(keys, parts)[y][b] == k {
      ChunkAt(keys, parts, x, a);
      ChunkAt(keys, parts, y, b);
    }
  }

  lemma {:induction false} SplitMonotone(len: nat, parts: nat, x: nat, y: nat)
    requires x <= y <= parts && parts > 0
    ensures SplitStart(len, parts, x) <= SplitStart(len, parts, y)
  {
    if x < y {
      SplitMonotone(len, parts, x, y - 1);
      SplitBetween(len, parts, y - 1);
    }
  }

  lemma {:induction false} MemberOfFlatten(ss: seq<seq<Key>>, k: Key)
    ensures k in Flatten(ss) <==> exists x :: 0 <= x < |ss| && k in ss[x]
  {
    if ss != [] {
      MemberOfFlatten(ss[..|ss| - 1], k);
    }
  }

  lemma ChunkOfKey(keys: seq<Key>, parts: nat, k: Key)
    requires parts > 0
    ensures k in keys <==> exists x :: 0 <= x < parts && k in ArraySplit(keys, parts)[x]
  {
    ArraySplitFlattens(keys, parts);
    MemberOfFlatten(ArraySplit(keys, parts), k);
  }
}
