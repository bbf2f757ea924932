/** The interleaved attention weight of Megatron, as built by the converter and taken apart by the two mergers.
    A tensor is the sequence of its rows; rows are opaque. */
module QkvLayout {
  import opened Arithmetic
  import opened TorchChunks
  import opened Options
  import opened Weights

  // ---- The interleaved layout ----

  // torch.cat([q, k, v], dim=1) of the grouped views: per group its query rows, its key rows and its value rows.
  function Group<A>(q: seq<A>, k: seq<A>, v: seq<A>, i: nat, qs: nat, ks: nat): seq<A>
    requires Mul(i, qs) + qs <= |q| && Mul(i, ks) + ks <= |k| && Mul(i, ks) + ks <= |v|
  {
    Block(q, i, qs) + Block(k, i, ks) + Block(v, i, ks)
  }

  function GroupsOf<A>(q: seq<A>, k: seq<A>, v: seq<A>, groups: nat, qs: nat, ks: nat): (gs: seq<seq<A>>)
    requires |q| == Mul(groups, qs) && |k| == |v| == Mul(groups, ks)
    ensures |gs| == groups
  {
    seq(groups, i requires 0 <= i < groups =>
      (BlockInside(i, groups, qs); BlockInside(i, groups, ks); Group(q, k, v, i, qs, ks)))
  }

  function Interleave<A>(q: seq<A>, k: seq<A>, v: seq<A>, groups: nat, qs: nat, ks: nat): seq<A>
    requires |q| == Mul(groups, qs) && |k| == |v| == Mul(groups, ks)
  {
    Flatten(GroupsOf(q, k, v, groups, qs, ks))
  }

  lemma GroupAt<A>(q: seq<A>, k: seq<A>, v: seq<A>, groups: nat, qs: nat, ks: nat, i: nat)
    requires |q| == Mul(groups, qs) && |k| == |v| == Mul(groups, ks) && i < groups
    ensures var a, b, c := Blocks(q, groups, qs)[i], Blocks(k, groups, ks)[i], Blocks(v, groups, ks)[i];
      |a| == qs && |b| == |c| == ks && GroupsOf(q, k, v, groups, qs, ks)[i] == a + b + c
  {
    hide Mul;
    BlockIs(q, groups, qs, i);
    BlockIs(k, groups, ks, i);
    BlockIs(v, groups, ks, i);
  }

  // Row by row: a group's query rows, then its key rows, then its value rows.
  lemma InterleavedRows<A>(q: seq<A>, k: seq<A>, v: seq<A>, groups: nat, qs: nat, ks: nat, i: nat, r: nat)
    requires |q| == Mul(groups, qs) && |k| == |v| == Mul(groups, ks) && i < groups
    ensures Mul(i, qs) + qs <= |q| && Mul(i, ks) + ks <= |k|
    ensures var y, base := Interleave(q, k, v, groups, qs, ks), Mul(i, qs + ks + ks);
      && |y| == Mul(groups, qs + ks + ks) && base + qs + ks + ks <= |y|
      && (r < qs ==> y[base + r] == q[Mul(i, qs) + r])
      && (r < ks ==> y[base + qs + r] == k[Mul(i, ks) + r] && y[base + qs + ks + r] == v[Mul(i, ks) + r])
  {
    hide Mul, Flatten;
    BlockInside(i, groups, qs);
    BlockInside(i, groups, ks);
    var gs, w := GroupsOf(q, k, v, groups, qs, ks), qs + ks + ks;
    forall j | 0 <= j < groups
      ensures |gs[j]| == w
    {
      GroupAt(q, k, v, groups, qs, ks, j);
    }
    BlocksOfFlatten(gs, w);
    BlockIs(Flatten(gs), groups, w, i);
    GroupRows(q, k, v, groups, qs, ks, i, r);
  }

  lemma GroupRows<A>(q: seq<A>, k: seq<A>, v: seq<A>, groups: nat, qs: nat, ks: nat, i: nat, r: nat)
    requires |q| == Mul(groups, qs) && |k| == |v| == Mul(groups, ks) && i < groups
    ensures Mul(i, qs) + qs <= |q| && Mul(i, ks) + ks <= |k|
    ensures var g := GroupsOf(q, k, v, groups, qs, ks)[i];
      && |g| == qs + ks + ks
      && (r < qs ==> g[r] == q[Mul(i, qs) + r])
      && (r < ks ==> g[qs + r] == k[Mul(i, ks) + r] && g[qs + ks + r] == v[Mul(i, ks) + r])
  {
    hide Mul;
    BlockInside(i, groups, qs);
    BlockInside(i, groups, ks);
  }

  // ---- Taking it apart ----

  datatype Qkv<A> = Qkv(q: seq<A>, k: seq<A>, v: seq<A>)

  function Queries<A>(chunks: seq<seq<A>>, qs: nat): seq<seq<A>>
    requires forall i :: 0 <= i < |chunks| ==> qs <= |chunks[i]|
  {
    seq(|chunks|, i requires 0 <= i < |chunks| => chunks[i][..qs])
  }

  function Keys<A>(chunks: seq<seq<A>>, qs: nat, ks: nat): seq<seq<A>>
    requires forall i :: 0 <= i < |chunks| ==> qs + ks <= |chunks[i]|
  {
    seq(|chunks|, i requires 0 <= i < |chunks| => chunks[i][qs..qs + ks])
  }

  function Values<A>(chunks: seq<seq<A>>, qs: nat, ks: nat): seq<seq<A>>
    requires forall i :: 0 <= i < |chunks| ==> qs + ks <= |chunks[i]|
  {
    seq(|chunks|, i requires 0 <= i < |chunks| => chunks[i][qs + ks..])
  }

  predicate Splittable<A>(chunks: seq<seq<A>>, qs: nat, ks: nat) {
    forall i :: 0 <= i < |chunks| ==> |chunks[i]| == qs + ks + ks
  }

  function Collected<A>(chunks: seq<seq<A>>, qs: nat, ks: nat): Qkv<A>
    requires Splittable(chunks, qs, ks)
  {
    Qkv(Flatten(Queries(chunks, qs)), Flatten(Keys(chunks, qs, ks)), Flatten(Values(chunks, qs, ks)))
  }

  // Query rows per group.
  function Share(kvSize: nat, perKv: nat, groups: nat): nat
    requires groups > 0
  {
    Mul(kvSize, perKv) / groups
  }

  // The body of the qkv branch of _split_tensors, for n query heads per key head; None for a failing assertion and
  // for a split whose sizes do not add up.
  function SplitBy<A>(x: seq<A>, n: nat, kvHeads: nat): Option<Qkv<A>>
    requires kvHeads > 0
  {
    if |x| % (n + 2) != 0 then None
    else
      var kvSize := |x| / (n + 2);
      var chunks := Chunk(x, kvHeads);
      var qs, ks := Share(kvSize, n, kvHeads), kvSize / kvHeads;
      if Splittable(chunks, qs, ks) then Some(Collected(chunks, qs, ks)) else None
  }

  function SplitQkv<A>(x: seq<A>, heads: nat, kvHeads: nat): Option<Qkv<A>> {
    if kvHeads == 0 || heads % kvHeads != 0 then None else SplitBy(x, heads / kvHeads, kvHeads)
  }

  lemma CollectOne<A>(chunks: seq<seq<A>>, chunk: seq<A>, qs: nat, ks: nat)
    requires Splittable(chunks + [chunk], qs, ks)
    ensures Splittable(chunks, qs, ks) && |chunk| == qs + ks + ks
    ensures var a, b := Collected(chunks + [chunk], qs, ks), Collected(chunks, qs, ks);
      a == Qkv(b.q + chunk[..qs], b.k + chunk[qs..qs + ks], b.v + chunk[qs + ks..])
  {
    hide Flatten;
    var cs := chunks + [chunk];
    assert forall i :: 0 <= i < |chunks| ==> cs[i] == chunks[i];
    assert cs[|chunks|] == chunk;
    FlattenAppend(Queries(chunks, qs), chunk[..qs]);
    FlattenAppend(Keys(chunks, qs, ks), chunk[qs..qs + ks]);
    FlattenAppend(Values(chunks, qs, ks), chunk[qs + ks..]);
    assert Queries(cs, qs) == Queries(chunks, qs) + [chunk[..qs]];
    assert Keys(cs, qs, ks) == Keys(chunks, qs, ks) + [chunk[qs..qs + ks]];
    assert Values(cs, qs, ks) == Values(chunks, qs, ks) + [chunk[qs + ks..]];
  }

  method SplitTensors<A>(x: seq<A>, heads: nat, kvHeads: nat) returns (r: Option<Qkv<A>>)
    ensures r == SplitQkv(x, heads, kvHeads)
    ensures r.Some? ==> kvHeads > 0 && heads % kvHeads == 0 && |x| % (heads / kvHeads + 2) == 0
  {
    hide Flatten, Chunk, Share, Queries, Keys, Values;
    if kvHeads == 0 || heads % kvHeads != 0 {
      return None;
    }
    var perKv := heads / kvHeads;
    if |x| % (perKv + 2) != 0 {
      return None;
    }
    var kvSize := |x| / (perKv + 2);
    var chunks := Chunk(x, kvHeads);
    var qs, ks := Share(kvSize, perKv, kvHeads), kvSize / kvHeads;
    var q: seq<A>, k: seq<A>, v: seq<A> := [], [], [];
    NothingCollected<A>(qs, ks);
    for i := 0 to |chunks|
      invariant Splittable(chunks[..i], qs, ks) && Qkv(q, k, v) == Collected(chunks[..i], qs, ks)
    {
      if |chunks[i]| != qs + ks + ks {
        return None;
      }
      assert chunks[..i + 1] == chunks[..i] + [chunks[i]];
      CollectOne(chunks[..i], chunks[i], qs, ks);
      q, k, v := q + chunks[i][..qs], k + chunks[i][qs..qs + ks], v + chunks[i][qs + ks..];
    }
    assert chunks[..|chunks|] == chunks;
    r := Some(Qkv(q, k, v));
  }

  lemma NothingCollected<A>(qs: nat, ks: nat)
    ensures Collected<A>([], qs, ks) == Qkv([], [], [])
  {
  }

  // ---- The split undoes the interleaving ----

  // Rows of a weight with kvHeads groups of n query heads, a key head and a value head.
  function WholeLength(n: nat, kvHeads: nat, headDim: nat): nat {
    Mul(kvHeads, Mul(n, headDim) + headDim + headDim)
  }

  lemma WholeProducts(n: nat, kvHeads: nat, h: nat)
    ensures WholeLength(n, kvHeads, h) == Mul(Mul(kvHeads, h), n + 2)
    ensures Mul(Mul(kvHeads, h), n) == Mul(Mul(n, h), kvHeads) && Mul(kvHeads, h) == Mul(h, kvHeads)
  {
    hide Mul;
    var kvSize := Mul(kvHeads, h);
    MulCommutes(kvHeads, h);
    MulCommutes(kvSize, n);
    MulAssociates(n, h, kvHeads);
    MulCommutes(kvHeads, Mul(n, h) + h + h);
    MulAdd(Mul(n, h), h, kvHeads);
    MulAdd(Mul(n, h) + h, h, kvHeads);
    MulCommutes(kvSize, n + 2);
    MulNext(n + 1, kvSize);
    MulNext(n, kvSize);
  }

  lemma SizesOf(n: nat, kvHeads: nat, h: nat)
    requires kvHeads > 0
    ensures var total := WholeLength(n, kvHeads, h);
      && total % (n + 2) == 0 && total / (n + 2) == Mul(kvHeads, h)
      && Share(Mul(kvHeads, h), n, kvHeads) == Mul(n, h) && Mul(kvHeads, h) / kvHeads == h
  {
    hide WholeLength, Mul;
    WholeProducts(n, kvHeads, h);
    MulDivMod(Mul(kvHeads, h), n + 2, 0);
    MulDivMod(Mul(n, h), kvHeads, 0);
    MulDivMod(h, kvHeads, 0);
  }

  lemma HeadsOf(n: nat, kvHeads: nat)
    requires kvHeads > 0
    ensures Mul(kvHeads, n) % kvHeads == 0 && Mul(kvHeads, n) / kvHeads == n
  {
    hide Mul;
    MulCommutes(kvHeads, n);
    MulDivMod(n, kvHeads, 0);
  }

  // The groups of any interleaving of whole heads are what the split collects.
  lemma CollectGroups<A>(q: seq<A>, k: seq<A>, v: seq<A>, groups: nat, qs: nat, ks: nat)
    requires |q| == Mul(groups, qs) && |k| == |v| == Mul(groups, ks)
    ensures var gs := GroupsOf(q, k, v, groups, qs, ks);
      Splittable(gs, qs, ks) && Collected(gs, qs, ks) == Qkv(q, k, v)
  {
    hide Mul, GroupsOf, Flatten, Blocks;
    var gs := GroupsOf(q, k, v, groups, qs, ks);
    var a, b, c := Blocks(q, groups, qs), Blocks(k, groups, ks), Blocks(v, groups, ks);
    forall i | 0 <= i < groups
      ensures |gs[i]| == qs + ks + ks && gs[i][..qs] == a[i] && gs[i][qs..qs + ks] == b[i] && gs[i][qs + ks..] == c[i]
    {
      GroupAt(q, k, v, groups, qs, ks, i);
    }
    assert Queries(gs, qs) == a && Keys(gs, qs, ks) == b && Values(gs, qs, ks) == c;
    FlattenBlocks(q, groups, qs);
    FlattenBlocks(k, groups, ks);
    FlattenBlocks(v, groups, ks);
  }

  lemma SplitInterleaved<A>(q: seq<A>, k: seq<A>, v: seq<A>, n: nat, kvHeads: nat, headDim: nat)
    requires kvHeads > 0 && headDim > 0 && |q| == Mul(kvHeads, Mul(n, headDim)) && |k| == |v| == Mul(kvHeads, headDim)
    ensures SplitQkv(Interleave(q, k, v, kvHeads, Mul(n, headDim), headDim), Mul(kvHeads, n), kvHeads) == Some(Qkv(q, k, v))
  {
    hide Mul, Flatten, Share, GroupsOf, Collected, Chunk;
    var qs := Mul(n, headDim);
    var gs := GroupsOf(q, k, v, kvHeads, qs, headDim);
    SizesOf(n, kvHeads, headDim);
    HeadsOf(n, kvHeads);
    CollectGroups(q, k, v, kvHeads, qs, headDim);
    BlocksOfFlatten(gs, qs + headDim + headDim);
    ChunkOfWhole(Flatten(gs), kvHeads, qs + headDim + headDim);
  }

  // The split is accepted exactly when the rows divide evenly over the groups' heads.
  lemma SplitAccepts<A>(x: seq<A>, heads: nat, kvHeads: nat)
    requires kvHeads > 0 && heads % kvHeads == 0
    ensures SplitQkv(x, heads, kvHeads).Some? <==> exists h: nat :: |x| == WholeLength(heads / kvHeads, kvHeads, h)
  {
    hide SplitBy, WholeLength;
    var n := heads / kvHeads;
    if h: nat :| |x| == WholeLength(n, kvHeads, h) {
      WholeSplits(x, n, kvHeads, h);
    } else if SplitBy(x, n, kvHeads).Some? {
      SplitMeansWhole(x, n, kvHeads);
    }
  }

  lemma WholeSplits<A>(x: seq<A>, n: nat, kvHeads: nat, h: nat)
    requires kvHeads > 0 && |x| == WholeLength(n, kvHeads, h)
    ensures SplitBy(x, n, kvHeads).Some?
    ensures h > 0 ==>
              && Splittable(Blocks(x, kvHeads, Mul(n, h) + h + h), Mul(n, h), h)
              && SplitBy(x, n, kvHeads) == Some(Collected(Blocks(x, kvHeads, Mul(n, h) + h + h), Mul(n, h), h))
  {
    hide Mul, Collected, Share, Chunk, Blocks;
    WholeProducts(n, kvHeads, h);
    SizesOf(n, kvHeads, h);
    BlocksOfSize(x, kvHeads, Mul(n, h) + h + h);
    if h > 0 {
      ChunkOfWhole(x, kvHeads, Mul(n, h) + h + h);
    } else {
      MulUnits(kvHeads);
      MulUnits(n);
      MulUnits(n + 2);
      EmptySplits(x, kvHeads);
    }
  }

  lemma EmptySplits<A>(x: seq<A>, kvHeads: nat)
    requires kvHeads > 0 && x == []
    ensures Splittable(Chunk(x, kvHeads), 0, 0)
  {
  }

  lemma SplitMeansWhole<A>(x: seq<A>, n: nat, kvHeads: nat)
    requires kvHeads > 0 && SplitBy(x, n, kvHeads).Some?
    ensures exists h: nat :: |x| == WholeLength(n, kvHeads, h)
  {
    hide Mul, Collected, WholeLength, Chunk, Share;
    var kvSize := |x| / (n + 2);
    var qs, ks := Share(kvSize, n, kvHeads), kvSize / kvHeads;
    DivModMul(|x|, n + 2);
    if x == [] {
      WholeProducts(n, kvHeads, 0);
      MulUnits(kvHeads);
      MulUnits(n + 2);
    } else {
      var size := FirstChunk(x, kvHeads);
      ShareBelow(kvSize, n, kvHeads);
      DivModMul(kvSize, kvHeads);
      assert |Chunk(x, kvHeads)[0]| == qs + ks + ks;
      SumBelow(qs, ks, kvHeads, kvSize, n);
      WholeProducts(n, kvHeads, ks);
    }
  }

  lemma ShareBelow(kvSize: nat, n: nat, d: nat)
    requires d > 0
    ensures Mul(Share(kvSize, n, d), d) <= Mul(kvSize, n)
  {
    hide Mul;
    DivModMul(Mul(kvSize, n), d);
  }

  // If rounding down loses nothing in total, it loses nothing anywhere.
  lemma SumBelow(qs: nat, ks: nat, d: nat, kvSize: nat, n: nat)
    requires Mul(qs, d) <= Mul(kvSize, n) && Mul(ks, d) <= kvSize && Mul(kvSize, n + 2) <= Mul(qs + ks + ks, d)
    ensures Mul(ks, d) == kvSize
  {
    hide Mul;
    MulAdd(qs, ks, d);
    MulAdd(qs + ks, ks, d);
    MulCommutes(kvSize, n + 2);
    MulCommutes(kvSize, n);
    MulNext(n + 1, kvSize);
    MulNext(n, kvSize);
  }

  // Interleaving what the split returns gives the weight back.
  lemma InterleaveSplit<A>(x: seq<A>, n: nat, kvHeads: nat, h: nat)
    requires kvHeads > 0 && h > 0 && |x| == WholeLength(n, kvHeads, h)
    ensures var r := SplitQkv(x, Mul(kvHeads, n), kvHeads);
      && r.Some? && |r.value.q| == Mul(kvHeads, Mul(n, h)) && |r.value.k| == |r.value.v| == Mul(kvHeads, h)
      && Interleave(r.value.q, r.value.k, r.value.v, kvHeads, Mul(n, h), h) == x
  {
    hide Mul, Flatten, SplitBy, Collected, Interleave, Blocks;
    HeadsOf(n, kvHeads);
    WholeSplits(x, n, kvHeads, h);
    InterleaveCollected(x, kvHeads, Mul(n, h), h);
  }

  lemma PartsOfSize<A>(bs: seq<seq<A>>, qs: nat, ks: nat)
    requires Splittable(bs, qs, ks)
    ensures AllOfSize(Queries(bs, qs), qs) && AllOfSize(Keys(bs, qs, ks), ks) && AllOfSize(Values(bs, qs, ks), ks)
  {
  }

  lemma InterleaveCollected<A>(x: seq<A>, groups: nat, qs: nat, ks: nat)
    requires |x| == Mul(groups, qs + ks + ks)
    ensures var bs := Blocks(x, groups, qs + ks + ks);
      && Splittable(bs, qs, ks)
      && var p := Collected(bs, qs, ks);
         && |p.q| == Mul(groups, qs) && |p.k| == |p.v| == Mul(groups, ks) && Interleave(p.q, p.k, p.v, groups, qs, ks) == x
  {
    hide Mul, Flatten, Blocks, GroupsOf;
    var size := qs + ks + ks;
    var bs := Blocks(x, groups, size);
    BlocksOfSize(x, groups, size);
    PartsOfSize(bs, qs, ks);
    var p := Collected(bs, qs, ks);
    BlocksOfFlatten(Queries(bs, qs), qs);
    BlocksOfFlatten(Keys(bs, qs, ks), ks);
    BlocksOfFlatten(Values(bs, qs, ks), ks);
    forall i | 0 <= i < groups
      ensures GroupsOf(p.q, p.k, p.v, groups, qs, ks)[i] == bs[i]
    {
      GroupAt(p.q, p.k, p.v, groups, qs, ks, i);
      assert bs[i] == bs[i][..qs] + bs[i][qs..qs + ks] + bs[i][qs + ks..];
    }
    assert GroupsOf(p.q, p.k, p.v, groups, qs, ks) == bs;
    FlattenBlocks(x, groups, size);
  }

  // ---- Merging tensor-parallel shards ----

  function AllChunks<A>(shards: seq<seq<A>>, n: nat): seq<seq<A>>
    requires n > 0
  {
    if shards == [] then [] else AllChunks(shards[..|shards| - 1], n) + Chunk(shards[|shards| - 1], n)
  }

  // The body of the qkv branch of _merge_across_tp.
  function MergeBy<A>(shards: seq<seq<A>>, n: nat, kvHeads: nat): Option<Qkv<A>>
    requires shards != []
  {
    var groups := kvHeads / |shards|;
    if |shards[0]| % (n + 2) != 0 || groups == 0 then None
    else
      var kvSize := |shards[0]| / (n + 2);
      var chunks := AllChunks(shards, groups);
      var qs, ks := Share(kvSize, n, groups), kvSize / groups;
      if Splittable(chunks, qs, ks) then Some(Collected(chunks, qs, ks)) else None
  }

  function MergeQkv<A>(shards: seq<seq<A>>, heads: nat, kvHeads: nat): Option<Qkv<A>>
    requires shards != []
  {
    if kvHeads == 0 || heads % kvHeads != 0 then None else MergeBy(shards, heads / kvHeads, kvHeads)
  }

  // What the merge asserts, and that no rank is without a key head.
  lemma MergeNeeds<A>(shards: seq<seq<A>>, heads: nat, kvHeads: nat)
    requires shards != [] && MergeQkv(shards, heads, kvHeads).Some?
    ensures kvHeads >= |shards| && heads % kvHeads == 0 && |shards[0]| % (heads / kvHeads + 2) == 0
  {
    hide AllChunks, Share, Splittable, Collected;
    if kvHeads < |shards| {
      SmallQuotient(kvHeads, |shards|);
    }
  }

  method MergeAcrossTp<A>(shards: seq<seq<A>>, heads: nat, kvHeads: nat) returns (r: Option<Qkv<A>>)
    requires shards != []
    ensures r == MergeQkv(shards, heads, kvHeads)
  {
    hide Mul, Flatten, Chunk, Share, Queries, Keys, Values, Collected;
    if kvHeads == 0 || heads % kvHeads != 0 {
      return None;
    }
    var perKv := heads / kvHeads;
    if |shards[0]| % (perKv + 2) != 0 {
      return None;
    }
    var kvSize := |shards[0]| / (perKv + 2);
    var groups := kvHeads / |shards|;
    if groups == 0 {
      return None;
    }
    var qs, ks := Share(kvSize, perKv, groups), kvSize / groups;
    var q: seq<A>, k: seq<A>, v: seq<A> := [], [], [];
    ghost var done: seq<seq<A>> := [];
    NothingCollected<A>(qs, ks);
    for t := 0 to |shards|
      invariant done == AllChunks(shards[..t], groups)
      invariant Splittable(done, qs, ks) && Qkv(q, k, v) == Collected(done, qs, ks)
    {
      var chunks := Chunk(shards[t], groups);
      AllChunksNext(shards, groups, t);
      ghost var before := done;
      for i := 0 to |chunks|
        invariant done == before + chunks[..i]
        invariant Splittable(done, qs, ks) && Qkv(q, k, v) == Collected(done, qs, ks)
      {
        if |chunks[i]| != qs + ks + ks {
          NotSplittable(shards, groups, t, i, qs, ks);
          return None;
        }
        assert Splittable(done + [chunks[i]], qs, ks);
        CollectOne(done, chunks[i], qs, ks);
        q, k, v := q + chunks[i][..qs], k + chunks[i][qs..qs + ks], v + chunks[i][qs + ks..];
        done := done + [chunks[i]];
      }
      assert chunks[..|chunks|] == chunks;
    }
    assert shards[..|shards|] == shards;
    r := Some(Qkv(q, k, v));
  }

  lemma AllChunksNext<A>(shards: seq<seq<A>>, n: nat, t: nat)
    requires n > 0 && t < |shards|
    ensures AllChunks(shards[..t + 1], n) == AllChunks(shards[..t], n) + Chunk(shards[t], n)
  {
    assert shards[..t + 1][..t] == shards[..t];
  }

  lemma {:induction false} NotSplittable<A>(shards: seq<seq<A>>, n: nat, t: nat, i: nat, qs: nat, ks: nat)
    requires n > 0 && t < |shards| && i < |Chunk(shards[t], n)| && |Chunk(shards[t], n)[i]| != qs + ks + ks
    ensures !Splittable(AllChunks(shards, n), qs, ks)
  {
    hide Chunk;
    var m := |shards| - 1;
    var a := AllChunks(shards[..m], n);
    if t < m {
      NotSplittable(shards[..m], n, t, i, qs, ks);
      var j :| 0 <= j < |a| && |a[j]| != qs + ks + ks;
      assert AllChunks(shards, n)[j] == a[j];
    } else {
      assert AllChunks(shards, n)[|a| + i] == Chunk(shards[t], n)[i];
    }
  }

  lemma {:induction false} ChunksOfShards<A>(x: seq<A>, tp: nat, groups: nat, size: nat)
    requires groups > 0 && size > 0 && |x| == Mul(tp, Mul(groups, size))
    ensures |x| == Mul(Mul(tp, groups), size)
    ensures AllChunks(Blocks(x, tp, Mul(groups, size)), groups) == Blocks(x, Mul(tp, groups), size)
    decreases tp
  {
    hide Mul, Chunk, Blocks;
    var w := Mul(groups, size);
    MulAssociates(tp, groups, size);
    if tp == 0 {
      MulUnits(groups);
      NoBlocks(x, w);
      NoBlocks(x, size);
    } else {
      var m := tp - 1;
      SplitBlocks(x, m, 1, w);
      MulUnits(w);
      var y, z := x[..Mul(m, w)], x[Mul(m, w)..];
      OneBlock(z, w);
      ChunkOfWhole(z, groups, size);
      ChunksOfShards(y, m, groups, size);
      MulNext(m, groups);
      MulAssociates(m, groups, size);
      SplitBlocks(x, Mul(m, groups), groups, size);
      assert Blocks(x, tp, w)[..m] == Blocks(y, m, w) && Blocks(x, tp, w)[m] == z;
    }
  }

  // With a tensor-parallel size that divides the groups, merging the shards equals splitting the whole weight.
  lemma MergeIsSplit<A>(x: seq<A>, n: nat, tp: nat, groups: nat, h: nat)
    requires tp > 0 && groups > 0 && h > 0 && |x| == WholeLength(n, Mul(tp, groups), h)
    ensures |x| == Mul(tp, WholeLength(n, groups, h))
    ensures MergeQkv(Blocks(x, tp, WholeLength(n, groups, h)), Mul(Mul(tp, groups), n), Mul(tp, groups))
         == SplitQkv(x, Mul(Mul(tp, groups), n), Mul(tp, groups))
  {
    hide Mul, Flatten, Share, Collected, AllChunks, Chunk, Blocks;
    var kv, size := Mul(tp, groups), Mul(n, h) + h + h;
    MulMonotone(1, tp, groups);
    MulUnits(groups);
    MulAssociates(tp, groups, size);
    HeadsOf(n, kv);
    HeadsOf(groups, tp);
    WholeSplits(x, n, kv, h);
    SizesOf(n, groups, h);
    ChunksOfShards(x, tp, groups, size);
    BlockIs(x, tp, Mul(groups, size), 0);
    SizesOf(n, kv, h);
  }

  // ---- The vision tower ----

  // view(3, groups, per, ...).transpose(0, 1).flatten(1, 2).reshape(-1, ...), by index arithmetic on rows.
  function VisionLayout<A>(x: seq<A>, groups: nat, per: nat): (y: seq<A>)
    requires per > 0 && groups > 0 && |x| == Mul(3, Mul(groups, per))
    ensures |y| == |x|
  {
    seq(|x|, i requires 0 <= i < |x| => (RowInside(i, groups, per); x[VisionRow(i, groups, per)]))
  }

  // Row r of part `part` of group g.
  function VisionRow(i: nat, groups: nat, per: nat): nat
    requires per > 0
  {
    var g, part, r := i / per / 3, i / per % 3, i % per;
    Mul(Mul(part, groups) + g, per) + r
  }

  // Output row i lies in block `part` of group g.
  lemma VisionIndex(i: nat, groups: nat, per: nat) returns (g: nat, part: nat, r: nat)
    requires per > 0 && groups > 0 && i < Mul(3, Mul(groups, per))
    ensures g < groups && part < 3 && r < per && i == Mul(g, per + per + per) + Times(part, per) + r
    ensures VisionRow(i, groups, per) == Times(part, Mul(groups, per)) + Mul(g, per) + r
    ensures Mul(g, per) + per <= Mul(groups, per)
  {
    hide Mul;
    var b := i / per;
    g, part, r := b / 3, b % 3, i % per;
    DivModMul(i, per);
    if g >= groups {
      MulAssociates(3, groups, per);
      MulThree(groups);
      MulMonotone(Mul(3, groups), b, per);
    }
    MulThree(g);
    MulAdd(Mul(3, g), part, per);
    MulAssociates(3, g, per);
    MulThree(Mul(g, per));
    MulOfSum(g, per);
    TimesIs(part, per);
    MulAdd(Mul(part, groups), g, per);
    MulAssociates(part, groups, per);
    TimesIs(part, Mul(groups, per));
    BlockInside(g, groups, per);
  }

  lemma MulThree(a: nat)
    ensures Mul(3, a) == a + a + a
  {
  }

  lemma MulOfSum(g: nat, per: nat)
    ensures Mul(g, per + per + per) == Mul(g, per) + Mul(g, per) + Mul(g, per)
  {
    hide Mul;
    MulCommutes(g, per + per + per);
    MulCommutes(g, per);
    MulAdd(per, per, g);
    MulAdd(per + per, per, g);
  }

  function Times(part: nat, n: nat): nat
    requires part < 3
  {
    if part == 0 then 0 else if part == 1 then n else n + n
  }

  lemma TimesIs(part: nat, n: nat)
    requires part < 3
    ensures Mul(part, n) == Times(part, n)
  {
  }

  lemma RowInside(i: nat, groups: nat, per: nat)
    requires per > 0 && groups > 0 && i < Mul(3, Mul(groups, per))
    ensures VisionRow(i, groups, per) < Mul(3, Mul(groups, per))
  {
    hide Mul, VisionRow;
    var g, part, r := VisionIndex(i, groups, per);
    MulThree(Mul(groups, per));
  }

  // It is the interleaving of the three stacked parts, group by group.
  lemma VisionIsInterleave<A>(x: seq<A>, groups: nat, per: nat)
    requires per > 0 && groups > 0 && |x| == Mul(3, Mul(groups, per))
    ensures var n := Mul(groups, per);
      && |x| == n + n + n
      && VisionLayout(x, groups, per) == Interleave(x[..n], x[n..n + n], x[n + n..], groups, per, per)
  {
    hide Mul, Flatten, GroupsOf, VisionLayout, Blocks;
    var n, w := Mul(groups, per), per + per + per;
    MulThree(n);
    var q, k, v := x[..n], x[n..n + n], x[n + n..];
    var gs := GroupsOf(q, k, v, groups, per, per);
    forall i | 0 <= i < groups
      ensures |gs[i]| == w
    {
      GroupAt(q, k, v, groups, per, per, i);
    }
    BlocksOfFlatten(gs, w);
    MulOfSum(groups, per);
    forall i | 0 <= i < |x|
      ensures VisionLayout(x, groups, per)[i] == Flatten(gs)[i]
    {
      var g, part, r := VisionIndex(i, groups, per);
      BlockIs(Flatten(gs), groups, w, g);
      GroupRow(x, n, groups, per, g, part, r);
      LayoutAt(x, groups, per, i);
    }
  }

  lemma LayoutAt<A>(x: seq<A>, groups: nat, per: nat, i: nat)
    requires per > 0 && groups > 0 && |x| == Mul(3, Mul(groups, per)) && i < |x|
    ensures VisionRow(i, groups, per) < |x| && VisionLayout(x, groups, per)[i] == x[VisionRow(i, groups, per)]
  {
    hide Mul, VisionRow;
    RowInside(i, groups, per);
  }

  lemma GroupRow<A>(x: seq<A>, n: nat, groups: nat, per: nat, g: nat, part: nat, r: nat)
    requires n == Mul(groups, per) && |x| == n + n + n && g < groups && part < 3 && r < per
    ensures Mul(g, per) + per <= n
    ensures var gs := GroupsOf(x[..n], x[n..n + n], x[n + n..], groups, per, per);
      |gs[g]| == per + per + per && gs[g][Times(part, per) + r] == x[Times(part, n) + Mul(g, per) + r]
  {
    hide Mul, GroupsOf, Blocks;
    var q, k, v := x[..n], x[n..n + n], x[n + n..];
    BlockIs(q, groups, per, g);
    BlockIs(k, groups, per, g);
    BlockIs(v, groups, per, g);
    GroupAt(q, k, v, groups, per, per, g);
    ThreeSlices(x, n, Mul(g, per), per, part, r);
  }

  lemma ThreeSlices<A>(x: seq<A>, n: nat, m: nat, per: nat, part: nat, r: nat)
    requires |x| == n + n + n && m + per <= n && part < 3 && r < per
    ensures (x[..n][m..m + per] + x[n..n + n][m..m + per] + x[n + n..][m..m + per])[Times(part, per) + r]
         == x[Times(part, n) + m + r]
  {
    var a, b, c := x[..n][m..m + per], x[n..n + n][m..m + per], x[n + n..][m..m + per];
    assert a[r] == x[m + r] && b[r] == x[n + m + r] && c[r] == x[n + n + m + r];
    assert (a + b + c)[r] == a[r] && (a + b + c)[per + r] == b[r] && (a + b + c)[per + per + r] == c[r];
  }
}
