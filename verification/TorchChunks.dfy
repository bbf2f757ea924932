/** Sequences as blocks of equal size, and torch.chunk. */
module TorchChunks {
  import opened Arithmetic
  import opened Weights

  function Block<A>(x: seq<A>, i: nat, size: nat): seq<A>
    requires Mul(i, size) + size <= |x|
  {
    x[Mul(i, size)..Mul(i, size) + size]
  }

  // The first n blocks: view([n, size]).
  function Blocks<A>(x: seq<A>, n: nat, size: nat): (bs: seq<seq<A>>)
    requires Mul(n, size) <= |x|
    ensures |bs| == n
  {
    seq(n, i requires 0 <= i < n => (BlockInside(i, n, size); Block(x, i, size)))
  }

  lemma BlockInside(i: nat, n: nat, size: nat)
    requires i < n
    ensures Mul(i, size) + size <= Mul(n, size)
  {
    hide Mul;
    MulNext(i, size);
    MulMonotone(i + 1, n, size);
  }

  // A block by its bounds.
  lemma BlockIs<A>(x: seq<A>, n: nat, size: nat, i: nat)
    requires Mul(n, size) <= |x| && i < n
    ensures Mul(i, size) + size <= Mul(n, size)
    ensures Blocks(x, n, size)[i] == x[Mul(i, size)..Mul(i, size) + size] && |Blocks(x, n, size)[i]| == size
  {
    hide Mul;
    BlockInside(i, n, size);
  }

  ghost predicate AllOfSize<A>(bs: seq<seq<A>>, size: nat) {
    forall i :: 0 <= i < |bs| ==> |bs[i]| == size
  }

  lemma BlocksOfSize<A>(x: seq<A>, n: nat, size: nat)
    requires Mul(n, size) <= |x|
    ensures AllOfSize(Blocks(x, n, size), size)
  {
    hide Mul, Blocks;
    forall i | 0 <= i < n
      ensures |Blocks(x, n, size)[i]| == size
    {
      BlockIs(x, n, size, i);
    }
  }

  // The blocks of a sequence are those of its first a blocks and those of the rest.
  lemma SplitBlocks<A>(x: seq<A>, a: nat, b: nat, size: nat)
    requires |x| == Mul(a + b, size)
    ensures Mul(a, size) <= |x| && |x| - Mul(a, size) == Mul(b, size)
    ensures Blocks(x, a + b, size) == Blocks(x[..Mul(a, size)], a, size) + Blocks(x[Mul(a, size)..], b, size)
  {
    hide Mul, Blocks;
    MulAdd(a, b, size);
    var m := Mul(a, size);
    forall i | 0 <= i < a + b
      ensures Blocks(x, a + b, size)[i] == (Blocks(x[..m], a, size) + Blocks(x[m..], b, size))[i]
    {
      BlockIs(x, a + b, size, i);
      if i < a {
        BlockIs(x[..m], a, size, i);
      } else {
        BlockIs(x[m..], b, size, i - a);
        MulAdd(i - a, a, size);
      }
    }
  }

  lemma NoBlocks<A>(x: seq<A>, size: nat)
    ensures Mul(0, size) == 0 && Blocks(x, 0, size) == []
  {
  }

  lemma OneBlock<A>(x: seq<A>, size: nat)
    requires |x| == size
    ensures Mul(1, size) == size && Blocks(x, 1, size) == [x]
  {
    hide Mul, Blocks;
    MulUnits(size);
    BlockIs(x, 1, size, 0);
    assert x[0..size] == x;
  }

  lemma {:induction false} FlattenBlocks<A>(x: seq<A>, n: nat, size: nat)
    requires |x| == Mul(n, size)
    ensures Flatten(Blocks(x, n, size)) == x
    decreases n
  {
    hide Mul, Blocks, Flatten;
    if n == 0 {
      NoBlocks(x, size);
      NothingFlat<A>();
    } else {
      SplitBlocks(x, n - 1, 1, size);
      var m := Mul(n - 1, size);
      FlattenBlocks(x[..m], n - 1, size);
      MulUnits(size);
      OneBlock(x[m..], size);
      FlattenAppend(Blocks(x[..m], n - 1, size), x[m..]);
    }
  }

  lemma NothingFlat<A>()
    ensures Flatten<A>([]) == []
  {
  }

  lemma {:induction false} BlocksOfFlatten<A>(bs: seq<seq<A>>, size: nat)
    requires AllOfSize(bs, size)
    ensures |Flatten(bs)| == Mul(|bs|, size)
    ensures Blocks(Flatten(bs), |bs|, size) == bs
  {
    hide Mul, Blocks, Flatten;
    if bs == [] {
      NothingFlat<A>();
      NoBlocks<A>([], size);
    } else {
      var n := |bs| - 1;
      var x := Flatten(bs);
      BlocksOfFlatten(bs[..n], size);
      assert bs == bs[..n] + [bs[n]];
      FlattenAppend(bs[..n], bs[n]);
      MulNext(n, size);
      MulUnits(size);
      SplitBlocks(x, n, 1, size);
      assert x[..Mul(n, size)] == Flatten(bs[..n]) && x[Mul(n, size)..] == bs[n];
      OneBlock(bs[n], size);
    }
  }

  // ---- torch.chunk ----

  // x.chunk(n): pieces of ceil(len / n) rows, the last one shorter.
  function Chunk<A>(x: seq<A>, n: nat): seq<seq<A>>
    requires n > 0
  {
    var size := CeilDiv(|x|, n);
    if x == [] then [x]
    else
      CeilAtMost(0, |x|, n);
      seq(CeilDiv(|x|, size), i requires 0 <= i < CeilDiv(|x|, size) =>
        (ChunkInside(|x|, i, size); x[Mul(i, size)..Min(Mul(i, size) + size, |x|)]))
  }

  lemma ChunkInside(len: nat, i: nat, size: nat)
    requires size > 0 && i < CeilDiv(len, size)
    ensures Mul(i, size) < len
  {
    hide Mul;
    CeilMul(i, len, size);
  }

  lemma ChunkOfWhole<A>(x: seq<A>, n: nat, size: nat)
    requires n > 0 && size > 0 && |x| == Mul(n, size)
    ensures Chunk(x, n) == Blocks(x, n, size)
  {
    hide CeilDiv, Mul, Blocks;
    MulCommutes(n, size);
    CeilOfMul(size, n);
    CeilOfMul(n, size);
    MulMonotone(1, n, size);
    MulUnits(size);
    forall i | 0 <= i < n
      ensures Chunk(x, n)[i] == Blocks(x, n, size)[i]
    {
      BlockIs(x, n, size, i);
    }
  }

  lemma ChunkAt<A>(x: seq<A>, n: nat, i: nat)
    requires n > 0 && x != [] && i < |Chunk(x, n)|
    ensures CeilDiv(|x|, n) > 0 && Mul(i, CeilDiv(|x|, n)) < |x|
    ensures var size := CeilDiv(|x|, n);
      Chunk(x, n)[i] == x[Mul(i, size)..Min(Mul(i, size) + size, |x|)] && (i + 1 < |Chunk(x, n)| ==> Mul(i, size) + size < |x|)
    ensures i + 1 == |Chunk(x, n)| ==> Mul(i, CeilDiv(|x|, n)) + CeilDiv(|x|, n) >= |x|
  {
    hide Mul;
    CeilAtMost(0, |x|, n);
    var size := CeilDiv(|x|, n);
    ChunkInside(|x|, i, size);
    MulNext(i, size);
    CeilMul(i + 1, |x|, size);
  }

  // Every chunk but the last has ceil(len / n) rows, and the last one no more.
  lemma ChunkLengths<A>(x: seq<A>, n: nat, i: nat)
    requires n > 0 && x != [] && i < |Chunk(x, n)|
    ensures if i + 1 < |Chunk(x, n)| then |Chunk(x, n)[i]| == CeilDiv(|x|, n) else 0 < |Chunk(x, n)[i]| <= CeilDiv(|x|, n)
  {
    hide Mul, Chunk, CeilDiv;
    ChunkAt(x, n, i);
  }

  lemma {:induction false} ChunksSoFar<A>(x: seq<A>, n: nat, k: nat)
    requires n > 0 && x != [] && k <= |Chunk(x, n)|
    ensures Flatten(Chunk(x, n)[..k]) == x[..Min(Mul(k, CeilDiv(|x|, n)), |x|)]
  {
    hide Mul, Chunk, CeilDiv, Flatten;
    var size, cs := CeilDiv(|x|, n), Chunk(x, n);
    if k == 0 {
      NothingFlat<A>();
      MulUnits(size);
      assert cs[..0] == [];
    } else {
      ChunksSoFar(x, n, k - 1);
      ChunkAt(x, n, k - 1);
      MulNext(k - 1, size);
      FlattenAppend(cs[..k - 1], cs[k - 1]);
      assert cs[..k] == cs[..k - 1] + [cs[k - 1]];
    }
  }

  // The chunks concatenate to the tensor.
  lemma ChunkFlattens<A>(x: seq<A>, n: nat)
    requires n > 0
    ensures Flatten(Chunk(x, n)) == x
  {
    hide Mul, Flatten, CeilDiv;
    if x == [] {
      FlattenSingle(x);
    } else {
      var cs := Chunk(x, n);
      ChunksNonEmpty(x, n);
      ChunksSoFar(x, n, |cs|);
      ChunkAt(x, n, |cs| - 1);
      MulNext(|cs| - 1, CeilDiv(|x|, n));
      assert cs[..|cs|] == cs;
    }
  }

  lemma ChunksNonEmpty<A>(x: seq<A>, n: nat)
    requires n > 0 && x != []
    ensures Chunk(x, n) != []
  {
    var size := FirstChunk(x, n);
  }

  // The first chunk is a full one.
  lemma FirstChunk<A>(x: seq<A>, n: nat) returns (size: nat)
    requires n > 0 && x != []
    ensures Chunk(x, n) != [] && |Chunk(x, n)[0]| == size && |x| <= Mul(size, n)
  {
    hide CeilDiv, Mul;
    size := CeilDiv(|x|, n);
    CeilMul(0, |x|, n);
    MulUnits(n);
    CeilMul(|x|, |x|, n);
    MulMonotone(1, n, |x|);
    MulUnits(|x|);
    MulCommutes(n, |x|);
    CeilMul(0, |x|, size);
    MulUnits(size);
  }
}
