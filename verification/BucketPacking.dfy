/** Named tensors as bytes, and what a reader slices out of a flat buffer. */
module Weights {
  import opened Arithmetic
  import opened Options

  newtype Byte = b: int | 0 <= b < 256

  type Positive = n: nat | n > 0 witness 1

  // The part of a tensor's description that fixes its length in bytes.
  datatype Layout = Layout(itemsize: Positive, shape: seq<nat>)

  function Numel(shape: seq<nat>): nat {
    if shape == [] then 1 else shape[0] * Numel(shape[1..])
  }

  // The product of the dimensions, taken from the last one.
  function Product(dims: seq<nat>): nat {
    if dims == [] then 1 else Product(dims[..|dims| - 1]) * dims[|dims| - 1]
  }

  // The element count multiplies: it is one without dimensions, the dimension for a vector, and the product of the counts
  // of any two parts of the shape.
  lemma {:induction false} NumelLaws(a: seq<nat>, b: seq<nat>, n: nat)
    ensures Numel([]) == 1 && Numel([n]) == n && Numel(a + b) == Numel(a) * Numel(b)
  {
    if a == [] {
      assert a + b == b;
    } else {
      NumelLaws(a[1..], b, n);
      assert (a + b)[1..] == a[1..] + b;
      TimesAssociates(a[0], Numel(a[1..]), Numel(b));
    }
  }

  lemma TimesAssociates(x: nat, y: nat, z: nat)
    ensures x * (y * z) == x * y * z
  {
  }

  lemma {:induction false} NumelIsProduct(shape: seq<nat>)
    ensures Numel(shape) == Product(shape)
  {
    if shape != [] {
      var n := |shape| - 1;
      NumelIsProduct(shape[..n]);
      NumelLaws(shape[..n], [shape[n]], shape[n]);
      assert shape == shape[..n] + [shape[n]];
    }
  }

  function NBytes(layout: Layout): nat {
    layout.itemsize * Numel(layout.shape)
  }

  datatype Weight = Weight(name: string, layout: Layout, data: seq<Byte>)

  // A tensor's bytes are exactly what its layout says.
  predicate WellFormed(w: Weight) {
    |w.data| == NBytes(w.layout)
  }

  datatype TensorMeta = TensorMeta(name: string, layout: Layout, offset: nat)

  // A Python slice, which clamps instead of failing.
  function Slice(buf: seq<Byte>, lo: nat, hi: nat): seq<Byte> {
    if hi < lo || |buf| < lo then [] else if |buf| < hi then buf[lo..] else buf[lo..hi]
  }

  // The bytes a metadata entry covers.
  function Window(buf: seq<Byte>, m: TensorMeta): Weight {
    Weight(m.name, m.layout, Slice(buf, m.offset, m.offset + NBytes(m.layout)))
  }

  // An entry that lies inside the buffer covers item size times the product of the dimensions.
  lemma WindowIs(buf: seq<Byte>, m: TensorMeta)
    ensures m.layout.itemsize * Product(m.layout.shape) >= 0
    ensures var hi := m.offset + m.layout.itemsize * Product(m.layout.shape);
      hi <= |buf| ==> Window(buf, m) == Weight(m.name, m.layout, buf[m.offset..hi])
  {
    NumelIsProduct(m.layout.shape);
  }

  // Reinterpreting a slice of bytes in a wider type needs its place in the storage to be a multiple of the item size.
  // base: where the buffer itself starts in its storage.
  predicate Aligned(m: TensorMeta, base: nat) {
    Whole(base + m.offset, m.layout.itemsize)
  }

  // A whole number of items of s bytes.
  predicate Whole(n: nat, s: Positive) {
    n % s == 0
  }

  predicate AllAligned(metas: seq<TensorMeta>, base: nat) {
    forall i :: 0 <= i < |metas| ==> Aligned(metas[i], base)
  }

  // buf[offset : offset + size].view(dtype); None where the library raises.
  function View(buf: seq<Byte>, m: TensorMeta, base: nat): Option<Weight> {
    if Aligned(m, base) then Some(Window(buf, m)) else None
  }

  // The slots of a bucket, in metadata order.
  function Unpack(metas: seq<TensorMeta>, buf: seq<Byte>): seq<Weight> {
    seq(|metas|, i requires 0 <= i < |metas| => Window(buf, metas[i]))
  }

  // What a consumer is given for one bucket: a view per metadata entry, in order; None if one of them raises.
  function Receive(metas: seq<TensorMeta>, buf: seq<Byte>, base: nat): Option<seq<Weight>> {
    if AllAligned(metas, base) then Some(Unpack(metas, buf)) else None
  }

  // Assignment into an insertion-ordered dict keyed by name.
  function DictSet(d: seq<TensorMeta>, m: TensorMeta): seq<TensorMeta> {
    if d == [] then [m]
    else if d[0].name == m.name then [m] + d[1..]
    else [d[0]] + DictSet(d[1..], m)
  }

  // The bytes and the metadata dict of a bucket holding the weights ws.
  function Bytes(ws: seq<Weight>): seq<Byte> {
    if ws == [] then [] else Bytes(ws[..|ws| - 1]) + ws[|ws| - 1].data
  }

  // The packing loop's offset.
  function ByteCount(ws: seq<Weight>): nat {
    if ws == [] then 0 else ByteCount(ws[..|ws| - 1]) + |ws[|ws| - 1].data|
  }

  lemma {:induction false} BytesLength(ws: seq<Weight>)
    ensures |Bytes(ws)| == ByteCount(ws)
  {
    if ws != [] {
      BytesLength(ws[..|ws| - 1]);
    }
  }

  ghost predicate AllWellFormed(ws: seq<Weight>) {
    forall i :: 0 <= i < |ws| ==> WellFormed(ws[i])
  }

  function MetaOf(w: Weight, offset: nat): TensorMeta {
    TensorMeta(w.name, w.layout, offset)
  }

  function Metas(ws: seq<Weight>): seq<TensorMeta> {
    if ws == [] then []
    else
      var n := |ws| - 1;
      DictSet(Metas(ws[..n]), MetaOf(ws[n], ByteCount(ws[..n])))
  }

  // The slots of a packed bucket.
  function Decode(ws: seq<Weight>): seq<Weight> {
    Unpack(Metas(ws), Bytes(ws))
  }

  ghost predicate DistinctNames(ws: seq<Weight>) {
    forall i, j :: 0 <= i < j < |ws| ==> ws[i].name != ws[j].name
  }

  function Flatten<T>(ss: seq<seq<T>>): seq<T> {
    if ss == [] then [] else Flatten(ss[..|ss| - 1]) + ss[|ss| - 1]
  }

  lemma FlattenAppend<T>(ss: seq<seq<T>>, s: seq<T>)
    ensures Flatten(ss + [s]) == Flatten(ss) + s
  {
    assert (ss + [s])[..|ss|] == ss;
  }

  lemma FlattenSingle<T>(s: seq<T>)
    ensures Flatten([s]) == s
  {
    FlattenAppend([], s);
    assert [] + [s] == [s];
  }

  lemma BytesAppend(ws: seq<Weight>, w: Weight)
    ensures Bytes(ws + [w]) == Bytes(ws) + w.data
    ensures ByteCount(ws + [w]) == ByteCount(ws) + |w.data|
  {
    assert (ws + [w])[..|ws|] == ws;
  }

  lemma MetasAppend(ws: seq<Weight>, w: Weight)
    ensures Metas(ws + [w]) == DictSet(Metas(ws), MetaOf(w, ByteCount(ws)))
  {
    assert (ws + [w])[..|ws|] == ws;
  }

  lemma {:induction false} BytesPrefix(ws: seq<Weight>, i: nat)
    requires i <= |ws|
    ensures Bytes(ws[..i]) <= Bytes(ws)
  {
    if i < |ws| {
      var n := |ws| - 1;
      BytesPrefix(ws[..n], i);
      assert ws[..n][..i] == ws[..i];
    } else {
      assert ws[..i] == ws;
    }
  }

  lemma {:induction false} DictSetFresh(d: seq<TensorMeta>, m: TensorMeta)
    requires forall i :: 0 <= i < |d| ==> d[i].name != m.name
    ensures DictSet(d, m) == d + [m]
  {
    if d != [] {
      DictSetFresh(d[1..], m);
    }
  }

  lemma {:induction false} DictSetOverwrites(d: seq<TensorMeta>, m: TensorMeta, i: nat)
    requires i < |d| && d[i].name == m.name
    ensures |DictSet(d, m)| == |d|
  {
    if d[0].name != m.name {
      DictSetOverwrites(d[1..], m, i - 1);
    }
  }

  // A key keeps its place, whatever is assigned to it; a new one comes last.
  lemma {:induction false} DictSetPlaces(d: seq<TensorMeta>, m: TensorMeta)
    ensures |d| <= |DictSet(d, m)|
    ensures forall i :: 0 <= i < |d| ==> DictSet(d, m)[i].name == d[i].name && (d[i].name != m.name ==> DictSet(d, m)[i] == d[i])
  {
    if d != [] && d[0].name != m.name {
      DictSetPlaces(d[1..], m);
      assert forall i :: 0 < i < |d| ==> DictSet(d, m)[i] == DictSet(d[1..], m)[i - 1] && d[i] == d[1..][i - 1];
    }
  }

  lemma {:induction false} DictSetMembers(d: seq<TensorMeta>, m: TensorMeta)
    ensures |d| <= |DictSet(d, m)| <= |d| + 1
    ensures m in DictSet(d, m)
    ensures forall x :: x in DictSet(d, m) ==> x == m || x in d
    ensures forall x :: x in d && x.name != m.name ==> x in DictSet(d, m)
  {
    if d != [] && d[0].name != m.name {
      DictSetMembers(d[1..], m);
      assert d == [d[0]] + d[1..];
      assert DictSet(d, m)[0] == d[0] && DictSet(d, m)[1..] == DictSet(d[1..], m);
    } else if d != [] {
      assert d == [d[0]] + d[1..];
      assert DictSet(d, m)[0] == m;
    }
  }

  // Every name packed has an entry, and no entry reaches past the bucket's bytes.
  lemma {:induction false} MetasInBounds(ws: seq<Weight>)
    requires AllWellFormed(ws)
    ensures |Metas(ws)| <= |ws|
    ensures forall m :: m in Metas(ws) ==> m.offset + NBytes(m.layout) <= ByteCount(ws)
    ensures forall w :: w in ws ==> exists m :: m in Metas(ws) && m.name == w.name
  {
    if ws != [] {
      var n := |ws| - 1;
      MetasInBounds(ws[..n]);
      var d, m := Metas(ws[..n]), MetaOf(ws[n], ByteCount(ws[..n]));
      DictSetMembers(d, m);
      forall w | w in ws
        ensures exists m' :: m' in Metas(ws) && m'.name == w.name
      {
        if w.name == m.name {
          assert m in Metas(ws);
        } else {
          assert w in ws[..n];
          var m' :| m' in d && m'.name == w.name;
          assert m' in Metas(ws);
        }
      }
    }
  }

  // Of the tensors of one name the last one packed has the entry.
  lemma {:induction false} LastHasEntry(ws: seq<Weight>, j: nat)
    requires j < |ws| && forall i :: j < i < |ws| ==> ws[i].name != ws[j].name
    ensures TensorMeta(ws[j].name, ws[j].layout, ByteCount(ws[..j])) in Metas(ws)
  {
    hide ByteCount, DictSet, NBytes;
    var n := |ws| - 1;
    DictSetMembers(Metas(ws[..n]), MetaOf(ws[n], ByteCount(ws[..n])));
    if j < n {
      LastHasEntry(ws[..n], j);
      assert ws[..n][..j] == ws[..j];
    }
  }

  lemma {:induction false} MetasOfDistinct(ws: seq<Weight>)
    requires DistinctNames(ws)
    ensures |Metas(ws)| == |ws|
    ensures forall i :: 0 <= i < |ws| ==> Metas(ws)[i] == MetaOf(ws[i], ByteCount(ws[..i]))
  {
    hide ByteCount, Bytes, NBytes;
    if ws != [] {
      var n := |ws| - 1;
      MetasOfDistinct(ws[..n]);
      DictSetFresh(Metas(ws[..n]), MetaOf(ws[n], ByteCount(ws[..n])));
      forall i | 0 <= i < n
        ensures ws[..n][..i] == ws[..i]
      {
      }
    }
  }

  lemma {:induction false} MetasOfRepeated(ws: seq<Weight>, i: nat, j: nat)
    requires AllWellFormed(ws)
    requires i < j < |ws| && ws[i].name == ws[j].name
    ensures |Metas(ws)| < |ws|
  {
    hide ByteCount, Bytes, NBytes, DictSet;
    var n := |ws| - 1;
    MetasInBounds(ws[..n]);
    var d, m := Metas(ws[..n]), MetaOf(ws[n], ByteCount(ws[..n]));
    if j < n {
      MetasOfRepeated(ws[..n], i, j);
      DictSetMembers(d, m);
    } else {
      assert ws[i] in ws[..n];
      var m' :| m' in d && m'.name == ws[i].name;
      var k :| 0 <= k < |d| && d[k] == m';
      DictSetOverwrites(d, m, k);
    }
  }

  // Unpacking any buffer that starts with the bucket's bytes gives the same views.
  lemma UnpackPrefix(ws: seq<Weight>, buf: seq<Byte>)
    requires AllWellFormed(ws) && Bytes(ws) <= buf
    ensures Unpack(Metas(ws), buf) == Decode(ws)
  {
    hide ByteCount, Bytes, NBytes, Metas;
    MetasInBounds(ws);
    BytesLength(ws);
    forall i | 0 <= i < |Metas(ws)|
      ensures Unpack(Metas(ws), buf)[i] == Decode(ws)[i]
    {
      var m := Metas(ws)[i];
      assert m in Metas(ws);
      assert buf[m.offset..m.offset + NBytes(m.layout)] == Bytes(ws)[m.offset..m.offset + NBytes(m.layout)];
    }
  }

  lemma SlotBytes(ws: seq<Weight>, i: nat, lo: nat, hi: nat)
    requires i < |ws| && lo == ByteCount(ws[..i]) && hi == lo + |ws[i].data|
    ensures hi <= |Bytes(ws)| && Bytes(ws)[lo..hi] == ws[i].data
  {
    BytesLength(ws[..i]);
    assert ws[..i + 1] == ws[..i] + [ws[i]];
    BytesAppend(ws[..i], ws[i]);
    BytesPrefix(ws, i + 1);
    var p := Bytes(ws[..i + 1]);
    assert p <= Bytes(ws) && |p| == hi;
    assert Bytes(ws)[lo..hi] == p[lo..hi];
  }

  lemma DecodeOfDistinct(ws: seq<Weight>)
    requires AllWellFormed(ws) && DistinctNames(ws)
    ensures Decode(ws) == ws
  {
    hide Bytes, ByteCount, Metas;
    MetasOfDistinct(ws);
    forall i | 0 <= i < |ws|
      ensures Decode(ws)[i] == ws[i]
    {
      var lo := ByteCount(ws[..i]);
      SlotBytes(ws, i, lo, lo + |ws[i].data|);
    }
  }

  // The slots of a bucket with distinct names tile its bytes and are the tensors packed;
  // a repeated name overwrites a dict entry and the bucket then has fewer slots.
  lemma DecodeIffDistinct(ws: seq<Weight>)
    requires AllWellFormed(ws)
    ensures Decode(ws) == ws <==> DistinctNames(ws)
    ensures |Decode(ws)| <= |ws|
    ensures !DistinctNames(ws) ==> |Decode(ws)| < |ws|
  {
    if DistinctNames(ws) {
      DecodeOfDistinct(ws);
    } else {
      var i, j :| 0 <= i < j < |ws| && ws[i].name == ws[j].name;
      MetasOfRepeated(ws, i, j);
    }
  }

  // ---- Alignment ----

  // Every tensor starts at a multiple of its item size when the bucket is packed at base.
  ghost predicate AlignedWeights(ws: seq<Weight>, base: nat) {
    forall i :: 0 <= i < |ws| ==> Whole(base + ByteCount(ws[..i]), ws[i].layout.itemsize)
  }

  // Every entry was made for one of the weights, at the offset it was packed at.
  lemma {:induction false} MetasOrigin(ws: seq<Weight>, m: TensorMeta)
    requires m in Metas(ws)
    ensures exists i :: 0 <= i < |ws| && m == MetaOf(ws[i], ByteCount(ws[..i]))
  {
    hide ByteCount;
    if ws != [] {
      var n := |ws| - 1;
      DictSetMembers(Metas(ws[..n]), MetaOf(ws[n], ByteCount(ws[..n])));
      if m in Metas(ws[..n]) {
        MetasOrigin(ws[..n], m);
        var i :| 0 <= i < n && m == MetaOf(ws[..n][i], ByteCount(ws[..n][..i]));
        assert ws[..n][..i] == ws[..i];
      }
    }
  }

  lemma AlignedEntries(ws: seq<Weight>, base: nat)
    ensures AlignedWeights(ws, base) ==> AllAligned(Metas(ws), base)
    ensures DistinctNames(ws) && AllAligned(Metas(ws), base) ==> AlignedWeights(ws, base)
  {
    hide ByteCount, Metas;
    if AlignedWeights(ws, base) {
      forall j | 0 <= j < |Metas(ws)|
        ensures Aligned(Metas(ws)[j], base)
      {
        MetasOrigin(ws, Metas(ws)[j]);
      }
    }
    if DistinctNames(ws) && AllAligned(Metas(ws), base) {
      MetasOfDistinct(ws);
      forall i | 0 <= i < |ws|
        ensures Whole(base + ByteCount(ws[..i]), ws[i].layout.itemsize)
      {
        assert Aligned(Metas(ws)[i], base);
      }
    }
  }

  // A receiver is handed the packed tensors exactly when their names are distinct and every one of them is aligned.
  lemma ReceiveIff(ws: seq<Weight>, buf: seq<Byte>, base: nat)
    requires AllWellFormed(ws) && Bytes(ws) <= buf
    ensures Receive(Metas(ws), buf, base) == Some(ws) <==> DistinctNames(ws) && AlignedWeights(ws, base)
  {
    hide Bytes, Metas, ByteCount, DistinctNames, AlignedWeights, AllAligned;
    UnpackPrefix(ws, buf);
    DecodeIffDistinct(ws);
    AlignedEntries(ws, base);
  }

  lemma WholeIsMultiple(n: nat, s: Positive)
    ensures Whole(n, s) <==> exists k: nat :: n == Mul(s, k)
  {
    if Whole(n, s) {
      assert n == Mul(s, n / s);
    }
    if k: nat :| n == Mul(s, k) {
      MulCommutes(s, k);
      MulDivMod(k, s, 0);
    }
  }

  lemma {:induction false} WholeItems(ws: seq<Weight>, s: Positive)
    requires AllWellFormed(ws) && forall i :: 0 <= i < |ws| ==> ws[i].layout.itemsize == s
    ensures Whole(ByteCount(ws), s)
  {
    hide Whole, Numel;
    if ws == [] {
      NoItems(s);
    } else {
      var n := |ws| - 1;
      WholeItems(ws[..n], s);
      AddItems(ByteCount(ws[..n]), s, Numel(ws[n].layout.shape));
    }
  }

  lemma NoItems(s: Positive)
    ensures Whole(0, s)
  {
    SmallQuotient(0, s);
  }

  lemma AddItems(count: nat, s: Positive, items: nat)
    requires Whole(count, s)
    ensures s * items >= 0 && Whole(count + s * items, s)
  {
    var q := count / s;
    assert count == q * s;
    Distribute(q, items, s);
    Monotone(0, items, s);
    AddMultiple(q + items, s, 0);
  }

  lemma PrefixAligned(ws: seq<Weight>, s: Positive, base: nat, i: nat)
    requires AllWellFormed(ws) && Whole(base, s) && i < |ws| && forall j :: 0 <= j < |ws| ==> ws[j].layout.itemsize == s
    ensures Whole(base + ByteCount(ws[..i]), s)
  {
    hide ByteCount, Whole, WellFormed;
    WholeItems(ws[..i], s);
    SumOfWhole(base, ByteCount(ws[..i]), s);
  }

  // One item size for all tensors, in a buffer that starts at a multiple of it.
  lemma CommonItemsizeAligns(ws: seq<Weight>, s: Positive, base: nat)
    requires AllWellFormed(ws) && Whole(base, s) && forall i :: 0 <= i < |ws| ==> ws[i].layout.itemsize == s
    ensures AlignedWeights(ws, base) && AllAligned(Metas(ws), base)
  {
    hide ByteCount, Metas, Whole;
    forall i | 0 <= i < |ws|
      ensures Whole(base + ByteCount(ws[..i]), ws[i].layout.itemsize)
    {
      PrefixAligned(ws, s, base, i);
    }
    AlignedEntries(ws, base);
  }

  lemma SumOfWhole(a: nat, b: nat, s: Positive)
    requires Whole(a, s) && Whole(b, s)
    ensures Whole(a + b, s)
  {
    assert b == s * (b / s);
    AddItems(a, s, b / s);
  }

  // A one-byte tensor before a two-byte one: distinct names, but the second view raises.
  lemma OddByteFirst()
    ensures var ws := [Weight("a", Layout(1, [1]), [7]), Weight("b", Layout(2, [1]), [8, 9])];
      && AllWellFormed(ws) && DistinctNames(ws) && Decode(ws) == ws
      && Receive(Metas(ws), Bytes(ws), 0) == None
  {
    var a, b := Weight("a", Layout(1, [1]), [7]), Weight("b", Layout(2, [1]), [8, 9]);
    var ws := [a, b];
    assert [1][1..] == [] && Numel([]) == 1 && Numel([1]) == 1;
    assert |a.name| == |b.name| && a.name[0] != b.name[0];
    DecodeIffDistinct(ws);
    MetasOfDistinct(ws);
    assert ws[..1] == [] + [a];
    BytesAppend([], a);
    assert !Aligned(Metas(ws)[1], 0);
  }
}

/** The packing loop shared by the NIXL, NCCL and Mooncake senders. */
module BucketPacking {
  import opened Arithmetic
  import opened Options
  import opened Weights

  datatype Packing = Packing(full: seq<seq<Weight>>, cur: seq<Weight>)

  predicate Overflows(cur: seq<Weight>, w: Weight, size: nat) {
    ByteCount(cur) + |w.data| > size
  }

  function PackStep(p: Packing, w: Weight, size: nat): Packing {
    if Overflows(p.cur, w, size) then Packing(p.full + [p.cur], [w]) else Packing(p.full, p.cur + [w])
  }

  function Pack(ws: seq<Weight>, size: nat): Packing {
    if ws == [] then Packing([], [])
    else PackStep(Pack(ws[..|ws| - 1], size), ws[|ws| - 1], size)
  }

  // The weights of each bucket sent, the last one included.
  function Groups(ws: seq<Weight>, size: nat): (gs: seq<seq<Weight>>)
    ensures gs != []
  {
    var p := Pack(ws, size);
    p.full + [p.cur]
  }

  ghost predicate AllFit(ws: seq<Weight>, size: nat) {
    forall i :: 0 <= i < |ws| ==> |ws[i].data| <= size
  }

  // The slots of all the buckets gs, in order.
  function Delivered(gs: seq<seq<Weight>>): seq<Weight> {
    if gs == [] then [] else Delivered(gs[..|gs| - 1]) + Decode(gs[|gs| - 1])
  }

  lemma DeliveredAppend(gs: seq<seq<Weight>>, g: seq<Weight>)
    ensures Delivered(gs + [g]) == Delivered(gs) + Decode(g)
  {
    assert (gs + [g])[..|gs|] == gs;
  }

  lemma {:induction false} DeliveredPrefix(gs: seq<seq<Weight>>, k: nat)
    requires k <= |gs|
    ensures Delivered(gs[..k]) <= Delivered(gs)
  {
    hide Decode;
    if k == |gs| {
      assert gs[..k] == gs;
    } else {
      var n := |gs| - 1;
      DeliveredPrefix(gs[..n], k);
      assert gs[..n][..k] == gs[..k];
    }
  }

  // A partition into buckets within the limit, each closed only because the next weight does not fit.
  ghost predicate WithinLimit(gs: seq<seq<Weight>>, size: nat) {
    forall k :: 0 <= k < |gs| ==> ByteCount(gs[k]) <= size
  }

  ghost predicate ClosedWhenFull(gs: seq<seq<Weight>>, size: nat) {
    forall k :: 0 < k < |gs| ==> gs[k] != [] && Overflows(gs[k - 1], gs[k][0], size)
  }

  ghost predicate IsGreedyPartition(gs: seq<seq<Weight>>, ws: seq<Weight>, size: nat) {
    gs != [] && Flatten(gs) == ws && WithinLimit(gs, size) && ClosedWhenFull(gs, size)
  }

  lemma FlattenStep(p: Packing, w: Weight, size: nat)
    ensures var p' := PackStep(p, w, size);
      Flatten(p'.full + [p'.cur]) == Flatten(p.full + [p.cur]) + [w]
  {
    hide Flatten, ByteCount;
    FlattenAppend(p.full, p.cur);
    FlattenAppend(p.full + [p.cur], [w]);
    FlattenAppend(p.full, p.cur + [w]);
  }

  lemma {:induction false} GroupsFlatten(ws: seq<Weight>, size: nat)
    ensures Flatten(Groups(ws, size)) == ws
  {
    hide Flatten, PackStep;
    if ws == [] {
      FlattenSingle<Weight>([]);
      assert Groups(ws, size) == [[]];
    } else {
      var n := |ws| - 1;
      GroupsFlatten(ws[..n], size);
      FlattenStep(Pack(ws[..n], size), ws[n], size);
    }
  }

  lemma CloseStep(p: Packing, w: Weight, size: nat)
    requires WithinLimit(p.full + [p.cur], size) && ClosedWhenFull(p.full + [p.cur], size) && |w.data| <= size
    requires p.cur == [] ==> p.full == []
    ensures var p' := PackStep(p, w, size);
      && WithinLimit(p'.full + [p'.cur], size) && ClosedWhenFull(p'.full + [p'.cur], size)
      && p'.cur != []
  {
    hide ByteCount, Bytes;
    var p' := PackStep(p, w, size);
    var gs, hs := p.full + [p.cur], p'.full + [p'.cur];
    assert gs[|p.full|] == p.cur && hs[|p'.full|] == p'.cur;
    assert forall k :: 0 <= k < |p.full| ==> hs[k] == gs[k];
    BytesAppend([], w);
    BytesAppend(p.cur, w);
    CountOfNone();
    assert [] + [w] == [w];
  }

  lemma CountOfNone()
    ensures ByteCount([]) == 0
  {
  }

  lemma {:induction false} GroupsCloseWhenFull(ws: seq<Weight>, size: nat)
    requires AllFit(ws, size)
    ensures WithinLimit(Groups(ws, size), size) && ClosedWhenFull(Groups(ws, size), size)
    ensures Pack(ws, size).cur == [] ==> Pack(ws, size).full == []
  {
    hide PackStep, ByteCount, Bytes;
    if ws == [] {
      CountOfNone();
    } else {
      var n := |ws| - 1;
      GroupsCloseWhenFull(ws[..n], size);
      CloseStep(Pack(ws[..n], size), ws[n], size);
    }
  }

  lemma GroupsAreGreedy(ws: seq<Weight>, size: nat)
    requires AllFit(ws, size)
    ensures IsGreedyPartition(Groups(ws, size), ws, size)
  {
    GroupsFlatten(ws, size);
    GroupsCloseWhenFull(ws, size);
  }

  // Changing the last group of a partition.
  lemma ClosedSame(init: seq<seq<Weight>>, a: seq<Weight>, b: seq<Weight>, size: nat)
    requires ClosedWhenFull(init + [a], size)
    requires init == [] || (a != [] && b != [] && a[0] == b[0])
    ensures ClosedWhenFull(init + [b], size) && ClosedWhenFull(init, size)
  {
    hide Overflows;
    var gs, hs := init + [a], init + [b];
    assert forall k :: 0 <= k < |init| ==> gs[k] == init[k] == hs[k];
    assert gs[|init|] == a && hs[|init|] == b;
  }

  lemma WithinSame(init: seq<seq<Weight>>, a: seq<Weight>, b: seq<Weight>, size: nat)
    requires WithinLimit(init + [a], size) && ByteCount(b) <= ByteCount(a)
    ensures WithinLimit(init + [b], size) && WithinLimit(init, size) && ByteCount(a) <= size
  {
    hide ByteCount;
    var gs, hs := init + [a], init + [b];
    assert forall k :: 0 <= k < |init| ==> gs[k] == init[k] == hs[k];
    assert gs[|init|] == a && hs[|init|] == b;
  }

  lemma FlattenDrop(init: seq<seq<Weight>>, g: seq<Weight>, w: Weight, ws: seq<Weight>)
    requires Flatten(init + [g + [w]]) == ws
    ensures ws != [] && ws[|ws| - 1] == w && Flatten(init + [g]) == ws[..|ws| - 1]
    ensures g == [] ==> Flatten(init) == ws[..|ws| - 1]
  {
    hide Flatten;
    FlattenAppend(init, g + [w]);
    FlattenAppend(init, g);
    assert ws == Flatten(init) + g + [w];
  }

  // Taking the last weight back out of a greedy partition leaves a greedy partition.
  lemma DropLastWeight(init: seq<seq<Weight>>, g: seq<Weight>, w: Weight, ws: seq<Weight>, size: nat)
    returns (p: Packing)
    requires IsGreedyPartition(init + [g + [w]], ws, size)
    ensures ws != [] && ws[|ws| - 1] == w
    ensures IsGreedyPartition(p.full + [p.cur], ws[..|ws| - 1], size)
    ensures PackStep(p, w, size) == Packing(init, g + [w])
  {
    hide Flatten, ByteCount, WithinLimit, ClosedWhenFull;
    FlattenDrop(init, g, w, ws);
    BytesAppend(g, w);
    WithinSame(init, g + [w], g, size);
    if g == [] && init != [] {
      p := Packing(init[..|init| - 1], init[|init| - 1]);
      assert init == p.full + [p.cur] && g + [w] == [w];
      ClosedSame(init, [w], [w], size);
      ClosedAt(init + [[w]], size, |init|);
    } else {
      p := Packing(init, g);
      ClosedSame(init, g + [w], g, size);
    }
  }

  lemma ClosedAt(gs: seq<seq<Weight>>, size: nat, k: nat)
    requires ClosedWhenFull(gs, size) && 0 < k < |gs|
    ensures gs[k] != [] && Overflows(gs[k - 1], gs[k][0], size)
  {
  }

  // The loop's buckets are the only greedy partition there is.
  lemma {:induction false} GreedyPartitionIsUnique(gs: seq<seq<Weight>>, ws: seq<Weight>, size: nat)
    requires IsGreedyPartition(gs, ws, size)
    ensures gs == Groups(ws, size)
    decreases |ws|
  {
    hide Flatten, ByteCount, PackStep, WithinLimit;
    var n := |gs| - 1;
    var g := gs[n];
    assert gs == gs[..n] + [g];
    if g == [] {
      FlattenSingle(g);
      assert n == 0 && gs == [[]];
    } else {
      assert g == g[..|g| - 1] + [g[|g| - 1]];
      var p := DropLastWeight(gs[..n], g[..|g| - 1], g[|g| - 1], ws, size);
      GreedyPartitionIsUnique(p.full + [p.cur], ws[..|ws| - 1], size);
      var q := Pack(ws[..|ws| - 1], size);
      assert (p.full + [p.cur])[..|p.full|] == p.full && (q.full + [q.cur])[..|q.full|] == q.full;
    }
  }

  // Buckets closed while packing a prefix stay closed.
  lemma {:induction false} ClosedBucketsPersist(ws: seq<Weight>, size: nat, i: nat)
    requires i <= |ws|
    ensures Pack(ws[..i], size).full <= Pack(ws, size).full
  {
    if i < |ws| {
      var n := |ws| - 1;
      ClosedBucketsPersist(ws[..n], size, i);
      assert ws[..n][..i] == ws[..i];
    } else {
      assert ws[..i] == ws;
    }
  }

  lemma PackNext(ws: seq<Weight>, size: nat, i: nat)
    requires i < |ws|
    ensures Pack(ws[..i + 1], size) == PackStep(Pack(ws[..i], size), ws[i], size)
  {
    assert ws[..i + 1][..i] == ws[..i];
  }

  // The bucket flushed just before weight i is packed is the next one of Groups.
  lemma FlushedBucketIsNextGroup(ws: seq<Weight>, size: nat, i: nat)
    requires i < |ws| && Overflows(Pack(ws[..i], size).cur, ws[i], size)
    ensures var p := Pack(ws[..i], size); p.full + [p.cur] <= Pack(ws, size).full
  {
    PackNext(ws, size, i);
    ClosedBucketsPersist(ws, size, i + 1);
  }

  lemma {:induction false} GroupsWellFormed(gs: seq<seq<Weight>>)
    requires AllWellFormed(Flatten(gs))
    ensures forall k :: 0 <= k < |gs| ==> AllWellFormed(gs[k])
  {
    if gs != [] {
      var n := |gs| - 1;
      var a := Flatten(gs[..n]);
      assert forall i :: 0 <= i < |a| ==> Flatten(gs)[i] == a[i];
      GroupsWellFormed(gs[..n]);
      assert forall i :: 0 <= i < |gs[n]| ==> Flatten(gs)[|a| + i] == gs[n][i];
    }
  }

  lemma {:induction false} DeliveredLength(gs: seq<seq<Weight>>)
    requires forall k :: 0 <= k < |gs| ==> AllWellFormed(gs[k])
    ensures |Delivered(gs)| <= |Flatten(gs)|
    ensures (forall k :: 0 <= k < |gs| ==> DistinctNames(gs[k])) ==> Delivered(gs) == Flatten(gs)
    ensures (exists k :: 0 <= k < |gs| && !DistinctNames(gs[k])) ==> |Delivered(gs)| < |Flatten(gs)|
  {
    hide Decode;
    if gs != [] {
      DeliveredLength(gs[..|gs| - 1]);
      DecodeIffDistinct(gs[|gs| - 1]);
    }
  }

  // The slots of all buckets are the sender's list exactly when no bucket repeats a name.
  lemma DeliveryIffDistinct(ws: seq<Weight>, size: nat)
    requires AllWellFormed(ws)
    ensures Delivered(Groups(ws, size)) == ws
       <==> forall k :: 0 <= k < |Groups(ws, size)| ==> DistinctNames(Groups(ws, size)[k])
  {
    GroupsFlatten(ws, size);
    GroupsWellFormed(Groups(ws, size));
    DeliveredLength(Groups(ws, size));
  }

  // Distinct names over the whole list are enough.
  lemma {:induction false} SubgroupsDistinct(gs: seq<seq<Weight>>)
    requires DistinctNames(Flatten(gs))
    ensures forall k :: 0 <= k < |gs| ==> DistinctNames(gs[k])
  {
    if gs != [] {
      var n := |gs| - 1;
      var a := Flatten(gs[..n]);
      assert Flatten(gs) == a + gs[n];
      assert forall i :: 0 <= i < |a| ==> Flatten(gs)[i] == a[i];
      SubgroupsDistinct(gs[..n]);
      assert forall i :: 0 <= i < |gs[n]| ==> Flatten(gs)[|a| + i] == gs[n][i];
    }
  }

  lemma DeliveryOfDistinct(ws: seq<Weight>, size: nat)
    requires AllWellFormed(ws) && DistinctNames(ws)
    ensures Delivered(Groups(ws, size)) == ws
  {
    GroupsFlatten(ws, size);
    SubgroupsDistinct(Groups(ws, size));
    DeliveryIffDistinct(ws, size);
  }

  // Where bucket k starts in a receiver's storage: buckets alternate between two halves, or lie at its start if half is 0.
  function BaseOf(k: nat, half: nat): nat {
    if k % 2 == 0 then 0 else half
  }

  predicate AllViewable(gs: seq<seq<Weight>>, half: nat) {
    forall k :: 0 <= k < |gs| ==> AllAligned(Metas(gs[k]), BaseOf(k, half))
  }

  lemma ViewableAt(gs: seq<seq<Weight>>, half: nat, k: nat, j: nat)
    requires AllViewable(gs, half) && k < |gs| && j < |Metas(gs[k])|
    ensures Aligned(Metas(gs[k])[j], BaseOf(k, half))
  {
  }

  // What a sender can check: in every bucket, distinct names and every tensor at a multiple of its item size.
  ghost predicate Deliverable(gs: seq<seq<Weight>>, half: nat) {
    forall k :: 0 <= k < |gs| ==> DistinctNames(gs[k]) && AlignedWeights(gs[k], BaseOf(k, half))
  }

  lemma DeliverableIff(ws: seq<Weight>, size: nat, half: nat)
    requires AllWellFormed(ws)
    ensures var gs := Groups(ws, size); Deliverable(gs, half) <==> AllViewable(gs, half) && Delivered(gs) == ws
  {
    hide Groups, Metas, Delivered, DistinctNames, AlignedWeights, AllAligned;
    var gs := Groups(ws, size);
    DeliveryIffDistinct(ws, size);
    forall k | 0 <= k < |gs|
      ensures AlignedWeights(gs[k], BaseOf(k, half)) ==> AllAligned(Metas(gs[k]), BaseOf(k, half))
      ensures DistinctNames(gs[k]) && AllAligned(Metas(gs[k]), BaseOf(k, half)) ==> AlignedWeights(gs[k], BaseOf(k, half))
    {
      AlignedEntries(gs[k], BaseOf(k, half));
    }
  }

  // Every second bucket starts where the first half of the buffer ends: after an odd number of bytes a two-byte tensor at its
  // start cannot be viewed, whereas at the start of the first bucket it can.
  lemma OddHalfRaises(g: seq<Weight>, w: Weight, half: nat)
    requires w.layout.itemsize == 2 && half % 2 == 1
    ensures !Deliverable([g, [w]], half) && Deliverable([[w]], half)
  {
    assert [w][..0] == [];
    assert [g, [w]][1] == [w] && [[w]][0] == [w];
  }

  ghost predicate CommonItemsize(ws: seq<Weight>, s: Positive) {
    forall i :: 0 <= i < |ws| ==> ws[i].layout.itemsize == s
  }

  lemma {:induction false} CommonInGroups(gs: seq<seq<Weight>>, s: Positive)
    requires CommonItemsize(Flatten(gs), s)
    ensures forall k :: 0 <= k < |gs| ==> CommonItemsize(gs[k], s)
  {
    if gs != [] {
      var n := |gs| - 1;
      var a := Flatten(gs[..n]);
      assert forall i :: 0 <= i < |a| ==> Flatten(gs)[i] == a[i];
      CommonInGroups(gs[..n], s);
      assert forall i :: 0 <= i < |gs[n]| ==> Flatten(gs)[|a| + i] == gs[n][i];
    }
  }

  // Weights cast to one type can always be viewed, in halves that are whole numbers of items.
  lemma CommonItemsizeDelivers(ws: seq<Weight>, size: nat, half: nat, s: Positive)
    requires AllWellFormed(ws) && CommonItemsize(ws, s) && Whole(half, s)
    ensures AllViewable(Groups(ws, size), half)
    ensures DistinctNames(ws) ==> Deliverable(Groups(ws, size), half)
  {
    hide Groups, Metas, Delivered, DistinctNames, AlignedWeights, AllAligned, Flatten, Whole;
    NoItems(s);
    var gs := Groups(ws, size);
    GroupsFlatten(ws, size);
    GroupsWellFormed(gs);
    CommonInGroups(gs, s);
    forall k | 0 <= k < |gs|
      ensures AllAligned(Metas(gs[k]), BaseOf(k, half))
    {
      CommonItemsizeAligns(gs[k], s, BaseOf(k, half));
    }
    if DistinctNames(ws) {
      DeliveryOfDistinct(ws, size);
      DeliverableIff(ws, size, half);
    }
  }

  // Neighbouring buckets together exceed one bucket size.
  lemma TwoBucketsExceedSize(gs: seq<seq<Weight>>, k: nat, size: nat)
    requires ClosedWhenFull(gs, size) && k + 1 < |gs|
    ensures ByteCount(gs[k]) + ByteCount(gs[k + 1]) > size
  {
    CountsFirst(gs[k + 1]);
  }

  lemma {:induction false} CountsFirst(g: seq<Weight>)
    requires g != []
    ensures ByteCount(g) >= |g[0].data|
  {
    if |g| > 1 {
      CountsFirst(g[..|g| - 1]);
    }
  }

  lemma {:induction false} CountConcat(a: seq<Weight>, b: seq<Weight>)
    ensures ByteCount(a + b) == ByteCount(a) + ByteCount(b)
  {
    if b == [] {
      assert a + b == a;
    } else {
      var n := |b| - 1;
      CountConcat(a, b[..n]);
      assert (a + b)[..|a + b| - 1] == a + b[..n];
    }
  }

  lemma {:induction false} PairsExceed(gs: seq<seq<Weight>>, size: nat, pairs: nat)
    requires ClosedWhenFull(gs, size) && |gs| == pairs + pairs
    ensures ByteCount(Flatten(gs)) >= pairs * (size + 1)
  {
    hide ByteCount, Flatten;
    if pairs > 0 {
      var n := |gs| - 2;
      PairsExceed(gs[..n], size, pairs - 1);
      TwoBucketsExceedSize(gs, n, size);
      CountTwo(Flatten(gs[..n]), gs[n], gs[n + 1]);
      FlattenAppend(gs[..n], gs[n]);
      FlattenAppend(gs[..n] + [gs[n]], gs[n + 1]);
      assert gs == gs[..n] + [gs[n]] + [gs[n + 1]];
      NextProduct(pairs - 1, size + 1);
    }
  }

  lemma CountTwo(a: seq<Weight>, b: seq<Weight>, c: seq<Weight>)
    ensures ByteCount(a + b + c) == ByteCount(a) + ByteCount(b) + ByteCount(c)
  {
    CountConcat(a, b);
    CountConcat(a + b, c);
  }

  lemma {:induction false} CountOfPrefix(gs: seq<seq<Weight>>, e: nat)
    requires e <= |gs|
    ensures ByteCount(Flatten(gs[..e])) <= ByteCount(Flatten(gs))
  {
    if e < |gs| {
      var n := |gs| - 1;
      CountOfPrefix(gs[..n], e);
      assert gs[..n][..e] == gs[..e];
      CountConcat(Flatten(gs[..n]), gs[n]);
    } else {
      assert gs[..e] == gs;
    }
  }

  lemma PrefixOfPairs(gs: seq<seq<Weight>>, size: nat, pairs: nat)
    requires ClosedWhenFull(gs, size) && pairs == |gs| / 2
    ensures ByteCount(Flatten(gs)) >= pairs * size + pairs
  {
    hide Flatten, ByteCount, Overflows;
    var hs := gs[..pairs + pairs];
    assert forall k :: 0 <= k < |hs| ==> hs[k] == gs[k];
    assert ClosedWhenFull(hs, size);
    PairsExceed(hs, size, pairs);
    CountOfPrefix(gs, pairs + pairs);
    NextProduct(size, pairs);
  }

  // B >= 2 buckets mean more than (B div 2) bucket sizes of data.
  lemma BucketCountBound(ws: seq<Weight>, size: nat)
    requires AllFit(ws, size)
    ensures |Groups(ws, size)| >= 2 ==> ByteCount(ws) > |Groups(ws, size)| / 2 * size
  {
    GroupsAreGreedy(ws, size);
    PrefixOfPairs(Groups(ws, size), size, |Groups(ws, size)| / 2);
  }

  // A bucket as a reader finds it when it is announced: metadata, whole buffer, last flag.
  datatype Packet = Packet(metas: seq<TensorMeta>, buf: seq<Byte>, isLast: bool)

  ghost predicate Carries(p: Packet, g: seq<Weight>) {
    p.metas == Metas(g) && Bytes(g) <= p.buf
  }

  ghost predicate CarriesAll(ps: seq<Packet>, gs: seq<seq<Weight>>) {
    |ps| == |gs| && forall k :: 0 <= k < |ps| ==> Carries(ps[k], gs[k])
  }

  ghost predicate NoneLast(ps: seq<Packet>) {
    forall k :: 0 <= k < |ps| ==> !ps[k].isLast
  }

  ghost predicate OnlyFinalLast(ps: seq<Packet>) {
    ps != [] && ps[|ps| - 1].isLast && NoneLast(ps[..|ps| - 1])
  }

  // Announcing one more bucket.
  lemma AnnounceOne(ps: seq<Packet>, gs: seq<seq<Weight>>, p: Packet, g: seq<Weight>)
    requires CarriesAll(ps, gs) && NoneLast(ps) && Carries(p, g)
    ensures CarriesAll(ps + [p], gs + [g])
    ensures if p.isLast then OnlyFinalLast(ps + [p]) else NoneLast(ps + [p])
  {
    assert (ps + [p])[..|ps|] == ps;
  }

  /** The two preallocated device buffers of a sending rank. */
  class BucketSender {
    const sendBuf: array<Byte>
    const recvBuf: array<Byte>
    const bucketSize: nat

    ghost predicate Valid() {
      sendBuf != recvBuf && sendBuf.Length == recvBuf.Length == bucketSize
    }

    constructor (bucketSize: nat)
      ensures Valid() && this.bucketSize == bucketSize && fresh(sendBuf) && fresh(recvBuf)
    {
      this.bucketSize := bucketSize;
      sendBuf := new Byte[bucketSize](_ => 0);
      recvBuf := new Byte[bucketSize](_ => 0);
    }

    // The packing loop: announce the bucket and swap buffers when a weight does not fit, then copy the weight in.
    // An oversize weight stops the loop (the source's assertion) after the buckets before it were announced.
    method SendWeights(ws: seq<Weight>) returns (ok: bool, consumed: nat, sent: seq<Packet>)
      requires Valid()
      modifies sendBuf, recvBuf
      ensures ok <==> AllFit(ws, bucketSize)
      ensures ok ==> CarriesAll(sent, Groups(ws, bucketSize)) && OnlyFinalLast(sent)
      ensures !ok ==> consumed < |ws| && |ws[consumed].data| > bucketSize && NoneLast(sent)
                      && CarriesAll(sent, Groups(ws[..consumed], bucketSize))
    {
      hide Bytes, Metas, ByteCount, Pack;
      NothingPacked(ws, bucketSize);
      var send, recv := sendBuf, recvBuf;
      var bucketMeta: seq<TensorMeta>, offset: nat := [], 0;
      ghost var p := Packing([], []);
      sent, consumed := [], 0;
      while consumed < |ws|
        invariant consumed <= |ws| && forall i :: 0 <= i < consumed ==> |ws[i].data| <= bucketSize
        invariant (send == sendBuf && recv == recvBuf) || (send == recvBuf && recv == sendBuf)
        invariant p == Pack(ws[..consumed], bucketSize)
        invariant offset <= bucketSize && Holds(bucketMeta, offset, send, p.cur)
        invariant CarriesAll(sent, p.full) && NoneLast(sent)
      {
        PackNext(ws, bucketSize, consumed);
        ghost var cur := p.cur;
        if offset + |ws[consumed].data| > bucketSize {
          AnnounceOne(sent, p.full, Packet(bucketMeta, send[..], false), p.cur);
          sent := sent + [Packet(bucketMeta, send[..], false)];
          send, recv := recv, send;
          bucketMeta, offset, cur := [], 0, [];
          if |ws[consumed].data| > bucketSize {
            return false, consumed, sent;
          }
        }
        p := PackStep(p, ws[consumed], bucketSize);
        bucketMeta, offset := AppendTensor(bucketMeta, offset, send, ws[consumed], cur, p.cur);
        consumed := consumed + 1;
      }
      assert ws[..consumed] == ws;
      AnnounceOne(sent, p.full, Packet(bucketMeta, send[..], true), p.cur);
      sent := sent + [Packet(bucketMeta, send[..], true)];
      ok := true;
    }
  }

  lemma NothingPacked(ws: seq<Weight>, size: nat)
    ensures Pack(ws[..0], size) == Packing([], [])
    ensures Metas([]) == [] && Bytes([]) == [] && ByteCount([]) == 0
  {
  }

  // bucket_meta, offset and the filled part of the buffer describe the weights cur.
  ghost predicate Holds(metas: seq<TensorMeta>, offset: nat, buf: array<Byte>, cur: seq<Weight>)
    reads buf
  {
    metas == Metas(cur) && offset == ByteCount(cur) && Bytes(cur) <= buf[..]
  }

  // Record one weight in the bucket's metadata and copy its bytes in at the offset.
  method AppendTensor(metas: seq<TensorMeta>, offset: nat, buf: array<Byte>, w: Weight, ghost cur: seq<Weight>,
                      ghost cur': seq<Weight>)
    returns (metas': seq<TensorMeta>, offset': nat)
    requires Holds(metas, offset, buf, cur) && offset + |w.data| <= buf.Length && cur' == cur + [w]
    modifies buf
    ensures Holds(metas', offset', buf, cur') && offset' == offset + |w.data|
  {
    BytesLength(cur);
    BytesAppend(cur, w);
    MetasAppend(cur, w);
    metas' := DictSet(metas, TensorMeta(w.name, w.layout, offset));
    forall i | 0 <= i < |w.data| {
      buf[offset + i] := w.data[i];
    }
    offset' := offset + |w.data|;
    assert buf[..offset'] == Bytes(cur) + w.data;
  }

  // The receiving loop over one bucket's metadata, in a buffer at the start of its storage. It ends at the first view
  // that raises, after the tensors before it were yielded.
  method YieldTensors(metas: seq<TensorMeta>, buf: array<Byte>) returns (out: seq<Weight>, raised: bool)
    ensures !raised ==> Receive(metas, buf[..], 0) == Some(out)
    ensures raised ==> |out| < |metas| && View(buf[..], metas[|out|], 0) == None && Receive(metas, buf[..], 0) == None
    ensures |out| <= |metas| && out == Unpack(metas[..|out|], buf[..]) && AllAligned(metas[..|out|], 0)
    ensures forall i :: 0 <= i < |out| ==>
              var width := metas[i].layout.itemsize * Product(metas[i].layout.shape);
              metas[i].offset + width <= buf.Length ==> |out[i].data| == width
  {
    hide Numel, Product;
    out := [];
    for i := 0 to |metas|
      invariant |out| == i && out == Unpack(metas[..i], buf[..]) && AllAligned(metas[..i], 0)
      invariant forall x :: 0 <= x < i ==>
                  var width := metas[x].layout.itemsize * Product(metas[x].layout.shape);
                  metas[x].offset + width <= buf.Length ==> |out[x].data| == width
    {
      WindowIs(buf[..], metas[i]);
      var t := View(buf[..], metas[i], 0);
      if t == None {
        return out, true;
      }
      out := out + [t.value];
      assert metas[..i + 1] == metas[..i] + [metas[i]];
    }
    assert metas[..|metas|] == metas;
    raised := false;
  }

  function ReceiveEach(ps: seq<Packet>): Option<seq<Weight>> {
    if ps == [] then Some([])
    else
      var a, b := ReceiveEach(ps[..|ps| - 1]), Receive(ps[|ps| - 1].metas, ps[|ps| - 1].buf, 0);
      if a == None || b == None then None else Some(a.value + b.value)
  }

  lemma {:induction false} ReceiveAll(ps: seq<Packet>, gs: seq<seq<Weight>>)
    requires CarriesAll(ps, gs) && forall k :: 0 <= k < |gs| ==> AllWellFormed(gs[k])
    ensures ReceiveEach(ps) == if AllViewable(gs, 0) then Some(Delivered(gs)) else None
  {
    hide Bytes, Metas, Unpack, AllAligned;
    if gs != [] {
      var n := |gs| - 1;
      ReceiveAll(ps[..n], gs[..n]);
      UnpackPrefix(gs[n], ps[n].buf);
      assert AllViewable(gs, 0) <==> AllViewable(gs[..n], 0) && AllAligned(Metas(gs[n]), 0);
    }
  }

  // Packing into reused dirty buffers and viewing by the metadata gives the list back exactly when it is deliverable.
  lemma PackUnpackRoundTrip(ps: seq<Packet>, ws: seq<Weight>, size: nat)
    requires AllWellFormed(ws) && CarriesAll(ps, Groups(ws, size))
    ensures ReceiveEach(ps) == Some(ws) <==> Deliverable(Groups(ws, size), 0)
  {
    hide Groups, Deliverable, AllViewable, Delivered;
    GroupsFlatten(ws, size);
    GroupsWellFormed(Groups(ws, size));
    ReceiveAll(ps, Groups(ws, size));
    DeliverableIff(ws, size, 0);
  }
}
