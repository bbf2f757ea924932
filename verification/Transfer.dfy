/** What the relay and broadcast engines share: the buckets to be delivered, and a sender's packing loop caught
    between two of its steps. */
module Transfer {
  import opened Weights
  import opened BucketPacking

  // world counts the sending rank and the receiving ranks.
  datatype Config = Config(ws: seq<Weight>, size: nat, world: nat)

  ghost predicate ValidConfig(c: Config) {
    c.world >= 2 && AllWellFormed(c.ws) && AllFit(c.ws, c.size)
  }

  predicate HasNext(c: Config, r: nat) {
    r + 1 < c.world
  }

  ghost function G(c: Config): seq<seq<Weight>> {
    Groups(c.ws, c.size)
  }

  ghost function Payload(c: Config, k: nat): seq<Byte>
    requires k < |G(c)|
  {
    Bytes(G(c)[k])
  }

  // buf[offset : offset + len(data)] = data
  function Splice(buf: seq<Byte>, offset: nat, data: seq<Byte>): seq<Byte>
    requires offset + |data| <= |buf|
  {
    buf[..offset] + data + buf[offset + |data|..]
  }

  function Upto(n: nat): (u: set<nat>)
    ensures |u| == n && forall i :: i in u <==> 0 <= i < n
  {
    if n == 0 then {} else Upto(n - 1) + {n - 1}
  }

  // A copy of payload into buf with the positions in left still to come.
  ghost predicate CopiedExcept(buf: seq<Byte>, payload: seq<Byte>, left: set<nat>) {
    |payload| <= |buf| && forall i: nat :: i < |payload| && i !in left ==> buf[i] == payload[i]
  }

  // ---- Facts about the buckets ----

  lemma GroupOk(c: Config, k: nat)
    requires ValidConfig(c) && k < |G(c)|
    ensures AllWellFormed(G(c)[k]) && |Payload(c, k)| <= c.size
  {
    hide Flatten, Groups, Bytes, ByteCount;
    GroupsAreGreedy(c.ws, c.size);
    GroupsWellFormed(G(c));
    BytesLength(G(c)[k]);
  }

  // The bucket under construction when the next weight does not fit is bucket number |full|, and not the last.
  lemma FullBucket(c: Config, i: nat)
    requires i < |c.ws| && Overflows(Pack(c.ws[..i], c.size).cur, c.ws[i], c.size)
    ensures var p := Pack(c.ws[..i], c.size);
      |p.full| + 1 < |G(c)| && G(c)[|p.full|] == p.cur
  {
    hide Overflows, Pack;
    FlushedBucketIsNextGroup(c.ws, c.size, i);
    var p, f := Pack(c.ws[..i], c.size), Pack(c.ws, c.size).full;
    assert (p.full + [p.cur])[|p.full|] == f[|p.full|] == p.cur;
  }

  lemma LastBucket(c: Config)
    ensures var p := Pack(c.ws[..|c.ws|], c.size);
      |p.full| + 1 == |G(c)| && G(c)[|p.full|] == p.cur
  {
    hide Pack;
    assert c.ws[..|c.ws|] == c.ws;
  }

  lemma OpenBucket(c: Config, i: nat)
    requires i <= |c.ws|
    ensures |Pack(c.ws[..i], c.size).full| < |G(c)|
  {
    hide Pack;
    ClosedBucketsPersist(c.ws, c.size, i);
  }

  // ---- What a receiver has viewed ----

  // The views of the buckets before k and of the first j tensors of bucket k have not raised.
  ghost predicate Passed(c: Config, k: nat, j: nat, half: nat) {
    && (forall x :: 0 <= x < k && x < |G(c)| ==> AllAligned(Metas(G(c)[x]), BaseOf(x, half)))
    && (k < |G(c)| ==> forall i :: 0 <= i < j && i < |Metas(G(c)[k])| ==> Aligned(Metas(G(c)[k])[i], BaseOf(k, half)))
  }

  lemma NothingPassed(c: Config, half: nat)
    ensures Passed(c, 0, 0, half)
  {
  }

  lemma PassedTensor(c: Config, k: nat, j: nat, half: nat)
    requires Passed(c, k, j, half) && k < |G(c)| && j < |Metas(G(c)[k])| && Aligned(Metas(G(c)[k])[j], BaseOf(k, half))
    ensures Passed(c, k, j + 1, half)
  {
    hide Groups, Metas, Aligned;
  }

  lemma PassedBucket(c: Config, k: nat, half: nat)
    requires k < |G(c)| && Passed(c, k, |Metas(G(c)[k])|, half)
    ensures Passed(c, k + 1, 0, half)
  {
    hide Groups, Metas, Aligned;
  }

  lemma PassedAll(c: Config, half: nat)
    requires Passed(c, |G(c)|, 0, half)
    ensures AllViewable(G(c), half)
  {
    hide Groups, Metas, Aligned;
  }

  // ---- A sender's packing loop ----

  // The loop's local variables: weights consumed, bucket_meta, offset, and whether the bucket at hand was just sent and
  // weight `next` is still to be packed into the other buffer.
  datatype Fill = Fill(next: nat, metas: seq<TensorMeta>, offset: nat, flushed: bool)

  function Begin(): Fill {
    Fill(0, [], 0, false)
  }

  predicate Full(c: Config, f: Fill)
    requires f.next < |c.ws|
  {
    f.offset + |c.ws[f.next].data| > c.size
  }

  function Added(c: Config, f: Fill): Fill
    requires f.next < |c.ws|
  {
    var w := c.ws[f.next];
    Fill(f.next + 1, DictSet(f.metas, MetaOf(w, f.offset)), f.offset + |w.data|, false)
  }

  function Written(c: Config, f: Fill, buf: seq<Byte>): seq<Byte>
    requires f.next < |c.ws| && !Full(c, f) && |buf| == c.size
  {
    Splice(buf, f.offset, c.ws[f.next].data)
  }

  function Flushed(f: Fill): Fill {
    Fill(f.next, [], 0, true)
  }

  // The loop has sent `sent` buckets and is packing the next one into buf.
  ghost predicate Midway(c: Config, f: Fill, buf: seq<Byte>, sent: nat) {
    && f.next <= |c.ws| && sent < |G(c)|
    && var p := Pack(c.ws[..f.next], c.size);
       if f.flushed
       then f.next < |c.ws| && sent == |p.full| + 1 && f.metas == [] && f.offset == 0
            && Overflows(p.cur, c.ws[f.next], c.size)
       else sent == |p.full| && f.metas == Metas(p.cur) && f.offset == ByteCount(p.cur) && Bytes(p.cur) <= buf
  }

  lemma BeginPacking(c: Config, buf: seq<Byte>)
    ensures Midway(c, Begin(), buf, 0)
  {
    hide Bytes, Metas, ByteCount, Groups;
    OpenBucket(c, 0);
    NothingPacked(c.ws, c.size);
  }

  lemma SplicedPrefix(cur: seq<Weight>, w: Weight, buf: seq<Byte>, offset: nat)
    requires Bytes(cur) <= buf && offset == ByteCount(cur) && offset + |w.data| <= |buf|
    ensures Bytes(cur + [w]) <= Splice(buf, offset, w.data)
  {
    hide Bytes, ByteCount;
    BytesLength(cur);
    BytesAppend(cur, w);
  }

  lemma PackOne(c: Config, f: Fill, buf: seq<Byte>, sent: nat)
    requires Midway(c, f, buf, sent) && f.next < |c.ws| && !Full(c, f) && |buf| == c.size
    ensures Midway(c, Added(c, f), Written(c, f, buf), sent) && |Written(c, f, buf)| == c.size
  {
    hide Bytes, Metas, ByteCount, Groups, DictSet, Pack, Numel;
    var w := c.ws[f.next];
    PackNext(c.ws, c.size, f.next);
    OpenBucket(c, f.next + 1);
    var p := Pack(c.ws[..f.next], c.size);
    var cur := if f.flushed then [] else p.cur;
    NothingPacked(c.ws, c.size);
    MetasAppend(cur, w);
    BytesAppend(cur, w);
    SplicedPrefix(cur, w, buf, f.offset);
    assert [] + [w] == [w];
    assert Pack(c.ws[..f.next + 1], c.size).cur == cur + [w];
  }

  // A weight that does not fit closes bucket number `sent`, which is not the last one.
  lemma FlushFull(c: Config, f: Fill, buf: seq<Byte>, sent: nat, other: seq<Byte>)
    requires Midway(c, f, buf, sent) && f.next < |c.ws| && Full(c, f) && !f.flushed
    ensures sent + 1 < |G(c)| && f.metas == Metas(G(c)[sent]) && f.offset == |Payload(c, sent)| && Payload(c, sent) <= buf
    ensures Midway(c, Flushed(f), other, sent + 1)
  {
    hide Bytes, Metas, ByteCount, Groups, Pack;
    FullBucket(c, f.next);
    BytesLength(G(c)[sent]);
  }

  lemma FlushLast(c: Config, f: Fill, buf: seq<Byte>, sent: nat)
    requires Midway(c, f, buf, sent) && f.next == |c.ws|
    ensures sent + 1 == |G(c)| && f.metas == Metas(G(c)[sent]) && f.offset == |Payload(c, sent)| && Payload(c, sent) <= buf
  {
    hide Bytes, Metas, ByteCount, Groups, Pack;
    LastBucket(c);
    BytesLength(G(c)[sent]);
  }
}
