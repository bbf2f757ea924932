/** The Mooncake relay chain: like NIXL, but a rank acknowledges a bucket by writing four magic bytes over the start of
    the half-buffer it was read from, and the owner polls those bytes before it reuses the half. */
module MooncakeRelay {
  import opened Weights
  import opened BucketPacking
  import opened Transfer

  const MAGIC: seq<Byte> := [0xAB, 0xDC, 0xEF, 0x88]

  datatype Info = Info(metas: seq<TensorMeta>, half: nat, len: nat, isLast: bool)

  datatype Pc = Filling | AwaitReuse | AwaitLast | Receive | Reading | Yielding | Acking | Done

  datatype Rank = Rank(
    pc: Pc,
    halves: seq<seq<Byte>>,   // buf[:bucket_size] and buf[bucket_size:]
    idx: nat,                 // sender: current half; receiver: buckets finished
    fill: Fill,               // sender: the packing loop
    shouldWait: bool,
    info: Info,               // receiver: info of the bucket at hand, with the previous rank's half
    left: set<nat>,           // receiver: byte positions still to be copied
    j: nat,                   // receiver: tensors of the bucket yielded so far
    out: seq<Weight>,
    sent: nat,                // buckets complete in this rank's buffer, and announced if there is a next rank
    got: nat)                 // infos received

  datatype State = State(ranks: seq<Rank>, chan: seq<seq<Info>>)

  // The acknowledgement has to fit in a half.
  ghost predicate ValidMagic(c: Config) {
    ValidConfig(c) && c.size >= 4 && Cast(c)
  }

  // The sender casts every weight to one type, and a half is a whole number of its items.
  ghost predicate Cast(c: Config) {
    exists s: Positive :: CommonItemsize(c.ws, s) && Whole(c.size, s)
  }

  // So no view of a receiver raises.
  lemma ViewsSucceed(c: Config, k: nat, j: nat)
    requires ValidMagic(c) && k < |G(c)| && j < |Metas(G(c)[k])|
    ensures AllViewable(G(c), c.size) && Aligned(Metas(G(c)[k])[j], BaseOf(k, c.size))
  {
    hide Groups, Metas, CommonItemsize, Whole, AllFit, AllWellFormed, AllViewable;
    var s: Positive :| CommonItemsize(c.ws, s) && Whole(c.size, s);
    CommonItemsizeDelivers(c.ws, c.size, c.size, s);
    ViewableAt(G(c), c.size, k, j);
  }

  datatype Event = PackWeight | SendFull | SendLast | SeeMagic | ReceiveInfo | CopyByte(i: nat) | EndRead
                 | YieldTensor | EndYield | WriteMagic

  ghost predicate RankShape(c: Config, q: Rank) {
    |q.halves| == 2 && |q.halves[0]| == |q.halves[1]| == c.size >= 4 && q.fill.next <= |c.ws| && q.info.half < 2
  }

  ghost predicate WellShaped(c: Config, s: State) {
    && |s.ranks| == |s.chan| == c.world >= 2
    && (forall r :: 0 <= r < c.world ==> RankShape(c, s.ranks[r]))
    && (forall r, i :: 0 <= r < c.world && 0 <= i < |s.chan[r]| ==> s.chan[r][i].half < 2)
  }

  // The half a rank is working on.
  function Current(q: Rank): nat {
    q.idx % 2
  }

  ghost predicate SeesMagic(c: Config, q: Rank)
    requires RankShape(c, q)
  {
    q.halves[Current(q)][..4] == MAGIC
  }

  ghost predicate Enabled(c: Config, s: State, r: nat, e: Event)
    requires WellShaped(c, s) && r < c.world
  {
    var q := s.ranks[r];
    match e
    case PackWeight => q.pc == Filling && q.fill.next < |c.ws| && !Full(c, q.fill)
    case SendFull => q.pc == Filling && q.fill.next < |c.ws| && Full(c, q.fill) && !q.fill.flushed
    case SendLast => q.pc == Filling && q.fill.next == |c.ws|
    case SeeMagic => q.pc in {AwaitReuse, AwaitLast} && SeesMagic(c, q)
    case ReceiveInfo => q.pc == Receive && r > 0 && s.chan[r - 1] != []
    case CopyByte(i) => q.pc == Reading && r > 0 && i in q.left && i < c.size
    case EndRead => q.pc == Reading && q.left == {}
    case YieldTensor => q.pc == Yielding && q.j < |q.info.metas| && Aligned(q.info.metas[q.j], BaseOf(q.idx, c.size))
    case EndYield => q.pc == Yielding && q.j == |q.info.metas|
    case WriteMagic => q.pc == Acking && r > 0
  }

  ghost function Packed(c: Config, q: Rank): Rank
    requires RankShape(c, q) && q.fill.next < |c.ws| && !Full(c, q.fill)
  {
    q.(halves := q.halves[Current(q) := Written(c, q.fill, q.halves[Current(q)])], fill := Added(c, q.fill))
  }

  ghost function Moved(c: Config, s: State, r: nat, e: Event): Rank
    requires WellShaped(c, s) && r < c.world && Enabled(c, s, r, e)
  {
    var q := s.ranks[r];
    match e
    case PackWeight => Packed(c, q)
    case SendFull =>
      q.(sent := q.sent + 1, idx := 1 - q.idx % 2, fill := Flushed(q.fill), shouldWait := true,
         pc := if q.shouldWait then AwaitReuse else Filling)
    case SendLast => q.(sent := q.sent + 1, pc := AwaitLast)
    case SeeMagic =>
      if q.pc == AwaitLast then q.(pc := Done)
      else if r == 0 then q.(pc := Filling)
      else q.(pc := Reading, left := Upto(q.info.len))
    case ReceiveInfo =>
      var m := s.chan[r - 1][0];
      var q' := q.(info := m, got := q.got + 1);
      if q.idx >= 2 && HasNext(c, r) then q'.(pc := AwaitReuse) else q'.(pc := Reading, left := Upto(m.len))
    case CopyByte(i) =>
      q.(halves := q.halves[Current(q) := q.halves[Current(q)][i := s.ranks[r - 1].halves[q.info.half][i]]],
         left := q.left - {i})
    case EndRead => q.(pc := Yielding, j := 0, sent := q.sent + 1)
    case YieldTensor => q.(out := q.out + [Window(q.halves[Current(q)], q.info.metas[q.j])], j := q.j + 1)
    case EndYield => q.(pc := Acking)
    case WriteMagic => q.(idx := q.idx + 1, pc := if q.info.isLast then Done else Receive)
  }

  function WithMagic(p: Rank, half: nat): Rank
    requires |p.halves| == 2 && half < 2 && |p.halves[half]| >= 4
  {
    p.(halves := p.halves[half := Splice(p.halves[half], 0, MAGIC)])
  }

  ghost function Apply(c: Config, s: State, r: nat, e: Event): State
    requires WellShaped(c, s) && r < c.world && Enabled(c, s, r, e)
  {
    var q := s.ranks[r];
    var ranks := s.ranks[r := Moved(c, s, r, e)];
    match e
    case SendFull => State(ranks, s.chan[r := s.chan[r] + [Info(q.fill.metas, Current(q), q.fill.offset, false)]])
    case SendLast => State(ranks, s.chan[r := s.chan[r] + [Info(q.fill.metas, Current(q), q.fill.offset, true)]])
    case ReceiveInfo => State(ranks, s.chan[r - 1 := s.chan[r - 1][1..]])
    case EndRead =>
      State(ranks, if HasNext(c, r) then s.chan[r := s.chan[r] + [q.info.(half := Current(q))]] else s.chan)
    case WriteMagic => State(ranks[r - 1 := WithMagic(s.ranks[r - 1], q.info.half)], s.chan)
    case _ => State(ranks, s.chan)
  }

  ghost predicate InitRank(q: Rank, r: nat) {
    && q.pc == (if r == 0 then Filling else Receive)
    && q.idx == q.j == q.sent == q.got == 0
    && q.fill == Begin() && q.out == [] && !q.shouldWait
  }

  // The halves start with arbitrary contents.
  ghost predicate Init(c: Config, s: State) {
    && WellShaped(c, s)
    && forall r :: 0 <= r < c.world ==> s.chan[r] == [] && InitRank(s.ranks[r], r)
  }

  // ---- What the acknowledgement bytes need ----

  // The bucket's own bytes can be mistaken for an acknowledgement, completing a short bucket with stale ones.
  ghost predicate LooksAcked(p: seq<Byte>) {
    forall i :: 0 <= i < 4 && i < |p| ==> p[i] == MAGIC[i]
  }

  lemma LookalikeBytes(p: seq<Byte>)
    requires |p| >= 4
    ensures LooksAcked(p) <==> p[0] == 0xAB && p[1] == 0xDC && p[2] == 0xEF && p[3] == 0x88
  {
    assert MAGIC[0] == 0xAB && MAGIC[1] == 0xDC && MAGIC[2] == 0xEF && MAGIC[3] == 0x88;
  }

  // No bucket whose half is reused can be mistaken for acknowledged. The last two buckets are free.
  ghost predicate MagicSafe(c: Config) {
    forall k: nat :: k + 2 < |G(c)| ==> !LooksAcked(Payload(c, k))
  }

  lemma UnackedIsVisible(p: seq<Byte>, buf: seq<Byte>)
    requires p <= buf && |buf| >= 4 && !LooksAcked(p)
    ensures buf[..4] != MAGIC
  {
    var i :| 0 <= i < 4 && i < |p| && p[i] != MAGIC[i];
    assert buf[..4][i] == p[i];
  }

  // ---- Invariants ----

  // A bucket's bytes once the next rank has acknowledged it.
  function Marked(p: seq<Byte>): seq<Byte> {
    MAGIC + (if |p| >= 4 then p[4..] else [])
  }

  ghost function Content(c: Config, k: nat, acks: nat): seq<Byte>
    requires k < |G(c)|
  {
    if acks > k then Marked(Payload(c, k)) else Payload(c, k)
  }

  ghost function InfoOf(c: Config, k: nat): Info
    requires k < |G(c)|
  {
    Info(Metas(G(c)[k]), k % 2, |Payload(c, k)|, k == |G(c)| - 1)
  }

  // The half may be changing under a rank that packs or reads into it.
  predicate Overwriting(q: Rank) {
    q.pc in {Filling, Reading}
  }

  // The buckets in the two halves of rank r when the next rank has acknowledged `acks` buckets.
  ghost predicate HalvesInv(c: Config, r: nat, q: Rank, acks: nat)
    requires RankShape(c, q)
  {
    && acks <= q.sent <= |G(c)|
    && (HasNext(c, r) ==> q.sent <= acks + 2 && (Overwriting(q) ==> q.sent <= acks + 1))
    && (q.sent >= 1 ==> Content(c, q.sent - 1, acks) <= q.halves[(q.sent - 1) % 2])
    && (q.sent >= 2 && !Overwriting(q) ==> Content(c, q.sent - 2, acks) <= q.halves[q.sent % 2])
  }

  ghost predicate PackInv(c: Config, q: Rank)
    requires RankShape(c, q)
  {
    q.idx == q.sent % 2 && (q.shouldWait <==> q.sent >= 1) && Midway(c, q.fill, q.halves[q.idx], q.sent)
  }

  ghost predicate SenderInv(c: Config, q: Rank)
    requires RankShape(c, q)
  {
    && q.out == []
    && match q.pc
       case Filling => PackInv(c, q)
       case AwaitReuse => PackInv(c, q) && q.fill.flushed && q.sent >= 2
       case AwaitLast => q.sent == |G(c)| && q.idx == (q.sent - 1) % 2
       case Done => q.sent == |G(c)|
       case _ => false
  }

  // What the buckets would deliver if every one were read after its acknowledgement had landed.
  function DeliveredMarked(gs: seq<seq<Weight>>): seq<Weight> {
    if gs == [] then []
    else DeliveredMarked(gs[..|gs| - 1]) + Unpack(Metas(gs[|gs| - 1]), Marked(Bytes(gs[|gs| - 1])))
  }

  // k whole buckets and j tensors of the next one have been yielded. On the last rank they are exact; on a rank with a
  // successor each is either exact or was read after the successor's magic bytes landed in the bucket.
  ghost predicate OutInv(c: Config, r: nat, q: Rank, k: nat, j: nat) {
    && k <= |G(c)| && |q.out| == |Delivered(G(c)[..k])| + j <= |Delivered(G(c))| == |DeliveredMarked(G(c))|
    && forall i :: 0 <= i < |q.out| ==>
         q.out[i] == Delivered(G(c))[i] || (HasNext(c, r) && q.out[i] == DeliveredMarked(G(c))[i])
  }

  ghost predicate ReceiverInv(c: Config, r: nat, q: Rank)
    requires RankShape(c, q)
  {
    var b := |G(c)|;
    && q.idx <= b
    && (q.pc in {AwaitReuse, Reading, Yielding, Acking} ==> q.idx < b && q.got == q.idx + 1 && q.info == InfoOf(c, q.idx))
    && match q.pc
       case Receive => q.got == q.sent == q.idx < b && OutInv(c, r, q, q.idx, 0)
       case AwaitReuse => q.sent == q.idx >= 2 && HasNext(c, r) && OutInv(c, r, q, q.idx, 0)
       case Reading => q.sent == q.idx && OutInv(c, r, q, q.idx, 0)
                       && CopiedExcept(q.halves[Current(q)], Payload(c, q.idx), q.left)
                       && (forall i :: i in q.left ==> i < |Payload(c, q.idx)|)
       case Yielding => q.sent == q.idx + 1 && q.j <= |q.info.metas| && OutInv(c, r, q, q.idx, q.j)
       case Acking => q.sent == q.idx + 1 && OutInv(c, r, q, q.idx + 1, 0)
       case Done => q.got == q.sent == q.idx == b && OutInv(c, r, q, b, 0)
       case _ => false
  }

  ghost predicate RankInv(c: Config, r: nat, q: Rank, acks: nat) {
    RankShape(c, q) && HalvesInv(c, r, q, acks) && (if r == 0 then SenderInv(c, q) else ReceiverInv(c, r, q))
  }

  // Rank r, which has announced `sent` buckets, and its successor q.
  ghost predicate LinkInv(c: Config, sent: nat, q: Rank, ch: seq<Info>) {
    && q.idx <= q.got <= sent <= |G(c)|
    && |ch| == sent - q.got
    && forall i :: 0 <= i < |ch| ==> ch[i] == InfoOf(c, q.got + i)
  }

  // The buckets the next rank has finished, that is, acknowledged.
  function Acks(c: Config, s: State, r: nat): nat
    requires |s.ranks| == c.world
  {
    if HasNext(c, r) then s.ranks[r + 1].idx else 0
  }

  ghost predicate RanksOk(c: Config, s: State) {
    |s.ranks| == c.world && forall r :: 0 <= r < c.world ==> RankInv(c, r, s.ranks[r], Acks(c, s, r))
  }

  ghost predicate LinksOk(c: Config, s: State) {
    && |s.ranks| == |s.chan| == c.world
    && forall r :: 0 <= r < c.world - 1 ==> LinkInv(c, s.ranks[r].sent, s.ranks[r + 1], s.chan[r])
  }

  ghost predicate Inv(c: Config, s: State) {
    && |s.ranks| == |s.chan| == c.world >= 2
    && RanksOk(c, s) && LinksOk(c, s)
    && s.chan[c.world - 1] == []
  }

  lemma InvShape(c: Config, s: State)
    requires Inv(c, s)
    ensures WellShaped(c, s)
  {
    hide HalvesInv, SenderInv, ReceiverInv, Groups, Metas, Bytes;
    forall r | 0 <= r < c.world
      ensures RankShape(c, s.ranks[r])
    {
      assert RankInv(c, r, s.ranks[r], Acks(c, s, r));
    }
    forall r, i | 0 <= r < c.world && 0 <= i < |s.chan[r]|
      ensures s.chan[r][i].half < 2
    {
      assert LinkInv(c, s.ranks[r].sent, s.ranks[r + 1], s.chan[r]);
    }
  }

  // ---- Facts about the buckets ----

  lemma {:induction false} DeliveredAt(gs: seq<seq<Weight>>, k: nat, j: nat)
    requires k < |gs| && j < |Metas(gs[k])|
    ensures |Delivered(gs)| == |DeliveredMarked(gs)|
    ensures var i := |Delivered(gs[..k])| + j;
      && i < |Delivered(gs)|
      && Delivered(gs)[i] == Decode(gs[k])[j]
      && DeliveredMarked(gs)[i] == Unpack(Metas(gs[k]), Marked(Bytes(gs[k])))[j]
  {
    hide Metas, Bytes, Marked, Window;
    var n := |gs| - 1;
    SameLengths(gs);
    SameLengths(gs[..n]);
    if k < n {
      DeliveredAt(gs[..n], k, j);
      assert gs[..n][..k] == gs[..k];
    }
  }

  lemma {:induction false} SameLengths(gs: seq<seq<Weight>>)
    ensures |Delivered(gs)| == |DeliveredMarked(gs)|
  {
    hide Metas, Bytes, Marked, Window;
    if gs != [] {
      SameLengths(gs[..|gs| - 1]);
    }
  }

  lemma {:induction false} DeliveredThrough(gs: seq<seq<Weight>>, k: nat)
    requires k <= |gs|
    ensures |Delivered(gs[..k])| <= |Delivered(gs)| == |DeliveredMarked(gs)|
    ensures k < |gs| ==> |Delivered(gs[..k + 1])| == |Delivered(gs[..k])| + |Metas(gs[k])|
  {
    hide Metas, Bytes, Marked, Window;
    SameLengths(gs);
    if k < |gs| {
      assert gs[..k + 1] == gs[..k] + [gs[k]];
      DeliveredAppend(gs[..k], gs[k]);
      assert |Decode(gs[k])| == |Metas(gs[k])|;
      DeliveredThrough(gs[..|gs| - 1], k);
      assert gs[..|gs| - 1][..k] == gs[..k];
    } else {
      assert gs[..k] == gs;
    }
  }

  // ---- Every step keeps the invariant, if the wait it ends was not fooled ----

  lemma InitInv(c: Config, s: State)
    requires ValidMagic(c) && Init(c, s)
    ensures Inv(c, s)
  {
    hide Bytes, Metas, ByteCount, Delivered, DeliveredMarked, Decode, Midway, Groups;
    assert G(c)[..0] == [];
    EmptyDelivery(c);
    BeginPacking(c, s.ranks[0].halves[0]);
    GroupsNotEmpty(c);
    forall r | 0 <= r < c.world
      ensures RankInv(c, r, s.ranks[r], Acks(c, s, r))
    {
      assert InitRank(s.ranks[r], r);
      if HasNext(c, r) {
        assert InitRank(s.ranks[r + 1], r + 1);
      }
    }
    forall r | 0 <= r < c.world - 1
      ensures LinkInv(c, s.ranks[r].sent, s.ranks[r + 1], s.chan[r])
    {
      assert InitRank(s.ranks[r], r) && InitRank(s.ranks[r + 1], r + 1);
    }
  }

  lemma GroupsNotEmpty(c: Config)
    ensures |G(c)| > 0
  {
  }

  lemma EmptyDelivery(c: Config)
    ensures |Delivered(G(c)[..0])| == 0 <= |Delivered(G(c))| == |DeliveredMarked(G(c))|
  {
    hide Groups;
    SameLengths(G(c));
    assert G(c)[..0] == [];
  }

  // The wait that a SeeMagic step ends is for a bucket that cannot be mistaken for acknowledged.
  ghost predicate NotFooled(c: Config, s: State, r: nat, e: Event)
    requires r < |s.ranks|
  {
    var q := s.ranks[r];
    e == SeeMagic && q.pc == AwaitReuse && 2 <= q.sent <= |G(c)| + 1 ==> !LooksAcked(Payload(c, q.sent - 2))
  }

  lemma Assemble(c: Config, s: State, s': State, r: nat)
    requires Inv(c, s) && r < c.world && |s'.ranks| == |s'.chan| == c.world
    requires forall i :: 0 <= i < c.world && i != r ==> s'.ranks[i] == s.ranks[i]
    requires forall i :: 0 <= i < c.world && i != r && i != r - 1 ==> s'.chan[i] == s.chan[i]
    requires r > 0 ==> s'.ranks[r].idx == s.ranks[r].idx
    requires RankInv(c, r, s'.ranks[r], Acks(c, s, r))
    requires r > 0 ==> LinkInv(c, s'.ranks[r - 1].sent, s'.ranks[r], s'.chan[r - 1])
    requires r < c.world - 1 ==> LinkInv(c, s'.ranks[r].sent, s'.ranks[r + 1], s'.chan[r])
    requires r == c.world - 1 ==> s'.chan[r] == []
    ensures Inv(c, s')
  {
    hide RankInv, LinkInv;
    AssembleRanks(c, s, s', r);
    AssembleLinks(c, s, s', r);
  }

  lemma AssembleRanks(c: Config, s: State, s': State, r: nat)
    requires RanksOk(c, s) && r < c.world && |s'.ranks| == c.world
    requires forall i :: 0 <= i < c.world && i != r ==> s'.ranks[i] == s.ranks[i]
    requires r > 0 ==> s'.ranks[r].idx == s.ranks[r].idx
    requires RankInv(c, r, s'.ranks[r], Acks(c, s, r))
    ensures RanksOk(c, s')
  {
    hide RankInv;
    forall i | 0 <= i < c.world
      ensures RankInv(c, i, s'.ranks[i], Acks(c, s', i))
    {
      assert Acks(c, s', i) == Acks(c, s, i);
    }
  }

  lemma AssembleLinks(c: Config, s: State, s': State, r: nat)
    requires LinksOk(c, s) && r < c.world && |s'.ranks| == |s'.chan| == c.world
    requires forall i :: 0 <= i < c.world && i != r ==> s'.ranks[i] == s.ranks[i]
    requires forall i :: 0 <= i < c.world && i != r && i != r - 1 ==> s'.chan[i] == s.chan[i]
    requires r > 0 ==> LinkInv(c, s'.ranks[r - 1].sent, s'.ranks[r], s'.chan[r - 1])
    requires r < c.world - 1 ==> LinkInv(c, s'.ranks[r].sent, s'.ranks[r + 1], s'.chan[r])
    ensures LinksOk(c, s')
  {
    hide LinkInv;
  }

  // The half being packed is not the one the previous bucket is in.
  lemma PackKeepsHalves(c: Config, q: Rank, acks: nat, buf: seq<Byte>, q': Rank)
    requires RankShape(c, q) && RankShape(c, q') && HalvesInv(c, 0, q, acks) && Overwriting(q) && Overwriting(q')
    requires q.idx == q.sent % 2 && q'.sent == q.sent && q'.halves == q.halves[Current(q) := buf]
    ensures HalvesInv(c, 0, q', acks)
  {
    hide Groups, Content;
  }

  lemma PackKeepsRank(c: Config, q: Rank, acks: nat)
    requires ValidMagic(c) && RankInv(c, 0, q, acks) && q.pc == Filling && q.fill.next < |c.ws| && !Full(c, q.fill)
    ensures RankInv(c, 0, Packed(c, q), acks)
  {
    hide Midway, HalvesInv, DictSet, Splice, Added;
    var q' := Packed(c, q);
    PackOne(c, q.fill, q.halves[Current(q)], q.sent);
    PackingBounds(c, q'.fill, q'.halves[Current(q)], q.sent);
    PackKeepsHalves(c, q, acks, q'.halves[Current(q)], q');
  }

  lemma PackingBounds(c: Config, f: Fill, buf: seq<Byte>, sent: nat)
    requires Midway(c, f, buf, sent)
    ensures f.next <= |c.ws| && sent < |G(c)|
  {
  }

  // Steps that touch no queue and keep the counters the neighbours see.
  lemma KeepLocal(c: Config, s: State, r: nat, q': Rank)
    requires Inv(c, s) && r < c.world && RankInv(c, r, q', Acks(c, s, r))
    requires var q := s.ranks[r]; q'.sent == q.sent && (r > 0 ==> q'.idx == q.idx && q'.got == q.got)
    ensures Inv(c, State(s.ranks[r := q'], s.chan))
  {
    hide RankInv, Groups, Metas;
    Assemble(c, s, State(s.ranks[r := q'], s.chan), r);
  }

  lemma FillingIsSender(c: Config, r: nat, q: Rank, acks: nat)
    requires RankInv(c, r, q, acks)
    ensures q.pc in {Filling, AwaitLast} ==> r == 0
    ensures q.pc in {Receive, Reading, Yielding, Acking} ==> r > 0
  {
    hide Groups, Metas, Bytes, OutInv, PackInv, HalvesInv;
  }

  lemma KeepPackWeight(c: Config, s: State, r: nat)
    requires ValidMagic(c) && Inv(c, s) && WellShaped(c, s) && r < c.world && Enabled(c, s, r, PackWeight)
    ensures Inv(c, Apply(c, s, r, PackWeight))
  {
    hide RankInv, LinkInv, Groups, Metas, Bytes, DictSet, Splice;
    FillingIsSender(c, r, s.ranks[r], Acks(c, s, r));
    PackKeepsRank(c, s.ranks[0], Acks(c, s, 0));
    KeepLocal(c, s, r, Moved(c, s, r, PackWeight));
  }

  lemma LinkAnnounce(c: Config, sent: nat, q: Rank, ch: seq<Info>, m: Info)
    requires LinkInv(c, sent, q, ch) && sent < |G(c)| && m == InfoOf(c, sent)
    ensures LinkInv(c, sent + 1, q, ch + [m])
  {
    hide Metas, Groups, Bytes;
  }

  // Flushing a bucket from the half being filled; the other half keeps its bucket.
  lemma FlushKeepsHalves(c: Config, r: nat, q: Rank, q': Rank, acks: nat)
    requires RankShape(c, q) && HalvesInv(c, r, q, acks) && Overwriting(q) && q.sent < |G(c)|
    requires Payload(c, q.sent) <= q.halves[q.sent % 2]
    requires q'.halves == q.halves && q'.sent == q.sent + 1 && RankShape(c, q')
    requires Overwriting(q') ==> q.sent == 0
    ensures HalvesInv(c, r, q', acks)
  {
    hide Groups, Bytes, Marked;
  }

  lemma SendFullKeepsRank(c: Config, s: State, acks: nat)
    requires WellShaped(c, s) && ValidMagic(c) && RankInv(c, 0, s.ranks[0], acks) && Enabled(c, s, 0, SendFull)
    ensures RankInv(c, 0, Moved(c, s, 0, SendFull), acks)
    ensures var q := s.ranks[0];
      q.sent + 1 < |G(c)| && Info(q.fill.metas, Current(q), q.fill.offset, false) == InfoOf(c, q.sent)
  {
    hide Bytes, Metas, Groups, Midway, HalvesInv;
    var q, q' := s.ranks[0], Moved(c, s, 0, SendFull);
    PackingBounds(c, q.fill, q.halves[q.idx], q.sent);
    FlushFull(c, q.fill, q.halves[q.idx], q.sent, q'.halves[q'.idx]);
    FlushKeepsHalves(c, 0, q, q', acks);
  }

  lemma SendLastKeepsRank(c: Config, s: State, acks: nat)
    requires WellShaped(c, s) && ValidMagic(c) && RankInv(c, 0, s.ranks[0], acks) && Enabled(c, s, 0, SendLast)
    ensures RankInv(c, 0, Moved(c, s, 0, SendLast), acks)
    ensures var q := s.ranks[0];
      q.sent + 1 == |G(c)| && Info(q.fill.metas, Current(q), q.fill.offset, true) == InfoOf(c, q.sent)
  {
    hide Bytes, Metas, Groups, Midway, HalvesInv;
    var q := s.ranks[0];
    FlushLast(c, q.fill, q.halves[q.idx], q.sent);
    FlushKeepsHalves(c, 0, q, Moved(c, s, 0, SendLast), acks);
  }

  lemma KeepSend(c: Config, s: State, r: nat, e: Event)
    requires ValidMagic(c) && Inv(c, s) && WellShaped(c, s) && r < c.world && e in {SendFull, SendLast} && Enabled(c, s, r, e)
    ensures Inv(c, Apply(c, s, r, e))
  {
    hide RankInv, LinkInv, Groups, Metas, Bytes;
    FillingIsSender(c, r, s.ranks[r], Acks(c, s, r));
    var q, s' := s.ranks[0], Apply(c, s, 0, e);
    if e == SendFull {
      SendFullKeepsRank(c, s, Acks(c, s, 0));
      LinkAnnounce(c, q.sent, s.ranks[1], s.chan[0], Info(q.fill.metas, Current(q), q.fill.offset, false));
    } else {
      SendLastKeepsRank(c, s, Acks(c, s, 0));
      LinkAnnounce(c, q.sent, s.ranks[1], s.chan[0], Info(q.fill.metas, Current(q), q.fill.offset, true));
    }
    Assemble(c, s, s', 0);
  }

  // What polling the magic bytes establishes when the bucket waited for cannot be mistaken.
  lemma MagicMeansAcked(c: Config, r: nat, q: Rank, acks: nat)
    requires RankShape(c, q) && HalvesInv(c, r, q, acks) && !Overwriting(q) && q.sent >= 2
    requires SeesMagic(c, q) && Current(q) == q.sent % 2 && !LooksAcked(Payload(c, q.sent - 2))
    ensures q.sent <= acks + 1
  {
    hide Groups, Bytes, Marked, LooksAcked;
    if acks <= q.sent - 2 {
      UnackedIsVisible(Payload(c, q.sent - 2), q.halves[q.sent % 2]);
    }
  }

  lemma WaitingRank(c: Config, r: nat, q: Rank, acks: nat)
    requires RankInv(c, r, q, acks) && q.pc == AwaitReuse
    ensures q.sent >= 2 && Current(q) == q.sent % 2
    ensures q.sent < |G(c)| && HalvesInv(c, r, q, acks)
  {
    hide Groups, Bytes, Metas, Pack, ByteCount, Marked, Overflows, OutInv, Content;
  }

  lemma ReuseKeepsHalves(c: Config, r: nat, q: Rank, acks: nat, q': Rank)
    requires RankShape(c, q) && HalvesInv(c, r, q, acks) && RankShape(c, q')
    requires !Overwriting(q) && (HasNext(c, r) && Overwriting(q') ==> q.sent <= acks + 1) && q'.halves == q.halves && q'.sent == q.sent
    ensures HalvesInv(c, r, q', acks)
  {
    hide Groups, Content;
  }

  lemma SeeMagicKeepsRank(c: Config, s: State, r: nat, acks: nat)
    requires WellShaped(c, s) && ValidMagic(c) && r < c.world && RankInv(c, r, s.ranks[r], acks)
    requires Enabled(c, s, r, SeeMagic) && NotFooled(c, s, r, SeeMagic)
    ensures RankInv(c, r, Moved(c, s, r, SeeMagic), acks)
  {
    hide Groups, Bytes, Metas, ByteCount, Pack, Content, OutInv, LooksAcked, Overflows;
    var q, q' := s.ranks[r], Moved(c, s, r, SeeMagic);
    if q.pc == AwaitReuse {
      hide HalvesInv;
      WaitingRank(c, r, q, acks);
      MagicMeansAcked(c, r, q, acks);
      ReuseKeepsHalves(c, r, q, acks, q');
      if r > 0 {
        GroupOk(c, q.idx);
        OutFrame(c, r, q, q');
        NothingCopied(q'.halves[Current(q')], Payload(c, q.idx));
      }
    }
  }

  lemma NothingCopied(buf: seq<Byte>, payload: seq<Byte>)
    requires |payload| <= |buf|
    ensures CopiedExcept(buf, payload, Upto(|payload|))
  {
  }

  lemma OutFrame(c: Config, r: nat, q: Rank, q': Rank)
    requires q'.out == q.out
    ensures forall k, j :: OutInv(c, r, q, k, j) ==> OutInv(c, r, q', k, j)
  {
    hide Groups, Delivered, DeliveredMarked;
  }

  lemma KeepSeeMagic(c: Config, s: State, r: nat)
    requires ValidMagic(c) && Inv(c, s) && WellShaped(c, s) && r < c.world && Enabled(c, s, r, SeeMagic)
    requires NotFooled(c, s, r, SeeMagic)
    ensures Inv(c, Apply(c, s, r, SeeMagic))
  {
    hide RankInv, LinkInv, Groups, NotFooled;
    SeeMagicKeepsRank(c, s, r, Acks(c, s, r));
    KeepLocal(c, s, r, Moved(c, s, r, SeeMagic));
  }

  lemma ReceivingRank(c: Config, r: nat, q: Rank, acks: nat)
    requires RankInv(c, r, q, acks) && r > 0 && q.pc == Receive
    ensures q.sent == q.idx < |G(c)| && HalvesInv(c, r, q, acks) && acks <= q.sent
  {
    hide Bytes, Metas, Groups, OutInv, Content;
  }

  lemma ReceiveKeepsRank(c: Config, s: State, r: nat, acks: nat)
    requires WellShaped(c, s) && ValidMagic(c) && 0 < r < c.world && RankInv(c, r, s.ranks[r], acks)
    requires Enabled(c, s, r, ReceiveInfo)
    requires s.ranks[r].got < |G(c)| && s.chan[r - 1][0] == InfoOf(c, s.ranks[r].got)
    ensures RankInv(c, r, Moved(c, s, r, ReceiveInfo), acks)
  {
    hide Bytes, Metas, Groups, HalvesInv, OutInv, CopiedExcept;
    var q, q' := s.ranks[r], Moved(c, s, r, ReceiveInfo);
    ReceivingRank(c, r, q, acks);
    GroupOk(c, q.idx);
    ReuseKeepsHalves(c, r, q, acks, q');
    OutFrame(c, r, q, q');
    NothingCopied(q'.halves[Current(q')], Payload(c, q.idx));
  }

  lemma KeepReceiveInfo(c: Config, s: State, r: nat)
    requires ValidMagic(c) && Inv(c, s) && WellShaped(c, s) && r < c.world && Enabled(c, s, r, ReceiveInfo)
    ensures Inv(c, Apply(c, s, r, ReceiveInfo))
  {
    hide RankInv, Groups, Metas, Bytes;
    var q, s' := s.ranks[r], Apply(c, s, r, ReceiveInfo);
    assert LinkInv(c, s.ranks[r - 1].sent, q, s.chan[r - 1]);
    ReceiveKeepsRank(c, s, r, Acks(c, s, r));
    Assemble(c, s, s', r);
  }

  // The half a reading rank copies from still holds the bucket announced to it.
  lemma SourceHalf(c: Config, r: nat, p: Rank, k: nat)
    requires RankShape(c, p) && HasNext(c, r) && HalvesInv(c, r, p, k) && k < p.sent
    ensures k < |G(c)| && Payload(c, k) <= p.halves[k % 2]
  {
    hide Groups, Bytes, Marked;
  }

  lemma CopyKeepsRank(c: Config, s: State, r: nat, i: nat, acks: nat)
    requires WellShaped(c, s) && ValidMagic(c) && 0 < r < c.world && RankInv(c, r, s.ranks[r], acks)
    requires Enabled(c, s, r, CopyByte(i))
    requires s.ranks[r].idx < |G(c)| && Payload(c, s.ranks[r].idx) <= s.ranks[r - 1].halves[s.ranks[r].info.half]
    ensures RankInv(c, r, Moved(c, s, r, CopyByte(i)), acks)
  {
    hide Groups, Bytes, Metas, Content, OutInv;
    OutFrame(c, r, s.ranks[r], Moved(c, s, r, CopyByte(i)));
  }

  lemma ReadingRank(c: Config, r: nat, q: Rank, acks: nat)
    requires RankInv(c, r, q, acks) && q.pc == Reading
    ensures r > 0 && q.sent == q.idx < |G(c)| && q.got == q.idx + 1 && q.info == InfoOf(c, q.idx)
    ensures CopiedExcept(q.halves[Current(q)], Payload(c, q.idx), q.left)
  {
    hide Groups, Bytes, Metas, Content, OutInv, HalvesInv, PackInv;
  }

  lemma SourceOfRead(c: Config, s: State, r: nat)
    requires Inv(c, s) && r < c.world && s.ranks[r].pc == Reading
    ensures r > 0 && s.ranks[r].idx < |G(c)| && |s.ranks[r - 1].halves| == 2 && s.ranks[r].info == InfoOf(c, s.ranks[r].idx)
    ensures Payload(c, s.ranks[r].idx) <= s.ranks[r - 1].halves[s.ranks[r].info.half]
  {
    hide Groups, Bytes, Metas, Content, OutInv, SenderInv, ReceiverInv, HalvesInv;
    assert RankInv(c, r, s.ranks[r], Acks(c, s, r));
    ReadingRank(c, r, s.ranks[r], Acks(c, s, r));
    assert RankInv(c, r - 1, s.ranks[r - 1], Acks(c, s, r - 1));
    assert LinkInv(c, s.ranks[r - 1].sent, s.ranks[r], s.chan[r - 1]);
    SourceHalf(c, r - 1, s.ranks[r - 1], s.ranks[r].idx);
  }

  lemma KeepCopyByte(c: Config, s: State, r: nat, i: nat)
    requires ValidMagic(c) && Inv(c, s) && WellShaped(c, s) && r < c.world && Enabled(c, s, r, CopyByte(i))
    ensures Inv(c, Apply(c, s, r, CopyByte(i)))
  {
    hide RankInv, LinkInv, Groups, Bytes, Metas;
    SourceOfRead(c, s, r);
    CopyKeepsRank(c, s, r, i, Acks(c, s, r));
    KeepLocal(c, s, r, Moved(c, s, r, CopyByte(i)));
  }

  lemma EndReadKeepsRank(c: Config, s: State, r: nat, acks: nat)
    requires WellShaped(c, s) && ValidMagic(c) && r < c.world && RankInv(c, r, s.ranks[r], acks)
    requires Enabled(c, s, r, EndRead)
    ensures RankInv(c, r, Moved(c, s, r, EndRead), acks)
    ensures var q := s.ranks[r]; q.sent < |G(c)| && q.info.(half := Current(q)) == InfoOf(c, q.sent)
  {
    hide Groups, Bytes, Metas, HalvesInv, OutInv;
    var q, q' := s.ranks[r], Moved(c, s, r, EndRead);
    ReadingRank(c, r, q, acks);
    FlushKeepsHalves(c, r, q, q', acks);
    OutFrame(c, r, q, q');
  }

  lemma KeepEndRead(c: Config, s: State, r: nat)
    requires ValidMagic(c) && Inv(c, s) && WellShaped(c, s) && r < c.world && Enabled(c, s, r, EndRead)
    ensures Inv(c, Apply(c, s, r, EndRead))
  {
    hide RankInv, LinkInv, Groups, Bytes, Metas;
    var q, s' := s.ranks[r], Apply(c, s, r, EndRead);
    ReadingRank(c, r, q, Acks(c, s, r));
    EndReadKeepsRank(c, s, r, Acks(c, s, r));
    assert LinkInv(c, s.ranks[r - 1].sent, q, s.chan[r - 1]);
    LinkFrame(c, s.ranks[r - 1].sent, q, s'.ranks[r], s.chan[r - 1]);
    if HasNext(c, r) {
      LinkAnnounce(c, q.sent, s.ranks[r + 1], s.chan[r], q.info.(half := Current(q)));
    }
    Assemble(c, s, s', r);
  }

  lemma LinkFrame(c: Config, sent: nat, q: Rank, q': Rank, ch: seq<Info>)
    requires LinkInv(c, sent, q, ch) && q'.got == q.got && q'.idx <= q.got
    ensures LinkInv(c, sent, q', ch)
  {
    hide Groups, Metas, Bytes;
  }

  // A view of any buffer that starts with the bucket's acknowledged bytes.
  lemma MarkedView(ws: seq<Weight>, buf: seq<Byte>, j: nat)
    requires AllWellFormed(ws) && Marked(Bytes(ws)) <= buf && j < |Metas(ws)|
    ensures Window(buf, Metas(ws)[j]) == Unpack(Metas(ws), Marked(Bytes(ws)))[j]
  {
    hide Metas, Bytes, ByteCount, NBytes, Marked;
    MetasInBounds(ws);
    BytesLength(ws);
    MarkedLength(Bytes(ws));
    var m := Metas(ws)[j];
    assert m in Metas(ws);
    var b, lo, hi := Marked(Bytes(ws)), m.offset, m.offset + NBytes(m.layout);
    assert buf[lo..hi] == b[lo..hi];
  }

  lemma MarkedLength(p: seq<Byte>)
    ensures |Marked(p)| >= |p|
  {
  }

  // What the consumer is handed is the bucket's tensor, exactly or as the acknowledgement left it.
  lemma ViewedTensor(c: Config, k: nat, acks: nat, buf: seq<Byte>, j: nat)
    requires ValidMagic(c) && k < |G(c)| && j < |Metas(G(c)[k])| && Content(c, k, acks) <= buf
    ensures var g, t := G(c)[k], Window(buf, Metas(G(c)[k])[j]);
      if acks > k then t == Unpack(Metas(g), Marked(Bytes(g)))[j] else t == Decode(g)[j]
  {
    hide Groups, Metas, Bytes, Marked, Window;
    GroupOk(c, k);
    if acks > k {
      MarkedView(G(c)[k], buf, j);
    } else {
      UnpackPrefix(G(c)[k], buf);
      assert Window(buf, Metas(G(c)[k])[j]) == Unpack(Metas(G(c)[k]), buf)[j];
    }
  }

  lemma YieldExtends(c: Config, r: nat, q: Rank, acks: nat, q': Rank)
    requires ValidMagic(c) && q.idx < |G(c)| && q.j < |Metas(G(c)[q.idx])| && OutInv(c, r, q, q.idx, q.j)
    requires |q.halves| == 2 && Content(c, q.idx, acks) <= q.halves[Current(q)] && (acks > 0 ==> HasNext(c, r))
    requires q'.out == q.out + [Window(q.halves[Current(q)], Metas(G(c)[q.idx])[q.j])]
    ensures OutInv(c, r, q', q.idx, q.j + 1)
  {
    hide Groups, Metas, Bytes, Marked, Window, Delivered, DeliveredMarked, Content, Decode, Unpack;
    ViewedTensor(c, q.idx, acks, q.halves[Current(q)], q.j);
    DeliveredAt(G(c), q.idx, q.j);
  }

  lemma YieldingRank(c: Config, r: nat, q: Rank, acks: nat)
    requires RankInv(c, r, q, acks) && q.pc == Yielding
    ensures r > 0 && q.idx < |G(c)| && q.info == InfoOf(c, q.idx) && q.sent == q.idx + 1 && q.j <= |q.info.metas|
    ensures OutInv(c, r, q, q.idx, q.j) && HalvesInv(c, r, q, acks) && Content(c, q.idx, acks) <= q.halves[Current(q)]
  {
    hide Groups, Metas, Bytes, Content, OutInv, PackInv;
  }

  // A rank's halves matter only through their contents, the announcements and whether one may be changing.
  lemma HalvesFrame(c: Config, r: nat, q: Rank, q': Rank, acks: nat)
    requires RankShape(c, q) && HalvesInv(c, r, q, acks) && RankShape(c, q')
    requires q'.halves == q.halves && q'.sent == q.sent && Overwriting(q') == Overwriting(q)
    ensures HalvesInv(c, r, q', acks)
  {
    hide Groups, Content;
  }

  lemma YieldKeepsRank(c: Config, s: State, r: nat, acks: nat)
    requires WellShaped(c, s) && ValidMagic(c) && r < c.world && RankInv(c, r, s.ranks[r], acks)
    requires (acks > 0 ==> HasNext(c, r)) && Enabled(c, s, r, YieldTensor)
    ensures RankInv(c, r, Moved(c, s, r, YieldTensor), acks)
  {
    hide Groups, Bytes, Metas, HalvesInv, OutInv, Content, Window;
    var q, q' := s.ranks[r], Moved(c, s, r, YieldTensor);
    YieldingRank(c, r, q, acks);
    YieldExtends(c, r, q, acks, q');
    HalvesFrame(c, r, q, q', acks);
  }

  lemma KeepYieldTensor(c: Config, s: State, r: nat)
    requires ValidMagic(c) && Inv(c, s) && WellShaped(c, s) && r < c.world && Enabled(c, s, r, YieldTensor)
    ensures Inv(c, Apply(c, s, r, YieldTensor))
  {
    hide RankInv, LinkInv, Groups, Window;
    YieldKeepsRank(c, s, r, Acks(c, s, r));
    KeepLocal(c, s, r, Moved(c, s, r, YieldTensor));
  }

  lemma OutNextBucket(c: Config, r: nat, q: Rank, k: nat)
    requires k < |G(c)| && OutInv(c, r, q, k, |Metas(G(c)[k])|)
    ensures OutInv(c, r, q, k + 1, 0)
  {
    hide Groups, Metas, Delivered, DeliveredMarked;
    DeliveredThrough(G(c), k);
  }

  lemma EndYieldKeepsRank(c: Config, s: State, r: nat, acks: nat)
    requires WellShaped(c, s) && ValidMagic(c) && r < c.world && RankInv(c, r, s.ranks[r], acks)
    requires Enabled(c, s, r, EndYield)
    ensures RankInv(c, r, Moved(c, s, r, EndYield), acks)
  {
    hide Groups, Bytes, Metas, HalvesInv, OutInv, Content;
    var q, q' := s.ranks[r], Moved(c, s, r, EndYield);
    YieldingRank(c, r, q, acks);
    OutNextBucket(c, r, q, q.idx);
    OutFrame(c, r, q, q');
    HalvesFrame(c, r, q, q', acks);
  }

  lemma KeepEndYield(c: Config, s: State, r: nat)
    requires ValidMagic(c) && Inv(c, s) && WellShaped(c, s) && r < c.world && Enabled(c, s, r, EndYield)
    ensures Inv(c, Apply(c, s, r, EndYield))
  {
    hide RankInv, LinkInv, Groups;
    EndYieldKeepsRank(c, s, r, Acks(c, s, r));
    KeepLocal(c, s, r, Moved(c, s, r, EndYield));
  }

  // ---- The acknowledgement: the one step that changes two ranks ----

  lemma AckingRank(c: Config, r: nat, q: Rank, acks: nat)
    requires RankInv(c, r, q, acks) && q.pc == Acking
    ensures r > 0 && q.idx < |G(c)| && q.info == InfoOf(c, q.idx) && q.sent == q.got == q.idx + 1
    ensures RankShape(c, q) && HalvesInv(c, r, q, acks) && OutInv(c, r, q, q.idx + 1, 0)
  {
    hide Groups, Metas, Bytes, Content, OutInv, PackInv;
  }

  lemma AckKeepsRank(c: Config, s: State, r: nat, acks: nat)
    requires WellShaped(c, s) && ValidMagic(c) && r < c.world && RankInv(c, r, s.ranks[r], acks)
    requires Enabled(c, s, r, WriteMagic)
    ensures RankInv(c, r, Moved(c, s, r, WriteMagic), acks)
  {
    hide Groups, Bytes, Metas, HalvesInv, OutInv, Content;
    var q, q' := s.ranks[r], Moved(c, s, r, WriteMagic);
    AckingRank(c, r, q, acks);
    OutFrame(c, r, q, q');
    HalvesFrame(c, r, q, q', acks);
  }

  lemma MarkHalf(p: seq<Byte>, buf: seq<Byte>)
    requires p <= buf && |buf| >= 4
    ensures Marked(p) <= Splice(buf, 0, MAGIC)
  {
  }

  // Marking bucket k in the owner's buffer acknowledges exactly bucket k.
  lemma MarkKeepsHalves(c: Config, r: nat, p: Rank, k: nat)
    requires RankShape(c, p) && HasNext(c, r) && HalvesInv(c, r, p, k) && k < p.sent
    ensures RankShape(c, WithMagic(p, k % 2)) && HalvesInv(c, r, WithMagic(p, k % 2), k + 1)
  {
    hide Groups, Bytes, Marked, Splice;
    SourceHalf(c, r, p, k);
    MarkHalf(Payload(c, k), p.halves[k % 2]);
    assert |Splice(p.halves[k % 2], 0, MAGIC)| == |p.halves[k % 2]| by {
      SpliceLength(p.halves[k % 2]);
    }
  }

  lemma SpliceLength(buf: seq<Byte>)
    requires |buf| >= 4
    ensures |Splice(buf, 0, MAGIC)| == |buf|
  {
  }

  lemma MarkKeepsOwner(c: Config, r: nat, p: Rank, k: nat)
    requires RankInv(c, r, p, k) && HasNext(c, r) && k < p.sent
    ensures RankInv(c, r, WithMagic(p, k % 2), k + 1)
  {
    hide Groups, Bytes, Metas, ByteCount, Pack, Overflows, HalvesInv, Content, OutInv, Splice;
    MarkKeepsHalves(c, r, p, k);
    OwnHalf(c, r, p, k);
    OutFrame(c, r, p, WithMagic(p, k % 2));
  }

  lemma OwnHalf(c: Config, r: nat, p: Rank, k: nat)
    requires RankInv(c, r, p, k) && HasNext(c, r) && k < p.sent
    ensures Overwriting(p) ==> Current(p) != k % 2
  {
    hide Groups, Bytes, Metas, ByteCount, Pack, Overflows, Content, OutInv, Splice;
  }

  lemma KeepWriteMagic(c: Config, s: State, r: nat)
    requires ValidMagic(c) && Inv(c, s) && WellShaped(c, s) && r < c.world && Enabled(c, s, r, WriteMagic)
    ensures Inv(c, Apply(c, s, r, WriteMagic))
  {
    hide RankInv, LinkInv, Groups, Metas, Bytes, WithMagic;
    var p, q, s' := s.ranks[r - 1], s.ranks[r], Apply(c, s, r, WriteMagic);
    assert RankInv(c, r - 1, p, Acks(c, s, r - 1));
    AckingRank(c, r, q, Acks(c, s, r));
    assert LinkInv(c, p.sent, q, s.chan[r - 1]);
    LinkRange(c, p.sent, q, s.chan[r - 1]);
    AckKeepsRank(c, s, r, Acks(c, s, r));
    MarkKeepsOwner(c, r - 1, p, q.idx);
    LinkFrame(c, p.sent, q, s'.ranks[r], s.chan[r - 1]);
    MarkFrame(p, q.idx % 2);
    AssembleTwo(c, s, s', r);
  }

  lemma LinkRange(c: Config, sent: nat, q: Rank, ch: seq<Info>)
    requires LinkInv(c, sent, q, ch)
    ensures q.idx <= q.got <= sent <= |G(c)|
  {
  }

  lemma MarkFrame(p: Rank, half: nat)
    requires |p.halves| == 2 && half < 2 && |p.halves[half]| >= 4
    ensures var p' := WithMagic(p, half); p'.sent == p.sent && p'.got == p.got && p'.idx == p.idx
  {
  }

  lemma AssembleTwo(c: Config, s: State, s': State, r: nat)
    requires Inv(c, s) && 0 < r < c.world && |s'.ranks| == c.world && s'.chan == s.chan
    requires forall i :: 0 <= i < c.world && i != r && i != r - 1 ==> s'.ranks[i] == s.ranks[i]
    requires RankInv(c, r, s'.ranks[r], Acks(c, s, r))
    requires RankInv(c, r - 1, s'.ranks[r - 1], s'.ranks[r].idx)
    requires var p, p' := s.ranks[r - 1], s'.ranks[r - 1]; p'.sent == p.sent && p'.got == p.got && p'.idx == p.idx
    requires s'.ranks[r].sent == s.ranks[r].sent && LinkInv(c, s.ranks[r - 1].sent, s'.ranks[r], s.chan[r - 1])
    ensures Inv(c, s')
  {
    hide RankInv, LinkInv;
    forall i | 0 <= i < c.world
      ensures RankInv(c, i, s'.ranks[i], Acks(c, s', i))
    {
      if i != r - 1 {
        assert Acks(c, s', i) == Acks(c, s, i);
      }
    }
    AssembleTwoLinks(c, s, s', r);
  }

  lemma AssembleTwoLinks(c: Config, s: State, s': State, r: nat)
    requires LinksOk(c, s) && 0 < r < c.world && |s'.ranks| == c.world && s'.chan == s.chan
    requires forall i :: 0 <= i < c.world && i != r && i != r - 1 ==> s'.ranks[i] == s.ranks[i]
    requires var p, p' := s.ranks[r - 1], s'.ranks[r - 1]; p'.sent == p.sent && p'.got == p.got && p'.idx == p.idx
    requires s'.ranks[r].sent == s.ranks[r].sent && LinkInv(c, s.ranks[r - 1].sent, s'.ranks[r], s.chan[r - 1])
    ensures LinksOk(c, s')
  {
    hide LinkInv;
    if r > 1 {
      LinkRange(c, s.ranks[r - 2].sent, s.ranks[r - 1], s.chan[r - 2]);
      LinkFrame(c, s.ranks[r - 2].sent, s.ranks[r - 1], s'.ranks[r - 1], s.chan[r - 2]);
    }
  }

  // Every step keeps the invariant, unless it is the end of a wait for a bucket that already looked acknowledged.
  lemma StepInv(c: Config, s: State, r: nat, e: Event)
    requires ValidMagic(c) && Inv(c, s) && WellShaped(c, s) && r < c.world && Enabled(c, s, r, e)
    requires NotFooled(c, s, r, e)
    ensures Inv(c, Apply(c, s, r, e))
  {
    hide Inv, Apply, Enabled, NotFooled, WellShaped;
    match e
    case PackWeight => KeepPackWeight(c, s, r);
    case SendFull => KeepSend(c, s, r, e);
    case SendLast => KeepSend(c, s, r, e);
    case SeeMagic => KeepSeeMagic(c, s, r);
    case ReceiveInfo => KeepReceiveInfo(c, s, r);
    case CopyByte(i) => KeepCopyByte(c, s, r, i);
    case EndRead => KeepEndRead(c, s, r);
    case YieldTensor => KeepYieldTensor(c, s, r);
    case EndYield => KeepEndYield(c, s, r);
    case WriteMagic => KeepWriteMagic(c, s, r);
  }
}
