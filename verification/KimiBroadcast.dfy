/** The receiving side of the Kimi engine: every rollout rank walks the same list of buckets. A bucket's owner loads it
    into one half of its buffer and broadcasts it in a background task; meanwhile every rank yields the bucket before it
    from the other half. All ranks and all background copies interleave freely. */
module KimiBroadcast {
  import opened Weights
  import opened Options
  import opened Transfer
  import opened Arithmetic
  import opened Totals

  // owner: the rank that loads the bucket from the parameter server and broadcasts it.
  datatype Bucket = Bucket(owner: nat, metas: seq<TensorMeta>, payload: seq<Byte>)

  datatype Setup = Setup(bs: seq<Bucket>, size: nat, world: nat)

  ghost predicate ValidSetup(c: Setup) {
    && c.bs != []
    && forall g :: 0 <= g < |c.bs| ==> ValidBucket(c, c.bs[g])
  }

  ghost predicate ValidBucket(c: Setup, b: Bucket) {
    && b.owner < c.world && |b.payload| <= c.size
    && forall m :: m in b.metas ==> m.offset + NBytes(m.layout) <= |b.payload|
  }

  datatype Pc = Idle | Yielding | Wait | Last | Done

  datatype Rank = Rank(
    pc: Pc,
    buffer: seq<Byte>,          // two halves of bucket size
    gidx: nat,
    op: Option<set<nat>>,       // the broadcast at hand: bytes this rank has still to send, or to receive
    j: nat,                     // tensors of the bucket at hand yielded so far
    out: seq<Weight>)

  // wires[g]: the bytes of bucket g that have left its owner's buffer.
  datatype State = State(ranks: seq<Rank>, wires: seq<map<int, Byte>>)

  datatype Event = Start | SendByte(i: nat) | TakeByte(i: nat) | Finish | YieldTensor | EndYield

  function Base(c: Setup, g: nat): nat {
    g % 2 * c.size
  }

  // _to_named_tensor(metadata, base)
  function At(m: TensorMeta, base: nat): TensorMeta {
    m.(offset := base + m.offset)
  }

  ghost predicate RankShape(c: Setup, q: Rank) {
    |q.buffer| == c.size + c.size && q.gidx <= |c.bs| && (q.pc == Last ==> q.gidx > 0)
    && (q.pc == Yielding ==> 0 < q.gidx < |c.bs|)
  }

  ghost predicate WellShaped(c: Setup, s: State) {
    |s.ranks| == c.world && |s.wires| == |c.bs| && forall r :: 0 <= r < c.world ==> RankShape(c, s.ranks[r])
  }

  // A tensor of bucket g starts at a multiple of its item size in the flat buffer.
  predicate Viewable(c: Setup, g: int, j: int) {
    0 <= g < |c.bs| && 0 <= j < |c.bs[g].metas| ==> Aligned(At(c.bs[g].metas[j], Base(c, g)), 0)
  }

  ghost predicate AllBucketsViewable(c: Setup) {
    forall g, j :: 0 <= g < |c.bs| && 0 <= j < |c.bs[g].metas| ==> Viewable(c, g, j)
  }

  // The rank's loop has ended with an exception: the next view is not aligned, and no step of the loop follows.
  ghost predicate Raised(c: Setup, q: Rank)
    requires q.gidx <= |c.bs|
  {
    q.pc in {Yielding, Last} && q.j < |Shown(c, q)| && !Viewable(c, q.gidx - 1, q.j)
  }

  // The bucket yielded is the one before the broadcast at hand.
  function Shown(c: Setup, q: Rank): seq<TensorMeta>
    requires q.gidx <= |c.bs|
  {
    if q.gidx == 0 then [] else c.bs[q.gidx - 1].metas
  }

  ghost predicate Enabled(c: Setup, s: State, r: nat, e: Event)
    requires ValidSetup(c) && WellShaped(c, s) && r < c.world
  {
    var q := s.ranks[r];
    match e
    case Start => q.pc == Idle && q.gidx < |c.bs|
    case SendByte(i) => q.op.Some? && q.gidx < |c.bs| && c.bs[q.gidx].owner == r && i in q.op.value && i < c.size
    case TakeByte(i) => q.op.Some? && q.gidx < |c.bs| && c.bs[q.gidx].owner != r && i in q.op.value && i < c.size
                        && i in s.wires[q.gidx]
    case Finish => q.pc == Wait && q.op == Some({}) && q.gidx < |c.bs|
    case YieldTensor => q.pc in {Yielding, Last} && q.j < |Shown(c, q)| && Viewable(c, q.gidx - 1, q.j)
    case EndYield => q.pc in {Yielding, Last} && q.j == |Shown(c, q)|
  }

  lemma BaseFits(c: Setup, g: nat)
    ensures Base(c, g) == 0 || Base(c, g) == c.size
    ensures Base(c, g + 1) == c.size - Base(c, g)
  {
  }

  ghost function Moved(c: Setup, s: State, r: nat, e: Event): Rank
    requires ValidSetup(c) && WellShaped(c, s) && r < c.world && Enabled(c, s, r, e)
  {
    var q := s.ranks[r];
    BaseFits(c, q.gidx);
    match e
    case Start =>
      var b := c.bs[q.gidx];
      assert ValidBucket(c, b);
      q.(buffer := if b.owner == r then Splice(q.buffer, Base(c, q.gidx), b.payload) else q.buffer,
         op := Some(Upto(|b.payload|)), j := 0, pc := if q.gidx == 0 then Wait else Yielding)
    case SendByte(i) => q.(op := Some(q.op.value - {i}))
    case TakeByte(i) => q.(op := Some(q.op.value - {i}), buffer := q.buffer[Base(c, q.gidx) + i := s.wires[q.gidx][i]])
    case Finish => q.(op := None, gidx := q.gidx + 1, j := 0, pc := if q.gidx + 1 == |c.bs| then Last else Idle)
    case YieldTensor =>
      q.(out := q.out + [Window(q.buffer, At(Shown(c, q)[q.j], Base(c, q.gidx - 1)))], j := q.j + 1)
    case EndYield => q.(pc := if q.pc == Yielding then Wait else Done)
  }

  ghost function Apply(c: Setup, s: State, r: nat, e: Event): State
    requires ValidSetup(c) && WellShaped(c, s) && r < c.world && Enabled(c, s, r, e)
  {
    var q := s.ranks[r];
    BaseFits(c, q.gidx);
    State(s.ranks[r := Moved(c, s, r, e)],
          match e
          case SendByte(i) => s.wires[q.gidx := s.wires[q.gidx][i := q.buffer[Base(c, q.gidx) + i]]]
          case _ => s.wires)
  }

  ghost predicate Init(c: Setup, s: State) {
    && |s.ranks| == c.world && |s.wires| == |c.bs|
    && (forall g :: 0 <= g < |c.bs| ==> s.wires[g] == map[])
    && forall r :: 0 <= r < c.world ==> InitRank(c, s.ranks[r])
  }

  ghost predicate InitRank(c: Setup, q: Rank) {
    q.pc == Idle && |q.buffer| == c.size + c.size && q.gidx == q.j == 0 && q.op == None && q.out == []
  }

  // ---- Invariants ----

  function Content(b: Bucket): seq<Weight> {
    Unpack(b.metas, b.payload)
  }

  // What the first k buckets hold, in order.
  function Delivered(bs: seq<Bucket>): seq<Weight> {
    if bs == [] then [] else Delivered(bs[..|bs| - 1]) + Content(bs[|bs| - 1])
  }

  ghost predicate CopiedAt(buf: seq<Byte>, base: nat, payload: seq<Byte>, left: set<nat>) {
    && base + |payload| <= |buf|
    && forall i: nat :: i < |payload| && i !in left ==> buf[base + i] == payload[i]
  }

  ghost predicate HoldsBucket(c: Setup, q: Rank, g: nat)
    requires g < |c.bs|
  {
    CopiedAt(q.buffer, Base(c, g), c.bs[g].payload, {})
  }

  // The half of the broadcast at hand: complete on the owner, arriving elsewhere.
  ghost predicate OpInv(c: Setup, r: nat, q: Rank)
    requires q.gidx < |c.bs|
  {
    var b := c.bs[q.gidx];
    && q.op.Some?
    && (forall i :: i in q.op.value ==> i < |b.payload|)
    && CopiedAt(q.buffer, Base(c, q.gidx), b.payload, if b.owner == r then {} else q.op.value)
  }

  // The views of the buckets before k and of the first j tensors of bucket k have not raised.
  ghost predicate Passed(c: Setup, k: nat, j: nat) {
    && (forall g, i :: 0 <= g < k && g < |c.bs| && 0 <= i < |c.bs[g].metas| ==> Viewable(c, g, i))
    && forall i :: 0 <= i < j ==> Viewable(c, k, i)
  }

  ghost predicate Finished(c: Setup, q: Rank, k: nat) {
    k <= |c.bs| && q.out == Delivered(c.bs[..k]) && Passed(c, k, 0)
  }

  ghost predicate Yielded(c: Setup, q: Rank)
    requires 0 < q.gidx <= |c.bs|
  {
    var b := c.bs[q.gidx - 1];
    && q.j <= |b.metas| && HoldsBucket(c, q, q.gidx - 1)
    && q.out == Delivered(c.bs[..q.gidx - 1]) + Content(b)[..q.j] && Passed(c, q.gidx - 1, q.j)
  }

  ghost predicate RankInv(c: Setup, r: nat, q: Rank) {
    && RankShape(c, q)
    && match q.pc
       case Idle => q.gidx < |c.bs| && q.op.None? && (q.gidx == 0 ==> q.out == [])
                    && (q.gidx > 0 ==> q.j == 0 && Yielded(c, q))
       case Yielding => OpInv(c, r, q) && Yielded(c, q)
       case Wait => q.gidx < |c.bs| && OpInv(c, r, q) && Finished(c, q, q.gidx)
       case Last => q.gidx == |c.bs| && q.op.None? && Yielded(c, q)
       case Done => q.gidx == |c.bs| && q.op.None? && Finished(c, q, |c.bs|)
  }

  ghost predicate HasSent(q: Rank, g: nat, i: nat) {
    q.gidx > g || (q.gidx == g && q.op.Some? && i !in q.op.value)
  }

  // A wire carries bytes of its bucket, and every byte its owner has sent.
  ghost predicate WireInv(c: Setup, g: nat, q: Rank, wire: map<int, Byte>)
    requires g < |c.bs|
  {
    var p := c.bs[g].payload;
    && (forall i :: i in wire ==> 0 <= i < |p| && wire[i] == p[i])
    && forall i: nat :: i < |p| && HasSent(q, g, i) ==> i in wire
  }

  ghost predicate Inv(c: Setup, s: State) {
    && ValidSetup(c) && |s.ranks| == c.world && |s.wires| == |c.bs|
    && (forall r :: 0 <= r < c.world ==> RankInv(c, r, s.ranks[r]))
    && forall g :: 0 <= g < |c.bs| ==> c.bs[g].owner < c.world && WireInv(c, g, s.ranks[c.bs[g].owner], s.wires[g])
  }

  lemma InvShape(c: Setup, s: State)
    requires Inv(c, s)
    ensures WellShaped(c, s)
  {
    hide OpInv, Yielded, WireInv;
    forall r | 0 <= r < c.world
      ensures RankShape(c, s.ranks[r])
    {
      assert RankInv(c, r, s.ranks[r]);
    }
  }

  // ---- One rank ----

  // Writing into one half leaves the other.
  lemma OtherHalf(c: Setup, g: nat, buf: seq<Byte>, buf': seq<Byte>, payload: seq<Byte>)
    requires g > 0 && |buf| == |buf'| == c.size + c.size && |payload| <= c.size
    requires CopiedAt(buf, Base(c, g - 1), payload, {})
    requires forall i :: 0 <= i < |buf| && !(Base(c, g) <= i < Base(c, g) + c.size) ==> buf'[i] == buf[i]
    ensures CopiedAt(buf', Base(c, g - 1), payload, {})
  {
    BaseFits(c, g - 1);
  }

  lemma StartKeeps(c: Setup, s: State, r: nat)
    requires ValidSetup(c) && WellShaped(c, s) && r < c.world && Enabled(c, s, r, Start) && RankInv(c, r, s.ranks[r])
    ensures RankInv(c, r, Moved(c, s, r, Start))
  {
    hide Delivered, Content, Base, Upto;
    var q, q' := s.ranks[r], Moved(c, s, r, Start);
    var b := c.bs[q.gidx];
    assert ValidBucket(c, b);
    BaseFits(c, q.gidx);
    NoneDelivered();
    if q.gidx > 0 {
      assert ValidBucket(c, c.bs[q.gidx - 1]);
      OtherHalf(c, q.gidx, q.buffer, q'.buffer, c.bs[q.gidx - 1].payload);
    } else {
      assert c.bs[..q.gidx] == [];
    }
  }

  lemma NoneDelivered()
    ensures Delivered([]) == []
  {
  }

  lemma ByteKeeps(c: Setup, s: State, r: nat, e: Event)
    requires ValidSetup(c) && WellShaped(c, s) && r < c.world && Enabled(c, s, r, e) && RankInv(c, r, s.ranks[r])
    requires e.SendByte? || (e.TakeByte? && WireInv(c, s.ranks[r].gidx, s.ranks[c.bs[s.ranks[r].gidx].owner], s.wires[s.ranks[r].gidx]))
    ensures RankInv(c, r, Moved(c, s, r, e))
  {
    hide Delivered, Content;
    var q, q' := s.ranks[r], Moved(c, s, r, e);
    BaseFits(c, q.gidx);
    if q.gidx > 0 {
      assert ValidBucket(c, c.bs[q.gidx - 1]);
      if q.pc == Yielding {
        OtherHalf(c, q.gidx, q.buffer, q'.buffer, c.bs[q.gidx - 1].payload);
      }
    }
  }

  lemma DeliveredNext(bs: seq<Bucket>, k: nat)
    requires k < |bs|
    ensures Delivered(bs[..k + 1]) == Delivered(bs[..k]) + Content(bs[k])
    ensures |Content(bs[k])| == |bs[k].metas| && Content(bs[k])[..|bs[k].metas|] == Content(bs[k])
    ensures Delivered(bs[..k]) + Content(bs[k])[..0] == Delivered(bs[..k])
  {
    assert bs[..k + 1][..k] == bs[..k];
  }

  lemma FinishKeeps(c: Setup, s: State, r: nat)
    requires ValidSetup(c) && WellShaped(c, s) && r < c.world && Enabled(c, s, r, Finish) && RankInv(c, r, s.ranks[r])
    ensures RankInv(c, r, Moved(c, s, r, Finish))
  {
    hide Delivered, Content, Base;
    var q := s.ranks[r];
    DeliveredNext(c.bs, q.gidx);
  }

  lemma ViewAt(c: Setup, q: Rank, g: nat, j: nat)
    requires ValidSetup(c) && g < |c.bs| && j < |c.bs[g].metas| && HoldsBucket(c, q, g)
    ensures Window(q.buffer, At(c.bs[g].metas[j], Base(c, g))) == Content(c.bs[g])[j]
  {
    hide NBytes, Base;
    var b, m := c.bs[g], c.bs[g].metas[j];
    assert ValidBucket(c, b) && m in b.metas;
    var lo, n := Base(c, g) + m.offset, NBytes(m.layout);
    assert q.buffer[lo..lo + n] == b.payload[m.offset..m.offset + n];
  }

  lemma YieldKeeps(c: Setup, s: State, r: nat)
    requires ValidSetup(c) && WellShaped(c, s) && r < c.world && Enabled(c, s, r, YieldTensor) && RankInv(c, r, s.ranks[r])
    ensures RankInv(c, r, Moved(c, s, r, YieldTensor))
  {
    hide Delivered, Content, Base, Window;
    var q := s.ranks[r];
    var g := q.gidx - 1;
    DeliveredNext(c.bs, g);
    ViewAt(c, q, g, q.j);
    assert Content(c.bs[g])[..q.j + 1] == Content(c.bs[g])[..q.j] + [Content(c.bs[g])[q.j]];
  }

  lemma EndKeeps(c: Setup, s: State, r: nat)
    requires ValidSetup(c) && WellShaped(c, s) && r < c.world && Enabled(c, s, r, EndYield) && RankInv(c, r, s.ranks[r])
    ensures RankInv(c, r, Moved(c, s, r, EndYield))
  {
    hide Delivered, Content, Base, Window, Viewable;
    DeliveredNext(c.bs, s.ranks[r].gidx - 1);
  }

  // ---- The wires ----

  lemma SentWire(c: Setup, r: nat, q: Rank, wire: map<int, Byte>, i: nat)
    requires RankInv(c, r, q) && q.op.Some? && q.gidx < |c.bs| && i in q.op.value && c.bs[q.gidx].owner == r
    requires WireInv(c, q.gidx, q, wire) && i < c.size
    ensures Base(c, q.gidx) + i < |q.buffer|
    ensures WireInv(c, q.gidx, q.(op := Some(q.op.value - {i})), wire[i := q.buffer[Base(c, q.gidx) + i]])
  {
    hide Delivered, Content, Base;
  }

  // Steps other than sending do not make an owner send more.
  lemma SentStays(c: Setup, s: State, r: nat, e: Event, g: nat)
    requires ValidSetup(c) && WellShaped(c, s) && r < c.world && Enabled(c, s, r, e) && RankInv(c, r, s.ranks[r])
    requires g < |c.bs| && c.bs[g].owner == r && WireInv(c, g, s.ranks[r], s.wires[g])
    requires !e.SendByte? || s.ranks[r].gidx != g
    ensures WireInv(c, g, Moved(c, s, r, e), s.wires[g])
  {
    hide Delivered, Content, Base, Window;
  }

  lemma StepInv(c: Setup, s: State, r: nat, e: Event)
    requires Inv(c, s) && WellShaped(c, s) && r < c.world && Enabled(c, s, r, e)
    ensures Inv(c, Apply(c, s, r, e))
  {
    hide RankInv, WireInv, Moved, WellShaped;
    var q, s' := s.ranks[r], Apply(c, s, r, e);
    RankKeeps(c, s, r, e);
    forall g | 0 <= g < |c.bs|
      ensures WireInv(c, g, s'.ranks[c.bs[g].owner], s'.wires[g])
    {
      assert WireInv(c, g, s.ranks[c.bs[g].owner], s.wires[g]);
      if e.SendByte? && g == q.gidx {
        SendStep(c, s, r, e.i);
      } else if c.bs[g].owner == r {
        SentStays(c, s, r, e, g);
      }
    }
  }

  lemma SendStep(c: Setup, s: State, r: nat, i: nat)
    requires ValidSetup(c) && WellShaped(c, s) && r < c.world && Enabled(c, s, r, SendByte(i)) && RankInv(c, r, s.ranks[r])
    requires var g := s.ranks[r].gidx; g < |c.bs| && WireInv(c, g, s.ranks[r], s.wires[g])
    ensures var g, s' := s.ranks[r].gidx, Apply(c, s, r, SendByte(i));
      c.bs[g].owner == r && WireInv(c, g, s'.ranks[r], s'.wires[g])
  {
    hide RankInv, WireInv, Base;
    SentWire(c, r, s.ranks[r], s.wires[s.ranks[r].gidx], i);
  }

  lemma RankKeeps(c: Setup, s: State, r: nat, e: Event)
    requires Inv(c, s) && WellShaped(c, s) && r < c.world && Enabled(c, s, r, e)
    ensures RankInv(c, r, Moved(c, s, r, e))
  {
    hide RankInv, WireInv, Moved;
    match e
    case Start => StartKeeps(c, s, r);
    case SendByte(i) => ByteKeeps(c, s, r, e);
    case TakeByte(i) => ByteKeeps(c, s, r, e);
    case Finish => FinishKeeps(c, s, r);
    case YieldTensor => YieldKeeps(c, s, r);
    case EndYield => EndKeeps(c, s, r);
  }

  lemma InitInv(c: Setup, s: State)
    requires ValidSetup(c) && Init(c, s)
    ensures Inv(c, s)
  {
    forall g | 0 <= g < |c.bs|
      ensures c.bs[g].owner < c.world && WireInv(c, g, s.ranks[c.bs[g].owner], s.wires[g])
    {
      assert ValidBucket(c, c.bs[g]);
      assert InitRank(c, s.ranks[c.bs[g].owner]);
    }
    forall r | 0 <= r < c.world
      ensures RankInv(c, r, s.ranks[r])
    {
      assert InitRank(c, s.ranks[r]);
    }
  }

  // ---- Runs ----

  datatype Move = Move(rank: nat, event: Event)

  ghost predicate Takes(c: Setup, s: State, m: Move, s': State)
    requires ValidSetup(c)
  {
    WellShaped(c, s) && m.rank < c.world && Enabled(c, s, m.rank, m.event) && s' == Apply(c, s, m.rank, m.event)
  }

  ghost predicate IsRun(c: Setup, run: seq<State>, moves: seq<Move>) {
    && ValidSetup(c) && |run| == |moves| + 1 && Init(c, run[0])
    && forall i :: 0 <= i < |moves| ==> Takes(c, run[i], moves[i], run[i + 1])
  }

  lemma {:induction false} RunInv(c: Setup, run: seq<State>, moves: seq<Move>, i: nat)
    requires IsRun(c, run, moves) && i < |run|
    ensures Inv(c, run[i]) && WellShaped(c, run[i])
  {
    hide Inv, Enabled, Apply, Init, WellShaped, ValidSetup;
    if i == 0 {
      InitInv(c, run[0]);
    } else {
      RunInv(c, run, moves, i - 1);
      assert Takes(c, run[i - 1], moves[i - 1], run[i]);
      StepInv(c, run[i - 1], moves[i - 1].rank, moves[i - 1].event);
    }
    InvShape(c, run[i]);
  }

  lemma {:induction false} DeliveredPrefix(bs: seq<Bucket>, k: nat)
    requires k <= |bs|
    ensures Delivered(bs[..k]) <= Delivered(bs)
  {
    hide Content;
    if k == |bs| {
      assert bs[..k] == bs;
    } else {
      var n := |bs| - 1;
      DeliveredPrefix(bs[..n], k);
      assert bs[..n][..k] == bs[..k];
    }
  }

  lemma OutIsPrefix(c: Setup, r: nat, q: Rank)
    requires RankInv(c, r, q)
    ensures q.out <= Delivered(c.bs) && (q.pc == Done ==> q.out == Delivered(c.bs) && AllBucketsViewable(c))
    ensures Raised(c, q) ==> !AllBucketsViewable(c)
  {
    hide Delivered, Content, OpInv, HoldsBucket, Viewable;
    DeliveredPrefix(c.bs, q.gidx);
    if q.gidx > 0 {
      DeliveredNext(c.bs, q.gidx - 1);
    }
    if q.pc == Done {
      assert c.bs[..|c.bs|] == c.bs;
    }
  }

  // Every rank yields the buckets' tensors in list order, and all of them if it returns. A loop raises only over a tensor
  // that is not aligned.
  lemma EveryRankDelivers(c: Setup, run: seq<State>, moves: seq<Move>, i: nat, r: nat)
    requires IsRun(c, run, moves) && i < |run| && r < c.world
    ensures |run[i].ranks| == c.world && run[i].ranks[r].gidx <= |c.bs|
    ensures run[i].ranks[r].out <= Delivered(c.bs)
    ensures run[i].ranks[r].pc == Done ==> run[i].ranks[r].out == Delivered(c.bs) && AllBucketsViewable(c)
    ensures Raised(c, run[i].ranks[r]) ==> !AllBucketsViewable(c)
  {
    hide RankInv, WireInv, Delivered, AllBucketsViewable, Raised;
    RunInv(c, run, moves, i);
    OutIsPrefix(c, r, run[i].ranks[r]);
  }

  // The half of a rank's buffer that a move writes.
  ghost predicate Writes(c: Setup, s: State, m: Move, half: nat)
    requires m.rank < |s.ranks|
  {
    && (m.event == Start || m.event.TakeByte?)
    && half == s.ranks[m.rank].gidx % 2
  }

  ghost predicate BeingYielded(q: Rank, half: nat) {
    q.pc in {Yielding, Last} && q.gidx > 0 && half == (q.gidx - 1) % 2
  }

  // The half being loaded or broadcast into is never the one the consumer is given views of.
  lemma NeverIntoYieldedHalf(c: Setup, run: seq<State>, moves: seq<Move>, i: nat, half: nat)
    requires IsRun(c, run, moves) && i < |moves| && half < 2
    ensures moves[i].rank < |run[i].ranks| == |run[i + 1].ranks| && |run[i].ranks| == c.world
    ensures Writes(c, run[i], moves[i], half) ==> !BeingYielded(run[i].ranks[moves[i].rank], half)
    ensures !Writes(c, run[i], moves[i], half) ==>
              var q, q' := run[i].ranks[moves[i].rank], run[i + 1].ranks[moves[i].rank];
              |q.buffer| == |q'.buffer| == c.size + c.size
              && forall x :: half * c.size <= x < half * c.size + c.size ==> q'.buffer[x] == q.buffer[x]
  {
    hide Inv, Init, Apply, Moved, Enabled;
    RunInv(c, run, moves, i);
    RunInv(c, run, moves, i + 1);
    assert Takes(c, run[i], moves[i], run[i + 1]);
    MoveWrites(c, run[i], moves[i], half);
    MoverOnly(c, run[i], moves[i]);
  }

  lemma MoverOnly(c: Setup, s: State, m: Move)
    requires ValidSetup(c) && WellShaped(c, s) && m.rank < c.world && Enabled(c, s, m.rank, m.event)
    ensures var s' := Apply(c, s, m.rank, m.event);
      |s'.ranks| == c.world && s'.ranks[m.rank] == Moved(c, s, m.rank, m.event)
  {
  }

  lemma MoveWrites(c: Setup, s: State, m: Move, half: nat)
    requires ValidSetup(c) && WellShaped(c, s) && m.rank < c.world && Enabled(c, s, m.rank, m.event) && half < 2
    ensures Writes(c, s, m, half) ==> !BeingYielded(s.ranks[m.rank], half)
    ensures !Writes(c, s, m, half) ==>
              var q, q' := s.ranks[m.rank], Moved(c, s, m.rank, m.event);
              |q.buffer| == |q'.buffer| == c.size + c.size
              && forall x :: half * c.size <= x < half * c.size + c.size ==> q'.buffer[x] == q.buffer[x]
  {
    hide Window, Upto;
    var q := s.ranks[m.rank];
    BaseFits(c, q.gidx);
    if m.event == Start {
      assert ValidBucket(c, c.bs[q.gidx]);
    }
  }

  // ---- Progress ----

  ghost predicate RankStuck(c: Setup, s: State, r: nat)
    requires ValidSetup(c) && WellShaped(c, s) && r < c.world
  {
    forall e: Event :: !Enabled(c, s, r, e)
  }

  ghost predicate AllStuck(c: Setup, s: State)
    requires ValidSetup(c) && WellShaped(c, s)
  {
    forall r :: 0 <= r < c.world ==> RankStuck(c, s, r)
  }

  ghost predicate NoneRaised(c: Setup, s: State)
    requires WellShaped(c, s)
  {
    forall r :: 0 <= r < c.world ==> !Raised(c, s.ranks[r])
  }

  lemma Unstuck(c: Setup, s: State, r: nat, e: Event)
    requires ValidSetup(c) && WellShaped(c, s) && r < c.world && Enabled(c, s, r, e)
    ensures !RankStuck(c, s, r)
  {
  }

  // A stuck rank whose loop has not raised has returned or misses a byte of a bucket it does not own.
  lemma StuckWaits(c: Setup, s: State, r: nat) returns (i: nat)
    requires Inv(c, s) && WellShaped(c, s) && r < c.world && RankStuck(c, s, r) && !Raised(c, s.ranks[r])
    ensures var q := s.ranks[r];
      q.pc == Done || (q.gidx < |c.bs| && c.bs[q.gidx].owner != r && i < |c.bs[q.gidx].payload| && i !in s.wires[q.gidx])
  {
    hide WireInv, Delivered, RankStuck;
    i := 0;
    var q := s.ranks[r];
    assert RankInv(c, r, q);
    if q.pc == Idle {
      Unstuck(c, s, r, Start);
    } else if q.pc in {Yielding, Last} {
      Unstuck(c, s, r, if q.j < |Shown(c, q)| then YieldTensor else EndYield);
    } else if q.pc == Wait {
      if q.op.value == {} {
        Unstuck(c, s, r, Finish);
      } else {
        i :| i in q.op.value;
        assert ValidBucket(c, c.bs[q.gidx]);
        if c.bs[q.gidx].owner == r {
          Unstuck(c, s, r, SendByte(i));
        } else if i in s.wires[q.gidx] {
          Unstuck(c, s, r, TakeByte(i));
        }
      }
    }
  }

  // The owner it waits for is stuck at an earlier bucket, and so on down to the first.
  lemma {:induction false} NobodyWaits(c: Setup, s: State, r: nat)
    requires Inv(c, s) && WellShaped(c, s) && r < c.world && AllStuck(c, s) && NoneRaised(c, s)
    ensures s.ranks[r].pc == Done
    decreases s.ranks[r].gidx
  {
    hide RankInv, Enabled, RankStuck, Delivered;
    var i := StuckWaits(c, s, r);
    var q := s.ranks[r];
    if q.pc != Done {
      var o := c.bs[q.gidx].owner;
      assert WireInv(c, q.gidx, s.ranks[o], s.wires[q.gidx]);
      if s.ranks[o].gidx < q.gidx {
        NobodyWaits(c, s, o);
        DoneAtEnd(c, o, s.ranks[o]);
      } else {
        OwnerMoves(c, s, o);
      }
    }
  }

  lemma DoneAtEnd(c: Setup, r: nat, q: Rank)
    requires RankInv(c, r, q) && q.pc == Done
    ensures q.gidx == |c.bs|
  {
  }

  // An owner never waits at its own bucket.
  lemma OwnerMoves(c: Setup, s: State, o: nat)
    requires Inv(c, s) && WellShaped(c, s) && o < c.world && s.ranks[o].gidx < |c.bs| && c.bs[s.ranks[o].gidx].owner == o
    requires !Raised(c, s.ranks[o])
    ensures !RankStuck(c, s, o)
  {
    hide RankInv, Enabled, RankStuck, Delivered, WireInv;
    assert RankInv(c, o, s.ranks[o]);
    if RankStuck(c, s, o) {
      var i := StuckWaits(c, s, o);
      DoneAtEnd(c, o, s.ranks[o]);
    }
  }

  // Some rank or background copy can move, or every rank has returned, or some loop has raised.
  lemma NoDeadlock(c: Setup, run: seq<State>, moves: seq<Move>, i: nat)
    requires IsRun(c, run, moves) && i < |run|
    ensures WellShaped(c, run[i])
    ensures AllStuck(c, run[i]) && NoneRaised(c, run[i]) ==> forall r :: 0 <= r < c.world ==> run[i].ranks[r].pc == Done
    ensures AllBucketsViewable(c) ==> NoneRaised(c, run[i])
  {
    hide RankInv, WireInv, Enabled, RankStuck, Init, Apply, Raised, AllBucketsViewable;
    RunInv(c, run, moves, i);
    forall r | 0 <= r < c.world
      ensures Raised(c, run[i].ranks[r]) ==> !AllBucketsViewable(c)
    {
      OutIsPrefix(c, r, run[i].ranks[r]);
    }
    if AllStuck(c, run[i]) && NoneRaised(c, run[i]) {
      forall r | 0 <= r < c.world
        ensures run[i].ranks[r].pc == Done
      {
        NobodyWaits(c, run[i], r);
      }
    }
  }

  ghost function Ahead(c: Setup, g: int): int {
    (|c.bs| - g) * (c.size + 4)
  }

  lemma AheadNext(c: Setup, g: int)
    ensures Ahead(c, g) == Ahead(c, g + 1) + c.size + 4
    ensures g <= |c.bs| ==> Ahead(c, g) >= 0
  {
    if g <= |c.bs| {
      Monotone(0, |c.bs| - g, c.size + 4);
    }
  }

  ghost function RankMeasure(c: Setup, q: Rank): int {
    Ahead(c, q.gidx) + (if q.op.Some? then |q.op.value| else 0) + (|Delivered(c.bs)| - |q.out|)
    + (match q.pc case Idle => c.size + 3 case Yielding => 2 case Wait => 0 case Last => 2 case Done => 0)
  }

  ghost function Measure(c: Setup, s: State): int {
    Total(seq(|s.ranks|, r requires 0 <= r < |s.ranks| => RankMeasure(c, s.ranks[r])))
  }

  lemma MoverMeasure(c: Setup, s: State, r: nat, e: Event)
    requires ValidSetup(c) && WellShaped(c, s) && r < c.world && Enabled(c, s, r, e) && RankInv(c, r, s.ranks[r])
    ensures RankMeasure(c, Moved(c, s, r, e)) < RankMeasure(c, s.ranks[r])
  {
    hide Delivered, Window, RankShape, OpInv, Yielded, Base, Ahead, Finished, Viewable, Splice;
    AheadNext(c, s.ranks[r].gidx);
    if e == Start {
      assert ValidBucket(c, c.bs[s.ranks[r].gidx]);
    }
  }

  lemma StepDecreases(c: Setup, s: State, r: nat, e: Event)
    requires Inv(c, s) && WellShaped(c, s) && r < c.world && Enabled(c, s, r, e)
    ensures Measure(c, Apply(c, s, r, e)) < Measure(c, s)
  {
    hide RankInv, WireInv, Moved, RankMeasure, Total;
    var s' := Apply(c, s, r, e);
    MoverMeasure(c, s, r, e);
    TotalDrops(seq(|s.ranks|, x requires 0 <= x < |s.ranks| => RankMeasure(c, s.ranks[x])),
               seq(|s'.ranks|, x requires 0 <= x < |s'.ranks| => RankMeasure(c, s'.ranks[x])), r);
  }

  lemma MeasureNonNegative(c: Setup, s: State)
    requires Inv(c, s)
    ensures Measure(c, s) >= 0
  {
    hide RankInv, WireInv, Total, RankMeasure;
    forall r | 0 <= r < c.world
      ensures RankMeasure(c, s.ranks[r]) >= 0
    {
      RankMeasureNonNegative(c, r, s.ranks[r]);
    }
    TotalNonNegative(seq(|s.ranks|, r requires 0 <= r < |s.ranks| => RankMeasure(c, s.ranks[r])));
  }

  lemma RankMeasureNonNegative(c: Setup, r: nat, q: Rank)
    requires RankInv(c, r, q)
    ensures RankMeasure(c, q) >= 0
  {
    hide Delivered, OpInv, Yielded, Ahead;
    OutIsPrefix(c, r, q);
    AheadNext(c, q.gidx);
  }

  // Every run ends.
  lemma {:induction false} RunsAreBounded(c: Setup, run: seq<State>, moves: seq<Move>, i: nat)
    requires IsRun(c, run, moves) && i < |run|
    ensures 0 <= Measure(c, run[i]) <= Measure(c, run[0]) - i
  {
    hide Inv, Enabled, Apply, Init, Measure, WellShaped;
    RunInv(c, run, moves, i);
    MeasureNonNegative(c, run[i]);
    if i > 0 {
      RunsAreBounded(c, run, moves, i - 1);
      RunInv(c, run, moves, i - 1);
      assert Takes(c, run[i - 1], moves[i - 1], run[i]);
      StepDecreases(c, run[i - 1], moves[i - 1].rank, moves[i - 1].event);
    }
  }

  // A run that cannot be extended has delivered every bucket to every rank exactly when every tensor is aligned.
  lemma CompleteRunsDeliver(c: Setup, run: seq<State>, moves: seq<Move>)
    requires IsRun(c, run, moves) && c.world > 0
    ensures WellShaped(c, run[|moves|])
    ensures AllStuck(c, run[|moves|]) ==>
              ((forall r :: 0 <= r < c.world ==> run[|moves|].ranks[r].pc == Done && run[|moves|].ranks[r].out == Delivered(c.bs))
               <==> AllBucketsViewable(c))
  {
    hide Inv, Enabled, Apply, Init, RankStuck, Delivered, AllBucketsViewable, Raised;
    NoDeadlock(c, run, moves, |moves|);
    forall r | 0 <= r < c.world
      ensures var q := run[|moves|].ranks[r]; q.pc == Done ==> q.out == Delivered(c.bs) && AllBucketsViewable(c)
    {
      EveryRankDelivers(c, run, moves, |moves|, r);
    }
    assert run[|moves|].ranks[0].pc == Done ==> AllBucketsViewable(c);
  }
}
