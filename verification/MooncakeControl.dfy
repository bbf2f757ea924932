/** What every run of the Mooncake relay keeps, whatever the weights: the counters, the queues, and that an acknowledged half
    which is waited for holds the magic bytes. Nothing is said of the buckets' contents, so mistaken acknowledgements do no
    harm here. */
module MooncakeControl {
  import opened Weights
  import opened BucketPacking
  import opened Transfer
  import opened MooncakeRelay

  ghost predicate Marks(buf: seq<Byte>) {
    |buf| >= 4 && buf[..4] == MAGIC
  }

  // The last bucket in a half that is not being overwritten: once acknowledged, the half starts with the magic bytes.
  ghost predicate AcksVisible(c: Config, q: Rank, acks: nat)
    requires RankShape(c, q)
  {
    && (q.sent >= 1 && acks >= q.sent ==> Marks(q.halves[(q.sent - 1) % 2]))
    && (q.sent >= 2 && !Overwriting(q) && acks >= q.sent - 1 ==> Marks(q.halves[q.sent % 2]))
  }

  // The sender's loop, except for the bytes in its buffer.
  ghost predicate Refilling(c: Config, f: Fill, sent: nat) {
    exists buf: seq<Byte> :: |buf| == c.size && Midway(c, f, buf, sent)
  }

  ghost predicate SenderControl(c: Config, q: Rank)
    requires RankShape(c, q)
  {
    match q.pc
    case Filling => q.idx == q.sent % 2 && (q.shouldWait <==> q.sent >= 1) && Refilling(c, q.fill, q.sent)
    case AwaitReuse => q.idx == q.sent % 2 && q.shouldWait && Refilling(c, q.fill, q.sent) && q.fill.flushed && q.sent >= 2
    case AwaitLast => q.sent == |G(c)| && q.idx == (q.sent - 1) % 2
    case Done => q.sent == |G(c)|
    case _ => false
  }

  // k whole buckets and j tensors of the next one have been yielded.
  ghost predicate OutCount(c: Config, q: Rank, k: nat, j: nat) {
    k <= |G(c)| && |q.out| == |Delivered(G(c)[..k])| + j <= |Delivered(G(c))|
  }

  ghost predicate ReceiverControl(c: Config, r: nat, q: Rank)
    requires RankShape(c, q)
  {
    var b := |G(c)|;
    && q.idx <= b
    && (q.pc in {AwaitReuse, Reading, Yielding, Acking} ==> q.idx < b && q.got == q.idx + 1 && q.info == InfoOf(c, q.idx))
    && match q.pc
       case Receive => q.got == q.sent == q.idx < b && OutCount(c, q, q.idx, 0)
       case AwaitReuse => q.sent == q.idx >= 2 && HasNext(c, r) && OutCount(c, q, q.idx, 0)
       case Reading => q.sent == q.idx && OutCount(c, q, q.idx, 0) && forall i :: i in q.left ==> i < |Payload(c, q.idx)|
       case Yielding => q.sent == q.idx + 1 && q.j <= |q.info.metas| && OutCount(c, q, q.idx, q.j)
       case Acking => q.sent == q.idx + 1 && OutCount(c, q, q.idx + 1, 0)
       case Done => q.got == q.sent == q.idx == b && OutCount(c, q, b, 0)
       case _ => false
  }

  ghost predicate RankControl(c: Config, r: nat, q: Rank, acks: nat) {
    && RankShape(c, q) && acks <= q.sent <= |G(c)| && AcksVisible(c, q, acks)
    && if r == 0 then SenderControl(c, q) else ReceiverControl(c, r, q)
  }

  ghost predicate RanksControlled(c: Config, s: State) {
    |s.ranks| == c.world && forall r :: 0 <= r < c.world ==> RankControl(c, r, s.ranks[r], Acks(c, s, r))
  }

  ghost predicate Controlled(c: Config, s: State) {
    && |s.ranks| == |s.chan| == c.world >= 2
    && RanksControlled(c, s) && LinksOk(c, s)
    && s.chan[c.world - 1] == []
  }

  lemma ControlledShape(c: Config, s: State)
    requires Controlled(c, s)
    ensures WellShaped(c, s)
  {
    hide AcksVisible, SenderControl, ReceiverControl, Groups, Metas, Bytes;
    forall r | 0 <= r < c.world
      ensures RankShape(c, s.ranks[r])
    {
      assert RankControl(c, r, s.ranks[r], Acks(c, s, r));
    }
    forall r, i | 0 <= r < c.world && 0 <= i < |s.chan[r]|
      ensures s.chan[r][i].half < 2
    {
      assert LinkInv(c, s.ranks[r].sent, s.ranks[r + 1], s.chan[r]);
    }
  }

  // ---- The full invariant implies this one ----

  lemma MarkedMarks(p: seq<Byte>, buf: seq<Byte>)
    requires Marked(p) <= buf
    ensures Marks(buf)
  {
    assert buf[..4] == Marked(p)[..4];
  }

  lemma HalvesShowAcks(c: Config, r: nat, q: Rank, acks: nat)
    requires RankShape(c, q) && HalvesInv(c, r, q, acks)
    ensures AcksVisible(c, q, acks)
  {
    hide Groups, Bytes, Marked, Marks;
    if q.sent >= 1 && acks >= q.sent {
      MarkedMarks(Payload(c, q.sent - 1), q.halves[(q.sent - 1) % 2]);
    }
    if q.sent >= 2 && !Overwriting(q) && acks >= q.sent - 1 {
      MarkedMarks(Payload(c, q.sent - 2), q.halves[q.sent % 2]);
    }
  }

  lemma RankIsControlled(c: Config, r: nat, q: Rank, acks: nat)
    requires RankInv(c, r, q, acks)
    ensures RankControl(c, r, q, acks)
  {
    hide Groups, Metas, Bytes, Delivered, DeliveredMarked, AcksVisible, Marked, Content, CopiedExcept, Midway;
    HalvesShowAcks(c, r, q, acks);
  }

  lemma InvIsControlled(c: Config, s: State)
    requires Inv(c, s)
    ensures Controlled(c, s)
  {
    hide RankInv, RankControl, LinkInv;
    forall r | 0 <= r < c.world
      ensures RankControl(c, r, s.ranks[r], Acks(c, s, r))
    {
      RankIsControlled(c, r, s.ranks[r], Acks(c, s, r));
    }
  }

  // ---- Every step keeps it ----

  lemma AssembleControl(c: Config, s: State, s': State, r: nat)
    requires Controlled(c, s) && r < c.world && |s'.ranks| == |s'.chan| == c.world
    requires forall i :: 0 <= i < c.world && i != r ==> s'.ranks[i] == s.ranks[i]
    requires forall i :: 0 <= i < c.world && i != r && i != r - 1 ==> s'.chan[i] == s.chan[i]
    requires r > 0 ==> s'.ranks[r].idx == s.ranks[r].idx
    requires RankControl(c, r, s'.ranks[r], Acks(c, s, r))
    requires r > 0 ==> LinkInv(c, s'.ranks[r - 1].sent, s'.ranks[r], s'.chan[r - 1])
    requires r < c.world - 1 ==> LinkInv(c, s'.ranks[r].sent, s'.ranks[r + 1], s'.chan[r])
    requires r == c.world - 1 ==> s'.chan[r] == []
    ensures Controlled(c, s')
  {
    hide RankControl, LinkInv;
    AssembleLinks(c, s, s', r);
    forall i | 0 <= i < c.world
      ensures RankControl(c, i, s'.ranks[i], Acks(c, s', i))
    {
      assert Acks(c, s', i) == Acks(c, s, i);
    }
  }

  lemma LocalControl(c: Config, s: State, r: nat, q': Rank)
    requires Controlled(c, s) && r < c.world && RankControl(c, r, q', Acks(c, s, r))
    requires var q := s.ranks[r]; q'.sent == q.sent && (r > 0 ==> q'.idx == q.idx && q'.got == q.got)
    ensures Controlled(c, State(s.ranks[r := q'], s.chan))
  {
    hide RankControl, Groups, Metas;
    AssembleControl(c, s, State(s.ranks[r := q'], s.chan), r);
  }

  lemma SenderOnly(c: Config, r: nat, q: Rank, acks: nat)
    requires RankControl(c, r, q, acks)
    ensures q.pc in {Filling, AwaitLast} ==> r == 0
    ensures q.pc in {Receive, Reading, Yielding, Acking} ==> r > 0
  {
    hide Groups, Metas, Bytes, OutCount, Refilling, AcksVisible;
  }

  // Flushing a bucket from the half being filled.
  lemma FlushShowsAcks(c: Config, q: Rank, q': Rank, acks: nat)
    requires RankShape(c, q) && RankShape(c, q') && AcksVisible(c, q, acks) && acks <= q.sent
    requires q'.halves == q.halves && q'.sent == q.sent + 1
    ensures AcksVisible(c, q', acks)
  {
    hide Marks;
  }

  lemma PackControl(c: Config, q: Rank, acks: nat)
    requires ValidMagic(c) && RankControl(c, 0, q, acks) && q.pc == Filling && q.fill.next < |c.ws| && !Full(c, q.fill)
    ensures RankControl(c, 0, Packed(c, q), acks)
  {
    hide Midway, DictSet, Splice, Marks;
    var buf: seq<Byte> :| |buf| == c.size && Midway(c, q.fill, buf, q.sent);
    PackOne(c, q.fill, buf, q.sent);
    PackingBounds(c, Added(c, q.fill), Written(c, q.fill, buf), q.sent);
    WrittenLength(c, q.fill, q.halves[Current(q)]);
  }

  lemma WrittenLength(c: Config, f: Fill, buf: seq<Byte>)
    requires f.next < |c.ws| && !Full(c, f) && |buf| == c.size
    ensures |Written(c, f, buf)| == c.size
  {
  }

  lemma SendControl(c: Config, s: State, acks: nat, e: Event)
    requires WellShaped(c, s) && ValidMagic(c) && RankControl(c, 0, s.ranks[0], acks)
    requires e in {SendFull, SendLast} && Enabled(c, s, 0, e)
    ensures RankControl(c, 0, Moved(c, s, 0, e), acks)
    ensures var q := s.ranks[0];
      q.sent < |G(c)| && Info(q.fill.metas, Current(q), q.fill.offset, e == SendLast) == InfoOf(c, q.sent)
  {
    hide Bytes, Metas, Groups, Midway, AcksVisible;
    var q, q' := s.ranks[0], Moved(c, s, 0, e);
    var buf: seq<Byte> :| |buf| == c.size && Midway(c, q.fill, buf, q.sent);
    PackingBounds(c, q.fill, buf, q.sent);
    FlushShowsAcks(c, q, q', acks);
    if e == SendFull {
      FlushFull(c, q.fill, buf, q.sent, buf);
    } else {
      FlushLast(c, q.fill, buf, q.sent);
    }
  }

  lemma ControlSend(c: Config, s: State, r: nat, e: Event)
    requires ValidMagic(c) && Controlled(c, s) && WellShaped(c, s) && r < c.world
    requires e in {SendFull, SendLast} && Enabled(c, s, r, e)
    ensures Controlled(c, Apply(c, s, r, e))
  {
    hide RankControl, LinkInv, Groups, Metas, Bytes;
    SenderOnly(c, r, s.ranks[r], Acks(c, s, r));
    var q, s' := s.ranks[0], Apply(c, s, 0, e);
    SendControl(c, s, Acks(c, s, 0), e);
    LinkAnnounce(c, q.sent, s.ranks[1], s.chan[0], Info(q.fill.metas, Current(q), q.fill.offset, e == SendLast));
    AssembleControl(c, s, s', 0);
  }

  // Whatever ended the wait, the rank may go on.
  lemma SeeMagicControl(c: Config, s: State, r: nat, acks: nat)
    requires WellShaped(c, s) && ValidMagic(c) && r < c.world && RankControl(c, r, s.ranks[r], acks)
    requires Enabled(c, s, r, SeeMagic)
    ensures RankControl(c, r, Moved(c, s, r, SeeMagic), acks)
  {
    hide Groups, Bytes, Metas, Refilling, Delivered, Marks;
  }

  lemma ReceiveControl(c: Config, s: State, r: nat, acks: nat)
    requires WellShaped(c, s) && ValidMagic(c) && 0 < r < c.world && RankControl(c, r, s.ranks[r], acks)
    requires Enabled(c, s, r, ReceiveInfo)
    requires s.ranks[r].got < |G(c)| && s.chan[r - 1][0] == InfoOf(c, s.ranks[r].got)
    ensures RankControl(c, r, Moved(c, s, r, ReceiveInfo), acks)
  {
    hide Bytes, Metas, Groups, Delivered, Marks;
  }

  lemma ControlReceive(c: Config, s: State, r: nat)
    requires ValidMagic(c) && Controlled(c, s) && WellShaped(c, s) && r < c.world && Enabled(c, s, r, ReceiveInfo)
    ensures Controlled(c, Apply(c, s, r, ReceiveInfo))
  {
    hide RankControl, Groups, Metas, Bytes;
    var q, s' := s.ranks[r], Apply(c, s, r, ReceiveInfo);
    assert LinkInv(c, s.ranks[r - 1].sent, q, s.chan[r - 1]);
    ReceiveControl(c, s, r, Acks(c, s, r));
    AssembleControl(c, s, s', r);
  }

  lemma CopyControl(c: Config, s: State, r: nat, i: nat, acks: nat)
    requires WellShaped(c, s) && 0 < r < c.world && RankControl(c, r, s.ranks[r], acks) && Enabled(c, s, r, CopyByte(i))
    ensures RankControl(c, r, Moved(c, s, r, CopyByte(i)), acks)
  {
    hide Groups, Bytes, Metas, Delivered, Marks;
  }

  lemma EndReadControl(c: Config, s: State, r: nat, acks: nat)
    requires WellShaped(c, s) && 0 < r < c.world && RankControl(c, r, s.ranks[r], acks) && Enabled(c, s, r, EndRead)
    ensures RankControl(c, r, Moved(c, s, r, EndRead), acks)
    ensures var q := s.ranks[r];
      q.sent == q.idx < |G(c)| && q.got == q.idx + 1 && q.info.(half := Current(q)) == InfoOf(c, q.sent)
  {
    hide Groups, Bytes, Metas, AcksVisible, Delivered;
    FlushShowsAcks(c, s.ranks[r], Moved(c, s, r, EndRead), acks);
  }

  lemma ControlEndRead(c: Config, s: State, r: nat)
    requires ValidMagic(c) && Controlled(c, s) && WellShaped(c, s) && r < c.world && Enabled(c, s, r, EndRead)
    ensures Controlled(c, Apply(c, s, r, EndRead))
  {
    hide RankControl, LinkInv, Groups, Bytes, Metas;
    SenderOnly(c, r, s.ranks[r], Acks(c, s, r));
    var q, s' := s.ranks[r], Apply(c, s, r, EndRead);
    EndReadControl(c, s, r, Acks(c, s, r));
    assert LinkInv(c, s.ranks[r - 1].sent, q, s.chan[r - 1]);
    LinkFrame(c, s.ranks[r - 1].sent, q, s'.ranks[r], s.chan[r - 1]);
    if HasNext(c, r) {
      LinkAnnounce(c, q.sent, s.ranks[r + 1], s.chan[r], q.info.(half := Current(q)));
    }
    AssembleControl(c, s, s', r);
  }

  lemma CountTensor(c: Config, q: Rank, k: nat, j: nat, w: Weight)
    requires k < |G(c)| && j < |Metas(G(c)[k])| && OutCount(c, q, k, j)
    ensures OutCount(c, q.(out := q.out + [w]), k, j + 1)
  {
    hide Groups, Metas, Delivered, DeliveredMarked;
    DeliveredAt(G(c), k, j);
  }

  lemma CountBucket(c: Config, q: Rank, k: nat)
    requires k < |G(c)| && OutCount(c, q, k, |Metas(G(c)[k])|)
    ensures OutCount(c, q, k + 1, 0)
  {
    hide Groups, Metas, Delivered, DeliveredMarked;
    DeliveredThrough(G(c), k);
  }

  lemma SameOut(c: Config, q: Rank, q': Rank)
    requires q'.out == q.out
    ensures forall k, j :: OutCount(c, q, k, j) ==> OutCount(c, q', k, j)
  {
    hide Groups, Delivered;
  }

  lemma YieldControl(c: Config, s: State, r: nat, acks: nat)
    requires WellShaped(c, s) && 0 < r < c.world && RankControl(c, r, s.ranks[r], acks) && Enabled(c, s, r, YieldTensor)
    ensures RankControl(c, r, Moved(c, s, r, YieldTensor), acks)
  {
    hide Groups, Bytes, Metas, OutCount, Marks, Window;
    var q, q' := s.ranks[r], Moved(c, s, r, YieldTensor);
    CountTensor(c, q, q.idx, q.j, q'.out[|q.out|]);
    SameOut(c, q.(out := q'.out), q');
  }

  lemma EndYieldControl(c: Config, s: State, r: nat, acks: nat)
    requires WellShaped(c, s) && 0 < r < c.world && RankControl(c, r, s.ranks[r], acks) && Enabled(c, s, r, EndYield)
    ensures RankControl(c, r, Moved(c, s, r, EndYield), acks)
  {
    hide Groups, Bytes, Metas, OutCount, Marks;
    var q, q' := s.ranks[r], Moved(c, s, r, EndYield);
    CountBucket(c, q, q.idx);
    SameOut(c, q, q');
  }

  lemma AckControl(c: Config, s: State, r: nat, acks: nat)
    requires WellShaped(c, s) && 0 < r < c.world && RankControl(c, r, s.ranks[r], acks) && Enabled(c, s, r, WriteMagic)
    ensures RankControl(c, r, Moved(c, s, r, WriteMagic), acks)
    ensures var q := s.ranks[r]; q.idx < q.got && q.info.half == q.idx % 2
  {
    hide Groups, Bytes, Metas, OutCount, Marks;
    SameOut(c, s.ranks[r], Moved(c, s, r, WriteMagic));
  }

  lemma MagicMarks(buf: seq<Byte>)
    requires |buf| >= 4
    ensures Marks(Splice(buf, 0, MAGIC)) && |Splice(buf, 0, MAGIC)| == |buf|
  {
  }

  // The acknowledgement of bucket k, seen from its owner.
  lemma MarkShowsAcks(c: Config, p: Rank, k: nat)
    requires RankShape(c, p) && AcksVisible(c, p, k) && k < p.sent
    ensures RankShape(c, WithMagic(p, k % 2)) && AcksVisible(c, WithMagic(p, k % 2), k + 1)
  {
    hide Marks, Splice;
    MagicMarks(p.halves[k % 2]);
  }

  lemma OwnerControl(c: Config, r: nat, p: Rank, k: nat)
    requires RankControl(c, r, p, k) && k < p.sent
    ensures RankControl(c, r, WithMagic(p, k % 2), k + 1)
  {
    hide Groups, Bytes, Metas, AcksVisible, Refilling, OutCount, Splice;
    MarkShowsAcks(c, p, k);
    SameOut(c, p, WithMagic(p, k % 2));
  }

  lemma AssembleControlTwo(c: Config, s: State, s': State, r: nat)
    requires Controlled(c, s) && 0 < r < c.world && |s'.ranks| == c.world && s'.chan == s.chan
    requires forall i :: 0 <= i < c.world && i != r && i != r - 1 ==> s'.ranks[i] == s.ranks[i]
    requires RankControl(c, r, s'.ranks[r], Acks(c, s, r))
    requires RankControl(c, r - 1, s'.ranks[r - 1], s'.ranks[r].idx)
    requires var p, p' := s.ranks[r - 1], s'.ranks[r - 1]; p'.sent == p.sent && p'.got == p.got && p'.idx == p.idx
    requires s'.ranks[r].sent == s.ranks[r].sent && LinkInv(c, s.ranks[r - 1].sent, s'.ranks[r], s.chan[r - 1])
    ensures Controlled(c, s')
  {
    hide RankControl, LinkInv;
    forall i | 0 <= i < c.world
      ensures RankControl(c, i, s'.ranks[i], Acks(c, s', i))
    {
      if i != r - 1 {
        assert Acks(c, s', i) == Acks(c, s, i);
      }
    }
    AssembleTwoLinks(c, s, s', r);
  }

  lemma ControlWriteMagic(c: Config, s: State, r: nat)
    requires ValidMagic(c) && Controlled(c, s) && WellShaped(c, s) && r < c.world && Enabled(c, s, r, WriteMagic)
    ensures Controlled(c, Apply(c, s, r, WriteMagic))
  {
    hide RankControl, LinkInv, Groups, Metas, Bytes, WithMagic;
    var p, q, s' := s.ranks[r - 1], s.ranks[r], Apply(c, s, r, WriteMagic);
    assert RankControl(c, r - 1, p, Acks(c, s, r - 1));
    assert LinkInv(c, p.sent, q, s.chan[r - 1]);
    LinkRange(c, p.sent, q, s.chan[r - 1]);
    AckControl(c, s, r, Acks(c, s, r));
    OwnerControl(c, r - 1, p, q.idx);
    LinkFrame(c, p.sent, q, s'.ranks[r], s.chan[r - 1]);
    MarkFrame(p, q.idx % 2);
    AssembleControlTwo(c, s, s', r);
  }

  lemma ControlLocal(c: Config, s: State, r: nat, e: Event)
    requires ValidMagic(c) && Controlled(c, s) && WellShaped(c, s) && r < c.world && Enabled(c, s, r, e)
    requires e in {PackWeight, SeeMagic, YieldTensor, EndYield} || e.CopyByte?
    ensures Controlled(c, Apply(c, s, r, e))
  {
    hide RankControl, LinkInv, Groups, Metas, Bytes, Window, DictSet, Splice;
    SenderOnly(c, r, s.ranks[r], Acks(c, s, r));
    match e {
      case PackWeight => PackControl(c, s.ranks[0], Acks(c, s, 0));
      case SeeMagic => SeeMagicControl(c, s, r, Acks(c, s, r));
      case YieldTensor => YieldControl(c, s, r, Acks(c, s, r));
      case EndYield => EndYieldControl(c, s, r, Acks(c, s, r));
      case CopyByte(i) => CopyControl(c, s, r, i, Acks(c, s, r));
    }
    LocalControl(c, s, r, Moved(c, s, r, e));
  }

  // Every step of every rank, however the wait it ends was ended.
  lemma StepControl(c: Config, s: State, r: nat, e: Event)
    requires ValidMagic(c) && Controlled(c, s) && WellShaped(c, s) && r < c.world && Enabled(c, s, r, e)
    ensures Controlled(c, Apply(c, s, r, e))
  {
    hide Controlled, Apply, Enabled, WellShaped;
    match e
    case SendFull => ControlSend(c, s, r, e);
    case SendLast => ControlSend(c, s, r, e);
    case ReceiveInfo => ControlReceive(c, s, r);
    case EndRead => ControlEndRead(c, s, r);
    case WriteMagic => ControlWriteMagic(c, s, r);
    case _ => ControlLocal(c, s, r, e);
  }
}
