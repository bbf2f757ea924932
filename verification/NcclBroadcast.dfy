/** The NCCL engine: rank 0 broadcasts each bucket from a background task while it packs the next one; every other rank
    receives the next bucket in a background task while it yields the one before. Metadata goes through a
    publish/subscribe queue, data through one collective broadcast per bucket. All steps interleave freely. */
module NcclBroadcast {
  import opened Weights
  import opened BucketPacking
  import opened Options
  import opened Transfer

  datatype Meta = Meta(metas: seq<TensorMeta>, isLast: bool)

  // A broadcast operation of rank 0: which broadcast, from which buffer, and the bytes not yet read out of it.
  datatype SendOp = SendOp(k: nat, buf: nat, meta: Meta, published: bool, left: set<nat>)

  // The same operation on a receiving rank: the bytes not yet written into its buffer.
  datatype RecvOp = RecvOp(k: nat, buf: nat, meta: Option<Meta>, left: set<nat>)

  datatype SendPc = Loop | Final | Returned

  datatype Sender = Sender(pc: SendPc, bufs: seq<seq<Byte>>, send: nat, fill: Fill, op: Option<SendOp>, sent: nat)

  datatype RecvPc = First | Yielding | Next | Last | Done

  datatype Receiver = Receiver(
    pc: RecvPc,
    bufs: seq<seq<Byte>>,
    send: nat,               // which buffer is send_buf, the one yielded from
    meta: Meta,              // metadata of the bucket in send_buf
    op: Option<RecvOp>,
    held: nat,               // operations waited for
    j: nat,                  // tensors of the bucket yielded so far
    out: seq<Weight>)

  // wires[k]: the bytes of broadcast k that have left rank 0's buffer, by position.
  datatype State = State(sender: Sender, receivers: seq<Receiver>, published: seq<Meta>, wires: seq<map<int, Byte>>)

  datatype Event = PackWeight | StartFull | StartLast | Publish | SendByte(i: nat) | Return
                 | TakeMeta(r: nat) | TakeByte(r: nat, i: nat) | Finish(r: nat) | YieldTensor(r: nat) | EndYield(r: nat)

  ghost predicate SenderShape(c: Config, q: Sender) {
    && |q.bufs| == 2 && |q.bufs[0]| == |q.bufs[1]| == c.size && q.send < 2 && q.fill.next <= |c.ws|
    && (q.op.Some? ==> q.op.value.buf < 2)
  }

  ghost predicate ReceiverShape(c: Config, q: Receiver) {
    && |q.bufs| == 2 && |q.bufs[0]| == |q.bufs[1]| == c.size && q.send < 2
    && (q.op.Some? ==> q.op.value.buf < 2)
  }

  ghost predicate WellShaped(c: Config, s: State) {
    SenderShape(c, s.sender) && |s.receivers| + 1 == c.world
    && forall r :: 0 <= r < |s.receivers| ==> ReceiverShape(c, s.receivers[r])
  }

  // wait_for_complete on rank 0: there is no operation, or its task has run to its end.
  predicate Complete(op: Option<SendOp>) {
    op.Some? ==> op.value.published && op.value.left == {}
  }

  predicate Received(op: Option<RecvOp>) {
    op.Some? && op.value.meta.Some? && op.value.left == {}
  }

  // The rank's loop has ended with an exception: the next view is not aligned, and no step of the loop follows.
  ghost predicate Raised(q: Receiver) {
    q.pc in {Yielding, Last} && q.j < |q.meta.metas| && !Aligned(q.meta.metas[q.j], 0)
  }

  ghost predicate Enabled(c: Config, s: State, e: Event)
    requires WellShaped(c, s)
  {
    var q := s.sender;
    match e
    case PackWeight => q.pc == Loop && q.fill.next < |c.ws| && !Full(c, q.fill)
    case StartFull => q.pc == Loop && q.fill.next < |c.ws| && Full(c, q.fill) && !q.fill.flushed && Complete(q.op)
    case StartLast => q.pc == Loop && q.fill.next == |c.ws| && Complete(q.op)
    case Publish => q.op.Some? && !q.op.value.published
    case SendByte(i) => q.op.Some? && q.op.value.published && i in q.op.value.left && i < c.size && q.op.value.k < |s.wires|
    case Return => q.pc == Final && Complete(q.op)
    case TakeMeta(r) =>
      r < |s.receivers| && s.receivers[r].op.Some? && s.receivers[r].op.value.meta.None?
      && s.receivers[r].op.value.k < |s.published|
    case TakeByte(r, i) =>
      r < |s.receivers| && s.receivers[r].op.Some? && s.receivers[r].op.value.meta.Some?
      && i in s.receivers[r].op.value.left && i < c.size
      && s.receivers[r].op.value.k < |s.wires| && i in s.wires[s.receivers[r].op.value.k]
    case Finish(r) => r < |s.receivers| && s.receivers[r].pc in {First, Next} && Received(s.receivers[r].op)
    case YieldTensor(r) =>
      r < |s.receivers| && s.receivers[r].pc in {Yielding, Last} && s.receivers[r].j < |s.receivers[r].meta.metas|
      && Aligned(s.receivers[r].meta.metas[s.receivers[r].j], 0)
    case EndYield(r) => r < |s.receivers| && s.receivers[r].pc in {Yielding, Last} && s.receivers[r].j == |s.receivers[r].meta.metas|
  }

  ghost function Started(c: Config, q: Sender, isLast: bool): SendOp {
    SendOp(q.sent, q.send, Meta(q.fill.metas, isLast), false, Upto(c.size))
  }

  ghost function SenderMoved(c: Config, q: Sender, e: Event): Sender
    requires SenderShape(c, q)
    requires e.PackWeight? ==> q.fill.next < |c.ws| && !Full(c, q.fill)
    requires e.Publish? || e.SendByte? ==> q.op.Some?
  {
    match e
    case PackWeight => q.(bufs := q.bufs[q.send := Written(c, q.fill, q.bufs[q.send])], fill := Added(c, q.fill))
    case StartFull => q.(op := Some(Started(c, q, false)), sent := q.sent + 1, send := 1 - q.send, fill := Flushed(q.fill))
    case StartLast => q.(op := Some(Started(c, q, true)), sent := q.sent + 1, pc := Final)
    case Publish => q.(op := Some(q.op.value.(published := true)))
    case SendByte(i) => q.(op := Some(q.op.value.(left := q.op.value.left - {i})))
    case Return => q.(pc := Returned)
    case _ => q
  }

  ghost function Waiting(c: Config, q: Receiver, k: nat): Receiver
    requires q.send < 2
  {
    q.(op := Some(RecvOp(k, 1 - q.send, None, Upto(c.size))))
  }

  ghost function ReceiverMoved(c: Config, s: State, r: nat, e: Event): Receiver
    requires WellShaped(c, s) && r < |s.receivers| && Enabled(c, s, e)
  {
    var q := s.receivers[r];
    match e
    case TakeMeta(x) => if x != r then q else q.(op := Some(q.op.value.(meta := Some(s.published[q.op.value.k]))))
    case TakeByte(x, i) =>
      if x != r then q
      else
        var d := q.op.value;
        q.(bufs := q.bufs[d.buf := q.bufs[d.buf][i := s.wires[d.k][i]]], op := Some(d.(left := d.left - {i})))
    case Finish(x) =>
      if x != r then q
      else
        var m := q.op.value.meta.value;
        var q' := q.(meta := m, send := 1 - q.send, held := q.held + 1, j := 0);
        if m.isLast then q'.(op := None, pc := Last) else Waiting(c, q'.(pc := Yielding), q.held + 1)
    case YieldTensor(x) =>
      if x != r then q else q.(out := q.out + [Window(q.bufs[q.send], q.meta.metas[q.j])], j := q.j + 1)
    case EndYield(x) => if x != r then q else q.(pc := if q.pc == Yielding then Next else Done)
    case _ => q
  }

  ghost function Apply(c: Config, s: State, e: Event): State
    requires WellShaped(c, s) && Enabled(c, s, e)
  {
    var q := s.sender;
    State(SenderMoved(c, q, e),
          seq(|s.receivers|, r requires 0 <= r < |s.receivers| => ReceiverMoved(c, s, r, e)),
          if e == Publish then s.published + [q.op.value.meta] else s.published,
          match e
          case StartFull => s.wires + [map[]]
          case StartLast => s.wires + [map[]]
          case SendByte(i) => Sent(q, s.wires, i)
          case _ => s.wires)
  }

  ghost predicate InitReceiver(c: Config, q: Receiver) {
    && ReceiverShape(c, q) && q.pc == First && q.send == q.held == q.j == 0 && q.out == []
    && q == Waiting(c, q, 0)
  }

  // The buffers start with arbitrary contents.
  ghost predicate Init(c: Config, s: State) {
    && SenderShape(c, s.sender) && s.sender.pc == Loop && s.sender.send == s.sender.sent == 0
    && s.sender.fill == Begin() && s.sender.op == None
    && |s.receivers| + 1 == c.world && s.published == [] && s.wires == []
    && forall r :: 0 <= r < |s.receivers| ==> InitReceiver(c, s.receivers[r])
  }

  // ---- Invariants ----

  ghost function MetaOfBucket(c: Config, k: nat): Meta
    requires k < |G(c)|
  {
    Meta(Metas(G(c)[k]), k == |G(c)| - 1)
  }

  ghost predicate SendOpInv(c: Config, q: Sender)
    requires SenderShape(c, q)
  {
    && q.sent <= |G(c)|
    && (q.op.Some? <==> q.sent > 0)
    && (q.op.Some? ==>
          && q.op.value.k == q.sent - 1 && q.op.value.buf == (q.sent - 1) % 2
          && q.op.value.meta == MetaOfBucket(c, q.sent - 1)
          && (q.op.value.left != {} ==> Payload(c, q.sent - 1) <= q.bufs[(q.sent - 1) % 2])
          && (!q.op.value.published ==> q.op.value.left == Upto(c.size))
          && (forall i :: i in q.op.value.left ==> i < c.size))
  }

  ghost predicate SenderInv(c: Config, q: Sender) {
    && SenderShape(c, q) && SendOpInv(c, q)
    && match q.pc
       case Loop => q.send == q.sent % 2 && Midway(c, q.fill, q.bufs[q.send], q.sent)
       case Final => q.sent == |G(c)|
       case Returned => q.sent == |G(c)| && Complete(q.op)
  }

  // What has left rank 0: metadata of all operations but perhaps the last, every byte of all but perhaps the last.
  ghost predicate LogInv(c: Config, q: Sender, published: seq<Meta>, wires: seq<map<int, Byte>>) {
    && q.sent <= |G(c)| && (q.op.Some? <==> q.sent > 0)
    && |wires| == q.sent
    && |published| == (if q.op.Some? && !q.op.value.published then q.sent - 1 else q.sent)
    && (forall k :: 0 <= k < |published| ==> published[k] == MetaOfBucket(c, k))
    && (forall k, i :: 0 <= k < q.sent - 1 && 0 <= i < c.size ==> i in wires[k])
    && (q.sent > 0 ==> forall i :: 0 <= i < c.size ==> (i in wires[q.sent - 1] <==> i !in q.op.value.left))
    && forall k, i :: 0 <= k < |wires| && i in wires[k] && 0 <= i < |Payload(c, k)| ==> wires[k][i] == Payload(c, k)[i]
  }

  ghost predicate Yielded(c: Config, q: Receiver, k: nat, j: nat) {
    && k < |G(c)| && j <= |Decode(G(c)[k])| && q.out == Delivered(G(c)[..k]) + Decode(G(c)[k])[..j]
    && Passed(c, k, j, 0)
  }

  ghost predicate Finished(c: Config, q: Receiver, k: nat) {
    k <= |G(c)| && q.out == Delivered(G(c)[..k]) && Passed(c, k, 0, 0)
  }

  ghost predicate RecvOpInv(c: Config, q: Receiver)
    requires ReceiverShape(c, q)
  {
    && q.held <= |G(c)|
    && (q.op.Some? <==> q.held < |G(c)|)
    && (q.op.Some? ==>
          && q.op.value.k == q.held && q.op.value.buf == 1 - q.send
          && (q.op.value.meta.Some? ==> q.op.value.meta == Some(MetaOfBucket(c, q.held)))
          && (forall i :: i in q.op.value.left ==> i < c.size)
          && CopiedExcept(q.bufs[1 - q.send], Payload(c, q.held), q.op.value.left))
    && (q.held >= 1 ==> q.meta == MetaOfBucket(c, q.held - 1) && Payload(c, q.held - 1) <= q.bufs[q.send])
  }

  ghost predicate RecvPcInv(c: Config, q: Receiver) {
    var b := |G(c)|;
    match q.pc
    case First => q.held == 0 < b && q.out == []
    case Yielding => 1 <= q.held < b && Yielded(c, q, q.held - 1, q.j)
    case Next => 1 <= q.held < b && Finished(c, q, q.held)
    case Last => q.held == b >= 1 && Yielded(c, q, b - 1, q.j)
    case Done => q.held == b && Finished(c, q, b)
  }

  ghost predicate ReceiverInv(c: Config, q: Receiver) {
    ReceiverShape(c, q) && RecvOpInv(c, q) && RecvPcInv(c, q)
  }

  ghost predicate Inv(c: Config, s: State) {
    && |s.receivers| + 1 == c.world
    && SenderInv(c, s.sender) && LogInv(c, s.sender, s.published, s.wires)
    && forall r :: 0 <= r < |s.receivers| ==> ReceiverInv(c, s.receivers[r])
  }

  lemma InvShape(c: Config, s: State)
    requires Inv(c, s)
    ensures WellShaped(c, s)
  {
    hide SendOpInv, RecvOpInv, RecvPcInv, LogInv, Midway, Groups;
  }

  // ---- The sending rank ----

  lemma PackKeeps(c: Config, q: Sender)
    requires SenderInv(c, q) && q.pc == Loop && q.fill.next < |c.ws| && !Full(c, q.fill)
    ensures SenderInv(c, SenderMoved(c, q, PackWeight))
  {
    hide Midway, Groups, Metas, Bytes, DictSet, Splice;
    PackOne(c, q.fill, q.bufs[q.send], q.sent);
    MidwayBounds(c, Added(c, q.fill), Written(c, q.fill, q.bufs[q.send]), q.sent);
  }

  lemma MidwayBounds(c: Config, f: Fill, buf: seq<Byte>, sent: nat)
    requires Midway(c, f, buf, sent)
    ensures f.next <= |c.ws| && sent < |G(c)|
  {
  }

  lemma StartKeeps(c: Config, q: Sender, e: Event)
    requires SenderInv(c, q) && q.pc == Loop && Complete(q.op)
    requires e == StartFull ==> q.fill.next < |c.ws| && Full(c, q.fill) && !q.fill.flushed
    requires e == StartLast ==> q.fill.next == |c.ws|
    requires e in {StartFull, StartLast}
    ensures SenderInv(c, SenderMoved(c, q, e)) && q.sent < |G(c)|
  {
    hide Midway, Groups, Metas, Bytes;
    if e == StartFull {
      FlushFull(c, q.fill, q.bufs[q.send], q.sent, q.bufs[1 - q.send]);
    } else {
      FlushLast(c, q.fill, q.bufs[q.send], q.sent);
    }
  }

  lemma SenderKeeps(c: Config, s: State, e: Event)
    requires WellShaped(c, s) && Enabled(c, s, e) && SenderInv(c, s.sender)
    ensures SenderInv(c, SenderMoved(c, s.sender, e))
  {
    hide Midway, Groups, Metas, Bytes, Upto;
    match e
    case PackWeight => PackKeeps(c, s.sender);
    case StartFull => StartKeeps(c, s.sender, e);
    case StartLast => StartKeeps(c, s.sender, e);
    case _ =>
  }

  lemma CompleteOp(c: Config, q: Sender)
    requires SenderInv(c, q) && Complete(q.op)
    ensures q.op.Some? <==> q.sent > 0
    ensures q.op.Some? ==> q.op.value.left == {} && q.op.value.published
  {
    hide Midway, Groups, Metas, Bytes;
  }

  lemma AllSent(c: Config, q: Sender, published: seq<Meta>, wires: seq<map<int, Byte>>)
    requires LogInv(c, q, published, wires) && (q.op.Some? ==> q.op.value.left == {})
    ensures forall k, i :: 0 <= k < |wires| && 0 <= i < c.size ==> i in wires[k]
  {
    hide Groups, Bytes, Metas;
    forall k, i | 0 <= k < |wires| && 0 <= i < c.size
      ensures i in wires[k]
    {
      if k == q.sent - 1 {
        assert i in wires[q.sent - 1] <==> i !in q.op.value.left;
      }
    }
  }

  lemma LogStart(c: Config, s: State, e: Event)
    requires WellShaped(c, s) && Enabled(c, s, e) && SenderInv(c, s.sender) && e in {StartFull, StartLast}
    requires LogInv(c, s.sender, s.published, s.wires)
    ensures LogInv(c, SenderMoved(c, s.sender, e), s.published, s.wires + [map[]])
  {
    hide Midway, Groups, Metas, Bytes, SenderInv;
    StartKeeps(c, s.sender, e);
    CompleteOp(c, s.sender);
    AllSent(c, s.sender, s.published, s.wires);
  }

  // wires[k] with one more byte read out of the operation's buffer.
  function Sent(q: Sender, wires: seq<map<int, Byte>>, i: nat): seq<map<int, Byte>>
    requires q.op.Some? && q.op.value.k < |wires| && q.op.value.buf < |q.bufs| && i < |q.bufs[q.op.value.buf]|
  {
    wires[q.op.value.k := wires[q.op.value.k][i := q.bufs[q.op.value.buf][i]]]
  }

  lemma LogSendByte(c: Config, q: Sender, published: seq<Meta>, wires: seq<map<int, Byte>>, i: nat)
    requires q.op.Some? && q.op.value.k < |wires| && q.op.value.buf < |q.bufs| && i < |q.bufs[q.op.value.buf]|
    requires SenderInv(c, q) && LogInv(c, q, published, wires) && q.op.value.published && i in q.op.value.left
    ensures LogInv(c, q.(op := Some(q.op.value.(left := q.op.value.left - {i}))), published, Sent(q, wires, i))
  {
    hide Midway, Groups, Metas, Bytes;
  }

  lemma LogPublish(c: Config, q: Sender, published: seq<Meta>, wires: seq<map<int, Byte>>)
    requires SenderInv(c, q) && LogInv(c, q, published, wires) && q.op.Some? && !q.op.value.published
    ensures LogInv(c, q.(op := Some(q.op.value.(published := true))), published + [q.op.value.meta], wires)
  {
    hide Midway, Groups, Metas, Bytes;
  }

  lemma LogKeeps(c: Config, s: State, e: Event)
    requires WellShaped(c, s) && Enabled(c, s, e) && SenderInv(c, s.sender)
    requires LogInv(c, s.sender, s.published, s.wires)
    ensures var s' := Apply(c, s, e); LogInv(c, s'.sender, s'.published, s'.wires)
  {
    hide Midway, Groups, Metas, Bytes, ReceiverMoved, DictSet, Splice;
    match e
    case Publish => LogPublish(c, s.sender, s.published, s.wires);
    case StartFull => LogStart(c, s, e);
    case StartLast => LogStart(c, s, e);
    case SendByte(i) => LogSendByte(c, s.sender, s.published, s.wires, i);
    case _ =>
  }

  // ---- A receiving rank ----

  lemma TakeMetaKeeps(c: Config, s: State, r: nat)
    requires WellShaped(c, s) && Enabled(c, s, TakeMeta(r)) && ReceiverInv(c, s.receivers[r])
    requires LogInv(c, s.sender, s.published, s.wires)
    ensures ReceiverInv(c, ReceiverMoved(c, s, r, TakeMeta(r)))
  {
    hide Groups, Metas, Bytes, Delivered, Decode;
  }

  lemma TakeByteKeeps(c: Config, s: State, r: nat, i: nat)
    requires WellShaped(c, s) && Enabled(c, s, TakeByte(r, i)) && ReceiverInv(c, s.receivers[r])
    requires LogInv(c, s.sender, s.published, s.wires)
    ensures ReceiverInv(c, ReceiverMoved(c, s, r, TakeByte(r, i)))
  {
    hide Groups, Metas, Bytes, Delivered, Decode;
  }

  lemma FinishKeeps(c: Config, s: State, r: nat)
    requires ValidConfig(c) && WellShaped(c, s) && Enabled(c, s, Finish(r)) && ReceiverInv(c, s.receivers[r])
    ensures ReceiverInv(c, ReceiverMoved(c, s, r, Finish(r)))
  {
    hide Groups, Metas, Bytes, Delivered, Decode, Passed;
    var q := s.receivers[r];
    NothingYielded(c, q.held);
    NothingPassed(c, 0);
    if q.held + 1 < |G(c)| {
      GroupOk(c, q.held + 1);
    }
  }

  lemma NothingYielded(c: Config, k: nat)
    requires k < |G(c)|
    ensures k == 0 ==> Delivered(G(c)[..k]) == []
    ensures Decode(G(c)[k])[..0] == []
    ensures Delivered(G(c)[..k]) + Decode(G(c)[k])[..0] == Delivered(G(c)[..k])
  {
    hide Groups, Decode;
    assert k == 0 ==> G(c)[..k] == [];
  }

  lemma YieldKeeps(c: Config, s: State, r: nat)
    requires ValidConfig(c) && WellShaped(c, s) && Enabled(c, s, YieldTensor(r)) && ReceiverInv(c, s.receivers[r])
    ensures ReceiverInv(c, ReceiverMoved(c, s, r, YieldTensor(r)))
  {
    hide Groups, Metas, Bytes, Delivered, Window, Decode, Unpack, Passed;
    var q := s.receivers[r];
    YieldOne(c, q.held - 1, q.bufs[q.send], q.j, q.out);
    PassedTensor(c, q.held - 1, q.j, 0);
  }

  lemma YieldOne(c: Config, k: nat, buf: seq<Byte>, j: nat, out: seq<Weight>)
    requires ValidConfig(c) && k < |G(c)| && Payload(c, k) <= buf && j < |Metas(G(c)[k])| && j <= |Decode(G(c)[k])|
    requires out == Delivered(G(c)[..k]) + Decode(G(c)[k])[..j]
    ensures j + 1 <= |Decode(G(c)[k])| && out + [Window(buf, Metas(G(c)[k])[j])] == Delivered(G(c)[..k]) + Decode(G(c)[k])[..j + 1]
  {
    hide Groups, Metas, Bytes, Delivered, Window;
    GroupOk(c, k);
    UnpackPrefix(G(c)[k], buf);
    assert Window(buf, Metas(G(c)[k])[j]) == Unpack(Metas(G(c)[k]), buf)[j];
  }

  // The last tensor of a bucket has been yielded.
  lemma YieldedAll(c: Config, q: Receiver, k: nat)
    requires k < |G(c)| && Yielded(c, q, k, |Metas(G(c)[k])|)
    ensures Finished(c, q, k + 1)
  {
    hide Groups, Metas, Bytes, Delivered, Passed;
    var g := G(c)[k];
    DeliveredAppend(G(c)[..k], g);
    assert G(c)[..k] + [g] == G(c)[..k + 1];
    assert Decode(g)[..|Decode(g)|] == Decode(g);
    PassedBucket(c, k, 0);
  }

  lemma EndYieldKeeps(c: Config, s: State, r: nat)
    requires WellShaped(c, s) && Enabled(c, s, EndYield(r)) && ReceiverInv(c, s.receivers[r])
    ensures ReceiverInv(c, ReceiverMoved(c, s, r, EndYield(r)))
  {
    hide Groups, Metas, Bytes, Delivered, Window, Unpack, Passed;
    YieldedAll(c, s.receivers[r], s.receivers[r].held - 1);
  }

  lemma UnpackLength(metas: seq<TensorMeta>, buf: seq<Byte>)
    ensures |Unpack(metas, buf)| == |metas|
  {
  }

  lemma ReceiverKeeps(c: Config, s: State, r: nat, e: Event)
    requires ValidConfig(c) && WellShaped(c, s) && Enabled(c, s, e) && r < |s.receivers| && ReceiverInv(c, s.receivers[r])
    requires LogInv(c, s.sender, s.published, s.wires)
    ensures ReceiverInv(c, ReceiverMoved(c, s, r, e))
  {
    hide ReceiverInv, LogInv;
    match e
    case TakeMeta(x) => if x == r { TakeMetaKeeps(c, s, r); }
    case TakeByte(x, i) => if x == r { TakeByteKeeps(c, s, r, i); }
    case Finish(x) => if x == r { FinishKeeps(c, s, r); }
    case YieldTensor(x) => if x == r { YieldKeeps(c, s, r); }
    case EndYield(x) => if x == r { EndYieldKeeps(c, s, r); }
    case _ =>
  }

  lemma StepInv(c: Config, s: State, e: Event)
    requires ValidConfig(c) && Inv(c, s) && WellShaped(c, s) && Enabled(c, s, e)
    ensures Inv(c, Apply(c, s, e))
  {
    hide SenderInv, ReceiverInv, LogInv, ReceiverMoved, SenderMoved, Enabled, WellShaped;
    SenderKeeps(c, s, e);
    LogKeeps(c, s, e);
    forall r | 0 <= r < |s.receivers|
      ensures ReceiverInv(c, ReceiverMoved(c, s, r, e))
    {
      ReceiverKeeps(c, s, r, e);
    }
  }

  lemma InitInv(c: Config, s: State)
    requires ValidConfig(c) && Init(c, s)
    ensures Inv(c, s)
  {
    hide Midway, Groups, Metas, Bytes, Delivered, Decode;
    BeginPacking(c, s.sender.bufs[0]);
    MidwayBounds(c, Begin(), s.sender.bufs[0], 0);
    GroupOk(c, 0);
  }

  // ---- Runs ----

  ghost predicate Takes(c: Config, s: State, e: Event, s': State) {
    WellShaped(c, s) && Enabled(c, s, e) && s' == Apply(c, s, e)
  }

  ghost predicate IsRun(c: Config, run: seq<State>, events: seq<Event>) {
    && ValidConfig(c) && |run| == |events| + 1 && Init(c, run[0])
    && forall i :: 0 <= i < |events| ==> Takes(c, run[i], events[i], run[i + 1])
  }

  lemma {:induction false} RunInv(c: Config, run: seq<State>, events: seq<Event>, i: nat)
    requires IsRun(c, run, events) && i < |run|
    ensures Inv(c, run[i]) && WellShaped(c, run[i])
  {
    hide SenderInv, ReceiverInv, LogInv, Enabled, Apply, Init, WellShaped;
    if i == 0 {
      InitInv(c, run[0]);
    } else {
      RunInv(c, run, events, i - 1);
      assert Takes(c, run[i - 1], events[i - 1], run[i]);
      StepInv(c, run[i - 1], events[i - 1]);
    }
    InvShape(c, run[i]);
  }

  lemma OutIsPrefix(c: Config, q: Receiver)
    requires ReceiverInv(c, q)
    ensures q.out <= Delivered(G(c))
    ensures q.pc == Done ==> q.out == Delivered(G(c)) && AllViewable(G(c), 0)
    ensures Raised(q) ==> !AllViewable(G(c), 0)
  {
    hide Bytes, Metas, Decode, Delivered, Groups, AllViewable, Aligned, Passed;
    var k := if q.held == 0 then 0 else q.held - 1;
    DeliveredPrefix(G(c), q.held);
    if q.held > 0 {
      DeliveredAppend(G(c)[..k], G(c)[k]);
      assert G(c)[..k] + [G(c)[k]] == G(c)[..q.held];
    }
    if q.pc == Done {
      assert G(c)[..|G(c)|] == G(c);
      PassedAll(c, 0);
    }
    if Raised(q) && AllViewable(G(c), 0) {
      ViewableAt(G(c), 0, k, q.j);
    }
  }

  // Every receiving rank yields a prefix of the buckets' slots, and all of them if it returns, which is the sender's list
  // iff that is deliverable. A loop raises only over a tensor that is not aligned.
  lemma EveryRankDelivers(c: Config, run: seq<State>, events: seq<Event>, i: nat, r: nat)
    requires IsRun(c, run, events) && i < |run| && r < c.world - 1
    ensures |run[i].receivers| == c.world - 1
    ensures var q, gs := run[i].receivers[r], Groups(c.ws, c.size);
      && q.out <= Delivered(gs)
      && (q.pc == Done ==> q.out == Delivered(gs) && AllViewable(gs, 0))
      && (q.pc == Done ==> (q.out == c.ws <==> Deliverable(gs, 0)))
      && (Raised(q) ==> !AllViewable(gs, 0))
      && (Deliverable(gs, 0) ==> q.out <= c.ws && !Raised(q))
  {
    hide ReceiverInv, SenderInv, LogInv, Groups, Delivered, AllViewable, Deliverable, Raised;
    RunInv(c, run, events, i);
    OutIsPrefix(c, run[i].receivers[r]);
    DeliverableIff(c.ws, c.size, 0);
  }

  // Metadata and data stay paired: what a rank holds for its k-th operation is the metadata of bucket k, and once
  // every byte is in, the buffer starts with bucket k.
  lemma MetadataMatchesBucket(c: Config, run: seq<State>, events: seq<Event>, i: nat, r: nat)
    requires IsRun(c, run, events) && i < |run| && r < c.world - 1
    ensures |run[i].receivers| == c.world - 1 && ReceiverShape(c, run[i].receivers[r])
    ensures var q := run[i].receivers[r];
      Received(q.op) ==>
        && q.op.value.k < |G(c)| && q.op.value.meta.value == MetaOfBucket(c, q.op.value.k)
        && Payload(c, q.op.value.k) <= q.bufs[q.op.value.buf]
  {
    hide SenderInv, LogInv, Groups, Metas, Bytes, RecvPcInv, Init, Apply, Enabled;
    RunInv(c, run, events, i);
    assert ReceiverInv(c, run[i].receivers[r]);
  }

  // ---- Buffer ownership ----

  // The buffers rank 0 packs into, and the buffers its broadcast still has to read.
  ghost predicate Packs(q: Sender, e: Event, b: nat) {
    e == PackWeight && b == q.send
  }

  ghost predicate UnderBroadcast(op: Option<SendOp>, b: nat) {
    op.Some? && op.value.buf == b && op.value.left != {}
  }

  ghost predicate BeingYielded(q: Receiver, b: nat) {
    q.pc in {Yielding, Last} && b == q.send
  }

  lemma SenderSeparate(c: Config, q: Sender)
    requires SenderInv(c, q) && q.pc == Loop && q.op.Some?
    ensures q.op.value.buf != q.send
  {
    hide Groups, Metas, Bytes, Midway;
  }

  lemma ReceiverSeparate(c: Config, q: Receiver)
    requires ReceiverInv(c, q) && q.op.Some?
    ensures q.op.value.buf != q.send
  {
    hide Groups, Metas, Bytes, RecvPcInv;
  }

  // The buffer under broadcast is never the one being packed or yielded from.
  lemma BuffersAreSeparate(c: Config, run: seq<State>, events: seq<Event>, i: nat, r: nat, b: nat)
    requires IsRun(c, run, events) && i < |events| && r < c.world - 1 && b < 2
    ensures |run[i].receivers| == c.world - 1
    ensures Packs(run[i].sender, events[i], b) ==> !UnderBroadcast(run[i].sender.op, b)
    ensures run[i].receivers[r].op.Some? && BeingYielded(run[i].receivers[r], b) ==> run[i].receivers[r].op.value.buf != b
  {
    hide LogInv, SenderInv, ReceiverInv, Init, Apply, WellShaped;
    RunInv(c, run, events, i);
    assert Takes(c, run[i], events[i], run[i + 1]);
    if Packs(run[i].sender, events[i], b) && run[i].sender.op.Some? {
      SenderSeparate(c, run[i].sender);
    }
    if run[i].receivers[r].op.Some? {
      ReceiverSeparate(c, run[i].receivers[r]);
    }
  }

  // A buffer not written by a packing step or an arriving byte keeps its contents.
  lemma OtherBuffersStay(c: Config, s: State, e: Event, s': State, r: nat, b: nat)
    requires Takes(c, s, e, s') && r < |s.receivers| && b < 2
    ensures !Packs(s.sender, e, b) ==> s'.sender.bufs[b] == s.sender.bufs[b]
    ensures (forall x :: e != TakeByte(r, x)) || b != s.receivers[r].op.value.buf ==>
              |s'.receivers[r].bufs| == 2 && s'.receivers[r].bufs[b] == s.receivers[r].bufs[b]
  {
    hide Splice, DictSet, Window, Upto;
  }
}
