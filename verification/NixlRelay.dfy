/** The NIXL relay chain: rank 0 packs and announces buckets, every further rank reads each bucket from its
    predecessor, announces it to its successor and yields it. Ranks, asynchronous READs and queues interleave freely. */
module NixlRelay {
  import opened Weights
  import opened BucketPacking
  import opened Transfer
  import opened Options

  // A notify key (a fresh uuid in the program) is named by its creator and a serial number.
  datatype Key = Key(rank: nat, serial: nat)
  datatype Descs = Descs(rank: nat, buf: nat)

  // A metadata dict: the two optional entries are present only while it travels.
  datatype Message = Message(notifyKey: Option<Key>, remoteDescs: Option<Descs>, metas: seq<TensorMeta>, isLast: bool)

  // {"notify_key": key, "remote_descs": descs, **md}: entries already in md win.
  function Announce(key: Key, descs: Descs, md: Message): Message {
    Message(if md.notifyKey.Some? then md.notifyKey else Some(key),
            if md.remoteDescs.Some? then md.remoteDescs else Some(descs), md.metas, md.isLast)
  }

  function Popped(m: Message): Message {
    m.(notifyKey := None, remoteDescs := None)
  }

  // A READ in flight: the bytes still to be copied from src into the local buffer dst.
  datatype Read = Read(src: Descs, key: Key, dst: nat, left: set<nat>)
  datatype Notif = Notif(from: nat, key: Key)

  datatype Pc = Filling | AckLast
              | FirstMeta | FirstRead | Forward | NextMeta | Yielding | AckNext | NextRead | LastYield | AckFinal
              | Done

  datatype Rank = Rank(
    pc: Pc,
    bufs: seq<seq<Byte>>,     // the two registered buffers
    send: nat,                // which of them is send_buf; the other one is recv_buf
    fill: Fill,               // sender: the packing loop
    md: Message,              // receiver: metadata of the bucket in send_buf
    nextMd: Message,          // receiver: metadata of the bucket being read
    j: nat,                   // receiver: tensors of the bucket yielded so far
    read: Option<Read>,
    op: Option<Key>,          // the ReadableOperation not yet waited for
    out: seq<Weight>,         // everything yielded
    sent: nat, acked: nat,    // buckets announced to the next rank, and acknowledged by it
    got: nat, fin: nat,       // announcements taken from the previous rank, and READs finished
    held: nat)                // buckets received and swapped into send_buf

  datatype State = State(ranks: seq<Rank>,
                         chan: seq<seq<Message>>,  // chan[r]: announcements on their way from rank r to rank r+1
                         inbox: seq<seq<Notif>>)   // inbox[r]: notifications delivered to rank r

  datatype Event = PackWeight | SendFull | SendLast | TakeAck | SkipAck | BeginRead | CopyByte(i: nat) | FinishRead
                 | AcceptRead | SendOn | YieldTensor | EndYield

  ghost predicate WellShaped(c: Config, s: State) {
    && |s.ranks| == |s.chan| == |s.inbox| == c.world >= 2
    && forall r :: 0 <= r < c.world ==> RankShape(c, s.ranks[r])
  }

  ghost predicate RankShape(c: Config, q: Rank) {
    |q.bufs| == 2 && |q.bufs[0]| == |q.bufs[1]| == c.size && q.send < 2 && q.fill.next <= |c.ws|
  }

  // The rank's loop has ended with an exception: the next view is not aligned, and no step of the loop follows.
  ghost predicate Raised(q: Rank) {
    q.pc in {Yielding, LastYield} && q.j < |q.md.metas| && !Aligned(q.md.metas[q.j], 0)
  }

  // A rank blocked in ReadableOperation.wait_for_complete (or passing it, when there is no operation).
  predicate AtAck(c: Config, q: Rank)
    requires q.fill.next <= |c.ws|
  {
    || q.pc in {AckLast, AckNext, AckFinal}
    || (q.pc == Filling && q.op.Some? && (q.fill.next == |c.ws| || (Full(c, q.fill) && !q.fill.flushed)))
  }

  ghost predicate Enabled(c: Config, s: State, r: nat, e: Event)
    requires WellShaped(c, s) && r < c.world
  {
    var q := s.ranks[r];
    match e
    case PackWeight => q.pc == Filling && q.fill.next < |c.ws| && !Full(c, q.fill)
    case SendFull => q.pc == Filling && q.fill.next < |c.ws| && Full(c, q.fill) && !q.fill.flushed && q.op.None? && HasNext(c, r)
    case SendLast => q.pc == Filling && q.fill.next == |c.ws| && q.op.None? && HasNext(c, r)
    case TakeAck => AtAck(c, q) && q.op.Some? && s.inbox[r] != []
    case SkipAck => q.pc in {AckNext, AckFinal} && q.op.None?
    case BeginRead => q.pc in {FirstMeta, NextMeta} && r > 0 && s.chan[r - 1] != [] && q.read.None?
                      && s.chan[r - 1][0].remoteDescs.Some? && s.chan[r - 1][0].notifyKey.Some?
    case CopyByte(i) => q.read.Some? && i in q.read.value.left && i < c.size && q.read.value.dst < 2
                        && q.read.value.src.rank < c.world && q.read.value.src.buf < 2
    case FinishRead => q.read.Some? && q.read.value.left == {} && r > 0
    case AcceptRead => q.pc in {FirstRead, NextRead} && q.fin == q.got
    case SendOn => q.pc == Forward
    case YieldTensor => q.pc in {Yielding, LastYield} && q.j < |q.md.metas| && Aligned(q.md.metas[q.j], 0)
    case EndYield => q.pc in {Yielding, LastYield} && q.j == |q.md.metas|
  }

  function AfterAck(pc: Pc): Pc {
    match pc
    case AckLast => Done
    case AckNext => NextRead
    case AckFinal => Done
    case _ => pc
  }

  // The rank that moves.
  ghost function Moved(c: Config, s: State, r: nat, e: Event): Rank
    requires WellShaped(c, s) && r < c.world && Enabled(c, s, r, e)
  {
    var q := s.ranks[r];
    match e
    case PackWeight =>
      q.(bufs := q.bufs[q.send := Written(c, q.fill, q.bufs[q.send])], fill := Added(c, q.fill))
    case SendFull =>
      q.(op := Some(Key(r, q.sent)), sent := q.sent + 1, send := 1 - q.send, fill := Flushed(q.fill))
    case SendLast => q.(op := Some(Key(r, q.sent)), sent := q.sent + 1, pc := AckLast)
    case TakeAck => q.(op := None, acked := q.acked + 1, pc := AfterAck(q.pc))
    case SkipAck => q.(pc := AfterAck(q.pc))
    case BeginRead =>
      var m := s.chan[r - 1][0];
      q.(nextMd := Popped(m), got := q.got + 1, j := 0, pc := if q.pc == FirstMeta then FirstRead else Yielding,
         read := Some(Read(m.remoteDescs.value, m.notifyKey.value, 1 - q.send, Upto(c.size))))
    case CopyByte(i) =>
      var d := q.read.value;
      q.(bufs := q.bufs[d.dst := q.bufs[d.dst][i := s.ranks[d.src.rank].bufs[d.src.buf][i]]],
         read := Some(d.(left := d.left - {i})))
    case FinishRead => q.(read := None, fin := q.fin + 1)
    case AcceptRead => q.(send := 1 - q.send, md := q.nextMd, held := q.held + 1, pc := Forward)
    case SendOn =>
      var q' := if HasNext(c, r) then q.(op := Some(Key(r, q.sent)), sent := q.sent + 1) else q.(op := None);
      q'.(j := 0, pc := if q.md.isLast then LastYield else NextMeta)
    case YieldTensor => q.(out := q.out + [Window(q.bufs[q.send], q.md.metas[q.j])], j := q.j + 1)
    case EndYield => q.(pc := if q.pc == Yielding then AckNext else AckFinal)
  }

  ghost function Apply(c: Config, s: State, r: nat, e: Event): State
    requires WellShaped(c, s) && r < c.world && Enabled(c, s, r, e)
  {
    var q := s.ranks[r];
    var ranks := s.ranks[r := Moved(c, s, r, e)];
    match e
    case SendFull =>
      State(ranks, s.chan[r := s.chan[r] + [Announce(Key(r, q.sent), Descs(r, q.send), Message(None, None, q.fill.metas, false))]], s.inbox)
    case SendLast =>
      State(ranks, s.chan[r := s.chan[r] + [Announce(Key(r, q.sent), Descs(r, q.send), Message(None, None, q.fill.metas, true))]], s.inbox)
    case SendOn =>
      if HasNext(c, r)
      then State(ranks, s.chan[r := s.chan[r] + [Announce(Key(r, q.sent), Descs(r, q.send), q.md)]], s.inbox)
      else State(ranks, s.chan, s.inbox)
    case TakeAck => State(ranks, s.chan, s.inbox[r := s.inbox[r][1..]])
    case BeginRead => State(ranks, s.chan[r - 1 := s.chan[r - 1][1..]], s.inbox)
    case FinishRead => State(ranks, s.chan, s.inbox[r - 1 := s.inbox[r - 1] + [Notif(r, q.read.value.key)]])
    case _ => State(ranks, s.chan, s.inbox)
  }

  ghost predicate Init(c: Config, s: State) {
    && WellShaped(c, s)
    && forall r :: 0 <= r < c.world ==> s.chan[r] == [] && s.inbox[r] == [] && InitRank(s.ranks[r], r)
  }

  ghost predicate InitRank(q: Rank, r: nat) {
    && q.pc == (if r == 0 then Filling else FirstMeta)
    && q.send == q.j == q.sent == q.acked == q.got == q.fin == q.held == 0
    && q.fill == Begin() && q.out == [] && q.read.None? && q.op.None?
  }

  // ---- What every rank and every link keeps ----

  // The buffer a rank announces its k-th bucket in.
  function BufIx(r: nat, k: nat): nat {
    if r == 0 then k % 2 else (k + 1) % 2
  }

  ghost function Plain(c: Config, k: nat): Message
    requires k < |G(c)|
  {
    Message(None, None, Metas(G(c)[k]), k == |G(c)| - 1)
  }

  ghost function Announced(c: Config, r: nat, k: nat): Message
    requires k < |G(c)|
  {
    Announce(Key(r, k), Descs(r, BufIx(r, k)), Plain(c, k))
  }

  ghost predicate Holds(c: Config, buf: seq<Byte>, k: nat)
    requires k < |G(c)|
  {
    Bytes(G(c)[k]) <= buf
  }

  ghost predicate OpInv(r: nat, q: Rank) {
    && q.acked <= q.sent <= q.acked + 1
    && q.op == (if q.acked < q.sent then Some(Key(r, q.sent - 1)) else None)
  }

  ghost predicate SenderInv(c: Config, q: Rank)
    requires RankShape(c, q)
  {
    var b := |G(c)|;
    && q.read.None? && q.got == q.fin == q.held == 0 && q.out == []
    && OpInv(0, q)
    && q.sent <= b
    && (q.acked < q.sent ==> Holds(c, q.bufs[BufIx(0, q.sent - 1)], q.sent - 1))
    && match q.pc
       case Filling => q.send == q.sent % 2 && Midway(c, q.fill, q.bufs[q.send], q.sent)
       case AckLast => q.sent == b && q.acked == b - 1
       case Done => q.sent == q.acked == b
       case _ => false
  }

  ghost predicate Yielded(c: Config, q: Rank, k: nat, j: nat) {
    k < |G(c)| && j <= |Decode(G(c)[k])| && q.out == Delivered(G(c)[..k]) + Decode(G(c)[k])[..j] && Passed(c, k, j, 0)
  }

  ghost predicate Finished(c: Config, q: Rank, k: nat) {
    k <= |G(c)| && q.out == Delivered(G(c)[..k]) && Passed(c, k, 0, 0)
  }

  // The counters of a receiving rank at each program point; s(k) counts announcements made after k buckets.
  ghost predicate PcInv(c: Config, r: nat, q: Rank) {
    var b := |G(c)|;
    var h := q.held;
    var s := (k: int) => if HasNext(c, r) then k else 0;
    && h <= b
    && match q.pc
       case FirstMeta => h == q.got == q.sent == q.acked == 0 && q.out == []
       case FirstRead => h == q.sent == q.acked == 0 && q.got == 1 && q.out == []
       case Forward => h >= 1 && q.got == h && q.sent == q.acked == s(h - 1) && Yielded(c, q, h - 1, 0)
       case NextMeta => h >= 1 && q.got == h < b && q.sent == s(h) && q.acked == s(h - 1) && Yielded(c, q, h - 1, 0)
       case Yielding => h >= 1 && q.got == h + 1 && q.sent == s(h) && q.acked == s(h - 1) && Yielded(c, q, h - 1, q.j)
       case AckNext => h >= 1 && q.got == h + 1 && q.sent == s(h) && q.acked == s(h - 1) && Finished(c, q, h)
       case NextRead => h >= 1 && q.got == h + 1 && q.sent == q.acked == s(h) && Finished(c, q, h)
       case LastYield => h == q.got == b && q.sent == s(b) && q.acked == s(b - 1) && Yielded(c, q, b - 1, q.j)
       case AckFinal => h == q.got == b && q.sent == s(b) && q.acked == s(b - 1) && Finished(c, q, b)
       case Done => h == q.got == b && q.sent == q.acked == s(b) && Finished(c, q, b)
       case _ => false
  }

  ghost predicate BufInv(c: Config, r: nat, q: Rank)
    requires RankShape(c, q) && r > 0
  {
    && q.held <= q.fin <= q.got <= q.held + 1 && q.got <= |G(c)|
    && q.send == q.held % 2
    && (q.held >= 1 ==> q.md == Plain(c, q.held - 1) && Holds(c, q.bufs[q.send], q.held - 1))
    && (q.got > q.held ==> q.nextMd == Plain(c, q.held))
    && (q.fin > q.held ==> Holds(c, q.bufs[1 - q.send], q.held))
    && (q.read.Some? <==> q.fin < q.got)
    && (q.read.Some? ==>
          && q.read.value.(left := {}) == Read(Descs(r - 1, BufIx(r - 1, q.held)), Key(r - 1, q.held), 1 - q.send, {})
          && (forall i :: i in q.read.value.left ==> i < c.size)
          && CopiedExcept(q.bufs[1 - q.send], Bytes(G(c)[q.held]), q.read.value.left))
  }

  ghost predicate RankInv(c: Config, r: nat, q: Rank) {
    && RankShape(c, q)
    && (if r == 0 then SenderInv(c, q) else PcInv(c, r, q) && OpInv(r, q) && BufInv(c, r, q))
  }

  // Rank r (p) and its successor (q), with the queues between them.
  ghost predicate LinkInv(c: Config, r: nat, p: Rank, q: Rank, ch: seq<Message>, inb: seq<Notif>) {
    && p.acked <= q.fin <= q.got <= p.sent <= p.acked + 1
    && p.sent <= |G(c)|
    && |ch| == p.sent - q.got && |inb| == q.fin - p.acked
    && (ch != [] ==> ch[0] == Announced(c, r, q.got))
    && (inb != [] ==> inb[0] == Notif(r + 1, Key(r, p.acked)))
  }

  ghost predicate Inv(c: Config, s: State) {
    && WellShaped(c, s)
    && (forall r :: 0 <= r < c.world ==> RankInv(c, r, s.ranks[r]))
    && (forall r :: 0 <= r < c.world - 1 ==> LinkInv(c, r, s.ranks[r], s.ranks[r + 1], s.chan[r], s.inbox[r]))
    && s.chan[c.world - 1] == [] && s.inbox[c.world - 1] == []
  }

  // ---- Every step keeps the invariant ----

  lemma InitInv(c: Config, s: State)
    requires ValidConfig(c) && Init(c, s)
    ensures Inv(c, s)
  {
    hide Bytes, Metas, Delivered, Decode, Midway;
    BeginPacking(c, s.ranks[0].bufs[0]);
    forall r | 0 <= r < c.world
      ensures RankInv(c, r, s.ranks[r])
    {
      assert InitRank(s.ranks[r], r);
    }
  }

  // A step of rank r touches rank r, the link before it and the link after it.
  lemma Assemble(c: Config, s: State, s': State, r: nat)
    requires Inv(c, s) && r < c.world && |s'.ranks| == |s'.chan| == |s'.inbox| == c.world
    requires forall i :: 0 <= i < c.world && i != r ==> s'.ranks[i] == s.ranks[i]
    requires forall i :: 0 <= i < c.world && i != r && i != r - 1 ==> s'.chan[i] == s.chan[i] && s'.inbox[i] == s.inbox[i]
    requires RankInv(c, r, s'.ranks[r])
    requires r > 0 ==> LinkInv(c, r - 1, s'.ranks[r - 1], s'.ranks[r], s'.chan[r - 1], s'.inbox[r - 1])
    requires r < c.world - 1 ==> LinkInv(c, r, s'.ranks[r], s'.ranks[r + 1], s'.chan[r], s'.inbox[r])
    requires r == c.world - 1 ==> s'.chan[r] == [] && s'.inbox[r] == []
    ensures Inv(c, s')
  {
    hide RankInv, LinkInv;
    RankShapes(c, s, s', r);
    forall i | 0 <= i < c.world - 1
      ensures LinkInv(c, i, s'.ranks[i], s'.ranks[i + 1], s'.chan[i], s'.inbox[i])
    {
      if i != r && i + 1 != r {
        assert LinkInv(c, i, s.ranks[i], s.ranks[i + 1], s.chan[i], s.inbox[i]);
      }
    }
  }

  lemma RankShapes(c: Config, s: State, s': State, r: nat)
    requires WellShaped(c, s) && r < c.world && |s'.ranks| == |s'.chan| == |s'.inbox| == c.world
    requires forall i :: 0 <= i < c.world && i != r ==> s'.ranks[i] == s.ranks[i]
    requires RankInv(c, r, s'.ranks[r])
    ensures WellShaped(c, s')
  {
  }

  lemma KeepPackWeight(c: Config, s: State, r: nat)
    requires ValidConfig(c) && Inv(c, s) && r < c.world && Enabled(c, s, r, PackWeight)
    ensures Inv(c, Apply(c, s, r, PackWeight))
  {
    hide Bytes, Metas, Delivered, Decode, Groups, DictSet, Splice, Midway;
    var q, s' := s.ranks[r], Apply(c, s, r, PackWeight);
    assert RankInv(c, r, q);
    PackKeepsSender(c, q);
    assert RankInv(c, r, s'.ranks[r]);
    Assemble(c, s, s', r);
  }

  lemma PackKeepsSender(c: Config, q: Rank)
    requires ValidConfig(c) && RankShape(c, q) && SenderInv(c, q) && q.pc == Filling && q.fill.next < |c.ws| && !Full(c, q.fill)
    ensures var q' := q.(bufs := q.bufs[q.send := Written(c, q.fill, q.bufs[q.send])], fill := Added(c, q.fill));
      RankShape(c, q') && SenderInv(c, q')
  {
    hide Bytes, Metas, Delivered, Decode, Groups, DictSet, Splice, Midway;
    PackOne(c, q.fill, q.bufs[q.send], q.sent);
  }

  // One more announcement on a link whose earlier ones were all acknowledged.
  lemma LinkAnnounce(c: Config, r: nat, p: Rank, p': Rank, q: Rank, ch: seq<Message>, inb: seq<Notif>, m: Message)
    requires LinkInv(c, r, p, q, ch, inb) && p.acked == p.sent < |G(c)| && m == Announced(c, r, p.sent)
    requires p'.acked == p.acked && p'.sent == p.sent + 1
    ensures LinkInv(c, r, p', q, ch + [m], inb)
  {
    hide Metas, Groups;
  }

  lemma KeepSendFull(c: Config, s: State, r: nat)
    requires ValidConfig(c) && Inv(c, s) && r < c.world && Enabled(c, s, r, SendFull)
    ensures Inv(c, Apply(c, s, r, SendFull))
  {
    hide Bytes, Metas, Delivered, Decode, Groups, Midway;
    var q, s' := s.ranks[r], Apply(c, s, r, SendFull);
    assert RankInv(c, r, q);
    FlushFull(c, q.fill, q.bufs[q.send], q.sent, q.bufs[1 - q.send]);
    LinkAnnounce(c, r, q, s'.ranks[r], s.ranks[r + 1], s.chan[r], s.inbox[r],
                 Announce(Key(r, q.sent), Descs(r, q.send), Message(None, None, q.fill.metas, false)));
    Assemble(c, s, s', r);
  }

  lemma KeepSendLast(c: Config, s: State, r: nat)
    requires ValidConfig(c) && Inv(c, s) && r < c.world && Enabled(c, s, r, SendLast)
    ensures Inv(c, Apply(c, s, r, SendLast))
  {
    hide Bytes, Metas, Delivered, Decode, Groups, Midway;
    var q, s' := s.ranks[r], Apply(c, s, r, SendLast);
    assert RankInv(c, r, q);
    FlushLast(c, q.fill, q.bufs[q.send], q.sent);
    LinkAnnounce(c, r, q, s'.ranks[r], s.ranks[r + 1], s.chan[r], s.inbox[r],
                 Announce(Key(r, q.sent), Descs(r, q.send), Message(None, None, q.fill.metas, true)));
    Assemble(c, s, s', r);
  }

  lemma OpMeansNext(c: Config, r: nat, q: Rank)
    requires c.world >= 2 && RankInv(c, r, q) && q.op.Some?
    ensures HasNext(c, r)
  {
    hide Bytes, Metas, ByteCount, Delivered, Decode, Groups, Midway;
  }

  lemma KeepTakeAck(c: Config, s: State, r: nat)
    requires ValidConfig(c) && Inv(c, s) && r < c.world && Enabled(c, s, r, TakeAck)
    ensures Inv(c, Apply(c, s, r, TakeAck))
  {
    hide Bytes, Metas, ByteCount, Delivered, Decode, Groups, Midway, BufInv;
    var q, s' := s.ranks[r], Apply(c, s, r, TakeAck);
    assert RankInv(c, r, q);
    OpMeansNext(c, r, q);
    assert LinkInv(c, r, q, s.ranks[r + 1], s.chan[r], s.inbox[r]);
    AckKeepsRank(c, r, q);
    Assemble(c, s, s', r);
  }

  lemma AckKeepsRank(c: Config, r: nat, q: Rank)
    requires RankInv(c, r, q) && q.op.Some? && AtAck(c, q)
    ensures RankInv(c, r, q.(op := None, acked := q.acked + 1, pc := AfterAck(q.pc)))
  {
    hide Bytes, Metas, ByteCount, Delivered, Decode, Groups, Midway;
  }

  lemma SkipKeepsRank(c: Config, r: nat, q: Rank)
    requires RankInv(c, r, q) && q.pc in {AckNext, AckFinal} && q.op.None?
    ensures RankInv(c, r, q.(pc := AfterAck(q.pc)))
  {
    hide Bytes, Metas, ByteCount, Delivered, Decode, Groups, Midway;
  }

  // Steps that touch no queue and no link counter.
  lemma KeepLocal(c: Config, s: State, r: nat, q': Rank)
    requires Inv(c, s) && r < c.world && RankInv(c, r, q')
    requires var q := s.ranks[r]; q'.sent == q.sent && q'.acked == q.acked && q'.got == q.got && q'.fin == q.fin
    ensures Inv(c, State(s.ranks[r := q'], s.chan, s.inbox))
  {
    hide RankInv, Groups, Metas;
    Assemble(c, s, State(s.ranks[r := q'], s.chan, s.inbox), r);
  }

  lemma KeepSkipAck(c: Config, s: State, r: nat)
    requires ValidConfig(c) && Inv(c, s) && r < c.world && Enabled(c, s, r, SkipAck)
    ensures Inv(c, Apply(c, s, r, SkipAck))
  {
    hide RankInv, LinkInv;
    SkipKeepsRank(c, r, s.ranks[r]);
    KeepLocal(c, s, r, Moved(c, s, r, SkipAck));
  }

  ghost function Begun(c: Config, r: nat, q: Rank): Rank
    requires RankShape(c, q) && q.pc in {FirstMeta, NextMeta} && q.got < |G(c)| && r > 0
  {
    q.(nextMd := Plain(c, q.got), got := q.got + 1, j := 0, pc := if q.pc == FirstMeta then FirstRead else Yielding,
       read := Some(Read(Descs(r - 1, BufIx(r - 1, q.got)), Key(r - 1, q.got), 1 - q.send, Upto(c.size))))
  }

  lemma BeginKeepsPc(c: Config, r: nat, q: Rank)
    requires RankShape(c, q) && q.pc in {FirstMeta, NextMeta} && q.got < |G(c)| && r > 0 && PcInv(c, r, q) && OpInv(r, q)
    ensures q.got == q.held && PcInv(c, r, Begun(c, r, q)) && OpInv(r, Begun(c, r, q))
  {
    hide Metas, Delivered, Decode, Groups;
  }

  lemma BeginKeepsRank(c: Config, r: nat, q: Rank)
    requires ValidConfig(c) && RankInv(c, r, q) && q.pc in {FirstMeta, NextMeta} && q.got < |G(c)| && r > 0
    ensures q.got == q.held && RankInv(c, r, Begun(c, r, q))
  {
    hide Bytes, Metas, ByteCount, Groups, PcInv;
    BeginKeepsPc(c, r, q);
    GroupOk(c, q.held);
  }

  lemma KeepBeginRead(c: Config, s: State, r: nat)
    requires ValidConfig(c) && Inv(c, s) && r < c.world && Enabled(c, s, r, BeginRead)
    ensures Inv(c, Apply(c, s, r, BeginRead))
  {
    hide RankInv, Groups, Metas;
    var q, s' := s.ranks[r], Apply(c, s, r, BeginRead);
    assert LinkInv(c, r - 1, s.ranks[r - 1], q, s.chan[r - 1], s.inbox[r - 1]);
    BeginKeepsRank(c, r, q);
    Assemble(c, s, s', r);
  }

  // The bucket a rank has announced and not yet had acknowledged is still in the announced buffer.
  lemma ServedBucket(c: Config, r: nat, p: Rank)
    requires RankInv(c, r, p) && p.acked < p.sent
    ensures p.sent <= |G(c)| && Holds(c, p.bufs[BufIx(r, p.sent - 1)], p.sent - 1)
  {
    hide Bytes, Metas, ByteCount, Delivered, Decode, Groups, Midway;
  }

  lemma ReadingRank(c: Config, r: nat, q: Rank)
    requires RankInv(c, r, q) && q.read.Some?
    ensures r > 0 && q.fin == q.held && q.got == q.held + 1 <= |G(c)|
    ensures var d := q.read.value;
      d.src == Descs(r - 1, BufIx(r - 1, q.held)) && d.key == Key(r - 1, q.held) && d.dst == 1 - q.send
  {
    hide Bytes, Metas, ByteCount, Delivered, Decode, Groups, Midway;
  }

  lemma PcInvFrame(c: Config, r: nat, q: Rank, q': Rank)
    requires PcInv(c, r, q) && q' == q.(bufs := q'.bufs, read := q'.read, fin := q'.fin)
    ensures PcInv(c, r, q')
  {
    hide Delivered, Decode, Groups;
  }

  lemma CopyKeepsRank(c: Config, r: nat, q: Rank, i: nat, src: seq<Byte>)
    requires RankInv(c, r, q) && q.read.Some? && i < c.size == |src|
    requires q.held < |G(c)| && Holds(c, src, q.held)
    ensures q.read.value.dst == 1 - q.send
    ensures RankInv(c, r, q.(bufs := q.bufs[1 - q.send := q.bufs[1 - q.send][i := src[i]]],
                             read := Some(q.read.value.(left := q.read.value.left - {i}))))
  {
    hide Bytes, Metas, ByteCount, Delivered, Decode, Groups, Midway, PcInv;
    ReadingRank(c, r, q);
    PcInvFrame(c, r, q, q.(bufs := q.bufs[1 - q.send := q.bufs[1 - q.send][i := src[i]]],
                           read := Some(q.read.value.(left := q.read.value.left - {i}))));
  }

  lemma KeepCopyByte(c: Config, s: State, r: nat, i: nat)
    requires ValidConfig(c) && Inv(c, s) && r < c.world && Enabled(c, s, r, CopyByte(i))
    ensures Inv(c, Apply(c, s, r, CopyByte(i)))
  {
    hide RankInv, Groups, Metas, Bytes;
    var q := s.ranks[r];
    ReadingRank(c, r, q);
    var p := s.ranks[r - 1];
    assert LinkInv(c, r - 1, p, q, s.chan[r - 1], s.inbox[r - 1]);
    ServedBucket(c, r - 1, p);
    CopyKeepsRank(c, r, q, i, p.bufs[q.read.value.src.buf]);
    KeepLocal(c, s, r, Moved(c, s, r, CopyByte(i)));
  }

  lemma FinishKeepsRank(c: Config, r: nat, q: Rank)
    requires RankInv(c, r, q) && q.read.Some? && q.read.value.left == {}
    ensures RankInv(c, r, q.(read := None, fin := q.fin + 1))
  {
    hide Bytes, Metas, ByteCount, Delivered, Decode, Groups, Midway, PcInv;
    ReadingRank(c, r, q);
    PcInvFrame(c, r, q, q.(read := None, fin := q.fin + 1));
  }

  lemma KeepFinishRead(c: Config, s: State, r: nat)
    requires ValidConfig(c) && Inv(c, s) && r < c.world && Enabled(c, s, r, FinishRead)
    ensures Inv(c, Apply(c, s, r, FinishRead))
  {
    hide RankInv, Groups, Metas, Bytes;
    var q, s' := s.ranks[r], Apply(c, s, r, FinishRead);
    ReadingRank(c, r, q);
    assert LinkInv(c, r - 1, s.ranks[r - 1], q, s.chan[r - 1], s.inbox[r - 1]);
    FinishKeepsRank(c, r, q);
    Assemble(c, s, s', r);
  }

  lemma AcceptKeepsRank(c: Config, r: nat, q: Rank)
    requires RankInv(c, r, q) && q.pc in {FirstRead, NextRead} && q.fin == q.got
    ensures RankInv(c, r, q.(send := 1 - q.send, md := q.nextMd, held := q.held + 1, pc := Forward))
  {
    hide Bytes, Metas, ByteCount, Decode, Groups, Midway;
    assert Delivered(G(c)[..0]) == [];
  }

  lemma KeepAcceptRead(c: Config, s: State, r: nat)
    requires ValidConfig(c) && Inv(c, s) && r < c.world && Enabled(c, s, r, AcceptRead)
    ensures Inv(c, Apply(c, s, r, AcceptRead))
  {
    hide RankInv, LinkInv;
    AcceptKeepsRank(c, r, s.ranks[r]);
    KeepLocal(c, s, r, Moved(c, s, r, AcceptRead));
  }

  // A rank about to forward announces exactly the bucket it holds.
  lemma SendOnKeepsRank(c: Config, s: State, r: nat)
    requires WellShaped(c, s) && r < c.world && RankInv(c, r, s.ranks[r]) && s.ranks[r].pc == Forward
    ensures RankInv(c, r, Moved(c, s, r, SendOn))
    ensures HasNext(c, r) ==> s.ranks[r].sent == s.ranks[r].acked < |G(c)|
    ensures HasNext(c, r) ==>
      var q := s.ranks[r];
      Announce(Key(r, q.sent), Descs(r, q.send), q.md) == Announced(c, r, q.sent)
  {
    hide Bytes, Metas, ByteCount, Delivered, Decode, Groups, Midway;
  }

  lemma KeepSendOn(c: Config, s: State, r: nat)
    requires ValidConfig(c) && Inv(c, s) && r < c.world && Enabled(c, s, r, SendOn)
    ensures Inv(c, Apply(c, s, r, SendOn))
  {
    hide RankInv, Groups, Metas, Bytes;
    var q, s' := s.ranks[r], Apply(c, s, r, SendOn);
    SendOnKeepsRank(c, s, r);
    if HasNext(c, r) {
      LinkAnnounce(c, r, q, s'.ranks[r], s.ranks[r + 1], s.chan[r], s.inbox[r],
                   Announce(Key(r, q.sent), Descs(r, q.send), q.md));
      Assemble(c, s, s', r);
    } else {
      KeepLocal(c, s, r, s'.ranks[r]);
    }
  }

  lemma HeldBucket(c: Config, r: nat, q: Rank)
    requires RankInv(c, r, q) && q.pc in {Yielding, LastYield}
    ensures r > 0 && 1 <= q.held <= |G(c)| && q.md == Plain(c, q.held - 1)
    ensures Holds(c, q.bufs[q.send], q.held - 1) && Yielded(c, q, q.held - 1, q.j)
  {
    hide Bytes, Metas, ByteCount, Delivered, Decode, Groups, Midway;
  }

  lemma YieldFrame(c: Config, r: nat, q: Rank, q': Rank)
    requires RankInv(c, r, q) && q.pc in {Yielding, LastYield} && q' == q.(out := q'.out, j := q'.j)
    requires 1 <= q.held <= |G(c)| && Yielded(c, q', q.held - 1, q'.j)
    ensures RankInv(c, r, q')
  {
    hide Bytes, Metas, ByteCount, Delivered, Decode, Groups, Midway;
  }

  lemma KeepYieldTensor(c: Config, s: State, r: nat)
    requires ValidConfig(c) && Inv(c, s) && r < c.world && Enabled(c, s, r, YieldTensor)
    ensures Inv(c, Apply(c, s, r, YieldTensor))
  {
    hide RankInv, LinkInv, Groups, Metas, Bytes, Delivered, Window;
    var q, q' := s.ranks[r], Moved(c, s, r, YieldTensor);
    HeldBucket(c, r, q);
    var g := G(c)[q.held - 1];
    GroupOk(c, q.held - 1);
    UnpackPrefix(g, q.bufs[q.send]);
    assert Unpack(Metas(g), q.bufs[q.send])[q.j] == Window(q.bufs[q.send], q.md.metas[q.j]);
    assert Decode(g)[..q.j + 1] == Decode(g)[..q.j] + [Decode(g)[q.j]];
    YieldFrame(c, r, q, q');
    KeepLocal(c, s, r, q');
  }

  lemma EndKeepsRank(c: Config, r: nat, q: Rank)
    requires RankInv(c, r, q) && q.pc in {Yielding, LastYield} && 1 <= q.held <= |G(c)| && Finished(c, q, q.held)
    ensures RankInv(c, r, q.(pc := if q.pc == Yielding then AckNext else AckFinal))
  {
    hide Bytes, Metas, ByteCount, Delivered, Decode, Groups, Midway, Passed;
  }

  // The last tensor of a bucket has been yielded.
  lemma YieldedAll(c: Config, q: Rank, k: nat)
    requires k < |G(c)| && Yielded(c, q, k, |Metas(G(c)[k])|)
    ensures Finished(c, q, k + 1)
  {
    hide Groups, Metas, Bytes, Delivered, Passed;
    var g := G(c)[k];
    DeliveredAppend(G(c)[..k], g);
    assert G(c)[..k] + [g] == G(c)[..k + 1];
    assert Decode(g)[..|Decode(g)|] == Decode(g);
    PassedBucket(c, k, 0);
  }

  lemma KeepEndYield(c: Config, s: State, r: nat)
    requires ValidConfig(c) && Inv(c, s) && r < c.world && Enabled(c, s, r, EndYield)
    ensures Inv(c, Apply(c, s, r, EndYield))
  {
    hide RankInv, LinkInv, Groups, Metas, Bytes, Yielded, Finished;
    var q := s.ranks[r];
    HeldBucket(c, r, q);
    YieldedAll(c, q, q.held - 1);
    EndKeepsRank(c, r, q);
    KeepLocal(c, s, r, Moved(c, s, r, EndYield));
  }

  // Whatever step any rank or READ takes, every rank and link keeps its invariant.
  lemma StepInv(c: Config, s: State, r: nat, e: Event)
    requires ValidConfig(c) && Inv(c, s) && r < c.world && Enabled(c, s, r, e)
    ensures Inv(c, Apply(c, s, r, e))
  {
    hide Inv, Enabled, Apply;
    match e
    case PackWeight => KeepPackWeight(c, s, r);
    case SendFull => KeepSendFull(c, s, r);
    case SendLast => KeepSendLast(c, s, r);
    case TakeAck => KeepTakeAck(c, s, r);
    case SkipAck => KeepSkipAck(c, s, r);
    case BeginRead => KeepBeginRead(c, s, r);
    case CopyByte(i) => KeepCopyByte(c, s, r, i);
    case FinishRead => KeepFinishRead(c, s, r);
    case AcceptRead => KeepAcceptRead(c, s, r);
    case SendOn => KeepSendOn(c, s, r);
    case YieldTensor => KeepYieldTensor(c, s, r);
    case EndYield => KeepEndYield(c, s, r);
  }

  // ---- Whole runs ----

  datatype Move = Move(rank: nat, event: Event)

  ghost predicate Takes(c: Config, s: State, m: Move, s': State) {
    WellShaped(c, s) && m.rank < c.world && Enabled(c, s, m.rank, m.event) && s' == Apply(c, s, m.rank, m.event)
  }

  ghost predicate IsRun(c: Config, run: seq<State>, moves: seq<Move>) {
    && ValidConfig(c)
    && |run| == |moves| + 1
    && Init(c, run[0])
    && forall i :: 0 <= i < |moves| ==> Takes(c, run[i], moves[i], run[i + 1])
  }

  lemma {:induction false} RunInv(c: Config, run: seq<State>, moves: seq<Move>, i: nat)
    requires IsRun(c, run, moves) && i < |run|
    ensures Inv(c, run[i])
  {
    hide Inv, Enabled, Apply, Init;
    if i == 0 {
      InitInv(c, run[0]);
    } else {
      RunInv(c, run, moves, i - 1);
      assert Takes(c, run[i - 1], moves[i - 1], run[i]);
      StepInv(c, run[i - 1], moves[i - 1].rank, moves[i - 1].event);
    }
  }

  // Delivery. At every moment of every run each receiving rank has yielded a prefix of the buckets' slots, and a rank that
  // returns has yielded all of them, which is the sender's list iff that is deliverable. A loop raises only over a tensor
  // that is not aligned.
  lemma EveryRankDelivers(c: Config, run: seq<State>, moves: seq<Move>, i: nat, r: nat)
    requires IsRun(c, run, moves) && i < |run| && 0 < r < c.world
    ensures WellShaped(c, run[i])
    ensures var q, gs := run[i].ranks[r], Groups(c.ws, c.size);
      && q.out <= Delivered(gs)
      && (q.pc == Done ==> q.out == Delivered(gs) && AllViewable(gs, 0))
      && (q.pc == Done ==> (q.out == c.ws <==> Deliverable(gs, 0)))
      && (Raised(q) ==> !AllViewable(gs, 0))
      && (Deliverable(gs, 0) ==> q.out <= c.ws && !Raised(q))
  {
    hide RankInv, LinkInv, Groups, AllViewable, Deliverable, Raised;
    RunInv(c, run, moves, i);
    OutIsPrefix(c, r, run[i].ranks[r]);
    RaisedRank(c, r, run[i].ranks[r]);
    DeliverableIff(c.ws, c.size, 0);
  }

  lemma OutIsPrefix(c: Config, r: nat, q: Rank)
    requires RankInv(c, r, q) && r > 0
    ensures q.out <= Delivered(G(c))
    ensures q.pc == Done ==> q.out == Delivered(G(c)) && AllViewable(G(c), 0)
  {
    hide Bytes, Metas, Decode, Delivered, Groups, BufInv, OpInv, AllViewable, Passed;
    var k := if q.held == 0 then 0 else q.held - 1;
    DeliveredPrefix(G(c), q.held);
    if q.held > 0 {
      DeliveredAppend(G(c)[..k], G(c)[k]);
      assert G(c)[..k] + [G(c)[k]] == G(c)[..q.held];
    }
    if q.pc == Done {
      assert G(c)[..|G(c)|] == G(c);
      PassedAll(c, 0);
    }
  }

  lemma RaisedRank(c: Config, r: nat, q: Rank)
    requires RankInv(c, r, q)
    ensures Raised(q) ==> r > 0 && !AllViewable(G(c), 0)
  {
    hide Bytes, Metas, Decode, Delivered, Groups, Yielded, Aligned, AllViewable;
    if Raised(q) {
      HeldBucket(c, r, q);
      if AllViewable(G(c), 0) {
        ViewableAt(G(c), 0, q.held - 1, q.j);
      }
    }
  }

  // The next rank may still read buffer b of rank r: it is named by an announcement under way or by a READ in flight.
  ghost predicate MayBeRead(c: Config, s: State, r: nat, b: nat)
    requires WellShaped(c, s) && r < c.world
  {
    && HasNext(c, r)
    && ((exists i :: 0 <= i < |s.chan[r]| && s.chan[r][i].remoteDescs == Some(Descs(r, b)))
        || (s.ranks[r + 1].read.Some? && s.ranks[r + 1].read.value.src == Descs(r, b)))
  }

  ghost predicate BeingYielded(q: Rank, b: nat) {
    q.pc in {Yielding, LastYield} && b == q.send
  }

  lemma SharedBuffer(c: Config, s: State, r: nat, b: nat)
    requires Inv(c, s) && r < c.world && MayBeRead(c, s, r, b)
    ensures s.ranks[r].acked < s.ranks[r].sent && b == BufIx(r, s.ranks[r].sent - 1)
  {
    hide RankInv, Groups, Metas;
    assert LinkInv(c, r, s.ranks[r], s.ranks[r + 1], s.chan[r], s.inbox[r]);
    if s.ranks[r + 1].read.Some? {
      ReadingRank(c, r + 1, s.ranks[r + 1]);
    }
  }

  lemma WritableBuffer(c: Config, r: nat, q: Rank)
    requires RankInv(c, r, q)
    ensures q.pc == Filling ==> r == 0 && (q.acked < q.sent ==> q.send != BufIx(0, q.sent - 1))
    ensures q.read.Some? ==> q.read.value.dst == 1 - q.send && (q.acked < q.sent ==> 1 - q.send != BufIx(r, q.sent - 1))
  {
    hide Bytes, Metas, ByteCount, Delivered, Decode, Groups, Midway;
  }

  // The buffer a move writes into, if any.
  ghost predicate Writes(s: State, m: Move, r: nat, b: nat)
    requires r < |s.ranks|
  {
    && m.rank == r
    && match m.event
       case PackWeight => b == s.ranks[r].send
       case CopyByte(_) => s.ranks[r].read.Some? && b == s.ranks[r].read.value.dst
       case _ => false
  }

  // Buffer ownership. No step of any run writes a buffer that the next rank may still read,
  // or that the local consumer is being handed views of.
  lemma NoWriteToSharedBuffer(c: Config, run: seq<State>, moves: seq<Move>, i: nat, r: nat, b: nat)
    requires IsRun(c, run, moves) && i < |moves| && r < c.world && b < 2
    ensures WellShaped(c, run[i]) && WellShaped(c, run[i + 1])
    ensures Writes(run[i], moves[i], r, b) ==> !MayBeRead(c, run[i], r, b) && !BeingYielded(run[i].ranks[r], b)
    ensures !Writes(run[i], moves[i], r, b) ==> run[i + 1].ranks[r].bufs[b] == run[i].ranks[r].bufs[b]
  {
    hide RankInv, LinkInv, MayBeRead;
    RunInv(c, run, moves, i);
    RunInv(c, run, moves, i + 1);
    assert Takes(c, run[i], moves[i], run[i + 1]);
    if Writes(run[i], moves[i], r, b) {
      WritableBuffer(c, r, run[i].ranks[r]);
      if MayBeRead(c, run[i], r, b) {
        SharedBuffer(c, run[i], r, b);
      }
    }
  }

  // Each link carries at most one outstanding operation, counted wherever it currently is, and neither assertion of
  // the program can fail: a waiting rank finds its own key, sent by its successor, and every announcement names
  // descriptors and a key of the rank that made it, although its metadata was itself received and forwarded.
  lemma OperationsMatch(c: Config, run: seq<State>, moves: seq<Move>, i: nat, r: nat)
    requires IsRun(c, run, moves) && i < |run| && r < c.world - 1
    ensures WellShaped(c, run[i])
    ensures var s := run[i];
      && |s.chan[r]| + |s.inbox[r]| + (if s.ranks[r + 1].read.Some? then 1 else 0) <= 1
      && (forall n :: n in s.inbox[r] ==> s.ranks[r].op == Some(n.key) && n.from == r + 1)
      && (forall m :: m in s.chan[r] ==> m.notifyKey == s.ranks[r].op && m.notifyKey.Some? && m.notifyKey.value.rank == r
                                         && m.remoteDescs.Some? && m.remoteDescs.value.rank == r)
  {
    hide RankInv, Groups, Metas;
    RunInv(c, run, moves, i);
    var s := run[i];
    assert LinkInv(c, r, s.ranks[r], s.ranks[r + 1], s.chan[r], s.inbox[r]);
    RankOp(c, r, s.ranks[r]);
    RankReads(c, r + 1, s.ranks[r + 1]);
  }

  lemma RankOp(c: Config, r: nat, q: Rank)
    requires RankInv(c, r, q)
    ensures OpInv(r, q)
  {
  }

  lemma RankReads(c: Config, r: nat, q: Rank)
    requires RankInv(c, r, q) && r > 0
    ensures q.read.Some? <==> q.fin < q.got
  {
    hide PcInv, OpInv, Groups, Bytes, Metas;
  }

  // Clean exit. Once a rank has returned, no announcement, READ or notification concerns its buffers any more.
  lemma ReturnedRankIsQuiet(c: Config, run: seq<State>, moves: seq<Move>, i: nat, r: nat, b: nat)
    requires IsRun(c, run, moves) && i < |run| && r < c.world
    ensures WellShaped(c, run[i])
    ensures run[i].ranks[r].pc == Done ==>
              !MayBeRead(c, run[i], r, b) && run[i].inbox[r] == [] && run[i].chan[r] == [] && run[i].ranks[r].read.None?
  {
    hide RankInv, Groups, Metas, MayBeRead;
    RunInv(c, run, moves, i);
    var s := run[i];
    if s.ranks[r].pc == Done {
      DoneRank(c, r, s.ranks[r]);
      if MayBeRead(c, s, r, b) {
        SharedBuffer(c, s, r, b);
      }
      if HasNext(c, r) {
        assert LinkInv(c, r, s.ranks[r], s.ranks[r + 1], s.chan[r], s.inbox[r]);
      }
    }
  }

  lemma DoneRank(c: Config, r: nat, q: Rank)
    requires RankInv(c, r, q) && q.pc == Done
    ensures q.sent == q.acked && q.read.None? && q.op.None?
    ensures r > 0 ==> q.got == q.fin == |G(c)|
    ensures HasNext(c, r) ==> q.sent == |G(c)|
  {
    hide Bytes, Metas, ByteCount, Delivered, Decode, Groups, Midway;
  }
}
