/** Schedules that hold one rank of the Mooncake relay back while every other rank keeps running, and the exact condition
    on the weights under which no half is overwritten early. */
module MooncakeHazard {
  import opened Weights
  import opened BucketPacking
  import opened Transfer
  import opened MooncakeRelay
  import opened MooncakeControl
  import opened MooncakeRuns
  import opened MooncakeProgress

  // Rank 1 leaves the info of bucket k in the queue (a bucket whose half is reused, or the last one), or does not go on to
  // tensor j of bucket k; or rank 2 leaves the info of bucket k.
  datatype Hold = HoldInfo(k: nat) | HoldLast(k: nat) | HoldTensor(k: nat, j: nat) | HoldSecond(k: nat)

  ghost predicate Ready(c: Config, h: Hold) {
    && ValidMagic(c)
    && match h
       case HoldInfo(k) =>
         && k + 2 < |G(c)| && LooksAcked(Payload(c, k))
         && forall j: nat :: j < k ==> !LooksAcked(Payload(c, j))
       case HoldLast(k) => MagicSafe(c) && k + 1 == |G(c)| && LooksAcked(Payload(c, k))
       case HoldTensor(k, j) => c.world >= 3 && MagicSafe(c) && k < |G(c)| && j < |Metas(G(c)[k])|
       case HoldSecond(k) => c.world >= 3 && MagicSafe(c) && k + 1 == |G(c)|
  }

  ghost predicate Allowed(h: Hold, s: State, m: Move)
    requires |s.ranks| >= 2
  {
    match h
    case HoldInfo(k) => !(m == Move(1, ReceiveInfo) && s.ranks[1].got == k)
    case HoldLast(k) => !(m == Move(1, ReceiveInfo) && s.ranks[1].got == k)
    case HoldTensor(k, j) => !(m == Move(1, YieldTensor) && s.ranks[1].idx == k && s.ranks[1].j == j)
    case HoldSecond(k) => !(m == Move(2, ReceiveInfo) && |s.ranks| >= 3 && s.ranks[2].got == k)
  }

  // Past the n bytes written last, the half starts with magic bytes.
  ghost predicate Tail(buf: seq<Byte>, n: nat) {
    |buf| >= 4 && forall i :: n <= i < 4 ==> buf[i] == MAGIC[i]
  }

  ghost predicate StaleMagic(c: Config, q: Rank) {
    && RankShape(c, q) && q.sent <= |G(c)|
    && (q.sent >= 1 ==> Tail(q.halves[(q.sent - 1) % 2], |Payload(c, q.sent - 1)|))
    && (q.sent >= 2 && q.pc == AwaitReuse ==> Tail(q.halves[q.sent % 2], |Payload(c, q.sent - 2)|))
    && (q.sent == 0 ==> Tail(q.halves[1], 0))
    && (q.pc == Filling ==> Tail(q.halves[Current(q)], q.fill.offset))
  }

  ghost predicate HoldsInfo(c: Config, k: nat, s: State) {
    && |s.ranks| >= 2
    && s.ranks[1].got <= k && s.ranks[0].sent <= k + 2
    && s.ranks[0].pc in {Filling, AwaitReuse} && (s.ranks[0].sent == k + 2 ==> s.ranks[0].pc == AwaitReuse)
    && StaleMagic(c, s.ranks[0])
  }

  ghost predicate HoldsLast(c: Config, k: nat, s: State) {
    && |s.ranks| >= 2
    && s.ranks[1].got <= k && s.ranks[0].pc in {Filling, AwaitReuse, AwaitLast} && StaleMagic(c, s.ranks[0])
  }

  // Not past tensor j of bucket k.
  ghost predicate HeldRank(q: Rank, k: nat, j: nat) {
    || q.idx < k
    || (q.idx == k && (q.pc in {Receive, AwaitReuse, Reading} || (q.pc == Yielding && q.j <= j)))
  }

  ghost predicate HoldsTensor(k: nat, j: nat, s: State) {
    |s.ranks| >= 3 && HeldRank(s.ranks[1], k, j)
  }

  ghost predicate HoldsSecond(k: nat, s: State) {
    |s.ranks| >= 3 && s.ranks[2].got <= k
  }

  ghost predicate Good(c: Config, h: Hold, s: State) {
    && Inv(c, s)
    && match h
       case HoldInfo(k) => HoldsInfo(c, k, s)
       case HoldLast(k) => HoldsLast(c, k, s)
       case HoldTensor(k, j) => HoldsTensor(k, j, s)
       case HoldSecond(k) => HoldsSecond(k, s)
  }

  ghost predicate Reached(h: Hold, s: State)
    requires |s.ranks| >= 2
  {
    match h
    case HoldInfo(k) => s.ranks[0].sent == k + 2
    case HoldLast(_) => s.ranks[0].pc == AwaitLast
    case HoldTensor(k, j) =>
      |s.ranks| >= 3 && s.ranks[1].pc == Yielding && s.ranks[1].idx == k && s.ranks[1].j == j && s.ranks[2].idx > k
    case HoldSecond(_) => s.ranks[1].pc == Done
  }

  // ---- Somebody else can always move ----

  lemma SenderMoves(c: Config, s: State)
    requires ValidMagic(c) && Inv(c, s) && WellShaped(c, s)
    requires s.ranks[0].pc == Filling || (s.ranks[0].pc == AwaitReuse && s.ranks[1].idx + 1 >= s.ranks[0].sent)
    ensures !RankStuck(c, s, 0)
  {
    hide RankInv, RankControl, LinkInv, RankStuck, Groups;
    if s.ranks[0].pc == Filling {
      InvIsControlled(c, s);
      FillingMoves(c, s);
    } else {
      assert RankInv(c, 0, s.ranks[0], Acks(c, s, 0));
      RankIsControlled(c, 0, s.ranks[0], Acks(c, s, 0));
      AckedIsSeen(c, 0, s.ranks[0], Acks(c, s, 0));
      MagicEnables(c, s, 0);
    }
  }

  lemma MoveOf(c: Config, s: State, r: nat) returns (m: Move)
    requires WellShaped(c, s) && r < c.world && !RankStuck(c, s, r)
    ensures m.rank == r && Enabled(c, s, r, m.event)
  {
    hide WellShaped, Enabled;
    var e :| Enabled(c, s, r, e);
    m := Move(r, e);
  }

  // With rank 1 waiting before bucket k, somebody else moves until the sender waits for bucket k.
  lemma HeldInfoMoves(c: Config, k: nat, s: State) returns (m: Move)
    requires ValidMagic(c) && Inv(c, s) && WellShaped(c, s) && s.ranks[1].got <= k
    requires s.ranks[0].pc == Filling || (s.ranks[0].pc == AwaitReuse && s.ranks[0].sent <= k + 1)
    ensures m.rank < c.world && Enabled(c, s, m.rank, m.event)
    ensures !(m == Move(1, ReceiveInfo) && s.ranks[1].got == k)
  {
    hide RankInv, RankControl, LinkInv, RankStuck, Groups, Bytes, Metas, Enabled;
    if r :| 1 < r < c.world && !RankStuck(c, s, r) {
      m := MoveOf(c, s, r);
    } else if !RankStuck(c, s, 1) {
      m := MoveOf(c, s, 1);
      if m == Move(1, ReceiveInfo) && s.ranks[1].got == k {
        ReceivesNext(c, s);
        SenderMoves(c, s);
        m := MoveOf(c, s, 0);
      }
    } else {
      InvIsControlled(c, s);
      StuckTail(c, s, 1);
      BlockedHasAcked(c, s, 0);
      SenderMoves(c, s);
      m := MoveOf(c, s, 0);
    }
  }

  lemma ReceivesNext(c: Config, s: State)
    requires Inv(c, s) && WellShaped(c, s) && Enabled(c, s, 1, ReceiveInfo)
    ensures s.ranks[1].idx == s.ranks[1].got
  {
    hide RankInv, LinkInv, Groups, Bytes, Metas;
    assert RankInv(c, 1, s.ranks[1], Acks(c, s, 1));
    ReceiverCounts(c, 1, s.ranks[1], Acks(c, s, 1));
  }

  // The sender has not sent more than the last bucket before it waits for it.
  lemma SentBeforeLast(c: Config, s: State)
    requires Inv(c, s) && WellShaped(c, s)
    ensures s.ranks[0].pc in {Filling, AwaitReuse} ==> s.ranks[0].sent < |G(c)|
  {
    hide RankInv, LinkInv, Groups, Bytes, Metas;
    assert RankInv(c, 0, s.ranks[0], Acks(c, s, 0));
    RankIsControlled(c, 0, s.ranks[0], Acks(c, s, 0));
    SenderPcs(c, s.ranks[0], Acks(c, s, 0));
  }

  lemma HeldTensorMoves(c: Config, k: nat, j: nat, s: State) returns (m: Move)
    requires var h := HoldTensor(k, j); Ready(c, h) && Good(c, h, s) && !Reached(h, s) && WellShaped(c, s)
    ensures m.rank < c.world && Enabled(c, s, m.rank, m.event) && Allowed(HoldTensor(k, j), s, m)
  {
    hide RankInv, RankControl, LinkInv, RankStuck, Groups, MagicSafe, Bytes, Metas, Enabled;
    if r :| 1 < r < c.world && !RankStuck(c, s, r) {
      m := MoveOf(c, s, r);
    } else {
      InvIsControlled(c, s);
      StuckTail(c, s, 2);
      BlockedHasAcked(c, s, 1);
      HeldNotDone(c, k, j, s);
      m := FirstTwoMove(c, s);
      if m == Move(1, YieldTensor) {
        YieldsHeld(c, s);
      }
    }
  }

  lemma HeldNotDone(c: Config, k: nat, j: nat, s: State)
    requires Inv(c, s) && WellShaped(c, s) && HoldsTensor(k, j, s) && k < |G(c)|
    ensures s.ranks[1].pc != Done
  {
    hide RankInv, LinkInv, Groups, Bytes, Metas;
    assert RankInv(c, 1, s.ranks[1], Acks(c, s, 1));
    ReceiverCounts(c, 1, s.ranks[1], Acks(c, s, 1));
  }

  lemma YieldsHeld(c: Config, s: State)
    requires Inv(c, s) && WellShaped(c, s) && Enabled(c, s, 1, YieldTensor)
    ensures s.ranks[1].pc == Yielding && s.ranks[1].sent == s.ranks[1].idx + 1
  {
    hide RankInv, LinkInv, Groups, Bytes, Metas;
    assert RankInv(c, 1, s.ranks[1], Acks(c, s, 1));
    YieldingRank(c, 1, s.ranks[1], Acks(c, s, 1));
  }

  // Rank 1 and the sender can go on until rank 1 returns, if rank 2 has finished all but the last bucket sent to it.
  lemma FirstTwoMove(c: Config, s: State) returns (m: Move)
    requires ValidMagic(c) && Inv(c, s) && WellShaped(c, s) && c.world >= 3 && s.ranks[1].pc != Done
    requires s.ranks[2].idx + 1 >= s.ranks[1].sent
    ensures m.rank < 2 && Enabled(c, s, m.rank, m.event)
  {
    hide RankInv, RankControl, LinkInv, RankStuck, Groups, Bytes, Metas;
    var q := s.ranks[1];
    assert RankInv(c, 1, q, Acks(c, s, 1));
    if !RankStuck(c, s, 1) {
      m := MoveOf(c, s, 1);
    } else {
      InvIsControlled(c, s);
      StuckReceiver(c, s, 1);
      if q.pc == AwaitReuse {
        RankIsControlled(c, 1, q, Acks(c, s, 1));
        AckedIsSeen(c, 1, q, Acks(c, s, 1));
        MagicEnables(c, s, 1);
      }
      BlockedHasAcked(c, s, 0);
      assert RankInv(c, 0, s.ranks[0], Acks(c, s, 0));
      RankIsControlled(c, 0, s.ranks[0], Acks(c, s, 0));
      SenderPcs(c, s.ranks[0], Acks(c, s, 0));
      SenderMoves(c, s);
      m := MoveOf(c, s, 0);
    }
  }

  lemma HeldSecondMoves(c: Config, k: nat, s: State) returns (m: Move)
    requires Ready(c, HoldSecond(k)) && Good(c, HoldSecond(k), s) && !Reached(HoldSecond(k), s) && WellShaped(c, s)
    ensures m.rank < c.world && Enabled(c, s, m.rank, m.event) && Allowed(HoldSecond(k), s, m)
  {
    hide RankInv, RankControl, LinkInv, RankStuck, Groups, MagicSafe, Bytes, Metas, Enabled;
    if r :| 2 < r < c.world && !RankStuck(c, s, r) {
      m := MoveOf(c, s, r);
    } else if !RankStuck(c, s, 2) {
      m := MoveOf(c, s, 2);
      if !Allowed(HoldSecond(k), s, m) {
        HeldSecond(c, k, s);
        m := FirstTwoMove(c, s);
      }
    } else {
      InvIsControlled(c, s);
      StuckTail(c, s, 2);
      BlockedHasAcked(c, s, 1);
      m := FirstTwoMove(c, s);
    }
  }

  // Waiting with the last bucket's info unread, rank 2 has finished all the others.
  lemma HeldSecond(c: Config, k: nat, s: State)
    requires Inv(c, s) && WellShaped(c, s) && c.world >= 3 && k + 1 == |G(c)| && s.ranks[2].got == k
    requires Enabled(c, s, 2, ReceiveInfo)
    ensures s.ranks[2].idx + 1 >= s.ranks[1].sent
  {
    hide RankInv, Groups, Bytes, Metas;
    assert RankInv(c, 2, s.ranks[2], Acks(c, s, 2));
    ReceiverCounts(c, 2, s.ranks[2], Acks(c, s, 2));
    assert LinkInv(c, s.ranks[1].sent, s.ranks[2], s.chan[1]);
    LinkRange(c, s.ranks[1].sent, s.ranks[2], s.chan[1]);
  }

  // ---- Every allowed step keeps the hold ----

  // Behind rank 1 nobody is ahead of it.
  lemma {:induction false} BehindRankOne(c: Config, s: State, r: nat)
    requires Inv(c, s) && 0 < r < c.world
    ensures s.ranks[r].sent <= s.ranks[1].got
  {
    hide RankInv, Groups;
    assert RankInv(c, r, s.ranks[r], Acks(c, s, r));
    ReceiverCounts(c, r, s.ranks[r], Acks(c, s, r));
    if r > 1 {
      BehindRankOne(c, s, r - 1);
      assert LinkInv(c, s.ranks[r - 1].sent, s.ranks[r], s.chan[r - 1]);
    }
  }

  lemma HeldIsNotFooled(c: Config, h: Hold, s: State, m: Move)
    requires Ready(c, h) && Good(c, h, s) && !Reached(h, s) && m.rank < c.world
    ensures NotFooled(c, s, m.rank, m.event)
  {
    hide RankInv, LinkInv, Groups, LooksAcked, StaleMagic, Bytes, Metas;
    if !h.HoldInfo? {
      WaitingBucket(c, s, m.rank, m.event);
    } else if m.rank > 0 {
      BehindRankOne(c, s, m.rank);
    }
  }

  lemma TailSplice(buf: seq<Byte>, offset: nat, data: seq<Byte>)
    requires Tail(buf, offset) && offset + |data| <= |buf|
    ensures Tail(Splice(buf, offset, data), offset + |data|)
  {
  }

  lemma TailMagic(buf: seq<Byte>, n: nat)
    requires |buf| >= 4
    ensures buf[..4] == MAGIC ==> Tail(buf, n)
    ensures Tail(Splice(buf, 0, MAGIC), n)
  {
    assert forall i :: 0 <= i < 4 ==> buf[..4][i] == buf[i];
  }

  lemma PackKeepsStale(c: Config, q: Rank)
    requires StaleMagic(c, q) && q.pc == Filling && q.fill.next < |c.ws| && !Full(c, q.fill) && Current(q) == q.sent % 2
    ensures StaleMagic(c, Packed(c, q))
  {
    hide Groups, Bytes, Metas, Splice, DictSet;
    TailSplice(q.halves[Current(q)], q.fill.offset, c.ws[q.fill.next].data);
    SplicedLength(q.halves[Current(q)], q.fill.offset, c.ws[q.fill.next].data);
  }

  lemma SplicedLength(buf: seq<Byte>, offset: nat, data: seq<Byte>)
    requires offset + |data| <= |buf|
    ensures |Splice(buf, offset, data)| == |buf|
  {
  }

  lemma SendKeepsStale(c: Config, s: State)
    requires WellShaped(c, s) && Enabled(c, s, 0, SendFull) && StaleMagic(c, s.ranks[0])
    requires var q := s.ranks[0];
      && Current(q) == q.sent % 2 && q.sent + 1 < |G(c)| && q.fill.offset == |Payload(c, q.sent)|
      && (q.shouldWait <==> q.sent >= 1)
    ensures StaleMagic(c, Moved(c, s, 0, SendFull))
  {
    hide Groups, Bytes, Metas;
  }

  lemma SeeKeepsStale(c: Config, s: State)
    requires WellShaped(c, s) && Enabled(c, s, 0, SeeMagic) && StaleMagic(c, s.ranks[0])
    requires s.ranks[0].pc == AwaitReuse
    ensures StaleMagic(c, Moved(c, s, 0, SeeMagic))
  {
    hide Groups, Bytes, Metas;
    TailMagic(s.ranks[0].halves[Current(s.ranks[0])], s.ranks[0].fill.offset);
  }

  lemma SendLastKeepsStale(c: Config, s: State)
    requires WellShaped(c, s) && Enabled(c, s, 0, SendLast) && StaleMagic(c, s.ranks[0])
    requires var q := s.ranks[0];
      Current(q) == q.sent % 2 && q.sent + 1 == |G(c)| && q.fill.offset == |Payload(c, q.sent)|
    ensures StaleMagic(c, Moved(c, s, 0, SendLast))
  {
    hide Groups, Bytes, Metas;
  }

  lemma MarkKeepsStale(c: Config, q: Rank, half: nat)
    requires StaleMagic(c, q) && half < 2
    ensures StaleMagic(c, WithMagic(q, half))
  {
    hide Groups, Bytes, Metas, Splice, Tail;
    SplicedLength(q.halves[half], 0, MAGIC);
    var p := WithMagic(q, half);
    forall n: nat
      ensures Tail(p.halves[half], n)
    {
      TailMagic(q.halves[half], n);
    }
  }

  lemma FillingRank(c: Config, q: Rank, acks: nat)
    requires RankInv(c, 0, q, acks) && q.pc == Filling
    ensures q.sent < |G(c)| && Current(q) == q.sent % 2 && (q.shouldWait <==> q.sent >= 1)
  {
    hide Groups, Metas, Bytes, ByteCount, Pack, HalvesInv, Overflows;
  }

  // The sender's own steps under the hold.
  lemma SenderKeepsStale(c: Config, s: State, e: Event)
    requires ValidMagic(c) && Inv(c, s) && WellShaped(c, s) && Enabled(c, s, 0, e) && StaleMagic(c, s.ranks[0])
    requires s.ranks[0].pc in {Filling, AwaitReuse}
    ensures StaleMagic(c, Moved(c, s, 0, e))
    ensures var q, q' := s.ranks[0], Moved(c, s, 0, e);
      && q'.pc in {Filling, AwaitReuse, AwaitLast} && (q'.pc == AwaitLast ==> q'.sent == |G(c)|)
      && q.sent <= q'.sent <= q.sent + 1 && (q'.sent > q.sent >= 1 ==> q'.pc != Filling)
      && (q.pc == AwaitReuse ==> q'.sent == q.sent)
  {
    hide RankInv, LinkInv, Groups, LooksAcked, StaleMagic, Bytes, Metas, Packed;
    var q := s.ranks[0];
    assert RankInv(c, 0, q, Acks(c, s, 0));
    if q.pc == Filling {
      FillingRank(c, q, Acks(c, s, 0));
    }
    match e
    case PackWeight =>
      PackKeepsStale(c, q);
      PackedCounts(c, q);
    case SendFull =>
      SendFullKeepsRank(c, s, Acks(c, s, 0));
      SendKeepsStale(c, s);
    case SendLast =>
      SendLastKeepsRank(c, s, Acks(c, s, 0));
      SendLastKeepsStale(c, s);
    case SeeMagic => SeeKeepsStale(c, s);
    case _ =>
  }

  lemma PackedCounts(c: Config, q: Rank)
    requires RankShape(c, q) && q.fill.next < |c.ws| && !Full(c, q.fill)
    ensures var q' := Packed(c, q); q'.pc == q.pc && q'.sent == q.sent
  {
    hide DictSet, Splice;
  }

  // What a step leaves of the ranks that do not make it.
  lemma OtherRank(c: Config, s: State, m: Move, r: nat)
    requires WellShaped(c, s) && m.rank < c.world && Enabled(c, s, m.rank, m.event) && r < c.world && r != m.rank
    ensures var p, p' := s.ranks[r], Apply(c, s, m.rank, m.event).ranks[r];
      p' == p || (m == Move(r + 1, WriteMagic) && p' == WithMagic(p, s.ranks[r + 1].info.half))
  {
    hide Moved, WithMagic;
  }

  // What the steps of the other ranks leave of the sender.
  lemma OthersKeepStale(c: Config, s: State, m: Move)
    requires WellShaped(c, s) && 0 < m.rank < c.world && Enabled(c, s, m.rank, m.event) && StaleMagic(c, s.ranks[0])
    ensures var q, q' := s.ranks[0], Apply(c, s, m.rank, m.event).ranks[0];
      StaleMagic(c, q') && q'.pc == q.pc && q'.sent == q.sent
  {
    hide Groups, LooksAcked, StaleMagic, Bytes, Metas, Moved, Splice;
    OtherRank(c, s, m, 0);
    StaleShape(c, s.ranks[0]);
    MarkKeepsStale(c, s.ranks[0], s.ranks[1].info.half);
  }

  // Rank 1 does not go past bucket k.
  lemma KeepsGot(c: Config, k: nat, s: State, m: Move)
    requires WellShaped(c, s) && m.rank < c.world && Enabled(c, s, m.rank, m.event) && s.ranks[1].got <= k
    requires !(m == Move(1, ReceiveInfo) && s.ranks[1].got == k)
    ensures Apply(c, s, m.rank, m.event).ranks[1].got <= k
  {
    hide Moved, Splice;
    if m.rank == 1 {
      GotGrows(c, s, m);
    } else {
      OtherRank(c, s, m, 1);
    }
  }

  lemma HeldInfoStep(c: Config, k: nat, s: State, m: Move)
    requires var h := HoldInfo(k); Ready(c, h) && Good(c, h, s) && !Reached(h, s) && Allowed(h, s, m) && WellShaped(c, s)
    requires m.rank < c.world && Enabled(c, s, m.rank, m.event)
    ensures HoldsInfo(c, k, Apply(c, s, m.rank, m.event))
  {
    hide Inv, Groups, LooksAcked, StaleMagic, Bytes, Metas, Moved, Splice;
    if m.rank == 0 {
      SentBeforeLast(c, s);
      SenderKeepsStale(c, s, m.event);
    } else {
      OthersKeepStale(c, s, m);
    }
    KeepsGot(c, k, s, m);
  }

  lemma HeldLastStep(c: Config, k: nat, s: State, m: Move)
    requires var h := HoldLast(k); Ready(c, h) && Good(c, h, s) && !Reached(h, s) && Allowed(h, s, m) && WellShaped(c, s)
    requires m.rank < c.world && Enabled(c, s, m.rank, m.event)
    ensures HoldsLast(c, k, Apply(c, s, m.rank, m.event))
  {
    hide Inv, Groups, LooksAcked, StaleMagic, Bytes, Metas, Moved, Splice;
    if m.rank == 0 {
      SenderKeepsStale(c, s, m.event);
    } else {
      OthersKeepStale(c, s, m);
    }
    KeepsGot(c, k, s, m);
  }

  lemma StaleShape(c: Config, q: Rank)
    requires StaleMagic(c, q)
    ensures RankShape(c, q)
  {
  }

  lemma GotGrows(c: Config, s: State, m: Move)
    requires WellShaped(c, s) && m.rank < c.world && Enabled(c, s, m.rank, m.event)
    ensures Apply(c, s, m.rank, m.event).ranks[m.rank].got
         == s.ranks[m.rank].got + (if m.event == ReceiveInfo then 1 else 0)
  {
    hide DictSet, Splice, Window, WithMagic;
  }

  lemma HeldSecondStep(c: Config, k: nat, s: State, m: Move)
    requires Good(c, HoldSecond(k), s) && WellShaped(c, s)
    requires m.rank < c.world && Enabled(c, s, m.rank, m.event) && Allowed(HoldSecond(k), s, m)
    ensures HoldsSecond(k, Apply(c, s, m.rank, m.event))
  {
    hide Inv, Groups, Bytes, Metas, Moved, Splice;
    if m.rank == 2 {
      GotGrows(c, s, m);
    } else {
      OtherRank(c, s, m, 2);
    }
  }

  lemma HeldTensorStep(c: Config, k: nat, j: nat, s: State, m: Move)
    requires var h := HoldTensor(k, j); Ready(c, h) && Good(c, h, s) && Allowed(h, s, m) && WellShaped(c, s)
    requires m.rank < c.world && Enabled(c, s, m.rank, m.event)
    ensures HoldsTensor(k, j, Apply(c, s, m.rank, m.event))
  {
    hide Inv, Groups, Bytes, Metas, MagicSafe, Moved, Splice;
    if m.rank == 1 {
      RankOne(c, s);
      HeldRankStep(c, k, j, s, m.event);
    } else {
      OtherRank(c, s, m, 1);
    }
  }

  lemma RankOne(c: Config, s: State)
    requires Inv(c, s)
    ensures s.ranks[1].pc !in {Filling, AwaitLast}
    ensures s.ranks[1].pc in {Yielding, Acking} ==> s.ranks[1].idx < |G(c)| && s.ranks[1].info == InfoOf(c, s.ranks[1].idx)
  {
    hide RankInv, LinkInv, Groups, Bytes, Metas;
    var q := s.ranks[1];
    assert RankInv(c, 1, q, Acks(c, s, 1));
    ReceiverCounts(c, 1, q, Acks(c, s, 1));
    if q.pc == Yielding {
      YieldingRank(c, 1, q, Acks(c, s, 1));
    } else if q.pc == Acking {
      AckingRank(c, 1, q, Acks(c, s, 1));
    }
  }

  lemma HeldRankStep(c: Config, k: nat, j: nat, s: State, e: Event)
    requires WellShaped(c, s) && HoldsTensor(k, j, s) && Enabled(c, s, 1, e) && k < |G(c)|
    requires !(e == YieldTensor && s.ranks[1].idx == k && s.ranks[1].j == j)
    requires s.ranks[1].pc in {Yielding, Acking} ==> s.ranks[1].idx < |G(c)| && s.ranks[1].info == InfoOf(c, s.ranks[1].idx)
    requires j < |Metas(G(c)[k])| && s.ranks[1].pc !in {Filling, AwaitLast}
    ensures HeldRank(Moved(c, s, 1, e), k, j)
  {
    hide Splice, DictSet, Upto, Groups, Metas, Bytes, Window, Aligned;
  }

  // ---- Driving the system to the point of interest ----

  lemma {:induction false} Drive(c: Config, h: Hold, s: State) returns (run: seq<State>, moves: seq<Move>)
    requires Ready(c, h) && Good(c, h, s)
    ensures IsPath(c, run, moves) && run[0] == s
    ensures Good(c, h, run[|moves|]) && Reached(h, run[|moves|])
    decreases Measure(c, s)
  {
    hide RanksOk, RanksControlled, LinksOk, Enabled, Apply, Measure, HoldsInfo, HoldsLast, HoldsTensor, HoldsSecond, Reached,
         Allowed, Ready, WellShaped;
    if Reached(h, s) {
      run, moves := [s], [];
    } else {
      InvShape(c, s);
      ReadyIsValid(c, h);
      var m: Move;
      match h {
        case HoldInfo(k) => m := HeldMoves(c, h, s);
        case HoldLast(k) => m := HeldMoves(c, h, s);
        case HoldTensor(k, j) => m := HeldTensorMoves(c, k, j, s);
        case HoldSecond(k) => m := HeldSecondMoves(c, k, s);
      }
      HeldIsNotFooled(c, h, s, m);
      StepInv(c, s, m.rank, m.event);
      InvIsControlled(c, s);
      MeasureNonNegative(c, s);
      StepDecreases(c, s, m.rank, m.event);
      var s' := Apply(c, s, m.rank, m.event);
      match h {
        case HoldInfo(k) => HeldInfoStep(c, k, s, m);
        case HoldLast(k) => HeldLastStep(c, k, s, m);
        case HoldTensor(k, j) => HeldTensorStep(c, k, j, s, m);
        case HoldSecond(k) => HeldSecondStep(c, k, s, m);
      }
      assert Good(c, h, s');
      var run', moves' := Drive(c, h, s');
      run, moves := [s] + run', [m] + moves';
      PathPrepend(c, s, m, run', moves');
    }
  }

  lemma HeldMoves(c: Config, h: Hold, s: State) returns (m: Move)
    requires h.HoldInfo? || h.HoldLast?
    requires Ready(c, h) && Good(c, h, s) && !Reached(h, s) && WellShaped(c, s)
    ensures m.rank < c.world && Enabled(c, s, m.rank, m.event) && Allowed(h, s, m)
  {
    hide Inv, Groups, LooksAcked, StaleMagic, Bytes, Metas, MagicSafe, Enabled, WellShaped;
    SentBeforeLast(c, s);
    m := HeldInfoMoves(c, h.k, s);
  }

  lemma ReadyIsValid(c: Config, h: Hold)
    requires Ready(c, h)
    ensures ValidMagic(c)
  {
  }

  lemma PathPrepend(c: Config, s: State, m: Move, run: seq<State>, moves: seq<Move>)
    requires IsPath(c, run, moves) && Takes(c, s, m, run[0])
    ensures IsPath(c, [s] + run, [m] + moves)
  {
    hide Takes;
    forall i | 0 <= i < |moves| + 1
      ensures Takes(c, ([s] + run)[i], ([m] + moves)[i], ([s] + run)[i + 1])
    {
      assert i > 0 ==> Takes(c, run[i - 1], moves[i - 1], run[i]);
    }
  }

  lemma PathAppend(c: Config, run: seq<State>, moves: seq<Move>, m: Move, s: State)
    requires IsPath(c, run, moves) && Takes(c, run[|moves|], m, s)
    ensures IsPath(c, run + [s], moves + [m])
  {
    hide Takes;
  }

  // Buffers that start out as an earlier use may have left them.
  function MagicBuffer(size: nat): (buf: seq<Byte>)
    requires size >= 4
    ensures |buf| == size && Tail(buf, 0)
  {
    MAGIC + seq(size - 4, _ => 0)
  }

  ghost function StartRank(c: Config, r: nat): Rank
    requires c.size >= 4
  {
    Rank(if r == 0 then Filling else Receive, [MagicBuffer(c.size), MagicBuffer(c.size)], 0, Begin(), false,
         Info([], 0, 0, false), {}, 0, [], 0, 0)
  }

  ghost function Start(c: Config): State
    requires c.size >= 4
  {
    State(seq(c.world, r requires 0 <= r < c.world => StartRank(c, r)), seq(c.world, _ => []))
  }

  lemma StartInit(c: Config, h: Hold)
    requires Ready(c, h)
    ensures Init(c, Start(c)) && Good(c, h, Start(c))
  {
    hide Inv, Groups, Bytes, LooksAcked;
    InitInv(c, Start(c));
    GroupsNotEmpty(c);
  }

  // ---- The condition is exact ----

  lemma LeastLookalike(c: Config, k: nat) returns (least: nat)
    requires k < |G(c)| && LooksAcked(Payload(c, k))
    ensures least <= k && LooksAcked(Payload(c, least))
    ensures forall j: nat :: j < least ==> !LooksAcked(Payload(c, j))
  {
    hide Groups, Bytes, LooksAcked;
    if j: nat :| j < k && LooksAcked(Payload(c, j)) {
      least := LeastLookalike(c, j);
    } else {
      least := k;
    }
  }

  lemma LookalikeIsSeen(p: seq<Byte>, buf: seq<Byte>)
    requires p <= buf && Tail(buf, |p|) && LooksAcked(p)
    ensures buf[..4] == MAGIC
  {
    assert forall i :: 0 <= i < 4 ==> buf[..4][i] == MAGIC[i];
  }

  // With bucket k unread, the sender's wait for it ends at once and its next weight goes over it.
  lemma FooledSender(c: Config, k: nat, s: State)
    requires Ready(c, HoldInfo(k)) && Good(c, HoldInfo(k), s) && Reached(HoldInfo(k), s) && WellShaped(c, s)
    ensures Enabled(c, s, 0, SeeMagic) && MayBeRead(c, s, 0, k % 2)
    ensures Current(s.ranks[0]) == k % 2 && s.ranks[0].fill.next < |c.ws| && s.ranks[0].fill.offset == 0
  {
    hide RankInv, LinkInv, Groups, Bytes, Metas, StaleMagic, LooksAcked;
    var q := s.ranks[0];
    assert RankInv(c, 0, q, Acks(c, s, 0));
    assert LinkInv(c, q.sent, s.ranks[1], s.chan[0]);
    UnreadInfo(c, k, s.ranks[1], s.chan[0]);
    FooledRank(c, k, q, Acks(c, s, 0));
  }

  lemma UnreadInfo(c: Config, k: nat, q: Rank, ch: seq<Info>)
    requires LinkInv(c, k + 2, q, ch) && q.got <= k
    ensures q.idx <= k && exists i :: 0 <= i < |ch| && ch[i].half == k % 2
  {
    hide Groups, Metas, Bytes;
    assert ch[k - q.got] == InfoOf(c, k);
  }

  lemma FooledRank(c: Config, k: nat, q: Rank, acks: nat)
    requires Ready(c, HoldInfo(k)) && RankInv(c, 0, q, acks) && StaleMagic(c, q) && q.pc == AwaitReuse && q.sent == k + 2
    requires acks <= k
    ensures RankShape(c, q) && SeesMagic(c, q) && Current(q) == k % 2 && q.fill.next < |c.ws| && q.fill.offset == 0
  {
    hide Groups, Bytes, Metas, ByteCount, Pack, Overflows, Marked, LooksAcked, Tail;
    LookalikeIsSeen(Payload(c, k), q.halves[k % 2]);
  }

  lemma Overwrite(c: Config, k: nat, s: State) returns (s1: State, s2: State)
    requires Ready(c, HoldInfo(k)) && Good(c, HoldInfo(k), s) && Reached(HoldInfo(k), s)
    ensures Takes(c, s, Move(0, SeeMagic), s1) && Takes(c, s1, Move(0, PackWeight), s2)
    ensures EarlyOverwrite(c, s1, Move(0, PackWeight))
  {
    hide Inv, Groups, Bytes, Metas, StaleMagic, LooksAcked, Splice;
    InvShape(c, s);
    FooledSender(c, k, s);
    s1 := Apply(c, s, 0, SeeMagic);
    assert MayBeRead(c, s1, 0, k % 2);
    s2 := Apply(c, s1, 0, PackWeight);
    assert Writes(s1, Move(0, PackWeight), 0, k % 2);
  }

  lemma LookalikeIsUnsafe(c: Config)
    requires ValidMagic(c) && !MagicSafe(c)
    ensures !NeverOverwritesEarly(c)
  {
    hide Groups, Bytes, LooksAcked, Good, EarlyOverwrite, Takes, Start, IsPath;
    var k: nat :| k + 2 < |G(c)| && LooksAcked(Payload(c, k));
    k := LeastLookalike(c, k);
    var h := HoldInfo(k);
    StartInit(c, h);
    var run, moves := Drive(c, h, Start(c));
    var n := |moves|;
    assert n + 1 == |run| by { PathLength(c, run, moves); }
    var s1, s2 := Overwrite(c, k, run[n]);
    PathAppend(c, run, moves, Move(0, SeeMagic), s1);
    PathAppend(c, run + [s1], moves + [Move(0, SeeMagic)], Move(0, PackWeight), s2);
    var run', moves' := run + [s1] + [s2], moves + [Move(0, SeeMagic)] + [Move(0, PackWeight)];
    assert IsRun(c, run', moves');
    assert run'[n + 1] == s1 && moves'[n + 1] == Move(0, PackWeight);
  }

  lemma PathLength(c: Config, run: seq<State>, moves: seq<Move>)
    requires IsPath(c, run, moves)
    ensures |run| == |moves| + 1
  {
  }

  // No schedule overwrites a half before the next rank has copied it, exactly when no bucket before the last two
  // can be mistaken for an acknowledgement.
  lemma SafeIffMagicSafe(c: Config)
    requires ValidMagic(c)
    ensures NeverOverwritesEarly(c) <==> MagicSafe(c)
  {
    hide NeverOverwritesEarly, MagicSafe;
    if MagicSafe(c) {
      MagicSafeIsSafe(c);
    } else {
      LookalikeIsUnsafe(c);
    }
  }
}
