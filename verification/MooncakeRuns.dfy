/** Runs of the Mooncake relay: what the magic bytes guarantee, for which weights, and that no rank waits for ever. */
module MooncakeRuns {
  import opened Weights
  import opened BucketPacking
  import opened Transfer
  import opened MooncakeRelay

  datatype Move = Move(rank: nat, event: Event)

  ghost predicate Takes(c: Config, s: State, m: Move, s': State) {
    WellShaped(c, s) && m.rank < c.world && Enabled(c, s, m.rank, m.event) && s' == Apply(c, s, m.rank, m.event)
  }

  ghost predicate IsPath(c: Config, run: seq<State>, moves: seq<Move>) {
    && |run| == |moves| + 1
    && forall i :: 0 <= i < |moves| ==> Takes(c, run[i], moves[i], run[i + 1])
  }

  // Any schedule of all ranks' steps.
  ghost predicate IsRun(c: Config, run: seq<State>, moves: seq<Move>) {
    ValidMagic(c) && IsPath(c, run, moves) && Init(c, run[0])
  }

  lemma WaitingBucket(c: Config, s: State, r: nat, e: Event)
    requires Inv(c, s) && MagicSafe(c) && r < c.world
    ensures NotFooled(c, s, r, e)
  {
    hide RankInv, LinkInv, Groups, Bytes, LooksAcked;
    assert RankInv(c, r, s.ranks[r], Acks(c, s, r));
    if s.ranks[r].pc == AwaitReuse {
      WaitingRank(c, r, s.ranks[r], Acks(c, s, r));
    }
  }

  lemma {:induction false} RunInv(c: Config, run: seq<State>, moves: seq<Move>, i: nat)
    requires IsRun(c, run, moves) && MagicSafe(c) && i < |run|
    ensures Inv(c, run[i]) && WellShaped(c, run[i])
  {
    hide RanksOk, LinksOk, Enabled, Apply, Init, MagicSafe, NotFooled;
    if i == 0 {
      InitInv(c, run[0]);
    } else {
      RunInv(c, run, moves, i - 1);
      assert Takes(c, run[i - 1], moves[i - 1], run[i]);
      WaitingBucket(c, run[i - 1], moves[i - 1].rank, moves[i - 1].event);
      StepInv(c, run[i - 1], moves[i - 1].rank, moves[i - 1].event);
    }
    InvShape(c, run[i]);
  }

  // ---- Buffer ownership ----

  // The next rank may still copy from this half of rank r: it is named by an info that is under way or being served.
  ghost predicate MayBeRead(c: Config, s: State, r: nat, half: nat)
    requires |s.ranks| == |s.chan| == c.world && r < c.world
  {
    && HasNext(c, r)
    && ((exists i :: 0 <= i < |s.chan[r]| && s.chan[r][i].half == half)
        || (s.ranks[r + 1].pc in {AwaitReuse, Reading} && s.ranks[r + 1].info.half == half))
  }

  // The half of rank r that a move writes into: a rank's own, or the previous rank's when it acknowledges.
  ghost predicate Writes(s: State, m: Move, r: nat, half: nat)
    requires r < |s.ranks|
  {
    match m.event
    case PackWeight => m.rank == r && half == Current(s.ranks[r])
    case CopyByte(_) => m.rank == r && half == Current(s.ranks[r])
    case WriteMagic => m.rank == r + 1 && r + 1 < |s.ranks| && half == s.ranks[r + 1].info.half
    case _ => false
  }

  ghost predicate EarlyOverwrite(c: Config, s: State, m: Move)
    requires WellShaped(c, s)
  {
    exists r: nat, half: nat :: r < c.world && Writes(s, m, r, half) && MayBeRead(c, s, r, half)
  }

  // A half that may be read holds a bucket the next rank has neither copied nor acknowledged.
  lemma SharedHalf(c: Config, s: State, r: nat, half: nat) returns (k: nat)
    requires Inv(c, s) && r < c.world && MayBeRead(c, s, r, half)
    ensures HasNext(c, r) && s.ranks[r + 1].sent <= k < s.ranks[r].sent && half == k % 2
    ensures s.ranks[r + 1].pc == Acking ==> k > s.ranks[r + 1].idx
  {
    hide RankInv, Groups, Metas, Bytes;
    var p, q := s.ranks[r], s.ranks[r + 1];
    assert LinkInv(c, p.sent, q, s.chan[r]);
    assert RankInv(c, r + 1, q, Acks(c, s, r + 1));
    ReceiverCounts(c, r + 1, q, Acks(c, s, r + 1));
    if q.pc in {AwaitReuse, Reading} && q.info.half == half {
      k := q.idx;
    } else {
      var i :| 0 <= i < |s.chan[r]| && s.chan[r][i].half == half;
      k := q.got + i;
    }
  }

  lemma ReceiverCounts(c: Config, r: nat, q: Rank, acks: nat)
    requires RankInv(c, r, q, acks) && r > 0
    ensures q.pc !in {Filling, AwaitLast} && q.idx <= q.sent <= q.got <= |G(c)|
    ensures q.pc in {AwaitReuse, Reading} ==> q.sent == q.idx && q.got == q.idx + 1 && q.info.half == q.idx % 2
    ensures q.pc == Acking ==> q.sent == q.got == q.idx + 1 && q.info.half == q.idx % 2
    ensures q.pc == Receive ==> q.got == q.idx < |G(c)|
    ensures q.pc == Done ==> q.idx == q.sent == |G(c)|
  {
    hide Groups, Metas, Bytes, OutInv, HalvesInv;
  }

  lemma OwnerCounts(c: Config, r: nat, q: Rank, acks: nat)
    requires RankInv(c, r, q, acks) && HasNext(c, r)
    ensures acks <= q.sent <= acks + 2
    ensures Overwriting(q) ==> q.sent <= acks + 1 && Current(q) == q.sent % 2
  {
    hide Groups, Metas, Bytes, ByteCount, OutInv, Pack, Overflows, Content;
  }

  lemma SafeStep(c: Config, s: State, m: Move)
    requires Inv(c, s) && WellShaped(c, s) && m.rank < c.world && Enabled(c, s, m.rank, m.event)
    ensures !EarlyOverwrite(c, s, m)
  {
    hide RankInv, LinkInv, MayBeRead, Groups;
    if r: nat, half: nat :| r < c.world && Writes(s, m, r, half) && MayBeRead(c, s, r, half) {
      var k := SharedHalf(c, s, r, half);
      OwnerCounts(c, r, s.ranks[r], Acks(c, s, r));
      ReceiverCounts(c, r + 1, s.ranks[r + 1], Acks(c, s, r + 1));
      assert false;
    }
  }

  ghost predicate NeverOverwritesEarly(c: Config) {
    forall run, moves, i :: IsRun(c, run, moves) && 0 <= i < |moves| ==>
                              WellShaped(c, run[i]) && !EarlyOverwrite(c, run[i], moves[i])
  }

  lemma MagicSafeIsSafe(c: Config)
    requires MagicSafe(c)
    ensures NeverOverwritesEarly(c)
  {
    hide Inv, Enabled, Apply, Init, MagicSafe, EarlyOverwrite, WellShaped;
    forall run, moves, i | IsRun(c, run, moves) && 0 <= i < |moves|
      ensures WellShaped(c, run[i]) && !EarlyOverwrite(c, run[i], moves[i])
    {
      RunInv(c, run, moves, i);
      assert Takes(c, run[i], moves[i], run[i + 1]);
      SafeStep(c, run[i], moves[i]);
    }
  }

  lemma UnwrittenHalfStays(c: Config, s: State, m: Move, s': State, r: nat, half: nat)
    requires Takes(c, s, m, s') && r < c.world && half < 2 && !Writes(s, m, r, half)
    ensures s'.ranks[r].halves[half] == s.ranks[r].halves[half]
  {
    hide Splice, Moved;
    if r == m.rank {
      OwnHalfOnly(c, s, m, half);
    }
  }

  lemma OwnHalfOnly(c: Config, s: State, m: Move, half: nat)
    requires WellShaped(c, s) && m.rank < c.world && Enabled(c, s, m.rank, m.event) && half < 2
    requires !Writes(s, m, m.rank, half)
    ensures |Moved(c, s, m.rank, m.event).halves| == 2
    ensures Moved(c, s, m.rank, m.event).halves[half] == s.ranks[m.rank].halves[half]
  {
    hide Splice, DictSet, Window, Upto;
  }

  // ---- Delivery ----

  // Whatever is still being copied elsewhere, a finished copy is exactly the bucket announced.
  lemma ReadsAreExact(c: Config, run: seq<State>, moves: seq<Move>, i: nat, r: nat)
    requires IsRun(c, run, moves) && MagicSafe(c) && i < |run| && r < c.world
    ensures WellShaped(c, run[i])
    ensures var q := run[i].ranks[r];
      Enabled(c, run[i], r, EndRead) ==>
        q.idx < |G(c)| && q.info.metas == Metas(G(c)[q.idx]) && Bytes(G(c)[q.idx]) <= q.halves[q.idx % 2]
  {
    hide RankInv, Groups, Metas, Bytes, MagicSafe, Init, Apply;
    RunInv(c, run, moves, i);
    var q := run[i].ranks[r];
    if Enabled(c, run[i], r, EndRead) {
      assert RankInv(c, r, q, Acks(c, run[i], r));
      ReadingRank(c, r, q, Acks(c, run[i], r));
    }
  }

  lemma OutBounds(c: Config, r: nat, q: Rank, acks: nat) returns (k: nat, j: nat)
    requires RankInv(c, r, q, acks) && r > 0
    ensures OutInv(c, r, q, k, j) && (q.pc == Done ==> k == |G(c)| && j == 0)
  {
    hide Groups, Metas, Bytes, OutInv, HalvesInv;
    k := if q.pc == Acking then q.idx + 1 else q.idx;
    j := if q.pc == Yielding then q.j else 0;
  }

  // The last rank yields a prefix of what the buckets hold, and everything once it returns.
  lemma LastRankDelivers(c: Config, run: seq<State>, moves: seq<Move>, i: nat)
    requires IsRun(c, run, moves) && MagicSafe(c) && i < |run|
    ensures WellShaped(c, run[i])
    ensures var q, gs := run[i].ranks[c.world - 1], Groups(c.ws, c.size);
      && q.out <= Delivered(gs)
      && (q.pc == Done ==> q.out == Delivered(gs))
      && (q.pc == Done ==> (q.out == c.ws <==> forall k :: 0 <= k < |gs| ==> DistinctNames(gs[k])))
      && (DistinctNames(c.ws) ==> q.out <= c.ws && (q.pc == Done ==> q.out == c.ws))
  {
    hide RankInv, Groups, Metas, Bytes, MagicSafe, Init, Apply, Enabled, DistinctNames, Delivered;
    RunInv(c, run, moves, i);
    var r := c.world - 1;
    var q := run[i].ranks[r];
    assert RankInv(c, r, q, Acks(c, run[i], r));
    var k, j := OutBounds(c, r, q, Acks(c, run[i], r));
    assert G(c)[..|G(c)|] == G(c);
    DeliveryIffDistinct(c.ws, c.size);
    if DistinctNames(c.ws) {
      DeliveryOfDistinct(c.ws, c.size);
    }
  }

  lemma MarkedTail(g: seq<Weight>, j: nat)
    requires AllWellFormed(g) && j < |Metas(g)| && Metas(g)[j].offset >= 4
    ensures Unpack(Metas(g), Marked(Bytes(g)))[j] == Decode(g)[j]
  {
    hide Metas, Bytes, ByteCount, NBytes;
    MetasInBounds(g);
    BytesLength(g);
    var m := Metas(g)[j];
    assert m in Metas(g);
    var p, lo, hi := Bytes(g), m.offset, m.offset + NBytes(m.layout);
    assert Marked(p)[lo..hi] == p[lo..hi];
  }

  // Every rank yields the right number of tensors, and every tensor that starts past a bucket's first four bytes is exact.
  lemma MagicSparesTheRest(c: Config, run: seq<State>, moves: seq<Move>, i: nat, r: nat, k: nat, j: nat)
    requires IsRun(c, run, moves) && MagicSafe(c) && i < |run| && 0 < r < c.world
    requires k < |G(c)| && j < |Metas(G(c)[k])|
    ensures WellShaped(c, run[i]) && |run[i].ranks[r].out| <= |Delivered(G(c))|
    ensures run[i].ranks[r].pc == Done ==> |run[i].ranks[r].out| == |Delivered(G(c))|
    ensures var t := |Delivered(G(c)[..k])| + j;
      t < |run[i].ranks[r].out| && Metas(G(c)[k])[j].offset >= 4 ==> run[i].ranks[r].out[t] == Decode(G(c)[k])[j]
  {
    hide RankInv, Groups, Metas, Bytes, MagicSafe, Init, Apply, Enabled, DistinctNames, Delivered, DeliveredMarked, Unpack;
    hide Decode, Marked;
    RunInv(c, run, moves, i);
    var q := run[i].ranks[r];
    assert RankInv(c, r, q, Acks(c, run[i], r));
    var k', j' := OutBounds(c, r, q, Acks(c, run[i], r));
    assert G(c)[..|G(c)|] == G(c);
    DeliveredAt(G(c), k, j);
    if Metas(G(c)[k])[j].offset >= 4 {
      GroupOk(c, k);
      MarkedTail(G(c)[k], j);
    }
  }

  // When the sender's final wait ends, every rank next to it has acknowledged everything, if the last bucket too
  // cannot be mistaken for an acknowledgement.
  lemma SenderReturnsAcked(c: Config, run: seq<State>, moves: seq<Move>, i: nat)
    requires IsRun(c, run, moves) && MagicSafe(c) && i < |run| && !LooksAcked(Payload(c, |G(c)| - 1))
    ensures WellShaped(c, run[i])
    ensures run[i].ranks[0].pc == Done ==> run[i].ranks[1].idx == |G(c)|
  {
    hide RanksOk, LinksOk, Enabled, Init, MagicSafe, Groups, LooksAcked;
    RunInv(c, run, moves, i);
    if i == 0 {
      InitialRanks(c, run[0]);
    } else {
      SenderReturnsAcked(c, run, moves, i - 1);
      RunInv(c, run, moves, i - 1);
      assert Takes(c, run[i - 1], moves[i - 1], run[i]);
      FinalStep(c, run[i - 1], moves[i - 1]);
    }
  }

  lemma InitialRanks(c: Config, s: State)
    requires Init(c, s)
    ensures s.ranks[0].pc == Filling
  {
    assert InitRank(s.ranks[0], 0);
  }

  lemma FinalStep(c: Config, s: State, m: Move)
    requires ValidMagic(c) && Inv(c, s) && WellShaped(c, s) && m.rank < c.world && Enabled(c, s, m.rank, m.event)
    requires Inv(c, Apply(c, s, m.rank, m.event))
    requires !LooksAcked(Payload(c, |G(c)| - 1)) && (s.ranks[0].pc == Done ==> s.ranks[1].idx == |G(c)|)
    ensures var s' := Apply(c, s, m.rank, m.event); s'.ranks[0].pc == Done ==> s'.ranks[1].idx == |G(c)|
  {
    hide RankInv, LinkInv, LooksAcked, Groups, Apply, Enabled;
    var q, s' := s.ranks[0], Apply(c, s, m.rank, m.event);
    assert RankInv(c, 0, q, Acks(c, s, 0));
    assert RankInv(c, 1, s'.ranks[1], Acks(c, s', 1));
    ReceiverCounts(c, 1, s'.ranks[1], Acks(c, s', 1));
    assert RankInv(c, 1, s.ranks[1], Acks(c, s, 1));
    ReceiverCounts(c, 1, s.ranks[1], Acks(c, s, 1));
    NotReceiving(c, q, Acks(c, s, 0));
    FirstTwoRanks(c, s, m);
    if m == Move(0, SeeMagic) && q.pc == AwaitLast {
      FinalWait(c, q, Acks(c, s, 0));
    }
  }

  // Only its own SeeMagic makes the sender return, and no step lowers a receiver's bucket count.
  lemma FirstTwoRanks(c: Config, s: State, m: Move)
    requires WellShaped(c, s) && m.rank < c.world && Enabled(c, s, m.rank, m.event)
    requires s.ranks[0].pc != Acking && s.ranks[1].pc != Filling
    ensures var s' := Apply(c, s, m.rank, m.event);
      && s'.ranks[1].idx >= s.ranks[1].idx
      && (s'.ranks[0].pc == Done && s.ranks[0].pc != Done ==> m == Move(0, SeeMagic) && s.ranks[0].pc == AwaitLast)
    ensures m == Move(0, SeeMagic) ==> SeesMagic(c, s.ranks[0])
  {
    hide Moved, Splice;
    OneRank(c, s, m.rank, m.event);
  }

  lemma OneRank(c: Config, s: State, r: nat, e: Event)
    requires WellShaped(c, s) && r < c.world && Enabled(c, s, r, e)
    ensures var q, q' := s.ranks[r], Moved(c, s, r, e);
      && (q.pc != Filling ==> q'.idx >= q.idx)
      && (q'.pc == Done && q.pc !in {Done, Acking} ==> e == SeeMagic && q.pc == AwaitLast)
  {
    hide DictSet, Splice, Window, Upto;
  }

  lemma NotReceiving(c: Config, q: Rank, acks: nat)
    requires RankInv(c, 0, q, acks)
    ensures q.pc !in {Receive, Reading, Yielding, Acking}
  {
    hide Groups, Bytes, PackInv, HalvesInv;
  }

  lemma FinalWait(c: Config, q: Rank, acks: nat)
    requires RankInv(c, 0, q, acks) && q.pc == AwaitLast && SeesMagic(c, q) && !LooksAcked(Payload(c, |G(c)| - 1))
    ensures acks == |G(c)|
  {
    hide Groups, Bytes, PackInv, LooksAcked, Marked;
    if acks < |G(c)| {
      UnackedIsVisible(Payload(c, |G(c)| - 1), q.halves[q.idx]);
    }
  }
}
