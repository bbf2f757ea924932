/** What the ranks of the Mooncake relay hand out and when they return: the exact condition under which ranks with a
    successor yield the sender's tensors, and the exact condition under which the sender's return means delivery. */
module MooncakeYields {
  import opened Weights
  import opened BucketPacking
  import opened Transfer
  import opened MooncakeRelay
  import opened MooncakeRuns
  import opened MooncakeProgress
  import opened MooncakeHazard

  // ---- Tensors under the acknowledgement ----

  // The acknowledgement leaves a bucket that looks acknowledged as it is.
  lemma LookalikeStays(p: seq<Byte>)
    requires LooksAcked(p)
    ensures p <= Marked(p)
  {
  }

  lemma {:induction false} LookalikesStay(gs: seq<seq<Weight>>)
    requires forall k :: 0 <= k < |gs| ==> AllWellFormed(gs[k]) && LooksAcked(Bytes(gs[k]))
    ensures DeliveredMarked(gs) == Delivered(gs)
  {
    hide Bytes, Metas, Marked, LooksAcked, Unpack;
    if gs != [] {
      var n := |gs| - 1;
      LookalikesStay(gs[..n]);
      LookalikeStays(Bytes(gs[n]));
      UnpackPrefix(gs[n], Marked(Bytes(gs[n])));
    }
  }

  // The tensor a byte of a bucket belongs to.
  lemma {:induction false} TensorOfByte(g: seq<Weight>, i: nat) returns (j: nat)
    requires i < ByteCount(g)
    ensures j < |g| && ByteCount(g[..j]) <= i < ByteCount(g[..j]) + |g[j].data|
  {
    var n := |g| - 1;
    if i >= ByteCount(g[..n]) {
      j := n;
    } else {
      j := TensorOfByte(g[..n], i);
      assert g[..n][..j] == g[..j];
    }
  }

  // A bucket that does not look acknowledged has a tensor that the acknowledgement changes.
  lemma ChangedTensor(g: seq<Weight>) returns (j: nat)
    requires AllWellFormed(g) && DistinctNames(g) && !LooksAcked(Bytes(g))
    ensures j < |Metas(g)| && Unpack(Metas(g), Marked(Bytes(g)))[j] != Decode(g)[j]
  {
    hide Bytes, Metas, ByteCount, NBytes;
    var p := Bytes(g);
    var i: nat :| i < 4 && i < |p| && p[i] != MAGIC[i];
    BytesLength(g);
    j := TensorOfByte(g, i);
    MetasOfDistinct(g);
    var lo := ByteCount(g[..j]);
    SlotBytes(g, j, lo, lo + |g[j].data|);
    MarkedLength(p);
    assert Slice(Marked(p), lo, lo + |g[j].data|)[i - lo] == MAGIC[i];
    assert Slice(p, lo, lo + |g[j].data|)[i - lo] == p[i];
  }

  // ---- What every receiving rank yields ----

  ghost predicate YieldTheWeights(c: Config, s: State) {
    && |s.ranks| == c.world
    && forall r :: 0 < r < c.world ==> s.ranks[r].out <= c.ws && (s.ranks[r].pc == Done ==> s.ranks[r].out == c.ws)
  }

  ghost predicate EveryRankYieldsTheWeights(c: Config) {
    forall run, moves, i :: IsRun(c, run, moves) && 0 <= i < |run| ==> YieldTheWeights(c, run[i])
  }

  lemma ExactRank(c: Config, r: nat, q: Rank, acks: nat)
    requires RankInv(c, r, q, acks) && r > 0 && (!HasNext(c, r) || DeliveredMarked(G(c)) == Delivered(G(c)))
    ensures q.out <= Delivered(G(c)) && (q.pc == Done ==> q.out == Delivered(G(c)))
  {
    hide RankInv, Groups, Delivered, DeliveredMarked;
    var k, j := OutBounds(c, r, q, acks);
    assert G(c)[..|G(c)|] == G(c);
  }

  lemma ExactState(c: Config, s: State)
    requires Inv(c, s) && Delivered(G(c)) == c.ws && (c.world == 2 || DeliveredMarked(G(c)) == Delivered(G(c)))
    ensures YieldTheWeights(c, s)
  {
    hide RankInv, LinkInv, Groups, Delivered, DeliveredMarked;
    forall r | 0 < r < c.world
      ensures s.ranks[r].out <= c.ws && (s.ranks[r].pc == Done ==> s.ranks[r].out == c.ws)
    {
      assert RankInv(c, r, s.ranks[r], Acks(c, s, r));
      ExactRank(c, r, s.ranks[r], Acks(c, s, r));
    }
  }

  lemma ExactRanks(c: Config)
    requires ValidMagic(c) && MagicSafe(c) && DistinctNames(c.ws)
    requires c.world == 2 || forall k: nat :: k < |G(c)| ==> LooksAcked(Payload(c, k))
    ensures EveryRankYieldsTheWeights(c)
  {
    hide Inv, Groups, Bytes, MagicSafe, Init, Takes, LooksAcked, Delivered, DeliveredMarked, DistinctNames, YieldTheWeights;
    DeliveryOfDistinct(c.ws, c.size);
    if c.world > 2 {
      forall k | 0 <= k < |G(c)|
        ensures AllWellFormed(G(c)[k]) && LooksAcked(Bytes(G(c)[k]))
      {
        GroupOk(c, k);
      }
      LookalikesStay(G(c));
    }
    forall run, moves, i | IsRun(c, run, moves) && 0 <= i < |run|
      ensures YieldTheWeights(c, run[i])
    {
      RunInv(c, run, moves, i);
      ExactState(c, run[i]);
    }
  }

  lemma WellShapedInit(c: Config, s: State, s': State)
    requires Takes(c, s, Move(1, YieldTensor), s')
    ensures WellShaped(c, s')
  {
    hide Window;
  }

  // Rank 1 yields tensor j of bucket k after rank 2 has acknowledged that bucket.
  lemma YieldMarked(c: Config, k: nat, j: nat, s: State) returns (s': State)
    requires var h := HoldTensor(k, j); Ready(c, h) && Good(c, h, s) && Reached(h, s)
    ensures Takes(c, s, Move(1, YieldTensor), s')
    ensures |s'.ranks| > 1 && |s'.ranks[1].out| == |Delivered(G(c)[..k])| + j + 1
    ensures s'.ranks[1].out[|Delivered(G(c)[..k])| + j] == Unpack(Metas(G(c)[k]), Marked(Payload(c, k)))[j]
  {
    hide RankInv, LinkInv, Groups, Bytes, Metas, MagicSafe, Window, Unpack, Marked, Content, Delivered, DeliveredMarked;
    InvShape(c, s);
    var q := s.ranks[1];
    assert RankInv(c, 1, q, Acks(c, s, 1));
    YieldingRank(c, 1, q, Acks(c, s, 1));
    ViewsSucceed(c, k, j);
    s' := Apply(c, s, 1, YieldTensor);
    ViewedTensor(c, k, Acks(c, s, 1), q.halves[Current(q)], j);
  }

  // In a chain of three or more ranks, any bucket that does not look acknowledged reaches the consumer of rank 1 wrong in
  // some schedule: rank 2 acknowledges it before rank 1 has yielded it.
  lemma MiddleRankMayYieldMagic(c: Config, k: nat) returns (run: seq<State>, moves: seq<Move>, t: nat)
    requires ValidMagic(c) && c.world >= 3 && MagicSafe(c) && DistinctNames(c.ws)
    requires k < |G(c)| && !LooksAcked(Payload(c, k))
    ensures IsRun(c, run, moves) && WellShaped(c, run[|moves|])
    ensures t < |run[|moves|].ranks[1].out| && t < |c.ws| && run[|moves|].ranks[1].out[t] != c.ws[t]
  {
    hide Groups, Bytes, Metas, MagicSafe, LooksAcked, Good, Takes, Start, IsPath, Unpack, Marked, DistinctNames, Enabled,
         Delivered, DeliveredMarked, Decode;
    GroupOk(c, k);
    GroupsFlatten(c.ws, c.size);
    SubgroupsDistinct(G(c));
    var j := ChangedTensor(G(c)[k]);
    var h := HoldTensor(k, j);
    StartInit(c, h);
    var run0, moves0 := Drive(c, h, Start(c));
    PathLength(c, run0, moves0);
    var s := YieldMarked(c, k, j, run0[|moves0|]);
    PathAppend(c, run0, moves0, Move(1, YieldTensor), s);
    run, moves := run0 + [s], moves0 + [Move(1, YieldTensor)];
    WellShapedInit(c, run0[|moves0|], s);
    t := |Delivered(G(c)[..k])| + j;
    DeliveredAt(G(c), k, j);
    DeliveryOfDistinct(c.ws, c.size);
  }

  // Every receiving rank yields the sender's tensors in every schedule exactly when there is only one receiving rank or the
  // acknowledgement changes no bucket.
  lemma EveryRankYieldsIff(c: Config)
    requires ValidMagic(c) && MagicSafe(c) && DistinctNames(c.ws)
    ensures EveryRankYieldsTheWeights(c) <==> c.world == 2 || forall k: nat :: k < |G(c)| ==> LooksAcked(Payload(c, k))
  {
    hide Groups, Bytes, LooksAcked, MagicSafe, DistinctNames, IsRun;
    if c.world == 2 || forall k: nat :: k < |G(c)| ==> LooksAcked(Payload(c, k)) {
      ExactRanks(c);
    } else {
      var k: nat :| k < |G(c)| && !LooksAcked(Payload(c, k));
      var run, moves, t := MiddleRankMayYieldMagic(c, k);
      WrongYield(c, run, moves, t);
    }
  }

  lemma WrongYield(c: Config, run: seq<State>, moves: seq<Move>, t: nat)
    requires IsRun(c, run, moves) && |run[|moves|].ranks| == c.world >= 2
    requires t < |run[|moves|].ranks[1].out| && t < |c.ws| && run[|moves|].ranks[1].out[t] != c.ws[t]
    ensures !EveryRankYieldsTheWeights(c)
  {
    hide Init, Takes;
    assert !YieldTheWeights(c, run[|moves|]);
  }

  // ---- What the sender's return means ----

  // The sender has returned only after rank 1 finished every bucket.
  ghost predicate ReturnedAcked(c: Config, s: State) {
    |s.ranks| == c.world >= 2 && (s.ranks[0].pc == Done ==> s.ranks[1].idx == |G(c)|)
  }

  ghost predicate SenderWaitsForAll(c: Config) {
    forall run, moves, i :: IsRun(c, run, moves) && 0 <= i < |run| ==> ReturnedAcked(c, run[i])
  }

  lemma WaitsIfUnlike(c: Config)
    requires ValidMagic(c) && MagicSafe(c) && !LooksAcked(Payload(c, |G(c)| - 1))
    ensures SenderWaitsForAll(c)
  {
    hide Groups, Bytes, LooksAcked, MagicSafe, Init, Takes;
    forall run, moves, i | IsRun(c, run, moves) && 0 <= i < |run|
      ensures ReturnedAcked(c, run[i])
    {
      SenderReturnsAcked(c, run, moves, i);
    }
  }

  // With the last bucket unread the sender's final wait ends at once.
  lemma ReturnsEarly(c: Config, k: nat, s: State) returns (s': State)
    requires var h := HoldLast(k); Ready(c, h) && Good(c, h, s) && Reached(h, s)
    ensures Takes(c, s, Move(0, SeeMagic), s')
    ensures |s'.ranks| == c.world && s'.ranks[0].pc == Done && s'.ranks[1].idx < |G(c)|
  {
    hide RankInv, LinkInv, Groups, Bytes, Metas, MagicSafe, StaleMagic, LooksAcked;
    InvShape(c, s);
    var q := s.ranks[0];
    assert RankInv(c, 0, q, Acks(c, s, 0));
    assert LinkInv(c, q.sent, s.ranks[1], s.chan[0]);
    LinkRange(c, q.sent, s.ranks[1], s.chan[0]);
    LastSeen(c, k, q, Acks(c, s, 0));
    s' := Apply(c, s, 0, SeeMagic);
  }

  lemma LastSeen(c: Config, k: nat, q: Rank, acks: nat)
    requires Ready(c, HoldLast(k)) && RankInv(c, 0, q, acks) && StaleMagic(c, q) && q.pc == AwaitLast && acks <= k
    ensures RankShape(c, q) && SeesMagic(c, q)
  {
    hide Groups, Bytes, Metas, ByteCount, Pack, Overflows, Marked, LooksAcked, Tail, MagicSafe;
    LookalikeIsSeen(Payload(c, k), q.halves[k % 2]);
  }

  lemma SenderMayReturnEarly(c: Config) returns (run: seq<State>, moves: seq<Move>)
    requires ValidMagic(c) && MagicSafe(c) && LooksAcked(Payload(c, |G(c)| - 1))
    ensures IsRun(c, run, moves) && |run[|moves|].ranks| == c.world
    ensures run[|moves|].ranks[0].pc == Done && run[|moves|].ranks[1].idx < |G(c)|
  {
    hide Groups, Bytes, LooksAcked, MagicSafe, Good, Takes, Start, IsPath;
    GroupsNotEmpty(c);
    var h := HoldLast(|G(c)| - 1);
    StartInit(c, h);
    var run0, moves0 := Drive(c, h, Start(c));
    PathLength(c, run0, moves0);
    var s := ReturnsEarly(c, |G(c)| - 1, run0[|moves0|]);
    PathAppend(c, run0, moves0, Move(0, SeeMagic), s);
    run, moves := run0 + [s], moves0 + [Move(0, SeeMagic)];
  }

  // The sender's return means, in every schedule, that rank 1 has finished every bucket, exactly when the last bucket
  // cannot be mistaken for an acknowledgement.
  lemma SenderWaitsIff(c: Config)
    requires ValidMagic(c) && MagicSafe(c)
    ensures SenderWaitsForAll(c) <==> !LooksAcked(Payload(c, |G(c)| - 1))
  {
    hide Groups, Bytes, LooksAcked, MagicSafe, IsRun;
    GroupsNotEmpty(c);
    if LooksAcked(Payload(c, |G(c)| - 1)) {
      var run, moves := SenderMayReturnEarly(c);
      RunLength(c, run, moves);
      assert !ReturnedAcked(c, run[|moves|]);
    } else {
      WaitsIfUnlike(c);
    }
  }

  lemma RunLength(c: Config, run: seq<State>, moves: seq<Move>)
    requires IsRun(c, run, moves)
    ensures |run| == |moves| + 1
  {
  }

  // ---- Returning early ----

  // A rank with a successor does not wait for its last acknowledgements: in a chain of three or more ranks some schedule
  // lets rank 1 return while rank 2 may still read the last bucket from it.
  lemma ReturnedRankMayStillBeRead(c: Config) returns (run: seq<State>, moves: seq<Move>)
    requires ValidMagic(c) && c.world >= 3 && MagicSafe(c)
    ensures IsRun(c, run, moves) && WellShaped(c, run[|moves|])
    ensures run[|moves|].ranks[1].pc == Done && MayBeRead(c, run[|moves|], 1, (|G(c)| - 1) % 2)
  {
    hide Groups, Bytes, Metas, MagicSafe, Good, Takes, Start, IsPath, Enabled, MayBeRead, WellShaped;
    GroupsNotEmpty(c);
    var h := HoldSecond(|G(c)| - 1);
    StartInit(c, h);
    run, moves := Drive(c, h, Start(c));
    PathLength(c, run, moves);
    UnreadAtReturn(c, |G(c)| - 1, run[|moves|]);
  }

  lemma UnreadAtReturn(c: Config, k: nat, s: State)
    requires Ready(c, HoldSecond(k)) && Good(c, HoldSecond(k), s) && Reached(HoldSecond(k), s)
    ensures WellShaped(c, s) && s.ranks[1].pc == Done && MayBeRead(c, s, 1, k % 2)
  {
    hide RankInv, LinkInv, Groups, Bytes, Metas, MagicSafe;
    InvShape(c, s);
    assert RankInv(c, 1, s.ranks[1], Acks(c, s, 1));
    ReceiverCounts(c, 1, s.ranks[1], Acks(c, s, 1));
    assert LinkInv(c, s.ranks[1].sent, s.ranks[2], s.chan[1]);
    LastUnread(c, k, s.ranks[2], s.chan[1]);
  }

  lemma LastUnread(c: Config, k: nat, q: Rank, ch: seq<Info>)
    requires LinkInv(c, k + 1, q, ch) && q.got <= k
    ensures exists i :: 0 <= i < |ch| && ch[i].half == k % 2
  {
    hide Groups, Metas, Bytes;
    assert ch[k - q.got] == InfoOf(c, k);
  }
}
