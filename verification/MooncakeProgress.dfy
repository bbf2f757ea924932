/** Progress of the Mooncake relay: whatever the weights, no rank waits for ever, and every schedule ends. */
module MooncakeProgress {
  import opened Weights
  import opened BucketPacking
  import opened Transfer
  import opened MooncakeRelay
  import opened MooncakeRuns
  import opened MooncakeControl
  import opened Arithmetic
  import opened Totals

  // ---- No deadlock ----

  ghost predicate RankStuck(c: Config, s: State, r: nat)
    requires WellShaped(c, s) && r < c.world
  {
    forall e: Event :: !Enabled(c, s, r, e)
  }

  // Returned, or waiting for an info that has not been sent.
  ghost predicate Blocked(c: Config, s: State, r: nat)
    requires WellShaped(c, s) && 0 < r < c.world
  {
    s.ranks[r].pc == Done || (s.ranks[r].pc == Receive && s.chan[r - 1] == [])
  }

  lemma Unstuck(c: Config, s: State, r: nat, e: Event)
    requires WellShaped(c, s) && r < c.world && Enabled(c, s, r, e)
    ensures !RankStuck(c, s, r)
  {
  }

  // A wait is over once its bucket has been acknowledged.
  lemma AckedIsSeen(c: Config, r: nat, q: Rank, acks: nat)
    requires RankControl(c, r, q, acks)
    requires (q.pc == AwaitReuse && acks + 1 >= q.sent) || (q.pc == AwaitLast && acks == q.sent)
    ensures RankShape(c, q) && SeesMagic(c, q)
  {
    hide Groups, Metas, Bytes, OutCount, Refilling;
    GroupsNotEmpty(c);
  }

  lemma ControlCounts(c: Config, r: nat, q: Rank, acks: nat)
    requires RankControl(c, r, q, acks) && r > 0
    ensures q.pc !in {Filling, AwaitLast} && q.idx <= q.sent <= q.got <= |G(c)|
    ensures q.pc == Receive ==> q.got == q.idx < |G(c)|
    ensures q.pc == Done ==> q.idx == q.sent == |G(c)|
  {
    hide Groups, Metas, Bytes, OutCount, AcksVisible;
  }

  lemma {:induction false} RunControl(c: Config, run: seq<State>, moves: seq<Move>, i: nat)
    requires IsRun(c, run, moves) && i < |run|
    ensures Controlled(c, run[i]) && WellShaped(c, run[i])
  {
    hide Controlled, Enabled, Apply, Init, WellShaped;
    if i == 0 {
      InitInv(c, run[0]);
      InvIsControlled(c, run[0]);
    } else {
      RunControl(c, run, moves, i - 1);
      assert Takes(c, run[i - 1], moves[i - 1], run[i]);
      StepControl(c, run[i - 1], moves[i - 1].rank, moves[i - 1].event);
    }
    ControlledShape(c, run[i]);
  }

  lemma StuckReceiver(c: Config, s: State, r: nat)
    requires ValidMagic(c) && Controlled(c, s) && WellShaped(c, s) && 0 < r < c.world && RankStuck(c, s, r)
    ensures Blocked(c, s, r) || s.ranks[r].pc == AwaitReuse
  {
    hide LinkInv, Groups, Metas, Bytes, OutCount, AcksVisible;
    var q := s.ranks[r];
    assert RankControl(c, r, q, Acks(c, s, r));
    assert !Enabled(c, s, r, ReceiveInfo) && !Enabled(c, s, r, EndRead) && !Enabled(c, s, r, YieldTensor)
           && !Enabled(c, s, r, EndYield) && !Enabled(c, s, r, WriteMagic);
    if q.pc == Yielding && q.j < |q.info.metas| {
      ViewsSucceed(c, q.idx, q.j);
    }
    if q.pc == Reading {
      GroupOk(c, q.idx);
      var i :| i in q.left;
      assert !Enabled(c, s, r, CopyByte(i));
    }
  }

  // A stuck tail of the chain is waiting for its head.
  lemma {:induction false} StuckTail(c: Config, s: State, r: nat)
    requires ValidMagic(c) && Controlled(c, s) && WellShaped(c, s) && 0 < r < c.world
    requires forall x :: r <= x < c.world ==> RankStuck(c, s, x)
    ensures Blocked(c, s, r)
    decreases c.world - r
  {
    hide RankControl, LinkInv, Enabled, RankStuck, Groups, Metas, Bytes, WellShaped;
    var q := s.ranks[r];
    assert RankControl(c, r, q, Acks(c, s, r));
    StuckReceiver(c, s, r);
    if q.pc == AwaitReuse {
      HasReader(c, r, q, Acks(c, s, r));
      StuckTail(c, s, r + 1);
      BlockedHasAcked(c, s, r);
      AckedIsSeen(c, r, q, Acks(c, s, r));
      MagicEnables(c, s, r);
    }
  }

  lemma MagicEnables(c: Config, s: State, r: nat)
    requires WellShaped(c, s) && r < c.world && s.ranks[r].pc in {AwaitReuse, AwaitLast} && SeesMagic(c, s.ranks[r])
    ensures !RankStuck(c, s, r)
  {
    Unstuck(c, s, r, SeeMagic);
  }

  lemma HasReader(c: Config, r: nat, q: Rank, acks: nat)
    requires RankControl(c, r, q, acks) && r > 0 && q.pc == AwaitReuse
    ensures HasNext(c, r)
  {
    hide Groups, Metas, Bytes, OutCount, AcksVisible;
  }

  // A blocked successor has acknowledged everything sent to it.
  lemma BlockedHasAcked(c: Config, s: State, r: nat)
    requires Controlled(c, s) && WellShaped(c, s) && r + 1 < c.world && Blocked(c, s, r + 1)
    ensures s.ranks[r + 1].idx == s.ranks[r].sent
    ensures s.ranks[r + 1].pc == Done ==> s.ranks[r].sent == |G(c)|
    ensures s.ranks[r + 1].pc == Receive ==> s.ranks[r].sent < |G(c)|
  {
    hide RankControl, Groups, Metas, Bytes;
    assert RankControl(c, r + 1, s.ranks[r + 1], Acks(c, s, r + 1));
    ControlCounts(c, r + 1, s.ranks[r + 1], Acks(c, s, r + 1));
    assert LinkInv(c, s.ranks[r].sent, s.ranks[r + 1], s.chan[r]);
  }

  // A weight that closed the bucket before fits into an empty one.
  lemma FlushedFits(c: Config, f: Fill, sent: nat)
    requires ValidMagic(c) && Refilling(c, f, sent)
    ensures f.next <= |c.ws| && (f.flushed && f.next < |c.ws| ==> !Full(c, f))
  {
    hide Pack, Metas, Bytes, ByteCount, Groups;
  }

  lemma FillingMoves(c: Config, s: State)
    requires ValidMagic(c) && Controlled(c, s) && WellShaped(c, s) && s.ranks[0].pc == Filling
    ensures !RankStuck(c, s, 0)
  {
    hide LinkInv, Groups, Refilling, AcksVisible, RankStuck;
    var q := s.ranks[0];
    assert RankControl(c, 0, q, Acks(c, s, 0));
    FlushedFits(c, q.fill, q.sent);
    if q.fill.next == |c.ws| {
      Unstuck(c, s, 0, SendLast);
    } else if !Full(c, q.fill) {
      Unstuck(c, s, 0, PackWeight);
    } else {
      Unstuck(c, s, 0, SendFull);
    }
  }

  lemma SenderPcs(c: Config, q: Rank, acks: nat)
    requires RankControl(c, 0, q, acks)
    ensures q.pc in {Filling, AwaitReuse, AwaitLast, Done}
    ensures q.pc in {AwaitLast, Done} ==> q.sent == |G(c)|
    ensures q.pc in {Filling, AwaitReuse} ==> q.sent < |G(c)|
  {
    hide Groups, Metas, Bytes, ByteCount, AcksVisible, Pack, Overflows;
  }

  lemma StuckSender(c: Config, s: State)
    requires ValidMagic(c) && Controlled(c, s) && WellShaped(c, s) && RankStuck(c, s, 0) && Blocked(c, s, 1)
    ensures s.ranks[0].pc == Done
  {
    hide RankControl, LinkInv, Enabled, RankStuck, Groups, Metas, Bytes, WellShaped;
    var q := s.ranks[0];
    assert RankControl(c, 0, q, Acks(c, s, 0));
    SenderPcs(c, q, Acks(c, s, 0));
    BlockedHasAcked(c, s, 0);
    if q.pc == Filling {
      FillingMoves(c, s);
    } else if q.pc != Done {
      AckedIsSeen(c, 0, q, Acks(c, s, 0));
      MagicEnables(c, s, 0);
    }
  }

  ghost predicate Stuck(c: Config, s: State)
    requires WellShaped(c, s)
  {
    forall r :: 0 <= r < c.world ==> RankStuck(c, s, r)
  }

  lemma {:induction false} AllDone(c: Config, s: State, r: nat)
    requires ValidMagic(c) && Controlled(c, s) && WellShaped(c, s) && r < c.world && Stuck(c, s)
    ensures s.ranks[r].pc == Done && s.ranks[r].sent == |G(c)|
  {
    hide RankControl, LinkInv, Enabled, RankStuck, Groups, Metas, Bytes, WellShaped;
    assert RankControl(c, r, s.ranks[r], Acks(c, s, r));
    if r == 0 {
      StuckTail(c, s, 1);
      StuckSender(c, s);
      SenderPcs(c, s.ranks[0], Acks(c, s, 0));
    } else {
      StuckTail(c, s, r);
      AllDone(c, s, r - 1);
      BlockedHasAcked(c, s, r - 1);
      ControlCounts(c, r, s.ranks[r], Acks(c, s, r));
    }
  }

  lemma NoDeadlock(c: Config, run: seq<State>, moves: seq<Move>, i: nat)
    requires IsRun(c, run, moves) && i < |run|
    ensures WellShaped(c, run[i])
    ensures Stuck(c, run[i]) ==> forall r :: 0 <= r < c.world ==> run[i].ranks[r].pc == Done
  {
    hide Controlled, Stuck, Init, Apply, Enabled;
    RunControl(c, run, moves, i);
    if Stuck(c, run[i]) {
      forall r | 0 <= r < c.world
        ensures run[i].ranks[r].pc == Done
      {
        AllDone(c, run[i], r);
      }
    }
  }

  // A READ copies as many bytes as the bucket has, and no others of the half.
  lemma CopiesWithinBucket(c: Config, run: seq<State>, moves: seq<Move>, i: nat, r: nat, b: nat)
    requires IsRun(c, run, moves) && i < |run| && r < c.world
    ensures WellShaped(c, run[i])
    ensures Enabled(c, run[i], r, CopyByte(b)) ==>
              run[i].ranks[r].idx < |G(c)| && b < |Payload(c, run[i].ranks[r].idx)|
  {
    hide Groups, Metas, Bytes, OutCount, AcksVisible, LinksOk, Init, Apply;
    RunControl(c, run, moves, i);
    assert RankControl(c, r, run[i].ranks[r], Acks(c, run[i], r));
  }

  // ---- Termination ----

  function Stage(pc: Pc): nat {
    match pc
    case Receive => 7
    case AwaitReuse => 6
    case Reading => 5
    case Yielding => 4
    case Acking => 3
    case AwaitLast => 1
    case _ => 0
  }

  ghost function SenderMeasure(c: Config, q: Rank): int {
    if q.pc == Filling then 4 * (|c.ws| - q.fill.next) + (if q.fill.flushed then 3 else 5)
    else if q.pc == AwaitReuse then 4 * (|c.ws| - q.fill.next) + 4
    else Stage(q.pc)
  }

  function Pending(q: Rank): nat {
    if q.pc == AwaitReuse then q.info.len else if q.pc == Reading then |q.left| else 0
  }

  ghost function ReceiverMeasure(c: Config, q: Rank): int {
    8 * (|G(c)| - q.idx) + Stage(q.pc) + (|Delivered(G(c))| - |q.out|) + (|G(c)| - q.got) * (c.size + 2) + Pending(q)
  }

  ghost function RankMeasure(c: Config, r: nat, q: Rank): int {
    if r == 0 then SenderMeasure(c, q) else ReceiverMeasure(c, q)
  }

  ghost function Measures(c: Config, s: State): seq<int> {
    seq(|s.ranks|, r requires 0 <= r < |s.ranks| => RankMeasure(c, r, s.ranks[r]))
  }

  ghost function Measure(c: Config, s: State): int {
    Total(Measures(c, s))
  }

  lemma MeasureNonNegative(c: Config, s: State)
    requires Controlled(c, s)
    ensures Measure(c, s) >= 0
  {
    hide RankControl, RankMeasure, Total, LinkInv;
    forall r | 0 <= r < c.world
      ensures RankMeasure(c, r, s.ranks[r]) >= 0
    {
      assert RankControl(c, r, s.ranks[r], Acks(c, s, r));
      RankMeasureNonNegative(c, r, s.ranks[r], Acks(c, s, r));
    }
    TotalNonNegative(Measures(c, s));
  }

  lemma RankMeasureNonNegative(c: Config, r: nat, q: Rank, acks: nat)
    requires RankControl(c, r, q, acks)
    ensures RankMeasure(c, r, q) >= 0
  {
    hide Groups, Metas, Bytes, ByteCount, Delivered, AcksVisible, Midway;
    if r > 0 {
      ControlCounts(c, r, q, acks);
      Monotone(0, |G(c)| - q.got, c.size + 2);
    } else {
      SenderFill(c, q, acks);
    }
  }

  lemma SenderFill(c: Config, q: Rank, acks: nat)
    requires RankControl(c, 0, q, acks)
    ensures q.pc in {Filling, AwaitReuse} ==> q.fill.next <= |c.ws|
  {
  }

  lemma SenderStep(c: Config, s: State, e: Event)
    requires WellShaped(c, s) && Enabled(c, s, 0, e)
    requires s.ranks[0].pc in {Filling, AwaitReuse, AwaitLast} && (s.ranks[0].pc == AwaitReuse ==> s.ranks[0].fill.flushed)
    ensures SenderMeasure(c, Moved(c, s, 0, e)) < SenderMeasure(c, s.ranks[0])
  {
    hide DictSet, Splice, Window, Upto;
  }

  lemma ReceiverStep(c: Config, s: State, r: nat, e: Event)
    requires WellShaped(c, s) && 0 < r < c.world && Enabled(c, s, r, e)
    requires s.ranks[r].pc !in {Filling, AwaitLast} && e != ReceiveInfo
    ensures ReceiverMeasure(c, Moved(c, s, r, e)) < ReceiverMeasure(c, s.ranks[r])
  {
    hide DictSet, Splice, Window, Groups, Delivered;
  }

  lemma ReceiveStep(c: Config, s: State, r: nat)
    requires WellShaped(c, s) && 0 < r < c.world && Enabled(c, s, r, ReceiveInfo)
    requires s.chan[r - 1][0].len <= c.size
    ensures ReceiverMeasure(c, Moved(c, s, r, ReceiveInfo)) < ReceiverMeasure(c, s.ranks[r])
  {
    hide DictSet, Splice, Window, Groups, Delivered;
    NextProduct(|G(c)| - s.ranks[r].got - 1, c.size + 2);
  }

  lemma SenderReady(c: Config, q: Rank, acks: nat)
    requires RankControl(c, 0, q, acks)
    ensures q.pc in {Filling, AwaitReuse, AwaitLast, Done} && (q.pc == AwaitReuse ==> q.fill.flushed)
  {
    hide Groups, Metas, Bytes, ByteCount, AcksVisible, Pack, Overflows;
  }

  lemma HeadLength(c: Config, s: State, r: nat)
    requires ValidMagic(c) && Controlled(c, s) && 0 < r < c.world && s.chan[r - 1] != []
    ensures s.chan[r - 1][0].len <= c.size
  {
    hide RankControl, Groups, Metas, Bytes;
    assert LinkInv(c, s.ranks[r - 1].sent, s.ranks[r], s.chan[r - 1]);
    GroupOk(c, s.ranks[r].got);
  }

  lemma MoverMeasure(c: Config, s: State, r: nat, e: Event)
    requires ValidMagic(c) && Controlled(c, s) && WellShaped(c, s) && r < c.world && Enabled(c, s, r, e)
    ensures RankMeasure(c, r, Moved(c, s, r, e)) < RankMeasure(c, r, s.ranks[r])
  {
    hide RankControl, LinkInv, Moved, SenderMeasure, ReceiverMeasure;
    assert RankControl(c, r, s.ranks[r], Acks(c, s, r));
    if r == 0 {
      SenderReady(c, s.ranks[0], Acks(c, s, 0));
      SenderStep(c, s, e);
    } else {
      ControlCounts(c, r, s.ranks[r], Acks(c, s, r));
      if e == ReceiveInfo {
        HeadLength(c, s, r);
        ReceiveStep(c, s, r);
      } else {
        ReceiverStep(c, s, r, e);
      }
    }
  }

  // Being acknowledged does not change the owner's measure.
  lemma MarkedMeasure(c: Config, r: nat, p: Rank, half: nat)
    requires |p.halves| == 2 && half < 2 && |p.halves[half]| >= 4
    ensures RankMeasure(c, r, WithMagic(p, half)) == RankMeasure(c, r, p)
  {
    hide Splice, Groups, Delivered;
  }

  lemma StepDecreases(c: Config, s: State, r: nat, e: Event)
    requires ValidMagic(c) && Controlled(c, s) && WellShaped(c, s) && r < c.world && Enabled(c, s, r, e)
    ensures Measure(c, Apply(c, s, r, e)) < Measure(c, s)
  {
    hide Controlled, Moved, RankMeasure, WithMagic, Total;
    var s' := Apply(c, s, r, e);
    MoverMeasure(c, s, r, e);
    if e == WriteMagic {
      MarkedMeasure(c, r - 1, s.ranks[r - 1], s.ranks[r].info.half);
    }
    TotalDrops(Measures(c, s), Measures(c, s'), r);
  }

  lemma {:induction false} RunsAreBounded(c: Config, run: seq<State>, moves: seq<Move>, i: nat)
    requires IsRun(c, run, moves) && i < |run|
    ensures 0 <= Measure(c, run[i]) <= Measure(c, run[0]) - i
  {
    hide Controlled, Enabled, Apply, Init, Measure, WellShaped;
    RunControl(c, run, moves, i);
    MeasureNonNegative(c, run[i]);
    if i > 0 {
      RunsAreBounded(c, run, moves, i - 1);
      RunControl(c, run, moves, i - 1);
      assert Takes(c, run[i - 1], moves[i - 1], run[i]);
      StepDecreases(c, run[i - 1], moves[i - 1].rank, moves[i - 1].event);
    }
  }

  // A run that cannot be extended has all ranks returned, and for magic-safe weights it has delivered everything to the last
  // rank.
  lemma CompleteRunsDeliver(c: Config, run: seq<State>, moves: seq<Move>)
    requires IsRun(c, run, moves)
    ensures WellShaped(c, run[|moves|])
    ensures Stuck(c, run[|moves|]) ==>
              && (forall r :: 0 <= r < c.world ==> run[|moves|].ranks[r].pc == Done)
              && (MagicSafe(c) ==>
                    && run[|moves|].ranks[c.world - 1].out == Delivered(Groups(c.ws, c.size))
                    && (DistinctNames(c.ws) ==> run[|moves|].ranks[c.world - 1].out == c.ws))
  {
    hide Controlled, Enabled, Apply, Init, Stuck, DistinctNames, MagicSafe;
    NoDeadlock(c, run, moves, |moves|);
    if MagicSafe(c) {
      LastRankDelivers(c, run, moves, |moves|);
    }
  }
}
