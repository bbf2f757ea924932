/** The relay never gets stuck and every schedule ends: some step is always possible until all ranks have returned or a
    loop has raised, and every step of every rank lowers one natural-number measure. */
module NixlProgress {
  import opened Weights
  import opened BucketPacking
  import opened Transfer
  import opened NixlRelay
  import opened Arithmetic
  import opened Totals
  import opened Options

  // ---- No deadlock ----

  ghost predicate Stuck(c: Config, s: State)
    requires WellShaped(c, s)
  {
    forall r: nat, e: Event :: r < c.world ==> !Enabled(c, s, r, e)
  }

  ghost predicate WaitsForAck(c: Config, s: State, r: nat)
    requires WellShaped(c, s) && r < c.world
  {
    AtAck(c, s.ranks[r]) && s.ranks[r].op.Some? && s.inbox[r] == []
  }

  ghost predicate WaitsForMessage(c: Config, s: State, r: nat)
    requires WellShaped(c, s) && r < c.world
  {
    r > 0 && s.ranks[r].pc in {FirstMeta, NextMeta} && s.chan[r - 1] == []
  }

  ghost predicate NoneRaised(s: State) {
    forall r :: 0 <= r < |s.ranks| ==> !Raised(s.ranks[r])
  }

  lemma Unstuck(c: Config, s: State, r: nat, e: Event)
    requires WellShaped(c, s) && r < c.world && Enabled(c, s, r, e)
    ensures !Stuck(c, s)
  {
  }

  lemma NoReadWhenStuck(c: Config, s: State, r: nat)
    requires Inv(c, s) && r < c.world && Stuck(c, s)
    ensures s.ranks[r].read.None?
  {
    hide RankInv, LinkInv, Enabled, Stuck;
    var q := s.ranks[r];
    if q.read.Some? {
      ReadingRank(c, r, q);
      ReadRange(c, r, q);
      if q.read.value.left == {} {
        FinishEnabled(c, s, r);
        Unstuck(c, s, r, FinishRead);
      } else {
        var i :| i in q.read.value.left;
        CopyEnabled(c, s, r, i);
        Unstuck(c, s, r, CopyByte(i));
      }
    }
  }

  lemma ReadRange(c: Config, r: nat, q: Rank)
    requires RankInv(c, r, q) && q.read.Some?
    ensures forall i :: i in q.read.value.left ==> i < c.size
  {
    hide PcInv, OpInv, Bytes, Groups, Metas;
  }

  lemma FinishEnabled(c: Config, s: State, r: nat)
    requires WellShaped(c, s) && r < c.world && r > 0 && s.ranks[r].read.Some? && s.ranks[r].read.value.left == {}
    ensures Enabled(c, s, r, FinishRead)
  {
  }

  lemma CopyEnabled(c: Config, s: State, r: nat, i: nat)
    requires WellShaped(c, s) && r < c.world && s.ranks[r].read.Some?
    requires var d := s.ranks[r].read.value; i in d.left && i < c.size && d.dst < 2 && d.src.rank < c.world && d.src.buf < 2
    ensures Enabled(c, s, r, CopyByte(i))
  {
  }

  // What a rank of a stuck state can be doing.
  lemma StuckRank(c: Config, s: State, r: nat)
    requires ValidConfig(c) && Inv(c, s) && r < c.world && Stuck(c, s)
    requires NoneRaised(s)
    ensures s.ranks[r].pc == Done || WaitsForAck(c, s, r) || WaitsForMessage(c, s, r)
  {
    hide RankInv, LinkInv, Enabled, Groups, Metas;
    var q := s.ranks[r];
    NoReadWhenStuck(c, s, r);
    if r == 0 {
      StuckSender(c, s);
    } else {
      if s.chan[r - 1] != [] {
        assert LinkInv(c, r - 1, s.ranks[r - 1], q, s.chan[r - 1], s.inbox[r - 1]);
        HeadOfLink(c, r - 1, s.ranks[r - 1], q, s.chan[r - 1], s.inbox[r - 1]);
      }
      StuckReceiver(c, s, r);
    }
  }

  lemma HeadOfLink(c: Config, r: nat, p: Rank, q: Rank, ch: seq<Message>, inb: seq<Notif>)
    requires LinkInv(c, r, p, q, ch, inb) && ch != []
    ensures ch[0].remoteDescs.Some? && ch[0].notifyKey.Some?
  {
    hide Groups, Metas;
  }

  lemma StuckSender(c: Config, s: State)
    requires ValidConfig(c) && Inv(c, s) && Stuck(c, s)
    ensures s.ranks[0].pc == Done || WaitsForAck(c, s, 0)
  {
    hide Bytes, Metas, ByteCount, Delivered, Decode, Groups, Pack, LinkInv;
    var q := s.ranks[0];
    assert RankInv(c, 0, q);
    assert !Enabled(c, s, 0, PackWeight) && !Enabled(c, s, 0, SendFull) && !Enabled(c, s, 0, SendLast)
           && !Enabled(c, s, 0, TakeAck);
  }

  lemma StuckReceiver(c: Config, s: State, r: nat)
    requires ValidConfig(c) && Inv(c, s) && 0 < r < c.world && Stuck(c, s) && s.ranks[r].read.None?
    requires s.chan[r - 1] != [] ==> s.chan[r - 1][0].remoteDescs.Some? && s.chan[r - 1][0].notifyKey.Some?
    requires NoneRaised(s)
    ensures s.ranks[r].pc == Done || WaitsForAck(c, s, r) || WaitsForMessage(c, s, r)
  {
    hide Bytes, Metas, ByteCount, Delivered, Groups, Pack, LinkInv, Unpack;
    var q := s.ranks[r];
    assert RankInv(c, r, q);
    assert !Enabled(c, s, r, TakeAck) && !Enabled(c, s, r, SkipAck) && !Enabled(c, s, r, BeginRead);
    assert !Enabled(c, s, r, AcceptRead) && !Enabled(c, s, r, SendOn);
    assert !Enabled(c, s, r, YieldTensor) && !Enabled(c, s, r, EndYield);
    if q.pc in {Yielding, LastYield} {
      HeldBucket(c, r, q);
      DecodeLength(G(c)[q.held - 1]);
    }
  }

  lemma DecodeLength(g: seq<Weight>)
    ensures |Decode(g)| == |Metas(g)|
  {
  }

  // A rank waiting for an acknowledgement waits for its successor, which must be waiting the same way: up to the last.
  lemma {:induction false} NoAckCycle(c: Config, s: State, r: nat)
    requires ValidConfig(c) && Inv(c, s) && r < c.world && Stuck(c, s)
    requires NoneRaised(s)
    ensures !WaitsForAck(c, s, r)
    decreases c.world - r
  {
    hide RankInv, Enabled, Stuck, Groups, Metas;
    if WaitsForAck(c, s, r) {
      var p := s.ranks[r];
      OpMeansNext(c, r, p);
      RankOp(c, r, p);
      var q := s.ranks[r + 1];
      assert LinkInv(c, r, p, q, s.chan[r], s.inbox[r]);
      NoReadWhenStuck(c, s, r + 1);
      RankReads(c, r + 1, q);
      StuckRank(c, s, r + 1);
      if q.pc == Done {
        DoneRank(c, r + 1, q);
      }
      NoAckCycle(c, s, r + 1);
    }
  }

  // A rank waiting for an announcement waits for its predecessor, which must be waiting the same way: down to rank 0.
  lemma {:induction false} NoMessageCycle(c: Config, s: State, r: nat)
    requires ValidConfig(c) && Inv(c, s) && r < c.world && Stuck(c, s)
    requires NoneRaised(s)
    ensures !WaitsForMessage(c, s, r)
  {
    hide RankInv, Enabled, Stuck, Groups, Metas;
    if WaitsForMessage(c, s, r) {
      var p, q := s.ranks[r - 1], s.ranks[r];
      assert LinkInv(c, r - 1, p, q, s.chan[r - 1], s.inbox[r - 1]);
      StuckRank(c, s, r - 1);
      NoAckCycle(c, s, r - 1);
      WaitingCount(c, r, q);
      if p.pc == Done {
        DoneRank(c, r - 1, p);
      }
      NoMessageCycle(c, s, r - 1);
    }
  }

  lemma WaitingCount(c: Config, r: nat, q: Rank)
    requires RankInv(c, r, q) && q.pc in {FirstMeta, NextMeta}
    ensures q.got < |G(c)|
  {
    hide Bytes, Metas, ByteCount, Delivered, Decode, Midway, BufInv, OpInv;
  }

  // In every reachable state all ranks have returned, or some rank or READ can move, or some loop has raised.
  lemma NoDeadlock(c: Config, run: seq<State>, moves: seq<Move>, i: nat)
    requires IsRun(c, run, moves) && i < |run|
    ensures WellShaped(c, run[i])
    ensures Stuck(c, run[i]) && NoneRaised(run[i]) ==> forall r :: 0 <= r < c.world ==> run[i].ranks[r].pc == Done
    ensures AllViewable(Groups(c.ws, c.size), 0) ==> NoneRaised(run[i])
  {
    hide RankInv, LinkInv, Enabled, Stuck, Raised, AllViewable;
    RunInv(c, run, moves, i);
    forall r | 0 <= r < c.world
      ensures Raised(run[i].ranks[r]) ==> !AllViewable(Groups(c.ws, c.size), 0)
    {
      RaisedRank(c, r, run[i].ranks[r]);
    }
    if Stuck(c, run[i]) && NoneRaised(run[i]) {
      forall r | 0 <= r < c.world
        ensures run[i].ranks[r].pc == Done
      {
        StuckRank(c, run[i], r);
        NoAckCycle(c, run[i], r);
        NoMessageCycle(c, run[i], r);
      }
    }
  }

  // ---- Termination ----

  function Stage(pc: Pc): nat {
    match pc
    case Forward => 7
    case NextMeta => 6
    case Yielding => 5
    case LastYield => 5
    case FirstMeta => 4
    case AckNext => 4
    case AckFinal => 4
    case FirstRead => 3
    case NextRead => 3
    case AckLast => 1
    case _ => 0
  }

  ghost function SenderMeasure(c: Config, q: Rank): int {
    if q.pc == Filling
    then 3 + 4 * (|c.ws| - q.fill.next) + (if q.fill.flushed then 0 else if q.op.Some? then 3 else 2)
    else Stage(q.pc)
  }

  ghost function ReadMeasure(c: Config, q: Rank): int {
    (|G(c)| - q.got) * (c.size + 2) + (if q.read.Some? then |q.read.value.left| + 1 else 0)
  }

  ghost function ReceiverMeasure(c: Config, q: Rank): int {
    8 * (|G(c)| - q.held) + Stage(q.pc) + (|Delivered(G(c))| - |q.out|) + ReadMeasure(c, q)
  }

  ghost function RankMeasure(c: Config, r: nat, q: Rank): int {
    if r == 0 then SenderMeasure(c, q) else ReceiverMeasure(c, q)
  }

  ghost function Measures(c: Config, ranks: seq<Rank>): seq<int> {
    seq(|ranks|, r requires 0 <= r < |ranks| => RankMeasure(c, r, ranks[r]))
  }

  ghost function TotalMeasure(c: Config, ranks: seq<Rank>): int {
    Total(Measures(c, ranks))
  }

  lemma TotalMeasureNonNegative(c: Config, ranks: seq<Rank>)
    requires forall r :: 0 <= r < |ranks| ==> RankInv(c, r, ranks[r])
    ensures TotalMeasure(c, ranks) >= 0
  {
    hide RankInv, RankMeasure, Total;
    forall r | 0 <= r < |ranks|
      ensures RankMeasure(c, r, ranks[r]) >= 0
    {
      MeasureNonNegative(c, r, ranks[r]);
    }
    TotalNonNegative(Measures(c, ranks));
  }

  lemma MeasureNonNegative(c: Config, r: nat, q: Rank)
    requires RankInv(c, r, q)
    ensures RankMeasure(c, r, q) >= 0
  {
    hide Bytes, Metas, ByteCount, Delivered, Decode, Groups, Midway, PcInv;
    if r > 0 {
      OutIsPrefix(c, r, q);
      HeldRange(c, r, q);
      Monotone(0, |G(c)| - q.got, c.size + 2);
    }
  }

  lemma HeldRange(c: Config, r: nat, q: Rank)
    requires RankInv(c, r, q) && r > 0
    ensures q.held <= q.got <= |G(c)|
  {
    hide Bytes, Metas, Groups, PcInv, OpInv;
  }

  lemma SenderStep(c: Config, s: State, r: nat, e: Event)
    requires Inv(c, s) && r == 0 && Enabled(c, s, r, e)
    ensures SenderMeasure(c, Moved(c, s, r, e)) < SenderMeasure(c, s.ranks[r])
  {
    hide Bytes, Metas, ByteCount, Delivered, Decode, Groups, Pack, DictSet, Splice, LinkInv;
    assert RankInv(c, r, s.ranks[r]);
  }

  lemma ReceiverStep(c: Config, s: State, r: nat, e: Event)
    requires Inv(c, s) && 0 < r < c.world && Enabled(c, s, r, e)
    ensures ReceiverMeasure(c, Moved(c, s, r, e)) < ReceiverMeasure(c, s.ranks[r])
  {
    hide Bytes, Metas, ByteCount, Delivered, Decode, Groups, Pack, DictSet, Splice, LinkInv, Window, RankInv, Upto;
    var q := s.ranks[r];
    NotSending(c, r, q);
    NextProduct(|G(c)| - q.got - 1, c.size + 2);
  }

  lemma NotSending(c: Config, r: nat, q: Rank)
    requires RankInv(c, r, q) && r > 0
    ensures q.pc !in {Filling, AckLast}
  {
    hide Bytes, Metas, Groups, BufInv, OpInv, Yielded;
  }

  lemma StepDecreases(c: Config, s: State, r: nat, e: Event)
    requires ValidConfig(c) && Inv(c, s) && r < c.world && Enabled(c, s, r, e)
    ensures TotalMeasure(c, Apply(c, s, r, e).ranks) < TotalMeasure(c, s.ranks)
  {
    hide RankInv, LinkInv, Enabled, Moved, SenderMeasure, ReceiverMeasure, Total;
    if r == 0 {
      SenderStep(c, s, r, e);
    } else {
      ReceiverStep(c, s, r, e);
    }
    TotalDrops(Measures(c, s.ranks), Measures(c, Apply(c, s, r, e).ranks), r);
  }

  // Every run is at most as long as the initial measure, whatever the schedule.
  lemma {:induction false} RunsAreBounded(c: Config, run: seq<State>, moves: seq<Move>, i: nat)
    requires IsRun(c, run, moves) && i < |run|
    ensures 0 <= TotalMeasure(c, run[i].ranks) <= TotalMeasure(c, run[0].ranks) - i
  {
    hide RankInv, LinkInv, Enabled, Apply, Init, TotalMeasure;
    RunInv(c, run, moves, i);
    TotalMeasureNonNegative(c, run[i].ranks);
    if i > 0 {
      RunsAreBounded(c, run, moves, i - 1);
      RunInv(c, run, moves, i - 1);
      assert Takes(c, run[i - 1], moves[i - 1], run[i]);
      StepDecreases(c, run[i - 1], moves[i - 1].rank, moves[i - 1].event);
    }
  }

  // So a run that cannot be extended has delivered the sender's list to every receiving rank exactly when that list is
  // deliverable: in every bucket distinct names, and every tensor at a multiple of its item size.
  lemma CompleteRunsDeliver(c: Config, run: seq<State>, moves: seq<Move>)
    requires IsRun(c, run, moves)
    ensures WellShaped(c, run[|moves|])
    ensures Stuck(c, run[|moves|]) ==>
              ((forall r :: 0 < r < c.world ==> run[|moves|].ranks[r].pc == Done && run[|moves|].ranks[r].out == c.ws)
               <==> Deliverable(Groups(c.ws, c.size), 0))
    ensures Stuck(c, run[|moves|]) && AllViewable(Groups(c.ws, c.size), 0) ==>
              forall r :: 0 < r < c.world ==>
                run[|moves|].ranks[r].pc == Done && run[|moves|].ranks[r].out == Delivered(Groups(c.ws, c.size))
  {
    hide Inv, Enabled, Apply, Init, Stuck, Deliverable, AllViewable, Groups, Raised;
    NoDeadlock(c, run, moves, |moves|);
    DeliverableIff(c.ws, c.size, 0);
    forall r | 0 < r < c.world
      ensures var q, gs := run[|moves|].ranks[r], Groups(c.ws, c.size);
        && (q.pc == Done ==> q.out == Delivered(gs) && AllViewable(gs, 0))
        && (q.pc == Done ==> (q.out == c.ws <==> Deliverable(gs, 0)))
    {
      EveryRankDelivers(c, run, moves, |moves|, r);
    }
    assert run[|moves|].ranks[1].pc == Done && run[|moves|].ranks[1].out == c.ws ==> Deliverable(Groups(c.ws, c.size), 0);
  }
}
