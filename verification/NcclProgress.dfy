/** The NCCL engine never gets stuck, and every schedule of it ends. */
module NcclProgress {
  import opened Weights
  import opened BucketPacking
  import opened Options
  import opened Transfer
  import opened NcclBroadcast
  import opened Arithmetic
  import opened Totals

  ghost predicate Stuck(c: Config, s: State)
    requires WellShaped(c, s)
  {
    forall e: Event :: !Enabled(c, s, e)
  }

  ghost predicate NoneRaised(s: State) {
    forall r :: 0 <= r < |s.receivers| ==> !Raised(s.receivers[r])
  }

  lemma Unstuck(c: Config, s: State, e: Event)
    requires WellShaped(c, s) && Enabled(c, s, e)
    ensures !Stuck(c, s)
  {
  }

  lemma StuckOp(c: Config, s: State)
    requires Inv(c, s) && WellShaped(c, s) && Stuck(c, s)
    ensures Complete(s.sender.op)
  {
    hide Midway, Groups, Metas, Bytes, ReceiverInv, Stuck;
    var q := s.sender;
    if q.op.Some? {
      if !q.op.value.published {
        Unstuck(c, s, Publish);
      } else if q.op.value.left != {} {
        var i :| i in q.op.value.left;
        Unstuck(c, s, SendByte(i));
      }
    }
  }

  lemma StuckSender(c: Config, s: State)
    requires ValidConfig(c) && Inv(c, s) && WellShaped(c, s) && Stuck(c, s)
    ensures s.sender.pc == Returned
  {
    hide Groups, Metas, Bytes, ReceiverInv, Stuck, LogInv, Midway;
    var q := s.sender;
    StuckOp(c, s);
    if q.pc == Final {
      Unstuck(c, s, Return);
    } else if q.pc == Loop {
      if q.fill.next == |c.ws| {
        Unstuck(c, s, StartLast);
      } else if !Full(c, q.fill) {
        Unstuck(c, s, PackWeight);
      } else {
        FlushedFits(c, q.fill, q.bufs[q.send], q.sent);
        Unstuck(c, s, StartFull);
      }
    }
  }

  // A weight always fits an empty bucket.
  lemma FlushedFits(c: Config, f: Fill, buf: seq<Byte>, sent: nat)
    requires ValidConfig(c) && Midway(c, f, buf, sent) && f.next < |c.ws| && Full(c, f)
    ensures !f.flushed
  {
    hide Pack, Groups, Metas, Bytes, ByteCount, Overflows;
  }

  // Once the sender has returned, everything it sent is on the wires.
  lemma AllOnTheWires(c: Config, s: State)
    requires Inv(c, s) && s.sender.pc == Returned
    ensures |s.published| == |s.wires| == |G(c)|
    ensures forall k, i :: 0 <= k < |s.wires| && 0 <= i < c.size ==> i in s.wires[k]
  {
    hide Midway, Groups, Metas, Bytes, ReceiverInv;
    AllSent(c, s.sender, s.published, s.wires);
  }

  lemma StuckReceiver(c: Config, s: State, r: nat)
    requires ValidConfig(c) && Inv(c, s) && WellShaped(c, s) && Stuck(c, s) && r < |s.receivers|
    requires NoneRaised(s)
    ensures s.receivers[r].pc == Done
  {
    hide Groups, Metas, Bytes, Stuck, SenderInv, LogInv, Delivered, Unpack;
    var q := s.receivers[r];
    StuckSender(c, s);
    AllOnTheWires(c, s);
    assert ReceiverInv(c, q);
    if q.pc in {First, Next} {
      if q.op.value.meta.None? {
        Unstuck(c, s, TakeMeta(r));
      } else if q.op.value.left == {} {
        Unstuck(c, s, Finish(r));
      } else {
        var i :| i in q.op.value.left;
        Unstuck(c, s, TakeByte(r, i));
      }
    } else if q.pc != Done {
      UnpackLength(Metas(G(c)[q.held - 1]), Bytes(G(c)[q.held - 1]));
      if q.j < |q.meta.metas| {
        Unstuck(c, s, YieldTensor(r));
      } else {
        Unstuck(c, s, EndYield(r));
      }
    }
  }

  // Either some rank or some background operation can move, or every rank has returned, or some loop has raised.
  lemma NoDeadlock(c: Config, run: seq<State>, events: seq<Event>, i: nat)
    requires IsRun(c, run, events) && i < |run|
    ensures WellShaped(c, run[i])
    ensures Stuck(c, run[i]) && NoneRaised(run[i]) ==>
              run[i].sender.pc == Returned && forall r :: 0 <= r < |run[i].receivers| ==> run[i].receivers[r].pc == Done
    ensures AllViewable(Groups(c.ws, c.size), 0) ==> NoneRaised(run[i])
  {
    hide SenderInv, ReceiverInv, LogInv, Stuck, Init, Apply, Enabled, Raised, AllViewable;
    RunInv(c, run, events, i);
    forall r | 0 <= r < |run[i].receivers|
      ensures Raised(run[i].receivers[r]) ==> !AllViewable(Groups(c.ws, c.size), 0)
    {
      OutIsPrefix(c, run[i].receivers[r]);
    }
    if Stuck(c, run[i]) && NoneRaised(run[i]) {
      StuckSender(c, run[i]);
      forall r | 0 <= r < |run[i].receivers|
        ensures run[i].receivers[r].pc == Done
      {
        StuckReceiver(c, run[i], r);
      }
    }
  }

  // ---- Termination ----

  ghost function SenderMeasure(c: Config, q: Sender): int {
    4 * (|c.ws| - q.fill.next) + (if q.fill.flushed then 0 else 2)
    + (|G(c)| - q.sent) * (c.size + 2)
    + (if q.op.Some? then |q.op.value.left| + (if q.op.value.published then 0 else 1) else 0)
    + (match q.pc case Loop => 2 case Final => 1 case Returned => 0)
  }

  ghost function ReceiverMeasure(c: Config, q: Receiver): int {
    (|G(c)| - q.held) * (c.size + 5)
    + (if q.op.Some? then |q.op.value.left| + (if q.op.value.meta.Some? then 0 else 1) else 0)
    + (|Delivered(G(c))| - |q.out|)
    + (match q.pc case Yielding => 3 case Last => 3 case Done => 0 case _ => 2)
  }

  ghost function Measures(c: Config, s: State): seq<int> {
    seq(|s.receivers| + 1, r requires 0 <= r < |s.receivers| + 1 =>
      if r == |s.receivers| then SenderMeasure(c, s.sender) else ReceiverMeasure(c, s.receivers[r]))
  }

  ghost function Measure(c: Config, s: State): int {
    Total(Measures(c, s))
  }

  lemma SenderStep(c: Config, s: State, e: Event)
    requires WellShaped(c, s) && Enabled(c, s, e)
    requires e in {PackWeight, StartFull, StartLast, Publish, Return} || e.SendByte?
    ensures SenderMeasure(c, SenderMoved(c, s.sender, e)) < SenderMeasure(c, s.sender)
  {
    hide DictSet, Splice, Groups;
    NextProduct(|G(c)| - s.sender.sent - 1, c.size + 2);
  }

  lemma ReceiverStep(c: Config, s: State, r: nat, e: Event)
    requires WellShaped(c, s) && Enabled(c, s, e) && r < |s.receivers|
    requires e in {TakeMeta(r), Finish(r), YieldTensor(r), EndYield(r)} || (e.TakeByte? && e.r == r)
    ensures ReceiverMeasure(c, ReceiverMoved(c, s, r, e)) < ReceiverMeasure(c, s.receivers[r])
  {
    hide Window, Groups, Delivered;
    NextProduct(|G(c)| - s.receivers[r].held - 1, c.size + 5);
  }

  // The rank an event belongs to; the sender comes last.
  ghost function Owner(s: State, e: Event): nat {
    match e
    case TakeMeta(r) => r
    case TakeByte(r, _) => r
    case Finish(r) => r
    case YieldTensor(r) => r
    case EndYield(r) => r
    case _ => |s.receivers|
  }

  lemma OthersStay(c: Config, s: State, e: Event, r: nat)
    requires WellShaped(c, s) && Enabled(c, s, e) && r <= |s.receivers| && r != Owner(s, e)
    ensures if r == |s.receivers| then SenderMoved(c, s.sender, e) == s.sender
            else ReceiverMoved(c, s, r, e) == s.receivers[r]
  {
    hide Window, DictSet, Splice;
  }

  lemma StepDecreases(c: Config, s: State, e: Event)
    requires WellShaped(c, s) && Enabled(c, s, e)
    ensures Measure(c, Apply(c, s, e)) < Measure(c, s)
  {
    hide SenderMeasure, ReceiverMeasure, SenderMoved, ReceiverMoved, Total;
    var s', o := Apply(c, s, e), Owner(s, e);
    if o == |s.receivers| {
      SenderStep(c, s, e);
    } else {
      ReceiverStep(c, s, o, e);
    }
    var ms, ns := Measures(c, s), Measures(c, s');
    forall r | 0 <= r < |ms| && r != o
      ensures ns[r] == ms[r]
    {
      OthersStay(c, s, e, r);
    }
    TotalDrops(ms, ns, o);
  }

  lemma MeasureNonNegative(c: Config, s: State)
    requires Inv(c, s)
    ensures Measure(c, s) >= 0
  {
    hide SenderMeasure, ReceiverMeasure, SenderInv, ReceiverInv, LogInv, Total;
    SenderNonNegative(c, s.sender);
    forall r | 0 <= r < |s.receivers|
      ensures ReceiverMeasure(c, s.receivers[r]) >= 0
    {
      ReceiverNonNegative(c, s.receivers[r]);
    }
    TotalNonNegative(Measures(c, s));
  }

  lemma SenderNonNegative(c: Config, q: Sender)
    requires SenderInv(c, q)
    ensures SenderMeasure(c, q) >= 0
  {
    hide Midway, Groups, Metas, Bytes;
    Monotone(0, |G(c)| - q.sent, c.size + 2);
  }

  lemma ReceiverNonNegative(c: Config, q: Receiver)
    requires ReceiverInv(c, q)
    ensures ReceiverMeasure(c, q) >= 0
  {
    hide Groups, Metas, Bytes, Delivered, RecvPcInv;
    OutIsPrefix(c, q);
    Monotone(0, |G(c)| - q.held, c.size + 5);
  }

  lemma {:induction false} RunsAreBounded(c: Config, run: seq<State>, events: seq<Event>, i: nat)
    requires IsRun(c, run, events) && i < |run|
    ensures 0 <= Measure(c, run[i]) <= Measure(c, run[0]) - i
  {
    hide Inv, Enabled, Apply, Init, Measure, WellShaped;
    RunInv(c, run, events, i);
    MeasureNonNegative(c, run[i]);
    if i > 0 {
      RunsAreBounded(c, run, events, i - 1);
      assert Takes(c, run[i - 1], events[i - 1], run[i]);
      StepDecreases(c, run[i - 1], events[i - 1]);
    }
  }

  // A run that cannot be extended has delivered the sender's list to every receiving rank exactly when that list is
  // deliverable: in every bucket distinct names, and every tensor at a multiple of its item size.
  lemma CompleteRunsDeliver(c: Config, run: seq<State>, events: seq<Event>)
    requires IsRun(c, run, events)
    ensures WellShaped(c, run[|events|])
    ensures Stuck(c, run[|events|]) ==>
              ((forall r :: 0 <= r < |run[|events|].receivers| ==>
                  run[|events|].receivers[r].pc == Done && run[|events|].receivers[r].out == c.ws)
               <==> Deliverable(Groups(c.ws, c.size), 0))
    ensures Stuck(c, run[|events|]) && AllViewable(Groups(c.ws, c.size), 0) ==>
              forall r :: 0 <= r < |run[|events|].receivers| ==>
                run[|events|].receivers[r].pc == Done && run[|events|].receivers[r].out == Delivered(Groups(c.ws, c.size))
  {
    hide Inv, Enabled, Apply, Init, Stuck, Deliverable, AllViewable, Groups, Raised;
    NoDeadlock(c, run, events, |events|);
    DeliverableIff(c.ws, c.size, 0);
    var receivers := run[|events|].receivers;
    forall r | 0 <= r < |receivers|
      ensures var q, gs := receivers[r], Groups(c.ws, c.size);
        && (q.pc == Done ==> q.out == Delivered(gs) && AllViewable(gs, 0))
        && (q.pc == Done ==> (q.out == c.ws <==> Deliverable(gs, 0)))
    {
      EveryRankDelivers(c, run, events, |events|, r);
    }
    assert receivers[0].pc == Done && receivers[0].out == c.ws ==> Deliverable(Groups(c.ws, c.size), 0);
  }
}
