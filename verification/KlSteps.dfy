/** The KL trainer's schedule: which batches make up which optimizer step, in which order an epoch's batches are drawn, and
    what a chain of processes that resume from one another's checkpoints has applied. */
module KlSteps {
  import opened Arithmetic
  import Weights

  // A process's global random generator: how it was seeded, and how many iterations over the loader have drawn from it.
  datatype Generator = Generator(seed: nat, drawn: nat)

  // Batch `index` of an epoch whose iteration was begun with the generator `order`.
  datatype Batch = Batch(epoch: nat, index: nat, order: Generator)

  type Step = seq<Batch>

  // Parameters and optimizer state are represented by what they are a function of: the batches applied, by optimizer step.
  datatype Checkpoint = Checkpoint(model: seq<Step>, grads: seq<Batch>, rng: Generator)

  // keep: max_ckpt_to_keep, without limit if not positive. distributed: more than one data-parallel rank.
  datatype Config = Config(batches: nat, accumulation: nat, epochs: nat, saveSteps: nat, keep: int, distributed: bool)

  ghost predicate ValidConfig(c: Config) {
    c.accumulation >= 1 && c.saveSteps >= 1
  }

  function StepsPerEpoch(c: Config): nat
    requires ValidConfig(c)
  {
    CeilDiv(c.batches, c.accumulation)
  }

  function TotalSteps(c: Config): nat
    requires ValidConfig(c)
  {
    StepsPerEpoch(c) * c.epochs
  }

  function Later(g: Generator, n: nat): Generator {
    Generator(g.seed, g.drawn + n)
  }

  // ---- Steps ----

  function Run(epoch: nat, order: Generator, lo: nat, hi: nat): Step
    requires lo <= hi
  {
    seq(hi - lo, t requires 0 <= t < hi - lo => Batch(epoch, lo + t, order))
  }

  // Optimizer step i of an epoch: the next full accumulation window, or what is left of the epoch.
  function StepOf(c: Config, epoch: nat, order: Generator, i: nat): Step
    requires ValidConfig(c) && i < StepsPerEpoch(c)
  {
    WindowStarts(c, i);
    NextProduct(i, c.accumulation);
    Run(epoch, order, i * c.accumulation, Min((i + 1) * c.accumulation, c.batches))
  }

  lemma WindowStarts(c: Config, i: nat)
    requires ValidConfig(c) && i < StepsPerEpoch(c)
    ensures 0 <= i * c.accumulation < c.batches
  {
    CeilAtMost(i, c.batches, c.accumulation);
  }

  // ---- Chains of resumed processes ----

  // k steps are not a whole number of epochs.
  predicate Inside(c: Config, k: nat)
    requires ValidConfig(c)
  {
    StepsPerEpoch(c) > 0 && k % StepsPerEpoch(c) != 0
  }

  // A process that resumes inside an epoch iterates over it again, and so draws once more. cuts: the steps resumed at.
  function Redraws(c: Config, cuts: seq<nat>, j: nat): nat
    requires ValidConfig(c)
  {
    if cuts == [] then 0
    else
      var k := cuts[|cuts| - 1];
      Redraws(c, cuts[..|cuts| - 1], j) + if Inside(c, k) && k <= j then 1 else 0
  }

  // The generator when the iteration that step j takes its batches from was begun.
  function OrderAt(c: Config, start: Generator, cuts: seq<nat>, j: nat): Generator
    requires ValidConfig(c) && StepsPerEpoch(c) > 0
  {
    Later(start, j / StepsPerEpoch(c) + Redraws(c, cuts, j))
  }

  // The first k optimizer steps of a chain that began with the generator `start`.
  function Lineage(c: Config, start: Generator, cuts: seq<nat>, k: nat): (p: seq<Step>)
    requires ValidConfig(c) && (k > 0 ==> StepsPerEpoch(c) > 0)
    ensures |p| == k
  {
    seq(k, j requires 0 <= j < k => StepOf(c, j / StepsPerEpoch(c), OrderAt(c, start, cuts, j), j % StepsPerEpoch(c)))
  }

  // A run that is never interrupted.
  function Prefix(c: Config, start: Generator, k: nat): seq<Step>
    requires ValidConfig(c) && (k > 0 ==> StepsPerEpoch(c) > 0)
  {
    Lineage(c, start, [], k)
  }

  // The generator after k steps: one draw for every epoch begun, and one for every redraw.
  function DrawnAfter(c: Config, start: Generator, cuts: seq<nat>, k: nat): Generator
    requires ValidConfig(c) && StepsPerEpoch(c) > 0
  {
    Later(start, CeilDiv(k, StepsPerEpoch(c)) + Redraws(c, cuts, k))
  }

  ghost predicate AllAtMost(cuts: seq<nat>, k: nat) {
    forall i :: 0 <= i < |cuts| ==> cuts[i] <= k
  }

  lemma {:induction false} RedrawsPast(c: Config, cuts: seq<nat>, j: nat, k: nat)
    requires ValidConfig(c) && AllAtMost(cuts, j) && j <= k
    ensures Redraws(c, cuts, j) == Redraws(c, cuts, k)
  {
    if cuts != [] {
      RedrawsPast(c, cuts[..|cuts| - 1], j, k);
    }
  }

  lemma RedrawsCut(c: Config, cuts: seq<nat>, k: nat, j: nat)
    requires ValidConfig(c)
    ensures Redraws(c, cuts + [k], j) == Redraws(c, cuts, j) + if Inside(c, k) && k <= j then 1 else 0
  {
    assert (cuts + [k])[..|cuts|] == cuts;
  }

  // Resuming at step k changes none of the first k steps.
  lemma LineageCut(c: Config, start: Generator, cuts: seq<nat>, k: nat)
    requires ValidConfig(c) && (k > 0 ==> StepsPerEpoch(c) > 0)
    ensures Lineage(c, start, cuts + [k], k) == Lineage(c, start, cuts, k)
  {
    hide StepOf, StepsPerEpoch, Redraws, Inside;
    var a, b := Lineage(c, start, cuts + [k], k), Lineage(c, start, cuts, k);
    forall j | 0 <= j < k
      ensures a[j] == b[j]
    {
      RedrawsCut(c, cuts, k, j);
    }
  }

  lemma LineageNext(c: Config, start: Generator, cuts: seq<nat>, epoch: nat, i: nat)
    requires ValidConfig(c) && i < StepsPerEpoch(c)
    ensures var k := epoch * StepsPerEpoch(c) + i;
      && Lineage(c, start, cuts, k + 1)
      == Lineage(c, start, cuts, k) + [StepOf(c, epoch, Later(start, epoch + Redraws(c, cuts, k)), i)]
  {
    hide StepOf, StepsPerEpoch, Redraws;
    AddMultiple(epoch, StepsPerEpoch(c), i);
  }

  // Whatever a chain's interruptions, every step takes the batches of the places that the uninterrupted run takes.
  lemma SamePlaces(c: Config, start: Generator, cuts: seq<nat>, k: nat, j: nat, t: nat)
    requires ValidConfig(c) && StepsPerEpoch(c) > 0 && j < k
    ensures |Lineage(c, start, cuts, k)[j]| == |Prefix(c, start, k)[j]|
    ensures t < |Prefix(c, start, k)[j]| ==>
              var a, b := Lineage(c, start, cuts, k)[j][t], Prefix(c, start, k)[j][t];
              a.epoch == b.epoch && a.index == b.index
  {
    hide StepsPerEpoch;
    StepPlaces(c, j / StepsPerEpoch(c), OrderAt(c, start, cuts, j), OrderAt(c, start, [], j), j % StepsPerEpoch(c));
  }

  lemma StepPlaces(c: Config, epoch: nat, order: Generator, order': Generator, i: nat)
    requires ValidConfig(c) && i < StepsPerEpoch(c)
    ensures var a, b := StepOf(c, epoch, order, i), StepOf(c, epoch, order', i);
      |a| == |b| && forall t :: 0 <= t < |a| ==> a[t] == Batch(b[t].epoch, b[t].index, order)
  {
    hide StepOf;
    StepShape(c, epoch, order, i);
    StepShape(c, epoch, order', i);
  }

  lemma StepShape(c: Config, epoch: nat, order: Generator, i: nat)
    requires ValidConfig(c) && i < StepsPerEpoch(c)
    ensures var a, lo, hi := StepOf(c, epoch, order, i), i * c.accumulation, Min((i + 1) * c.accumulation, c.batches);
      0 <= lo < hi && |a| == hi - lo && forall t: nat :: t < |a| ==> a[t] == Batch(epoch, lo + t, order)
  {
    WindowStarts(c, i);
    NextProduct(i, c.accumulation);
  }

  // ---- The uninterrupted run applies every batch once ----

  // All batches of the first epochs, in order.
  function AllBatches(c: Config, start: Generator, epochs: nat): seq<Batch> {
    if epochs == 0 then []
    else AllBatches(c, start, epochs - 1) + Run(epochs - 1, Later(start, epochs - 1), 0, c.batches)
  }

  // The batches of one epoch's first i steps.
  lemma {:induction false} EpochSoFar(c: Config, start: Generator, epoch: nat, i: nat)
    requires ValidConfig(c) && i <= StepsPerEpoch(c)
    ensures 0 <= Min(i * c.accumulation, c.batches)
    ensures Weights.Flatten(Prefix(c, start, epoch * StepsPerEpoch(c) + i))
         == Weights.Flatten(Prefix(c, start, epoch * StepsPerEpoch(c)))
            + Run(epoch, Later(start, epoch), 0, Min(i * c.accumulation, c.batches))
  {
    hide Weights.Flatten, Lineage, AllBatches;
    if i > 0 {
      EpochSoFar(c, start, epoch, i - 1);
      WindowStarts(c, i - 1);
      NextProduct(i - 1, c.accumulation);
      LineageNext(c, start, [], epoch, i - 1);
      Weights.FlattenAppend(Prefix(c, start, epoch * StepsPerEpoch(c) + i - 1), StepOf(c, epoch, Later(start, epoch), i - 1));
    }
  }

  lemma NoStepsNoBatches()
    ensures Weights.Flatten<Batch>([]) == []
  {
  }

  // Every batch of every epoch exactly once, in order.
  lemma {:induction false} UninterruptedAppliesEachOnce(c: Config, start: Generator, epochs: nat)
    requires ValidConfig(c)
    ensures epochs * StepsPerEpoch(c) > 0 ==> StepsPerEpoch(c) > 0
    ensures Weights.Flatten(Prefix(c, start, epochs * StepsPerEpoch(c))) == AllBatches(c, start, epochs)
  {
    hide Weights.Flatten;
    var s := StepsPerEpoch(c);
    if epochs == 0 {
      NoStepsNoBatches();
    } else {
      UninterruptedAppliesEachOnce(c, start, epochs - 1);
      NextProduct(epochs - 1, s);
      EpochSoFar(c, start, epochs - 1, s);
      CeilBracket(c.batches, c.accumulation);
    }
  }

  lemma {:induction false} AllBatchesAt(c: Config, start: Generator, epochs: nat, e: nat, b: nat)
    requires e < epochs && b < c.batches
    ensures |AllBatches(c, start, epochs)| == epochs * c.batches
    ensures 0 <= e * c.batches + b < epochs * c.batches
    ensures AllBatches(c, start, epochs)[e * c.batches + b] == Batch(e, b, Later(start, e))
  {
    AllBatchesLength(c, start, epochs - 1);
    NextProduct(epochs - 1, c.batches);
    Monotone(e, epochs - 1, c.batches);
    if e < epochs - 1 {
      AllBatchesAt(c, start, epochs - 1, e, b);
    }
  }

  lemma {:induction false} AllBatchesLength(c: Config, start: Generator, epochs: nat)
    ensures |AllBatches(c, start, epochs)| == epochs * c.batches
  {
    if epochs > 0 {
      AllBatchesLength(c, start, epochs - 1);
      NextProduct(epochs - 1, c.batches);
    }
  }

  // Every step but an epoch's last applies a full window.
  lemma StepSizes(c: Config, epoch: nat, order: Generator, i: nat)
    requires ValidConfig(c) && i < StepsPerEpoch(c)
    ensures 1 <= |StepOf(c, epoch, order, i)| <= c.accumulation
    ensures i + 1 < StepsPerEpoch(c) ==> |StepOf(c, epoch, order, i)| == c.accumulation
  {
    WindowStarts(c, i);
    NextProduct(i, c.accumulation);
    if i + 1 < StepsPerEpoch(c) {
      WindowStarts(c, i + 1);
    }
  }

  // ---- Inside an epoch ----

  // Optimizer steps of an epoch after its first b batches, and the batches accumulated since the last one.
  function StepsAfter(c: Config, b: nat): nat
    requires ValidConfig(c)
  {
    if b == c.batches then StepsPerEpoch(c) else b / c.accumulation
  }

  function Pending(c: Config, epoch: nat, order: Generator, b: nat): seq<Batch>
    requires ValidConfig(c)
  {
    if b == c.batches then [] else Run(epoch, order, b - b % c.accumulation, b)
  }

  // Optimizer steps after b batches of an epoch.
  function StepAt(c: Config, epoch: nat, b: nat): nat
    requires ValidConfig(c)
  {
    Monotone(0, epoch, StepsPerEpoch(c));
    epoch * StepsPerEpoch(c) + StepsAfter(c, b)
  }

  lemma WindowOf(c: Config, b: nat)
    requires ValidConfig(c) && b < c.batches
    ensures var i, g := b / c.accumulation, c.accumulation;
      i < StepsPerEpoch(c) && i * g <= b < i * g + g && b % g == b - i * g && (i + 1) * g == i * g + g
  {
    var i, g := b / c.accumulation, c.accumulation;
    assert b == i * g + b % g;
    NextProduct(i, g);
    CeilAtMost(i, c.batches, g);
  }

  // `step` optimizer steps are what the first `epoch` epochs and `skip` more batches make.
  ghost predicate AtBatch(c: Config, epoch: nat, skip: nat, step: nat)
    requires ValidConfig(c)
  {
    && skip % c.accumulation == 0 && (skip == 0 || skip < c.batches)
    && step == epoch * StepsPerEpoch(c) + skip / c.accumulation
  }

  lemma EpochEnd(c: Config, epoch: nat, order: Generator)
    requires ValidConfig(c)
    ensures AtBatch(c, epoch + 1, 0, StepAt(c, epoch, c.batches)) && Pending(c, epoch, order, c.batches) == []
    ensures StepAt(c, epoch, c.batches) == StepAt(c, epoch + 1, 0)
  {
    NextProduct(epoch, StepsPerEpoch(c));
    SmallQuotient(0, c.accumulation);
    CeilAtMost(0, c.batches, c.accumulation);
  }

  // An optimizer step follows batch b of an epoch.
  predicate ShouldStep(c: Config, b: nat)
    requires ValidConfig(c)
  {
    (b + 1) % c.accumulation == 0 || b + 1 == c.batches
  }

  // A step is due exactly at the end of a window.
  lemma WindowEnds(c: Config, b: nat)
    requires ValidConfig(c) && b < c.batches
    requires ShouldStep(c, b)
    ensures var i, g := b / c.accumulation, c.accumulation;
      StepsAfter(c, b + 1) == i + 1 && b + 1 == Min(i * g + g, c.batches) && (b + 1 == c.batches || (b + 1) % g == 0)
  {
    var g, i := c.accumulation, b / c.accumulation;
    WindowOf(c, b);
    var r := b - i * g;
    if r + 1 < g {
      AddMultiple(i, g, r + 1);
      CeilUnique(i + 1, c.batches, g);
    } else {
      Bracket(i + 1, g, b + 1);
      if b + 1 == c.batches {
        CeilUnique(i + 1, c.batches, g);
      }
    }
  }

  // The step taken after batch b is the chain's next one.
  lemma StepTaken(c: Config, start: Generator, cuts: seq<nat>, epoch: nat, b: nat, order: Generator)
    requires ValidConfig(c) && b < c.batches && epoch < c.epochs
    requires ShouldStep(c, b)
    requires order == Later(start, epoch + Redraws(c, cuts, StepAt(c, epoch, b)))
    ensures var k := StepAt(c, epoch, b);
      && StepAt(c, epoch, b + 1) == k + 1 <= TotalSteps(c) && 0 < StepsAfter(c, b + 1) <= StepsPerEpoch(c)
      && Pending(c, epoch, order, b + 1) == []
      && Lineage(c, start, cuts, k + 1) == Lineage(c, start, cuts, k) + [Pending(c, epoch, order, b) + [Batch(epoch, b, order)]]
  {
    hide Lineage, CeilDiv, Redraws;
    var i := b / c.accumulation;
    WindowOf(c, b);
    WindowEnds(c, b);
    LineageNext(c, start, cuts, epoch, i);
    WithinTotal(c, epoch, i + 1);
    assert Pending(c, epoch, order, b) + [Batch(epoch, b, order)] == StepOf(c, epoch, order, i);
  }

  lemma WithinTotal(c: Config, epoch: nat, i: nat)
    requires ValidConfig(c) && epoch < c.epochs && i <= StepsPerEpoch(c)
    ensures 0 <= epoch * StepsPerEpoch(c) + i <= TotalSteps(c)
  {
    var s := StepsPerEpoch(c);
    NextProduct(epoch, s);
    Monotone(epoch + 1, c.epochs, s);
    assert s * c.epochs == c.epochs * s;
  }

  lemma EpochStart(c: Config, epoch: nat, order: Generator, skip: nat)
    requires ValidConfig(c) && skip % c.accumulation == 0 && (skip == 0 || skip < c.batches)
    ensures StepsAfter(c, skip) == skip / c.accumulation && Pending(c, epoch, order, skip) == []
  {
    CeilAtMost(0, c.batches, c.accumulation);
  }

  lemma NoStepTaken(c: Config, epoch: nat, order: Generator, b: nat)
    requires ValidConfig(c) && b < c.batches && !ShouldStep(c, b)
    ensures StepsAfter(c, b + 1) == StepsAfter(c, b)
    ensures Pending(c, epoch, order, b + 1) == Pending(c, epoch, order, b) + [Batch(epoch, b, order)]
  {
    var i, g := b / c.accumulation, c.accumulation;
    WindowOf(c, b);
    if b + 1 == i * g + g {
      Bracket(i + 1, g, b + 1);
    }
    AddMultiple(i, g, b + 1 - i * g);
  }

  // After a step of an epoch that the chain entered at step k or before, the generator is where DrawnAfter says.
  lemma DrawnInside(c: Config, start: Generator, cuts: seq<nat>, epoch: nat, b: nat)
    requires ValidConfig(c) && StepsPerEpoch(c) > 0 && 0 < StepsAfter(c, b) <= StepsPerEpoch(c)
    ensures DrawnAfter(c, start, cuts, StepAt(c, epoch, b)) == Later(start, epoch + 1 + Redraws(c, cuts, StepAt(c, epoch, b)))
  {
    hide Redraws, StepsAfter;
    NextProduct(epoch, StepsPerEpoch(c));
    CeilUnique(epoch + 1, StepAt(c, epoch, b), StepsPerEpoch(c));
  }

  // Resuming at step k: the stored generator is the one the chain goes on with.
  lemma DrawnResumed(c: Config, start: Generator, cuts: seq<nat>, k: nat)
    requires ValidConfig(c) && StepsPerEpoch(c) > 0
    ensures DrawnAfter(c, start, cuts, k) == Later(start, k / StepsPerEpoch(c) + Redraws(c, cuts + [k], k))
  {
    hide Redraws;
    var s := StepsPerEpoch(c);
    RedrawsCut(c, cuts, k, k);
    assert k == k / s * s + k % s;
    NextProduct(k / s, s);
    if k % s == 0 {
      CeilUnique(k / s, k, s);
    } else {
      CeilUnique(k / s + 1, k, s);
    }
  }

  // Epochs begun before step k is taken, not counting its own.
  function EpochOf(c: Config, k: nat): nat
    requires ValidConfig(c)
  {
    if StepsPerEpoch(c) == 0 then 0 else k / StepsPerEpoch(c)
  }

  lemma DrawnAtEnd(c: Config, start: Generator, cuts: seq<nat>)
    requires ValidConfig(c) && StepsPerEpoch(c) > 0
    ensures DrawnAfter(c, start, cuts, TotalSteps(c)) == Later(start, c.epochs + Redraws(c, cuts, TotalSteps(c)))
  {
    hide Redraws;
    assert TotalSteps(c) == c.epochs * StepsPerEpoch(c);
    CeilUnique(c.epochs, TotalSteps(c), StepsPerEpoch(c));
  }

  // ---- Engine actions ----

  // What a process that starts from nothing has done after b batches of an epoch: a backward pass per batch, an optimizer
  // step per step, and two actions, writing and registering, per periodic checkpoint.
  function Clock(c: Config, epoch: nat, b: nat): nat
    requires ValidConfig(c)
  {
    Mul(epoch, c.batches) + b + StepActions(c, StepAt(c, epoch, b))
  }

  function StepActions(c: Config, k: nat): nat
    requires ValidConfig(c)
  {
    k + 2 * (k / c.saveSteps)
  }

  // The actions that follow the backward pass of batch b, after k steps.
  function Due(c: Config, b: nat, k: nat): nat
    requires ValidConfig(c)
  {
    if !ShouldStep(c, b) then 0 else if (k + 1) % c.saveSteps == 0 then 3 else 1
  }

  lemma DueIs(c: Config, b: nat, k: nat)
    requires ValidConfig(c)
    ensures Due(c, b, k) == if !ShouldStep(c, b) then 0 else if (k + 1) % c.saveSteps == 0 then 3 else 1
  {
  }

  lemma ClockNext(c: Config, epoch: nat, b: nat)
    requires ValidConfig(c) && b < c.batches
    ensures Clock(c, epoch, b + 1) == Clock(c, epoch, b) + 1 + Due(c, b, StepAt(c, epoch, b))
  {
    hide Mul, CeilDiv;
    if !ShouldStep(c, b) {
      NoStepTaken(c, epoch, Generator(0, 0), b);
    } else {
      WindowOf(c, b);
      WindowEnds(c, b);
      Successor(StepAt(c, epoch, b), c.saveSteps);
    }
  }

  lemma ClockEnd(c: Config, epoch: nat)
    requires ValidConfig(c)
    ensures Clock(c, epoch, c.batches) == Clock(c, epoch + 1, 0)
    ensures Clock(c, 0, 0) == 0
  {
    hide Mul;
    MulNext(epoch, c.batches);
    MulUnits(c.batches);
    EpochEnd(c, epoch, Generator(0, 0));
    SmallQuotient(0, c.saveSteps);
    SmallQuotient(0, c.accumulation);
    CeilAtMost(0, c.batches, c.accumulation);
  }

  lemma {:induction false} ClockGrows(c: Config, epoch: nat, b: nat, b': nat)
    requires ValidConfig(c) && b < b' <= c.batches
    ensures Clock(c, epoch, b) < Clock(c, epoch, b')
    decreases b' - b
  {
    hide Clock;
    ClockNext(c, epoch, b);
    if b + 1 < b' {
      ClockGrows(c, epoch, b + 1, b');
    }
  }

  lemma {:induction false} ClockEpochs(c: Config, e: nat, e': nat)
    requires ValidConfig(c) && e <= e'
    ensures Clock(c, e, 0) <= Clock(c, e', 0)
    decreases e' - e
  {
    hide Clock;
    if e < e' {
      if c.batches > 0 {
        ClockGrows(c, e, 0, c.batches);
      }
      ClockEnd(c, e);
      ClockEpochs(c, e + 1, e');
    }
  }

  // The batch at which a total of actions falls.
  lemma ClockPlace(c: Config, epoch: nat, b: nat, total: nat, b': nat)
    requires ValidConfig(c) && b < c.batches && b' <= c.batches
    requires Clock(c, epoch, b) <= total < Clock(c, epoch, b + 1) && total == Clock(c, epoch, b')
    ensures b' == b
  {
    hide Clock;
    if b' < b {
      ClockGrows(c, epoch, b', b);
    } else if b + 1 < b' {
      ClockGrows(c, epoch, b + 1, b');
    }
  }

  lemma KillPlace(c: Config, epoch: nat, b: nat, total: nat)
    requires ValidConfig(c) && b < c.batches
    ensures Clock(c, epoch, b) <= total < Clock(c, epoch, b + 1) ==>
              total < Clock(c, epoch + 1, 0)
              && forall b' :: 0 <= b' < c.batches && total == Clock(c, epoch, b') ==> b' == b
  {
    hide Clock;
    if Clock(c, epoch, b) <= total < Clock(c, epoch, b + 1) {
      ClockEnd(c, epoch);
      if b + 1 < c.batches {
        ClockGrows(c, epoch, b + 1, c.batches);
      }
      forall b' | 0 <= b' < c.batches && total == Clock(c, epoch, b')
        ensures b' == b
      {
        ClockPlace(c, epoch, b, total, b');
      }
    }
  }

  lemma StartsAt(c: Config, epoch: nat, skip: nat, k: nat)
    requires ValidConfig(c) && AtBatch(c, epoch, skip, k)
    ensures k == StepAt(c, epoch, skip) && skip % c.accumulation == 0 && (skip == 0 || skip < c.batches)
  {
    EpochStart(c, epoch, Generator(0, 0), skip);
  }

  lemma StepAtSame(c: Config, epoch: nat, b: nat, b': nat)
    requires ValidConfig(c) && StepsAfter(c, b) == StepsAfter(c, b')
    ensures StepAt(c, epoch, b) == StepAt(c, epoch, b')
  {
  }

  // The epoch at which a total of actions falls.
  lemma ClockEpochPlace(c: Config, e: nat, total: nat, e': nat, b': nat)
    requires ValidConfig(c) && b' < c.batches
    requires Clock(c, e, 0) <= total < Clock(c, e + 1, 0) && total == Clock(c, e', b')
    ensures e' == e
  {
    hide Clock;
    ClockGrows(c, e', b', c.batches);
    ClockEnd(c, e');
    if b' > 0 {
      ClockGrows(c, e', 0, b');
    }
    if e' < e {
      ClockEpochs(c, e' + 1, e);
    } else if e < e' {
      ClockEpochs(c, e + 1, e');
    }
  }

  lemma ClockBeforeEnd(c: Config, e: nat, b: nat, e': nat)
    requires ValidConfig(c) && e < e' && b < c.batches
    ensures Clock(c, e, b) < Clock(c, e', 0)
  {
    hide Clock;
    ClockGrows(c, e, b, c.batches);
    ClockEnd(c, e);
    ClockEpochs(c, e + 1, e');
  }

  // No process performs more actions: at most one load before, and the last checkpoint after.
  function Enough(c: Config): nat
    requires ValidConfig(c)
  {
    1 + Clock(c, c.epochs, 0) + 2
  }
}
