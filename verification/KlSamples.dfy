/** Which samples a chain of resumed processes trains on. With several data-parallel ranks the sampler is seeded by the epoch;
    with one, every iteration over the loader draws a new order from the process's random generator. */
module KlSamples {
  import opened Arithmetic
  import opened KlSteps
  import Weights

  // What an epoch's order is a function of.
  datatype Order = ByEpoch(epoch: nat) | ByDraw(rng: Generator)

  function OrderOf(c: Config, b: Batch): Order {
    if c.distributed then ByEpoch(b.epoch) else ByDraw(b.order)
  }

  // The data set, or one rank's share of it, and the batch size.
  datatype Data = Data(samples: nat, size: nat)

  ghost predicate Fits(c: Config, d: Data) {
    d.size > 0 && CeilDiv(d.samples, d.size) == c.batches
  }

  // The order drawn for each epoch or from each generator.
  type Shuffle = Order -> seq<nat>

  ghost predicate IsOrder(s: seq<nat>, n: nat) {
    && |s| == n
    && (forall i :: 0 <= i < n ==> s[i] < n)
    && forall i, j :: 0 <= i < j < n ==> s[i] != s[j]
  }

  ghost predicate IsShuffle(f: Shuffle, d: Data) {
    forall o :: IsOrder(f(o), d.samples)
  }

  function Cut(s: seq<nat>, lo: nat, hi: nat): seq<nat> {
    if lo <= hi <= |s| then s[lo..hi] else []
  }

  // The samples of one batch.
  function Rows(f: Shuffle, c: Config, d: Data, b: Batch): seq<nat> {
    Monotone(0, b.index, d.size);
    Cut(f(OrderOf(c, b)), b.index * d.size, Min(b.index * d.size + d.size, d.samples))
  }

  function ReadStep(f: Shuffle, c: Config, d: Data, step: Step): seq<seq<nat>> {
    seq(|step|, t requires 0 <= t < |step| => Rows(f, c, d, step[t]))
  }

  // The samples of every batch of every step.
  function Read(f: Shuffle, c: Config, d: Data, model: seq<Step>): seq<seq<seq<nat>>> {
    seq(|model|, j requires 0 <= j < |model| => ReadStep(f, c, d, model[j]))
  }

  // Whatever orders are drawn, the model has been trained on the samples of the uninterrupted run, step by step.
  ghost predicate AsUninterrupted(c: Config, d: Data, model: seq<Step>, start: Generator)
    requires ValidConfig(c)
  {
    forall f: Shuffle :: IsShuffle(f, d) ==> Read(f, c, d, model) == Read(f, c, d, Prefix(c, start, TotalSteps(c)))
  }

  // The samples of an epoch's first k batches.
  function EpochRows(f: Shuffle, c: Config, d: Data, epoch: nat, order: Generator, k: nat): seq<seq<nat>> {
    seq(k, b requires 0 <= b < k => Rows(f, c, d, Batch(epoch, b, order)))
  }

  lemma {:induction false} EpochRowsSoFar(f: Shuffle, c: Config, d: Data, epoch: nat, order: Generator, k: nat)
    requires Fits(c, d) && IsShuffle(f, d) && k <= c.batches
    ensures 0 <= Min(k * d.size, d.samples)
    ensures Weights.Flatten(EpochRows(f, c, d, epoch, order, k))
         == f(OrderOf(c, Batch(epoch, 0, order)))[..Min(k * d.size, d.samples)]
  {
    hide Weights.Flatten, Rows;
    Monotone(0, k, d.size);
    if k == 0 {
      NoSamples();
      assert EpochRows(f, c, d, epoch, order, 0) == [];
      assert IsOrder(f(OrderOf(c, Batch(epoch, 0, order))), d.samples);
    } else {
      EpochRowsSoFar(f, c, d, epoch, order, k - 1);
      NextProduct(k - 1, d.size);
      BatchInside(c, d, k - 1);
      RowsAt(f, c, d, Batch(epoch, k - 1, order));
      Weights.FlattenAppend(EpochRows(f, c, d, epoch, order, k - 1), Rows(f, c, d, Batch(epoch, k - 1, order)));
      assert EpochRows(f, c, d, epoch, order, k)
          == EpochRows(f, c, d, epoch, order, k - 1) + [Rows(f, c, d, Batch(epoch, k - 1, order))];
    }
  }

  lemma NoSamples()
    ensures Weights.Flatten<nat>([]) == []
  {
  }

  lemma RowsAt(f: Shuffle, c: Config, d: Data, b: Batch)
    requires Fits(c, d) && IsShuffle(f, d) && b.index < c.batches
    ensures 0 <= b.index * d.size < d.samples
    ensures Rows(f, c, d, b)
         == f(OrderOf(c, b))[b.index * d.size..Min(b.index * d.size + d.size, d.samples)]
  {
    BatchInside(c, d, b.index);
    assert IsOrder(f(OrderOf(c, b)), d.samples);
  }

  // An epoch's batches are the drawn order, cut up: every sample once.
  lemma EpochReadsTheOrder(f: Shuffle, c: Config, d: Data, epoch: nat, order: Generator)
    requires Fits(c, d) && IsShuffle(f, d)
    ensures Weights.Flatten(EpochRows(f, c, d, epoch, order, c.batches))
         == f(if c.distributed then ByEpoch(epoch) else ByDraw(order))
  {
    hide Weights.Flatten, EpochRows;
    EpochRowsSoFar(f, c, d, epoch, order, c.batches);
    CeilBracket(d.samples, d.size);
    assert IsOrder(f(OrderOf(c, Batch(epoch, 0, order))), d.samples);
  }

  // ---- Same samples ----

  lemma {:induction false} NoRedraws(c: Config, cuts: seq<nat>, j: nat)
    requires ValidConfig(c) && forall i :: 0 <= i < |cuts| ==> !Inside(c, cuts[i])
    ensures Redraws(c, cuts, j) == 0
  {
    if cuts != [] {
      NoRedraws(c, cuts[..|cuts| - 1], j);
    }
  }

  lemma WholeEpochsOnly(c: Config, start: Generator, cuts: seq<nat>, k: nat)
    requires ValidConfig(c) && (k > 0 ==> StepsPerEpoch(c) > 0) && forall i :: 0 <= i < |cuts| ==> !Inside(c, cuts[i])
    ensures Lineage(c, start, cuts, k) == Prefix(c, start, k)
  {
    hide StepOf, StepsPerEpoch, Redraws;
    forall j | 0 <= j < k
      ensures Lineage(c, start, cuts, k)[j] == Prefix(c, start, k)[j]
    {
      NoRedraws(c, cuts, j);
      NoRedraws(c, [], j);
    }
  }

  lemma SameRows(f: Shuffle, c: Config, d: Data, epoch: nat, i: nat, o: Generator, o': Generator)
    requires ValidConfig(c) && i < StepsPerEpoch(c) && c.distributed
    ensures ReadStep(f, c, d, StepOf(c, epoch, o, i)) == ReadStep(f, c, d, StepOf(c, epoch, o', i))
  {
    hide StepOf, StepsPerEpoch;
    StepPlaces(c, epoch, o, o', i);
    StepShape(c, epoch, o', i);
  }

  lemma SameStep(f: Shuffle, c: Config, d: Data, start: Generator, cuts: seq<nat>, k: nat, j: nat)
    requires ValidConfig(c) && StepsPerEpoch(c) > 0 && c.distributed && j < k
    ensures ReadStep(f, c, d, Lineage(c, start, cuts, k)[j]) == ReadStep(f, c, d, Prefix(c, start, k)[j])
  {
    hide StepOf, StepsPerEpoch, ReadStep, OrderAt;
    var s := StepsPerEpoch(c);
    SameRows(f, c, d, j / s, j % s, OrderAt(c, start, cuts, j), OrderAt(c, start, [], j));
  }

  lemma EpochOrderReadsSame(f: Shuffle, c: Config, d: Data, start: Generator, cuts: seq<nat>, k: nat)
    requires ValidConfig(c) && (k > 0 ==> StepsPerEpoch(c) > 0) && c.distributed
    ensures Read(f, c, d, Lineage(c, start, cuts, k)) == Read(f, c, d, Prefix(c, start, k))
  {
    hide ReadStep, Lineage;
    forall j | 0 <= j < k
      ensures Read(f, c, d, Lineage(c, start, cuts, k))[j] == Read(f, c, d, Prefix(c, start, k))[j]
    {
      SameStep(f, c, d, start, cuts, k, j);
    }
  }

  // ---- Other samples ----

  function Identity(n: nat): seq<nat> {
    seq(n, i => i)
  }

  function Rotated(n: nat): seq<nat> {
    seq(n, i => if i + 1 < n then i + 1 else 0)
  }

  // One order is drawn as it stands and all others rotated by one sample.
  function Apart(n: nat, o: Generator): Shuffle {
    x => if x == ByDraw(o) then Identity(n) else Rotated(n)
  }

  lemma ApartIsShuffle(d: Data, o: Generator)
    ensures IsShuffle(Apart(d.samples, o), d)
  {
    assert IsOrder(Identity(d.samples), d.samples) && IsOrder(Rotated(d.samples), d.samples);
  }

  lemma BatchInside(c: Config, d: Data, index: nat)
    requires Fits(c, d) && index < c.batches
    ensures 0 <= index * d.size < d.samples
  {
    CeilAtMost(index, d.samples, d.size);
    Monotone(0, index, d.size);
  }

  lemma OtherRows(c: Config, d: Data, b: Batch, b': Batch)
    requires Fits(c, d) && d.samples >= 2 && !c.distributed
    requires b.index == b'.index < c.batches && b.order != b'.order
    ensures Rows(Apart(d.samples, b'.order), c, d, b) != Rows(Apart(d.samples, b'.order), c, d, b')
  {
    BatchInside(c, d, b.index);
    var f, lo := Apart(d.samples, b'.order), b.index * d.size;
    assert Rows(f, c, d, b)[0] == Rotated(d.samples)[lo];
    assert Rows(f, c, d, b')[0] == Identity(d.samples)[lo];
  }

  lemma OtherStep(c: Config, d: Data, epoch: nat, i: nat, o: Generator, o': Generator)
    requires ValidConfig(c) && Fits(c, d) && d.samples >= 2 && !c.distributed && i < StepsPerEpoch(c) && o != o'
    ensures var f := Apart(d.samples, o');
      ReadStep(f, c, d, StepOf(c, epoch, o, i)) != ReadStep(f, c, d, StepOf(c, epoch, o', i))
  {
    hide StepOf, StepsPerEpoch, Rows, Apart;
    StepShape(c, epoch, o, i);
    StepShape(c, epoch, o', i);
    var a, b := StepOf(c, epoch, o, i), StepOf(c, epoch, o', i);
    OtherRows(c, d, a[0], b[0]);
    assert ReadStep(Apart(d.samples, o'), c, d, a)[0] != ReadStep(Apart(d.samples, o'), c, d, b)[0];
  }

  // A step whose order differs is read differently when that one order is drawn apart.
  lemma OtherAt(c: Config, d: Data, start: Generator, cuts: seq<nat>, start': Generator, j: nat)
    requires ValidConfig(c) && Fits(c, d) && d.samples >= 2 && !c.distributed
    requires StepsPerEpoch(c) > 0 && j < TotalSteps(c) && OrderAt(c, start, cuts, j) != OrderAt(c, start', [], j)
    ensures var f := Apart(d.samples, OrderAt(c, start', [], j));
      Read(f, c, d, Lineage(c, start, cuts, TotalSteps(c))) != Read(f, c, d, Prefix(c, start', TotalSteps(c)))
  {
    hide StepOf, StepsPerEpoch, ReadStep, Apart, TotalSteps, OrderAt;
    var s, o' := StepsPerEpoch(c), OrderAt(c, start', [], j);
    OtherStep(c, d, j / s, j % s, OrderAt(c, start, cuts, j), o');
    var f := Apart(d.samples, o');
    assert Read(f, c, d, Lineage(c, start, cuts, TotalSteps(c)))[j]
        != Read(f, c, d, Prefix(c, start', TotalSteps(c)))[j];
  }

  // A redraw shows between the first step of its epoch and the step it was made at.
  lemma {:induction false} RedrawShows(c: Config, cuts: seq<nat>, i: nat, j: nat)
    requires ValidConfig(c) && i < |cuts| && Inside(c, cuts[i]) && j < cuts[i]
    ensures Redraws(c, cuts, j) < Redraws(c, cuts, cuts[i])
  {
    hide Inside;
    var n := |cuts| - 1;
    if i < n {
      RedrawShows(c, cuts[..n], i, j);
    } else {
      RedrawsMonotone(c, cuts[..n], j, cuts[i]);
    }
  }

  lemma {:induction false} RedrawsMonotone(c: Config, cuts: seq<nat>, j: nat, k: nat)
    requires ValidConfig(c) && j <= k
    ensures Redraws(c, cuts, j) <= Redraws(c, cuts, k)
  {
    if cuts != [] {
      RedrawsMonotone(c, cuts[..|cuts| - 1], j, k);
    }
  }

  // The first step of the epoch that step k is in.
  lemma EpochFirst(c: Config, k: nat)
    requires ValidConfig(c) && Inside(c, k) && k <= TotalSteps(c)
    ensures var s := StepsPerEpoch(c);
      0 <= k / s * s < k < TotalSteps(c) && k / s * s / s == k / s && c.batches >= 2
  {
    var s := StepsPerEpoch(c);
    Monotone(0, k / s, s);
    assert k == k / s * s + k % s;
    AddMultiple(k / s, s, 0);
    assert TotalSteps(c) == c.epochs * s;
    AddMultiple(c.epochs, s, 0);
    CeilAtMost(1, c.batches, c.accumulation);
  }

  // After a resume inside an epoch the chain is like no uninterrupted run at all, for some orders.
  lemma UnlikeAnyRun(c: Config, d: Data, start: Generator, cuts: seq<nat>, i: nat, start': Generator)
    requires ValidConfig(c) && Fits(c, d) && !c.distributed && i < |cuts| && cuts[i] <= TotalSteps(c) && Inside(c, cuts[i])
    ensures !AsUninterrupted(c, d, Lineage(c, start, cuts, TotalSteps(c)), start')
  {
    hide StepsPerEpoch, TotalSteps, Redraws, Read, Lineage, Apart;
    var k, s := cuts[i], StepsPerEpoch(c);
    EpochFirst(c, k);
    var first: nat := k / s * s;
    BatchInside(c, d, 1);
    RedrawShows(c, cuts, i, first);
    NoRedraws(c, [], first);
    NoRedraws(c, [], k);
    var j := if OrderAt(c, start, cuts, k) != OrderAt(c, start', [], k) then k else first;
    OtherAt(c, d, start, cuts, start', j);
    ApartIsShuffle(d, OrderAt(c, start', [], j));
  }

  // The chain has been trained on the uninterrupted run's samples, whatever orders are drawn, exactly when the order depends
  // on the epoch alone or no process of the chain resumed inside an epoch.
  lemma SameSamplesIff(c: Config, d: Data, start: Generator, cuts: seq<nat>)
    requires ValidConfig(c) && Fits(c, d) && AllAtMost(cuts, TotalSteps(c))
    ensures AsUninterrupted(c, d, Lineage(c, start, cuts, TotalSteps(c)), start)
       <==> c.distributed || forall i :: 0 <= i < |cuts| ==> !Inside(c, cuts[i])
  {
    hide Read, Lineage, Inside, StepsPerEpoch;
    if c.distributed {
      forall f: Shuffle | IsShuffle(f, d)
        ensures Read(f, c, d, Lineage(c, start, cuts, TotalSteps(c))) == Read(f, c, d, Prefix(c, start, TotalSteps(c)))
      {
        EpochOrderReadsSame(f, c, d, start, cuts, TotalSteps(c));
      }
    } else if i :| 0 <= i < |cuts| && Inside(c, cuts[i]) {
      UnlikeAnyRun(c, d, start, cuts, i, start);
    } else {
      WholeEpochsOnly(c, start, cuts, TotalSteps(c));
    }
  }

  // ---- The condition on the settings ----

  // Where checkpoints are written.
  ghost predicate SavedAt(c: Config, k: nat)
    requires ValidConfig(c)
  {
    k % c.saveSteps == 0 || k == TotalSteps(c)
  }

  // No checkpoint is written inside an epoch exactly when periodic checkpoints fall on epoch ends or never happen.
  lemma SavesInsideIff(c: Config)
    requires ValidConfig(c)
    ensures (exists k: nat :: k <= TotalSteps(c) && SavedAt(c, k) && Inside(c, k))
       <==> c.saveSteps < TotalSteps(c) && Inside(c, c.saveSteps)
  {
    hide Inside;
    if k: nat :| k <= TotalSteps(c) && SavedAt(c, k) && Inside(c, k) {
      hide TotalSteps;
      EpochFirst(c, k);
      MultipleInside(c, k);
    }
    if c.saveSteps < TotalSteps(c) && Inside(c, c.saveSteps) {
      AddMultiple(1, c.saveSteps, 0);
      assert SavedAt(c, c.saveSteps);
    }
  }

  lemma MultipleInside(c: Config, k: nat)
    requires ValidConfig(c) && Inside(c, k) && k % c.saveSteps == 0
    ensures c.saveSteps <= k && Inside(c, c.saveSteps)
  {
    hide CeilDiv;
    var s, v := StepsPerEpoch(c), c.saveSteps;
    var q := k / v;
    assert k == q * v;
    SmallQuotient(0, s);
    Monotone(1, q, v);
    MultipleOfMultiple(q, v, s);
  }

  lemma MultipleOfMultiple(q: nat, v: nat, s: nat)
    requires s > 0
    ensures v % s == 0 ==> q * v >= 0 && q * v % s == 0
  {
    hide Mul;
    if v % s == 0 {
      DivModMul(v, s);
      MulAssociates(q, v / s, s);
      MulDivMod(Mul(q, v / s), s, 0);
      assert Mul(q, v) == q * v by { MulIs(q, v); }
    }
  }

  lemma MulIs(a: nat, b: nat)
    ensures Mul(a, b) == a * b
  {
  }

  // ---- The failing input ----

  // Two samples, one per step, and a kill after the first step: the resumed process draws again, trains on the first sample
  // twice, and the other one is never seen.
  lemma RedrawnEpoch()
    ensures var c, d, start := Config(2, 1, 1, 1, 1, false), Data(2, 1), Generator(0, 0);
      var f: Shuffle := x => if x == ByDraw(start) then [0, 1] else [1, 0];
      && IsShuffle(f, d)
      && Read(f, c, d, Prefix(c, start, 2)) == [[[0]], [[1]]]
      && Read(f, c, d, Lineage(c, start, [1], 2)) == [[[0]], [[0]]]
  {
    hide ReadStep, Rows;
    var c, d, start := Config(2, 1, 1, 1, 1, false), Data(2, 1), Generator(0, 0);
    var f: Shuffle := x => if x == ByDraw(start) then [0, 1] else [1, 0];
    assert IsOrder([0, 1], 2) && IsOrder([1, 0], 2);
    TwoSteps(start);
    ReadsOne(f, c, Batch(0, 0, start));
    ReadsOne(f, c, Batch(0, 1, start));
    ReadsOne(f, c, Batch(0, 1, Later(start, 1)));
  }

  lemma TwoSteps(start: Generator)
    ensures var c := Config(2, 1, 1, 1, 1, false);
      && Prefix(c, start, 2) == [[Batch(0, 0, start)], [Batch(0, 1, start)]]
      && Lineage(c, start, [1], 2) == [[Batch(0, 0, start)], [Batch(0, 1, Later(start, 1))]]
  {
    var c := Config(2, 1, 1, 1, 1, false);
    RedrawsCut(c, [], 1, 0);
    RedrawsCut(c, [], 1, 1);
    assert [] + [1] == [1];
    assert Redraws(c, [1], 0) == 0 && Redraws(c, [1], 1) == 1;
    FirstTwo(c, start, []);
    FirstTwo(c, start, [1]);
  }

  lemma FirstTwo(c: Config, start: Generator, cuts: seq<nat>)
    requires c == Config(2, 1, 1, 1, 1, false)
    ensures Lineage(c, start, cuts, 2)
         == [[Batch(0, 0, Later(start, Redraws(c, cuts, 0)))], [Batch(0, 1, Later(start, Redraws(c, cuts, 1)))]]
  {
    hide StepOf, Redraws;
    LineageNext(c, start, cuts, 0, 0);
    LineageNext(c, start, cuts, 0, 1);
    var o, o' := Later(start, Redraws(c, cuts, 0)), Later(start, Redraws(c, cuts, 1));
    StepShape(c, 0, o, 0);
    StepShape(c, 0, o', 1);
    assert StepsPerEpoch(c) == 2 && Lineage(c, start, cuts, 0) == [];
    assert StepOf(c, 0, o, 0) == [Batch(0, 0, o)] && StepOf(c, 0, o', 1) == [Batch(0, 1, o')];
  }

  lemma ReadsOne(f: Shuffle, c: Config, b: Batch)
    requires b.index < 2 && |f(OrderOf(c, b))| == 2
    ensures ReadStep(f, c, Data(2, 1), [b]) == [[f(OrderOf(c, b))[b.index]]]
  {
    assert Rows(f, c, Data(2, 1), b) == [f(OrderOf(c, b))[b.index]];
  }
}
