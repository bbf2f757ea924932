/** Gradient accumulation, checkpoints with their retention, and crash/resume of the KL trainer. */
module KlTrainer {
  import opened Arithmetic
  import opened KlSteps
  import opened KlSamples

  // Checkpoint directories, by step number. They outlive the processes.
  class Disk {
    var checkpoints: map<nat, Checkpoint>

    constructor ()
      ensures checkpoints == map[]
    {
      checkpoints := map[];
    }
  }

  // What is known of the processes of a job: the generators they began with, and the steps they resumed at.
  datatype Job = Job(generators: set<Generator>, resumed: set<nat>)

  ghost predicate CutsOf(c: Config, cuts: seq<nat>, k: nat, job: Job)
    requires ValidConfig(c)
  {
    forall i :: 0 <= i < |cuts| ==> cuts[i] <= k && cuts[i] in job.resumed && SavedAt(c, cuts[i])
  }

  // A checkpoint of step k holds the first k steps of some chain of the job's processes, and no pending gradients.
  ghost predicate Descends(c: Config, p: Checkpoint, k: nat, start: Generator, cuts: seq<nat>, job: Job)
    requires ValidConfig(c) && StepsPerEpoch(c) > 0
  {
    && start in job.generators && CutsOf(c, cuts, k, job)
    && p == Checkpoint(Lineage(c, start, cuts, k), [], DrawnAfter(c, start, cuts, k))
  }

  ghost predicate SoundAt(c: Config, p: Checkpoint, k: nat, job: Job)
    requires ValidConfig(c)
  {
    && 1 <= k <= TotalSteps(c) && SavedAt(c, k) && StepsPerEpoch(c) > 0
    && exists start, cuts :: Descends(c, p, k, start, cuts, job)
  }

  ghost predicate Sound(c: Config, checkpoints: map<nat, Checkpoint>, job: Job)
    requires ValidConfig(c)
  {
    forall k :: k in checkpoints ==> SoundAt(c, checkpoints[k], k, job)
  }

  ghost predicate NoneBeyond(checkpoints: map<nat, Checkpoint>, k: nat) {
    forall x :: x in checkpoints ==> x <= k
  }

  lemma SoundGrows(c: Config, checkpoints: map<nat, Checkpoint>, job: Job, job': Job)
    requires ValidConfig(c) && Sound(c, checkpoints, job)
    requires job.generators <= job'.generators && job.resumed <= job'.resumed
    ensures Sound(c, checkpoints, job')
  {
    hide Lineage, DrawnAfter, StepsPerEpoch, TotalSteps, SavedAt;
    forall k | k in checkpoints
      ensures SoundAt(c, checkpoints[k], k, job')
    {
      assert SoundAt(c, checkpoints[k], k, job);
      var start, cuts :| Descends(c, checkpoints[k], k, start, cuts, job);
      assert Descends(c, checkpoints[k], k, start, cuts, job');
    }
  }

  ghost predicate IsLatest(ks: set<nat>, latest: nat) {
    latest in ks && forall k :: k in ks ==> k <= latest
  }

  method LatestOf(ks: set<nat>) returns (latest: nat)
    requires ks != {}
    ensures IsLatest(ks, latest)
  {
    latest :| latest in ks;
    var rest := ks - {latest};
    while rest != {}
      invariant latest in ks && rest <= ks && forall k :: k in ks && k !in rest ==> k <= latest
      decreases |rest|
    {
      var k :| k in rest;
      rest := rest - {k};
      if k > latest {
        latest := k;
      }
    }
  }

  // ---- Retention ----

  // How many of the oldest saved paths are removed to keep `keep`.
  function Excess(keep: int, paths: seq<nat>): (n: nat)
    ensures n <= |paths|
  {
    if keep > 0 && |paths| > keep then |paths| - keep else 0
  }

  function AsSet(paths: seq<nat>): set<nat> {
    set i | 0 <= i < |paths| :: paths[i]
  }

  ghost predicate Ascending(paths: seq<nat>, last: nat) {
    && (forall i, j :: 0 <= i < j < |paths| ==> paths[i] < paths[j])
    && forall i :: 0 <= i < |paths| ==> paths[i] <= last
  }

  // The last multiple of the save interval.
  function LastDue(c: Config, k: nat): nat
    requires ValidConfig(c)
  {
    k - k % c.saveSteps
  }

  // This process's saved paths, oldest first, all on disk: the newest ones due since the process began, as many as are to
  // be kept.
  ghost predicate Listed(c: Config, paths: seq<nat>, checkpoints: map<nat, Checkpoint>, first: nat, k: nat)
    requires ValidConfig(c)
  {
    && Ascending(paths, k)
    && (forall i :: 0 <= i < |paths| ==> paths[i] in checkpoints)
    && (if LastDue(c, k) > first then paths != [] && paths[|paths| - 1] == LastDue(c, k) else paths == [])
    && Newest(c.saveSteps, c.keep, paths, first, k)
  }

  // The last `keep` multiples of v after `first` and up to k, or all of them.
  ghost predicate Newest(v: nat, keep: int, paths: seq<nat>, first: nat, k: nat)
    requires v > 0
  {
    var due := k / v - first / v;
    && |paths| == (if keep > 0 then Min(keep, due) else due)
    && forall i :: 0 <= i < |paths| ==> paths[i] % v == 0 && paths[i] / v == k / v - (|paths| - 1 - i)
  }

  lemma NewestSaved(v: nat, keep: int, paths: seq<nat>, first: nat, k: nat)
    requires v > 0 && first < k && k % v == 0 && Newest(v, keep, paths, first, k - 1)
    ensures var all := paths + [k];
      Newest(v, keep, all[Excess(keep, all)..], first, k)
  {
    Successor(k - 1, v);
    var all := paths + [k];
    var n := Excess(keep, all);
    assert forall i :: 0 <= i < |all| - n ==> all[n..][i] == all[n + i];
  }

  lemma NothingDue(c: Config, checkpoints: map<nat, Checkpoint>, first: nat)
    requires ValidConfig(c)
    ensures Listed(c, [], checkpoints, first, first)
  {
  }

  lemma ListedNext(c: Config, paths: seq<nat>, checkpoints: map<nat, Checkpoint>, first: nat, k: nat)
    requires ValidConfig(c) && Listed(c, paths, checkpoints, first, k) && first <= k
    ensures (k + 1) % c.saveSteps != 0 ==> Listed(c, paths, checkpoints, first, k + 1)
    ensures Ascending(paths, k + 1) && (forall i :: 0 <= i < |paths| ==> paths[i] < k + 1 && paths[i] in checkpoints)
  {
    Successor(k, c.saveSteps);
  }

  // The paths after a periodic save at step k.
  lemma ListedSaved(c: Config, paths: seq<nat>, before: map<nat, Checkpoint>, p: Checkpoint, first: nat, k: nat)
    requires ValidConfig(c) && first < k && k % c.saveSteps == 0 && Listed(c, paths, before, first, k - 1)
    ensures var all := paths + [k];
            var kept := if c.keep > 0 then Min(c.keep, |paths| + 1) else |paths| + 1;
      Listed(c, all[|all| - kept..], before[k := p] - AsSet(all[..|all| - kept]), first, k)
  {
    hide Newest, AsSet, Ascending, Listed, LastDue;
    var all := paths + [k];
    var n := Excess(c.keep, all);
    ListedParts(c, paths, before, first, k);
    NewestSaved(c.saveSteps, c.keep, paths, first, k);
    SuffixStays(paths, k, n);
    SuffixStored(paths, before, p, k, n);
    assert all[n..][|all| - n - 1] == k;
    assert all[n..] != [] && |all| - n == if c.keep > 0 then Min(c.keep, |paths| + 1) else |paths| + 1;
    ListedFrom(c, all[n..], before[k := p] - AsSet(all[..n]), first, k);
  }

  lemma ListedParts(c: Config, paths: seq<nat>, before: map<nat, Checkpoint>, first: nat, k: nat)
    requires ValidConfig(c) && first < k && k % c.saveSteps == 0 && Listed(c, paths, before, first, k - 1)
    ensures LastDue(c, k) == k && Ascending(paths, k - 1) && Newest(c.saveSteps, c.keep, paths, first, k - 1)
    ensures forall i :: 0 <= i < |paths| ==> paths[i] in before
  {
  }

  lemma ListedFrom(c: Config, paths: seq<nat>, checkpoints: map<nat, Checkpoint>, first: nat, k: nat)
    requires ValidConfig(c) && Ascending(paths, k) && Newest(c.saveSteps, c.keep, paths, first, k)
    requires forall i :: 0 <= i < |paths| ==> paths[i] in checkpoints
    requires LastDue(c, k) == k > first && paths != [] && paths[|paths| - 1] == k
    ensures Listed(c, paths, checkpoints, first, k)
  {
  }

  lemma SuffixStored(paths: seq<nat>, before: map<nat, Checkpoint>, p: Checkpoint, k: nat, n: nat)
    requires n <= |paths| && (forall i :: 0 <= i < |paths| ==> paths[i] in before)
    requires var all := paths + [k]; forall i :: n <= i < |all| ==> all[i] !in AsSet(all[..n])
    ensures var all := paths + [k];
      forall i :: 0 <= i < |all| - n ==> all[n..][i] in before[k := p] - AsSet(all[..n])
  {
    hide AsSet;
    var all := paths + [k];
    assert forall i :: 0 <= i < |all| - n ==> all[n..][i] == all[n + i];
  }

  // The newest paths stay in order, and apart from those removed.
  lemma SuffixStays(paths: seq<nat>, k: nat, n: nat)
    requires k > 0 && Ascending(paths, k - 1) && n <= |paths|
    ensures var all := paths + [k];
      Ascending(all[n..], k) && forall i :: n <= i < |all| ==> all[i] !in AsSet(all[..n])
  {
    var all := paths + [k];
    assert forall i, j :: 0 <= i < j < |all| ==> all[i] < all[j];
  }

  lemma FrontBelow(paths: seq<nat>, last: nat, n: nat)
    requires Ascending(paths, last) && n < |paths|
    ensures last !in AsSet(paths[..n])
  {
    assert forall i :: 0 <= i < n ==> paths[i] < paths[|paths| - 1] <= last;
  }

  // The last save of a process leaves its checkpoint exactly when it does not evict it: with one to keep, the same path
  // registered before is removed.
  lemma LastSaveKept(keep: int, paths: seq<nat>, k: nat)
    requires Ascending(paths, k)
    ensures var all := paths + [k];
      k in AsSet(all[..|all| - (if keep > 0 then Min(keep, |all|) else |all|)]) <==> keep == 1 && k in paths
  {
    var all := paths + [k];
    var n := Excess(keep, all);
    assert forall j :: 0 <= j < |paths| - 1 ==> paths[j] < paths[|paths| - 1];
    if k in paths {
      var i :| 0 <= i < |paths| && paths[i] == k;
      if keep == 1 {
        assert all[..n][i] == k;
      }
    }
    if k in AsSet(all[..n]) {
      var i :| 0 <= i < n && all[..n][i] == k;
      assert i < |paths| && paths[i] == k;
    }
  }

  lemma LastRetained(c: Config, paths: seq<nat>, before: map<nat, Checkpoint>, p: Checkpoint, first: nat, k: nat)
    requires ValidConfig(c) && Listed(c, paths, before, first, k)
    ensures var all := paths + [k];
            var kept := if c.keep > 0 then Min(c.keep, |paths| + 1) else |paths| + 1;
            var saves := k / c.saveSteps - first / c.saveSteps + 1;
      && kept == (if c.keep > 0 then Min(c.keep, saves) else saves)
      && (c.keep != 1 ==>
            forall i :: |all| - kept <= i < |all| ==> all[i] in before[k := p] - AsSet(all[..|all| - kept]))
  {
    var all := paths + [k];
    var n := Excess(c.keep, all);
    if c.keep != 1 {
      forall i | n <= i < |all|
        ensures all[i] !in AsSet(all[..n])
      {
        if i == |paths| && n > 0 {
          FrontBelow(paths, k, n);
          assert all[..n] == paths[..n];
        }
      }
    }
  }

  // ---- One process ----

  datatype Outcome = Finished | Crashed | NoStepError

  // Where a process's parameters come from: steps that do not count, the chain it goes on with, and the step count it
  // begins at.
  datatype Origin = Origin(base: seq<Step>, start: Generator, cuts: seq<nat>, first: nat)

  /** One process. It is killed when its engine has performed `budget` actions. */
  class KlTrainer {
    const c: Config
    const continueMode: bool
    const disk: Disk
    var globalStep: nat
    var epoch: nat
    var model: seq<Step>
    var grads: seq<Batch>
    var rng: Generator
    var previousSavedPaths: seq<nat>
    var budget: nat

    constructor (c: Config, continueMode: bool, disk: Disk, rng: Generator, budget: nat)
      ensures this.c == c && this.continueMode == continueMode && this.disk == disk && this.rng == rng && this.budget == budget
      ensures globalStep == 0 && model == [] && grads == [] && previousSavedPaths == []
    {
      this.c, this.continueMode, this.disk, this.rng, this.budget := c, continueMode, disk, rng, budget;
      globalStep, epoch, model, grads, previousSavedPaths := 0, 0, [], [], [];
    }

    ghost predicate Trained(o: Origin, job: Job)
      reads this`globalStep, this`model
    {
      && ValidConfig(c) && o.first <= globalStep <= TotalSteps(c) && (globalStep > 0 ==> StepsPerEpoch(c) > 0)
      && model == o.base + Lineage(c, o.start, o.cuts, globalStep)
      && CutsOf(c, o.cuts, o.first, job)
    }

    // When continuing, the checkpoints on disk stay usable.
    ghost predicate Stored(o: Origin, job: Job)
      requires ValidConfig(c)
      reads this`globalStep, disk
    {
      continueMode ==>
        && o.base == [] && o.start in job.generators && Sound(c, disk.checkpoints, job)
        && NoneBeyond(disk.checkpoints, globalStep)
    }

    ghost predicate WithinKeep()
      reads this`previousSavedPaths
    {
      c.keep > 0 ==> |previousSavedPaths| <= c.keep
    }

    // Makes room before a save, unless only one checkpoint is kept.
    method EnsureCheckpointCapacity(ghost o: Origin, ghost job: Job)
      requires Trained(o, job) && Stored(o, job) && globalStep > 0
      requires SavedAt(c, globalStep) && Ascending(previousSavedPaths, globalStep)
      modifies disk, this`previousSavedPaths
      ensures Trained(o, job) && Stored(o, job)
      ensures var n := if c.keep > 1 && |old(previousSavedPaths)| >= c.keep then |old(previousSavedPaths)| - c.keep + 1 else 0;
        && n <= |old(previousSavedPaths)| && previousSavedPaths == old(previousSavedPaths)[n..]
        && disk.checkpoints == old(disk.checkpoints) - AsSet(old(previousSavedPaths)[..n])
        && globalStep !in AsSet(old(previousSavedPaths)[..n])
    {
      hide Lineage, DrawnAfter, StepsPerEpoch, TotalSteps, Sound;
      if c.keep > 1 && |previousSavedPaths| >= c.keep {
        var keepStart := |previousSavedPaths| - c.keep + 1;
        FrontBelow(previousSavedPaths, globalStep, keepStart);
        Removed(o, job, AsSet(previousSavedPaths[..keepStart]));
        disk.checkpoints := disk.checkpoints - AsSet(previousSavedPaths[..keepStart]);
        previousSavedPaths := previousSavedPaths[keepStart..];
      }
    }

    // Registers a saved checkpoint and removes the oldest ones in excess.
    method RegisterCheckpoint(ghost o: Origin, ghost job: Job)
      requires Trained(o, job) && Stored(o, job) && globalStep > 0 && SavedAt(c, globalStep)
      modifies disk, this`previousSavedPaths
      ensures Trained(o, job) && Stored(o, job) && WithinKeep()
      ensures var all := old(previousSavedPaths) + [globalStep];
        && |previousSavedPaths| == (if c.keep > 0 then Min(c.keep, |all|) else |all|)
        && previousSavedPaths == all[|all| - |previousSavedPaths|..]
        && disk.checkpoints == old(disk.checkpoints) - AsSet(all[..|all| - |previousSavedPaths|])
    {
      hide Lineage, DrawnAfter, StepsPerEpoch, TotalSteps, Sound;
      previousSavedPaths := previousSavedPaths + [globalStep];
      if c.keep > 0 && |previousSavedPaths| > c.keep {
        var keepStart := |previousSavedPaths| - c.keep;
        Removed(o, job, AsSet(previousSavedPaths[..keepStart]));
        disk.checkpoints := disk.checkpoints - AsSet(previousSavedPaths[..keepStart]);
        previousSavedPaths := previousSavedPaths[keepStart..];
      }
    }

    lemma Removed(o: Origin, job: Job, paths: set<nat>)
      requires Trained(o, job) && Stored(o, job)
      ensures continueMode ==>
                Sound(c, disk.checkpoints - paths, job) && NoneBeyond(disk.checkpoints - paths, globalStep)
    {
      hide SoundAt, TotalSteps, Lineage;
    }

    lemma Added(o: Origin, job: Job, p: Checkpoint)
      requires Trained(o, job) && Stored(o, job) && globalStep > 0 && SavedAt(c, globalStep)
      requires p == Checkpoint(model, [], DrawnAfter(c, o.start, o.cuts, globalStep))
      ensures continueMode ==>
                Sound(c, disk.checkpoints[globalStep := p], job) && NoneBeyond(disk.checkpoints[globalStep := p], globalStep)
    {
      hide Lineage, StepsPerEpoch, TotalSteps, SavedAt, DrawnAfter;
      if continueMode {
        assert Descends(c, p, globalStep, o.start, o.cuts, job);
        assert SoundAt(c, p, globalStep, job);
      }
    }

    // Writing and registering are two actions; a kill can prevent either.
    method SaveCheckpoint(ghost o: Origin, ghost job: Job) returns (alive: bool)
      requires Trained(o, job) && Stored(o, job) && globalStep > 0 && grads == []
      requires SavedAt(c, globalStep) && rng == DrawnAfter(c, o.start, o.cuts, globalStep)
      requires Ascending(previousSavedPaths, globalStep)
      modifies disk, this`budget, this`previousSavedPaths
      ensures Trained(o, job) && Stored(o, job)
      ensures var all := old(previousSavedPaths) + [globalStep];
              var kept := if c.keep > 0 then Min(c.keep, |old(previousSavedPaths)| + 1) else |old(previousSavedPaths)| + 1;
              var n, written := |all| - kept, old(disk.checkpoints)[globalStep := Checkpoint(model, [], rng)];
        if alive then previousSavedPaths == all[n..] && disk.checkpoints == written - AsSet(all[..n])
        else disk.checkpoints == (if old(budget) == 0 then old(disk.checkpoints) else written)
                                 - (if c.keep > 1 then AsSet(all[..n]) else {})
      ensures alive ==> old(budget) == budget + 2 && WithinKeep()
      ensures !alive ==> budget == 0 && old(budget) < 2
    {
      hide Sound, Lineage, DrawnAfter, TotalSteps, Ascending, SavedAt;
      ghost var all := previousSavedPaths + [globalStep];
      ghost var n := Excess(c.keep, all);
      ghost var m := if c.keep > 1 then n else 0;
      EnsureCheckpointCapacity(o, job);
      assert all[..m] == old(previousSavedPaths)[..m];
      if budget == 0 {
        return false;
      }
      budget := budget - 1;
      Added(o, job, Checkpoint(model, grads, rng));
      disk.checkpoints := disk.checkpoints[globalStep := Checkpoint(model, grads, rng)];
      if budget == 0 {
        return false;
      }
      budget := budget - 1;
      RegisterCheckpoint(o, job);
      alive := true;
    }

    // The optimizer step on the pending gradients, and the periodic save.
    method OptimizerStep(ghost o: Origin, ghost job: Job) returns (alive: bool)
      requires Trained(o, job) && Stored(o, job) && globalStep + 1 <= TotalSteps(c) && StepsPerEpoch(c) > 0
      requires Lineage(c, o.start, o.cuts, globalStep + 1) == Lineage(c, o.start, o.cuts, globalStep) + [grads]
      requires rng == DrawnAfter(c, o.start, o.cuts, globalStep + 1)
      requires Listed(c, previousSavedPaths, disk.checkpoints, o.first, globalStep)
      modifies disk, this`budget, this`globalStep, this`model, this`grads, this`previousSavedPaths
      ensures Trained(o, job) && Stored(o, job)
      ensures var actions := if (old(globalStep) + 1) % c.saveSteps == 0 then 3 else 1;
        if alive then old(budget) == budget + actions else budget == 0 && old(budget) < actions
      ensures alive ==>
                && globalStep == old(globalStep) + 1 && grads == []
                && Listed(c, previousSavedPaths, disk.checkpoints, o.first, globalStep)
    {
      hide Lineage, DrawnAfter, StepsPerEpoch, TotalSteps, Sound, Listed, AsSet;
      if budget == 0 {
        return false;
      }
      budget := budget - 1;
      ListedNext(c, previousSavedPaths, disk.checkpoints, o.first, globalStep);
      ghost var before := disk.checkpoints;
      model := model + [grads];
      grads := [];
      globalStep := globalStep + 1;
      alive := true;
      if globalStep % c.saveSteps == 0 {
        alive := SaveCheckpoint(o, job);
        if alive {
          ListedSaved(c, old(previousSavedPaths), before, Checkpoint(model, [], rng), o.first, globalStep);
        }
      }
    }

    lemma TrainedFacts(o: Origin, job: Job)
      requires Trained(o, job)
      ensures ValidConfig(c) && AllAtMost(o.cuts, globalStep)
    {
      hide Lineage, SavedAt, TotalSteps, StepsPerEpoch;
    }

    // A kill before a backward pass leaves the state of that batch's start.
    ghost predicate KilledAt(o: Origin, total: nat)
      requires ValidConfig(c)
      reads this, disk
    {
      forall b :: 0 <= b < c.batches && total == Clock(c, epoch, b) ==>
                    && globalStep == StepAt(c, epoch, b)
                    && Listed(c, previousSavedPaths, disk.checkpoints, o.first, globalStep)
    }

    method TrainEpoch(skipBatches: nat, ghost o: Origin, ghost job: Job) returns (alive: bool)
      requires Trained(o, job) && Stored(o, job) && epoch < c.epochs && AtBatch(c, epoch, skipBatches, globalStep)
      requires Listed(c, previousSavedPaths, disk.checkpoints, o.first, globalStep)
      requires rng == Later(o.start, epoch + Redraws(c, o.cuts, globalStep))
      modifies disk, this`budget, this`globalStep, this`model, this`grads, this`previousSavedPaths, this`rng
      ensures Trained(o, job) && Stored(o, job)
      ensures alive ==>
                && grads == [] && AtBatch(c, epoch + 1, 0, globalStep)
                && Listed(c, previousSavedPaths, disk.checkpoints, o.first, globalStep)
                && rng == Later(o.start, epoch + 1 + Redraws(c, o.cuts, globalStep))
                && old(budget) + Clock(c, epoch, skipBatches) == budget + Clock(c, epoch + 1, 0)
      ensures !alive ==>
                && budget == 0 && old(budget) + Clock(c, epoch, skipBatches) < Clock(c, epoch + 1, 0)
                && KilledAt(o, old(budget) + Clock(c, epoch, skipBatches))
    {
      hide Lineage, StepOf, Pending, StepsAfter, StepsPerEpoch, TotalSteps, StepAt, DrawnAfter, Redraws, Clock, Listed, Sound,
           AtBatch, Stored, Trained, ShouldStep, Due;
      TrainedFacts(o, job);
      var order := rng;
      rng := Later(rng, 1);
      grads := [];
      StartsAt(c, epoch, skipBatches, globalStep);
      EpochStart(c, epoch, order, skipBatches);
      ghost var total := old(budget) + Clock(c, epoch, skipBatches);
      for batchIdx := 0 to c.batches
        invariant Trained(o, job) && Stored(o, job) && Listed(c, previousSavedPaths, disk.checkpoints, o.first, globalStep)
        invariant globalStep == StepAt(c, epoch, if batchIdx < skipBatches then skipBatches else batchIdx)
        invariant grads == Pending(c, epoch, order, if batchIdx < skipBatches then skipBatches else batchIdx)
        invariant rng == Later(order, 1) && order == Later(o.start, epoch + Redraws(c, o.cuts, globalStep))
        invariant total == budget + Clock(c, epoch, if batchIdx < skipBatches then skipBatches else batchIdx)
      {
        if batchIdx < skipBatches {
          continue;
        }
        ClockNext(c, epoch, batchIdx);
        DueIs(c, batchIdx, globalStep);
        KillPlace(c, epoch, batchIdx, total);
        if budget == 0 {
          return false;
        }
        budget := budget - 1;
        grads := grads + [Batch(epoch, batchIdx, order)];
        var shouldStep := ShouldStep(c, batchIdx);
        if shouldStep {
          StepTaken(c, o.start, o.cuts, epoch, batchIdx, order);
          TrainedFacts(o, job);
          RedrawsPast(c, o.cuts, globalStep, globalStep + 1);
          DrawnInside(c, o.start, o.cuts, epoch, batchIdx + 1);
          var ok := OptimizerStep(o, job);
          if !ok {
            return false;
          }
        } else {
          NoStepTaken(c, epoch, order, batchIdx);
          StepAtSame(c, epoch, batchIdx, batchIdx + 1);
        }
      }
      EpochEnd(c, epoch, order);
      ClockEnd(c, epoch);
      alive := true;
    }

    // The parameters and the generator are the latest checkpoint's; its step count is taken over only when continuing.
    ghost predicate LoadedLatest(history: map<nat, Checkpoint>)
      reads this`model, this`globalStep, this`rng
    {
      exists latest: nat :: IsLatest(history.Keys, latest) && model == history[latest].model && rng == history[latest].rng
                            && globalStep == (if continueMode then latest else 0)
    }

    // The run starts from nothing, or over the latest checkpoint's parameters when it does not continue.
    ghost predicate BaseOf(base: seq<Step>, history: map<nat, Checkpoint>) {
      if continueMode || history == map[] then base == []
      else exists latest: nat :: IsLatest(history.Keys, latest) && base == history[latest].model
    }

    // Which chain is gone on with.
    ghost predicate Continues(o: Origin, history: map<nat, Checkpoint>, own: Generator, resumedStep: nat) {
      && o.first == resumedStep && BaseOf(o.base, history)
      && (history == map[] ==> o.start == own && o.cuts == [] && resumedStep == 0)
      && (!continueMode ==> o.cuts == [] && resumedStep == 0)
      && (continueMode && history != map[] ==>
            IsLatest(history.Keys, resumedStep) && o.cuts != [] && o.cuts[|o.cuts| - 1] == resumedStep)
    }

    // The chain that a sound checkpoint is the end of goes on with one cut more.
    lemma Resume(job: Job, p: Checkpoint, k: nat) returns (start: Generator, cuts: seq<nat>)
      requires ValidConfig(c) && SoundAt(c, p, k, job)
      ensures start in job.generators && p.model == Lineage(c, start, cuts + [k], k)
      ensures CutsOf(c, cuts + [k], k, Job(job.generators, job.resumed + {k}))
      ensures p.rng == Later(start, EpochOf(c, k) + Redraws(c, cuts + [k], k))
    {
      hide Lineage, DrawnAfter, Redraws, StepsPerEpoch, TotalSteps, SavedAt;
      start, cuts :| Descends(c, p, k, start, cuts, job);
      LineageCut(c, start, cuts, k);
      DrawnResumed(c, start, cuts, k);
    }

    method MaybeResumeFromCheckpoint(ghost job: Job) returns (alive: bool, ghost o: Origin, ghost job': Job)
      requires ValidConfig(c) && (continueMode ==> Sound(c, disk.checkpoints, job))
      requires globalStep == 0 && model == [] && previousSavedPaths == [] && rng in job.generators
      modifies this`budget, this`globalStep, this`model, this`rng
      ensures job' == Job(job.generators, job.resumed + {globalStep})
      ensures alive ==>
                && Trained(o, job') && Stored(o, job') && Continues(o, disk.checkpoints, old(rng), globalStep)
                && rng == Later(o.start, EpochOf(c, globalStep) + Redraws(c, o.cuts, globalStep))
      ensures alive && disk.checkpoints == map[] ==> model == [] && globalStep == 0 && rng == old(rng)
      ensures alive && disk.checkpoints != map[] ==> LoadedLatest(disk.checkpoints)
      ensures alive ==> old(budget) == budget + if disk.checkpoints == map[] then 0 else 1
      ensures !alive ==> disk.checkpoints != map[] && budget == old(budget) == 0 && globalStep == 0
    {
      hide Lineage, Redraws, StepsPerEpoch, TotalSteps, SavedAt, SoundAt, IsLatest;
      o, job' := Origin([], rng, [], 0), Job(job.generators, job.resumed + {0});
      NoStepsYet(c, rng);
      if |disk.checkpoints.Keys| == 0 {
        assert disk.checkpoints == map[];
        return true, o, job';
      }
      if budget == 0 {
        return false, o, job';
      }
      budget := budget - 1;
      var latest := LatestOf(disk.checkpoints.Keys);
      assert latest in disk.checkpoints && NoneBeyond(disk.checkpoints, latest) by { LatestIsLast(disk.checkpoints, latest); }
      model := disk.checkpoints[latest].model;
      rng := disk.checkpoints[latest].rng;
      globalStep := if continueMode then latest else 0;
      job' := Job(job.generators, job.resumed + {globalStep});
      if continueMode {
        SoundGrows(c, disk.checkpoints, job, job');
        assert SoundAt(c, disk.checkpoints[latest], latest, job);
        var start, cuts := Resume(job, disk.checkpoints[latest], latest);
        SoundBounds(c, disk.checkpoints[latest], latest, job);
        o := Origin([], start, cuts + [latest], latest);
      } else {
        NoStepsYet(c, rng);
        o := Origin(model, rng, [], 0);
      }
      alive := true;
    }

    lemma InRange(o: Origin, job: Job)
      requires Trained(o, job)
      ensures ValidConfig(c) && o.first <= globalStep <= TotalSteps(c) && (globalStep > 0 ==> StepsPerEpoch(c) > 0)
    {
      hide Lineage, SavedAt, TotalSteps, StepsPerEpoch;
    }

    lemma AtTheEnd()
      requires ValidConfig(c) && globalStep == TotalSteps(c)
      ensures SavedAt(c, globalStep)
    {
    }

    lemma StoredIsSound(o: Origin, job: Job)
      requires ValidConfig(c) && Stored(o, job)
      ensures continueMode ==> Sound(c, disk.checkpoints, job) && o.start in job.generators
    {
    }

    lemma BeginsAt(o: Origin, history: map<nat, Checkpoint>, own: Generator, resumedStep: nat)
      requires Continues(o, history, own, resumedStep)
      ensures o.first == resumedStep && (history == map[] ==> resumedStep == 0)
    {
    }

    // A process begins at the last step exactly when it continues from the last checkpoint.
    lemma FirstAtEnd(o: Origin, history: map<nat, Checkpoint>, own: Generator, resumedStep: nat, job: Job)
      requires ValidConfig(c) && Continues(o, history, own, resumedStep) && TotalSteps(c) > 0 && o.first <= TotalSteps(c)
      requires continueMode ==> Sound(c, history, job)
      ensures KeepsFinal(c, continueMode, history)
         <==> !(c.keep == 1 && TotalSteps(c) % c.saveSteps == 0 && o.first < TotalSteps(c))
    {
      hide SoundAt, TotalSteps;
      if continueMode && TotalSteps(c) in history {
        assert SoundAt(c, history[resumedStep], resumedStep, job);
        SoundBounds(c, history[resumedStep], resumedStep, job);
      }
    }

    // Killed before the backward pass of some batch of a run from nothing.
    ghost predicate KilledFresh(total: nat)
      requires ValidConfig(c)
      reads this, disk
    {
      forall e, b :: 0 <= e < c.epochs && 0 <= b < c.batches && total == Clock(c, e, b) ==>
                       && globalStep == StepAt(c, e, b)
                       && Listed(c, previousSavedPaths, disk.checkpoints, 0, globalStep)
                       && (continueMode ==> NoneBeyond(disk.checkpoints, globalStep))
    }

    lemma KilledInEpoch(o: Origin, job: Job, total: nat)
      requires Trained(o, job) && Stored(o, job) && o.first == 0 && epoch < c.epochs
      requires Clock(c, epoch, 0) <= total < Clock(c, epoch + 1, 0) && KilledAt(o, total)
      ensures KilledFresh(total)
    {
      hide Lineage, Clock, StepAt, Listed, StepsPerEpoch, TotalSteps, Sound;
      forall e, b | 0 <= e < c.epochs && 0 <= b < c.batches && total == Clock(c, e, b)
        ensures e == epoch
      {
        ClockEpochPlace(c, epoch, total, e, b);
      }
    }

    lemma KilledAtEnd(total: nat)
      requires ValidConfig(c) && total >= Clock(c, c.epochs, 0)
      ensures KilledFresh(total)
    {
      hide Clock, StepAt, Listed;
      forall e, b | 0 <= e < c.epochs && 0 <= b < c.batches && total == Clock(c, e, b)
        ensures false
      {
        ClockBeforeEnd(c, e, b, c.epochs);
      }
    }

    // After its last save a process has registered its newest periodic checkpoints and the last one, as many as are to be
    // kept, and they are on disk unless only one is kept.
    ghost predicate Retained(first: nat)
      requires ValidConfig(c)
      reads this`previousSavedPaths, this`globalStep, disk
    {
      var saves := globalStep / c.saveSteps - first / c.saveSteps + 1;
      && |previousSavedPaths| == (if c.keep > 0 then Min(c.keep, saves) else saves)
      && (c.keep != 1 ==> forall i :: 0 <= i < |previousSavedPaths| ==> previousSavedPaths[i] in disk.checkpoints)
    }

    // The save after the last epoch: with one checkpoint to keep, it removes its own if the path was registered before.
    method SaveLast(ghost o: Origin, ghost job: Job) returns (alive: bool)
      requires Trained(o, job) && Stored(o, job) && globalStep == TotalSteps(c) > 0 && grads == []
      requires Listed(c, previousSavedPaths, disk.checkpoints, o.first, globalStep)
      requires rng == Later(o.start, c.epochs + Redraws(c, o.cuts, globalStep))
      modifies disk, this`budget, this`previousSavedPaths
      ensures Trained(o, job) && Stored(o, job)
      ensures alive ==>
                && (globalStep in disk.checkpoints <==> !(c.keep == 1 && globalStep % c.saveSteps == 0 && o.first < globalStep))
                && (globalStep in disk.checkpoints ==> disk.checkpoints[globalStep] == Checkpoint(model, [], rng))
                && old(budget) == budget + 2
                && Retained(o.first)
      ensures !alive ==> budget == 0 && old(budget) < 2
    {
      hide Lineage, Redraws, DrawnAfter, StepsPerEpoch, TotalSteps, Sound, Listed, SavedAt, Stored, Trained;
      InRange(o, job);
      AtTheEnd();
      DrawnAtEnd(c, o.start, o.cuts);
      ListedHas(c, previousSavedPaths, disk.checkpoints, o.first, globalStep);
      LastSaveKept(c.keep, previousSavedPaths, globalStep);
      ghost var paths, before := previousSavedPaths, disk.checkpoints;
      alive := SaveCheckpoint(o, job);
      if alive {
        LastRetained(c, paths, before, Checkpoint(model, [], rng), o.first, globalStep);
      }
    }

    method Train(ghost job: Job) returns (outcome: Outcome, resumedStep: nat, ghost o: Origin, ghost job': Job)
      requires ValidConfig(c) && (continueMode ==> Sound(c, disk.checkpoints, job)) && rng in job.generators
      requires globalStep == 0 && model == [] && grads == [] && previousSavedPaths == []
      modifies this, disk
      ensures job' == Job(job.generators, job.resumed + {resumedStep})
      ensures continueMode ==> Sound(c, disk.checkpoints, job')
      ensures outcome == Finished ==>
                && Trained(o, job') && Continues(o, old(disk.checkpoints), old(rng), resumedStep)
                && (continueMode ==> o.start in job.generators)
                && globalStep == TotalSteps(c) > 0
                && (globalStep in disk.checkpoints <==> KeepsFinal(c, continueMode, old(disk.checkpoints)))
                && (globalStep in disk.checkpoints ==> disk.checkpoints[globalStep] == Checkpoint(model, [], rng))
                && Retained(resumedStep)
      ensures outcome == NoStepError ==> TotalSteps(c) == 0
      ensures outcome == Crashed ==> budget == 0 && old(budget) < Enough(c)
      ensures old(disk.checkpoints) == map[] && outcome == Finished ==> old(budget) >= Clock(c, c.epochs, 0) + 2
      ensures old(disk.checkpoints) == map[] && outcome == Crashed ==> KilledFresh(old(budget))
    {
      hide Lineage, Redraws, DrawnAfter, StepsPerEpoch, TotalSteps, Sound, AtBatch, Clock, Listed, IsLatest, EpochOf, SavedAt,
           Stored, Trained, KilledAt, KilledFresh, LoadedLatest, Continues, KeepsFinal;
      ghost var history := disk.checkpoints;
      var alive;
      alive, o, job' := MaybeResumeFromCheckpoint(job);
      resumedStep := globalStep;
      if !alive {
        if continueMode {
          SoundGrows(c, disk.checkpoints, job, job');
        }
        return Crashed, resumedStep, o, job';
      }
      BeginsAt(o, history, old(rng), resumedStep);
      NothingDue(c, disk.checkpoints, o.first);
      InRange(o, job');
      ghost var load := if history == map[] then 0 else 1;
      var startEpoch, initialSkipBatches := PlanResume(c, globalStep);
      ghost var clock0 := Clock(c, startEpoch, initialSkipBatches);
      ClockEnd(c, 0);
      var e := startEpoch;
      while e < c.epochs
        invariant Trained(o, job') && Stored(o, job') && grads == []
        invariant Listed(c, previousSavedPaths, disk.checkpoints, o.first, globalStep)
        invariant startEpoch <= e <= c.epochs
        invariant e < c.epochs ==> AtBatch(c, e, if e == startEpoch then initialSkipBatches else 0, globalStep)
        invariant e == c.epochs ==> globalStep == TotalSteps(c)
        invariant rng == Later(o.start, e + Redraws(c, o.cuts, globalStep))
        invariant old(budget) + clock0 == budget + load + Clock(c, e, if e == startEpoch then initialSkipBatches else 0)
      {
        epoch := e;
        ghost var left := budget;
        alive := TrainEpoch(if e == startEpoch then initialSkipBatches else 0, o, job');
        if !alive {
          ClockEpochs(c, e + 1, c.epochs);
          StoredIsSound(o, job');
          if history == map[] {
            ClockEpochs(c, 0, e);
            KilledInEpoch(o, job', old(budget));
          }
          return Crashed, resumedStep, o, job';
        }
        e := e + 1;
        AfterLastEpoch(c, globalStep);
      }
      StoredIsSound(o, job');
      if globalStep == 0 {
        return NoStepError, resumedStep, o, job';
      }
      alive := SaveLast(o, job');
      StoredIsSound(o, job');
      outcome := if alive then Finished else Crashed;
      if history == map[] {
        KilledAtEnd(old(budget));
      }
      FirstAtEnd(o, history, old(rng), resumedStep, job);
    }
  }

  // A finished process leaves its last checkpoint unless only one is kept and the last step was also a periodic save of the
  // same process.
  ghost predicate KeepsFinal(c: Config, continueMode: bool, history: map<nat, Checkpoint>)
    requires ValidConfig(c)
  {
    c.keep != 1 || TotalSteps(c) % c.saveSteps != 0 || (continueMode && TotalSteps(c) in history)
  }

  lemma ListedHas(c: Config, paths: seq<nat>, checkpoints: map<nat, Checkpoint>, first: nat, k: nat)
    requires ValidConfig(c) && Listed(c, paths, checkpoints, first, k)
    ensures k in paths <==> k % c.saveSteps == 0 && k > first
    ensures Ascending(paths, k)
  {
    assert forall j :: 0 <= j < |paths| - 1 ==> paths[j] < paths[|paths| - 1];
  }

  lemma AfterLastEpoch(c: Config, step: nat)
    requires ValidConfig(c)
    ensures AtBatch(c, c.epochs, 0, step) ==> step == TotalSteps(c)
  {
    SmallQuotient(0, c.accumulation);
    assert c.epochs * StepsPerEpoch(c) == TotalSteps(c);
  }

  // Resuming at step k starts in the epoch and at the batch the uninterrupted run had reached.
  method PlanResume(c: Config, resumedStep: nat) returns (startEpoch: nat, initialSkipBatches: nat)
    requires ValidConfig(c) && resumedStep <= TotalSteps(c) && (resumedStep > 0 ==> StepsPerEpoch(c) > 0)
    ensures startEpoch == EpochOf(c, resumedStep) <= c.epochs
    ensures startEpoch < c.epochs ==> AtBatch(c, startEpoch, initialSkipBatches, resumedStep)
    ensures startEpoch == c.epochs ==> resumedStep == TotalSteps(c) && initialSkipBatches == 0
    ensures resumedStep == 0 ==> startEpoch == 0 && initialSkipBatches == 0
  {
    hide AtBatch, EpochOf, TotalSteps, CeilDiv;
    var optimStepsPerEpoch := CeilDiv(c.batches, c.accumulation);
    if optimStepsPerEpoch < 1 {
      optimStepsPerEpoch := 1;
    }
    startEpoch := resumedStep / optimStepsPerEpoch;
    var stepsDoneInEpoch := resumedStep % optimStepsPerEpoch;
    Monotone(0, stepsDoneInEpoch, c.accumulation);
    initialSkipBatches := stepsDoneInEpoch * c.accumulation;
    PlanIsExact(c, resumedStep, optimStepsPerEpoch);
  }

  lemma PlanIsExact(c: Config, k: nat, s: nat)
    requires ValidConfig(c) && k <= TotalSteps(c) && (k > 0 ==> StepsPerEpoch(c) > 0)
    requires s == if StepsPerEpoch(c) < 1 then 1 else StepsPerEpoch(c)
    ensures k % s * c.accumulation >= 0
    ensures k / s == EpochOf(c, k) <= c.epochs && (k / s < c.epochs ==> AtBatch(c, k / s, k % s * c.accumulation, k))
    ensures k / s == c.epochs ==> k == TotalSteps(c) && k % s * c.accumulation == 0
    ensures k == 0 ==> k / s == 0 && k % s * c.accumulation == 0
  {
    hide CeilDiv, AtBatch;
    if StepsPerEpoch(c) > 0 {
      EpochsDone(c, k);
      SkipIsWhole(c, k / s, k % s);
      SmallQuotient(0, s);
    } else {
      SmallQuotient(0, 1);
      NothingSkipped(c);
    }
  }

  lemma NothingSkipped(c: Config)
    requires ValidConfig(c)
    ensures AtBatch(c, 0, 0, 0)
  {
    SmallQuotient(0, c.accumulation);
  }

  lemma EpochsDone(c: Config, k: nat)
    requires ValidConfig(c) && k <= TotalSteps(c) && StepsPerEpoch(c) > 0
    ensures var s := StepsPerEpoch(c);
      k == k / s * s + k % s && k / s <= c.epochs && (k / s == c.epochs ==> k == TotalSteps(c) && k % s == 0)
  {
    hide CeilDiv;
    var s := StepsPerEpoch(c);
    assert k == k / s * s + k % s;
    assert TotalSteps(c) == c.epochs * s;
    if k / s > c.epochs {
      Monotone(c.epochs + 1, k / s, s);
      NextProduct(c.epochs, s);
    }
  }

  lemma SkipIsWhole(c: Config, epoch: nat, i: nat)
    requires ValidConfig(c) && i < StepsPerEpoch(c)
    ensures 0 <= i * c.accumulation && AtBatch(c, epoch, i * c.accumulation, epoch * StepsPerEpoch(c) + i)
  {
    hide CeilDiv;
    WindowStarts(c, i);
    Bracket(i, c.accumulation, i * c.accumulation);
  }

  lemma NoStepsYet(c: Config, start: Generator)
    requires ValidConfig(c)
    ensures Lineage(c, start, [], 0) == [] && Later(start, EpochOf(c, 0) + Redraws(c, [], 0)) == start
  {
    if StepsPerEpoch(c) > 0 {
      SmallQuotient(0, StepsPerEpoch(c));
    }
  }

  lemma LatestIsLast(checkpoints: map<nat, Checkpoint>, latest: nat)
    requires IsLatest(checkpoints.Keys, latest)
    ensures latest in checkpoints && NoneBeyond(checkpoints, latest)
  {
  }

  lemma SoundBounds(c: Config, p: Checkpoint, k: nat, job: Job)
    requires ValidConfig(c) && SoundAt(c, p, k, job)
    ensures 1 <= k <= TotalSteps(c) && StepsPerEpoch(c) > 0 && SavedAt(c, k)
  {
  }

  // ---- Jobs ----

  datatype Process = Process(rng: Generator, budget: nat)

  function Generators(ps: seq<Process>): set<Generator> {
    set i | 0 <= i < |ps| :: ps[i].rng
  }

  // A job restarted after every kill, each process with its own generator and budget, on one disk. resumed: the steps its
  // processes resumed at.
  method RestartUntilFinished(c: Config, processes: seq<Process>, ghost d: Data)
    returns (outcome: Outcome, model: seq<Step>, resumed: seq<nat>, ghost start: Generator, ghost cuts: seq<nat>)
    requires ValidConfig(c) && Fits(c, d)
    ensures outcome == Finished ==>
              && TotalSteps(c) > 0 && model == Lineage(c, start, cuts, TotalSteps(c)) && start in Generators(processes)
              && forall i :: 0 <= i < |cuts| ==> cuts[i] in resumed && cuts[i] <= TotalSteps(c) && SavedAt(c, cuts[i])
    ensures outcome == Finished ==>
              (AsUninterrupted(c, d, model, start) <==> c.distributed || forall i :: 0 <= i < |cuts| ==> !Inside(c, cuts[i]))
    ensures outcome == Finished && !(c.saveSteps < TotalSteps(c) && Inside(c, c.saveSteps)) ==>
              AsUninterrupted(c, d, model, start)
    ensures outcome == NoStepError ==> TotalSteps(c) == 0
    ensures outcome == Crashed ==> forall i :: 0 <= i < |processes| ==> processes[i].budget < Enough(c)
  {
    hide Lineage, TotalSteps, StepsPerEpoch, Enough, Sound, AsUninterrupted, Inside, SavedAt;
    var disk := new Disk();
    outcome, model, resumed := Crashed, [], [];
    start, cuts := Generator(0, 0), [];
    ghost var job := Job(Generators(processes), {});
    NothingStored(c, job);
    for i := 0 to |processes|
      invariant fresh(disk) && Sound(c, disk.checkpoints, job) && outcome == Crashed
      invariant job == Job(Generators(processes), AsSet(resumed))
      invariant forall j :: 0 <= j < i ==> processes[j].budget < Enough(c)
    {
      assert processes[i].rng in Generators(processes);
      var trainer := new KlTrainer(c, true, disk, processes[i].rng, processes[i].budget);
      ghost var o;
      var step;
      outcome, step, o, job := trainer.Train(job);
      AsSetNext(resumed, step);
      resumed := resumed + [step];
      if outcome != Crashed {
        model := trainer.model;
        if outcome == Finished {
          start, cuts := o.start, o.cuts;
          FinishedChain(c, d, o, job, model, resumed);
        }
        return;
      }
    }
  }

  lemma NothingStored(c: Config, job: Job)
    requires ValidConfig(c)
    ensures Sound(c, map[], job)
  {
  }

  lemma AsSetNext(paths: seq<nat>, k: nat)
    ensures AsSet(paths + [k]) == AsSet(paths) + {k} && AsSet([]) == {}
  {
    var all := paths + [k];
    assert all[|paths|] == k;
    assert forall i :: 0 <= i < |paths| ==> all[i] == paths[i];
  }

  lemma FinishedChain(c: Config, d: Data, o: Origin, job: Job, model: seq<Step>, resumed: seq<nat>)
    requires ValidConfig(c) && Fits(c, d) && o.base == [] && o.first <= TotalSteps(c) && StepsPerEpoch(c) > 0
    requires model == Lineage(c, o.start, o.cuts, TotalSteps(c)) && CutsOf(c, o.cuts, o.first, job)
    requires job.resumed == AsSet(resumed)
    ensures forall i :: 0 <= i < |o.cuts| ==> o.cuts[i] in resumed && o.cuts[i] <= TotalSteps(c) && SavedAt(c, o.cuts[i])
    ensures AsUninterrupted(c, d, model, o.start)
       <==> c.distributed || forall i :: 0 <= i < |o.cuts| ==> !Inside(c, o.cuts[i])
    ensures !(c.saveSteps < TotalSteps(c) && Inside(c, c.saveSteps)) ==> AsUninterrupted(c, d, model, o.start)
  {
    hide Lineage, TotalSteps, StepsPerEpoch, AsUninterrupted, Inside, SavedAt;
    SameSamplesIff(c, d, o.start, o.cuts);
    SavesInsideIff(c);
  }

  // ---- Where it fails ----

  // The batch that follows step k of a run inside an epoch.
  lemma InsidePlace(c: Config, k: nat)
    requires ValidConfig(c) && Inside(c, k) && k < TotalSteps(c)
    ensures var e, b := k / StepsPerEpoch(c), k % StepsPerEpoch(c) * c.accumulation;
      e < c.epochs && 0 <= b < c.batches && StepAt(c, e, b) == k
  {
    hide CeilDiv;
    EpochsDone(c, k);
    SkipIsWhole(c, k / StepsPerEpoch(c), k % StepsPerEpoch(c));
    StartsAt(c, k / StepsPerEpoch(c), k % StepsPerEpoch(c) * c.accumulation, k);
    WindowStarts(c, k % StepsPerEpoch(c));
  }

  lemma FirstSaved(c: Config, paths: seq<nat>, checkpoints: map<nat, Checkpoint>)
    requires ValidConfig(c) && Listed(c, paths, checkpoints, 0, c.saveSteps) && NoneBeyond(checkpoints, c.saveSteps)
    ensures checkpoints != map[] && forall k: nat :: IsLatest(checkpoints.Keys, k) ==> k == c.saveSteps
  {
    AddMultiple(1, c.saveSteps, 0);
    assert LastDue(c, c.saveSteps) == c.saveSteps;
    assert c.saveSteps in checkpoints;
  }

  // A process killed right after its first checkpoint.
  method KillAfterFirstSave(c: Config, rng: Generator, disk: Disk, ghost job: Job) returns (ghost job': Job)
    requires ValidConfig(c) && c.saveSteps < TotalSteps(c) && Inside(c, c.saveSteps)
    requires disk.checkpoints == map[] && rng in job.generators
    modifies disk
    ensures Sound(c, disk.checkpoints, job') && job'.generators == job.generators
    ensures disk.checkpoints != map[] && forall k: nat :: IsLatest(disk.checkpoints.Keys, k) ==> k == c.saveSteps
  {
    hide Lineage, TotalSteps, StepsPerEpoch, Sound, Listed, Clock, StepAt, NoneBeyond, IsLatest;
    InsidePlace(c, c.saveSteps);
    NothingStored(c, job);
    var e, b := c.saveSteps / StepsPerEpoch(c), c.saveSteps % StepsPerEpoch(c) * c.accumulation;
    ClockBeforeEnd(c, e, b, c.epochs);
    var trainer := new KlTrainer(c, true, disk, rng, Clock(c, e, b));
    var outcome, step;
    ghost var o;
    outcome, step, o, job' := trainer.Train(job);
    assert outcome == Crashed && trainer.globalStep == c.saveSteps;
    FirstSaved(c, trainer.previousSavedPaths, disk.checkpoints);
  }

  lemma UnlikeAll(c: Config, d: Data, o: Origin, model: seq<Step>)
    requires ValidConfig(c) && Fits(c, d) && !c.distributed && c.saveSteps < TotalSteps(c) && Inside(c, c.saveSteps)
    requires o.base == [] && o.cuts != [] && o.cuts[|o.cuts| - 1] == c.saveSteps
    requires model == o.base + Lineage(c, o.start, o.cuts, TotalSteps(c))
    ensures forall start :: !AsUninterrupted(c, d, model, start)
  {
    hide Lineage, TotalSteps, StepsPerEpoch, AsUninterrupted;
    assert model == Lineage(c, o.start, o.cuts, TotalSteps(c));
    forall start
      ensures !AsUninterrupted(c, d, model, start)
    {
      UnlikeAnyRun(c, d, o.start, o.cuts, |o.cuts| - 1, start);
    }
  }

  // Whenever a periodic checkpoint falls inside an epoch and the order is drawn anew, killing the first process right after
  // its first checkpoint makes the job finish with a model that no uninterrupted run gives.
  method KilledInsideEpoch(c: Config, first: Generator, second: Generator, ghost d: Data)
    returns (outcome: Outcome, model: seq<Step>)
    requires ValidConfig(c) && Fits(c, d) && !c.distributed && c.saveSteps < TotalSteps(c) && Inside(c, c.saveSteps)
    ensures outcome == Finished && forall start :: !AsUninterrupted(c, d, model, start)
  {
    hide Lineage, TotalSteps, StepsPerEpoch, Sound, AsUninterrupted, Enough, IsLatest, Inside;
    var disk := new Disk();
    ghost var job := KillAfterFirstSave(c, first, disk, Job({first, second}, {}));
    ghost var history := disk.checkpoints;
    var trainer := new KlTrainer(c, true, disk, second, Enough(c));
    var step;
    ghost var o;
    outcome, step, o, job := trainer.Train(job);
    assert IsLatest(history.Keys, step);
    model := trainer.model;
    UnlikeAll(c, d, o, model);
  }

  // One batch, one step, and the default of one checkpoint to keep: the process finishes and leaves none.
  method FinalCheckpointLost(rng: Generator) returns (outcome: Outcome, left: map<nat, Checkpoint>)
    ensures outcome == Finished && left == map[]
  {
    hide Lineage, Descends;
    var c := Config(1, 1, 1, 1, 1, true);
    var disk := new Disk();
    ghost var job := Job({rng}, {});
    NothingStored(c, job);
    var trainer := new KlTrainer(c, true, disk, rng, Enough(c));
    var step;
    ghost var o;
    outcome, step, o, job := trainer.Train(job);
    left := disk.checkpoints;
    SoundKeys(c, left, job);
  }

  lemma SoundKeys(c: Config, checkpoints: map<nat, Checkpoint>, job: Job)
    requires ValidConfig(c) && Sound(c, checkpoints, job)
    ensures forall k :: k in checkpoints ==> 1 <= k <= TotalSteps(c)
  {
    hide Descends, TotalSteps;
  }
}
