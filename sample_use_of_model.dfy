/**
 The driver of simple_network_sim: builds the list of initial infections for
 the chosen command, runs the trials on disposable copies of the network and
 averages their outbreak time series.
 */
module SampleUseOfModel {
  import opened Wrappers
  import opened TimeSeries
  import opened Averaging
  import opened Epidemic

  /** The `IndexError` raised when `initialInfections[index]` does not exist. */
  datatype Error = InitialInfectionMissing(index: int)

  function Min(a: int, b: int): int {
    if a < b then a else b
  }

  /** The accumulator after the first `n` trials: the first trial's index, each key holding its sum so far. */
  ghost predicate Accumulates(sums: Indexed, frames: seq<Frame>, n: nat)
    requires 0 < n <= |frames|
  {
    && sums.index == IndexOf(frames[0])
    && sums.total.Keys == KeySet(frames[0])
    && forall k :: k in sums.total ==> sums.total[k] == SumAt(frames, k, n)
  }

  /** `aggregated.total += indexed.total` on tables with the same keys. */
  function AddTotals(sums: Indexed, indexed: Indexed): (r: Indexed)
    requires sums.total.Keys == indexed.total.Keys
    ensures r.index == sums.index && r.total.Keys == sums.total.Keys
  {
    sums.(total := map k | k in sums.total :: sums.total[k] + indexed.total[k])
  }

  /** `averaged.total /= trials`. */
  function DivideTotals(f: Frame, trials: int): (r: Frame)
    requires trials != 0
    ensures |r| == |f| && forall j :: 0 <= j < |f| ==> r[j].IndexKey() == f[j].IndexKey()
  {
    seq(|f|, j requires 0 <= j < |f| => f[j].(total := f[j].total / (trials as real)))
  }

  /** The first keyed trial is the accumulator after one trial. */
  lemma AccumulateFirst(frames: seq<Frame>)
    requires 0 < |frames| && UniqueKeys(frames[0])
    ensures Accumulates(SetIndex(frames[0]), frames, 1)
  {
    SetIndexKeys(frames[0]);
    forall k | k in KeySet(frames[0]) ensures SetIndex(frames[0]).total[k] == SumAt(frames, k, 1) {
      SetIndexTotal(frames[0], k);
    }
  }

  /** Adding trial `n` into the sums of trials `0..n-1` gives the sums of trials `0..n`. */
  lemma AccumulateStep(sums: Indexed, frames: seq<Frame>, n: nat)
    requires 0 < n < |frames| && Accumulates(sums, frames, n)
    requires UniqueKeys(frames[n]) && KeySet(frames[n]) == KeySet(frames[0])
    ensures SetIndex(frames[n]).total.Keys == sums.total.Keys
    ensures Accumulates(AddTotals(sums, SetIndex(frames[n])), frames, n + 1)
  {
    SetIndexKeys(frames[n]);
    var added := AddTotals(sums, SetIndex(frames[n]));
    forall k | k in added.total
      ensures added.total[k] == SumAt(frames, k, n + 1)
    {
      SetIndexTotal(frames[n], k);
    }
  }

  /** Un-keying the sums of all trials and dividing by their count gives the averaged table. */
  lemma AccumulatedMean(sums: Indexed, frames: seq<Frame>)
    requires 0 < |frames| && UniqueKeys(frames[0]) && Accumulates(sums, frames, |frames|)
    ensures WellIndexed(sums)
    ensures DivideTotals(ResetIndex(sums), |frames|) == MeanFrame(frames)
  {
    var first := frames[0];
    forall j | 0 <= j < |first|
      ensures sums.index[j] in sums.total
    {
      SetIndexAt(first, j);
    }
    var averaged := DivideTotals(ResetIndex(sums), |frames|);
    forall j | 0 <= j < |first|
      ensures averaged[j] == MeanFrame(frames)[j]
    {
      SetIndexAt(first, j);
    }
  }

  /**
   One trial: a deep copy of the template, seeded in place with `seed`, run
   to `maxTime`. The copy is dropped afterwards; the template is not written.
   */
  method RunTrial<G>(model: Model<G>, network: Network<G>, seed: InfectionSet, maxTime: int) returns (frame: Frame)
    ensures frame == Trial(model, network.graph, network.initialState, seed, maxTime)
  {
    var disposableNetwork := network.DeepCopy();
    ExposeRegions(model, seed, disposableNetwork);
    frame := model.simulate(disposableNetwork.graph, disposableNetwork.initialState, maxTime);
  }

  /**
   `runSimulation(network, max_time, trials, initialInfections)`.

   With `trials <= 1` (zero and negative counts included) it runs one trial
   on a copy seeded with `initialInfections[0]` and returns that table as it
   is. Otherwise trial `i` runs on a fresh copy seeded with
   `initialInfections[i]`, for `i` from 0 up to `trials - 1`; the tables are
   keyed by (time, node, age, state), summed key by key into the first one
   and the sums divided by `trials`. A missing `initialInfections[i]` aborts
   the run after the trials before it; `seeded` lists, in order, the
   infection sets the trials that ran were seeded with. The template
   network is never written: there is no `modifies` clause.
   */
  method RunSimulation<G>(model: Model<G>, network: Network<G>, maxTime: int, trials: int, initialInfections: seq<InfectionSet>)
    returns (result: Result<Frame, Error>, ghost seeded: seq<InfectionSet>)
    requires trials > 1 ==>
      Consistent(TrialFrames(model, network.graph, network.initialState, initialInfections[..Min(trials, |initialInfections|)], maxTime))
    ensures trials <= 1 && |initialInfections| == 0 ==> result == Err(InitialInfectionMissing(0))
    ensures trials <= 1 && |initialInfections| > 0 ==>
      result == Ok(Trial(model, network.graph, network.initialState, initialInfections[0], maxTime))
    ensures 1 < trials && |initialInfections| < trials ==>
      result == Err(InitialInfectionMissing(|initialInfections|))
    ensures 1 < trials <= |initialInfections| ==>
      result == Ok(MeanFrame(TrialFrames(model, network.graph, network.initialState, initialInfections[..trials], maxTime)))
    ensures seeded == if trials <= 1 then initialInfections[..Min(1, |initialInfections|)]
                      else initialInfections[..Min(trials, |initialInfections|)]
  {
    if trials <= 1 {
      if |initialInfections| == 0 {
        return Err(InitialInfectionMissing(0)), [];
      }
      var frame := RunTrial(model, network, initialInfections[0], maxTime);
      seeded := [initialInfections[0]];
      return Ok(frame), seeded;
    }
    ghost var expected := TrialFrames(model, network.graph, network.initialState, initialInfections[..Min(trials, |initialInfections|)], maxTime);
    var aggregated: Option<Indexed> := None;
    seeded := [];
    for i := 0 to trials
      invariant i <= |initialInfections|
      invariant seeded == initialInfections[..i]
      invariant expected == TrialFrames(model, network.graph, network.initialState, initialInfections[..Min(trials, |initialInfections|)], maxTime)
      invariant aggregated.None? <==> i == 0
      invariant aggregated.Some? ==> Accumulates(aggregated.value, expected, i)
    {
      if i >= |initialInfections| {
        assert initialInfections[..i] == initialInfections;
        return Err(InitialInfectionMissing(i)), seeded;
      }
      var frame := RunTrial(model, network, initialInfections[i], maxTime);
      seeded := seeded + [initialInfections[i]];
      assert frame == expected[i];
      var indexed := SetIndex(frame);
      match aggregated {
        case None =>
          assert UniqueKeys(expected[0]);
          AccumulateFirst(expected);
          aggregated := Some(indexed);
        case Some(sums) =>
          assert UniqueKeys(expected[i]) && KeySet(expected[i]) == KeySet(expected[0]);
          AccumulateStep(sums, expected, i);
          aggregated := Some(AddTotals(sums, indexed));
      }
    }
    assert UniqueKeys(expected[0]);
    AccumulatedMean(aggregated.value, expected);
    var averaged := ResetIndex(aggregated.value);
    averaged := DivideTotals(averaged, trials);
    result := Ok(averaged);
  }

  /** The sub-command chosen on the command line, with the arguments this driver reads. */
  datatype Command =
    | Seeded(trials: int)
    | Random(regions: int, ageGroups: seq<Age>, trials: int, infected: int)

  /**
   `randomlyInfectRegions(network, regions, age_groups, infected)` as a
   function of its arguments and of the number of calls made before it,
   which stands for the state of the random generator.
   */
  type RandomInfector = (int, seq<Age>, int, nat) -> InfectionSet

  /** What `range(trials)` draws in random mode: one infection set per call, in call order. */
  function RandomInfections(cmd: Command, randomlyInfectRegions: RandomInfector): seq<InfectionSet>
    requires cmd.Random?
  {
    var n := if cmd.trials > 0 then cmd.trials else 0;
    seq(n, i requires 0 <= i < n => randomlyInfectRegions(cmd.regions, cmd.ageGroups, cmd.infected, i))
  }

  /**
   The `initialInfections` list of `main`: in seeded mode the one infection
   set read from the data store, whatever the trial count; in random mode
   one fresh draw per trial, none when the count is zero or negative.
   */
  method BuildInitialInfections(cmd: Command, seededInfections: InfectionSet, randomlyInfectRegions: RandomInfector)
    returns (initialInfections: seq<InfectionSet>)
    ensures cmd.Seeded? ==> initialInfections == [seededInfections]
    ensures cmd.Random? ==> |initialInfections| == (if cmd.trials > 0 then cmd.trials else 0)
    ensures cmd.Random? ==> forall i :: 0 <= i < |initialInfections| ==>
      initialInfections[i] == randomlyInfectRegions(cmd.regions, cmd.ageGroups, cmd.infected, i)
  {
    initialInfections := [];
    match cmd {
      case Seeded(_) =>
        initialInfections := initialInfections + [seededInfections];
      case Random(regions, ageGroups, trials, infected) =>
        var n := if trials > 0 then trials else 0;
        for i := 0 to n
          invariant |initialInfections| == i
          invariant forall j :: 0 <= j < i ==> initialInfections[j] == randomlyInfectRegions(regions, ageGroups, infected, j)
        {
          initialInfections := initialInfections + [randomlyInfectRegions(regions, ageGroups, infected, i)];
        }
    }
  }

  /**
   Lines 37-46 of `main`: build the infection list for the command, then run
   the simulation on the network. Seeded mode with more than one trial fails
   on `initialInfections[1]` after its first trial; random mode with no
   trials fails on `initialInfections[0]`. The network is left as it was.
   */
  method RunCommand<G>(cmd: Command, model: Model<G>, network: Network<G>, maxTime: int,
                       seededInfections: InfectionSet, randomlyInfectRegions: RandomInfector)
    returns (result: Result<Frame, Error>)
    requires cmd.Seeded? && cmd.trials > 1 ==>
      UniqueKeys(Trial(model, network.graph, network.initialState, seededInfections, maxTime))
    requires cmd.Random? && cmd.trials > 1 ==>
      Consistent(TrialFrames(model, network.graph, network.initialState, RandomInfections(cmd, randomlyInfectRegions), maxTime))
    ensures unchanged(network)
    ensures cmd.Seeded? && cmd.trials <= 1 ==>
      result == Ok(Trial(model, network.graph, network.initialState, seededInfections, maxTime))
    ensures cmd.Seeded? && cmd.trials > 1 ==> result == Err(InitialInfectionMissing(1))
    ensures cmd.Random? && cmd.trials <= 0 ==> result == Err(InitialInfectionMissing(0))
    ensures cmd.Random? && cmd.trials == 1 ==>
      result == Ok(Trial(model, network.graph, network.initialState,
                         randomlyInfectRegions(cmd.regions, cmd.ageGroups, cmd.infected, 0), maxTime))
    ensures cmd.Random? && cmd.trials > 1 ==>
      result == Ok(MeanFrame(TrialFrames(model, network.graph, network.initialState,
                                         RandomInfections(cmd, randomlyInfectRegions), maxTime)))
  {
    var initialInfections := BuildInitialInfections(cmd, seededInfections, randomlyInfectRegions);
    if cmd.Random? {
      assert initialInfections == RandomInfections(cmd, randomlyInfectRegions);
    }
    if cmd.trials > 1 {
      assert initialInfections[..Min(cmd.trials, |initialInfections|)] == initialInfections;
    }
    ghost var seeded;
    result, seeded := RunSimulation(model, network, maxTime, cmd.trials, initialInfections);
  }
}
