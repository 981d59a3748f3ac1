# simple_network_sim: running and averaging trials

This project models the driver of `simple_network_sim`, a metapopulation
epidemic simulator. The part modelled is how the driver turns a command
("seeded" or "random") into a list of initial infections. It then runs one
trial per infection set, each on a fresh deep copy of the network of
populations. The simulation itself is deterministic. Randomness enters only
through the infection sets drawn in "random" mode. When more than one trial is asked for,
it averages the trials' outbreak time series key by key. The key is
(time, node, age group, compartment). The project also models how the
package logger's configuration is chosen from the command-line flags.

The epidemic model itself is not part of this model. That is building the
network, exposing regions and simulating the age-structured compartments.
Its two operations enter as function values in `Epidemic.Model`:
`exposeRegions` and `simulate`. The random choice of regions to infect
enters as a `RandomInfector` that is indexed by the call number. The call
number stands for the state of the random generator. `RandomInfector` has
no network argument, unlike `randomlyInfectRegions`. Every call receives the
same template network, so the infector is taken to close over it.

Modules:

- `Wrappers`: `Option` and `Result`.
- `TimeSeries`: the outbreak time series (`Frame`, one `Row` per key).
  - `SetIndex` models setting the four-column index.
  - `ResetIndex` models resetting it.
  - `TotalAt` looks up a key's total.
- `Averaging`: `MeanFrame`, the specification of the average of a sequence of
  trials. It keeps the first trial's rows, in their order, and sets each
  total to the key's mean over all trials. The module also holds the lemmas
  about `MeanFrame`.
- `Epidemic`: the network of populations as a class. Its initial state is
  updated in place. The module also has deep copy, exposing regions, and
  `Trial`, the result of one trial as a function of the template state.
- `SampleUseOfModel`:
  - `RunSimulation` runs the trial loop with its running sum, proved against
    `MeanFrame`.
  - `BuildInitialInfections` builds the initial-infection list.
  - `RunCommand` composes the two.
- `Logging`: `SetupLogger` builds the logging configuration dictionary.

The code is followed where it differs from its own documentation:

- With no arguments, `setup_logger` gives the stderr handler level INFO. Its
  docstring says WARNING.
- `runSimulation` runs a single trial whenever `trials <= 1`, including 0 and
  negative counts. It does not check the length of the infection list up
  front. In "seeded" mode with more than one trial, the list holds a single
  entry. Trial 0 then runs, and the lookup of entry 1 fails. `RunCommand`
  returns `Err(InitialInfectionMissing(1))` in that case. The model does not
  return identical repeated trials there.

## Model

| member | source | states |
|---|---|---|
| SampleUseOfModel.RunSimulation | simple_network_sim/sampleUseOfModel.py:58-103 | With at most one trial: the single trial seeded with `initialInfections[0]`, or `InitialInfectionMissing(0)` when the list is empty. With more trials: `InitialInfectionMissing(i)` at the first missing index, or else the key-wise mean (`MeanFrame`) of the trials seeded with the first `trials` entries, in order. The ghost `seeded` grows by one entry beside each trial run, so it lists the entries the trials ran with, in order. The template network is never modified. |
| SampleUseOfModel.RunTrial | simple_network_sim/sampleUseOfModel.py:79-82 | One trial copies the network, exposes the copy to the seed and simulates it. The result is `Trial` of the template's state, so the template's own state does not affect any later trial. |
| SampleUseOfModel.AccumulateFirst | simple_network_sim/sampleUseOfModel.py:95-96 | The first indexed trial is a correct running sum over one trial: same index order, same keys, each total equal to `SumAt(frames, k, 1)`. |
| SampleUseOfModel.AccumulateStep | simple_network_sim/sampleUseOfModel.py:97-98 | Adding the next indexed trial's totals to the running sum, aligned by key, gives the running sum over one more trial. This holds when that trial has the same key set as the first trial. The first trial's index order is kept. |
| SampleUseOfModel.AccumulatedMean | simple_network_sim/sampleUseOfModel.py:100-101 | Resetting the index of the full running sum and dividing every total by the trial count gives exactly `MeanFrame` of the trials. |
| SampleUseOfModel.BuildInitialInfections | simple_network_sim/sampleUseOfModel.py:37-44 | "seeded" gives the one-element list holding the infections read from the data store. "random" gives `max(trials, 0)` draws, and entry i is the i-th call of the random infector. |
| SampleUseOfModel.RunCommand | simple_network_sim/sampleUseOfModel.py:37-46 | For each command and trial count, the outcome of building the list and running the simulation. Seeded with one trial gives the seeded trial. Seeded with more gives `InitialInfectionMissing(1)`. Random with no trials gives `InitialInfectionMissing(0)`. Random with one trial gives the trial of the first draw. Random with more gives the mean of the trials of all draws. The network is unchanged. |
| Averaging.MeanKeys | simple_network_sim/sampleUseOfModel.py:91-100 | The averaged series has the first trial's rows in the first trial's order, with the same keys. Its keys are unique, and its key set is the first trial's. |
| Averaging.MeanAtKey | simple_network_sim/sampleUseOfModel.py:95-101 | At each key of the first trial, the averaged total is the sum of that key's totals over all trials divided by the number of trials. |
| Averaging.MeanOfCopies | simple_network_sim/sampleUseOfModel.py:86-101 | Averaging n ≥ 1 identical trials gives that trial back unchanged, and identical trials are always consistent. |
| Averaging.MeanOfOne | simple_network_sim/sampleUseOfModel.py:77-101 | Averaging a single trial gives that trial. So the single-trial shortcut returns what averaging one trial would. |
| Averaging.ThreeTrialAverage | simple_network_sim/sampleUseOfModel.py:95-101 | Three trials of a 1000-person region with 10, 20 and 30 infected at time 0 average to 980 susceptible and 20 infected. |
| Averaging.SumOfCopies | simple_network_sim/sampleUseOfModel.py:98 | Summing a key's total over m copies of one trial gives that total added m times. |
| TimeSeries.ResetSetIndex | simple_network_sim/sampleUseOfModel.py:91-100 | Resetting the index of an indexed trial gives back the original rows, in order, when the keys are unique. |
| TimeSeries.SetIndexAt | simple_network_sim/sampleUseOfModel.py:91-93 | Setting the index keeps one index entry per row, in row order. Each row's key maps to that row's total. |
| TimeSeries.SetIndexKeys | simple_network_sim/sampleUseOfModel.py:91-93 | The indexed trial's keys are exactly the key set of the trial's rows. |
| TimeSeries.SetIndexTotal | simple_network_sim/sampleUseOfModel.py:91-98 | A key looked up in the indexed trial has the same total as the row holding that key. |
| TimeSeries.TotalAtRow | simple_network_sim/sampleUseOfModel.py:91-98 | With unique keys, looking up a row's key finds that row's total. |
| Epidemic.Network.DeepCopy | simple_network_sim/sampleUseOfModel.py:80 | The copy is a new object with the same graph and the same initial state as the original. |
| Epidemic.ExposeRegions | simple_network_sim/sampleUseOfModel.py:81 | The network's initial state becomes the model's exposure of the old state to the infections. Nothing else changes. |
| Epidemic.TrialFramesPrefix | simple_network_sim/sampleUseOfModel.py:86-91 | The trials of the first n seeds are the first n trials of the whole list. Each trial depends only on its own seed and the template, so a run cut short after n trials has produced exactly those tables. |
| SampleUseOfModel.AddTotals | simple_network_sim/sampleUseOfModel.py:98 | Adding a trial's totals keeps the running sum's index order and key set. `AccumulateStep` states what the sums then hold. |
| SampleUseOfModel.DivideTotals | simple_network_sim/sampleUseOfModel.py:101 | Dividing by the trial count keeps every row and every row's key, and changes only the totals. `AccumulatedMean` proves that the result is the mean. |
| Logging.SetupLogger | simple_network_sim/sampleUseOfModel.py:122-169 | The configuration has version 1, keeps existing loggers and has the one standard formatter. Its handlers are "stderr", plus "logfile" if and only if a log file is given. The file handler writes to that path as utf8. stderr is at WARNING when quiet, else DEBUG when debug, else INFO. The log file is at DEBUG when debug and not quiet, else INFO. The package logger is at DEBUG with handlers `["stderr"]` or `["stderr", "logfile"]`. |

## Left out

- The epidemic model is not part of this model: `createNetworkOfPopulation`, `exposeRegions`, `basicSimulationInternalAgeStructure` and `randomlyInfectRegions`. Its operations are parameters.
- The external operations `exposeRegions` and `basicSimulationInternalAgeStructure` are taken as always returning. Their function values are total. An exception raised inside one of them is not modelled. In the source such an exception would leave `runSimulation` after the earlier trials had run, and the remaining trials would be abandoned.
- Reading from and writing to the data store (`read_table`, `readInitialInfections`, `write_table`) and the command-line parser `build_args` are not modelled. The seeded infections and the command's fields are parameters.
- Log messages, timing (`time.time`) and applying the configuration with `dictConfig` are left out. They produce no result the driver uses.
- Creating the log directory in `setup_logger`, and exiting with status 1 when that fails, are file-system I/O and are not modelled.
- Totals are `real`, not floating point. Rounding in the sum and the division is not modelled.
- SampleUseOfModel.RunSimulation: requires the trials it runs to share the first trial's key set and to have unique keys. Pandas would align mismatched keys and produce NaN, or would accept duplicate keys. The requirement also applies to the trials that run before a missing entry aborts the loop.
- TimeSeries.SetIndex: requires unique keys. A pandas index with duplicate keys is not modelled.
- SampleUseOfModel.RunCommand: requires the same key-set consistency as `RunSimulation` for the trials it will run.
- The order in which trials call the simulation is recorded only through the ghost `seeded` sequence and the loop order. Random-generator state is modelled as the call number.
