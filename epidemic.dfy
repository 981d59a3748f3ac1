/**
 The boundary to the epidemic model of network_of_populations, which is not
 part of this model. Its operations enter as function values: exposing a
 network's initial state to a set of infections, and running the
 age-structured simulation of a network up to a time horizon.
 */
module Epidemic {
  import opened TimeSeries

  /** A network's initial state: for each node, the count in each (age, compartment). */
  type InitialState = map<Node, map<(Age, Compartment), real>>

  /** Initial infections: for each node, the number of people infected in each age group. */
  type InfectionSet = map<Node, map<Age, real>>

  /**
   The external operations. `exposeRegions` gives the state that
   `exposeRegions(infections, state)` leaves behind when it updates `state`
   in place; `simulate(graph, state, maxTime)` is the table that
   `basicSimulationInternalAgeStructure` returns for a network with that
   structure and initial state. The simulation is deterministic: all its
   input is the network and the horizon.
   */
  datatype Model<!G> = Model(
    exposeRegions: (InfectionSet, InitialState) -> InitialState,
    simulate: (G, InitialState, int) -> Frame)

  /**
   A network of populations: its structure `graph` (nodes, ages, movements,
   mixing), which nothing here changes, and its `initialState`, which
   exposing regions updates in place.
   */
  class Network<G> {
    const graph: G
    var initialState: InitialState

    constructor (graph: G, initialState: InitialState)
      ensures this.graph == graph && this.initialState == initialState
    {
      this.graph := graph;
      this.initialState := initialState;
    }

    /** `copy.deepcopy`: a new network with equal contents that shares nothing mutable with this one. */
    method DeepCopy() returns (copy: Network<G>)
      ensures fresh(copy)
      ensures copy.graph == graph && copy.initialState == initialState
    {
      copy := new Network(graph, initialState);
    }
  }

  /** `exposeRegions(infections, network.initialState)`: seeds the network, changing nothing else. */
  method ExposeRegions<G>(model: Model<G>, infections: InfectionSet, network: Network<G>)
    modifies network
    ensures network.initialState == model.exposeRegions(infections, old(network.initialState))
  {
    network.initialState := model.exposeRegions(infections, network.initialState);
  }

  /** The table of one trial: a network with this structure and state, seeded with `seed`, run to `maxTime`. */
  function Trial<G>(model: Model<G>, graph: G, state: InitialState, seed: InfectionSet, maxTime: int): Frame {
    model.simulate(graph, model.exposeRegions(seed, state), maxTime)
  }

  /** The tables of the trials seeded with `seeds[0]`, `seeds[1]`, ... in that order, all from the same template. */
  function TrialFrames<G>(model: Model<G>, graph: G, state: InitialState, seeds: seq<InfectionSet>, maxTime: int): seq<Frame> {
    seq(|seeds|, i requires 0 <= i < |seeds| => Trial(model, graph, state, seeds[i], maxTime))
  }

  /**
   Each trial depends only on its own seed and the template: the trials of the
   first `n` seeds are the first `n` trials of the whole list, so a run cut
   short after `n` trials has produced exactly those tables.
   */
  lemma TrialFramesPrefix<G>(model: Model<G>, graph: G, state: InitialState, seeds: seq<InfectionSet>, n: nat, maxTime: int)
    requires n <= |seeds|
    ensures TrialFrames(model, graph, state, seeds[..n], maxTime) == TrialFrames(model, graph, state, seeds, maxTime)[..n]
  {
  }
}
