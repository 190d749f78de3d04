/** The Keras double-DQN autoscaler: a simulated service whose VM count the
    agent raises or lowers one step at a time, the sliding window of the last
    `SequenceLength` observations the agent sees, the agent with its online and
    target networks, and one iteration of the training loop. */
module DoubleDeep2 {
  import opened QLearning
  import opened ReplayMemory

  const Pi: real := 3.141592653589793
  const MinVms: int := 1
  const MaxVms: int := 20
  const InitialVms: int := 6
  const StateSize: nat := 5
  const ActionSize: nat := 3
  const SequenceLength: nat := 10
  const BatchSize: nat := 32
  const MemoryCapacity: nat := 2000

  /** Actions: 0 removes a VM, 1 keeps the count, 2 adds a VM. */
  const Decrease: int := 0
  const Increase: int := 2

  /** `np.sin`, given to the environment; only its range is relied on. */
  type Sine = f: real -> real | forall x :: -1.0 <= f(x) <= 1.0 witness (x: real) => 0.0

  /** One row of the observation window, in the order the agent sees it. */
  datatype Features = Features(load: real, readPercentage: real, cpuUsage: real, memoryUsage: real, latency: real)

  type Window = seq<Features>

  /** The VM count after `action`: a decrease at one VM and an increase at
      twenty VMs are ignored, and every other action value keeps the count. */
  function NextVms(numVms: int, action: int): (r: int)
    ensures MinVms <= numVms <= MaxVms ==> MinVms <= r <= MaxVms
    ensures numVms - 1 <= r <= numVms + 1
    ensures r < numVms <==> action == Decrease && numVms > MinVms
    ensures r > numVms <==> action == Increase && numVms < MaxVms
  {
    if action == Decrease && numVms > MinVms then numVms - 1
    else if action == Increase && numVms < MaxVms then numVms + 1
    else numVms
  }

  /** Served load (at most the capacity) minus a cost of 3 per VM. */
  function Reward(capacity: real, load: real, numVms: int): (r: real)
    ensures r <= capacity - 3.0 * numVms as real && r <= load - 3.0 * numVms as real
    ensures r == capacity - 3.0 * numVms as real || r == load - 3.0 * numVms as real
  {
    (if capacity < load then capacity else load) - 3.0 * numVms as real
  }

  /** `cpu_usage(t)`: `np.random.uniform(30, 50)`, which is `30 + (50 - 30) * u`
      for its underlying draw `u` in [0, 1); `t` plays no part. */
  function CpuUsage(u: real): (r: real)
    requires 0.0 <= u < 1.0
    ensures 30.0 <= r < 50.0
  {
    30.0 + 20.0 * u
  }

  /** `memory_usage(t)`: `np.random.uniform(40, 60)`, that is `40 + (60 - 40) * u`. */
  function MemoryUsage(u: real): (r: real)
    requires 0.0 <= u < 1.0
    ensures 40.0 <= r < 60.0
  {
    40.0 + 20.0 * u
  }

  /** `v` scaled by a share `p` between one half and one. */
  function Share(v: real, p: real): (r: real)
    requires 0.5 <= p <= 1.0
    ensures 0.0 <= v ==> 0.5 * v <= r <= v
  {
    v * p
  }

  class Environment {
    var time: int
    var numVms: int
    const loadAmplitude: real := 50.0
    const loadPeriod: real := 250.0
    const readAmplitude: real := 0.25
    const readPeriod: real := 340.0
    const latencyAmplitude: real := 0.1
    const sine: Sine

    ghost predicate Valid()
      reads this
    {
      MinVms <= numVms <= MaxVms
    }

    constructor(sine: Sine)
      ensures Valid() && time == 0 && numVms == InitialVms && this.sine == sine
    {
      time := 0;
      numVms := InitialVms;
      this.sine := sine;
    }

    /** The demand: a sinusoid of period 250 between 0 and 100. */
    function Load(t: int): (r: real)
      ensures 0.0 <= r <= 100.0
    {
      loadAmplitude + loadAmplitude * sine(2.0 * Pi * t as real / loadPeriod)
    }

    /** Share of reads in the demand: a sinusoid of period 340 in [0.5, 1]. */
    function ReadPercentage(t: int): (r: real)
      ensures 0.5 <= r <= 1.0
    {
      0.75 + readAmplitude * sine(2.0 * Pi * t as real / readPeriod)
    }

    /** What the current VMs can serve: 10 per VM, scaled by the read share. */
    function Capacity(t: int): (r: real)
      reads this
      ensures 0 <= numVms ==> 5.0 * numVms as real <= r <= 10.0 * numVms as real
    {
      10.0 * Share(numVms as real, ReadPercentage(t))
    }

    /** Latency: a sinusoid of the load's period in [-0.1, 0.1]. */
    function Latency(t: int): (r: real)
      ensures -0.1 <= r <= 0.1
    {
      latencyAmplitude * sine(2.0 * Pi * t as real / loadPeriod)
    }

    /** Applies `action` to the VM count, advances the clock by one and
        returns the new count, the load and the reward at the new time. */
    method Step(action: int) returns (vms: int, nextLoad: real, reward: real)
      modifies this`time, this`numVms
      ensures numVms == NextVms(old(numVms), action) && time == old(time) + 1
      ensures old(Valid()) ==> Valid()
      ensures vms == numVms && nextLoad == Load(time)
      ensures reward == Reward(Capacity(time), Load(time), numVms)
    {
      if action == Decrease && numVms > MinVms {
        numVms := numVms - 1;
      } else if action == Increase && numVms < MaxVms {
        numVms := numVms + 1;
      }
      time := time + 1;
      nextLoad := Load(time);
      var nextCapacity := Capacity(time);
      reward := (if nextCapacity < nextLoad then nextCapacity else nextLoad) - 3.0 * numVms as real;
      vms := numVms;
    }
  }

  /** With the VM count in range, every step's reward lies in [-60, 70]:
      the served load is at most 10 per VM and at most 100, and each VM
      costs 3, so ten VMs give the most. */
  lemma RewardBounds(env: Environment, t: int)
    requires env.Valid()
    ensures -60.0 <= Reward(env.Capacity(t), env.Load(t), env.numVms) <= 70.0
  {
  }

  /** The observation window at the start of an episode: row `t` holds the
      signals at `env.time + t`. */
  method InitialWindow(env: Environment, cpuDraws: seq<real>, memoryDraws: seq<real>) returns (state: Window)
    requires |cpuDraws| == SequenceLength && |memoryDraws| == SequenceLength
    requires forall t :: 0 <= t < SequenceLength ==> 0.0 <= cpuDraws[t] < 1.0 && 0.0 <= memoryDraws[t] < 1.0
    ensures |state| == SequenceLength
    ensures forall t :: 0 <= t < SequenceLength ==>
      state[t] == Features(env.Load(env.time + t), env.ReadPercentage(env.time + t),
                           CpuUsage(cpuDraws[t]), MemoryUsage(memoryDraws[t]), env.Latency(env.time + t))
  {
    state := [];
    for t := 0 to SequenceLength
      invariant |state| == t
      invariant forall k :: 0 <= k < t ==>
        state[k] == Features(env.Load(env.time + k), env.ReadPercentage(env.time + k),
                             CpuUsage(cpuDraws[k]), MemoryUsage(memoryDraws[k]), env.Latency(env.time + k))
    {
      var row := Features(env.Load(env.time + t), env.ReadPercentage(env.time + t),
                          CpuUsage(cpuDraws[t]), MemoryUsage(memoryDraws[t]), env.Latency(env.time + t));
      state := state + [row];
    }
  }

  /** `next_state[:-1] = state[1:]; next_state[-1] = row`. */
  function Shift(state: Window, row: Features): (next: Window)
    requires |state| > 0
    ensures |next| == |state| && next[|state| - 1] == row
    ensures forall i :: 0 <= i < |state| - 1 ==> next[i] == state[i + 1]
  {
    state[1..] + [row]
  }

  /** The window after shifting in `rows` one at a time. */
  function ShiftAll(state: Window, rows: seq<Features>): (next: Window)
    requires |state| > 0
    ensures |next| == |state|
    decreases |rows|
  {
    if rows == [] then state else Shift(ShiftAll(state, rows[..|rows| - 1]), rows[|rows| - 1])
  }

  /** Sliding-window law: after any number of shifts the window is the last
      `|state|` rows of the old window followed by the new rows. */
  lemma {:induction false} SlidingWindow(state: Window, rows: seq<Features>)
    requires |state| > 0
    ensures ShiftAll(state, rows) == (state + rows)[|rows|..]
    decreases |rows|
  {
    if rows != [] {
      var front, last := rows[..|rows| - 1], rows[|rows| - 1];
      SlidingWindow(state, front);
      var before := (state + front)[|front|..];
      assert ShiftAll(state, rows) == before[1..] + [last];
      assert before[1..] == (state + front)[|rows|..];
      assert state + rows == (state + front) + [last];
    }
  }

  /** While at most `|state|` rows have been shifted in, the window is the
      old window without its oldest rows, followed by all the new ones. */
  lemma SlidingWindowShort(state: Window, rows: seq<Features>)
    requires |state| > 0 && |rows| <= |state|
    ensures ShiftAll(state, rows) == state[|rows|..] + rows
  {
    SlidingWindow(state, rows);
    assert (state + rows)[|rows|..] == state[|rows|..] + rows;
  }

  class DDQNAgent<W(!new)> {
    const stateSize: nat
    const actionSize: nat
    const sequenceLength: nat
    const net: Network<Window, W>
    var memory: seq<Transition<Window>>
    var epsilon: real
    var onlineWeights: W
    var targetWeights: W

    ghost predicate Valid()
      reads this
    {
      && net.Valid() && net.actionSize == actionSize
      && |memory| <= MemoryCapacity
      && ActionsBelow(memory, actionSize)
      && EpsilonFloor <= epsilon <= EpsilonStart
    }

    /** Two freshly initialised networks; the target one is then overwritten
        with the online weights. */
    constructor(stateSize: nat, actionSize: nat, sequenceLength: nat, net: Network<Window, W>,
                onlineInit: W, targetInit: W)
      requires net.Valid() && net.actionSize == actionSize
      ensures Valid() && memory == [] && epsilon == EpsilonStart
      ensures onlineWeights == onlineInit && targetWeights == onlineWeights
      ensures this.stateSize == stateSize && this.actionSize == actionSize
      ensures this.sequenceLength == sequenceLength && this.net == net
    {
      this.stateSize := stateSize;
      this.actionSize := actionSize;
      this.sequenceLength := sequenceLength;
      this.net := net;
      memory := [];
      epsilon := EpsilonStart;
      onlineWeights := onlineInit;
      targetWeights := targetInit;
      new;
      UpdateTargetModel();
    }

    method UpdateTargetModel()
      modifies this`targetWeights
      ensures targetWeights == onlineWeights
    {
      targetWeights := onlineWeights;
    }

    method Remember(state: Window, action: nat, reward: real, nextState: Window, done: bool)
      requires Valid() && action < actionSize
      modifies this`memory
      ensures Valid()
      ensures memory == Append(old(memory), Transition(state, action, reward, nextState, done), MemoryCapacity)
    {
      memory := Append(memory, Transition(state, action, reward, nextState, done), MemoryCapacity);
    }

    /** Epsilon-greedy choice: `u` is the `np.random.rand()` draw and
        `randomAction` the `random.randrange(action_size)` draw. */
    method Act(state: Window, u: real, randomAction: nat) returns (action: nat)
      requires Valid() && 0.0 <= u < 1.0 && randomAction < actionSize
      ensures action < actionSize
      ensures u <= epsilon ==> action == randomAction
      ensures epsilon < u ==> forall a :: 0 <= a < actionSize ==>
        net.predict(onlineWeights, state)[a] <= net.predict(onlineWeights, state)[action]
      ensures epsilon < u ==> action == Argmax(net.predict(onlineWeights, state))
    {
      if u <= epsilon {
        return randomAction;
      }
      var actValues := net.predict(onlineWeights, state);
      action := Argmax(actValues);
    }

    /** Trains the online network on `batchSize` transitions drawn at the
        positions `picks`, decays epsilon and re-syncs the target network. */
    method Replay(batchSize: nat, picks: seq<nat>) returns (r: Result<()>)
      requires Valid()
      requires batchSize <= |memory| ==> IsSample(picks, batchSize, |memory|)
      modifies this`onlineWeights, this`targetWeights, this`epsilon
      ensures Valid()
      ensures r.Err? <==> |memory| < batchSize
      ensures r.Err? ==> onlineWeights == old(onlineWeights) && targetWeights == old(targetWeights)
                         && epsilon == old(epsilon)
      ensures r.Ok? ==>
        && onlineWeights == FitBatch(net, TargetNetwork(old(targetWeights)), old(onlineWeights),
                                     Sample(memory, batchSize, picks).value)
        && epsilon == DecayEpsilon(old(epsilon))
        && targetWeights == onlineWeights
    {
      var minibatch := Sample(memory, batchSize, picks);
      if minibatch.Err? {
        return Err(minibatch.error);
      }
      onlineWeights := ReplayBatch(net, TargetNetwork(targetWeights), onlineWeights, minibatch.value);
      if epsilon > EpsilonMin {
        epsilon := epsilon * EpsilonDecay;
      }
      UpdateTargetModel();
      r := Ok(());
    }
  }

  /** The number of transitions held after one more `remember`. */
  function MemoryAfterRemember(n: nat): nat
  {
    if n < MemoryCapacity then n + 1 else MemoryCapacity
  }

  /** One iteration of the training loop: act, step the environment, shift
      the window, remember the transition, replay once the memory holds more
      than `BatchSize` transitions, and test for the terminal state. */
  method TrainStep<W(!new)>(env: Environment, agent: DDQNAgent<W>, state: Window,
                            u: real, randomAction: nat, cpuDraw: real, memoryDraw: real, picks: seq<nat>)
    returns (action: nat, nextState: Window, reward: real, done: bool)
    requires agent.Valid() && |state| == SequenceLength
    requires agent.stateSize == StateSize && agent.actionSize == ActionSize && agent.sequenceLength == SequenceLength
    requires 0.0 <= u < 1.0 && randomAction < agent.actionSize
    requires 0.0 <= cpuDraw < 1.0 && 0.0 <= memoryDraw < 1.0
    requires BatchSize < MemoryAfterRemember(|agent.memory|) ==>
      IsSample(picks, BatchSize, MemoryAfterRemember(|agent.memory|))
    modifies env`time, env`numVms, agent`memory, agent`onlineWeights, agent`targetWeights, agent`epsilon
    ensures agent.Valid() && action < agent.actionSize
    ensures u <= old(agent.epsilon) ==> action == randomAction
    ensures old(agent.epsilon) < u ==> action == Argmax(agent.net.predict(old(agent.onlineWeights), state))
    ensures env.numVms == NextVms(old(env.numVms), action) && env.time == old(env.time) + 1
    ensures reward == Reward(env.Capacity(env.time), env.Load(env.time), env.numVms)
    ensures nextState == Shift(state, Features(env.Load(env.time),
      env.ReadPercentage(env.time + SequenceLength), CpuUsage(cpuDraw), MemoryUsage(memoryDraw),
      env.Latency(env.time + SequenceLength)))
    ensures agent.memory == Append(old(agent.memory), Transition(state, action, reward, nextState, false), MemoryCapacity)
    ensures BatchSize < |agent.memory| ==>
      && agent.onlineWeights == FitBatch(agent.net, TargetNetwork(old(agent.targetWeights)), old(agent.onlineWeights),
                                         Sample(agent.memory, BatchSize, picks).value)
      && agent.epsilon == DecayEpsilon(old(agent.epsilon))
      && agent.targetWeights == agent.onlineWeights
    ensures |agent.memory| <= BatchSize ==>
      agent.epsilon == old(agent.epsilon) && agent.onlineWeights == old(agent.onlineWeights)
      && agent.targetWeights == old(agent.targetWeights)
    ensures done <==> env.numVms == MinVms && env.Load(env.time) == 1.0
  {
    action := agent.Act(state, u, randomAction);
    var numVms, nextLoad;
    numVms, nextLoad, reward := env.Step(action);
    var row := Features(nextLoad, env.ReadPercentage(env.time + SequenceLength), CpuUsage(cpuDraw),
                        MemoryUsage(memoryDraw), env.Latency(env.time + SequenceLength));
    nextState := Shift(state, row);
    // `done` is still false here: the flag is only set further down.
    agent.Remember(state, action, reward, nextState, false);
    if BatchSize < |agent.memory| {
      var replayed := agent.Replay(BatchSize, picks);
      assert replayed.Ok?;
    }
    done := numVms == MinVms && nextLoad == 1.0;
  }
}
