# Reinforcement-learning VM autoscaler: the discrete control skeleton

This project models, in Dafny, the control loop of a research harness that
trains an agent to choose how many virtual machines a simulated service runs.
It covers three agents:

- the Keras double-DQN agent together with its simulated environment and its
  training loop (`timeseries/Evaluation/doubledeep2.py`);
- the plain DQN agent trained over the rows of a metrics table
  (`timeseries/deeprl3.py`);
- the PyTorch double-DQN agent (`timeseries/Pytorch/ddqn.py`).

What is modelled:

- **Environment** (`DoubleDeep2.Environment`): a class with the mutable
  fields `time` and `numVms`. `Step` clamps the VM count to 1..20 under the
  actions 0 (remove a VM), 1 (keep) and 2 (add a VM). It advances the clock by
  exactly one. The reward is `min(capacity, load) - 3 * num_vms` at the new
  time. The load, read share and latency signals are the source's formulas
  over an injected sine function whose only assumed property is its range
  [-1, 1]. From that range the model proves load in [0, 100], read share in
  [0.5, 1], latency in [-0.1, 0.1] and the reward in [-60, 70].
- **Observation window**: built row by row at the start of an episode
  (`InitialWindow`). Each step shifts it by one row (`Shift`). The new row's
  load slot is the load returned by `step`, and its other slots are computed
  at `time + sequence_length`, as in the source. `SlidingWindow` states that
  after any number k of shifts the window is the last `sequence_length` rows
  of the old window followed by the k new ones, however long the episode
  runs.
- **Replay memory**: `deque(maxlen=N)` as a sequence field that `Remember`
  reassigns with `ReplayMemory.Append`. `FifoEviction` proves that the deque
  always holds exactly the newest N insertions, oldest first.
- **Replay**: `random.sample` is `QLearning.Sample`. Its positions are a
  parameter, and a sample larger than the memory is the error
  `InsufficientSamples`. Each transition's target is the reward when terminal,
  otherwise the reward plus `gamma` times the best next-state value
  (`TdTarget`). The vector fitted to is the online prediction with only the
  taken action's slot replaced (`MaskedTarget`, `FitTargets`). The loop over
  the minibatch is `ReplayBatch`, proved against the fold `FitBatch`. The
  double-DQN agents bootstrap from the target network and re-sync it after
  every replay. The plain DQN agent bootstraps from the network being
  trained (`QLearning.Bootstrap`).
- **Epsilon**: multiplied by 0.995 only while above 0.01. It never increases,
  it follows 0.995^n from 1.0 while above the minimum, and it freezes once at
  or below it.
- **Action selection**: `Act` returns the random draw on the exploring branch
  and the first argmax of the online prediction otherwise. Either way the
  result is below `action_size`.
- **Training iterations**: `DoubleDeep2.TrainStep` is one iteration of
  `train_agent`'s episode loop. `DeepRL3.VisitRow` and `DeepRL3.RunEpisode`
  are one pass of `run` over the table. Both replay only when the memory holds
  more than the batch size. Under that guard the sample never fails.

The neural network is the collaborator `QLearning.Network`. `predict(w, s)`
returns one value per action under weights `w`. `fit(w, s, v)` returns the
weights after one training step toward `v`. Its weights are a type parameter
`W` and nothing else is known about them.

Three behaviours of the code that the model keeps as written:

- Epsilon decays whenever it is strictly above `epsilon_min` = 0.01, so one
  step can end below it: 0.01005 becomes 0.00999975
  (`EpsilonCanDipBelowMin`). The agents therefore keep epsilon in
  `[0.01 * 0.995, 1]` (`EpsilonAboveFloor`, the agents' `Valid`).
- `step` increments the clock before it evaluates load and capacity, so the
  reward is taken at the new time; so does `Environment.Step`.
- In `train_agent` the transition is remembered before `done` is computed, so
  every transition stored during training has `done == false`. `TrainStep`
  states this, and the terminal branch of the target is never taken there.

## Model

| member | source | states |
|---|---|---|
| `ReplayMemory.Append` | timeseries/Evaluation/doubledeep2.py:84-85 | appending to a deque below its bound adds at the tail; appending to a full deque drops exactly the head; the length is min(old length + 1, bound), the new element is last, and nothing but the old elements and the new one is held |
| `ReplayMemory.AppendAll` | timeseries/deeprl3.py:19 | after any number of appends the memory length is min(inserted + initial, 2000), never above the bound |
| `ReplayMemory.AppendAllFrom` | timeseries/deeprl3.py:35-36 | after any number of appends every element held was held before or is one of the appended ones |
| `ReplayMemory.FifoEviction` | timeseries/Pytorch/ddqn.py:31-32 | the deque always equals the newest `maxlen` elements of the whole insertion history, in insertion order |
| `ReplayMemory.OldestEvictedFirst` | timeseries/Evaluation/doubledeep2.py:62 | after `maxlen + k` insertions into an empty deque exactly the `k` oldest are gone |
| `ReplayMemory.ThreeOfFour` | timeseries/Pytorch/ddqn.py:15 | a deque bounded at three receiving T1..T4 holds exactly T2, T3, T4 in that order |
| `QLearning.MaxOf` | timeseries/Evaluation/doubledeep2.py:102 | `np.amax` returns an element of the vector that no element exceeds |
| `QLearning.Argmax` | timeseries/Evaluation/doubledeep2.py:93 | `np.argmax` returns an index in range whose value no element exceeds, and every earlier index holds a strictly smaller value (first maximum) |
| `QLearning.ArgmaxAttainsMax` | timeseries/Evaluation/doubledeep2.py:92-93 | the greedy action's value is the maximum the bootstrap uses |
| `QLearning.TdTarget` | timeseries/Evaluation/doubledeep2.py:98-102 | terminal: the target is the reward; otherwise it is reward + 0.95 * v for some next-action value v and at least reward + 0.95 * v for every next-action value |
| `QLearning.MaskedTarget` | timeseries/Evaluation/doubledeep2.py:105-106 | the fitted vector has the prediction's length, holds the target at `action` and equals the prediction at every other index |
| `QLearning.FitTargets` | timeseries/Pytorch/ddqn.py:53-72 | for one transition the vector fitted to has `action_size` entries, holds at `action` the TD target computed from the bootstrap network's prediction for the next state, and equals the online prediction for the state elsewhere |
| `QLearning.FitBatchConcat` | timeseries/Evaluation/doubledeep2.py:97-107 | updating over a minibatch processes the transitions strictly in order: two batches in sequence equal their concatenation |
| `QLearning.ReplayBatch` | timeseries/Pytorch/ddqn.py:52-80 | the per-transition loop of `replay` yields exactly the fold `FitBatch`: one fit per transition, in minibatch order, each toward its masked target |
| `QLearning.DecayEpsilon` | timeseries/Evaluation/doubledeep2.py:108-109 | epsilon never increases, stays unchanged exactly when it is at or below 0.01, and stays at or above 0.01 * 0.995 if it was |
| `QLearning.EpsilonNonIncreasing` | timeseries/deeprl3.py:53-54 | epsilon after n replay calls is at most epsilon after m calls whenever m <= n |
| `QLearning.EpsilonAboveFloor` | timeseries/Pytorch/ddqn.py:83-84 | started at or above 0.01 * 0.995, epsilon stays there across any number of replays |
| `QLearning.EpsilonConverged` | timeseries/deeprl3.py:53-54 | once epsilon is at or below 0.01, further replays leave it unchanged |
| `QLearning.EpsilonGeometric` | timeseries/Pytorch/ddqn.py:17-19 | from 1.0, epsilon after n replays is 0.995^n as long as 0.995^(n-1) is above 0.01 |
| `QLearning.EpsilonCanDipBelowMin` | timeseries/Pytorch/ddqn.py:83-84 | one decay step from 0.01005 ends below 0.01 |
| `QLearning.PickWithoutReplacement` | timeseries/Evaluation/doubledeep2.py:96 | drawing distinct positions yields a sub-multiset of the memory |
| `QLearning.Sample` | timeseries/deeprl3.py:45 | `random.sample` fails exactly when the batch is larger than the memory; otherwise it returns `batch_size` transitions, the ones at the drawn positions, and a sub-multiset of the memory |
| `DoubleDeep2.NextVms` | timeseries/Evaluation/doubledeep2.py:42-46 | the VM count stays in [1, 20] if it started there, changes by at most one, drops exactly for action 0 above one VM and rises exactly for action 2 below twenty |
| `DoubleDeep2.Reward` | timeseries/Evaluation/doubledeep2.py:51 | the reward is the smaller of capacity and load, minus 3 per VM |
| `DoubleDeep2.CpuUsage` | timeseries/Evaluation/doubledeep2.py:32-33 | a CPU usage draw lies in [30, 50) |
| `DoubleDeep2.MemoryUsage` | timeseries/Evaluation/doubledeep2.py:35-36 | a memory usage draw lies in [40, 60) |
| `DoubleDeep2.Environment.constructor` | timeseries/Evaluation/doubledeep2.py:12-21 | a new environment starts at time 0 with 6 VMs |
| `DoubleDeep2.Environment.Load` | timeseries/Evaluation/doubledeep2.py:23-24 | the load lies in [0, 100] |
| `DoubleDeep2.Environment.ReadPercentage` | timeseries/Evaluation/doubledeep2.py:26-27 | the read share lies in [0.5, 1] |
| `DoubleDeep2.Environment.Capacity` | timeseries/Evaluation/doubledeep2.py:29-30 | capacity lies between 5 and 10 per VM |
| `DoubleDeep2.Environment.Latency` | timeseries/Evaluation/doubledeep2.py:38-39 | the latency lies in [-0.1, 0.1] |
| `DoubleDeep2.Environment.Step` | timeseries/Evaluation/doubledeep2.py:41-53 | the VM count becomes `NextVms` of the old count, the clock advances by exactly one, only these two fields change, the VM count stays in range, and the result is the new count, the load at the new time and the reward at the new time |
| `DoubleDeep2.RewardBounds` | timeseries/Evaluation/doubledeep2.py:49-51 | with 1..20 VMs every reward lies in [-60, 70]: the served load is at most 10 per VM and at most 100, and each VM costs 3 |
| `DoubleDeep2.InitialWindow` | timeseries/Evaluation/doubledeep2.py:124-130 | the first window has `sequence_length` rows, row t holding load, read share and latency at `time + t` and that row's CPU and memory draws |
| `DoubleDeep2.Shift` | timeseries/Evaluation/doubledeep2.py:139-141 | the next window keeps its length, row i is the old row i+1, and the last row is the new one |
| `DoubleDeep2.SlidingWindow` | timeseries/Evaluation/doubledeep2.py:139-148 | after any number k of shifts the window is the last `sequence_length` rows of the old window followed by the k new rows |
| `DoubleDeep2.SlidingWindowShort` | timeseries/Evaluation/doubledeep2.py:139-148 | while k is at most `sequence_length`, the window after k shifts is the old window without its k oldest rows, followed by the k new rows |
| `DoubleDeep2.DDQNAgent.constructor` | timeseries/Evaluation/doubledeep2.py:58-70 | the agent starts with empty memory, epsilon 1.0 and target weights equal to the online weights |
| `DoubleDeep2.DDQNAgent.UpdateTargetModel` | timeseries/Evaluation/doubledeep2.py:81-82 | after the sync the target weights equal the online weights |
| `DoubleDeep2.DDQNAgent.Remember` | timeseries/Evaluation/doubledeep2.py:84-85 | the transition is appended to the memory bounded at 2000 |
| `DoubleDeep2.DDQNAgent.Act` | timeseries/Evaluation/doubledeep2.py:87-93 | the action is below `action_size`; it is the random draw when the uniform draw is at most epsilon, else the first argmax of the online prediction |
| `DoubleDeep2.DDQNAgent.Replay` | timeseries/Evaluation/doubledeep2.py:95-111 | fails without any change when the batch exceeds the memory; otherwise the online weights are fitted over the sample bootstrapping from the old target weights, epsilon decays, and target equals online afterwards |
| `DoubleDeep2.TrainStep` | timeseries/Evaluation/doubledeep2.py:134-154 | one training iteration of the agent `train_agent` builds (5 features, 3 actions, 10 rows) takes the random draw when the uniform draw is at most epsilon and otherwise the first argmax of the online prediction, steps the environment, shifts in a row whose load is the returned load, remembers the transition with `done` false, replays exactly when the memory holds more than 32 transitions (then the online weights are fitted over the sample bootstrapping from the old target weights, epsilon decays and the target is re-synced; otherwise nothing of the agent but its memory changes), and is terminal exactly when there is one VM and the load is 1 |
| `DeepRL3.OnlyLastRowTerminal` | timeseries/deeprl3.py:68 | no transition of a pass other than the last row's is terminal |
| `DeepRL3.StoredRewardsTotal` | timeseries/deeprl3.py:67-70 | the rewards a full pass stores in the memory add up to the total reward it accumulates |
| `DeepRL3.FollowsPolicyAt` | timeseries/deeprl3.py:65 | every action of a pass is the row's random draw when its uniform draw is at most the epsilon left by the earlier rows' replays, and otherwise the first argmax of the prediction under the weights those replays left |
| `DeepRL3.DQNAgent.constructor` | timeseries/deeprl3.py:16-25 | the agent starts with empty memory and epsilon 1.0 |
| `DeepRL3.DQNAgent.Remember` | timeseries/deeprl3.py:35-36 | the transition is appended to the memory bounded at 2000 |
| `DeepRL3.DQNAgent.Act` | timeseries/deeprl3.py:38-42 | the action is below `action_size`; it is the random draw when the uniform draw is at most epsilon, else the first argmax of the prediction |
| `DeepRL3.DQNAgent.Replay` | timeseries/deeprl3.py:44-54 | fails without any change when the batch exceeds the memory; otherwise the weights are fitted over the sample bootstrapping from the network being trained, and epsilon decays |
| `DeepRL3.VisitRow` | timeseries/deeprl3.py:64-76 | one row: the action is the random draw when the uniform draw is at most epsilon and otherwise the first argmax of the prediction; the row's transition is remembered; replay happens exactly when the memory holds more than 32 transitions, and then the weights are fitted over the sample bootstrapping from the network being trained and epsilon decays, otherwise weights and epsilon are unchanged; only that row's `num_vms` entry changes, to 6 + action |
| `DeepRL3.RunEpisode` | timeseries/deeprl3.py:61-77 | a pass over the table accumulates the sum of the row rewards, writes 6 + action (an action below `action_size`) to every row's `num_vms`, leaves the memory equal to the old memory with the pass's transitions appended, decays epsilon once per row that replays (`ReplayCount`), leaves the weights fitted once per replaying row over that row's sample (`WeightsAfter`), and picks every action by the epsilon-greedy policy under the epsilon and weights of its row (`FollowsPolicy`) |
| `TorchDDQN.DDQNAgent.constructor` | timeseries/Pytorch/ddqn.py:11-26 | the agent starts with empty memory, epsilon 1.0 and target weights equal to the online weights |
| `TorchDDQN.DDQNAgent.UpdateTargetModel` | timeseries/Pytorch/ddqn.py:28-29 | after the sync the target weights equal the online weights |
| `TorchDDQN.DDQNAgent.Remember` | timeseries/Pytorch/ddqn.py:31-32 | the transition is appended to the memory bounded at 500 |
| `TorchDDQN.DDQNAgent.Act` | timeseries/Pytorch/ddqn.py:34-46 | the action is below `action_size`; it is the random draw when the uniform draw is at most epsilon, else the first argmax of the online output |
| `TorchDDQN.DDQNAgent.Replay` | timeseries/Pytorch/ddqn.py:49-86 | fails without any change when the batch exceeds the memory; otherwise one optimizer step per sampled transition bootstrapping from the old target weights, epsilon decays, and target equals online afterwards |

## Left out

- Network internals: the Keras LSTM and Dense layers, Adam, the PyTorch
  `myLSTM`, `MSELoss`, `zero_grad`, `backward` and the `eval()`/`train()` mode
  switches. They are the opaque `predict` and `fit` of `QLearning.Network`.
  The optimizer's own state is not modelled apart from the weights.
- Reshaping states with `np.array`, `np.reshape` and `torch.tensor`: states
  are values of an abstract type, or the `Features` window.
- `np.sin` is a parameter of the environment, assumed only to lie in [-1, 1].
  `np.pi` is its float value written as a decimal.
- Floating point: rewards, signals and epsilon are exact reals, with no
  rounding, NaN or infinity.
- Random draws: `np.random.rand`, `random.randrange`, the positions
  `random.sample` draws and the underlying draws of `np.random.uniform` are
  parameters. Their distributions are not modelled.
- `train_agent`'s `while not done` episode loop, its outer loop over training
  steps, the `total_reward` accumulation and the rewards list. The loop is
  modelled one iteration at a time (`TrainStep`) because its exit test
  compares a float load with 1 and is practically never met.
- `evaluate_agent`, the `__main__` sweeps, `print`, timing, reward files,
  `save_weights`/`load_weights`, `pd.read_csv`, `df.to_csv` and the result
  tables are driver code and file I/O.
- `run`'s repetition of the pass over the table for 10 episodes and the
  saving of the table every 10th episode. One pass is `RunEpisode`.
- The table of `deeprl3.py` is assumed to have the default index 0..n-1, so
  its last index is the last row's position.
- `DoubleDeep2.DDQNAgent.Remember` requires the action to be below
  `action_size`, and so do the other `Remember` methods. The source stores
  any action; an out-of-range one would fail in `replay` only if that
  transition were sampled. Every call site (`doubledeep2.py` lines 135 and
  147, `deeprl3.py` lines 65 and 69) passes the result of `act`, which is
  already below `action_size`, so the callers always meet the requirement.
- `DoubleDeep2.CpuUsage`: `t` is dropped, since the source ignores it.
- `DoubleDeep2.MemoryUsage`: `t` is dropped, since the source ignores it.
