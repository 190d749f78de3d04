/** The plain DQN agent trained over the rows of a table of recorded system
    metrics: one network both chooses actions and supplies the bootstrap
    estimate, and there is no target network. */
module DeepRL3 {
  import opened QLearning
  import opened ReplayMemory

  const MemoryCapacity: nat := 2000
  const BatchSize: nat := 32
  const StartingVms: int := 6

  /** One table row; it is also the agent's state. */
  datatype Metrics = Metrics(throughput: real, latency: real, cpuUsage: real, memoryUsage: real)

  /** Per-row reward: throughput minus latency, CPU usage and memory usage. */
  function RowReward(row: Metrics): (r: real)
    ensures r + row.latency + row.cpuUsage + row.memoryUsage == row.throughput
  {
    row.throughput - row.latency - row.cpuUsage - row.memoryUsage
  }

  /** Sum of the rewards of `rows`. */
  function TotalReward(rows: seq<Metrics>): real
    decreases |rows|
  {
    if rows == [] then 0.0 else TotalReward(rows[..|rows| - 1]) + RowReward(rows[|rows| - 1])
  }

  /** The total of the first `k + 1` rows adds row `k`'s reward. */
  lemma TotalRewardSnoc(rows: seq<Metrics>, k: nat)
    requires k < |rows|
    ensures TotalReward(rows[..k + 1]) == TotalReward(rows[..k]) + RowReward(rows[k])
  {
    assert rows[..k + 1][..k] == rows[..k];
  }

  /** The transition remembered for row `i` after taking `action`: the next
      state is the row itself, and only the last row of the table ends the
      episode. */
  function RowTransition(rows: seq<Metrics>, i: nat, action: nat): (tr: Transition<Metrics>)
    requires i < |rows|
    ensures tr.state == rows[i] && tr.nextState == rows[i] && tr.action == action
    ensures tr.reward == RowReward(rows[i])
    ensures tr.done <==> i == |rows| - 1
  {
    Transition(rows[i], action, RowReward(rows[i]), rows[i], i == |rows| - 1)
  }

  /** The transitions of the first `|actions|` rows. */
  function EpisodeTransitions(rows: seq<Metrics>, actions: seq<nat>): (trs: seq<Transition<Metrics>>)
    requires |actions| <= |rows|
    ensures |trs| == |actions|
    ensures forall i :: 0 <= i < |actions| ==> trs[i] == RowTransition(rows, i, actions[i])
  {
    seq(|actions|, i requires 0 <= i < |actions| => RowTransition(rows, i, actions[i]))
  }

  /** At most one remembered transition of an episode is terminal: the one of
      the last row, and it is only there once every row has been visited. */
  lemma OnlyLastRowTerminal(rows: seq<Metrics>, actions: seq<nat>, i: nat, j: nat)
    requires |actions| <= |rows| && i < j < |actions|
    ensures !EpisodeTransitions(rows, actions)[i].done
    ensures EpisodeTransitions(rows, actions)[j].done ==> |actions| == |rows| && j == |rows| - 1
  {
  }

  /** The sum of the rewards stored in `trs`. */
  function StoredRewards(trs: seq<Transition<Metrics>>): real
    decreases |trs|
  {
    if trs == [] then 0.0 else StoredRewards(trs[..|trs| - 1]) + trs[|trs| - 1].reward
  }

  /** The rewards stored during the first `k` rows of a pass add up to the
      total reward of those rows. */
  lemma {:induction false} StoredRewardsPrefix(rows: seq<Metrics>, actions: seq<nat>, k: nat)
    requires |actions| <= |rows| && k <= |actions|
    ensures StoredRewards(EpisodeTransitions(rows, actions)[..k]) == TotalReward(rows[..k])
    decreases k
  {
    var trs := EpisodeTransitions(rows, actions);
    if k > 0 {
      StoredRewardsPrefix(rows, actions, k - 1);
      assert trs[..k][..k - 1] == trs[..k - 1];
      assert rows[..k][..k - 1] == rows[..k - 1];
    }
  }

  /** The total reward a full pass reports is the sum of the rewards it
      stores in the memory. */
  lemma StoredRewardsTotal(rows: seq<Metrics>, actions: seq<nat>)
    requires |actions| == |rows|
    ensures StoredRewards(EpisodeTransitions(rows, actions)) == TotalReward(rows)
  {
    var trs := EpisodeTransitions(rows, actions);
    StoredRewardsPrefix(rows, actions, |rows|);
    assert trs[..|rows|] == trs;
    assert rows[..|rows|] == rows;
  }

  class DQNAgent<W(!new)> {
    const stateSize: nat
    const actionSize: nat
    const net: Network<Metrics, W>
    var memory: seq<Transition<Metrics>>
    var epsilon: real
    var weights: W

    ghost predicate Valid()
      reads this
    {
      && net.Valid() && net.actionSize == actionSize
      && |memory| <= MemoryCapacity
      && ActionsBelow(memory, actionSize)
      && EpsilonFloor <= epsilon <= EpsilonStart
    }

    constructor(stateSize: nat, actionSize: nat, net: Network<Metrics, W>, init: W)
      requires net.Valid() && net.actionSize == actionSize
      ensures Valid() && memory == [] && epsilon == EpsilonStart && weights == init
      ensures this.stateSize == stateSize && this.actionSize == actionSize && this.net == net
    {
      this.stateSize := stateSize;
      this.actionSize := actionSize;
      this.net := net;
      memory := [];
      epsilon := EpsilonStart;
      weights := init;
    }

    method Remember(state: Metrics, action: nat, reward: real, nextState: Metrics, done: bool)
      requires Valid() && action < actionSize
      modifies this`memory
      ensures Valid()
      ensures memory == Append(old(memory), Transition(state, action, reward, nextState, done), MemoryCapacity)
    {
      memory := Append(memory, Transition(state, action, reward, nextState, done), MemoryCapacity);
    }

    /** Epsilon-greedy choice: `u` is the `np.random.rand()` draw and
        `randomAction` the `random.randrange(action_size)` draw. */
    method Act(state: Metrics, u: real, randomAction: nat) returns (action: nat)
      requires Valid() && 0.0 <= u < 1.0 && randomAction < actionSize
      ensures action < actionSize
      ensures u <= epsilon ==> action == randomAction
      ensures epsilon < u ==> forall a :: 0 <= a < actionSize ==>
        net.predict(weights, state)[a] <= net.predict(weights, state)[action]
      ensures epsilon < u ==> action == Argmax(net.predict(weights, state))
    {
      if u <= epsilon {
        return randomAction;
      }
      var actValues := net.predict(weights, state);
      action := Argmax(actValues);
    }

    /** Trains the network on `batchSize` transitions drawn at the positions
        `picks`, bootstrapping from the network being trained, then decays
        epsilon. */
    method Replay(batchSize: nat, picks: seq<nat>) returns (r: Result<()>)
      requires Valid()
      requires batchSize <= |memory| ==> IsSample(picks, batchSize, |memory|)
      modifies this`weights, this`epsilon
      ensures Valid()
      ensures r.Err? <==> |memory| < batchSize
      ensures r.Err? ==> weights == old(weights) && epsilon == old(epsilon)
      ensures r.Ok? ==>
        && weights == FitBatch(net, SameNetwork, old(weights), Sample(memory, batchSize, picks).value)
        && epsilon == DecayEpsilon(old(epsilon))
    {
      var minibatch := Sample(memory, batchSize, picks);
      if minibatch.Err? {
        return Err(minibatch.error);
      }
      weights := ReplayBatch(net, SameNetwork, weights, minibatch.value);
      if epsilon > EpsilonMin {
        epsilon := epsilon * EpsilonDecay;
      }
      r := Ok(());
    }
  }

  /** Memory size after `k` more `remember` calls on a memory of size `n`. */
  function MemoryAfter(n: nat, k: nat): nat
  {
    if n + k < MemoryCapacity then n + k else MemoryCapacity
  }

  /** The number of replays during the first `k` rows of a pass that starts
      with `n` remembered transitions: row `i` replays when the memory holds
      more than `BatchSize` transitions after its own `remember`. */
  function ReplayCount(n: nat, k: nat): nat
  {
    if k == 0 then 0 else ReplayCount(n, k - 1) + (if BatchSize < MemoryAfter(n, k) then 1 else 0)
  }

  /** Epsilon after the replays of `k + 1` rows, from epsilon after `k`. */
  lemma ReplayCountStep(epsilon0: real, n: nat, k: nat)
    ensures EpsilonAfter(epsilon0, ReplayCount(n, k + 1)) ==
      if BatchSize < MemoryAfter(n, k + 1) then DecayEpsilon(EpsilonAfter(epsilon0, ReplayCount(n, k)))
      else EpsilonAfter(epsilon0, ReplayCount(n, k))
  {
  }

  /** Only the old memory's transitions and the pass's own ones are ever
      remembered, so every remembered action stays below `n`. */
  lemma ActionsBelowAfterPass(m0: seq<Transition<Metrics>>, rows: seq<Metrics>, actions: seq<nat>, n: nat)
    requires |m0| <= MemoryCapacity && |actions| <= |rows| && ActionsBelow(m0, n)
    requires forall i :: 0 <= i < |actions| ==> actions[i] < n
    ensures ActionsBelow(AppendAll(m0, EpisodeTransitions(rows, actions), MemoryCapacity), n)
  {
    var trs := EpisodeTransitions(rows, actions);
    var memory := AppendAll(m0, trs, MemoryCapacity);
    AppendAllFrom(m0, trs, MemoryCapacity);
    forall i | 0 <= i < |memory| ensures memory[i].action < n {
      assert memory[i] in memory;
      if memory[i] in m0 {
        var j :| 0 <= j < |m0| && m0[j] == memory[i];
      } else {
        var j :| 0 <= j < |trs| && trs[j] == memory[i];
      }
    }
  }

  /** The weights after the rows that chose `actions`, starting from weights
      `w0` and memory `m0`, with `picks[i]` the positions row `i` samples:
      each row that replays fits the weights over its sample of the memory as
      it stands after that row's `remember`. */
  function WeightsAfter<W(!new)>(net: Network<Metrics, W>, w0: W, m0: seq<Transition<Metrics>>,
                                 rows: seq<Metrics>, actions: seq<nat>, picks: seq<seq<nat>>): W
    requires net.Valid() && |m0| <= MemoryCapacity && ActionsBelow(m0, net.actionSize)
    requires |actions| <= |rows| && |actions| <= |picks|
    requires forall i :: 0 <= i < |actions| ==> actions[i] < net.actionSize
    requires forall i :: 0 <= i < |actions| && BatchSize < MemoryAfter(|m0|, i + 1) ==>
      IsSample(picks[i], BatchSize, MemoryAfter(|m0|, i + 1))
    decreases |actions|
  {
    if actions == [] then w0
    else
      var k := |actions| - 1;
      var w := WeightsAfter(net, w0, m0, rows, actions[..k], picks);
      var memory := AppendAll(m0, EpisodeTransitions(rows, actions), MemoryCapacity);
      ActionsBelowAfterPass(m0, rows, actions, net.actionSize);
      assert |memory| == MemoryAfter(|m0|, k + 1);
      if BatchSize < |memory| then FitBatch(net, SameNetwork, w, Sample(memory, BatchSize, picks[k]).value) else w
  }

  /** The body of the loop over the table for row `index`: choose an
      action, remember the row's transition, replay once the memory holds more
      than `BatchSize` transitions, and record `6 + action` in the row's
      `num_vms` column. `u`, `randomAction` and `picks` are the row's random
      draws. */
  method VisitRow<W(!new)>(agent: DQNAgent<W>, rows: seq<Metrics>, index: nat, numVms: array<int>,
                           u: real, randomAction: nat, picks: seq<nat>)
    returns (action: nat, reward: real)
    requires agent.Valid() && index < |rows| && numVms.Length == |rows|
    requires 0.0 <= u < 1.0 && randomAction < agent.actionSize
    requires BatchSize < MemoryAfter(|agent.memory|, 1) ==> IsSample(picks, BatchSize, MemoryAfter(|agent.memory|, 1))
    modifies agent`memory, agent`weights, agent`epsilon, numVms
    ensures agent.Valid() && action < agent.actionSize && reward == RowReward(rows[index])
    ensures u <= old(agent.epsilon) ==> action == randomAction
    ensures old(agent.epsilon) < u ==> action == Argmax(agent.net.predict(old(agent.weights), rows[index]))
    ensures agent.memory == Append(old(agent.memory), RowTransition(rows, index, action), MemoryCapacity)
    ensures numVms[..] == old(numVms[..])[index := StartingVms + action]
    ensures BatchSize < |agent.memory| ==> agent.epsilon == DecayEpsilon(old(agent.epsilon))
    ensures BatchSize < |agent.memory| ==>
      agent.weights == FitBatch(agent.net, SameNetwork, old(agent.weights), Sample(agent.memory, BatchSize, picks).value)
    ensures |agent.memory| <= BatchSize ==> agent.epsilon == old(agent.epsilon) && agent.weights == old(agent.weights)
  {
    var state := rows[index];
    action := agent.Act(state, u, randomAction);
    var nextState := state;
    reward := RowReward(state);
    var done := index == |rows| - 1;
    agent.Remember(state, action, reward, nextState, done);
    if BatchSize < |agent.memory| {
      var replayed := agent.Replay(BatchSize, picks);
      assert replayed.Ok?;
    }
    numVms[index] := StartingVms + action;
  }

  /** The actions of the first `|actions|` rows are the ones the agent's
      epsilon-greedy policy picks: row `k` explores with its random draw when
      its uniform draw is at most the epsilon left after the replays of the
      earlier rows, and otherwise takes the first argmax of the prediction
      under the weights those replays left. */
  predicate FollowsPolicy<W(!new)>(net: Network<Metrics, W>, w0: W, m0: seq<Transition<Metrics>>, epsilon0: real,
                                   rows: seq<Metrics>, us: seq<real>, randomActions: seq<nat>,
                                   picks: seq<seq<nat>>, actions: seq<nat>)
    requires net.Valid() && |m0| <= MemoryCapacity && ActionsBelow(m0, net.actionSize)
    requires |actions| <= |rows| && |actions| <= |picks| && |actions| <= |us| && |actions| <= |randomActions|
    requires forall i :: 0 <= i < |actions| ==> actions[i] < net.actionSize
    requires forall i :: 0 <= i < |actions| && BatchSize < MemoryAfter(|m0|, i + 1) ==>
      IsSample(picks[i], BatchSize, MemoryAfter(|m0|, i + 1))
    decreases |actions|
  {
    actions == [] ||
    var k := |actions| - 1;
    var epsilon := EpsilonAfter(epsilon0, ReplayCount(|m0|, k));
    && FollowsPolicy(net, w0, m0, epsilon0, rows, us, randomActions, picks, actions[..k])
    && (us[k] <= epsilon ==> actions[k] == randomActions[k])
    && (epsilon < us[k] ==>
          actions[k] == Argmax(net.predict(WeightsAfter(net, w0, m0, rows, actions[..k], picks), rows[k])))
  }

  /** `FollowsPolicyAt` for every row of the pass at once. */
  lemma FollowsPolicyRows<W(!new)>(net: Network<Metrics, W>, w0: W, m0: seq<Transition<Metrics>>,
                                   epsilon0: real, rows: seq<Metrics>, us: seq<real>,
                                   randomActions: seq<nat>, picks: seq<seq<nat>>, actions: seq<nat>)
    requires net.Valid() && |m0| <= MemoryCapacity && ActionsBelow(m0, net.actionSize)
    requires |actions| <= |rows| && |actions| <= |picks| && |actions| <= |us| && |actions| <= |randomActions|
    requires forall j :: 0 <= j < |actions| ==> actions[j] < net.actionSize
    requires forall j :: 0 <= j < |actions| && BatchSize < MemoryAfter(|m0|, j + 1) ==>
      IsSample(picks[j], BatchSize, MemoryAfter(|m0|, j + 1))
    requires FollowsPolicy(net, w0, m0, epsilon0, rows, us, randomActions, picks, actions)
    ensures forall i :: 0 <= i < |actions| && us[i] <= EpsilonAfter(epsilon0, ReplayCount(|m0|, i)) ==>
      actions[i] == randomActions[i]
    ensures forall i :: 0 <= i < |actions| && EpsilonAfter(epsilon0, ReplayCount(|m0|, i)) < us[i] ==>
      actions[i] == Argmax(net.predict(WeightsAfter(net, w0, m0, rows, actions[..i], picks), rows[i]))
  {
    forall i | 0 <= i < |actions|
      ensures us[i] <= EpsilonAfter(epsilon0, ReplayCount(|m0|, i)) ==> actions[i] == randomActions[i]
      ensures EpsilonAfter(epsilon0, ReplayCount(|m0|, i)) < us[i] ==>
        actions[i] == Argmax(net.predict(WeightsAfter(net, w0, m0, rows, actions[..i], picks), rows[i]))
    {
      FollowsPolicyAt(net, w0, m0, epsilon0, rows, us, randomActions, picks, actions, i);
    }
  }

  /** `WeightsAfter` and `FollowsPolicy` for one more row, in terms of the
      rows before it. */
  lemma PassSnoc<W(!new)>(net: Network<Metrics, W>, w0: W, m0: seq<Transition<Metrics>>, epsilon0: real,
                          rows: seq<Metrics>, us: seq<real>, randomActions: seq<nat>, picks: seq<seq<nat>>,
                          before: seq<nat>, action: nat)
    requires net.Valid() && |m0| <= MemoryCapacity && ActionsBelow(m0, net.actionSize)
    requires |before| < |rows| && |before| < |picks| && |before| < |us| && |before| < |randomActions|
    requires forall i :: 0 <= i < |before| ==> before[i] < net.actionSize
    requires action < net.actionSize
    requires forall i :: 0 <= i <= |before| && BatchSize < MemoryAfter(|m0|, i + 1) ==>
      IsSample(picks[i], BatchSize, MemoryAfter(|m0|, i + 1))
    ensures var actions, k := before + [action], |before|;
      var epsilon := EpsilonAfter(epsilon0, ReplayCount(|m0|, k));
      var w := WeightsAfter(net, w0, m0, rows, before, picks);
      var memory := AppendAll(m0, EpisodeTransitions(rows, actions), MemoryCapacity);
      && |memory| == MemoryAfter(|m0|, k + 1)
      && ActionsBelow(memory, net.actionSize)
      && WeightsAfter(net, w0, m0, rows, actions, picks) ==
           (if BatchSize < |memory| then FitBatch(net, SameNetwork, w, Sample(memory, BatchSize, picks[k]).value) else w)
      && (FollowsPolicy(net, w0, m0, epsilon0, rows, us, randomActions, picks, actions) <==>
           && FollowsPolicy(net, w0, m0, epsilon0, rows, us, randomActions, picks, before)
           && (us[k] <= epsilon ==> action == randomActions[k])
           && (epsilon < us[k] ==> action == Argmax(net.predict(w, rows[k]))))
  {
    var actions := before + [action];
    assert actions[..|before|] == before;
    ActionsBelowAfterPass(m0, rows, actions, net.actionSize);
  }

  /** Row by row: every action of a pass that follows the policy is the
      random draw or the greedy choice, as that row's epsilon decides. */
  lemma {:induction false} FollowsPolicyAt<W(!new)>(net: Network<Metrics, W>, w0: W, m0: seq<Transition<Metrics>>,
                                                    epsilon0: real, rows: seq<Metrics>, us: seq<real>,
                                                    randomActions: seq<nat>, picks: seq<seq<nat>>,
                                                    actions: seq<nat>, i: nat)
    requires net.Valid() && |m0| <= MemoryCapacity && ActionsBelow(m0, net.actionSize)
    requires |actions| <= |rows| && |actions| <= |picks| && |actions| <= |us| && |actions| <= |randomActions|
    requires forall j :: 0 <= j < |actions| ==> actions[j] < net.actionSize
    requires forall j :: 0 <= j < |actions| && BatchSize < MemoryAfter(|m0|, j + 1) ==>
      IsSample(picks[j], BatchSize, MemoryAfter(|m0|, j + 1))
    requires FollowsPolicy(net, w0, m0, epsilon0, rows, us, randomActions, picks, actions)
    requires i < |actions|
    ensures us[i] <= EpsilonAfter(epsilon0, ReplayCount(|m0|, i)) ==> actions[i] == randomActions[i]
    ensures EpsilonAfter(epsilon0, ReplayCount(|m0|, i)) < us[i] ==>
      actions[i] == Argmax(net.predict(WeightsAfter(net, w0, m0, rows, actions[..i], picks), rows[i]))
    decreases |actions|
  {
    var k := |actions| - 1;
    if i < k {
      var front := actions[..k];
      FollowsPolicyAt(net, w0, m0, epsilon0, rows, us, randomActions, picks, front, i);
      assert front[..i] == actions[..i];
    }
  }

  /** What the agent holds after the rows that chose `actions`, in a pass
      that began with weights `w0`, memory `m0` and epsilon `epsilon0`: the
      memory is the old one with those rows' transitions appended, epsilon
      has decayed once per replay, the weights are `WeightsAfter`, and the
      actions followed the policy. */
  ghost predicate PassAccount<W(!new)>(net: Network<Metrics, W>, w0: W, m0: seq<Transition<Metrics>>, epsilon0: real,
                                       rows: seq<Metrics>, us: seq<real>, randomActions: seq<nat>,
                                       picks: seq<seq<nat>>, actions: seq<nat>,
                                       memory: seq<Transition<Metrics>>, epsilon: real, weights: W)
  {
    && net.Valid() && |m0| <= MemoryCapacity && ActionsBelow(m0, net.actionSize)
    && |actions| <= |rows| && |us| == |rows| && |randomActions| == |rows| && |picks| == |rows|
    && (forall i :: 0 <= i < |actions| ==> actions[i] < net.actionSize)
    && (forall i :: 0 <= i < |rows| && BatchSize < MemoryAfter(|m0|, i + 1) ==>
          IsSample(picks[i], BatchSize, MemoryAfter(|m0|, i + 1)))
    && memory == AppendAll(m0, EpisodeTransitions(rows, actions), MemoryCapacity)
    && epsilon == EpsilonAfter(epsilon0, ReplayCount(|m0|, |actions|))
    && weights == WeightsAfter(net, w0, m0, rows, actions, picks)
    && FollowsPolicy(net, w0, m0, epsilon0, rows, us, randomActions, picks, actions)
  }

  /** One more row keeps the pass's account: `memory'`, `epsilon'` and
      `weights'` are what `VisitRow` leaves after choosing `action`. */
  lemma PassAccountStep<W(!new)>(net: Network<Metrics, W>, w0: W, m0: seq<Transition<Metrics>>, epsilon0: real,
                                 rows: seq<Metrics>, us: seq<real>, randomActions: seq<nat>, picks: seq<seq<nat>>,
                                 before: seq<nat>, memory: seq<Transition<Metrics>>, epsilon: real, weights: W,
                                 action: nat, memory': seq<Transition<Metrics>>, epsilon': real, weights': W)
    requires PassAccount(net, w0, m0, epsilon0, rows, us, randomActions, picks, before, memory, epsilon, weights)
    requires |before| < |rows| && action < net.actionSize && |memory| <= MemoryCapacity
    requires memory' == Append(memory, RowTransition(rows, |before|, action), MemoryCapacity)
    requires |memory'| == MemoryAfter(|m0|, |before| + 1) && ActionsBelow(memory', net.actionSize)
    requires us[|before|] <= epsilon ==> action == randomActions[|before|]
    requires epsilon < us[|before|] ==> action == Argmax(net.predict(weights, rows[|before|]))
    requires BatchSize < |memory'| ==>
      && epsilon' == DecayEpsilon(epsilon)
      && weights' == FitBatch(net, SameNetwork, weights, Sample(memory', BatchSize, picks[|before|]).value)
    requires |memory'| <= BatchSize ==> epsilon' == epsilon && weights' == weights
    ensures PassAccount(net, w0, m0, epsilon0, rows, us, randomActions, picks, before + [action],
                        memory', epsilon', weights')
  {
    var index := |before|;
    ReplayCountStep(epsilon0, |m0|, index);
    PassSnoc(net, w0, m0, epsilon0, rows, us, randomActions, picks, before, action);
    assert EpisodeTransitions(rows, before + [action])[..index] == EpisodeTransitions(rows, before);
  }

  /** `VisitRow` for row `index` of a pass, where `before` are the earlier
      rows' actions: the pass's account of the agent extends by one row. */
  method VisitNextRow<W(!new)>(agent: DQNAgent<W>, rows: seq<Metrics>, index: nat, numVms: array<int>,
                               us: seq<real>, randomActions: seq<nat>, picks: seq<seq<nat>>,
                               ghost w0: W, ghost m0: seq<Transition<Metrics>>, ghost epsilon0: real,
                               ghost before: seq<nat>)
    returns (action: nat, reward: real)
    requires agent.Valid() && numVms.Length == |rows| && index == |before| < |rows|
    requires PassAccount(agent.net, w0, m0, epsilon0, rows, us, randomActions, picks, before,
                         agent.memory, agent.epsilon, agent.weights)
    requires 0.0 <= us[index] < 1.0 && randomActions[index] < agent.actionSize
    modifies agent`memory, agent`weights, agent`epsilon, numVms
    ensures agent.Valid() && action < agent.actionSize && reward == RowReward(rows[index])
    ensures numVms[..] == old(numVms[..])[index := StartingVms + action]
    ensures PassAccount(agent.net, w0, m0, epsilon0, rows, us, randomActions, picks, before + [action],
                        agent.memory, agent.epsilon, agent.weights)
  {
    assert |agent.memory| == MemoryAfter(|m0|, index);
    ghost var memory, epsilon, weights := agent.memory, agent.epsilon, agent.weights;
    action, reward := VisitRow(agent, rows, index, numVms, us[index], randomActions[index], picks[index]);
    PassAccountStep(agent.net, w0, m0, epsilon0, rows, us, randomActions, picks, before, memory, epsilon, weights,
                    action, agent.memory, agent.epsilon, agent.weights);
  }

  /** One pass of `run` over the table. `us[i]`, `randomActions[i]` and
      `picks[i]` are row `i`'s random draws. */
  method RunEpisode<W(!new)>(agent: DQNAgent<W>, rows: seq<Metrics>, numVms: array<int>,
                             us: seq<real>, randomActions: seq<nat>, picks: seq<seq<nat>>)
    returns (totalReward: real, actions: seq<nat>)
    requires agent.Valid() && numVms.Length == |rows|
    requires |us| == |rows| && |randomActions| == |rows| && |picks| == |rows|
    requires forall i :: 0 <= i < |rows| ==> 0.0 <= us[i] < 1.0 && randomActions[i] < agent.actionSize
    requires forall i :: 0 <= i < |rows| && BatchSize < MemoryAfter(|agent.memory|, i + 1) ==>
      IsSample(picks[i], BatchSize, MemoryAfter(|agent.memory|, i + 1))
    modifies agent`memory, agent`weights, agent`epsilon, numVms
    ensures agent.Valid()
    ensures totalReward == TotalReward(rows)
    ensures |actions| == |rows|
    ensures forall i :: 0 <= i < |rows| ==> actions[i] < agent.actionSize && numVms[i] == StartingVms + actions[i]
    ensures agent.memory == AppendAll(old(agent.memory), EpisodeTransitions(rows, actions), MemoryCapacity)
    ensures agent.epsilon == EpsilonAfter(old(agent.epsilon), ReplayCount(|old(agent.memory)|, |rows|))
    ensures agent.weights == WeightsAfter(agent.net, old(agent.weights), old(agent.memory), rows, actions, picks)
    ensures FollowsPolicy(agent.net, old(agent.weights), old(agent.memory), old(agent.epsilon),
                          rows, us, randomActions, picks, actions)
    ensures forall i :: 0 <= i < |rows| && us[i] <= EpsilonAfter(old(agent.epsilon), ReplayCount(|old(agent.memory)|, i)) ==>
      actions[i] == randomActions[i]
  {
    totalReward := 0.0;
    actions := [];
    ghost var memory0, epsilon0, weights0 := agent.memory, agent.epsilon, agent.weights;
    for index := 0 to |rows|
      invariant agent.Valid() && |actions| == index
      invariant totalReward == TotalReward(rows[..index])
      invariant forall i :: 0 <= i < index ==> actions[i] < agent.actionSize && numVms[i] == StartingVms + actions[i]
      invariant PassAccount(agent.net, weights0, memory0, epsilon0, rows, us, randomActions, picks, actions,
                            agent.memory, agent.epsilon, agent.weights)
    {
      var action, reward := VisitNextRow(agent, rows, index, numVms, us, randomActions, picks,
                                         weights0, memory0, epsilon0, actions);
      totalReward := totalReward + reward;
      actions := actions + [action];
      TotalRewardSnoc(rows, index);
    }
    assert rows[..|rows|] == rows;
    FollowsPolicyRows(agent.net, weights0, memory0, epsilon0, rows, us, randomActions, picks, actions);
  }
}
