/** The PyTorch double-DQN agent: the same online/target discipline as the
    Keras one, over any state type, with a replay memory bounded at 500. */
module TorchDDQN {
  import opened QLearning
  import opened ReplayMemory

  const MemoryCapacity: nat := 500

  class DDQNAgent<S(!new), W(!new)> {
    const stateSize: nat
    const actionSize: nat
    const sequenceLength: nat
    const net: Network<S, W>
    var memory: seq<Transition<S>>
    var epsilon: real
    var onlineWeights: W
    var targetWeights: W

    ghost predicate Valid()
      reads this
    {
      && net.Valid() && net.actionSize == actionSize
      && |memory| <= MemoryCapacity
      && ActionsBelow(memory, actionSize)
      && EpsilonFloor <= epsilon <= EpsilonStart
    }

    /** Two freshly initialised networks; the target one is then loaded with
        the online network's state. The optimizer is not modelled. */
    constructor(stateSize: nat, actionSize: nat, sequenceLength: nat, net: Network<S, W>,
                onlineInit: W, targetInit: W)
      requires net.Valid() && net.actionSize == actionSize
      ensures Valid() && memory == [] && epsilon == EpsilonStart
      ensures onlineWeights == onlineInit && targetWeights == onlineWeights
      ensures this.stateSize == stateSize && this.actionSize == actionSize
      ensures this.sequenceLength == sequenceLength && this.net == net
    {
      this.stateSize := stateSize;
      this.actionSize := actionSize;
      this.sequenceLength := sequenceLength;
      this.net := net;
      memory := [];
      epsilon := EpsilonStart;
      onlineWeights := onlineInit;
      targetWeights := targetInit;
      new;
      UpdateTargetModel();
    }

    /** `target_model.load_state_dict(online_model.state_dict())`. */
    method UpdateTargetModel()
      modifies this`targetWeights
      ensures targetWeights == onlineWeights
    {
      targetWeights := onlineWeights;
    }

    method Remember(state: S, action: nat, reward: real, nextState: S, done: bool)
      requires Valid() && action < actionSize
      modifies this`memory
      ensures Valid()
      ensures memory == Append(old(memory), Transition(state, action, reward, nextState, done), MemoryCapacity)
    {
      memory := Append(memory, Transition(state, action, reward, nextState, done), MemoryCapacity);
    }

    /** Epsilon-greedy choice: `u` is the `np.random.rand()` draw and
        `randomAction` the `random.randrange(action_size)` draw; the greedy
        branch is `torch.argmax` of the online network's output. */
    method Act(state: S, u: real, randomAction: nat) returns (action: nat)
      requires Valid() && 0.0 <= u < 1.0 && randomAction < actionSize
      ensures action < actionSize
      ensures u <= epsilon ==> action == randomAction
      ensures epsilon < u ==> forall a :: 0 <= a < actionSize ==>
        net.predict(onlineWeights, state)[a] <= net.predict(onlineWeights, state)[action]
      ensures epsilon < u ==> action == Argmax(net.predict(onlineWeights, state))
    {
      if u <= epsilon {
        return randomAction;
      }
      var actValues := net.predict(onlineWeights, state);
      action := Argmax(actValues);
    }

    /** One optimizer step per sampled transition toward the masked target,
        bootstrapping from the target network; then epsilon decays and the
        target network is re-synced. */
    method Replay(batchSize: nat, picks: seq<nat>) returns (r: Result<()>)
      requires Valid()
      requires batchSize <= |memory| ==> IsSample(picks, batchSize, |memory|)
      modifies this`onlineWeights, this`targetWeights, this`epsilon
      ensures Valid()
      ensures r.Err? <==> |memory| < batchSize
      ensures r.Err? ==> onlineWeights == old(onlineWeights) && targetWeights == old(targetWeights)
                         && epsilon == old(epsilon)
      ensures r.Ok? ==>
        && onlineWeights == FitBatch(net, TargetNetwork(old(targetWeights)), old(onlineWeights),
                                     Sample(memory, batchSize, picks).value)
        && epsilon == DecayEpsilon(old(epsilon))
        && targetWeights == onlineWeights
    {
      var minibatch := Sample(memory, batchSize, picks);
      if minibatch.Err? {
        return Err(minibatch.error);
      }
      onlineWeights := ReplayBatch(net, TargetNetwork(targetWeights), onlineWeights, minibatch.value);
      if epsilon > EpsilonMin {
        epsilon := epsilon * EpsilonDecay;
      }
      UpdateTargetModel();
      r := Ok(());
    }
  }
}
