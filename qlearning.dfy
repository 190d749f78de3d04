/** The parts of experience replay and epsilon-greedy Q-learning that all three
    agents share: the value-function approximator seen through its interface,
    stored transitions, `np.amax`/`np.argmax`, the bootstrapped target, the
    masked target vector, epsilon decay, `random.sample`, and the update loop
    run over one minibatch. */
module QLearning {

  // Hyper-parameters every agent sets in its constructor.
  const Gamma: real := 0.95
  const EpsilonStart: real := 1.0
  const EpsilonMin: real := 0.01
  const EpsilonDecay: real := 0.995

  /** The lowest value epsilon can reach: one decay step applied just above
      `EpsilonMin` lands below it. */
  const EpsilonFloor: real := EpsilonMin * EpsilonDecay

  datatype Error = InsufficientSamples

  datatype Result<T> = Ok(value: T) | Err(error: Error)

  /** One experience tuple `(state, action, reward, next_state, done)`. */
  datatype Transition<S> = Transition(state: S, action: nat, reward: real, nextState: S, done: bool)

  /** The neural network as a collaborator: `predict` gives one value per
      action for a state under given weights, `fit` is one training step of
      the weights toward a target vector. Its internals are not modelled. */
  datatype Network<!S(!new), !W(!new)> = Network(predict: (W, S) -> seq<real>, fit: (W, S, seq<real>) -> W, actionSize: nat)
  {
    /** The output layer has `actionSize` units, and at least one. */
    ghost predicate Valid()
    {
      && 0 < actionSize
      && forall w: W, s: S :: |predict(w, s)| == actionSize
    }
  }

  ghost predicate ActionsBelow<S>(batch: seq<Transition<S>>, n: nat)
  {
    forall i :: 0 <= i < |batch| ==> batch[i].action < n
  }

  /** `np.amax`: the largest of the values. */
  function MaxOf(s: seq<real>): (m: real)
    requires |s| > 0
    ensures m in s
    ensures forall i :: 0 <= i < |s| ==> s[i] <= m
  {
    if |s| == 1 then s[0]
    else
      var m' := MaxOf(s[..|s| - 1]);
      if s[|s| - 1] > m' then s[|s| - 1] else m'
  }

  /** `np.argmax`: the first index holding the largest value. */
  function Argmax(s: seq<real>): (k: nat)
    requires |s| > 0
    ensures k < |s|
    ensures forall i :: 0 <= i < |s| ==> s[i] <= s[k]
    ensures forall i :: 0 <= i < k ==> s[i] < s[k]
  {
    if |s| == 1 then 0
    else
      var k' := Argmax(s[..|s| - 1]);
      if s[|s| - 1] > s[k'] then |s| - 1 else k'
  }

  /** The greedy action is one whose value is the bootstrap maximum. */
  lemma ArgmaxAttainsMax(s: seq<real>)
    requires |s| > 0
    ensures s[Argmax(s)] == MaxOf(s)
  {
  }

  /** The regression target for one transition: the reward alone at the end
      of an episode, otherwise the reward plus the discounted value of the
      best next action. */
  function TdTarget(reward: real, done: bool, nextValues: seq<real>): (t: real)
    requires !done ==> |nextValues| > 0
    ensures done ==> t == reward
    ensures !done ==> forall a :: 0 <= a < |nextValues| ==> reward + Gamma * nextValues[a] <= t
    ensures !done ==> exists a :: 0 <= a < |nextValues| && t == reward + Gamma * nextValues[a]
  {
    if done then reward else reward + Gamma * MaxOf(nextValues)
  }

  /** `target_f[0][action] = target`: the vector the network is fitted to. */
  function MaskedTarget(prediction: seq<real>, action: nat, target: real): (r: seq<real>)
    requires action < |prediction|
    ensures |r| == |prediction| && r[action] == target
    ensures forall i :: 0 <= i < |prediction| && i != action ==> r[i] == prediction[i]
  {
    prediction[action := target]
  }

  /** `if epsilon > epsilon_min: epsilon *= epsilon_decay`. */
  function DecayEpsilon(epsilon: real): (r: real)
    ensures r <= epsilon
    ensures r == epsilon <==> epsilon <= EpsilonMin
    ensures EpsilonFloor <= epsilon ==> EpsilonFloor <= r
  {
    if epsilon > EpsilonMin then epsilon * EpsilonDecay else epsilon
  }

  /** Epsilon after `n` replay calls. */
  function EpsilonAfter(epsilon: real, n: nat): real
  {
    if n == 0 then epsilon else DecayEpsilon(EpsilonAfter(epsilon, n - 1))
  }

  function Pow(x: real, n: nat): real
  {
    if n == 0 then 1.0 else x * Pow(x, n - 1)
  }

  /** Epsilon never increases from one replay call to a later one. */
  lemma {:induction false} EpsilonNonIncreasing(epsilon: real, m: nat, n: nat)
    requires m <= n
    ensures EpsilonAfter(epsilon, n) <= EpsilonAfter(epsilon, m)
    decreases n
  {
    if m < n {
      EpsilonNonIncreasing(epsilon, m, n - 1);
    }
  }

  /** Started at or above the floor, epsilon stays at or above it. */
  lemma {:induction false} EpsilonAboveFloor(epsilon: real, n: nat)
    requires EpsilonFloor <= epsilon
    ensures EpsilonFloor <= EpsilonAfter(epsilon, n)
  {
    if n > 0 {
      EpsilonAboveFloor(epsilon, n - 1);
    }
  }

  /** Once epsilon is at or below `EpsilonMin` it is frozen. */
  lemma {:induction false} EpsilonConverged(epsilon: real, n: nat, k: nat)
    requires EpsilonAfter(epsilon, n) <= EpsilonMin
    ensures EpsilonAfter(epsilon, n + k) == EpsilonAfter(epsilon, n)
  {
    if k > 0 {
      EpsilonConverged(epsilon, n, k - 1);
    }
  }

  lemma {:induction false} PowDecayPositive(n: nat)
    ensures 0.0 < Pow(EpsilonDecay, n)
  {
    if n > 0 {
      PowDecayPositive(n - 1);
    }
  }

  /** From the initial 1.0, epsilon follows 0.995^n as long as the previous
      value was still above `EpsilonMin`. */
  lemma {:induction false} EpsilonGeometric(n: nat)
    requires n > 0 ==> Pow(EpsilonDecay, n - 1) > EpsilonMin
    ensures EpsilonAfter(EpsilonStart, n) == Pow(EpsilonDecay, n)
  {
    if n > 0 {
      if n > 1 {
        PowDecayPositive(n - 2);
        assert Pow(EpsilonDecay, n - 1) <= Pow(EpsilonDecay, n - 2);
      }
      EpsilonGeometric(n - 1);
    }
  }

  /** A single decay step can take epsilon below `EpsilonMin`. */
  lemma EpsilonCanDipBelowMin()
    ensures DecayEpsilon(0.01005) < EpsilonMin
  {
  }

  /** The index draws of `random.sample(population, k)`: `k` distinct
      positions of the population. */
  ghost predicate IsSample(picks: seq<nat>, k: nat, n: nat)
  {
    && |picks| == k
    && (forall i :: 0 <= i < k ==> picks[i] < n)
    && (forall i, j :: 0 <= i < j < k ==> picks[i] != picks[j])
  }

  function Pick<T>(population: seq<T>, picks: seq<nat>): (r: seq<T>)
    requires forall i :: 0 <= i < |picks| ==> picks[i] < |population|
    ensures |r| == |picks|
    ensures forall i :: 0 <= i < |picks| ==> r[i] == population[picks[i]]
  {
    seq(|picks|, i requires 0 <= i < |picks| => population[picks[i]])
  }

  /** `population` with position `j` removed. */
  function RemoveAt<T>(population: seq<T>, j: nat): (r: seq<T>)
    requires j < |population|
    ensures |r| == |population| - 1
    ensures forall i :: 0 <= i < j ==> r[i] == population[i]
    ensures forall i :: j <= i < |r| ==> r[i] == population[i + 1]
    ensures multiset(population) == multiset(r) + multiset{population[j]}
  {
    assert population == population[..j] + [population[j]] + population[j + 1..];
    population[..j] + population[j + 1..]
  }

  /** Positions `picks` renumbered for the population with position `j` removed. */
  function Renumber(picks: seq<nat>, j: nat): (r: seq<nat>)
    requires forall i :: 0 <= i < |picks| ==> picks[i] != j
    ensures |r| == |picks|
    ensures forall i :: 0 <= i < |picks| ==> r[i] == if picks[i] < j then picks[i] else picks[i] - 1
  {
    seq(|picks|, i requires 0 <= i < |picks| => if picks[i] < j then picks[i] else picks[i] - 1)
  }

  /** Drawing distinct positions never yields an element more often than the
      population holds it. */
  lemma {:induction false} PickWithoutReplacement<T>(population: seq<T>, picks: seq<nat>)
    requires IsSample(picks, |picks|, |population|)
    ensures multiset(Pick(population, picks)) <= multiset(population)
    decreases |picks|
  {
    if picks != [] {
      var j, tail := picks[0], picks[1..];
      forall i | 0 <= i < |tail| ensures tail[i] != j {
        assert picks[i + 1] == tail[i];
      }
      var rest, shifted := RemoveAt(population, j), Renumber(tail, j);
      forall i, i' | 0 <= i < i' < |shifted| ensures shifted[i] != shifted[i'] {
        assert picks[i + 1] != picks[i' + 1];
      }
      PickWithoutReplacement(rest, shifted);
      assert Pick(rest, shifted) == Pick(population, tail);
      assert Pick(population, picks) == [population[j]] + Pick(population, tail);
    }
  }

  /** `random.sample(population, k)` with the positions it draws given as
      `picks`; a sample larger than the population is an error. */
  function Sample<T>(population: seq<T>, k: nat, picks: seq<nat>): (r: Result<seq<T>>)
    requires k <= |population| ==> IsSample(picks, k, |population|)
    ensures r.Err? <==> |population| < k
    ensures r.Ok? ==> |r.value| == k && multiset(r.value) <= multiset(population)
    ensures r.Ok? ==> forall i :: 0 <= i < k ==> r.value[i] == population[picks[i]]
  {
    if |population| < k then Err(InsufficientSamples)
    else
      PickWithoutReplacement(population, picks);
      Ok(Pick(population, picks))
  }

  /** Where the bootstrap estimate `max Q(next_state)` comes from: a separate
      target network (double DQN) or the network being trained (plain DQN). */
  datatype Bootstrap<W> = TargetNetwork(weights: W) | SameNetwork

  function BootstrapWeights<W>(b: Bootstrap<W>, online: W): W
  {
    if b.TargetNetwork? then b.weights else online
  }

  /** The vector `target_f` one transition fits the online network to. */
  function FitTargets<S(!new), W(!new)>(net: Network<S, W>, b: Bootstrap<W>, w: W, tr: Transition<S>): (v: seq<real>)
    requires net.Valid() && tr.action < net.actionSize
    ensures |v| == net.actionSize
    ensures v[tr.action] == TdTarget(tr.reward, tr.done, net.predict(BootstrapWeights(b, w), tr.nextState))
    ensures forall a :: 0 <= a < net.actionSize && a != tr.action ==> v[a] == net.predict(w, tr.state)[a]
  {
    var nextValues := net.predict(BootstrapWeights(b, w), tr.nextState);
    MaskedTarget(net.predict(w, tr.state), tr.action, TdTarget(tr.reward, tr.done, nextValues))
  }

  /** The online weights after fitting to every transition of `batch`, in order. */
  function FitBatch<S(!new), W(!new)>(net: Network<S, W>, b: Bootstrap<W>, w: W, batch: seq<Transition<S>>): W
    requires net.Valid() && ActionsBelow(batch, net.actionSize)
    decreases |batch|
  {
    if batch == [] then w
    else
      var last := batch[|batch| - 1];
      var w' := FitBatch(net, b, w, batch[..|batch| - 1]);
      net.fit(w', last.state, FitTargets(net, b, w', last))
  }

  /** Replaying two minibatches one after the other is replaying their
      concatenation. */
  lemma {:induction false} FitBatchConcat<S(!new), W(!new)>(net: Network<S, W>, b: Bootstrap<W>, w: W,
                                                first: seq<Transition<S>>, second: seq<Transition<S>>)
    requires net.Valid() && ActionsBelow(first, net.actionSize) && ActionsBelow(second, net.actionSize)
    ensures ActionsBelow(first + second, net.actionSize)
    ensures FitBatch(net, b, w, first + second) == FitBatch(net, b, FitBatch(net, b, w, first), second)
    decreases |second|
  {
    if second == [] {
      assert first + second == first;
    } else {
      var front := second[..|second| - 1];
      FitBatchConcat(net, b, w, first, front);
      assert (first + second)[..|first + second| - 1] == first + front;
    }
  }

  /** The body of `replay` after sampling: for each transition compute the
      target, overwrite the taken action's slot of the online prediction with
      it and fit the online network to the result. */
  method ReplayBatch<S(!new), W(!new)>(net: Network<S, W>, b: Bootstrap<W>, w0: W, batch: seq<Transition<S>>)
    returns (w: W)
    requires net.Valid() && ActionsBelow(batch, net.actionSize)
    ensures w == FitBatch(net, b, w0, batch)
  {
    w := w0;
    for i := 0 to |batch|
      invariant w == FitBatch(net, b, w0, batch[..i])
    {
      var tr := batch[i];
      var target := tr.reward;
      if !tr.done {
        target := tr.reward + Gamma * MaxOf(net.predict(BootstrapWeights(b, w), tr.nextState));
      }
      var targetF := net.predict(w, tr.state);
      targetF := targetF[tr.action := target];
      assert batch[..i + 1][..i] == batch[..i];
      w := net.fit(w, tr.state, targetF);
    }
    assert batch[..|batch|] == batch;
  }
}
