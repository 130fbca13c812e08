/**
 * The `DeepQNetwork` agent of DQN.py: epsilon-greedy action choice, the
 * episode loop that fills the replay buffer, the Bellman update with its
 * target-network schedule, epsilon annealing, the per-episode training
 * schedule, and clearing the replay buffer.
 *
 * The neural network is abstract: a function `q` from parameters and a state
 * to one value per action, and an optimizer step `descend` from parameters,
 * a batch and its labels to new parameters. The environment is a finite
 * trace of step results, and random draws are inputs.
 */
module Agent {
  import opened Results
  import opened Replay
  import opened Bellman

  /** A network's parameter set, copied as a value by `set_weights(get_weights())`. */
  datatype Weights = Weights(params: seq<real>)

  /** The online and the target parameter sets. */
  datatype Nets = Nets(online: Weights, target: Weights)

  /** What `env.step(action)` reports; its `info` entry is unused. */
  datatype StepResult = StepResult(newState: State, reward: real, done: bool)

  /** The draws `act` may consume: `np.random.uniform()` and `np.random.randint(0, dims[-1])`. */
  datatype ActDraw = ActDraw(uniform: real, randomAction: nat)

  /** Why `_update_weights` raises. */
  datatype UpdateError =
    | Sampling(cause: SampleError)   // `replay.sample` raised
    | NoDescent                      // no descent ran, so `loss` is unbound at `return loss`
    | ZeroTargetFrequency            // `updates % target_frequency` with a zero frequency

  /** What happened at the update step of one training episode. */
  datatype UpdateOutcome = Skipped | Updated(loss: real)

  /** Why `train` raises part-way. */
  datatype Halt =
    | ZeroRenderFrequency          // `episode % render_frequency` with a zero frequency
    | ZeroUpdateFrequency          // `episode % update_frequency` with a zero frequency, once the buffer is large enough
    | UpdateFailed(cause: UpdateError)

  /** One episode of `train`: what it prints, and the decisions it took. */
  datatype Report = Report(
    epsilon: real,
    rendered: bool,
    iters: nat,
    totalReward: real,
    replayLength: nat,
    update: UpdateOutcome)

  /** What the environment and the random source supply for one episode. */
  datatype EpisodeInput = EpisodeInput(initial: State, trace: seq<StepResult>, draws: seq<ActDraw>)

  /** The agent's state that training changes: epsilon, both parameter sets, and the buffer's contents. */
  datatype Learner = Learner(epsilon: real, nets: Nets, buffer: seq<Experience>)

  /** One training episode: its report or the reason it raised, and the agent's state afterwards. */
  datatype Played = Played(result: Result<Report, Halt>, after: Learner)

  /** What `train` is given: the number of episodes, the render frequency, each episode's input, and the index draws of every descent. */
  datatype Plan = Plan(episodes: nat, renderFrequency: nat, inputs: seq<EpisodeInput>, pick: (nat, nat, nat) -> seq<nat>)

  /** No report shows an update. */
  predicate NoneUpdated(reports: seq<Report>)
  {
    forall e :: 0 <= e < |reports| ==> reports[e].update.Skipped?
  }

  /** A run of training: the reports of the episodes that completed, how it ended, and the agent's state. */
  datatype Trained = Trained(reports: seq<Report>, outcome: Result<(), Halt>, learner: Learner)

  /** The record of the step `step` taken from `state` with `action`. */
  function Recorded(state: State, step: StepResult, action: nat): Experience
  {
    Experience(state, action, step.reward, step.done, step.newState)
  }

  /** The index of the first step reporting `done`, or |trace| when none does. */
  function FirstDone(trace: seq<StepResult>): (k: nat)
    ensures k <= |trace|
    ensures k < |trace| ==> trace[k].done
    ensures forall j :: 0 <= j < k ==> !trace[j].done
    decreases |trace|
  {
    if trace == [] then 0
    else if trace[0].done then 0
    else 1 + FirstDone(trace[1..])
  }

  /** The rewards of the first `n` steps added up in order, as `total_rwd += reward` does. */
  function SumRewards(trace: seq<StepResult>, n: nat): real
    requires n <= |trace|
  {
    if n == 0 then 0.0 else SumRewards(trace, n - 1) + trace[n - 1].reward
  }

  /** The state step `i` starts from: the initial state, then the state the previous step reached. */
  function StateBefore(initial: State, trace: seq<StepResult>, i: nat): State
    requires i <= |trace|
  {
    if i == 0 then initial else trace[i - 1].newState
  }

  /** Every record's action is below `n`. */
  predicate ActionsBelow(records: seq<Experience>, n: nat)
  {
    forall i :: 0 <= i < |records| ==> records[i].action < n
  }

  /** Evicting old records keeps the bound on actions. */
  lemma WindowKeepsActions(s: seq<Experience>, c: nat, n: nat)
    requires ActionsBelow(s, n)
    ensures ActionsBelow(Window(s, c), n)
  {
  }

  /** Every draw picks `k` distinct indices below `n`. */
  predicate AllDraws(draws: seq<seq<nat>>, k: nat, n: nat)
  {
    forall j :: 0 <= j < |draws| ==> IsDraw(draws[j], k, n)
  }

  /** The largest multiple of `f` that is at most `k`. */
  function LastMultiple(k: nat, f: nat): (m: nat)
    requires f > 0
    ensures m <= k && m % f == 0
    ensures forall i :: m < i <= k ==> i % f != 0
    decreases k
  {
    if k % f == 0 then k else LastMultiple(k - 1, f)
  }

  class DeepQNetwork {
    const actions: nat                                // dims[-1], the width of the network's output
    const q: (Weights, State) -> seq<real>            // the MLP built from dims, evaluated on one state
    const descend: (Weights, Batch, seq<real>) -> Weights  // one optimizer step on the Bellman loss
    const power: (real, real) -> real                 // np.power
    const epsilonInit: real
    const epsilonDecay: real
    const gamma: real
    const memory: nat
    const startUpdating: nat
    const batchSize: nat
    const descentFrequency: nat
    const updateFrequency: nat
    const useTarget: bool
    const targetFrequency: nat

    var epsilon: real
    var qWeights: Weights
    var targetWeights: Weights
    var replay: ExperienceReplay

    /**
     * What the model relies on from its collaborators: the network gives one
     * value per action, and `np.power` is 1 at exponent 0 and its base at
     * exponent 1.
     */
    ghost predicate Capabilities()
    {
      0 < actions &&
      (forall w, s :: |q(w, s)| == actions) &&
      (forall x :: power(x, 0.0) == 1.0) &&
      (forall x :: power(x, 1.0) == x)
    }

    /** A buffer's contents fit the configured capacity and hold only actions the network can score. */
    predicate Sound(s: Learner)
    {
      |s.buffer| <= memory && ActionsBelow(s.buffer, actions)
    }

    /** The replay buffer has the configured capacity and holds only actions the network can score. */
    ghost predicate Valid()
      reads this, replay
    {
      Capabilities() &&
      replay.Valid() && replay.capacity == memory &&
      ActionsBelow(replay.buffer, actions)
    }

    /** The agent's epsilon, parameters and buffer contents, as a value. */
    ghost function Snapshot(): Learner
      reads this, replay
    {
      Learner(epsilon, Nets(qWeights, targetWeights), replay.buffer)
    }

    /**
     * `__init__`: stores the configuration and creates an empty buffer of
     * capacity `memory`. `clone_model` gives the target network freshly
     * initialised parameters, passed in as `initialTarget`.
     */
    constructor (
      actions: nat,
      q: (Weights, State) -> seq<real>,
      descend: (Weights, Batch, seq<real>) -> Weights,
      power: (real, real) -> real,
      epsilon: real, epsilonDecay: real, gamma: real,
      memory: nat, startUpdating: nat, batchSize: nat,
      descentFrequency: nat, updateFrequency: nat,
      useTarget: bool, targetFrequency: nat,
      initial: Weights, initialTarget: Weights)
      requires 0 < actions && forall w, s :: |q(w, s)| == actions
      requires forall x :: power(x, 0.0) == 1.0
      requires forall x :: power(x, 1.0) == x
      ensures Valid() && fresh(replay) && replay.buffer == []
      ensures this.actions == actions && this.q == q && this.descend == descend && this.power == power
      ensures this.epsilon == epsilon && epsilonInit == epsilon && this.epsilonDecay == epsilonDecay
      ensures this.gamma == gamma && this.memory == memory && this.startUpdating == startUpdating
      ensures this.batchSize == batchSize && this.descentFrequency == descentFrequency
      ensures this.updateFrequency == updateFrequency
      ensures this.useTarget == useTarget && this.targetFrequency == targetFrequency
      ensures qWeights == initial && targetWeights == initialTarget
    {
      this.actions := actions;
      this.q := q;
      this.descend := descend;
      this.power := power;
      this.useTarget := useTarget;
      this.targetFrequency := targetFrequency;
      this.epsilonInit := epsilon;
      this.epsilonDecay := epsilonDecay;
      this.gamma := gamma;
      this.memory := memory;
      this.startUpdating := startUpdating;
      this.batchSize := batchSize;
      this.descentFrequency := descentFrequency;
      this.updateFrequency := updateFrequency;
      this.epsilon := epsilon;
      qWeights := initial;
      targetWeights := initialTarget;
      replay := new ExperienceReplay(memory);
    }

    // -------------------------------------------------------------------------
    // Acting
    // -------------------------------------------------------------------------

    /**
     * `act` with the online parameters `w` and the exploration rate `eps`:
     * outside evaluation, a uniform draw below `eps` picks the drawn random
     * action; otherwise the first action with the largest Q-value.
     */
    function Act(w: Weights, eps: real, state: State, evaluation: bool, draw: ActDraw): (a: nat)
      requires Capabilities()
      requires draw.randomAction < actions
      ensures a < actions
      ensures !evaluation && draw.uniform < eps ==> a == draw.randomAction
      ensures evaluation || eps <= draw.uniform ==>
        (forall j :: 0 <= j < actions ==> q(w, state)[j] <= q(w, state)[a]) &&
        (forall j :: 0 <= j < a ==> q(w, state)[j] < q(w, state)[a])
    {
      if !evaluation && draw.uniform < eps then draw.randomAction
      else Argmax(q(w, state))
    }

    /** In evaluation the action depends on the state and the parameters only: neither epsilon nor the draw matters. */
    lemma EvaluationIsGreedy(w: Weights, eps1: real, eps2: real, state: State, d1: ActDraw, d2: ActDraw)
      requires Capabilities()
      requires d1.randomAction < actions && d2.randomAction < actions
      ensures Act(w, eps1, state, true, d1) == Act(w, eps2, state, true, d2) == Argmax(q(w, state))
    {
    }

    /** Draws as `np.random.uniform()` and `np.random.randint(0, dims[-1])` produce them. */
    predicate Fair(draws: seq<ActDraw>)
    {
      forall i :: 0 <= i < |draws| ==> 0.0 <= draws[i].uniform < 1.0 && draws[i].randomAction < actions
    }

    /** An episode the environment ends, with one draw per step. */
    predicate Playable(input: EpisodeInput)
    {
      FirstDone(input.trace) < |input.trace| &&
      |input.draws| == |input.trace| && Fair(input.draws)
    }

    // -------------------------------------------------------------------------
    // Simulating one episode
    // -------------------------------------------------------------------------

    /**
     * The records of the first `n` steps of an episode that starts in
     * `initial`, one per step, in order, acting with parameters `w` and
     * exploration rate `eps`.
     */
    function Rollout(w: Weights, eps: real, initial: State, trace: seq<StepResult>, draws: seq<ActDraw>, evaluation: bool, n: nat)
      : (records: seq<Experience>)
      requires Capabilities()
      requires |draws| == |trace| && Fair(draws)
      requires n <= |trace|
      ensures |records| == n
      ensures ActionsBelow(records, actions)
      decreases n
    {
      if n == 0 then []
      else
        var state := StateBefore(initial, trace, n - 1);
        Rollout(w, eps, initial, trace, draws, evaluation, n - 1) + [Recorded(state, trace[n - 1], Act(w, eps, state, evaluation, draws[n - 1]))]
    }

    /** Record `i` of an episode is step `i` taken from the state before it, with the action `act` chose there. */
    lemma {:induction false} RolloutRecord(w: Weights, eps: real, initial: State, trace: seq<StepResult>, draws: seq<ActDraw>, evaluation: bool, n: nat, i: nat)
      requires Capabilities()
      requires |draws| == |trace| && Fair(draws)
      requires i < n <= |trace|
      ensures Rollout(w, eps, initial, trace, draws, evaluation, n)[i] ==
        Recorded(StateBefore(initial, trace, i), trace[i], Act(w, eps, StateBefore(initial, trace, i), evaluation, draws[i]))
      decreases n
    {
      if i < n - 1 {
        RolloutRecord(w, eps, initial, trace, draws, evaluation, n - 1, i);
        assert Rollout(w, eps, initial, trace, draws, evaluation, n)[i] == Rollout(w, eps, initial, trace, draws, evaluation, n - 1)[i];
      }
    }

    /**
     * The episode's records form a chain: the first starts in the initial
     * state, and each later one starts in the state its predecessor reached.
     */
    lemma RolloutChains(w: Weights, eps: real, initial: State, trace: seq<StepResult>, draws: seq<ActDraw>, evaluation: bool, n: nat)
      requires Capabilities()
      requires |draws| == |trace| && Fair(draws)
      requires n <= |trace|
      ensures n > 0 ==> Rollout(w, eps, initial, trace, draws, evaluation, n)[0].state == initial
      ensures forall i :: 0 < i < n ==>
        Rollout(w, eps, initial, trace, draws, evaluation, n)[i].state == Rollout(w, eps, initial, trace, draws, evaluation, n)[i - 1].newState
    {
      if n > 0 {
        RolloutRecord(w, eps, initial, trace, draws, evaluation, n, 0);
      }
      forall i | 0 < i < n
        ensures Rollout(w, eps, initial, trace, draws, evaluation, n)[i].state == Rollout(w, eps, initial, trace, draws, evaluation, n)[i - 1].newState
      {
        RolloutRecord(w, eps, initial, trace, draws, evaluation, n, i);
        RolloutRecord(w, eps, initial, trace, draws, evaluation, n, i - 1);
      }
    }

    /**
     * `simulate`: plays one episode, appending every transition to the replay
     * buffer (in evaluation too), and returns the number of steps, the summed
     * reward and the states visited.
     */
    method Simulate(initial: State, trace: seq<StepResult>, draws: seq<ActDraw>, evaluation: bool)
      returns (iters: nat, totalReward: real, states: seq<State>)
      requires Valid()
      requires FirstDone(trace) < |trace|
      requires |draws| == |trace| && Fair(draws)
      modifies replay
      ensures Valid()
      ensures iters == FirstDone(trace) + 1
      ensures replay.buffer == Window(old(replay.buffer) + Rollout(qWeights, epsilon, initial, trace, draws, evaluation, iters), memory)
      ensures totalReward == SumRewards(trace, iters)
      ensures |states| == iters && forall i :: 0 <= i < iters ==> states[i] == trace[i].newState
    {
      ghost var start := replay.buffer;
      var state := initial;
      var done := false;
      iters, totalReward, states := 0, 0.0, [];
      while !done
        invariant iters <= FirstDone(trace) + 1
        invariant done <==> iters == FirstDone(trace) + 1
        invariant state == StateBefore(initial, trace, iters)
        invariant replay.Valid() && replay.capacity == memory && ActionsBelow(replay.buffer, actions)
        invariant replay.buffer == Window(start + Rollout(qWeights, epsilon, initial, trace, draws, evaluation, iters), memory)
        invariant totalReward == SumRewards(trace, iters)
        invariant |states| == iters && forall i :: 0 <= i < iters ==> states[i] == trace[i].newState
        decreases FirstDone(trace) + 1 - iters
      {
        var action := Act(qWeights, epsilon, state, evaluation, draws[iters]);
        var step := trace[iters];
        var record := Recorded(state, step, action);
        EpisodeAdvance(qWeights, epsilon, initial, trace, draws, evaluation, iters);
        AppendStep(start, Rollout(qWeights, epsilon, initial, trace, draws, evaluation, iters), record);
        replay.Append(record);
        state := step.newState;
        done := step.done;
        iters := iters + 1;
        totalReward := totalReward + step.reward;
        states := states + [state];
      }
    }

    /** What one more step of the episode adds: its record, its reward, its new state, and whether it ends the episode. */
    lemma EpisodeAdvance(w: Weights, eps: real, initial: State, trace: seq<StepResult>, draws: seq<ActDraw>, evaluation: bool, k: nat)
      requires Capabilities()
      requires |draws| == |trace| && Fair(draws)
      requires k <= FirstDone(trace) < |trace|
      ensures Rollout(w, eps, initial, trace, draws, evaluation, k + 1) ==
        Rollout(w, eps, initial, trace, draws, evaluation, k) +
        [Recorded(StateBefore(initial, trace, k), trace[k], Act(w, eps, StateBefore(initial, trace, k), evaluation, draws[k]))]
      ensures SumRewards(trace, k + 1) == SumRewards(trace, k) + trace[k].reward
      ensures StateBefore(initial, trace, k + 1) == trace[k].newState
      ensures trace[k].done <==> k == FirstDone(trace)
    {
    }

    /** One append inside the episode loop keeps the buffer the window of everything appended, and keeps actions in range. */
    lemma AppendStep(start: seq<Experience>, appended: seq<Experience>, x: Experience)
      requires ActionsBelow(Window(start + appended, memory), actions) && x.action < actions
      ensures Window(Window(start + appended, memory) + [x], memory) == Window(start + (appended + [x]), memory)
      ensures ActionsBelow(Window(Window(start + appended, memory) + [x], memory), actions)
    {
      WindowConcat(start + appended, [x], memory);
      assert start + appended + [x] == start + (appended + [x]);
      WindowKeepsActions(Window(start + appended, memory) + [x], memory, actions);
    }

    // -------------------------------------------------------------------------
    // The Bellman update
    // -------------------------------------------------------------------------

    /** A batch whose columns line up and whose actions index the network's output. */
    predicate Fits(b: Batch)
    {
      Aligned(b) && |b.states| > 0 &&
      forall i :: 0 <= i < |b.actions| ==> b.actions[i] < actions
    }

    /** `this_Q`: the online network's value of each sampled action. */
    function Predicted(online: Weights, b: Batch): (p: seq<real>)
      requires Capabilities() && Fits(b)
      ensures |p| == |b.states|
      ensures forall i :: 0 <= i < |p| ==> p[i] in q(online, b.states[i])
      ensures forall i :: 0 <= i < |p| ==> p[i] == q(online, b.states[i])[b.actions[i]]
    {
      seq(|b.states|, i requires 0 <= i < |b.states| => q(online, b.states[i])[b.actions[i]])
    }

    /** `next_Q`: the largest value a network gives each next state. */
    function Bootstrap(w: Weights, b: Batch): (v: seq<real>)
      requires Capabilities() && Fits(b)
      ensures |v| == |b.states|
      ensures forall i :: 0 <= i < |v| ==>
        v[i] in q(w, b.newStates[i]) && forall a :: 0 <= a < actions ==> q(w, b.newStates[i])[a] <= v[i]
    {
      seq(|b.states|, i requires 0 <= i < |b.states| => Max(q(w, b.newStates[i])))
    }

    /** Whether descent `j` begins by copying the online parameters into the target network. */
    predicate SyncsAt(j: nat)
      requires useTarget ==> targetFrequency > 0
    {
      useTarget && j % targetFrequency == 0
    }

    /** The target parameters in force during descent `j`. */
    function TargetDuring(nets: Nets, j: nat): Weights
      requires useTarget ==> targetFrequency > 0
    {
      if SyncsAt(j) then nets.online else nets.target
    }

    /** The network whose maximum gives the bootstrap value: the target network if there is one, else the online one. */
    function BootstrapNet(nets: Nets, j: nat): Weights
      requires useTarget ==> targetFrequency > 0
    {
      if useTarget then TargetDuring(nets, j) else nets.online
    }

    /** `y`, the regression labels of descent `j`. */
    function Labels(nets: Nets, j: nat, b: Batch, discount: real): (y: seq<real>)
      requires Capabilities() && Fits(b)
      requires useTarget ==> targetFrequency > 0
      ensures |y| == |b.states|
    {
      Targets(b.rewards, b.dones, Bootstrap(BootstrapNet(nets, j), b), discount)
    }

    /**
     * The Bellman labels: a terminal transition's label is its reward; any
     * other's is its reward plus the discounted largest value the bootstrap
     * network gives its next state.
     */
    lemma LabelsAreBellmanBackups(nets: Nets, j: nat, b: Batch, discount: real, i: nat)
      requires Capabilities() && Fits(b)
      requires useTarget ==> targetFrequency > 0
      requires i < |b.states|
      ensures b.dones[i] ==> Labels(nets, j, b, discount)[i] == b.rewards[i]
      ensures !b.dones[i] ==>
        Labels(nets, j, b, discount)[i] == b.rewards[i] + discount * Max(q(BootstrapNet(nets, j), b.newStates[i]))
    {
    }

    /** One descent: the optional target sync, then one optimizer step on the online parameters. */
    function Descent(nets: Nets, j: nat, b: Batch, discount: real): Nets
      requires Capabilities() && Fits(b)
      requires useTarget ==> targetFrequency > 0
    {
      Nets(descend(nets.online, b, Labels(nets, j, b, discount)), TargetDuring(nets, j))
    }

    /** The loss of one descent: the mean squared error between the labels and the online network's predictions. */
    function DescentLoss(nets: Nets, j: nat, b: Batch, discount: real): (loss: real)
      requires Capabilities() && Fits(b)
      requires useTarget ==> targetFrequency > 0
      ensures loss >= 0.0
    {
      Mse(Labels(nets, j, b, discount), Predicted(nets.online, b))
    }

    /** All batches can be used for a descent. */
    predicate AllFit(batches: seq<Batch>)
    {
      forall j :: 0 <= j < |batches| ==> Fits(batches[j])
    }

    /** The parameters after the first `n` descents over `batches`. */
    function Run(nets: Nets, batches: seq<Batch>, discount: real, n: nat): Nets
      requires Capabilities() && n <= |batches| && AllFit(batches)
      requires useTarget ==> targetFrequency > 0
      decreases n
    {
      if n == 0 then nets
      else Descent(Run(nets, batches, discount, n - 1), n - 1, batches[n - 1], discount)
    }

    /** The loss of descent `n - 1`, the last of `n`. */
    function LastLoss(nets: Nets, batches: seq<Batch>, discount: real, n: nat): real
      requires Capabilities() && 0 < n <= |batches| && AllFit(batches)
      requires useTarget ==> targetFrequency > 0
    {
      DescentLoss(Run(nets, batches, discount, n - 1), n - 1, batches[n - 1], discount)
    }

    /**
     * With a target network, after `n` descents the target parameters are the
     * online parameters as they stood at the last multiple of
     * `target_frequency` below `n`: synchronised at descent 0 and every
     * multiple of the frequency, and changed at no other time.
     */
    lemma {:induction false} TargetIsLastSync(nets: Nets, batches: seq<Batch>, discount: real, n: nat)
      requires Capabilities() && 0 < n <= |batches| && AllFit(batches)
      requires useTarget && targetFrequency > 0
      ensures Run(nets, batches, discount, n).target ==
              Run(nets, batches, discount, LastMultiple(n - 1, targetFrequency)).online
      decreases n
    {
      var k := n - 1;
      var prev := Run(nets, batches, discount, k);
      assert Run(nets, batches, discount, n).target == TargetDuring(prev, k);
      if k % targetFrequency != 0 {
        TargetIsLastSync(nets, batches, discount, k);
        assert LastMultiple(k, targetFrequency) == LastMultiple(k - 1, targetFrequency);
      }
    }

    /** Without a target network, descents never touch the target parameters. */
    lemma {:induction false} TargetUntouched(nets: Nets, batches: seq<Batch>, discount: real, n: nat)
      requires Capabilities() && n <= |batches| && AllFit(batches)
      requires !useTarget
      ensures Run(nets, batches, discount, n).target == nets.target
      decreases n
    {
      if n > 0 {
        TargetUntouched(nets, batches, discount, n - 1);
      }
    }

    /** A batch sampled from a buffer whose actions are in range can be used for a descent. */
    lemma SampleFits(buffer: seq<Experience>, draw: seq<nat>)
      requires ActionsBelow(buffer, actions) && 0 < batchSize <= |buffer|
      requires IsDraw(draw, batchSize, |buffer|)
      ensures Fits(Unzip(Gather(buffer, draw)))
    {
    }

    /** The batches that the descents sample from `buffer`, one per draw. */
    function Batches(buffer: seq<Experience>, draws: seq<seq<nat>>): (bs: seq<Batch>)
      requires ActionsBelow(buffer, actions) && 0 < batchSize <= |buffer|
      requires AllDraws(draws, batchSize, |buffer|)
      ensures |bs| == |draws| && AllFit(bs)
      ensures forall j :: 0 <= j < |draws| ==> |bs[j].states| == batchSize
      ensures forall j, i :: 0 <= j < |draws| && 0 <= i < batchSize ==> Row(bs[j], i) == buffer[draws[j][i]]
      ensures forall j :: 0 <= j < |draws| ==> bs[j] == Unzip(Gather(buffer, draws[j]))
    {
      forall j | 0 <= j < |draws|
        ensures Fits(Unzip(Gather(buffer, draws[j])))
      {
        SampleFits(buffer, draws[j]);
      }
      seq(|draws|, j requires 0 <= j < |draws| => Unzip(Gather(buffer, draws[j])))
    }

    /**
     * One pass of the descent loop of `_update_weights`: copy the online
     * parameters into the target network when `j` is a multiple of
     * `target_frequency`, compute the labels and the loss, and take one
     * optimizer step.
     */
    method DescendOnce(n: nat, batch: Batch, discount: real, ghost start: Nets, ghost batches: seq<Batch>) returns (loss: real)
      requires Capabilities() && 0 < n <= |batches| && AllFit(batches) && batches[n - 1] == batch
      requires useTarget ==> targetFrequency > 0
      requires Nets(qWeights, targetWeights) == Run(start, batches, discount, n - 1)
      modifies this
      ensures Nets(qWeights, targetWeights) == Run(start, batches, discount, n)
      ensures loss == LastLoss(start, batches, discount, n)
      ensures replay == old(replay) && epsilon == old(epsilon)
    {
      var j := n - 1;
      if useTarget && j % targetFrequency == 0 {
        targetWeights := qWeights;
      }
      var thisQ := Predicted(qWeights, batch);
      var nextQ := Bootstrap(if useTarget then targetWeights else qWeights, batch);
      var y := Targets(batch.rewards, batch.dones, nextQ, discount);
      loss := Mse(y, thisQ);
      qWeights := descend(qWeights, batch, y);
    }

    /** Whether `_update_weights` runs to its end on a buffer of `length` records. */
    predicate CanUpdate(length: nat)
    {
      0 < descentFrequency && 0 < batchSize <= length && (useTarget ==> targetFrequency > 0)
    }

    /** The reason `_update_weights` raises on a buffer of `length` records, in the order its loop meets them. */
    function UpdateCause(length: nat): UpdateError
      requires !CanUpdate(length)
    {
      if descentFrequency == 0 then NoDescent
      else if batchSize > length then Sampling(TooFewRecords)
      else if batchSize == 0 then Sampling(EmptyBatch)
      else ZeroTargetFrequency
    }

    /**
     * `_update_weights`: `descent_frequency` descents, each on a fresh batch,
     * returning the loss of the last one. Fails when sampling fails, when no
     * descent runs, or when a target network has a zero frequency.
     */
    method UpdateWeights(discount: real, draws: seq<seq<nat>>) returns (r: Result<real, UpdateError>)
      requires Valid()
      requires |draws| == descentFrequency
      requires 0 < batchSize <= |replay.buffer| ==> AllDraws(draws, batchSize, |replay.buffer|)
      modifies this
      ensures Valid() && replay == old(replay) && epsilon == old(epsilon)
      ensures r.Ok? <==> CanUpdate(|replay.buffer|)
      ensures descentFrequency == 0 ==> r == Err(NoDescent)
      ensures 0 < descentFrequency && batchSize > |replay.buffer| ==> r == Err(Sampling(TooFewRecords))
      ensures 0 < descentFrequency && batchSize == 0 ==> r == Err(Sampling(EmptyBatch))
      ensures 0 < descentFrequency && 0 < batchSize <= |replay.buffer| && useTarget && targetFrequency == 0 ==>
        r == Err(ZeroTargetFrequency)
      ensures r.Err? ==> qWeights == old(qWeights) && targetWeights == old(targetWeights)
      ensures r.Ok? ==>
        Nets(qWeights, targetWeights) == Run(old(Nets(qWeights, targetWeights)), Batches(replay.buffer, draws), discount, descentFrequency) &&
        r.value == LastLoss(old(Nets(qWeights, targetWeights)), Batches(replay.buffer, draws), discount, descentFrequency)
    {
      if descentFrequency == 0 {
        // the loop never runs, so `loss` is never bound
        return Err(NoDescent);
      }
      // every pass samples the same buffer and divides by the same frequency,
      // so a pass that raises is the first one
      var first := replay.Sample(batchSize, draws[0]);
      if first.Err? {
        return Err(Sampling(first.error));
      }
      if useTarget && targetFrequency == 0 {
        return Err(ZeroTargetFrequency);
      }
      var loss := Descents(discount, draws);
      r := Ok(loss);
    }

    /** The loop of `_update_weights` once no pass can raise: `descent_frequency` descents, each on a fresh sample. */
    method Descents(discount: real, draws: seq<seq<nat>>) returns (loss: real)
      requires Valid() && CanUpdate(|replay.buffer|)
      requires |draws| == descentFrequency && AllDraws(draws, batchSize, |replay.buffer|)
      modifies this
      ensures Valid() && replay == old(replay) && epsilon == old(epsilon)
      ensures Nets(qWeights, targetWeights) == Run(old(Nets(qWeights, targetWeights)), Batches(replay.buffer, draws), discount, descentFrequency)
      ensures loss == LastLoss(old(Nets(qWeights, targetWeights)), Batches(replay.buffer, draws), discount, descentFrequency)
    {
      ghost var start := Nets(qWeights, targetWeights);
      ghost var batches := Batches(replay.buffer, draws);
      var j := 0;
      loss := 0.0;
      while j < descentFrequency
        invariant 0 <= j <= descentFrequency
        invariant Valid() && replay == old(replay) && epsilon == old(epsilon)
        invariant Nets(qWeights, targetWeights) == Run(start, batches, discount, j)
        invariant 0 < j ==> loss == LastLoss(start, batches, discount, j)
      {
        var batch := replay.Sample(batchSize, draws[j]).value;
        assert batch == batches[j];
        j := j + 1;
        loss := DescendOnce(j, batch, discount, start, batches);
      }
    }


    // -------------------------------------------------------------------------
    // Training
    // -------------------------------------------------------------------------

    /** `_epsilon`: epsilon_init * epsilon_decay ^ (step / total_steps). */
    function EpsilonAt(step: nat, total: nat): real
      requires total > 0
    {
      epsilonInit * power(epsilonDecay, step as real / total as real)
    }

    /** Annealing starts at the initial epsilon and reaches initial times decay at the last step. */
    lemma EpsilonBoundaries(total: nat)
      requires Capabilities() && total > 0
      ensures EpsilonAt(0, total) == epsilonInit
      ensures EpsilonAt(total, total) == epsilonInit * epsilonDecay
    {
      assert 0 as real / total as real == 0.0;
      assert total as real / total as real == 1.0;
    }

    /** Whether episode `e` updates the weights, once the buffer holds `length` records. */
    predicate Due(e: nat, length: nat)
    {
      startUpdating <= length && 0 < updateFrequency && e % updateFrequency == 0
    }

    /** Random index draws as `np.random.choice(n, batch_size, replace=False)` produces them, for every episode, descent and population. */
    ghost predicate Picks(pick: (nat, nat, nat) -> seq<nat>)
    {
      forall e, j, n :: 0 < batchSize <= n ==> IsDraw(pick(e, j, n), batchSize, n)
    }

    /** The draws of the descents of episode `e` from a buffer of `length` records. */
    function Draws(e: nat, length: nat, pick: (nat, nat, nat) -> seq<nat>): (ds: seq<seq<nat>>)
      ensures |ds| == descentFrequency
    {
      seq(descentFrequency, j requires 0 <= j < descentFrequency => pick(e, j, length))
    }

    /**
     * One pass of the episode loop of `train`, on values: set epsilon for
     * episode `e`, play the episode outside evaluation with the current
     * online parameters, then update when the buffer holds at least
     * `start_updating` records and `e` is a multiple of `update_frequency`.
     */
    ghost function Episode(e: nat, episodes: nat, renderFrequency: nat, input: EpisodeInput,
                           pick: (nat, nat, nat) -> seq<nat>, s: Learner): (p: Played)
      requires Capabilities() && Sound(s) && Playable(input) && Picks(pick)
      requires e < episodes
      ensures Sound(p.after)
    {
      var eps := EpsilonAt(e, episodes);
      if renderFrequency == 0 then Played(Err(ZeroRenderFrequency), s.(epsilon := eps))
      else
        var iters := FirstDone(input.trace) + 1;
        var records := Rollout(s.nets.online, eps, input.initial, input.trace, input.draws, false, iters);
        WindowIsNewest(s.buffer + records, memory);
        WindowKeepsActions(s.buffer + records, memory, actions);
        var buffer := Window(s.buffer + records, memory);
        var played := Learner(eps, s.nets, buffer);
        var report := Report(eps, e % renderFrequency == 0, iters, SumRewards(input.trace, iters), |buffer|, Skipped);
        if |buffer| < startUpdating then Played(Ok(report), played)
        else if updateFrequency == 0 then Played(Err(ZeroUpdateFrequency), played)
        else if e % updateFrequency != 0 then Played(Ok(report), played)
        else if !CanUpdate(|buffer|) then Played(Err(UpdateFailed(UpdateCause(|buffer|))), played)
        else
          var batches := Batches(buffer, Draws(e, |buffer|, pick));
          Played(Ok(report.(update := Updated(LastLoss(s.nets, batches, gamma, descentFrequency)))),
                 played.(nets := Run(s.nets, batches, gamma, descentFrequency)))
    }

    /** The decisions `train` takes at episode `e`, and what the episode reports. */
    ghost predicate Scheduled(e: nat, episodes: nat, renderFrequency: nat, input: EpisodeInput, report: Report)
      requires e < episodes && 0 < renderFrequency
    {
      report.epsilon == EpsilonAt(e, episodes) &&
      report.rendered == (e % renderFrequency == 0) &&
      report.iters == FirstDone(input.trace) + 1 <= |input.trace| &&
      report.totalReward == SumRewards(input.trace, report.iters) &&
      report.replayLength <= memory &&
      (report.replayLength >= startUpdating ==> updateFrequency > 0) &&
      (report.update.Updated? <==> Due(e, report.replayLength))
    }

    /** One training episode sets epsilon first, and a zero render frequency raises before anything is played. */
    lemma EpisodeEpsilon(e: nat, episodes: nat, renderFrequency: nat, input: EpisodeInput,
                         pick: (nat, nat, nat) -> seq<nat>, s: Learner, p: Played)
      requires Capabilities() && Sound(s) && Playable(input) && Picks(pick)
      requires e < episodes
      requires p == Episode(e, episodes, renderFrequency, input, pick, s)
      ensures p.after.epsilon == EpsilonAt(e, episodes)
      ensures p.result == Err(ZeroRenderFrequency) <==> renderFrequency == 0
      ensures renderFrequency == 0 ==> p.after.buffer == s.buffer
    {
    }

    /**
     * How one training episode fills the buffer: the episode's records, taken
     * with the new epsilon and the online parameters before the update, are
     * the newest records of the buffer, which keeps at most `memory` records.
     */
    lemma EpisodeBuffer(e: nat, episodes: nat, renderFrequency: nat, input: EpisodeInput,
                        pick: (nat, nat, nat) -> seq<nat>, s: Learner, p: Played, records: seq<Experience>)
      requires Capabilities() && Sound(s) && Playable(input) && Picks(pick)
      requires e < episodes
      requires p == Episode(e, episodes, renderFrequency, input, pick, s)
      requires 0 < renderFrequency
      requires records == Rollout(s.nets.online, EpsilonAt(e, episodes), input.initial, input.trace, input.draws, false, FirstDone(input.trace) + 1)
      ensures |p.after.buffer| == if |s.buffer| + |records| <= memory then |s.buffer| + |records| else memory
      ensures p.after.buffer == (s.buffer + records)[|s.buffer| + |records| - |p.after.buffer|..]
    {
      assert p.after.buffer == Window(s.buffer + records, memory);
      WindowIsNewest(s.buffer + records, memory);
    }

    /**
     * When one training episode raises after playing: a zero update frequency
     * exactly once the buffer holds `start_updating` records, a failed update
     * exactly when one is due and cannot run; raising leaves the parameters alone.
     */
    lemma EpisodeRaises(e: nat, episodes: nat, renderFrequency: nat, input: EpisodeInput,
                        pick: (nat, nat, nat) -> seq<nat>, s: Learner, p: Played)
      requires Capabilities() && Sound(s) && Playable(input) && Picks(pick)
      requires e < episodes
      requires p == Episode(e, episodes, renderFrequency, input, pick, s)
      ensures p.result == Err(ZeroUpdateFrequency) <==>
        0 < renderFrequency && updateFrequency == 0 && startUpdating <= |p.after.buffer|
      ensures p.result.Err? && p.result.error.UpdateFailed? <==>
        0 < renderFrequency && Due(e, |p.after.buffer|) && !CanUpdate(|p.after.buffer|)
      ensures p.result.Err? && p.result.error.UpdateFailed? ==> p.result.error.cause == UpdateCause(|p.after.buffer|)
      ensures p.result.Err? ==> p.after.nets == s.nets
    {
    }

    /** What one training episode reports: the report follows the episode's schedule and gives the buffer's length. */
    lemma EpisodeReports(e: nat, episodes: nat, renderFrequency: nat, input: EpisodeInput,
                         pick: (nat, nat, nat) -> seq<nat>, s: Learner, p: Played)
      requires Capabilities() && Sound(s) && Playable(input) && Picks(pick)
      requires e < episodes
      requires p == Episode(e, episodes, renderFrequency, input, pick, s)
      ensures p.result.Ok? ==> Scheduled(e, episodes, renderFrequency, input, p.result.value)
      ensures p.result.Ok? ==> p.result.value.replayLength == |p.after.buffer|
    {
      if 0 < renderFrequency {
        var records := Rollout(s.nets.online, EpsilonAt(e, episodes), input.initial, input.trace, input.draws, false, FirstDone(input.trace) + 1);
        WindowIsNewest(s.buffer + records, memory);
      }
    }

    /**
     * How one training episode that does not raise leaves the parameters: an
     * update changes them as the descents over the episode's draws do,
     * reporting the last loss; otherwise they stay as they were.
     */
    lemma EpisodeUpdate(e: nat, episodes: nat, renderFrequency: nat, input: EpisodeInput,
                        pick: (nat, nat, nat) -> seq<nat>, s: Learner, p: Played)
      requires Capabilities() && Sound(s) && Playable(input) && Picks(pick)
      requires e < episodes
      requires p == Episode(e, episodes, renderFrequency, input, pick, s)
      ensures p.result.Ok? && p.result.value.update.Skipped? ==> p.after.nets == s.nets
      ensures p.result.Ok? && p.result.value.update.Updated? ==>
        CanUpdate(|p.after.buffer|) &&
        p.after.nets == Run(s.nets, Batches(p.after.buffer, Draws(e, |p.after.buffer|, pick)), gamma, descentFrequency) &&
        p.result.value.update.loss == LastLoss(s.nets, Batches(p.after.buffer, Draws(e, |p.after.buffer|, pick)), gamma, descentFrequency)
    {
    }

    /**
     * One pass of the episode loop of `train`: set epsilon for episode `e`,
     * simulate one episode outside evaluation, then update when the buffer
     * holds at least `start_updating` records and `e` is a multiple of
     * `update_frequency`.
     */
    method TrainEpisode(e: nat, episodes: nat, renderFrequency: nat, input: EpisodeInput, pick: (nat, nat, nat) -> seq<nat>)
      returns (r: Result<Report, Halt>)
      requires Valid()
      requires e < episodes
      requires Playable(input) && Picks(pick)
      modifies this, replay
      ensures Valid() && replay == old(replay)
      ensures Played(r, Snapshot()) == Episode(e, episodes, renderFrequency, input, pick, old(Snapshot()))
    {
      epsilon := EpsilonAt(e, episodes);
      if renderFrequency == 0 {
        return Err(ZeroRenderFrequency);
      }
      var render := e % renderFrequency == 0;
      var iters, totalReward, states := Simulate(input.initial, input.trace, input.draws, false);
      var length := replay.Length();
      var update := Skipped;
      if length >= startUpdating {
        if updateFrequency == 0 {
          return Err(ZeroUpdateFrequency);
        }
        if e % updateFrequency == 0 {
          var outcome := UpdateWeights(gamma, Draws(e, length, pick));
          if outcome.Err? {
            return Err(UpdateFailed(outcome.error));
          }
          update := Updated(outcome.value);
        }
      }
      r := Ok(Report(epsilon, render, iters, totalReward, length, update));
    }

    /** The conditions under which a training episode never raises. */
    predicate Configured(renderFrequency: nat)
    {
      0 < renderFrequency && 0 < updateFrequency && 0 < descentFrequency &&
      0 < batchSize <= startUpdating && (useTarget ==> 0 < targetFrequency)
    }

    /** What `train` is given and draws, for every episode: one input per episode and index draws as `sample` takes them. */
    ghost predicate Feasible(plan: Plan)
    {
      |plan.inputs| == plan.episodes &&
      (forall e :: 0 <= e < plan.episodes ==> Playable(plan.inputs[e])) &&
      Picks(plan.pick)
    }

    /** The episodes `0 .. n - 1` of `train` from the state `s0`, up to the first one that raises. */
    ghost function Training(plan: Plan, s0: Learner, n: nat): (t: Trained)
      requires Capabilities() && Sound(s0) && Feasible(plan)
      requires n <= plan.episodes
      ensures Sound(t.learner)
      ensures |t.reports| <= n
      decreases n, 0
    {
      if n == 0 then Trained([], Ok(()), s0)
      else
        var t := Training(plan, s0, n - 1);
        if t.outcome.Err? then t
        else
          var p := EpisodeAt(plan, s0, n - 1);
          if p.result.Err? then Trained(t.reports, Err(p.result.error), p.after)
          else Trained(t.reports + [p.result.value], Ok(()), p.after)
    }

    /** Episode `e` of training, played from the state the earlier episodes left. */
    ghost function EpisodeAt(plan: Plan, s0: Learner, e: nat): (p: Played)
      requires Capabilities() && Sound(s0) && Feasible(plan)
      requires e < plan.episodes
      ensures Sound(p.after)
      decreases e, 1
    {
      Episode(e, plan.episodes, plan.renderFrequency, plan.inputs[e], plan.pick, Training(plan, s0, e).learner)
    }

    /**
     * How episode `n - 1` of training raises: on a zero render frequency and
     * only then among its causes, never when configured, and without adding a
     * report.
     */
    lemma TrainingStepRaises(plan: Plan, s0: Learner, n: nat)
      requires Capabilities() && Sound(s0) && Feasible(plan)
      requires 0 < n <= plan.episodes
      ensures Training(plan, s0, n - 1).outcome.Ok? ==>
        (Training(plan, s0, n).outcome == Err(ZeroRenderFrequency) <==> plan.renderFrequency == 0)
      ensures Training(plan, s0, n - 1).outcome.Ok? && Configured(plan.renderFrequency) ==>
        Training(plan, s0, n).outcome.Ok?
      ensures Training(plan, s0, n - 1).outcome.Ok? && Training(plan, s0, n).outcome.Err? ==>
        Training(plan, s0, n).reports == Training(plan, s0, n - 1).reports
    {
      var e := n - 1;
      var s := Training(plan, s0, e).learner;
      var p := EpisodeAt(plan, s0, e);
      EpisodeEpsilon(e, plan.episodes, plan.renderFrequency, plan.inputs[e], plan.pick, s, p);
      EpisodeRaises(e, plan.episodes, plan.renderFrequency, plan.inputs[e], plan.pick, s, p);
    }

    /** Episode `n - 1` of training, when it does not raise, appends one report. */
    lemma TrainingStepReports(plan: Plan, s0: Learner, n: nat)
      requires Capabilities() && Sound(s0) && Feasible(plan)
      requires 0 < n <= plan.episodes
      ensures Training(plan, s0, n - 1).outcome.Ok? && Training(plan, s0, n).outcome.Ok? ==>
        Training(plan, s0, n).reports == Training(plan, s0, n - 1).reports + [Training(plan, s0, n).reports[|Training(plan, s0, n - 1).reports|]]
    {
    }

    /** The report episode `n - 1` of training appends follows that episode's schedule. */
    lemma TrainingStepSchedules(plan: Plan, s0: Learner, n: nat)
      requires Capabilities() && Sound(s0) && Feasible(plan)
      requires 0 < n <= plan.episodes && 0 < plan.renderFrequency
      ensures (Training(plan, s0, n - 1).outcome.Ok? && Training(plan, s0, n).outcome.Ok? &&
               ScheduledReports(plan, Training(plan, s0, n - 1).reports)) ==>
        ScheduledReports(plan, Training(plan, s0, n).reports)
    {
      var e := n - 1;
      var prev := Training(plan, s0, e);
      var t := Training(plan, s0, n);
      if prev.outcome.Ok? && t.outcome.Ok? && ScheduledReports(plan, prev.reports) {
        var p := EpisodeAt(plan, s0, e);
        EpisodeReports(e, plan.episodes, plan.renderFrequency, plan.inputs[e], plan.pick, prev.learner, p);
        TrainingCompletes(plan, s0, e);
        ScheduledReportsSnoc(plan, prev.reports, e, p.result.value);
      }
    }

    /** The report episode `n - 1` of training appends gives the length of the buffer that episode left. */
    lemma TrainingStepReplayLength(plan: Plan, s0: Learner, n: nat)
      requires Capabilities() && Sound(s0) && Feasible(plan)
      requires 0 < n <= plan.episodes
      ensures Training(plan, s0, n - 1).outcome.Ok? && Training(plan, s0, n).outcome.Ok? ==>
        |Training(plan, s0, n).reports| == n &&
        Training(plan, s0, n).reports[n - 1].replayLength == |Training(plan, s0, n).learner.buffer|
    {
      var e := n - 1;
      var prev := Training(plan, s0, e);
      if prev.outcome.Ok? && Training(plan, s0, n).outcome.Ok? {
        var p := EpisodeAt(plan, s0, e);
        EpisodeReports(e, plan.episodes, plan.renderFrequency, plan.inputs[e], plan.pick, prev.learner, p);
        TrainingCompletes(plan, s0, e);
      }
    }

    /** Episode `n - 1` of training sets epsilon for that episode. */
    lemma TrainingStepEpsilon(plan: Plan, s0: Learner, n: nat)
      requires Capabilities() && Sound(s0) && Feasible(plan)
      requires 0 < n <= plan.episodes
      ensures Training(plan, s0, n - 1).outcome.Ok? ==>
        Training(plan, s0, n).learner.epsilon == EpsilonAt(n - 1, plan.episodes)
    {
      var e := n - 1;
      var s := Training(plan, s0, e).learner;
      var p := EpisodeAt(plan, s0, e);
      EpisodeEpsilon(e, plan.episodes, plan.renderFrequency, plan.inputs[e], plan.pick, s, p);
    }

    /** Episode `n - 1` of training keeps the parameters unless it reports an update. */
    lemma TrainingStepParameters(plan: Plan, s0: Learner, n: nat)
      requires Capabilities() && Sound(s0) && Feasible(plan)
      requires 0 < n <= plan.episodes
      ensures Training(plan, s0, n - 1).outcome.Ok? ==>
        Training(plan, s0, n).outcome.Err? || Training(plan, s0, n).reports[|Training(plan, s0, n - 1).reports|].update.Updated? ||
        Training(plan, s0, n).learner.nets == Training(plan, s0, n - 1).learner.nets
    {
      var e := n - 1;
      var s := Training(plan, s0, e).learner;
      var p := EpisodeAt(plan, s0, e);
      EpisodeRaises(e, plan.episodes, plan.renderFrequency, plan.inputs[e], plan.pick, s, p);
      EpisodeUpdate(e, plan.episodes, plan.renderFrequency, plan.inputs[e], plan.pick, s, p);
    }

    /** Once an episode has raised, later episodes change nothing: training has ended. */
    lemma {:induction false} HaltedStays(plan: Plan, s0: Learner, m: nat, n: nat)
      requires Capabilities() && Sound(s0) && Feasible(plan)
      requires m <= n <= plan.episodes
      requires Training(plan, s0, m).outcome.Err?
      ensures Training(plan, s0, n) == Training(plan, s0, m)
      decreases n
    {
      if m < n {
        HaltedStays(plan, s0, m, n - 1);
      }
    }

    /**
     * When training completes: exactly when every episode reported; a zero
     * render frequency raises at the first episode, and any report implies a
     * non-zero render frequency.
     */
    lemma {:induction false} TrainingCompletes(plan: Plan, s0: Learner, n: nat)
      requires Capabilities() && Sound(s0) && Feasible(plan)
      requires n <= plan.episodes
      ensures Training(plan, s0, n).outcome.Ok? <==> |Training(plan, s0, n).reports| == n
      ensures 0 < |Training(plan, s0, n).reports| ==> 0 < plan.renderFrequency
      ensures plan.renderFrequency == 0 && 0 < n ==>
        Training(plan, s0, n).reports == [] && Training(plan, s0, n).outcome == Err(ZeroRenderFrequency)
      decreases n
    {
      if n > 0 {
        TrainingCompletes(plan, s0, n - 1);
        TrainingStepRaises(plan, s0, n);
        TrainingStepReports(plan, s0, n);
      }
    }

    /** Every report of training follows the schedule of its episode. */
    lemma {:induction false} TrainingSchedules(plan: Plan, s0: Learner, n: nat)
      requires Capabilities() && Sound(s0) && Feasible(plan)
      requires n <= plan.episodes
      requires 0 < plan.renderFrequency
      ensures ScheduledReports(plan, Training(plan, s0, n).reports)
      decreases n
    {
      if n > 0 {
        var t := Training(plan, s0, n);
        var prev := Training(plan, s0, n - 1);
        TrainingSchedules(plan, s0, n - 1);
        TrainingStepRaises(plan, s0, n);
        TrainingStepSchedules(plan, s0, n);
      }
    }

    /**
     * The replay length of report `e` is the length of the buffer as episode
     * `e` left it, which is the state training reaches after `e + 1` episodes.
     */
    lemma {:induction false} TrainingReplayLengths(plan: Plan, s0: Learner, n: nat)
      requires Capabilities() && Sound(s0) && Feasible(plan)
      requires n <= plan.episodes
      ensures forall e :: 0 <= e < |Training(plan, s0, n).reports| ==>
        e < n && Training(plan, s0, n).reports[e].replayLength == |Training(plan, s0, e + 1).learner.buffer|
      decreases n
    {
      if n > 0 {
        TrainingReplayLengths(plan, s0, n - 1);
        TrainingCompletes(plan, s0, n - 1);
        TrainingStepRaises(plan, s0, n);
        TrainingStepReports(plan, s0, n);
        TrainingStepReplayLength(plan, s0, n);
        var prev := Training(plan, s0, n - 1);
        var t := Training(plan, s0, n);
        forall e | 0 <= e < |t.reports|
          ensures e < n && t.reports[e].replayLength == |Training(plan, s0, e + 1).learner.buffer|
        {
          if e < |prev.reports| {
            assert t.reports[e] == prev.reports[e];
          }
        }
      } else {
        assert Training(plan, s0, n).reports == [];
      }
    }

    /** Training starts from `s0`, and epsilon is that of the last episode started. */
    lemma {:induction false} TrainingEpsilon(plan: Plan, s0: Learner, n: nat)
      requires Capabilities() && Sound(s0) && Feasible(plan)
      requires n <= plan.episodes
      ensures n == 0 ==> Training(plan, s0, n).learner == s0
      ensures 0 < n ==>
        Training(plan, s0, n).learner.epsilon == EpsilonAt(if Training(plan, s0, n).outcome.Err? then |Training(plan, s0, n).reports| else n - 1, plan.episodes)
      decreases n
    {
      if n > 0 {
        TrainingEpsilon(plan, s0, n - 1);
        TrainingStepStarted(plan, s0, n);
      }
    }

    /**
     * Episode `n - 1` of training, once started, sets epsilon for its own
     * index, which is the number of reports before it; a halted run keeps its epsilon.
     */
    lemma TrainingStepStarted(plan: Plan, s0: Learner, n: nat)
      requires Capabilities() && Sound(s0) && Feasible(plan)
      requires 0 < n <= plan.episodes
      ensures Training(plan, s0, n).outcome.Ok? ==> Training(plan, s0, n - 1).outcome.Ok?
      ensures Training(plan, s0, n).outcome.Err? ==>
        |Training(plan, s0, n).reports| == if Training(plan, s0, n - 1).outcome.Err? then |Training(plan, s0, n - 1).reports| else n - 1
      ensures Training(plan, s0, n).learner.epsilon ==
        if Training(plan, s0, n - 1).outcome.Err? then Training(plan, s0, n - 1).learner.epsilon else EpsilonAt(n - 1, plan.episodes)
    {
      TrainingCompletes(plan, s0, n - 1);
      TrainingStepEpsilon(plan, s0, n);
      TrainingStepRaises(plan, s0, n);
    }

    /** Every report follows the schedule of its episode. */
    ghost predicate ScheduledReports(plan: Plan, reports: seq<Report>)
      requires |reports| <= |plan.inputs| == plan.episodes && 0 < plan.renderFrequency
      decreases |reports|
    {
      reports == [] ||
      (ScheduledReports(plan, reports[..|reports| - 1]) &&
       Scheduled(|reports| - 1, plan.episodes, plan.renderFrequency, plan.inputs[|reports| - 1], reports[|reports| - 1]))
    }

    /** A report that follows the schedule of the next episode extends reports that follow theirs. */
    lemma ScheduledReportsSnoc(plan: Plan, reports: seq<Report>, e: nat, r: Report)
      requires e == |reports| < |plan.inputs| == plan.episodes && 0 < plan.renderFrequency
      requires ScheduledReports(plan, reports)
      requires Scheduled(e, plan.episodes, plan.renderFrequency, plan.inputs[e], r)
      ensures ScheduledReports(plan, reports + [r])
    {
      assert (reports + [r])[..|reports|] == reports;
    }

    /** Following the schedule report by report is following it at every episode. */
    lemma {:induction false} ScheduledReportsEach(plan: Plan, reports: seq<Report>)
      requires |reports| <= |plan.inputs| == plan.episodes && 0 < plan.renderFrequency
      requires ScheduledReports(plan, reports)
      ensures forall e :: 0 <= e < |reports| ==>
        Scheduled(e, plan.episodes, plan.renderFrequency, plan.inputs[e], reports[e])
      decreases |reports|
    {
      if reports != [] {
        var init := reports[..|reports| - 1];
        ScheduledReportsEach(plan, init);
        forall e | 0 <= e < |reports| - 1
          ensures reports[e] == init[e]
        {
        }
      }
    }

    /**
     * Training with non-zero frequencies, a descent per update and a batch
     * no larger than `start_updating` never raises: every episode reports.
     */
    lemma {:induction false} ConfiguredTrainingCompletes(plan: Plan, s0: Learner, n: nat)
      requires Capabilities() && Sound(s0) && Feasible(plan)
      requires n <= plan.episodes
      requires Configured(plan.renderFrequency)
      ensures Training(plan, s0, n).outcome.Ok?
      ensures |Training(plan, s0, n).reports| == n
      decreases n
    {
      if n > 0 {
        ConfiguredTrainingCompletes(plan, s0, n - 1);
        TrainingStepRaises(plan, s0, n);
        TrainingStepReports(plan, s0, n);
      }
    }

    /** The parameters change only at episodes that update: when no report shows an update, training leaves them as they were. */
    lemma {:induction false} ParametersChangeOnlyByUpdates(plan: Plan, s0: Learner, n: nat)
      requires Capabilities() && Sound(s0) && Feasible(plan)
      requires n <= plan.episodes
      requires NoneUpdated(Training(plan, s0, n).reports)
      ensures Training(plan, s0, n).learner.nets == s0.nets
      decreases n
    {
      if n > 0 {
        TrainingStepNoneUpdated(plan, s0, n);
        ParametersChangeOnlyByUpdates(plan, s0, n - 1);
      }
    }

    /** An episode of training that applies no update leaves the parameters as the episodes before it left them. */
    lemma TrainingStepNoneUpdated(plan: Plan, s0: Learner, n: nat)
      requires Capabilities() && Sound(s0) && Feasible(plan)
      requires 0 < n <= plan.episodes
      requires NoneUpdated(Training(plan, s0, n).reports)
      ensures NoneUpdated(Training(plan, s0, n - 1).reports)
      ensures Training(plan, s0, n).learner.nets == Training(plan, s0, n - 1).learner.nets
    {
      var t := Training(plan, s0, n);
      var prev := Training(plan, s0, n - 1);
      TrainingStepReports(plan, s0, n);
      TrainingStepParameters(plan, s0, n);
      TrainingStepRaises(plan, s0, n);
      if prev.outcome.Ok? && t.outcome.Ok? {
        assert t.reports[|prev.reports|].update.Skipped?;
        forall e | 0 <= e < |prev.reports|
          ensures prev.reports[e].update.Skipped?
        {
          assert prev.reports[e] == t.reports[e];
        }
      }
    }

    /**
     * `train`: runs the episodes in order, reporting each one; the first
     * episode that raises ends training, and its cause is returned.
     */
    method Train(episodes: nat, renderFrequency: nat, inputs: seq<EpisodeInput>, pick: (nat, nat, nat) -> seq<nat>)
      returns (reports: seq<Report>, outcome: Result<(), Halt>)
      requires Valid()
      requires Feasible(Plan(episodes, renderFrequency, inputs, pick))
      modifies this, replay
      ensures Valid() && replay == old(replay)
      ensures Trained(reports, outcome, Snapshot()) == Training(Plan(episodes, renderFrequency, inputs, pick), old(Snapshot()), episodes)
    {
      var plan := Plan(episodes, renderFrequency, inputs, pick);
      ghost var s0 := Snapshot();
      reports, outcome := [], Ok(());
      var episode := 0;
      while episode < episodes && outcome.Ok?
        invariant episode <= episodes
        invariant Valid() && replay == old(replay)
        invariant Sound(s0) && Feasible(plan)
        invariant Trained(reports, outcome, Snapshot()) == Training(plan, s0, episode)
      {
        reports, outcome := TrainNext(plan, s0, episode, reports);
        episode := episode + 1;
      }
      if outcome.Err? {
        HaltedStays(plan, s0, episode, episodes);
      }
    }

    /** One pass of the training loop: episode `e` extends the reports of the episodes before it. */
    method TrainNext(plan: Plan, ghost s0: Learner, e: nat, reports: seq<Report>)
      returns (reports': seq<Report>, outcome: Result<(), Halt>)
      requires Valid() && Sound(s0) && Feasible(plan) && e < plan.episodes
      requires Trained(reports, Ok(()), Snapshot()) == Training(plan, s0, e)
      modifies this, replay
      ensures Valid() && replay == old(replay)
      ensures Trained(reports', outcome, Snapshot()) == Training(plan, s0, e + 1)
    {
      EpisodeAtIs(plan, s0, e);
      var r := TrainEpisode(e, plan.episodes, plan.renderFrequency, plan.inputs[e], plan.pick);
      if r.Err? {
        reports', outcome := reports, Err(r.error);
      } else {
        reports', outcome := reports + [r.value], Ok(());
      }
    }

    /** A proof step for `TrainNext`: unfolds `EpisodeAt` at `e`, which it restates. */
    lemma EpisodeAtIs(plan: Plan, s0: Learner, e: nat)
      requires Capabilities() && Sound(s0) && Feasible(plan)
      requires e < plan.episodes
      ensures EpisodeAt(plan, s0, e) ==
        Episode(e, plan.episodes, plan.renderFrequency, plan.inputs[e], plan.pick, Training(plan, s0, e).learner)
    {
    }

    /** `clear_experience`: replaces the buffer with a new empty one of capacity `memory`. */
    method ClearExperience()
      requires Valid()
      modifies this
      ensures Valid() && fresh(replay) && replay.buffer == [] && replay.capacity == memory
      ensures epsilon == old(epsilon) && qWeights == old(qWeights) && targetWeights == old(targetWeights)
    {
      replay := new ExperienceReplay(memory);
    }
  }

  /**
   * Without a target network the descents train the online parameters as a
   * target network synchronised before every descent (`target_frequency` 1)
   * would: the online parameters and the losses agree, descent by descent.
   */
  lemma {:induction false} NoTargetIsFrequencyOne(a: DeepQNetwork, b: DeepQNetwork, nets: Nets, batches: seq<Batch>, discount: real, n: nat)
    requires a.Capabilities() && b.Capabilities()
    requires a.actions == b.actions && a.q == b.q && a.descend == b.descend
    requires !a.useTarget && b.useTarget && b.targetFrequency == 1
    requires n <= |batches| && a.AllFit(batches) && b.AllFit(batches)
    ensures a.Run(nets, batches, discount, n).online == b.Run(nets, batches, discount, n).online
    ensures 0 < n ==> a.LastLoss(nets, batches, discount, n) == b.LastLoss(nets, batches, discount, n)
    decreases n
  {
    if n > 0 {
      NoTargetIsFrequencyOne(a, b, nets, batches, discount, n - 1);
      var x := a.Run(nets, batches, discount, n - 1);
      var y := b.Run(nets, batches, discount, n - 1);
      var batch := batches[n - 1];
      assert a.Bootstrap(x.online, batch) == b.Bootstrap(y.online, batch);
      assert a.Labels(x, n - 1, batch, discount) == b.Labels(y, n - 1, batch, discount);
      assert a.Predicted(x.online, batch) == b.Predicted(y.online, batch);
    }
  }
}
