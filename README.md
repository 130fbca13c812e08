# A verified model of the DQN training engine

This project models the Deep Q-Network training engine of `DQN.py` in Dafny.
Its three modules follow the source's structure:

- `Replay` (replay.dfy) models `ExperienceReplay`. It is a bounded FIFO store of
  `Experience` records built on a deque with a maximum length. It offers `append`,
  `len` and `sample`. `sample` draws distinct indices without replacement and returns
  five parallel columns. The buffer is a class whose `seq<Experience>` field is
  reassigned by `Append`. What a deque with maximum length `c` keeps is the value
  function `Window`.
- `Bellman` (bellman.dfy) holds the numeric pieces, on exact reals: argmax and max
  over a Q-vector (`tf.argmax`, `tf.reduce_max`), the regression targets
  (`np.where(dones, rewards, rewards + gamma * next_Q)`) and the mean squared error.
- `Agent` (agent.dfy) models the `DeepQNetwork` class:
  - epsilon-greedy `act`;
  - the `simulate` episode loop;
  - the `_update_weights` descent loop with its target-network schedule;
  - `_epsilon` annealing;
  - the `train` episode loop;
  - `clear_experience`.

  The object's epsilon, parameters and buffer are fields that these methods update.
  The loops are `while` loops proved against specification functions:
  - `Rollout` gives the records of an episode;
  - `Run` gives the parameters after `n` descents;
  - `Training`, built episode by episode from `Episode`, gives the whole run of
    `train`. Lemmas show that its reports satisfy `Scheduled`, the decisions of
    one training episode.

Collaborators the source calls into are parameters of the model:

- The neural network is the constructor argument `q`, from parameters and a state
  to one value per action. What the model assumes of it is gathered in
  `Capabilities()`.
- One optimizer step is `descend`.
- `np.power` is `power`, assumed to be 1 at exponent 0 and its base at exponent 1.
- The gym environment is a finite trace of `StepResult`s (new state, reward, done).
- Random numbers are inputs:
  - an `ActDraw` per step for `act`;
  - a `draw` of indices for `sample`;
  - a `pick` function for the draws of each descent of each episode.

Apart from a network with no actions (see "## Left out"), every way the source raises on these operations is an explicit error value:

- `sample` raises when asked for more records than stored. With a batch size of 0
  it also fails, because `zip(*[])` cannot be unpacked into five names.
- `_update_weights` ends with `loss` unbound when `descent_frequency` is 0. It
  divides by zero when a target network is used with `target_frequency` 0.
- `train` divides by zero when `render_frequency` is 0. It also does so when
  `update_frequency` is 0, but only once the buffer holds `start_updating` records.

Some behaviours of the code, stated here because a reader might expect otherwise:

- The constructor checks none of its settings. A capacity of 0 is accepted, and
  such a buffer keeps nothing. The one setting Python itself refuses, a negative
  `memory` (`deque` raises ValueError), cannot arise here, because every integer
  setting is a natural number (see "## Left out").
- `sample(0)` fails rather than returning empty columns.
- The target network starts with the fresh parameters that `clone_model` draws, not
  with a copy of the online network. So the target is a snapshot of the online
  network only from the first descent of an update on (`TargetIsLastSync`).
- Every pass of the `_update_weights` loop samples the same buffer with the same
  batch size and divides by the same `target_frequency`. So a pass that raises is
  the first one, and `UpdateWeights` checks those causes once, in the loop's order,
  before running the loop (`Descents`) that can no longer fail.
- `train` reads epsilon, the parameters and the buffer as the previous episode left
  them. The model states a whole run as the value function `Training`, episode by
  episode, and `Train` ends in exactly the state and with exactly the reports that
  `Training` gives.

## Model

| member | source | states |
|---|---|---|
| Replay.Window | DQN.py:48 | a deque with maximum length c holds at most c records: min(n, c) of the n given to it |
| Replay.WindowIsNewest | DQN.py:48 | a deque with maximum length c keeps exactly the newest min(n, c) of the n records given to it, in insertion order |
| Replay.WindowAppend | DQN.py:59-65 | one append grows the buffer by one until it is full; then the oldest record is dropped and the length stays at the capacity; a capacity-0 buffer stays empty |
| Replay.WindowConcat | DQN.py:48 | evicting before further appends makes no difference: the contents depend only on everything appended so far |
| Replay.AppendAllWindow | DQN.py:59-65 | any sequence of appends to a buffer leaves the newest min(n, C) records of its old contents followed by the new ones |
| Replay.AppendsFromEmpty | DQN.py:48 | from empty, after any appends the length is at most C and the contents are the last min(n, C) records appended, in order |
| Replay.DistinctPositions | DQN.py:79-80 | a draw without replacement, built one index at a time with each new to those before, has no index at two positions, and conversely |
| Replay.Gather | DQN.py:82 | one record per drawn index, each a record of the buffer |
| Replay.Unzip | DQN.py:81-82 | the five columns have one entry per gathered record |
| Replay.UnzipRows | DQN.py:81-85 | the i-th entries of the five columns all come from the i-th gathered record |
| Replay.FullDrawCovers | DQN.py:79-80 | n distinct indices below n use every index |
| Replay.ExperienceReplay.constructor | DQN.py:41-48 | a new buffer is empty and has the given capacity |
| Replay.ExperienceReplay.Length | DQN.py:50-57 | the length is the number of stored records and never exceeds the capacity |
| Replay.ExperienceReplay.Append | DQN.py:59-65 | the new contents are the window of the old contents plus the record, so the capacity bound is kept |
| Replay.ExperienceReplay.Sample | DQN.py:67-85 | success exactly when 0 < k <= len; TooFewRecords when k > len and EmptyBatch when k = 0; on success k aligned rows, row i being the stored record at the i-th drawn index; the buffer is untouched |
| Replay.ExperienceReplay.FullSampleCoversBuffer | DQN.py:79-85 | a batch as large as the buffer contains every stored record |
| Bellman.Argmax | DQN.py:169-170 | an index into the Q-vector whose value is maximal, with every earlier value strictly smaller |
| Bellman.ArgmaxUnique | DQN.py:170 | any index that is maximal and has no earlier maximum is the argmax, so the greedy choice depends on the vector alone |
| Bellman.Max | DQN.py:253-257 | the value is an entry of the vector and bounds every entry |
| Bellman.Targets | DQN.py:259-260 | one label per transition |
| Bellman.TerminalTarget | DQN.py:259-260 | a terminal transition's label is its reward, whatever gamma and the bootstrap estimate |
| Bellman.Mse | DQN.py:262 | the loss is never negative |
| Bellman.MseOfExactFit | DQN.py:262 | predictions equal to the labels give zero loss |
| Agent.FirstDone | DQN.py:205-210 | the index of the first step reporting done: every earlier step is not done |
| Agent.LastMultiple | DQN.py:244 | the greatest multiple of the frequency that is at most k: no later index up to k is a multiple |
| Agent.DeepQNetwork.constructor | DQN.py:94-151 | stores the configuration, sets epsilon to its initial value and starts with an empty buffer of capacity memory |
| Agent.DeepQNetwork.Act | DQN.py:153-170 | with online parameters w and exploration rate eps: the action is always below dims[-1]; outside evaluation, a uniform draw below eps returns the random action; otherwise it returns the first action with the largest Q-value under w |
| Agent.DeepQNetwork.EvaluationIsGreedy | DQN.py:166-170 | in evaluation, the action is the argmax of the Q-vector whatever epsilon and the draws are |
| Agent.DeepQNetwork.Rollout | DQN.py:205-219 | the first n steps give exactly n records, each with an action the network can score |
| Agent.DeepQNetwork.RolloutRecord | DQN.py:209-213 | record i holds the state the episode was in before step i, the action act chose there with the current parameters, epsilon and the i-th draws, and step i's reward, done flag and new state |
| Agent.DeepQNetwork.RolloutChains | DQN.py:198-215 | the first record starts in the state reset returned; each later record starts in the new state of the record before it |
| Agent.DeepQNetwork.Simulate | DQN.py:172-224 | the loop stops at the first done step; iters equals the number of records appended, in evaluation too; the buffer is the window of its old contents plus the rollout under the agent's own parameters and epsilon; the total reward is the sum of the step rewards; the states list is the iters new states |
| Agent.DeepQNetwork.Predicted | DQN.py:249-251 | this_Q has one entry per sampled transition: the online network's value, on that transition's state, of the action the transition took |
| Agent.DeepQNetwork.Bootstrap | DQN.py:252-257 | next_Q_i is a value the bootstrap network gives the i-th next state, and no action's value there exceeds it |
| Agent.DeepQNetwork.Labels | DQN.py:252-260 | one label per sampled transition |
| Agent.DeepQNetwork.LabelsAreBellmanBackups | DQN.py:252-260 | a terminal label is the reward; any other label is reward + discount * max of the target network (if used, else the online one) on the next state |
| Agent.DeepQNetwork.DescentLoss | DQN.py:262 | the loss of a descent is never negative |
| Agent.DeepQNetwork.TargetIsLastSync | DQN.py:243-245 | with a target network, SyncsAt/TargetDuring copy the online parameters at every multiple of target_frequency and at no other time: after n descents the target is the online network as it stood at the last multiple below n |
| Agent.DeepQNetwork.TargetUntouched | DQN.py:252-257 | without a target network, descents never change the target parameters |
| Agent.NoTargetIsFrequencyOne | DQN.py:124-125 | use_target false trains the online network exactly as use_target with target_frequency 1 does: the same online parameters and the same losses after every number of descents |
| Agent.DeepQNetwork.SampleFits | DQN.py:241-242 | a batch sampled from a valid buffer is aligned, non-empty and holds only actions the network can score |
| Agent.DeepQNetwork.Batches | DQN.py:239-242 | descent j trains on the sample taken with the j-th draw: batch_size rows, row i being the stored record at the j-th draw's i-th index |
| Agent.DeepQNetwork.DescendOnce | DQN.py:243-267 | one loop pass syncs the target when due, computes the labels and loss, and takes one optimizer step: the parameters go from those after n - 1 descents to those after n, and the loss is that of descent n - 1 |
| Agent.DeepQNetwork.Descents | DQN.py:239-269 | descent_frequency passes, each sampling with its own draw: the parameters become those after descent_frequency descents and the loss is the last descent's |
| Agent.DeepQNetwork.UpdateWeights | DQN.py:226-270 | success exactly when descent_frequency > 0, 0 < batch_size <= len and the target frequency is non-zero if used; each failure cause is named and leaves the parameters unchanged; on success the parameters are those after descent_frequency descents and the result is the last descent's loss |
| Agent.DeepQNetwork.EpsilonBoundaries | DQN.py:272-284 | `_epsilon` (EpsilonAt) is epsilon_init at step 0 and epsilon_init * epsilon_decay at step total_steps |
| Agent.DeepQNetwork.EpisodeEpsilon | DQN.py:304-308 | an episode of `train` sets epsilon to _epsilon(e, episodes) first; it raises on a zero render frequency, and only then, before anything is played |
| Agent.DeepQNetwork.EpisodeBuffer | DQN.py:304-308 | the episode's records, played with the new epsilon and the parameters the episode started with, are the newest records of the buffer, which keeps min(old + new, memory) of them |
| Agent.DeepQNetwork.EpisodeRaises | DQN.py:312-313 | an episode raises on a zero update_frequency exactly once the buffer holds start_updating records, and with a failed update exactly when one is due and cannot run, naming the cause; raising leaves the parameters unchanged |
| Agent.DeepQNetwork.EpisodeReports | DQN.py:301-317 | the report follows the episode's schedule: epsilon, rendering iff e % render_frequency == 0, iters and total reward of the played episode, an update exactly when due; the reported length is the buffer's |
| Agent.DeepQNetwork.EpisodeUpdate | DQN.py:312-313 | an episode that updates leaves the parameters as the descents over its own draws do and reports the last loss; an episode that skips the update leaves them unchanged |
| Agent.DeepQNetwork.TrainEpisode | DQN.py:301-317 | the result and the new epsilon, parameters and buffer are exactly one training episode (Episode) on the old state, whose properties EpisodeEpsilon, EpisodeBuffer, EpisodeRaises, EpisodeReports and EpisodeUpdate state |
| Agent.DeepQNetwork.TrainNext | DQN.py:301-317 | one pass of the episode loop extends a training run that has not raised by one episode |
| Agent.DeepQNetwork.Train | DQN.py:286-317 | the reports, the outcome and the new epsilon, parameters and buffer are exactly those of Training over all episodes from the old state, whose properties the Training lemmas state |
| Agent.DeepQNetwork.TrainingStepRaises | DQN.py:301-308 | an episode of a run that has not raised raises ZeroRenderFrequency exactly when render_frequency is 0, never raises when configured, and adds no report when it raises |
| Agent.DeepQNetwork.TrainingStepEpsilon | DQN.py:304 | an episode of a run that has not raised sets epsilon to _epsilon of its own index |
| Agent.DeepQNetwork.TrainingStepParameters | DQN.py:312-313 | an episode of a run that has not raised either raises, reports an update, or leaves the parameters unchanged |
| Agent.DeepQNetwork.TrainingStepSchedules | DQN.py:301-317 | an episode that does not raise appends a report following its own schedule |
| Agent.DeepQNetwork.TrainingStepReplayLength | DQN.py:310-317 | the report an episode appends gives the length of the buffer as that episode left it |
| Agent.DeepQNetwork.TrainingStepStarted | DQN.py:301-304 | episode n - 1 sets epsilon to _epsilon(n - 1) unless the run had already raised, which keeps its epsilon; a run that has raised holds one report per episode before the one that raised |
| Agent.DeepQNetwork.TrainingStepNoneUpdated | DQN.py:312-313 | an episode of training that reports no update leaves the parameters as the episodes before it left them |
| Agent.DeepQNetwork.HaltedStays | DQN.py:301 | once an episode has raised, later episodes change nothing: the exception ends training |
| Agent.DeepQNetwork.TrainingCompletes | DQN.py:301-308 | training completes exactly when every episode reported; a zero render frequency raises at the first episode with no report |
| Agent.DeepQNetwork.TrainingSchedules | DQN.py:301-317 | every report of training follows its episode's schedule |
| Agent.DeepQNetwork.TrainingReplayLengths | DQN.py:301-317 | the replay length in report e is the real buffer length after episode e, the length against which that episode decided whether to update |
| Agent.DeepQNetwork.ScheduledReportsEach | DQN.py:301-317 | following the schedule report by report is following it at every episode index |
| Agent.DeepQNetwork.TrainingEpsilon | DQN.py:301-304 | zero episodes leave the starting state as it was; otherwise epsilon is _epsilon of the last episode started, the one that raised or else the last one |
| Agent.DeepQNetwork.ConfiguredTrainingCompletes | DQN.py:301-317 | with non-zero frequencies, at least one descent per update and a batch no larger than start_updating, training never raises and every episode reports |
| Agent.DeepQNetwork.ParametersChangeOnlyByUpdates | DQN.py:312-313 | when no report shows an update, training leaves the parameters as they were |
| Agent.DeepQNetwork.ClearExperience | DQN.py:348-352 | the buffer is replaced by a new empty one of capacity memory; the parameters and epsilon are unchanged |

## Left out

- `save` and `load` (DQN.py:319-346) are not modelled: they are pickle and weight-file I/O.
- The `tqdm` progress bar and the `print` calls are not modelled. The values printed per episode are kept in each `Report`.
- `env.render()` and `env.show()` are side calls with no effect on the agent's state. A `Report` records only whether rendering happens. The `render`, `graph`, `path` and `summary` arguments are not modelled.
- The environment's dynamics are not modelled. Each episode's step results are a given trace, fixed in advance rather than computed from the chosen actions.
- An episode the environment never ends, where `simulate` loops forever, is excluded: `Simulate` requires a trace that contains a done step.
- The MLP (`create_mlp`), the `GradientTape` gradient and the Adam optimizer with its learning rate and moment state are not modelled. The network is the abstract function `q`, and one optimizer step is the abstract function `descend`.
- The `dims` list is reduced to its last entry, the number of actions.
- Floating point and the `float32` conversions are not modelled: all values are exact reals.
- The uniformity of the random draws is not modelled. The draws are inputs, constrained only to their ranges, and to distinctness for `sample`.
- Agent.DeepQNetwork.constructor: every integer setting is a natural number, so negative settings are not modelled. Python accepts them: a negative `memory` raises ValueError in `deque` (DQN.py:48, 145); under Python's floor modulo (DQN.py:244, 308, 312) a negative `render_frequency`, `update_frequency` or `target_frequency` is a multiple test exactly like its absolute value; a negative `descent_frequency` runs no descent, as 0 does.
- Agent.DeepQNetwork.constructor: requires at least one action (`0 < actions`, as does `Capabilities()`). The source accepts `dims[-1] == 0`, and then every `act` raises: `np.random.randint(0, 0)` on exploring (DQN.py:167) and `tf.argmax` over an empty output otherwise (DQN.py:170). The model excludes that configuration rather than giving `Act` an error path, since an agent with no actions cannot play at all.
- Agent.DeepQNetwork.constructor: with `use_target` false the source never sets `target_frequency` or `q_target`. The model keeps both fields and carries the target parameters through the descents, but never uses them for labels.
- Agent.DeepQNetwork.Act: takes the `uniform` draw even in evaluation, where the source draws nothing; the value is then unused.
- Bellman.Argmax: `tf.argmax` returning the first maximal index is assumed, not derived from TensorFlow; `Agent.DeepQNetwork.Act` picks its greedy action through it.
- Agent.DeepQNetwork.EpsilonBoundaries: the only facts assumed of `np.power` are its values at exponents 0 and 1. Nothing else is known of it.
- Agent.DeepQNetwork.Train: the invariant that epsilon stays within [0, epsilon_init] is not proved, since it depends on the whole `np.power` curve.
- Bellman.Mse: states that the loss is non-negative and zero on an exact fit. That a zero loss forces an exact fit is not proved, because it needs nonlinear real arithmetic the solver does not settle.
- Replay.ExperienceReplay.Sample: a negative batch size cannot be expressed, because the size is a natural number.
