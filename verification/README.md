# Training control of the KNIME Deeplearning4J learner

A Dafny model of the training-control logic in `AbstractDLLearnerNodeModel`, the base
class of the KNIME learner nodes for Deeplearning4J networks. The model covers:

- the check that the last configured layer is an `OutputLayer`;
- the model-kind flags `configure` derives from the layer types;
- the transfer of weights and updater from a previously trained network;
- the three one-epoch loops (layer-wise pretraining, finetuning, backpropagation) and
  how they react to cancellation and to the learning monitor's stop flag;
- the session bookkeeping: score history, status, monitor flag and `reset`.

DL4J and KNIME objects appear as stand-ins (`collaborators.dfy`):

- A network is its layers (class name and parameter tensor), its `pretrain` flag and an
  optional updater. Tensors, updaters and scores are opaque identities.
- A `DataSetIterator` is a sequence of batches with a cursor. `reset()` moves the cursor
  back to 0.
- Cancellation and the stop flag are a `Signals` schedule. It says at which check a
  signal is first raised, counting the checks the loop has made; once raised, a signal
  stays raised. A stop flag already set on entry is a stop at check 0.
- `Signals.Gate(limit)` is the index of the first check that sees a signal, capped at
  `limit`. The loop contracts cut their undisturbed behaviour at that index.

Files: `collaborators.dfy` (stand-ins), `state_transfer.dfy`, `epoch_runner.dfy`,
`learner.dfy` (output-layer check, configure flags, session).

Behaviour of the code worth noting:

- `checkOutputLayer` returns true whenever the last layer is an `OutputLayer`, even if an
  earlier layer is one too. It logs the misplaced-output-layer diagnostic only when the
  last layer is not an `OutputLayer`.
- `backpropOneEpoch` has no `finally`. When `checkCanceled` throws, the `pretrain` flag
  stays forced off (`BackpropOneEpoch` states this).
- In pretraining, a stop request breaks only the current layer's batch loop. Every later
  layer still makes one check, sees the flag again, reads nothing and resets the
  iterator. A cancellation raised during those extra checks still cancels the epoch.
- `reset` does not clear the flags set by `configure`.

## Model

| member | source | states |
|---|---|---|
| `Learner.CheckOutputLayer` | org.knime.ext.dl4j.base/src/org/knime/ext/dl4j/base/nodes/learn/AbstractDLLearnerNodeModel.java:320-336 | The result is true exactly when the list is non-empty and its last layer is an `OutputLayer`, so an empty list gives false and an earlier output layer does not matter. The "not last" diagnostic is logged exactly when the result is false and some layer is an output layer. |
| `Learner.Configure` | org.knime.ext.dl4j.base/src/org/knime/ext/dl4j/base/nodes/learn/AbstractDLLearnerNodeModel.java:126-142 | `isConvolutional` holds exactly when the layer types contain `CONVOLUTION_LAYER`. `isRecurrent` holds exactly when they contain `GRAVES_LSTM` or `GRU`. Both flags are set even when the column selection is then rejected, and nothing else in the session changes. |
| `Learner.ListContains` | org.knime.ext.dl4j.base/src/org/knime/ext/dl4j/base/nodes/learn/AbstractDLLearnerNodeModel.java:127-133 | The scan `configure` relies on finds an element exactly when it is a member of the list. |
| `StateTransfer.TransferWeights` | org.knime.ext.dl4j.base/src/org/knime/ext/dl4j/base/nodes/learn/AbstractDLLearnerNodeModel.java:182-208 | Each destination layer i below min(source length, destination length) is offered source layer i's parameters. It takes them when `setParams` succeeds and is unchanged when it throws. Layers at or beyond the source length are unchanged. One note stands for the log output of each attempted index, so a failure at i does not stop index i+1. Layer count, `pretrain` flag and updater are preserved. |
| `StateTransfer.TransferUpdater` | org.knime.ext.dl4j.base/src/org/knime/ext/dl4j/base/nodes/learn/AbstractDLLearnerNodeModel.java:163-172 | Without a source updater the destination is returned unchanged. Otherwise its updater becomes the source's, and only the updater changes. |
| `StateTransfer.TransferFullInitialization` | org.knime.ext.dl4j.base/src/org/knime/ext/dl4j/base/nodes/learn/AbstractDLLearnerNodeModel.java:220-228 | Without a source network nothing changes and nothing is logged. With `transferUpdater` false the destination updater is untouched. Otherwise layers follow the weight transfer and the updater follows the updater transfer. |
| `EpochRunner.PretrainPass` | org.knime.ext.dl4j.base/src/org/knime/ext/dl4j/base/nodes/learn/AbstractDLLearnerNodeModel.java:243-249 | One layer's batch loop trains that layer on the remaining batches in order, up to the first check that sees a signal, and reads no batch at that check. It ends in cancellation exactly when that first signal is a cancellation. |
| `EpochRunner.PretrainOneEpoch` | org.knime.ext.dl4j.base/src/org/knime/ext/dl4j/base/nodes/learn/AbstractDLLearnerNodeModel.java:239-252 | The `pretrainLayer` calls are exactly the undisturbed schedule (layers in order, each over the batches in order), cut at the first check g that sees a signal, so a stop at check t allows at most t calls. The outcome is `PretrainOutcome`: with no signal within the schedule the epoch ends normally after one check per call and one reset per layer. Otherwise g lies in the pass of layer l, each later layer makes one more check, and the epoch is cancelled exactly when the cancellation is raised by check g + (n - 1 - l). A cancellation at check c leaves after c + 1 checks, before that layer's reset, with the iterator where that pass stopped reading (0 after a stop). A normal return makes n resets and leaves the iterator at 0, or where it was on entry when there are no layers. |
| `EpochRunner.PretrainCancelFirst` | org.knime.ext.dl4j.base/src/org/knime/ext/dl4j/base/nodes/learn/AbstractDLLearnerNodeModel.java:244-247 | Cancellation is polled before the stop flag: a cancellation raised within the schedule no later than the stop request always ends the epoch by cancellation. |
| `EpochRunner.PretrainUndisturbed` | org.knime.ext.dl4j.base/src/org/knime/ext/dl4j/base/nodes/learn/AbstractDLLearnerNodeModel.java:239-252 | With neither signal, from a reset iterator, the epoch ends normally after the whole schedule: n × \|B\| calls and checks, and n resets leaving the iterator at 0. |
| `EpochRunner.PretrainScheduleLength` | org.knime.ext.dl4j.base/src/org/knime/ext/dl4j/base/nodes/learn/AbstractDLLearnerNodeModel.java:241-250 | From a freshly reset iterator, the undisturbed schedule for n layers and batches B has n × \|B\| calls. |
| `EpochRunner.PretrainScheduleOrder` | org.knime.ext.dl4j.base/src/org/knime/ext/dl4j/base/nodes/learn/AbstractDLLearnerNodeModel.java:241-250 | In that schedule, call number i × \|B\| + j trains layer i on batch j, so layers run in order and each sees every batch in iterator order. |
| `EpochRunner.SupervisedPrefix` | org.knime.ext.dl4j.base/src/org/knime/ext/dl4j/base/nodes/learn/AbstractDLLearnerNodeModel.java:273-275 | The index of the first batch missing its feature or label matrix, or the length when no batch is missing one. Every batch before it has both matrices. |
| `EpochRunner.FinetuneOneEpoch` | org.knime.ext.dl4j.base/src/org/knime/ext/dl4j/base/nodes/learn/AbstractDLLearnerNodeModel.java:263-280 | `finetune` runs once per batch, in order, on the supervised batches before the first sentinel batch, cut at the first raised signal. The sentinel batch is read but not trained on, and nothing after it is read. A signal stops the loop before the next read. The epoch ends in cancellation exactly when the first raised signal is a cancellation at a check the loop makes. |
| `EpochRunner.BackpropOneEpoch` | org.knime.ext.dl4j.base/src/org/knime/ext/dl4j/base/nodes/learn/AbstractDLLearnerNodeModel.java:291-312 | `fit` runs once per batch, in order, up to exhaustion or the first raised signal, and every `fit` sees `pretrain` false. A normal return, including a stop-flag break, restores the entry `pretrain` value. A cancellation leaves `pretrain` false. The loop itself writes only the `pretrain` flag: apart from that flag, the network is the entry network with each fitted batch applied in turn by the opaque `fit` step. |
| `Learner.LogEpochScore` | org.knime.ext.dl4j.base/src/org/knime/ext/dl4j/base/nodes/learn/AbstractDLLearnerNodeModel.java:357-361 | Exactly one `(score, epoch)` entry is appended at the end, and the earlier entries are kept. The views are sent that entry, and nothing else in the session (the current score included) changes. |
| `Learner.LogAllAppends` | org.knime.ext.dl4j.base/src/org/knime/ext/dl4j/base/nodes/learn/AbstractDLLearnerNodeModel.java:357-361 | After any run of `logEpochScore` calls, the history is the earlier history followed by the logged entries in call order. |
| `Learner.UpdateView` | org.knime.ext.dl4j.base/src/org/knime/ext/dl4j/base/nodes/learn/AbstractDLLearnerNodeModel.java:345-349 | The new status carries the given epoch counters, the given training-method name and the score current at the call. The views are sent that status, which becomes the current status, and nothing else changes. |
| `Learner.NewSession` | org.knime.ext.dl4j.base/src/org/knime/ext/dl4j/base/nodes/learn/AbstractDLLearnerNodeModel.java:82-100 | A freshly constructed learner has all three configure flags false, no score, no status, the monitor's stop flag clear and an empty history. |
| `Learner.Reset` | org.knime.ext.dl4j.base/src/org/knime/ext/dl4j/base/nodes/learn/AbstractDLLearnerNodeModel.java:375-384 | After `reset` the history is empty, score and status are null, and the monitor's stop flag is cleared. The views are sent the idle sentinel, and the configure flags are kept, so the learner equals a freshly constructed one apart from those flags. |
| `Learner.ResetClearsStop` | org.knime.ext.dl4j.base/src/org/knime/ext/dl4j/base/nodes/learn/AbstractDLLearnerNodeModel.java:375-384 | After a `reset`, a training loop never sees the stop flag unless a stop is requested afterwards. |
| `Learner.EpochAfterReset` | org.knime.ext.dl4j.base/src/org/knime/ext/dl4j/base/nodes/learn/AbstractDLLearnerNodeModel.java:291-312 | After `reset`, with no cancellation and no new stop request, a backpropagation epoch fits every remaining batch and exhausts the iterator, even when a stop was requested before the reset. The network is the result of fitting all those batches, with the entry `pretrain` flag restored. |
| `Learner.LoopSignals` | org.knime.ext.dl4j.base/src/org/knime/ext/dl4j/base/nodes/learn/AbstractDLLearnerNodeModel.java:243-247 | The signals a loop sees: the host's cancellation as scheduled, and the monitor's flag. A flag already set on entry is seen at every check. Otherwise the flag is seen from the check at which the view requests a stop onward. |
| `Learner.HistoryAfterReset` | org.knime.ext.dl4j.base/src/org/knime/ext/dl4j/base/nodes/learn/AbstractDLLearnerNodeModel.java:418-420 | After a `reset`, `getHistory` returns exactly the entries logged since, in order. |
| `Learner.GetHistory` | org.knime.ext.dl4j.base/src/org/knime/ext/dl4j/base/nodes/learn/AbstractDLLearnerNodeModel.java:418-420 | The returned list holds the history entries oldest first, one for each logged epoch. |

## Left out

- Training math: what `pretrainLayer` and `finetune` do to the weights, and `score()`. They are recorded only as calls, and scores are opaque tokens. What `fit` does to the layers and the updater is an opaque `fitStep` parameter of `BackpropOneEpoch`; `fit` is assumed not to write the configuration's `pretrain` flag.
- `setParams` shape checks: replaced by an arbitrary acceptance function. A failed `setParams` leaves its layer unchanged.
- `exec.setMessage`, the logger and `passObjToView`: progress text and log output are not modelled. The only exceptions are the per-layer transfer notes and the `checkOutputLayer` diagnostic, which are returned as values.
- `notifyViews` is returned as a `ViewEvent` rather than sent.
- Column and table validation (`containsImg`, `validateColumnSelection`, `validateSpec`, `createNameTypeListOfSelectedCols`) and the output spec built in `configure`: their code is not part of this model. `containsImg` and the selection's validity are parameters.
- `super.reset()`: the parent class is not part of this model.
- The trivial accessors (`isConvolutional`, `isRecurrent`, `inputTableContainsImg`, `getScore`, `setScore`, `getLearningStatus`, `setLearningStatus`, `getLearningMonitor`) are the fields of `Learner.Session`.
- The `LearningMonitor` class is not part of this model. Its flag is `Session.stopRequested`, and during a loop it is the `Signals` schedule.
- Concurrency: the view may set the stop flag from another thread. This is modelled as a scheduled flip between checks.
- `BackpropOneEpoch`, `PretrainOneEpoch`, `FinetuneOneEpoch`: `setMessage` is not in the traces. The pretraining calls, resets and checks are returned as a call list and two counts, not as one interleaved trace.
- `BackpropOneEpoch`: an exception thrown by `fit` or `data.next()` is not modelled. It would leave the loop like a cancellation, skipping the restore at line 311, so `pretrain` would stay false.
- `PretrainOneEpoch`: an exception thrown by `pretrainLayer` or `data.next()` is not modelled. It would leave the method before that layer's `data.reset()` at line 250, like a cancellation.
- `FinetuneOneEpoch`: an exception thrown by `setInput`, `setLabels`, `finetune` or `data.next()` is not modelled. It would leave the loop at once, like a cancellation.
- `Learner.GetHistory`: the copy the source makes is not modelled, because a Dafny sequence is already a value independent of the session.
