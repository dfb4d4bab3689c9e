/** The learner's own state and checks: the output-layer placement check, the model-kind
    flags set while configuring, and the session bookkeeping (score, status, learning
    monitor, history) that the views observe and `reset` clears. */
module Learner {
  import opened Collaborators
  import opened EpochRunner

  // ---------------------------------------------------------------------------------------
  // Output-layer placement
  // ---------------------------------------------------------------------------------------

  /** A layer of a DL4J network configuration, distinguished only by whether it is an
      instance of `OutputLayer`. */
  datatype ConfLayer = OutputLayer | OtherLayer(className: string)

  /** The diagnostic `checkOutputLayer` logs: none, the debug note that the last layer
      should be replaced for uptraining, or the coding note that an output layer sits
      somewhere other than last. */
  datatype OutputNote = NoNote | ReplaceForUptraining | OutputLayerNotLast

  /** `checkOutputLayer`: whether the last configured layer is an `OutputLayer`. When it is
      not, the layers are scanned once more, only to log a misplaced output layer. */
  method CheckOutputLayer(layers: seq<ConfLayer>) returns (r: bool, note: OutputNote)
    ensures r <==> |layers| > 0 && layers[|layers| - 1].OutputLayer?
    ensures note == ReplaceForUptraining <==> r
    ensures note == OutputLayerNotLast <==> !r && exists i :: 0 <= i < |layers| && layers[i].OutputLayer?
  {
    if |layers| == 0 {
      return false, NoNote;
    }
    if layers[|layers| - 1].OutputLayer? {
      return true, ReplaceForUptraining;
    }
    var j := 0;
    while j < |layers|
      invariant j <= |layers|
      invariant forall m :: 0 <= m < j ==> !layers[m].OutputLayer?
    {
      if layers[j].OutputLayer? {
        return false, OutputLayerNotLast;
      }
      j := j + 1;
    }
    return false, NoNote;
  }

  // ---------------------------------------------------------------------------------------
  // Model-kind flags
  // ---------------------------------------------------------------------------------------

  /** The `DNNLayerType` constants `configure` tests for; every other constant of that
      enumeration is `OtherLayerType`. */
  datatype DnnLayerType = ConvolutionLayer | GravesLstm | Gru | OtherLayerType(name: string)

  /** `List.contains`: a linear scan for an equal element. */
  method ListContains<T(==)>(xs: seq<T>, x: T) returns (found: bool)
    ensures found <==> x in xs
  {
    var j := 0;
    while j < |xs|
      invariant j <= |xs|
      invariant x !in xs[..j]
    {
      if xs[j] == x {
        return true;
      }
      j := j + 1;
    }
    assert xs[..j] == xs;
    return false;
  }

  /** The flags a learner derives while configuring. */
  datatype LearnerFlags = LearnerFlags(isConvolutional: bool, isRecurrent: bool, inputTableContainsImg: bool)

  /** Why `configure` refused the settings. */
  datatype ConfigureError = InvalidColumnSelection

  // ---------------------------------------------------------------------------------------
  // Session bookkeeping
  // ---------------------------------------------------------------------------------------

  /** A training score (`Double`), treated as an opaque token. */
  datatype Score = Score(id: int)

  /** `LearningStatus`: the snapshot shown by the learning view. */
  datatype LearningStatus = LearningStatus(currentEpoch: int, maxEpochs: int, score: Option<Score>, trainingMethod: string)

  /** `HistoryEntry`: the score reached at the end of an epoch. */
  datatype HistoryEntry = HistoryEntry(score: Score, epoch: int)

  /** What `notifyViews` is called with: a status, a history entry, or `null`, which
      returns the view to its idle display. */
  datatype ViewEvent = StatusEvent(status: LearningStatus) | EntryEvent(entry: HistoryEntry) | Idle

  /** The fields of one learner node model: the configure flags, the current score and
      status, the learning monitor's stop flag, and the history. */
  datatype Session = Session(
    flags: LearnerFlags,
    score: Option<Score>,
    status: Option<LearningStatus>,
    stopRequested: bool,
    history: seq<HistoryEntry>)

  /** A freshly constructed learner: every flag false, every reference null, the history
      empty. */
  function NewSession(): (r: Session)
    ensures !r.flags.isConvolutional && !r.flags.isRecurrent && !r.flags.inputTableContainsImg
    ensures r.score.None? && r.status.None?
    ensures !r.stopRequested && r.history == []
  {
    Session(LearnerFlags(false, false, false), None, None, false, [])
  }

  /** A state change together with the notification it sent to the views. */
  datatype Step = Step(session: Session, event: ViewEvent)

  /** The configure outcome: the settings were accepted, or an `InvalidSettingsException`. */
  datatype ConfigureResult = Configured | Rejected(error: ConfigureError)

  /** The flag-setting part of `configure`. The flags are assigned from membership tests on
      the model's layer types before the column selection is validated, so they are set
      even when the selection is then rejected. Whether the table holds images and whether
      the selection is valid are answers of helpers outside this model. */
  method Configure(s: Session, layerTypes: seq<DnnLayerType>, tableContainsImg: bool, selectionValid: bool)
    returns (r: Session, result: ConfigureResult)
    ensures r.flags.isConvolutional <==> ConvolutionLayer in layerTypes
    ensures r.flags.isRecurrent <==> GravesLstm in layerTypes || Gru in layerTypes
    ensures r.flags.inputTableContainsImg == tableContainsImg
    ensures r.(flags := s.flags) == s
    ensures result.Configured? <==> selectionValid
  {
    var convolutional := ListContains(layerTypes, ConvolutionLayer);
    var recurrent := ListContains(layerTypes, GravesLstm);
    if !recurrent {
      recurrent := ListContains(layerTypes, Gru);
    }
    r := s.(flags := LearnerFlags(convolutional, recurrent, tableContainsImg));
    result := if selectionValid then Configured else Rejected(InvalidColumnSelection);
  }

  /** `logEpochScore`: appends the network's score for `epoch` to the history and shows it.
      The current score field is not touched. */
  function LogEpochScore(s: Session, netScore: Score, epoch: int): (r: Step)
    ensures |r.session.history| == |s.history| + 1
    ensures r.session.history[..|s.history|] == s.history
    ensures r.session.history[|s.history|] == HistoryEntry(netScore, epoch)
    ensures r.session.(history := s.history) == s
    ensures r.event == EntryEvent(HistoryEntry(netScore, epoch))
  {
    var entry := HistoryEntry(netScore, epoch);
    Step(s.(history := s.history + [entry]), EntryEvent(entry))
  }

  /** `updateView`: builds a status from the epoch counters, the current score and the
      method name, shows it, and keeps it as the current status. */
  function UpdateView(s: Session, currentEpoch: int, maxEpochs: int, trainingMethod: string): (r: Step)
    ensures r.session.status.Some? && r.event == StatusEvent(r.session.status.value)
    ensures r.session.status.value.score == s.score
    ensures r.session.status.value.currentEpoch == currentEpoch && r.session.status.value.maxEpochs == maxEpochs
    ensures r.session.status.value.trainingMethod == trainingMethod
    ensures r.session.(status := s.status) == s
  {
    var status := LearningStatus(currentEpoch, maxEpochs, s.score, trainingMethod);
    Step(s.(status := Some(status)), StatusEvent(status))
  }

  /** `reset`: returns the view to idle, clears the score, the status, the monitor's stop
      flag and the history. The configure flags are not cleared. */
  function Reset(s: Session): (r: Step)
    ensures r.session.history == [] && r.session.score.None? && r.session.status.None?
    ensures !r.session.stopRequested
    ensures r.session.flags == s.flags
    ensures r.session == NewSession().(flags := s.flags)
    ensures r.event == Idle
  {
    Step(Session(s.flags, None, None, false, []), Idle)
  }

  /** The signals a training loop observes for this learner: the host's cancellation, and
      the learning monitor's flag, which reads as set from the first check when it is
      already set on entry and otherwise from the check at which the view requests a stop. */
  function LoopSignals(s: Session, cancelAt: Option<nat>, stopRequestAt: Option<nat>): (sig: Signals)
    ensures sig.cancelAt == cancelAt
    ensures s.stopRequested ==> forall k: nat :: sig.StopSeen(k)
    ensures !s.stopRequested ==> forall k: nat ::
              sig.StopSeen(k) <==> stopRequestAt.Some? && stopRequestAt.value <= k
  {
    Signals(cancelAt, if s.stopRequested then Some(0) else stopRequestAt)
  }

  /** After a `reset`, a loop sees a stop only if one is requested afterwards. */
  lemma ResetClearsStop(s: Session, cancelAt: Option<nat>)
    ensures forall k: nat :: !LoopSignals(Reset(s).session, cancelAt, None).StopSeen(k)
  {
  }

  /** A backpropagation epoch run right after `reset`, with no cancellation and no new
      stop request: a stop requested before the reset does not cut it short, so every
      remaining batch is fitted and the network's `pretrain` flag is restored. */
  method EpochAfterReset(s: Session, net: Network, data: BatchIterator,
                         fitStep: (Network, DataSet) -> Network)
    returns (net': Network, data': BatchIterator, trace: seq<Call>, out: Outcome)
    requires data.Valid()
    ensures out.Completed? && !data'.HasNext()
    ensures trace == FitSteps(data.batches[data.cursor..])
    ensures net' == FitAll(fitStep, net.(pretrain := false), data.batches[data.cursor..]).(pretrain := net.pretrain)
  {
    var sig := LoopSignals(Reset(s).session, None, None);
    net', data', trace, out := BackpropOneEpoch(net, data, sig, fitStep);
    ghost var rest := data.batches[data.cursor..];
    assert rest[..|rest|] == rest;
  }

  /** `getHistory`: the history entries, oldest first. The source returns a copy of its
      list; a value here is already independent of the session it came from. */
  function GetHistory(s: Session): (h: seq<HistoryEntry>)
    ensures |h| == |s.history| && forall i :: 0 <= i < |h| ==> h[i] == s.history[i]
  {
    s.history
  }

  /** Logging the scores of a run of epochs, one `logEpochScore` call per observation. */
  function LogAll(s: Session, scores: seq<HistoryEntry>): Session
    decreases |scores|
  {
    if |scores| == 0 then s
    else LogAll(LogEpochScore(s, scores[0].score, scores[0].epoch).session, scores[1..])
  }

  /** The history is exactly the earlier entries followed by the logged ones, in order;
      nothing else in the session changes. */
  lemma {:induction false} LogAllAppends(s: Session, scores: seq<HistoryEntry>)
    ensures GetHistory(LogAll(s, scores)) == s.history + scores
    ensures LogAll(s, scores).(history := s.history) == s
    decreases |scores|
  {
    if |scores| > 0 {
      var s1 := LogEpochScore(s, scores[0].score, scores[0].epoch).session;
      LogAllAppends(s1, scores[1..]);
      assert s.history + scores == s1.history + scores[1..];
    }
  }

  /** After a `reset`, the history holds exactly the epochs logged since. */
  lemma HistoryAfterReset(s: Session, scores: seq<HistoryEntry>)
    ensures GetHistory(LogAll(Reset(s).session, scores)) == scores
  {
    LogAllAppends(Reset(s).session, scores);
  }
}
