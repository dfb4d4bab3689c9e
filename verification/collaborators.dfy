/** Stand-ins for the Deeplearning4J and KNIME objects that the learner base class drives.
    Tensors, updaters and scores are opaque tokens: only their identity matters to the
    control logic. */
module Collaborators {

  /** A nullable reference of the source: `None` plays the role of `null`. */
  datatype Option<+T> = None | Some(value: T)

  /** An ND4J `INDArray`, seen only as an identity. */
  datatype Tensor = Tensor(id: nat)

  /** The optimizer state (`Updater`) of a network, seen only as an identity. */
  datatype Updater = Updater(id: nat)

  /** A runtime layer of a `MultiLayerNetwork`: its class name and its parameter tensor. */
  datatype Layer = Layer(className: string, params: Tensor)

  /** A `MultiLayerNetwork`: its layers, the `pretrain` flag of its layer-wise
      configuration, and its updater (possibly absent). */
  datatype Network = Network(layers: seq<Layer>, pretrain: bool, updater: Option<Updater>)

  /** One batch of a `DataSetIterator`; either matrix may be missing. */
  datatype DataSet = DataSet(features: Option<Tensor>, labels: Option<Tensor>) {
    /** Both the feature and the label matrix are present. */
    predicate Supervised() {
      features.Some? && labels.Some?
    }
  }

  /** A restartable `DataSetIterator`: a finite sequence of batches and a read cursor. */
  datatype BatchIterator = BatchIterator(batches: seq<DataSet>, cursor: nat) {
    predicate Valid() {
      cursor <= |batches|
    }

    predicate HasNext() {
      cursor < |batches|
    }

    /** The batch `next()` returns. */
    function Current(): DataSet
      requires HasNext()
    {
      batches[cursor]
    }

    /** The iterator after `next()`. */
    function Advance(): BatchIterator
      requires HasNext()
    {
      BatchIterator(batches, cursor + 1)
    }

    /** The iterator after `reset()`. */
    function Restart(): BatchIterator {
      BatchIterator(batches, 0)
    }
  }

  /** How a one-epoch loop ended: normally (possibly by a stop request), or by the
      `CanceledExecutionException` that `checkCanceled` throws. */
  datatype Outcome = Completed | Canceled

  function Min(a: nat, b: nat): nat {
    if a <= b then a else b
  }

  function ShiftDown(o: Option<nat>, k0: nat): Option<nat> {
    match o
    case None => None
    case Some(v) => Some(if v <= k0 then 0 else v - k0)
  }

  /** The two external signals a training loop polls before every batch, indexed by the
      number of checks the current call has already made. The host's cancellation and
      the learning monitor's stop flag are both sticky: once raised they stay raised for
      the rest of the call, because nothing inside the loops clears them. A stop flag
      already set on entry is `stopAt == Some(0)`. */
  datatype Signals = Signals(cancelAt: Option<nat>, stopAt: Option<nat>) {

    /** `exec.checkCanceled()` throws at check `k`. */
    predicate CancelSeen(k: nat) {
      cancelAt.Some? && cancelAt.value <= k
    }

    /** `checkStopLearning()` answers true at check `k`. */
    predicate StopSeen(k: nat) {
      stopAt.Some? && stopAt.value <= k
    }

    /** Neither signal is raised at check `k`. */
    predicate Quiet(k: nat) {
      !CancelSeen(k) && !StopSeen(k)
    }

    /** The index of the first check at which a signal is raised, capped at `limit`:
        the number of quiet checks a loop that could make `limit` checks gets. */
    function Gate(limit: nat): (g: nat)
      ensures g <= limit
      ensures forall j: nat :: j < g ==> Quiet(j)
      ensures g < limit ==> !Quiet(g)
    {
      var c := if cancelAt.Some? && cancelAt.value < limit then cancelAt.value else limit;
      if stopAt.Some? && stopAt.value < c then stopAt.value else c
    }

    /** The signals as seen by a loop that starts after `k0` checks were already made. */
    function After(k0: nat): (r: Signals)
      ensures forall j: nat :: r.CancelSeen(j) == CancelSeen(k0 + j)
      ensures forall j: nat :: r.StopSeen(j) == StopSeen(k0 + j)
    {
      Signals(ShiftDown(cancelAt, k0), ShiftDown(stopAt, k0))
    }

    /** The gate is the only count with its three properties. */
    lemma GateIs(limit: nat, g: nat)
      requires g <= limit
      requires forall j: nat :: j < g ==> Quiet(j)
      requires g < limit ==> !Quiet(g)
      ensures Gate(limit) == g
    {
    }
  }
}
