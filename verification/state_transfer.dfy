/** Copying learned state from a previously trained network into a new one:
    per-layer parameters over the layers both networks share, and the updater. */
module StateTransfer {
  import opened Collaborators

  /** The log output for one attempted layer: the 1-based layer number, the class names
      of the source and destination layers, and whether `setParams` succeeded (an info
      line) or threw (two warning lines). */
  datatype TransferNote = TransferNote(layerNumber: nat, fromClass: string, toClass: string, succeeded: bool)

  /** The destination layer after `setParams` was offered the source layer's parameters:
      replaced when the destination accepts them, untouched when `setParams` throws. */
  function Offered(dest: Layer, params: Tensor, accepts: (Layer, Tensor) -> bool): Layer {
    if accepts(dest, params) then dest.(params := params) else dest
  }

  /** `transferWeights`. The destination's `setParams` is modelled by `accepts`: it either
      installs the offered tensor or throws (a shape mismatch, say), which is caught. */
  method TransferWeights(from: Network, to: Network, accepts: (Layer, Tensor) -> bool)
    returns (r: Network, notes: seq<TransferNote>)
    ensures |r.layers| == |to.layers|
    ensures r.pretrain == to.pretrain && r.updater == to.updater
    ensures forall i :: 0 <= i < |to.layers| && i < |from.layers| ==>
              r.layers[i] == Offered(to.layers[i], from.layers[i].params, accepts)
    ensures forall i :: |from.layers| <= i < |to.layers| ==> r.layers[i] == to.layers[i]
    ensures |notes| == Min(|from.layers|, |to.layers|)
    ensures forall i :: 0 <= i < |notes| ==>
              notes[i] == TransferNote(i + 1, from.layers[i].className, to.layers[i].className,
                                       accepts(to.layers[i], from.layers[i].params))
  {
    var oldWeights: seq<Tensor> := [];
    var j := 0;
    while j < |from.layers|
      invariant j <= |from.layers|
      invariant |oldWeights| == j
      invariant forall m :: 0 <= m < j ==> oldWeights[m] == from.layers[m].params
    {
      oldWeights := oldWeights + [from.layers[j].params];
      j := j + 1;
    }

    r := to;
    notes := [];
    var i := 0;
    while i < |to.layers|
      invariant i <= |to.layers| && i <= |oldWeights|
      invariant |r.layers| == |to.layers|
      invariant r.pretrain == to.pretrain && r.updater == to.updater
      invariant forall m :: 0 <= m < i ==> r.layers[m] == Offered(to.layers[m], from.layers[m].params, accepts)
      invariant forall m :: i <= m < |to.layers| ==> r.layers[m] == to.layers[m]
      invariant |notes| == i
      invariant forall m :: 0 <= m < i ==>
                  notes[m] == TransferNote(m + 1, from.layers[m].className, to.layers[m].className,
                                           accepts(to.layers[m], from.layers[m].params))
    {
      if i < |oldWeights| {
        var layer := r.layers[i];
        var ok := accepts(layer, oldWeights[i]);
        if ok {
          r := r.(layers := r.layers[i := layer.(params := oldWeights[i])]);
        }
        notes := notes + [TransferNote(i + 1, from.layers[i].className, layer.className, ok)];
        i := i + 1;
      } else {
        break;
      }
    }
  }

  /** `transferUpdater`: installs the source's updater when it has one; otherwise the
      destination keeps its own (the source only logs a warning). */
  function TransferUpdater(from: Network, to: Network): (r: Network)
    ensures r.layers == to.layers && r.pretrain == to.pretrain
    ensures from.updater.None? ==> r == to
    ensures from.updater.Some? ==> r.updater == from.updater
  {
    match from.updater
    case None => to
    case Some(u) => to.(updater := Some(u))
  }

  /** `transferFullInitialization`: nothing happens without a source network; otherwise
      the weights are transferred, then the updater if asked for. */
  method TransferFullInitialization(from: Option<Network>, to: Network, transferUpdater: bool,
                                    accepts: (Layer, Tensor) -> bool)
    returns (r: Network, notes: seq<TransferNote>)
    ensures from.None? ==> r == to && notes == []
    ensures |r.layers| == |to.layers| && r.pretrain == to.pretrain
    ensures from.Some? ==> forall i :: 0 <= i < |to.layers| && i < |from.value.layers| ==>
              r.layers[i] == Offered(to.layers[i], from.value.layers[i].params, accepts)
    ensures from.Some? ==> forall i :: |from.value.layers| <= i < |to.layers| ==> r.layers[i] == to.layers[i]
    ensures from.Some? ==> |notes| == Min(|from.value.layers|, |to.layers|)
    ensures !transferUpdater ==> r.updater == to.updater
    ensures transferUpdater && from.Some? ==>
              r.updater == (if from.value.updater.Some? then from.value.updater else to.updater)
  {
    r, notes := to, [];
    if from.Some? {
      r, notes := TransferWeights(from.value, to, accepts);
      if transferUpdater {
        r := TransferUpdater(from.value, r);
      }
    }
  }
}
