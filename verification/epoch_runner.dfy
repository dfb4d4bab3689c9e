/** The three one-epoch training loops. Each reads a restartable batch iterator and, before
    reading every batch, first asks the host whether execution was cancelled and then asks
    the learning monitor whether learning should stop. The network's training steps are
    recorded as a trace of calls; what `fit` does to the network is an opaque parameter,
    and the numerical effect of the other steps is not modelled. */
module EpochRunner {
  import opened Collaborators

  /** A supervised training step the finetuning and backpropagation loops make. */
  datatype Call =
    | Finetune(input: Tensor, labels: Tensor)    // setInput, setLabels, then finetune()
    | Fit(batch: DataSet, pretrainFlag: bool)    // fit(batch), with the pretrain flag then in force

  /** One `pretrainLayer(layer, features)` call. */
  datatype LayerBatch = LayerBatch(layer: nat, features: Option<Tensor>)

  // ---------------------------------------------------------------------------------------
  // Pretraining
  // ---------------------------------------------------------------------------------------

  /** Where the pass for layer `i` starts reading: layer 0 continues from the iterator's
      position on entry, every later layer follows a reset. */
  function PassStart(i: nat, c0: nat): nat {
    if i == 0 then c0 else 0
  }

  /** One layer's pass: layer `i` trained on each batch of `bs`, in order. */
  function LayerPass(i: nat, bs: seq<DataSet>): seq<LayerBatch> {
    seq(|bs|, j requires 0 <= j < |bs| => LayerBatch(i, bs[j].features))
  }

  /** The `pretrainLayer` calls of an undisturbed pretraining epoch over the first `n`
      layers, for an iterator over `bs` positioned at `c0`: the passes for layers
      0, 1, ..., n-1, one after the other. */
  function PretrainSchedule(n: nat, bs: seq<DataSet>, c0: nat): seq<LayerBatch>
    requires c0 <= |bs|
  {
    if n == 0 then []
    else PretrainSchedule(n - 1, bs, c0) + LayerPass(n - 1, bs[PassStart(n - 1, c0)..])
  }

  /** Locates the call for layer `i` and batch `cur` inside the schedule. */
  lemma {:induction false} ScheduleAt(n: nat, bs: seq<DataSet>, c0: nat, i: nat, cur: nat)
    requires c0 <= |bs| && i < n && PassStart(i, c0) <= cur < |bs|
    ensures |PretrainSchedule(i, bs, c0)| + (cur - PassStart(i, c0)) < |PretrainSchedule(n, bs, c0)|
    ensures PretrainSchedule(n, bs, c0)[|PretrainSchedule(i, bs, c0)| + (cur - PassStart(i, c0))]
            == LayerBatch(i, bs[cur].features)
  {
    if i < n - 1 {
      ScheduleAt(n - 1, bs, c0, i, cur);
    }
  }

  /** From a freshly reset iterator, an undisturbed epoch makes `n * |bs|` calls. */
  lemma {:induction false} PretrainScheduleLength(n: nat, bs: seq<DataSet>)
    ensures |PretrainSchedule(n, bs, 0)| == n * |bs|
  {
    if n > 0 {
      PretrainScheduleLength(n - 1, bs);
      assert |PretrainSchedule(n, bs, 0)| == (n - 1) * |bs| + |bs|;
    }
  }

  /** From a freshly reset iterator, an undisturbed epoch trains layer `i` on batch `j`
      as its `i * |bs| + j`-th call: layers in order, each on every batch in order. */
  lemma PretrainScheduleOrder(n: nat, bs: seq<DataSet>, i: nat, j: nat)
    requires i < n && j < |bs|
    ensures i * |bs| + j < |PretrainSchedule(n, bs, 0)|
    ensures PretrainSchedule(n, bs, 0)[i * |bs| + j] == LayerBatch(i, bs[j].features)
  {
    PretrainScheduleLength(i, bs);
    ScheduleAt(n, bs, 0, i, j);
  }

  /** The schedule for fewer layers is a prefix of the schedule for more. */
  lemma {:induction false} SchedulePrefix(i: nat, n: nat, bs: seq<DataSet>, c0: nat)
    requires c0 <= |bs| && i <= n
    ensures |PretrainSchedule(i, bs, c0)| <= |PretrainSchedule(n, bs, c0)|
    ensures PretrainSchedule(n, bs, c0)[..|PretrainSchedule(i, bs, c0)|] == PretrainSchedule(i, bs, c0)
  {
    if i < n {
      SchedulePrefix(i, n - 1, bs, c0);
    }
  }

  /** The layer whose pass holds call `idx` of the schedule. */
  function PassOf(n: nat, bs: seq<DataSet>, c0: nat, idx: nat): (i: nat)
    requires c0 <= |bs| && idx < |PretrainSchedule(n, bs, c0)|
    ensures i < n
    ensures |PretrainSchedule(i, bs, c0)| <= idx < |PretrainSchedule(i + 1, bs, c0)|
    decreases n
  {
    if idx >= |PretrainSchedule(n - 1, bs, c0)| then n - 1 else PassOf(n - 1, bs, c0, idx)
  }

  /** The passes tile the schedule: a layer whose pass holds call `idx` is `PassOf`'s
      answer, for any number of layers beyond it. */
  lemma PassOfUnique(n: nat, bs: seq<DataSet>, c0: nat, idx: nat, i: nat)
    requires c0 <= |bs| && i < n
    requires |PretrainSchedule(i, bs, c0)| <= idx < |PretrainSchedule(i + 1, bs, c0)|
    ensures idx < |PretrainSchedule(n, bs, c0)|
    ensures PassOf(n, bs, c0, idx) == i
  {
    SchedulePrefix(i + 1, n, bs, c0);
    var p := PassOf(n, bs, c0, idx);
    if p < i {
      SchedulePrefix(p + 1, i, bs, c0);
    } else if p > i {
      SchedulePrefix(i + 1, p, bs, c0);
    }
  }

  /** The inner batch loop of `pretrainOneEpoch` for layer `i`, entered after `k0` checks:
      trains layer `i` on each batch read, and stops before reading once a signal is seen.
      `k` counts the checks made so far. */
  method PretrainPass(i: nat, data: BatchIterator, sig: Signals, k0: nat)
    returns (data': BatchIterator, trained: seq<LayerBatch>, k: nat, out: Outcome)
    requires data.Valid()
    ensures data'.Valid() && data'.batches == data.batches
    ensures var rest := data.batches[data.cursor..];
            var q := sig.After(k0).Gate(|rest|);
            && trained == LayerPass(i, rest[..q])
            && data'.cursor == data.cursor + q
            && k == k0 + q + (if q < |rest| then 1 else 0)
            && (out.Canceled? <==> q < |rest| && sig.CancelSeen(k0 + q))
  {
    ghost var rest := data.batches[data.cursor..];
    ghost var later := sig.After(k0);
    ghost var q := 0;
    data' := data;
    trained := [];
    k := k0;
    while data'.HasNext()
      invariant data'.Valid() && data'.batches == data.batches
      invariant q <= |rest| && data'.cursor == data.cursor + q && k == k0 + q
      invariant trained == LayerPass(i, rest[..q])
      invariant forall j: nat :: j < q ==> later.Quiet(j)
      decreases |data'.batches| - data'.cursor
    {
      if sig.CancelSeen(k) {
        later.GateIs(|rest|, q);
        k := k + 1;
        out := Canceled;
        return;
      }
      if sig.StopSeen(k) {
        later.GateIs(|rest|, q);
        k := k + 1;
        out := Completed;
        return;
      }
      var b := data'.Current();
      data' := data'.Advance();
      trained := trained + [LayerBatch(i, b.features)];
      assert LayerPass(i, rest[..q + 1]) == LayerPass(i, rest[..q]) + [LayerBatch(i, b.features)];
      k := k + 1;
      q := q + 1;
    }
    later.GateIs(|rest|, q);
    out := Completed;
  }

  /** What a pass entered with no signal yet seen contributes: the next `q` scheduled
      calls, where `q` counts the quiet checks of the pass. A full pass completes the
      layer; a cut pass stops at the first raised signal of the whole epoch. */
  lemma QuietPassExtendsSchedule(sig: Signals, n: nat, bs: seq<DataSet>, c0: nat, i: nat, k0: nat)
    requires c0 <= |bs| && i < n
    requires k0 == |PretrainSchedule(i, bs, c0)|
    requires forall j: nat :: j < k0 ==> sig.Quiet(j)
    ensures var rest := bs[PassStart(i, c0)..];
            var q := sig.After(k0).Gate(|rest|);
            var s := PretrainSchedule(n, bs, c0);
            && k0 + q <= |s|
            && |PretrainSchedule(i + 1, bs, c0)| == k0 + |rest|
            && PretrainSchedule(i, bs, c0) + LayerPass(i, rest[..q]) == s[..k0 + q]
            && (forall j: nat :: j < k0 + q ==> sig.Quiet(j))
            && (q == |rest| ==> PretrainSchedule(i, bs, c0) + LayerPass(i, rest[..q]) == PretrainSchedule(i + 1, bs, c0))
            && (q < |rest| ==> k0 + q < |s| && sig.Gate(|s|) == k0 + q && !sig.Quiet(k0 + q))
  {
    var rest := bs[PassStart(i, c0)..];
    var q := sig.After(k0).Gate(|rest|);
    var s := PretrainSchedule(n, bs, c0);
    PassExtends(n, bs, c0, i, q);
    QuietThrough(sig, k0, |rest|);
    if q < |rest| {
      sig.GateIs(|s|, k0 + q);
    } else {
      assert rest[..q] == rest;
    }
  }

  /** The first `q` calls of layer `i`'s pass continue the schedule for the layers before
      it; the whole pass completes the schedule for the first `i + 1` layers. */
  lemma PassExtends(n: nat, bs: seq<DataSet>, c0: nat, i: nat, q: nat)
    requires c0 <= |bs| && i < n && q <= |bs| - PassStart(i, c0)
    ensures var rest := bs[PassStart(i, c0)..];
            var s := PretrainSchedule(n, bs, c0);
            && |PretrainSchedule(i + 1, bs, c0)| == |PretrainSchedule(i, bs, c0)| + |rest| <= |s|
            && PretrainSchedule(i, bs, c0) + LayerPass(i, rest[..q]) == s[..|PretrainSchedule(i, bs, c0)| + q]
  {
    var rest := bs[PassStart(i, c0)..];
    SchedulePrefix(i + 1, n, bs, c0);
    assert PretrainSchedule(i + 1, bs, c0) == PretrainSchedule(i, bs, c0) + LayerPass(i, rest);
    assert LayerPass(i, rest)[..q] == LayerPass(i, rest[..q]);
  }

  /** A pass entered after `k0` quiet checks extends the quiet run by its own quiet checks,
      and the check that cuts it is the first one that sees a signal. */
  lemma QuietThrough(sig: Signals, k0: nat, len: nat)
    requires forall j: nat :: j < k0 ==> sig.Quiet(j)
    ensures var q := sig.After(k0).Gate(len);
            && (forall j: nat :: j < k0 + q ==> sig.Quiet(j))
            && (q < len ==> !sig.Quiet(k0 + q))
  {
    var q := sig.After(k0).Gate(len);
    forall j: nat | j < k0 + q
      ensures sig.Quiet(j)
    {
      if j >= k0 {
        assert sig.After(k0).Quiet(j - k0);
      }
    }
    if q < len {
      assert sig.After(k0).Quiet(q) == sig.Quiet(k0 + q);
    }
  }

  /** Once the stop flag has been seen, every later pass reads nothing. */
  lemma StopPersists(sig: Signals, g: nat, k0: nat, len: nat)
    requires sig.StopSeen(g) && g < k0
    ensures sig.After(k0).Gate(len) == 0
  {
  }

  /** How a pretraining epoch over `n` layers, for an iterator over `bs` positioned at
      `c0`, ends under `sig`: with `resets` calls of `data.reset()`, `checks` calls of
      `checkCanceled()` and the iterator at `cursor`. Let `g` be the first check that
      sees a signal. When no check of the undisturbed schedule sees one, the epoch ends
      normally after exactly those checks. Otherwise `g` falls in the pass of some layer
      `l`; after a stop there, each later layer makes one more check, so the epoch is
      cancelled exactly when the cancellation is raised by the last of those checks. */
  ghost predicate PretrainOutcome(n: nat, bs: seq<DataSet>, c0: nat, sig: Signals,
                                  resets: nat, checks: nat, cursor: nat, out: Outcome)
    requires c0 <= |bs|
  {
    var s := PretrainSchedule(n, bs, c0);
    var g := sig.Gate(|s|);
    && (g == |s| ==> out.Completed? && checks == |s|)
    && (g < |s| ==>
          var l := PassOf(n, bs, c0, g);
          && (out.Canceled? <==> sig.CancelSeen(g + (n - 1 - l)))
          && (out.Completed? ==> checks == g + (n - l))
          && (out.Canceled? ==> resets == l + (checks - 1 - g))
          && (out.Canceled? ==> cursor == if sig.CancelSeen(g) then PassStart(l, c0) + (g - |PretrainSchedule(l, bs, c0)|) else 0))
    && (out.Canceled? ==> sig.cancelAt.Some? && checks == sig.cancelAt.value + 1)
    && (out.Completed? ==> resets == n && cursor == if n > 0 then 0 else c0)
  }

  /** The outcome when the epoch is cancelled at check `checks - 1`, in the pass of layer
      `resets`, after the first signal was seen at check `g` in the pass of layer `l`. */
  lemma CanceledOutcome(n: nat, bs: seq<DataSet>, c0: nat, sig: Signals,
                        g: nat, l: nat, resets: nat, checks: nat, cursor: nat)
    requires c0 <= |bs|
    requires l <= resets
    requires resets < n
    requires |PretrainSchedule(l, bs, c0)| <= g
    requires g < |PretrainSchedule(l + 1, bs, c0)|
    requires sig.Gate(|PretrainSchedule(n, bs, c0)|) == g
    requires checks == g + 1 + (resets - l)
    requires sig.CancelSeen(checks - 1)
    requires checks >= 2 ==> !sig.CancelSeen(checks - 2)
    requires cursor == if sig.CancelSeen(g) then PassStart(l, c0) + (g - |PretrainSchedule(l, bs, c0)|) else 0
    ensures PretrainOutcome(n, bs, c0, sig, resets, checks, cursor, Canceled)
  {
    PassOfUnique(n, bs, c0, g, l);
  }

  /** The outcome when every layer got to reset the iterator: either no signal was seen
      at all, or the first one was a stop at check `g` in the pass of layer `l`. */
  lemma CompletedOutcome(n: nat, bs: seq<DataSet>, c0: nat, sig: Signals,
                         g: nat, l: nat, checks: nat, cursor: nat)
    requires c0 <= |bs|
    requires var s := PretrainSchedule(n, bs, c0);
             g == sig.Gate(|s|) && (g == |s| ==> checks == |s|)
    requires g < |PretrainSchedule(n, bs, c0)| ==>
               && l < n && |PretrainSchedule(l, bs, c0)| <= g < |PretrainSchedule(l + 1, bs, c0)|
               && checks == g + (n - l)
    requires checks > 0 ==> !sig.CancelSeen(checks - 1)
    requires cursor == if n > 0 then 0 else c0
    ensures PretrainOutcome(n, bs, c0, sig, n, checks, cursor, Completed)
  {
    if g < |PretrainSchedule(n, bs, c0)| {
      PassOfUnique(n, bs, c0, g, l);
    }
  }

  /** The state of a pretraining epoch that has seen no signal before layer `i`: the
      iterator at that layer's starting position, and the calls and checks made being
      exactly the schedule for the first `i` layers. */
  ghost predicate Undisturbed(n: nat, bs: seq<DataSet>, c0: nat, sig: Signals,
                              i: nat, checks: nat, trained: seq<LayerBatch>, cursor: nat)
    requires c0 <= |bs|
  {
    && i <= n && cursor == PassStart(i, c0)
    && checks == |PretrainSchedule(i, bs, c0)| && trained == PretrainSchedule(i, bs, c0)
    && forall j: nat :: j < checks ==> sig.Quiet(j)
  }

  /** The state of a pretraining epoch before layer `i` whose first signal was a stop at
      check `g`, in the pass of layer `l`: the calls made are the schedule cut at `g`,
      and every layer since `l` has made one more check. */
  ghost predicate StoppedAt(n: nat, bs: seq<DataSet>, c0: nat, sig: Signals,
                            g: nat, l: nat, i: nat, checks: nat, trained: seq<LayerBatch>)
    requires c0 <= |bs|
  {
    var s := PretrainSchedule(n, bs, c0);
    && g < |s| && sig.Gate(|s|) == g && trained == s[..g] && |bs| > 0
    && sig.StopSeen(g) && !sig.CancelSeen(g)
    && l < i <= n && checks == g + (i - l)
    && |PretrainSchedule(l, bs, c0)| <= g < |PretrainSchedule(l + 1, bs, c0)|
  }

  /** One layer of an epoch that has seen no signal yet: the pass either runs to the end
      of the iterator, is cut by a stop (which becomes the epoch's first signal), or is
      cancelled. */
  lemma UndisturbedLayer(n: nat, bs: seq<DataSet>, c0: nat, sig: Signals, i: nat,
                         k0: nat, trained: seq<LayerBatch>, cursor: nat,
                         pass: seq<LayerBatch>, k: nat, cursor': nat, passOut: Outcome)
    returns (stopped: bool, g: nat)
    requires c0 <= |bs| && i < n
    requires Undisturbed(n, bs, c0, sig, i, k0, trained, cursor)
    requires var rest := bs[cursor..];
             var q := sig.After(k0).Gate(|rest|);
             && pass == LayerPass(i, rest[..q])
             && cursor' == cursor + q
             && k == k0 + q + (if q < |rest| then 1 else 0)
             && (passOut.Canceled? <==> q < |rest| && sig.CancelSeen(k0 + q))
    ensures passOut.Canceled? ==> PretrainOutcome(n, bs, c0, sig, i, k, cursor', Canceled)
    ensures passOut.Canceled? ==> var s := PretrainSchedule(n, bs, c0);
              trained + pass == s[..sig.Gate(|s|)]
    ensures passOut.Completed? ==> k > 0 ==> !sig.CancelSeen(k - 1)
    ensures passOut.Completed? && !stopped ==> Undisturbed(n, bs, c0, sig, i + 1, k, trained + pass, PassStart(i + 1, c0))
    ensures passOut.Completed? && stopped ==> StoppedAt(n, bs, c0, sig, g, i, i + 1, k, trained + pass)
  {
    var rest := bs[cursor..];
    var q := sig.After(k0).Gate(|rest|);
    QuietPassExtendsSchedule(sig, n, bs, c0, i, k0);
    stopped, g := q < |rest|, k0 + q;
    if q < |rest| {
      assert sig.After(k0).Quiet(q) == sig.Quiet(k0 + q);
      if passOut.Canceled? {
        CanceledOutcome(n, bs, c0, sig, g, i, i, k, cursor');
      }
    } else if k > 0 {
      assert sig.Quiet(k - 1);
    }
  }

  /** One layer after the stop: the pass makes one check, sees the stop again and reads
      nothing, unless the cancellation has been raised by then. */
  lemma StoppedLayer(n: nat, bs: seq<DataSet>, c0: nat, sig: Signals, g: nat, l: nat, i: nat,
                     k0: nat, trained: seq<LayerBatch>,
                     pass: seq<LayerBatch>, k: nat, cursor': nat, passOut: Outcome)
    requires c0 <= |bs| && i < n
    requires StoppedAt(n, bs, c0, sig, g, l, i, k0, trained)
    requires k0 > 0 ==> !sig.CancelSeen(k0 - 1)
    requires var q := sig.After(k0).Gate(|bs|);
             && pass == LayerPass(i, bs[..q])
             && cursor' == q
             && k == k0 + q + (if q < |bs| then 1 else 0)
             && (passOut.Canceled? <==> q < |bs| && sig.CancelSeen(k0 + q))
    ensures passOut.Canceled? ==> PretrainOutcome(n, bs, c0, sig, i, k, cursor', Canceled)
    ensures passOut.Canceled? ==> var s := PretrainSchedule(n, bs, c0);
              trained + pass == s[..sig.Gate(|s|)]
    ensures passOut.Completed? ==> !sig.CancelSeen(k - 1)
    ensures passOut.Completed? ==> StoppedAt(n, bs, c0, sig, g, l, i + 1, k, trained + pass)
  {
    StopPersists(sig, g, k0, |bs|);
    if passOut.Canceled? {
      CanceledOutcome(n, bs, c0, sig, g, l, i, k, cursor');
    }
  }

  /** The outcome once every layer has reset the iterator. */
  lemma EpochEnd(n: nat, bs: seq<DataSet>, c0: nat, sig: Signals, stopped: bool, g: nat, l: nat,
                 checks: nat, trained: seq<LayerBatch>, cursor: nat)
    requires c0 <= |bs|
    requires !stopped ==> Undisturbed(n, bs, c0, sig, n, checks, trained, cursor)
    requires stopped ==> StoppedAt(n, bs, c0, sig, g, l, n, checks, trained)
    requires checks > 0 ==> !sig.CancelSeen(checks - 1)
    requires cursor == if n > 0 then 0 else c0
    ensures var s := PretrainSchedule(n, bs, c0);
            trained == s[..sig.Gate(|s|)]
    ensures PretrainOutcome(n, bs, c0, sig, n, checks, cursor, Completed)
  {
    var s := PretrainSchedule(n, bs, c0);
    if !stopped {
      sig.GateIs(|s|, checks);
      assert s[..checks] == s;
    }
    CompletedOutcome(n, bs, c0, sig, sig.Gate(|s|), l, checks, cursor);
  }

  /** `pretrainOneEpoch`. For each of the network's layers, reads batches until the
      iterator is exhausted or a signal is seen, calling `pretrainLayer` on each, and then
      resets the iterator. A stop request only breaks the batch loop, so every later layer
      still makes one check, sees the flag again and resets the iterator; a cancellation
      leaves the method at once. `trained` lists the `pretrainLayer` calls in order,
      `resets` counts `data.reset()` and `checks` counts `checkCanceled()`. */
  method PretrainOneEpoch(net: Network, data: BatchIterator, sig: Signals)
    returns (data': BatchIterator, trained: seq<LayerBatch>, resets: nat, checks: nat, out: Outcome)
    requires data.Valid()
    ensures data'.Valid() && data'.batches == data.batches
    // the calls made are exactly the undisturbed schedule, cut at the first raised signal
    ensures var s := PretrainSchedule(|net.layers|, data.batches, data.cursor);
            trained == s[..sig.Gate(|s|)]
    ensures sig.stopAt.Some? ==> |trained| <= sig.stopAt.value
    ensures PretrainOutcome(|net.layers|, data.batches, data.cursor, sig, resets, checks, data'.cursor, out)
  {
    var n := |net.layers|;
    ghost var bs := data.batches;
    ghost var c0 := data.cursor;
    ghost var stopped := false;
    ghost var g := 0;
    ghost var l := 0;
    data' := data;
    trained := [];
    resets := 0;
    checks := 0;
    var i := 0;
    while i < n
      invariant i <= n && resets == i
      invariant data'.Valid() && data'.batches == bs
      invariant i > 0 ==> data'.cursor == 0
      invariant checks > 0 ==> !sig.CancelSeen(checks - 1)
      invariant !stopped ==> Undisturbed(n, bs, c0, sig, i, checks, trained, data'.cursor)
      invariant stopped ==> StoppedAt(n, bs, c0, sig, g, l, i, checks, trained)
    {
      ghost var k0, cursor0 := checks, data'.cursor;
      var pass, passOut;
      data', pass, checks, passOut := PretrainPass(i, data', sig, checks);
      if !stopped {
        stopped, g := UndisturbedLayer(n, bs, c0, sig, i, k0, trained, cursor0, pass, checks, data'.cursor, passOut);
        l := i;
      } else {
        StoppedLayer(n, bs, c0, sig, g, l, i, k0, trained, pass, checks, data'.cursor, passOut);
      }
      trained := trained + pass;
      if passOut.Canceled? {
        out := Canceled;
        return;
      }
      data' := data'.Restart();
      resets := resets + 1;
      i := i + 1;
    }
    EpochEnd(n, bs, c0, sig, stopped, g, l, checks, trained, data'.cursor);
    out := Completed;
  }

  /** Cancellation is polled before the stop flag: when the cancellation is raised at a
      check of the undisturbed schedule no later than the stop request, the epoch ends by
      cancellation, however many layers remain. */
  lemma PretrainCancelFirst(n: nat, bs: seq<DataSet>, c0: nat, sig: Signals,
                            resets: nat, checks: nat, cursor: nat, out: Outcome)
    requires c0 <= |bs|
    requires PretrainOutcome(n, bs, c0, sig, resets, checks, cursor, out)
    requires sig.cancelAt.Some? && sig.cancelAt.value < |PretrainSchedule(n, bs, c0)|
    requires sig.stopAt.None? || sig.cancelAt.value <= sig.stopAt.value
    ensures out.Canceled?
  {
  }

  /** An epoch with neither a cancellation nor a stop request, from a freshly reset
      iterator: the whole schedule runs (every layer on every batch, see
      `PretrainScheduleOrder`), `n * |bs|` calls and checks in all, and the iterator is
      reset once per layer. */
  method PretrainUndisturbed(net: Network, data: BatchIterator)
    returns (data': BatchIterator, trained: seq<LayerBatch>, resets: nat, checks: nat, out: Outcome)
    requires data.Valid() && data.cursor == 0
    ensures out.Completed?
    ensures trained == PretrainSchedule(|net.layers|, data.batches, 0)
    ensures |trained| == |net.layers| * |data.batches| && checks == |trained|
    ensures resets == |net.layers| && data'.cursor == 0
  {
    data', trained, resets, checks, out := PretrainOneEpoch(net, data, Signals(None, None));
    PretrainScheduleLength(|net.layers|, data.batches);
    assert trained == PretrainSchedule(|net.layers|, data.batches, 0)[..|PretrainSchedule(|net.layers|, data.batches, 0)|];
  }

  // ---------------------------------------------------------------------------------------
  // Finetuning
  // ---------------------------------------------------------------------------------------

  /** The length of the longest prefix of `bs` whose batches carry both features and
      labels: the index of the first sentinel batch, or `|bs|` if there is none. */
  function SupervisedPrefix(bs: seq<DataSet>): (n: nat)
    ensures n <= |bs|
    ensures forall j :: 0 <= j < n ==> bs[j].Supervised()
    ensures n < |bs| ==> !bs[n].Supervised()
  {
    if |bs| == 0 || !bs[0].Supervised() then 0 else 1 + SupervisedPrefix(bs[1..])
  }

  /** How many batches the finetuning loop can read from `bs`: the supervised prefix and,
      if there is one, the sentinel batch that ends it. */
  function FinetuneReach(bs: seq<DataSet>): nat {
    var p := SupervisedPrefix(bs);
    if p < |bs| then p + 1 else |bs|
  }

  /** The finetuning steps over supervised batches, one per batch, in order. */
  function FinetuneSteps(bs: seq<DataSet>): seq<Call>
    requires forall j :: 0 <= j < |bs| ==> bs[j].Supervised()
  {
    seq(|bs|, j requires 0 <= j < |bs| && bs[j].Supervised() => Finetune(bs[j].features.value, bs[j].labels.value))
  }

  /** `finetuneOneEpoch`. Reads batches until the iterator is exhausted, a signal is seen
      (nothing is read then), or a batch lacks features or labels (that batch is read but
      not trained on, and the loop ends). */
  method FinetuneOneEpoch(data: BatchIterator, sig: Signals)
    returns (data': BatchIterator, trace: seq<Call>, out: Outcome)
    requires data.Valid()
    ensures data'.Valid() && data'.batches == data.batches
    ensures var rest := data.batches[data.cursor..];
            var g := sig.Gate(FinetuneReach(rest));
            && data'.cursor == data.cursor + g
            && trace == FinetuneSteps(rest[..Min(g, SupervisedPrefix(rest))])
            && (out.Canceled? <==> g < FinetuneReach(rest) && sig.CancelSeen(g))
  {
    ghost var rest := data.batches[data.cursor..];
    ghost var p := SupervisedPrefix(rest);
    ghost var reach := FinetuneReach(rest);
    data' := data;
    trace := [];
    var k: nat := 0;
    while data'.HasNext()
      invariant data'.Valid() && data'.batches == data.batches
      invariant data'.cursor == data.cursor + k
      invariant k <= p
      invariant trace == FinetuneSteps(rest[..k])
      invariant forall j: nat :: j < k ==> sig.Quiet(j)
      decreases |data'.batches| - data'.cursor
    {
      if sig.CancelSeen(k) {
        sig.GateIs(reach, k);
        out := Canceled;
        return;
      }
      if sig.StopSeen(k) {
        sig.GateIs(reach, k);
        out := Completed;
        return;
      }
      var b := data'.Current();
      data' := data'.Advance();
      assert b == rest[k];
      if b.features.None? || b.labels.None? {
        sig.GateIs(reach, k + 1);
        out := Completed;
        return;
      }
      trace := trace + [Finetune(b.features.value, b.labels.value)];
      k := k + 1;
    }
    sig.GateIs(reach, k);
    out := Completed;
  }

  // ---------------------------------------------------------------------------------------
  // Backpropagation
  // ---------------------------------------------------------------------------------------

  /** `fit` calls on each batch of `bs`, in order, with the pretrain flag off. */
  function FitSteps(bs: seq<DataSet>): seq<Call> {
    seq(|bs|, j requires 0 <= j < |bs| => Fit(bs[j], false))
  }

  /** The network after `fit(b)`. What training does to the layers and the updater is the
      opaque `fitStep`; `fit` does not write the configuration's `pretrain` flag. */
  function Fitted(fitStep: (Network, DataSet) -> Network, net: Network, b: DataSet): (r: Network)
    ensures r.pretrain == net.pretrain
  {
    fitStep(net, b).(pretrain := net.pretrain)
  }

  /** The network after fitting each batch of `bs` in turn, starting from `net`. */
  function FitAll(fitStep: (Network, DataSet) -> Network, net: Network, bs: seq<DataSet>): (r: Network)
    ensures r.pretrain == net.pretrain
  {
    if |bs| == 0 then net
    else Fitted(fitStep, FitAll(fitStep, net, bs[..|bs| - 1]), bs[|bs| - 1])
  }

  /** `backpropOneEpoch`. Forces the network's `pretrain` flag off, fits every batch until
      the iterator is exhausted or the stop flag is seen, and writes the saved flag back.
      There is no `finally`: when `checkCanceled` throws, the flag stays off. The training
      `fit` performs is the opaque `fitStep`. */
  method BackpropOneEpoch(net: Network, data: BatchIterator, sig: Signals,
                          fitStep: (Network, DataSet) -> Network)
    returns (net': Network, data': BatchIterator, trace: seq<Call>, out: Outcome)
    requires data.Valid()
    ensures data'.Valid() && data'.batches == data.batches
    ensures var rest := data.batches[data.cursor..];
            var g := sig.Gate(|rest|);
            && data'.cursor == data.cursor + g
            && trace == FitSteps(rest[..g])
            && (out.Canceled? <==> g < |rest| && sig.CancelSeen(g))
            // the loop itself writes only the pretrain flag; the rest is the fitted batches
            && net'.(pretrain := false) == FitAll(fitStep, net.(pretrain := false), rest[..g])
    ensures out.Completed? ==> net'.pretrain == net.pretrain
    ensures out.Canceled? ==> !net'.pretrain
  {
    ghost var rest := data.batches[data.cursor..];
    ghost var start := net.(pretrain := false);
    net' := net;
    var isPretrain := net'.pretrain;
    if isPretrain {
      net' := net'.(pretrain := false);
    }
    data' := data;
    trace := [];
    var k: nat := 0;
    while data'.HasNext()
      invariant data'.Valid() && data'.batches == data.batches
      invariant data'.cursor == data.cursor + k
      invariant trace == FitSteps(rest[..k])
      invariant forall j: nat :: j < k ==> sig.Quiet(j)
      invariant net' == FitAll(fitStep, start, rest[..k])
      decreases |data'.batches| - data'.cursor
    {
      if sig.CancelSeen(k) {
        sig.GateIs(|rest|, k);
        out := Canceled;
        return;
      }
      if sig.StopSeen(k) {
        sig.GateIs(|rest|, k);
        break;
      }
      var b := data'.Current();
      data' := data'.Advance();
      trace := trace + [Fit(b, net'.pretrain)];
      assert rest[..k + 1][..k] == rest[..k] && rest[..k + 1][k] == b;
      net' := Fitted(fitStep, net', b);
      k := k + 1;
    }
    sig.GateIs(|rest|, k);
    net' := net'.(pretrain := isPretrain);
    out := Completed;
  }
}
