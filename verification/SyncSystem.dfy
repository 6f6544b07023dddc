/**
  A trainer, the file it saves and a sampler, as one machine. Training,
  sleeping, saving and receiving come in any order and any number of times; the
  one discipline is that an optimizer step waits until the previous step's delta
  has been saved and received, because a step overwrites the pending delta.
*/
module SyncSystem {
  import opened Wrappers
  import opened SparseDelta
  import opened FusedLayout
  import opened TrainerOffload
  import opened DeltaReceive
  import opened WeightSync
  import opened DeltaSaves

  /** Whether the file holds the last delta, and whether the sampler has received that. */
  datatype System = System(
    worker: Worker,
    dtypes: DTypes,
    sampler: map<Name, Tensor>,
    file: Option<DeltaFile<Name>>,
    saved: bool,
    delivered: bool,
    failed: bool)

  datatype SyncOp = Train(op: Op) | Save | Deliver

  ghost predicate Possible(y: System, o: SyncOp)
  {
    y.sampler.Keys <= y.dtypes.Keys && (o.Train? ==> Enabled(y.worker, o.op))
  }

  /** The discipline: no optimizer step before the last delta has arrived. */
  ghost predicate SyncEnabled(y: System, o: SyncOp)
  {
    Possible(y, o) && (o.Train? && o.op.DoOptim? ==> y.delivered)
  }

  function Received(y: System): System
    requires y.sampler.Keys <= y.dtypes.Keys
  {
    if y.file.None? then y
    else
      var out := Receive(y.worker.hf, y.dtypes, y.sampler, y.file.value);
      y.(sampler := out.params, failed := y.failed || out.error.Some?, delivered := y.delivered || y.saved)
  }

  function Saved(y: System): System
  {
    var r := SaveDelta(y.worker);
    if r.Ok? then y.(file := Some(r.value), saved := true) else y
  }

  ghost function SyncStep(y: System, o: SyncOp): System
    requires Possible(y, o)
  {
    match o
    case Train(op) =>
      var next := y.(worker := TrainerOffload.Step(y.worker, op));
      if op.DoOptim? then next.(saved := false, delivered := false) else next
    case Save => Saved(y)
    case Deliver => Received(y)
  }

  ghost predicate SyncLegal(y: System, ops: seq<SyncOp>)
    decreases |ops|
  {
    ops == [] ||
    (SyncEnabled(y, ops[0]) && SyncLegal(SyncStep(y, ops[0]), ops[1..]))
  }

  ghost function SyncRun(y: System, ops: seq<SyncOp>): System
    requires SyncLegal(y, ops)
    decreases |ops|
  {
    if ops == [] then y else SyncRun(SyncStep(y, ops[0]), ops[1..])
  }

  /** The trainer's parameters, wherever they are kept at the moment. */
  function Weights(y: System): Params
  {
    Awake(y.worker).params
  }

  // ---------- the invariant ----------

  ghost predicate SetupOk(y: System)
  {
    && WorkerOk(y.worker) && Traceless(y.worker) && y.worker.delta && !y.failed
    && TrainerOk(y.worker.hf, Sizes(Weights(y)))
    && FormatFits(y.worker.hf, y.worker.fused, Weights(y).Keys)
    && OneType(y.dtypes, Fusion(Weights(y)).Keys)
    && y.sampler.Keys == Fusion(Weights(y)).Keys
  }

  /** What receiving a file would do to the sampler now. */
  ghost predicate Turns(y: System, file: DeltaFile<Name>, into: map<Name, Tensor>)
  {
    y.sampler.Keys <= y.dtypes.Keys && Receive(y.worker.hf, y.dtypes, y.sampler, file) == Outcome(into, None)
  }

  ghost predicate DeliveredOk(y: System)
  {
    y.delivered ==> y.sampler == Fusion(Weights(y))
  }

  /** The pending delta, received, brings the sampler up to date. */
  ghost predicate PendingOk(y: System)
  {
    if y.worker.latest.Some? then Turns(y, Pack(y.worker.latest.value), Fusion(Weights(y))) else y.delivered
  }

  /** The file is the pending delta, or an older one that changes nothing any more. */
  ghost predicate FileOk(y: System)
  {
    y.file.Some? ==>
      if y.saved && y.worker.latest.Some? then y.file.value == Pack(y.worker.latest.value)
      else Turns(y, y.file.value, y.sampler)
  }

  ghost predicate SystemOk(y: System)
  {
    SetupOk(y) && DeliveredOk(y) && PendingOk(y) && FileOk(y)
  }

  /** A trainer in delta mode and a sampler that starts from its weights; parameters may be on either side, in either format. */
  ghost predicate Ready(y: System)
  {
    && WorkerOk(y.worker) && y.worker.delta && !y.worker.offloaded && y.worker.latest.None?
    && TrainerOk(y.worker.hf, Sizes(y.worker.params))
    && y.sampler == Fusion(y.worker.params) && OneType(y.dtypes, y.sampler.Keys)
    && y.file.None? && !y.saved && y.delivered && !y.failed
  }

  ghost predicate Initial(y: System)
  {
    Ready(y) && Traceless(y.worker) && FormatFits(y.worker.hf, y.worker.fused, y.worker.params.Keys)
  }

  // ---------- steps ----------

  lemma FusionKeys(a: Params, b: Params)
    requires a.Keys == b.Keys
    ensures Fusion(a).Keys == Fusion(b).Keys
  {
  }

  /** Sleeping, waking and back-propagation leave the weights and the pending delta alone. */
  lemma OtherTrainingKeepsWeights(w: Worker, op: Op)
    requires WorkerOk(w) && Enabled(w, op) && !op.DoOptim?
    ensures Awake(TrainerOffload.Step(w, op)).params == Awake(w).params
    ensures TrainerOffload.Step(w, op).latest == w.latest
    ensures (TrainerOffload.Step(w, op).hf, TrainerOffload.Step(w, op).fused, TrainerOffload.Step(w, op).delta) == (w.hf, w.fused, w.delta)
  {
    if op.DoSleep? && !w.offloaded {
      WakeUndoesSleep(w);
    }
  }

  lemma OtherTrainingKeepsOk(y: System, op: Op)
    requires SystemOk(y) && SyncEnabled(y, Train(op)) && !op.DoOptim?
    ensures SystemOk(SyncStep(y, Train(op)))
  {
    StepKeepsOk(y.worker, op);
    StepKeepsTraceless(y.worker, op);
    OtherTrainingKeepsWeights(y.worker, op);
  }

  lemma ShapesGiveSizes(a: Params, b: Params)
    requires SameShapes(a, b)
    ensures Sizes(a) == Sizes(b) && a.Keys == b.Keys
  {
  }

  /** When the sampler is up to date, whatever file is around changes nothing. */
  lemma FileIsStale(y: System)
    requires SystemOk(y) && y.delivered && y.file.Some?
    ensures Turns(y, y.file.value, y.sampler)
  {
  }

  lemma OptimKeepsSystemOk(y: System, f: Optimizer)
    requires SystemOk(y) && SyncEnabled(y, Train(DoOptim(f)))
    ensures SystemOk(SyncStep(y, Train(DoOptim(f))))
  {
    var w, z := y.worker, SyncStep(y, Train(DoOptim(f)));
    var before, after := w.params, f(w.params, w.grads, w.opt).0;
    StepKeepsOk(w, DoOptim(f));
    StepKeepsTraceless(w, DoOptim(f));
    DeltaIsTheStepsChange(w, f);
    ShapesGiveSizes(before, after);
    FusionKeys(before, after);
    DeltaCarriesTheStep(w.hf, w.fused, y.dtypes, w.names, before, after);
    if y.file.Some? {
      FileIsStale(y);
    }
  }

  /** A save before any step writes a file that changes nothing. */
  lemma EmptyFileChangesNothing(y: System, names: seq<Name>)
    requires y.sampler.Keys <= y.dtypes.Keys
    ensures Turns(y, DeltaFile(names, seq(|names|, _ => 0), [], []), y.sampler)
  {
    SplitNothing<int>(seq(|names|, _ => 0));
    SplitNothing<Scalar>(seq(|names|, _ => 0));
  }

  lemma SaveKeepsOk(y: System)
    requires SystemOk(y)
    ensures SystemOk(SyncStep(y, Save))
  {
    EmptyFileChangesNothing(y, y.worker.names);
  }

  lemma DeliverKeepsOk(y: System)
    requires SystemOk(y)
    ensures SystemOk(SyncStep(y, Deliver))
  {
    if y.file.Some? && y.saved && y.worker.latest.Some? {
      ReceiveTwice(y.worker.hf, y.dtypes, y.sampler, y.file.value);
    }
  }

  lemma SyncStepKeepsOk(y: System, o: SyncOp)
    requires SystemOk(y) && SyncEnabled(y, o)
    ensures SystemOk(SyncStep(y, o))
  {
    match o
    case Train(op) =>
      if op.DoOptim? {
        OptimKeepsSystemOk(y, op.optimizer);
      } else {
        OtherTrainingKeepsOk(y, op);
      }
    case Save => SaveKeepsOk(y);
    case Deliver => DeliverKeepsOk(y);
  }

  lemma {:induction false} RunKeepsSystemOk(y: System, ops: seq<SyncOp>)
    requires SystemOk(y) && SyncLegal(y, ops)
    ensures SystemOk(SyncRun(y, ops))
    decreases |ops|
  {
    if ops == [] {
    } else {
      SyncStepKeepsOk(y, ops[0]);
      RunKeepsSystemOk(SyncStep(y, ops[0]), ops[1..]);
    }
  }

  /**
    In every run, no receive fails, and whenever the last delta has arrived the
    sampler holds exactly the fusion of the trainer's weights.
  */
  lemma SamplerHoldsTheFusion(y: System, ops: seq<SyncOp>)
    requires Initial(y) && SyncLegal(y, ops)
    ensures !SyncRun(y, ops).failed
    ensures SyncRun(y, ops).delivered ==> SyncRun(y, ops).sampler == Fusion(Weights(SyncRun(y, ops)))
  {
    RunKeepsSystemOk(y, ops);
  }

  /** After any run, sleeping, saving and receiving brings the sampler up to date. */
  lemma SaveAndDeliverCatchUp(y: System, ops: seq<SyncOp>)
    requires Initial(y) && SyncLegal(y, ops)
    requires SaveDelta(SyncRun(y, ops).worker).Ok?
    ensures var z := SyncRun(y, ops); z.sampler.Keys <= z.dtypes.Keys && Received(Saved(z)).sampler == Fusion(Weights(z))
  {
    RunKeepsSystemOk(y, ops);
    var z := SyncRun(y, ops);
    SaveKeepsOk(z);
    DeliverKeepsOk(Saved(z));
  }

  /** Receiving the same file again changes nothing. */
  lemma DeliverAgainChangesNothing(y: System, ops: seq<SyncOp>)
    requires Initial(y) && SyncLegal(y, ops) && SyncRun(y, ops).delivered
    ensures SyncRun(y, ops).sampler.Keys <= SyncRun(y, ops).dtypes.Keys
    ensures Received(SyncRun(y, ops)).sampler == SyncRun(y, ops).sampler
  {
    RunKeepsSystemOk(y, ops);
    DeliverKeepsOk(SyncRun(y, ops));
  }
}
