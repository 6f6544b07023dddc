/**
  The full fine-tuning worker's memory: parameters, gradients and optimizer
  state that move between the device and pinned host buffers, and the delta
  computed against those buffers at every optimizer step.

  Each operation is a function of the worker's fields. The class in
  FftTrainingWorker is proved against these functions; here is what runs of
  them keep.
*/
module TrainerOffload {
  import opened Wrappers
  import opened SparseDelta
  import opened FusedLayout

  type Params = map<Name, Tensor>

  type OptKey = (Name, string)

  datatype OptTensor = OptTensor(value: Tensor, onCuda: bool)

  type OptState = map<OptKey, OptTensor>

  /**
    The live tensors (empty once freed), their host copies, and the last delta.
    A parameter in host is kept in host memory although there is a device; one
    in aliased is, since a wake, the same storage as its host copy.
  */
  datatype Worker = Worker(
    hf: HfConfig,
    fused: bool,
    delta: bool,
    cpuOffload: bool,
    cuda: bool,
    host: set<Name>,
    names: seq<Name>,
    params: Params,
    buffers: map<string, Tensor>,
    grads: Params,
    opt: OptState,
    offloaded: bool,
    aliased: set<Name>,
    paramShadow: Params,
    bufferShadow: map<string, Tensor>,
    gradShadow: Params,
    optShadow: map<OptKey, Tensor>,
    latest: Option<seq<Patch<Name>>>)

  // ---------- sleeping and waking ----------

  function Freed<K>(live: map<K, Tensor>, shadow: map<K, Tensor>): map<K, Tensor>
  {
    map k | k in live :: if k in shadow then [] else live[k]
  }

  function Restored<K>(live: map<K, Tensor>, shadow: map<K, Tensor>): map<K, Tensor>
  {
    map k | k in live :: if k in shadow then shadow[k] else live[k]
  }

  function OptCopied(opt: OptState, shadow: map<OptKey, Tensor>): map<OptKey, Tensor>
  {
    shadow + (map k | k in opt && opt[k].onCuda :: opt[k].value)
  }

  function OptFreed(opt: OptState, shadow: map<OptKey, Tensor>): OptState
  {
    map k | k in opt :: if k in shadow then OptTensor(shadow[k], false) else opt[k]
  }

  /** Adam keeps its "step" counter on the host; anything else goes where its parameter is. */
  function OptRestored(opt: OptState, shadow: map<OptKey, Tensor>, host: set<Name>): OptState
  {
    map k | k in opt ::
      if k in shadow then OptTensor(shadow[k], true)
      else if !opt[k].onCuda && k.1 != "step" then OptTensor(opt[k].value, k.0 !in host)
      else opt[k]
  }

  /** The first phase of sleeping: everything on the device is copied before any of it is freed. */
  function Copied(w: Worker): Worker
  {
    w.(paramShadow := w.paramShadow + (w.params - w.host),
       bufferShadow := w.bufferShadow + w.buffers,
       gradShadow := w.gradShadow + (w.grads - w.host),
       optShadow := OptCopied(w.opt, w.optShadow))
  }

  /** The last phase: whatever has a host copy, old or new, is freed, and shares no storage with it any more. */
  function GivenUp(w: Worker): Worker
  {
    w.(params := Freed(w.params, w.paramShadow),
       buffers := Freed(w.buffers, w.bufferShadow),
       grads := Freed(w.grads, w.gradShadow),
       opt := OptFreed(w.opt, w.optShadow),
       offloaded := true,
       aliased := {})
  }

  function Sleep(w: Worker): Worker
  {
    if !w.cpuOffload || w.offloaded || !w.cuda then w else GivenUp(Copied(w))
  }

  /** A copy moved to where it already is stays the same storage: host parameters come back as their copies. */
  function WakeUp(w: Worker): Worker
  {
    if !w.cpuOffload || !w.offloaded || !w.cuda then w
    else
      w.(params := Restored(w.params, w.paramShadow),
         buffers := Restored(w.buffers, w.bufferShadow),
         grads := Restored(w.grads, w.gradShadow),
         opt := OptRestored(w.opt, w.optShadow, w.host),
         offloaded := false,
         aliased := w.host * w.params.Keys * w.paramShadow.Keys)
  }

  /** A model just loaded and prepared: in delta mode every parameter gets its host copy. */
  function Prepared(hf: HfConfig, fused: bool, delta: bool, cpuOffload: bool, cuda: bool, host: set<Name>,
                    names: seq<Name>, params: Params, buffers: map<string, Tensor>): Worker
  {
    Worker(hf, fused, delta, cpuOffload, cuda, host, names, params, buffers, map[], map[], false, {},
           if delta then params else map[], map[], map[], map[], None)
  }

  // ---------- training steps ----------

  /** What the optimizer computes from the parameters, the gradients and its state. */
  type Optimizer = (Params, Params, OptState) -> (Params, OptState)

  /** What back-propagation leaves as gradients. */
  type Backward = (Params, Params) -> Params

  function Forward(w: Worker, f: Backward): Worker
  {
    w.(grads := f(w.params, w.grads))
  }

  /** One parameter's changed elements; nothing at all when none changed. */
  function Entry(n: Name, before: Tensor, after: Tensor): seq<Patch<Name>>
    requires |before| == |after|
  {
    var indices := Changed(before, after, |after|);
    ChangedFits(before, after, |after|, 0, |after|);
    if indices == [] then [] else [Patch(n, indices, Select(after, indices))]
  }

  /** The first k parameters are there before and after, with the same sizes. */
  ghost predicate Comparable(names: seq<Name>, k: nat, before: Params, after: Params)
    requires k <= |names|
  {
    k > 0 ==>
      && Comparable(names, k - 1, before, after)
      && names[k - 1] in before && names[k - 1] in after && |before[names[k - 1]]| == |after[names[k - 1]]|
  }

  lemma {:induction false} AllComparable(names: seq<Name>, k: nat, before: Params, after: Params)
    requires k <= |names| && SameShapes(before, after) && forall n :: n in names ==> n in before
    ensures Comparable(names, k, before, after)
  {
    if k == 0 {
    } else {
      AllComparable(names, k - 1, before, after);
      assert names[k - 1] in names;
    }
  }

  /** What changed in the first k parameters, in their order. */
  function Delta(names: seq<Name>, k: nat, before: Params, after: Params): seq<Patch<Name>>
    requires k <= |names| && Comparable(names, k, before, after)
  {
    if k == 0 then []
    else Delta(names, k - 1, before, after) + Entry(names[k - 1], before[names[k - 1]], after[names[k - 1]])
  }

  /** What a step changed. */
  function StepDelta(names: seq<Name>, before: Params, after: Params): seq<Patch<Name>>
    requires SameShapes(before, after) && forall n :: n in names ==> n in before
  {
    AllComparable(names, |names|, before, after);
    Delta(names, |names|, before, after)
  }

  function RemapAll(hf: HfConfig, delta: seq<Patch<Name>>): seq<Patch<Name>>
  {
    seq(|delta|, k requires 0 <= k < |delta| => Remap(hf, delta[k]))
  }

  function Formatted(hf: HfConfig, fused: bool, delta: seq<Patch<Name>>): seq<Patch<Name>>
  {
    if fused then RemapAll(hf, delta) else delta
  }

  /** A parameter's host copy, made from the parameter itself when there is none yet. */
  function CopyOf(n: Name, params: Params, shadow: Params): Tensor
    requires n in params
  {
    if n in shadow then shadow[n] else params[n]
  }

  /** What a step is compared with. */
  function Previous(params: Params, shadow: Params): Params
  {
    map n | n in params :: CopyOf(n, params, shadow)
  }

  ghost predicate SameShapes(a: Params, b: Params)
  {
    a.Keys == b.Keys && forall n :: n in a ==> |a[n]| == |b[n]|
  }

  /** AdamW keeps shapes, keeps its tensors where they are, and creates new ones where their parameter is. */
  ghost predicate StepFits(w: Worker, f: Optimizer)
  {
    var (params, opt) := f(w.params, w.grads, w.opt);
    && SameShapes(w.params, params)
    && w.opt.Keys <= opt.Keys
    && (forall k :: k in w.opt ==> opt[k].onCuda == w.opt[k].onCuda)
    && (forall k :: k in opt && k !in w.opt ==> if k.0 in w.host then !opt[k].onCuda else opt[k].onCuda || k.1 == "step")
  }

  ghost predicate Distinct<T>(s: seq<T>)
  {
    forall i, j :: 0 <= i < j < |s| ==> s[i] != s[j]
  }

  /** named_parameters lists each parameter once; host copies have the parameters' shapes. */
  ghost predicate NamesOk(w: Worker)
  {
    && Distinct(w.names)
    && (forall n :: n in w.names <==> n in w.params)
    && (forall n :: n in w.paramShadow ==> n in w.params)
    && (!w.offloaded ==> forall n :: n in w.paramShadow ==> |w.paramShadow[n]| == |w.params[n]|)
  }

  /** The optimizer writes parameters in place, so a copy that shares a parameter's storage changes with it. */
  function Shared(shadow: Params, aliased: set<Name>, params: Params): Params
  {
    shadow + (map n | n in params && n in aliased :: params[n])
  }

  function OptimStep(w: Worker, f: Optimizer): Worker
    requires NamesOk(w) && !w.offloaded && StepFits(w, f)
  {
    var (params, opt) := f(w.params, w.grads, w.opt);
    var shadow := Shared(w.paramShadow, w.aliased, params);
    var stepped := w.(params := params, opt := opt, grads := map[], paramShadow := shadow);
    if !w.delta then stepped
    else
      stepped.(latest := Some(Formatted(w.hf, w.fused, StepDelta(w.names, Previous(params, shadow), params))),
               paramShadow := shadow + params)
  }

  // ---------- saving ----------

  datatype SaveError = NotOffloaded

  function SaveDelta(w: Worker): Result<DeltaFile<Name>, SaveError>
  {
    if w.cpuOffload && !w.offloaded then Err(NotOffloaded)
    else if w.latest.Some? then Ok(Pack(w.latest.value))
    else Ok(DeltaFile(w.names, seq(|w.names|, _ => 0), [], []))
  }

  // ---------- runs ----------

  datatype Op = DoForward(backward: Backward) | DoOptim(optimizer: Optimizer) | DoSleep | DoWake

  /** Training happens on the device, and back-propagation leaves gradients of parameters only. */
  ghost predicate Enabled(w: Worker, op: Op)
  {
    match op
    case DoForward(f) => !w.offloaded && f(w.params, w.grads).Keys <= w.params.Keys
    case DoOptim(f) => NamesOk(w) && !w.offloaded && StepFits(w, f)
    case _ => true
  }

  ghost function Step(w: Worker, op: Op): Worker
    requires Enabled(w, op)
  {
    match op
    case DoForward(f) => Forward(w, f)
    case DoOptim(f) => OptimStep(w, f)
    case DoSleep => Sleep(w)
    case DoWake => WakeUp(w)
  }

  ghost predicate Legal(w: Worker, ops: seq<Op>)
    decreases |ops|
  {
    ops == [] || (Enabled(w, ops[0]) && Legal(Step(w, ops[0]), ops[1..]))
  }

  ghost function Run(w: Worker, ops: seq<Op>): Worker
    requires Legal(w, ops)
    decreases |ops|
  {
    if ops == [] then w else Run(Step(w, ops[0]), ops[1..])
  }

  function Erased(ops: seq<Op>): seq<Op>
  {
    if ops == [] then []
    else (if ops[0].DoSleep? || ops[0].DoWake? then [] else [ops[0]]) + Erased(ops[1..])
  }

  // ---------- invariants ----------

  /** In delta mode every parameter has a host copy of its current value. */
  ghost predicate ShadowOk(w: Worker)
  {
    w.delta ==> w.paramShadow.Keys == w.params.Keys && (!w.offloaded ==> w.paramShadow == w.params)
  }

  ghost predicate OptOk(w: Worker)
  {
    && w.optShadow.Keys <= w.opt.Keys
    && (forall k :: k in w.opt ==>
          if k.0 in w.host then !w.opt[k].onCuda && k !in w.optShadow
          else if w.offloaded then !w.opt[k].onCuda && (k in w.optShadow || k.1 == "step")
          else w.opt[k].onCuda || (k.1 == "step" && k !in w.optShadow))
  }

  /** While offloaded, the host has a copy of everything the device held. */
  ghost predicate CopiesOk(w: Worker)
  {
    w.offloaded ==>
      && (forall n :: n in w.params && n in w.paramShadow ==> w.params[n] == [])
      && (forall b :: b in w.buffers ==> w.buffers[b] == [])
      && w.params.Keys - w.host <= w.paramShadow.Keys
      && w.buffers.Keys <= w.bufferShadow.Keys
      && w.grads.Keys - w.host <= w.gradShadow.Keys
      && w.cpuOffload && w.cuda
  }

  /** Host parameters have copies in delta mode only, and share them only between a wake and the next sleep. */
  ghost predicate HostOk(w: Worker)
  {
    && w.aliased <= w.host && w.aliased <= w.paramShadow.Keys
    && (w.offloaded || !w.cpuOffload || !w.cuda ==> w.aliased == {})
    && (!w.delta ==> w.host !! w.paramShadow.Keys)
    && w.host !! w.gradShadow.Keys
  }

  ghost predicate WorkerOk(w: Worker)
  {
    NamesOk(w) && ShadowOk(w) && OptOk(w) && CopiesOk(w) && HostOk(w)
  }

  /** The worker as it trains: awake. */
  function Awake(w: Worker): Worker
  {
    if w.offloaded then WakeUp(w) else w
  }

  /** The same parameters, buffers, gradients and optimizer state. */
  ghost predicate SameTraining(w: Worker, v: Worker)
  {
    && (w.hf, w.fused, w.delta, w.names, w.host) == (v.hf, v.fused, v.delta, v.names, v.host)
    && (w.params, w.buffers, w.grads, w.opt) == (v.params, v.buffers, v.grads, v.opt)
  }

  /** No parameter with elements is kept in host memory, or nothing ever sleeps, or no delta is taken. */
  ghost predicate Traceless(w: Worker)
  {
    w.delta && w.cpuOffload && w.cuda ==> forall n :: n in w.host && n in w.paramShadow ==> w.paramShadow[n] == []
  }

  /** A tensor left out of the copying comes back if its older copy, if any, still agreed with it. */
  lemma RestoredUndoesFreed<K>(live: map<K, Tensor>, shadow: map<K, Tensor>, host: set<K>)
    requires forall k :: k in live && k in host && k in shadow ==> shadow[k] == live[k]
    ensures Restored(Freed(live, shadow + (live - host)), shadow + (live - host)) == live
  {
    assert Restored(Freed(live, shadow + (live - host)), shadow + (live - host)).Keys == live.Keys;
  }

  lemma OptRestoredUndoesOptFreed(opt: OptState, shadow: map<OptKey, Tensor>, host: set<Name>)
    requires forall k :: k in opt ==>
               if k.0 in host then !opt[k].onCuda && k !in shadow else opt[k].onCuda || (k.1 == "step" && k !in shadow)
    ensures OptRestored(OptFreed(opt, OptCopied(opt, shadow)), OptCopied(opt, shadow), host) == opt
  {
    var r := OptRestored(OptFreed(opt, OptCopied(opt, shadow)), OptCopied(opt, shadow), host);
    assert r.Keys == opt.Keys;
    forall k | k in opt ensures r[k] == opt[k] {
    }
  }

  /** Waking after a sleep restores every tensor exactly. */
  lemma WakeUndoesSleep(w: Worker)
    requires WorkerOk(w) && !w.offloaded
    ensures SameTraining(WakeUp(Sleep(w)), w) && !WakeUp(Sleep(w)).offloaded
  {
    RestoredUndoesFreed(w.params, w.paramShadow, w.host);
    RestoredUndoesFreed(w.buffers, w.bufferShadow, {});
    assert w.buffers - {} == w.buffers;
    RestoredUndoesFreed(w.grads, w.gradShadow, w.host);
    OptRestoredUndoesOptFreed(w.opt, w.optShadow, w.host);
  }

  lemma FreedUndoesRestored<K>(live: map<K, Tensor>, shadow: map<K, Tensor>)
    requires forall k :: k in live && k in shadow ==> live[k] == []
    ensures Freed(Restored(live, shadow), shadow) == live
  {
  }

  lemma FreedKeys<K>(live: map<K, Tensor>, shadow: map<K, Tensor>)
    ensures Freed(live, shadow).Keys == live.Keys == Restored(live, shadow).Keys
  {
  }

  lemma SleepKeepsCopiesOk(w: Worker)
    requires CopiesOk(w)
    ensures CopiesOk(Sleep(w))
  {
    FreedKeys(w.params, w.paramShadow + (w.params - w.host));
    FreedKeys(w.buffers, w.bufferShadow + w.buffers);
    FreedKeys(w.grads, w.gradShadow + (w.grads - w.host));
  }

  lemma SleepKeepsOptOk(w: Worker)
    requires OptOk(w)
    ensures OptOk(Sleep(w))
  {
  }

  lemma SleepKeepsOk(w: Worker)
    requires WorkerOk(w)
    ensures WorkerOk(Sleep(w))
  {
    FreedKeys(w.params, w.paramShadow + (w.params - w.host));
    SleepKeepsCopiesOk(w);
    SleepKeepsOptOk(w);
  }

  lemma WakeKeepsOptOk(w: Worker)
    requires OptOk(w)
    ensures OptOk(WakeUp(w))
  {
  }

  lemma WakeKeepsShadowOk(w: Worker)
    requires NamesOk(w) && ShadowOk(w) && CopiesOk(w)
    ensures NamesOk(WakeUp(w)) && ShadowOk(WakeUp(w)) && !Awake(w).offloaded
  {
    var s := WakeUp(w);
    FreedKeys(w.params, w.paramShadow);
    if w.offloaded && w.delta {
      assert s.params == s.paramShadow;
    }
  }

  lemma WakeKeepsOk(w: Worker)
    requires WorkerOk(w)
    ensures WorkerOk(WakeUp(w)) && !Awake(w).offloaded
  {
    WakeKeepsShadowOk(w);
    WakeKeepsOptOk(w);
  }

  lemma OptimKeepsNamesOk(w: Worker, f: Optimizer)
    requires NamesOk(w) && !w.offloaded && StepFits(w, f)
    ensures NamesOk(OptimStep(w, f))
  {
  }

  lemma OptimKeepsOptOk(w: Worker, f: Optimizer)
    requires NamesOk(w) && OptOk(w) && !w.offloaded && StepFits(w, f)
    ensures OptOk(OptimStep(w, f))
  {
  }

  lemma OptimKeepsShadowOk(w: Worker, f: Optimizer)
    requires NamesOk(w) && ShadowOk(w) && !w.offloaded && StepFits(w, f)
    ensures ShadowOk(OptimStep(w, f))
  {
    if w.delta {
      assert OptimStep(w, f).paramShadow == OptimStep(w, f).params;
    }
  }

  lemma OptimKeepsOk(w: Worker, f: Optimizer)
    requires WorkerOk(w) && !w.offloaded && StepFits(w, f)
    ensures WorkerOk(OptimStep(w, f))
  {
    OptimKeepsNamesOk(w, f);
    OptimKeepsShadowOk(w, f);
    OptimKeepsOptOk(w, f);
  }

  lemma StepKeepsOk(w: Worker, op: Op)
    requires WorkerOk(w) && Enabled(w, op)
    ensures WorkerOk(Step(w, op))
  {
    match op
    case DoForward(_) =>
    case DoOptim(f) => OptimKeepsOk(w, f);
    case DoSleep => SleepKeepsOk(w);
    case DoWake => WakeKeepsOk(w);
  }

  /** In delta mode, the delta of a step is what that step changed in the parameters that do not share their copy. */
  lemma DeltaIsTheOthersChange(w: Worker, f: Optimizer)
    requires WorkerOk(w) && w.delta && !w.offloaded && StepFits(w, f)
    ensures var after := f(w.params, w.grads, w.opt).0;
            && SameShapes(Shared(w.params, w.aliased, after), after)
            && OptimStep(w, f).latest ==
               Some(Formatted(w.hf, w.fused, StepDelta(w.names, Shared(w.params, w.aliased, after), after)))
  {
    var after := f(w.params, w.grads, w.opt).0;
    assert Previous(after, Shared(w.paramShadow, w.aliased, after)) == Shared(w.params, w.aliased, after);
  }

  lemma NothingIsHidden(w: Worker, after: Params)
    requires WorkerOk(w) && Traceless(w) && w.delta && !w.offloaded && SameShapes(w.params, after)
    ensures Shared(w.params, w.aliased, after) == w.params
  {
    forall n | n in w.aliased && n in after ensures after[n] == w.params[n] {
      assert w.paramShadow[n] == [];
    }
  }

  /** In delta mode, the delta of a step is exactly what that step changed. */
  lemma DeltaIsTheStepsChange(w: Worker, f: Optimizer)
    requires WorkerOk(w) && Traceless(w) && w.delta && !w.offloaded && StepFits(w, f)
    ensures OptimStep(w, f).latest ==
            Some(Formatted(w.hf, w.fused, StepDelta(w.names, w.params, f(w.params, w.grads, w.opt).0)))
  {
    DeltaIsTheOthersChange(w, f);
    NothingIsHidden(w, f(w.params, w.grads, w.opt).0);
  }

  lemma OptimAgrees(w: Worker, v: Worker, f: Optimizer)
    requires WorkerOk(w) && WorkerOk(v) && !w.offloaded && !v.offloaded && SameTraining(w, v) && StepFits(w, f)
    ensures StepFits(v, f) && SameTraining(OptimStep(w, f), OptimStep(v, f))
  {
  }

  lemma DeltasAgree(w: Worker, v: Worker, f: Optimizer)
    requires WorkerOk(w) && WorkerOk(v) && !w.offloaded && !v.offloaded && SameTraining(w, v)
    requires StepFits(w, f) && StepFits(v, f) && Traceless(w) && Traceless(v) && w.latest == v.latest
    ensures OptimStep(w, f).latest == OptimStep(v, f).latest
  {
    if w.delta {
      DeltaIsTheStepsChange(w, f);
      DeltaIsTheStepsChange(v, f);
    }
  }

  /** Two workers that agree while awake agree after the same training step. */
  lemma TrainingStepAgrees(w: Worker, v: Worker, op: Op)
    requires WorkerOk(w) && WorkerOk(v) && !w.offloaded && !v.offloaded && SameTraining(w, v)
    requires (op.DoForward? || op.DoOptim?) && Enabled(w, op)
    ensures Enabled(v, op) && SameTraining(Step(w, op), Step(v, op))
    ensures Traceless(w) && Traceless(v) && w.latest == v.latest ==> Step(w, op).latest == Step(v, op).latest
  {
    if op.DoOptim? {
      OptimAgrees(w, v, op.optimizer);
      if Traceless(w) && Traceless(v) && w.latest == v.latest {
        DeltasAgree(w, v, op.optimizer);
      }
    }
  }

  lemma TrainingStaysAwake(w: Worker, op: Op)
    requires Enabled(w, op) && !w.offloaded && (op.DoForward? || op.DoOptim?)
    ensures !Step(w, op).offloaded
  {
  }

  lemma SleepingStepAgrees(w: Worker, v: Worker, op: Op)
    requires WorkerOk(w) && SameTraining(Awake(w), v) && (op.DoSleep? || op.DoWake?)
    ensures SameTraining(Awake(Step(w, op)), v)
  {
    if op.DoSleep? && !w.offloaded {
      WakeUndoesSleep(w);
    }
  }

  /** In delta mode the host copies are the parameters' values, asleep or awake. */
  lemma ShadowIsTheParameters(w: Worker, v: Worker)
    requires WorkerOk(w) && SameTraining(Awake(w), v) && v.delta
    ensures w.paramShadow == v.params
  {
  }

  /** Every run keeps the worker's invariants. */
  lemma {:induction false} RunKeepsOk(w: Worker, ops: seq<Op>)
    requires WorkerOk(w) && Legal(w, ops)
    ensures WorkerOk(Run(w, ops))
    decreases |ops|
  {
    if ops == [] {
    } else {
      StepKeepsOk(w, ops[0]);
      RunKeepsOk(Step(w, ops[0]), ops[1..]);
    }
  }

  lemma StepKeepsTraceless(w: Worker, op: Op)
    requires WorkerOk(w) && Traceless(w) && Enabled(w, op)
    ensures Traceless(Step(w, op))
  {
  }

  /** The second worker never sleeps, and trains as the first one does. */
  ghost predicate Follows(w: Worker, v: Worker)
  {
    && WorkerOk(w) && WorkerOk(v) && !v.offloaded && SameTraining(Awake(w), v)
  }

  /** Nothing stands in the way of the deltas, and the last ones are the same. */
  ghost predicate SameDeltas(w: Worker, v: Worker)
  {
    Traceless(w) && Traceless(v) && w.latest == v.latest
  }

  lemma SleepingFollows(w: Worker, v: Worker, op: Op)
    requires Follows(w, v) && (op.DoSleep? || op.DoWake?)
    ensures Follows(Step(w, op), v)
    ensures SameDeltas(w, v) ==> SameDeltas(Step(w, op), v)
  {
    StepKeepsOk(w, op);
    SleepingStepAgrees(w, v, op);
    if SameDeltas(w, v) {
      StepKeepsTraceless(w, op);
    }
  }

  lemma TrainingFollows(w: Worker, v: Worker, op: Op)
    requires Follows(w, v) && Enabled(w, op) && (op.DoForward? || op.DoOptim?)
    ensures Enabled(v, op) && Follows(Step(w, op), Step(v, op))
    ensures SameDeltas(w, v) ==> SameDeltas(Step(w, op), Step(v, op))
  {
    StepKeepsOk(w, op);
    TrainingStepAgrees(w, v, op);
    StepKeepsOk(v, op);
    TrainingStaysAwake(w, op);
    TrainingStaysAwake(v, op);
    if SameDeltas(w, v) {
      StepKeepsTraceless(w, op);
      StepKeepsTraceless(v, op);
    }
  }

  /**
    Sleeping and waking leave no trace: a run with them and the run without
    them train the same parameters to the same values, and with the same
    deltas unless host parameters are in the way.
  */
  lemma {:induction false} SleepsLeaveNoTrace(w: Worker, v: Worker, ops: seq<Op>)
    requires Follows(w, v) && Legal(w, ops)
    ensures Legal(v, Erased(ops)) && Follows(Run(w, ops), Run(v, Erased(ops)))
    ensures SameDeltas(w, v) ==> Run(w, ops).latest == Run(v, Erased(ops)).latest
    decreases |ops|
  {
    if ops == [] {
    } else if ops[0].DoSleep? || ops[0].DoWake? {
      SleepingFollows(w, v, ops[0]);
      assert Erased(ops) == Erased(ops[1..]);
      SleepsLeaveNoTrace(Step(w, ops[0]), v, ops[1..]);
    } else {
      TrainingFollows(w, v, ops[0]);
      assert Erased(ops)[0] == ops[0] && Erased(ops)[1..] == Erased(ops[1..]);
      SleepsLeaveNoTrace(Step(w, ops[0]), Step(v, ops[0]), ops[1..]);
    }
  }

  lemma StepKeepsMode(w: Worker, op: Op)
    requires Enabled(w, op)
    ensures Step(w, op).delta == w.delta
  {
  }

  lemma {:induction false} RunKeepsMode(w: Worker, ops: seq<Op>)
    requires Legal(w, ops)
    ensures Run(w, ops).delta == w.delta
    decreases |ops|
  {
    if ops == [] {
    } else {
      StepKeepsMode(w, ops[0]);
      RunKeepsMode(Step(w, ops[0]), ops[1..]);
    }
  }

  /** So in delta mode the host copies always hold the values of the run that never slept. */
  lemma ShadowsFollowTraining(w: Worker, ops: seq<Op>)
    requires WorkerOk(w) && !w.offloaded && w.delta && Legal(w, ops)
    ensures Legal(w, Erased(ops)) && Run(w, ops).paramShadow == Run(w, Erased(ops)).params
    ensures Traceless(w) ==> Run(w, ops).latest == Run(w, Erased(ops)).latest
  {
    SleepsLeaveNoTrace(w, w, ops);
    RunKeepsOk(w, ops);
    RunKeepsMode(w, Erased(ops));
    ShadowIsTheParameters(Run(w, ops), Run(w, Erased(ops)));
  }

  lemma PreparedOk(hf: HfConfig, fused: bool, delta: bool, cpuOffload: bool, cuda: bool, host: set<Name>,
                   names: seq<Name>, params: Params, buffers: map<string, Tensor>)
    requires Distinct(names) && forall n :: n in names <==> n in params
    ensures WorkerOk(Prepared(hf, fused, delta, cpuOffload, cuda, host, names, params, buffers))
  {
  }
}
