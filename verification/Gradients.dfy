/**
  What becomes of gradients: an optimizer step clears them, and from then on they
  are what the forward passes since have left, whatever sleeps came in between.
  And what a sleep leaves on the device: nothing.
*/
module Gradients {
  import opened Wrappers
  import opened FusedLayout
  import opened TrainerOffload

  predicate NoStep(ops: seq<Op>)
  {
    forall i :: 0 <= i < |ops| ==> !ops[i].DoOptim?
  }

  /** What forward passes leave, one after another, with the parameters as they are. */
  function Left(ops: seq<Op>, params: Params, grads: Params): Params
  {
    if ops == [] then grads
    else Left(ops[1..], params, if ops[0].DoForward? then ops[0].backward(params, grads) else grads)
  }

  lemma StepLeaves(w: Worker, op: Op)
    requires WorkerOk(w) && Enabled(w, op) && !op.DoOptim?
    ensures Awake(Step(w, op)).params == Awake(w).params
    ensures Awake(Step(w, op)).grads ==
            if op.DoForward? then op.backward(Awake(w).params, Awake(w).grads) else Awake(w).grads
  {
    if op.DoSleep? && !w.offloaded {
      WakeUndoesSleep(w);
    }
  }

  lemma {:induction false} ForwardsLeave(w: Worker, ops: seq<Op>)
    requires WorkerOk(w) && Legal(w, ops) && NoStep(ops)
    ensures Awake(Run(w, ops)).params == Awake(w).params
    ensures Awake(Run(w, ops)).grads == Left(ops, Awake(w).params, Awake(w).grads)
    decreases |ops|
  {
    if ops == [] {
    } else {
      StepLeaves(w, ops[0]);
      StepKeepsOk(w, ops[0]);
      ForwardsLeave(Step(w, ops[0]), ops[1..]);
    }
  }

  /**
    After an optimizer step the worker has no gradients, and the new parameters
    and optimizer state are what the optimizer made of the old ones.
  */
  lemma StepTakesItAll(w: Worker, f: Optimizer)
    requires WorkerOk(w) && !w.offloaded && StepFits(w, f)
    ensures var z := OptimStep(w, f);
            && z.grads == map[] && (z.params, z.opt) == f(w.params, w.grads, w.opt)
            && z.buffers == w.buffers && !z.offloaded
  {
  }

  /** Over runs: since the last step, the gradients are what the forward passes left, asleep or awake. */
  lemma GradientsSinceTheLastStep(w: Worker, f: Optimizer, ops: seq<Op>)
    requires WorkerOk(w) && !w.offloaded && StepFits(w, f) && Legal(OptimStep(w, f), ops) && NoStep(ops)
    ensures var z := Run(OptimStep(w, f), ops);
            && Awake(z).params == f(w.params, w.grads, w.opt).0
            && Awake(z).grads == Left(ops, f(w.params, w.grads, w.opt).0, map[])
  {
    StepTakesItAll(w, f);
    OptimKeepsOk(w, f);
    ForwardsLeave(OptimStep(w, f), ops);
  }

  // ---------- what sleeping frees ----------

  /** While it sleeps, a worker has nothing on the device. */
  ghost predicate DeviceIsEmpty(w: Worker)
  {
    w.offloaded ==>
      && (forall n :: n in w.params && n !in w.host ==> w.params[n] == [])
      && (forall b :: b in w.buffers ==> w.buffers[b] == [])
      && (forall n :: n in w.grads && n !in w.host ==> w.grads[n] == [])
      && (forall k :: k in w.opt ==> !w.opt[k].onCuda)
  }

  lemma FallingAsleepFrees(w: Worker)
    requires WorkerOk(w) && WorkerOk(Sleep(w)) && !w.offloaded
    ensures DeviceIsEmpty(Sleep(w))
  {
    var z := Sleep(w);
    if z.offloaded {
      assert z.grads == Freed(w.grads, w.gradShadow + (w.grads - w.host));
      forall n | n in z.grads && n !in w.host ensures z.grads[n] == [] {
        assert n in w.grads - w.host;
      }
    }
  }

  lemma StepKeepsDeviceEmpty(w: Worker, op: Op)
    requires WorkerOk(w) && DeviceIsEmpty(w) && Enabled(w, op)
    ensures WorkerOk(Step(w, op)) && DeviceIsEmpty(Step(w, op))
  {
    StepKeepsOk(w, op);
    if op.DoSleep? && !w.offloaded {
      FallingAsleepFrees(w);
    }
  }

  lemma StepKeepsMode(w: Worker, op: Op)
    requires Enabled(w, op)
    ensures Step(w, op).cpuOffload == w.cpuOffload && Step(w, op).cuda == w.cuda
    ensures w.cpuOffload && w.cuda && op.DoSleep? ==> Step(w, op).offloaded
  {
  }

  /** A run that ends with a sleep ends offloaded, if there is a device to leave and offloading is on. */
  lemma {:induction false} SleepOffloads(w: Worker, ops: seq<Op>)
    requires Legal(w, ops) && ops != [] && ops[|ops| - 1].DoSleep? && w.cpuOffload && w.cuda
    ensures Run(w, ops).offloaded
    decreases |ops|
  {
    StepKeepsMode(w, ops[0]);
    if |ops| > 1 {
      SleepOffloads(Step(w, ops[0]), ops[1..]);
    } else {
      assert Run(Step(w, ops[0]), ops[1..]) == Step(w, ops[0]);
    }
  }

  /** In every run: an offloaded worker holds no tensor on the device. */
  lemma {:induction false} SleepersHoldNothing(w: Worker, ops: seq<Op>)
    requires WorkerOk(w) && DeviceIsEmpty(w) && Legal(w, ops)
    ensures DeviceIsEmpty(Run(w, ops))
    decreases |ops|
  {
    if ops == [] {
    } else {
      StepKeepsDeviceEmpty(w, ops[0]);
      SleepersHoldNothing(Step(w, ops[0]), ops[1..]);
    }
  }
}
