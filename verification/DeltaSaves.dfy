/**
  What a saved delta is worth: when the worker saves one at all, and what
  reading the file gives back after any run of training, sleeping and waking.
*/
module DeltaSaves {
  import opened SparseDelta
  import opened FusedLayout
  import opened TrainerOffload

  // ---------- when ----------

  /** Whether the worker sleeps at the end: the last sleep or wake decides. */
  function Slept(start: bool, ops: seq<Op>): bool
    decreases |ops|
  {
    if ops == [] then start
    else Slept(if ops[0].DoSleep? then true else if ops[0].DoWake? then false else start, ops[1..])
  }

  lemma StepSleeps(w: Worker, op: Op)
    requires WorkerOk(w) && w.cpuOffload && Enabled(w, op)
    ensures Step(w, op).cpuOffload && Step(w, op).cuda == w.cuda
    ensures w.cuda ==> Step(w, op).offloaded == (if op.DoSleep? then true else if op.DoWake? then false else w.offloaded)
    ensures !w.cuda ==> !w.offloaded && !Step(w, op).offloaded
  {
  }

  /** With offloading a delta is saved exactly when the last sleep or wake was a sleep, and never without CUDA. */
  lemma {:induction false} SavedWhileAsleep(w: Worker, ops: seq<Op>)
    requires WorkerOk(w) && w.cpuOffload && Legal(w, ops)
    ensures SaveDelta(Run(w, ops)).Ok? <==> w.cuda && Slept(w.offloaded, ops)
    decreases |ops|
  {
    if ops == [] {
    } else {
      StepSleeps(w, ops[0]);
      StepKeepsOk(w, ops[0]);
      SavedWhileAsleep(Step(w, ops[0]), ops[1..]);
    }
  }

  // ---------- what ----------

  lemma {:induction false} DeltaIsWellFormed(names: seq<Name>, k: nat, before: Params, after: Params)
    requires k <= |names| && Comparable(names, k, before, after)
    ensures WellFormed(Delta(names, k, before, after))
  {
    if k == 0 {
    } else {
      DeltaIsWellFormed(names, k - 1, before, after);
    }
  }

  lemma StepDeltaIsWellFormed(hf: HfConfig, fused: bool, names: seq<Name>, before: Params, after: Params)
    requires SameShapes(before, after) && forall n :: n in names ==> n in before
    ensures WellFormed(Formatted(hf, fused, StepDelta(names, before, after)))
  {
    AllComparable(names, |names|, before, after);
    DeltaIsWellFormed(names, |names|, before, after);
  }

  ghost predicate LatestOk(w: Worker)
  {
    w.latest.Some? ==> WellFormed(w.latest.value)
  }

  lemma OptimKeepsLatestOk(w: Worker, f: Optimizer)
    requires WorkerOk(w) && LatestOk(w) && !w.offloaded && StepFits(w, f)
    ensures LatestOk(OptimStep(w, f))
  {
    if w.delta {
      var after := f(w.params, w.grads, w.opt).0;
      DeltaIsTheOthersChange(w, f);
      StepDeltaIsWellFormed(w.hf, w.fused, w.names, Shared(w.params, w.aliased, after), after);
    }
  }

  lemma {:induction false} RunKeepsLatestOk(w: Worker, ops: seq<Op>)
    requires WorkerOk(w) && LatestOk(w) && Legal(w, ops)
    ensures LatestOk(Run(w, ops))
    decreases |ops|
  {
    if ops == [] {
    } else {
      if ops[0].DoOptim? {
        OptimKeepsLatestOk(w, ops[0].optimizer);
      }
      StepKeepsOk(w, ops[0]);
      RunKeepsLatestOk(Step(w, ops[0]), ops[1..]);
    }
  }

  lemma {:induction false} SplitNothing<T>(lengths: seq<nat>)
    requires forall k :: 0 <= k < |lengths| ==> lengths[k] == 0
    ensures SplitBy<T>([], lengths).Some?
  {
    if lengths == [] {
    } else {
      var nothing: seq<T> := [];
      assert nothing[0..] == nothing;
      SplitNothing<T>(lengths[1..]);
    }
  }

  /** Written before any step, the file lists every parameter with nothing to change. */
  ghost predicate ChangesNothing(patches: seq<Patch<Name>>, names: seq<Name>)
  {
    && |patches| == |names|
    && forall k :: 0 <= k < |names| ==> patches[k].name == names[k] && patches[k].indices == [] && patches[k].values == []
  }

  lemma EmptyFileReadsBack(names: seq<Name>)
    ensures var patches := Parse(DeltaFile(names, seq(|names|, _ => 0), [], []));
            patches.Some? && ChangesNothing(patches.value, names)
  {
    var lengths: seq<nat>, none: seq<int>, nothing: seq<Scalar> := seq(|names|, _ => 0), [], [];
    SplitNothing<int>(lengths);
    SplitNothing<Scalar>(lengths);
    SplitLengths(none, lengths);
    SplitLengths(nothing, lengths);
  }

  lemma SavedReadsBack(w: Worker)
    requires LatestOk(w) && SaveDelta(w).Ok?
    ensures if w.latest.Some? then Parse(SaveDelta(w).value) == w.latest
            else Parse(SaveDelta(w).value).Some? && ChangesNothing(Parse(SaveDelta(w).value).value, w.names)
  {
    if w.latest.Some? {
      ParseUndoesPack(w.latest.value);
    } else {
      EmptyFileReadsBack(w.names);
    }
  }

  /**
    Whatever a run did in between, reading the saved file gives back the delta
    of the last step of the same run without its sleeps, and changes nothing if
    there was no step.
  */
  lemma SavedFileReadsBack(w: Worker, ops: seq<Op>)
    requires WorkerOk(w) && LatestOk(w) && !w.offloaded && Traceless(w) && Legal(w, ops) && SaveDelta(Run(w, ops)).Ok?
    ensures Legal(w, Erased(ops))
    ensures var file, last := SaveDelta(Run(w, ops)).value, Run(w, Erased(ops)).latest;
            if last.Some? then Parse(file) == last
            else Parse(file).Some? && ChangesNothing(Parse(file).value, Run(w, ops).names)
  {
    SleepsLeaveNoTrace(w, w, ops);
    RunKeepsLatestOk(w, ops);
    SavedReadsBack(Run(w, ops));
  }
}
