/**
  Parameters that stay in host memory although there is a device. Waking moves
  every host copy to where its parameter belongs; for these that is where the
  copy already is, so parameter and copy become one storage, and a later step
  finds no difference between them. Here is exactly when that costs a delta.
*/
module HostParameters {
  import opened Wrappers
  import opened SparseDelta
  import opened FusedLayout
  import opened TrainerOffload

  // ---------- one step ----------

  lemma EntryIff(n: Name, before: Tensor, after: Tensor)
    requires |before| == |after|
    ensures Entry(n, before, after) == [] <==> before == after
    ensures |Entry(n, before, after)| <= 1
  {
    ChangedInRange(before, after, |after|);
    FirstIsIn(Changed(before, after, |after|));
    if before != after {
      var i :| 0 <= i < |after| && before[i] != after[i];
      assert i in Changed(before, after, |after|);
    }
  }

  lemma FirstIsIn(indices: seq<int>)
    ensures indices == [] || exists i :: i in indices
  {
    if indices != [] {
      var i := indices[0];
      assert i in indices;
    }
  }

  /** Comparing with copies of which some are already new finds no more patches, and fewer if it missed a change. */
  lemma {:induction false} HidingShortens(names: seq<Name>, k: nat, before: Params, hidden: Params, after: Params)
    requires k <= |names| && Comparable(names, k, before, after) && Comparable(names, k, hidden, after)
    requires forall n :: n in before && n in hidden && n in after ==> hidden[n] == before[n] || hidden[n] == after[n]
    ensures |Delta(names, k, hidden, after)| <= |Delta(names, k, before, after)|
    ensures (exists i :: 0 <= i < k && names[i] in before && names[i] in hidden && before[names[i]] != hidden[names[i]]) ==>
              |Delta(names, k, hidden, after)| < |Delta(names, k, before, after)|
  {
    if k == 0 {
    } else {
      var n := names[k - 1];
      HidingShortens(names, k - 1, before, hidden, after);
      EntryIff(n, before[n], after[n]);
      EntryIff(n, hidden[n], after[n]);
    }
  }

  lemma SharedDeltaIff(hf: HfConfig, fused: bool, names: seq<Name>, before: Params, aliased: set<Name>, after: Params)
    requires SameShapes(before, after) && forall n :: n in names <==> n in before
    ensures SameShapes(Shared(before, aliased, after), after)
    ensures Formatted(hf, fused, StepDelta(names, Shared(before, aliased, after), after)) ==
            Formatted(hf, fused, StepDelta(names, before, after)) <==>
            forall n :: n in aliased && n in after ==> after[n] == before[n]
  {
    var hidden := Shared(before, aliased, after);
    if forall n :: n in aliased && n in after ==> after[n] == before[n] {
      assert hidden == before;
    } else {
      var n :| n in aliased && n in after && after[n] != before[n];
      AllComparable(names, |names|, before, after);
      AllComparable(names, |names|, hidden, after);
      HidingShortens(names, |names|, before, hidden, after);
      var i :| 0 <= i < |names| && names[i] == n;
      assert before[names[i]] != hidden[names[i]];
      assert |StepDelta(names, hidden, after)| < |StepDelta(names, before, after)|;
    }
  }

  /** The recorded delta is the step's change exactly when the step left every parameter alone that is its own copy. */
  lemma StepDeltaIff(w: Worker, f: Optimizer)
    requires WorkerOk(w) && w.delta && !w.offloaded && StepFits(w, f)
    ensures var after := f(w.params, w.grads, w.opt).0;
            OptimStep(w, f).latest == Some(Formatted(w.hf, w.fused, StepDelta(w.names, w.params, after))) <==>
            forall n :: n in w.aliased && n in after ==> after[n] == w.params[n]
  {
    DeltaIsTheOthersChange(w, f);
    SharedDeltaIff(w.hf, w.fused, w.names, w.params, w.aliased, f(w.params, w.grads, w.opt).0);
  }

  // ---------- whole runs ----------

  function Raised(t: Tensor): Tensor
  {
    seq(|t|, i requires 0 <= i < |t| => Scalar(t[i].bits + 1))
  }

  /** An optimizer that changes every element of one parameter, and nothing else. */
  function Raising(n: Name): Optimizer
  {
    (params: Params, grads: Params, opt: OptState) => (if n in params then params[n := Raised(params[n])] else params, opt)
  }

  function Rested(w: Worker): Worker
  {
    WakeUp(Sleep(w))
  }

  /** After sleeping and waking once, every host parameter is its own copy. */
  lemma RestingAliases(w: Worker)
    requires WorkerOk(w) && w.delta && w.cpuOffload && w.cuda && !w.offloaded
    ensures WorkerOk(Rested(w)) && SameTraining(Rested(w), w) && !Rested(w).offloaded
    ensures Rested(w).aliased == w.host * w.params.Keys && Rested(w).latest == w.latest
  {
    SleepKeepsOk(w);
    WakeKeepsOk(Sleep(w));
    WakeUndoesSleep(w);
  }

  lemma RaisingFits(w: Worker, n: Name)
    requires n in w.params
    ensures StepFits(w, Raising(n))
  {
  }

  lemma {:induction false} NothingChanged(names: seq<Name>, k: nat, t: Params)
    requires k <= |names| && Comparable(names, k, t, t)
    ensures Delta(names, k, t, t) == []
  {
    if k == 0 {
    } else {
      NothingChanged(names, k - 1, t);
      EntryIff(names[k - 1], t[names[k - 1]], t[names[k - 1]]);
    }
  }

  lemma NoStepDelta(hf: HfConfig, fused: bool, names: seq<Name>, t: Params)
    requires forall n :: n in names ==> n in t
    ensures Formatted(hf, fused, StepDelta(names, t, t)) == []
  {
    AllComparable(names, |names|, t, t);
    NothingChanged(names, |names|, t);
  }

  /** What the step that raises one parameter records, by whether that parameter is its own copy. */
  lemma RaisedDelta(hf: HfConfig, fused: bool, names: seq<Name>, t: Params, aliased: set<Name>, n: Name)
    requires n in t && forall m :: m in names <==> m in t
    ensures var after := t[n := Raised(t[n])];
            && SameShapes(Shared(t, aliased, after), after)
            && var delta := Formatted(hf, fused, StepDelta(names, Shared(t, aliased, after), after));
            && (n in aliased ==> delta == [])
            && (n !in aliased && t[n] != [] ==> delta != [])
  {
    var after := t[n := Raised(t[n])];
    NoStepDelta(hf, fused, names, after);
    if n in aliased {
      assert Shared(t, aliased, after) == after;
    } else {
      assert Shared(t, aliased, after) == t && Shared(t, {n}, after) == after;
      SharedDeltaIff(hf, fused, names, t, {n}, after);
      assert t[n] != [] ==> after[n][0] != t[n][0];
    }
  }

  lemma RaisingRecords(w: Worker, n: Name)
    requires WorkerOk(w) && w.delta && !w.offloaded && n in w.params
    ensures StepFits(w, Raising(n)) && OptimStep(w, Raising(n)).latest.Some?
    ensures n in w.aliased ==> OptimStep(w, Raising(n)).latest == Some([])
    ensures n !in w.aliased && w.params[n] != [] ==> OptimStep(w, Raising(n)).latest != Some([])
  {
    RaisingFits(w, n);
    DeltaIsTheOthersChange(w, Raising(n));
    RaisedDelta(w.hf, w.fused, w.names, w.params, w.aliased, n);
  }

  lemma RunStep(w: Worker, op: Op, rest: seq<Op>)
    requires Enabled(w, op) && Legal(Step(w, op), rest)
    ensures Legal(w, [op] + rest) && Run(w, [op] + rest) == Run(Step(w, op), rest)
  {
    assert ([op] + rest)[1..] == rest;
  }

  function RestThen(f: Optimizer): seq<Op>
  {
    [DoSleep] + ([DoWake] + ([DoOptim(f)] + []))
  }

  lemma RestThenStep(w: Worker, f: Optimizer)
    requires WorkerOk(w) && !w.offloaded && StepFits(w, f)
    requires WorkerOk(Rested(w)) && !Rested(w).offloaded && StepFits(Rested(w), f)
    ensures Legal(w, RestThen(f)) && Run(w, RestThen(f)) == OptimStep(Rested(w), f)
  {
    RunStep(Rested(w), DoOptim(f), []);
    RunStep(Sleep(w), DoWake, [DoOptim(f)] + []);
    RunStep(w, DoSleep, [DoWake] + ([DoOptim(f)] + []));
  }

  lemma ErasedStep(op: Op, rest: seq<Op>)
    ensures Erased([op] + rest) == (if op.DoSleep? || op.DoWake? then [] else [op]) + Erased(rest)
  {
    assert ([op] + rest)[0] == op && ([op] + rest)[1..] == rest;
  }

  lemma RestErased(w: Worker, f: Optimizer)
    requires WorkerOk(w) && !w.offloaded && StepFits(w, f)
    ensures Erased(RestThen(f)) == [DoOptim(f)] + []
    ensures Legal(w, [DoOptim(f)] + []) && Run(w, [DoOptim(f)] + []) == OptimStep(w, f)
  {
    ErasedStep(DoSleep, [DoWake] + ([DoOptim(f)] + []));
    ErasedStep(DoWake, [DoOptim(f)] + []);
    ErasedStep(DoOptim(f), []);
    RunStep(w, DoOptim(f), []);
  }

  ghost predicate SameDeltaErased(w: Worker, ops: seq<Op>)
    requires Legal(w, ops)
  {
    Legal(w, Erased(ops)) && Run(w, ops).latest == Run(w, Erased(ops)).latest
  }

  /** A host parameter with elements: resting before it changes loses the change. */
  lemma RestLosesDelta(w: Worker, n: Name)
    requires WorkerOk(w) && w.delta && w.cpuOffload && w.cuda && !w.offloaded && w.aliased == {}
    requires n in w.host && n in w.params && w.params[n] != []
    ensures Legal(w, RestThen(Raising(n))) && !SameDeltaErased(w, RestThen(Raising(n)))
  {
    RestingAliases(w);
    RaisingRecords(Rested(w), n);
    RaisingRecords(w, n);
    RestThenStep(w, Raising(n));
    RestErased(w, Raising(n));
  }

  /**
    From a worker that has just been prepared, the deltas of every run are those
    of the same run without its sleeps, exactly when no parameter with elements
    is kept in host memory beside a device that is offloaded.
  */
  lemma SleepsKeepDeltasIff(w: Worker)
    requires WorkerOk(w) && w.delta && !w.offloaded && w.aliased == {}
    ensures Traceless(w) <==> forall ops :: Legal(w, ops) ==> SameDeltaErased(w, ops)
  {
    if Traceless(w) {
      forall ops | Legal(w, ops) ensures SameDeltaErased(w, ops) {
        SleepsLeaveNoTrace(w, w, ops);
      }
    } else {
      var n :| n in w.host && n in w.paramShadow && w.paramShadow[n] != [];
      RestLosesDelta(w, n);
    }
  }
}
