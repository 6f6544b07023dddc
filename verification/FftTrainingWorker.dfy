/**
  The full fine-tuning worker as it runs: loops over tensors that copy, free and
  reload them, and the difference taken at each optimizer step. Every method
  leaves exactly the state its function in TrainerOffload says.
*/
module FftTraining {
  import opened Wrappers
  import opened SparseDelta
  import opened FusedLayout
  import opened TrainerOffload

  // ---------- loops over the tensors ----------

  /** Copies what is on the device, and passes over what is kept in host memory. */
  method CopyToHost<K(==)>(live: map<K, Tensor>, shadow: map<K, Tensor>, host: set<K>) returns (r: map<K, Tensor>)
    ensures r == shadow + (live - host)
  {
    r := shadow;
    var todo := live.Keys;
    while todo != {}
      invariant todo <= live.Keys
      invariant r == shadow + (map k | k in live && k !in todo && k !in host :: live[k])
    {
      var k :| k in todo;
      if k !in host {
        r := r[k := live[k]];
      }
      todo := todo - {k};
    }
  }

  method Free<K(==)>(live: map<K, Tensor>, shadow: map<K, Tensor>) returns (r: map<K, Tensor>)
    ensures r == Freed(live, shadow)
    ensures r.Keys == live.Keys && forall k :: k in live ==> r[k] == if k in shadow then [] else live[k]
  {
    r := live;
    var todo := live.Keys;
    while todo != {}
      invariant todo <= live.Keys == r.Keys
      invariant forall k :: k in live ==> r[k] == if k in todo || k !in shadow then live[k] else []
    {
      var k :| k in todo;
      if k in shadow {
        r := r[k := []];
      }
      todo := todo - {k};
    }
  }

  method Restore<K(==)>(live: map<K, Tensor>, shadow: map<K, Tensor>) returns (r: map<K, Tensor>)
    ensures r == Restored(live, shadow)
    ensures r.Keys == live.Keys && forall k :: k in live ==> r[k] == if k in shadow then shadow[k] else live[k]
  {
    r := live;
    var todo := live.Keys;
    while todo != {}
      invariant todo <= live.Keys == r.Keys
      invariant forall k :: k in live ==> r[k] == if k in todo || k !in shadow then live[k] else shadow[k]
    {
      var k :| k in todo;
      if k in shadow {
        r := r[k := shadow[k]];
      }
      todo := todo - {k};
    }
  }

  method CopyOptToHost(opt: OptState, shadow: map<OptKey, Tensor>) returns (r: map<OptKey, Tensor>)
    ensures r == OptCopied(opt, shadow)
    ensures forall k :: k in r <==> k in shadow || (k in opt && opt[k].onCuda)
    ensures forall k :: k in r ==> r[k] == if k in opt && opt[k].onCuda then opt[k].value else shadow[k]
  {
    r := shadow;
    var todo := opt.Keys;
    while todo != {}
      invariant todo <= opt.Keys
      invariant r.Keys == shadow.Keys + set k | k in opt && k !in todo && opt[k].onCuda
      invariant forall k :: k in opt && k !in todo && opt[k].onCuda ==> r[k] == opt[k].value
      invariant forall k :: k in shadow && !(k in opt && k !in todo && opt[k].onCuda) ==> r[k] == shadow[k]
    {
      var k :| k in todo;
      if opt[k].onCuda {
        r := r[k := opt[k].value];
      }
      todo := todo - {k};
    }
  }

  method FreeOpt(opt: OptState, shadow: map<OptKey, Tensor>) returns (r: OptState)
    ensures r == OptFreed(opt, shadow)
    ensures r.Keys == opt.Keys && forall k :: k in opt ==> r[k] == if k in shadow then OptTensor(shadow[k], false) else opt[k]
  {
    r := opt;
    var todo := opt.Keys;
    while todo != {}
      invariant todo <= opt.Keys == r.Keys
      invariant forall k :: k in opt ==> r[k] == if k in todo || k !in shadow then opt[k] else OptTensor(shadow[k], false)
    {
      var k :| k in todo;
      if k in shadow {
        r := r[k := OptTensor(shadow[k], false)];
      }
      todo := todo - {k};
    }
  }

  method RestoreOpt(opt: OptState, shadow: map<OptKey, Tensor>, host: set<Name>) returns (r: OptState)
    ensures r == OptRestored(opt, shadow, host)
    ensures r.Keys == opt.Keys && forall k :: k in opt ==>
              r[k] == if k in shadow then OptTensor(shadow[k], true)
                      else OptTensor(opt[k].value, opt[k].onCuda || (k.1 != "step" && k.0 !in host))
  {
    r := opt;
    var todo := opt.Keys;
    while todo != {}
      invariant todo <= opt.Keys == r.Keys
      invariant forall k :: k in opt && k in todo ==> r[k] == opt[k]
      invariant forall k :: k in opt && k !in todo ==> r[k] == OptRestored(opt, shadow, host)[k]
    {
      var k :| k in todo;
      if k in shadow {
        r := r[k := OptTensor(shadow[k], true)];
      } else if !opt[k].onCuda && k.1 != "step" {
        r := r[k := OptTensor(opt[k].value, k.0 !in host)];
      }
      todo := todo - {k};
    }
  }

  // ---------- the difference of a step ----------

  /** One parameter: what changed since its host copy, and the copy with just those elements written. */
  method CompareWithCopy(n: Name, after: Tensor, copy: Tensor) returns (entry: seq<Patch<Name>>, updated: Tensor)
    requires |copy| == |after|
    ensures entry == Entry(n, copy, after) && updated == after
  {
    PatchMakesEqual(copy, after);
    var indices := Changed(copy, after, |after|);
    var values := Select(after, indices);
    if indices == [] {
      return [], copy;
    }
    entry, updated := [Patch(n, indices, values)], IndexCopy(copy, indices, 0, values);
  }

  /** After i parameters: the copies of those are up to date, the others are as they were. */
  ghost predicate CopiedSoFar(names: seq<Name>, i: nat, params: Params, before: Params, copies: Params)
  {
    && i <= |names| && copies.Keys <= params.Keys
    && (forall k :: 0 <= k < |names| ==> names[k] in params && names[k] in before && |before[names[k]]| == |params[names[k]]|)
    && (forall k :: 0 <= k < i ==> names[k] in copies && copies[names[k]] == params[names[k]])
    && (forall k :: i <= k < |names| ==> before[names[k]] == CopyOf(names[k], params, copies))
  }

  lemma CopyNext(names: seq<Name>, i: nat, params: Params, before: Params, copies: Params)
    requires Distinct(names) && i < |names| && CopiedSoFar(names, i, params, before, copies)
    ensures names[i] in params && names[i] in before && |before[names[i]]| == |params[names[i]]|
    ensures CopyOf(names[i], params, copies) == before[names[i]]
    ensures CopiedSoFar(names, i + 1, params, before, copies[names[i] := params[names[i]]])
  {
  }

  /** Compares each parameter with its host copy and brings the copy up to date element by element. */
  method CompareAll(names: seq<Name>, params: Params, shadow: Params, ghost before: Params)
    returns (delta: seq<Patch<Name>>, copies: Params)
    requires Distinct(names) && CopiedSoFar(names, 0, params, before, shadow)
    ensures Comparable(names, |names|, before, params) && delta == Delta(names, |names|, before, params)
    ensures CopiedSoFar(names, |names|, params, before, copies)
  {
    delta, copies := [], shadow;
    var i := 0;
    while i < |names|
      invariant 0 <= i <= |names| && CopiedSoFar(names, i, params, before, copies)
      invariant Comparable(names, i, before, params) && delta == Delta(names, i, before, params)
    {
      var n := names[i];
      CopyNext(names, i, params, before, copies);
      var entry, updated := CompareWithCopy(n, params[n], CopyOf(n, params, copies));
      delta, copies, i := delta + entry, copies[n := updated], i + 1;
    }
  }

  /** named_parameters lists every parameter once, and the host copies have the parameters' shapes. */
  ghost predicate ListsNames(names: seq<Name>, params: Params, shadow: Params)
  {
    && Distinct(names) && (forall n :: n in names <==> n in params) && shadow.Keys <= params.Keys
    && forall n :: n in shadow ==> |shadow[n]| == |params[n]|
  }

  lemma SteppedListsItsNames(w: Worker, f: Optimizer)
    requires NamesOk(w) && !w.offloaded && StepFits(w, f)
    ensures var params := f(w.params, w.grads, w.opt).0; ListsNames(w.names, params, Shared(w.paramShadow, w.aliased, params))
  {
  }

  method ComputeDelta(names: seq<Name>, params: Params, shadow: Params) returns (delta: seq<Patch<Name>>, copies: Params)
    requires ListsNames(names, params, shadow)
    ensures delta == StepDelta(names, Previous(params, shadow), params)
    ensures copies == shadow + params
  {
    delta, copies := CompareAll(names, params, shadow, Previous(params, shadow));
    assert copies.Keys == params.Keys;
  }

  method RemapHfToVllmFused(hf: HfConfig, delta: seq<Patch<Name>>) returns (mapped: seq<Patch<Name>>)
    ensures mapped == RemapAll(hf, delta)
    ensures |mapped| == |delta| && forall i :: 0 <= i < |delta| ==> mapped[i].values == delta[i].values && |mapped[i].indices| == |delta[i].indices|
    ensures forall i :: 0 <= i < |delta| && TrainerOffset(hf, delta[i].name).None? ==> mapped[i] == delta[i]
    ensures forall i :: 0 <= i < |delta| && TrainerOffset(hf, delta[i].name).Some? ==>
              mapped[i].name == FusedName(delta[i].name) &&
              forall k :: 0 <= k < |delta[i].indices| ==> mapped[i].indices[k] == delta[i].indices[k] + TrainerOffset(hf, delta[i].name).value
  {
    mapped := [];
    for i := 0 to |delta|
      invariant mapped == RemapAll(hf, delta[..i])
    {
      mapped := mapped + [Remap(hf, delta[i])];
    }
    assert delta[..|delta|] == delta;
  }

  lemma AllCopied(w: Worker, params: Params, buffers: map<string, Tensor>, grads: Params, opt: map<OptKey, Tensor>)
    requires params == w.paramShadow + (w.params - w.host) && buffers == w.bufferShadow + w.buffers
    requires grads == w.gradShadow + (w.grads - w.host) && opt == OptCopied(w.opt, w.optShadow)
    ensures Copied(w) == w.(paramShadow := params, bufferShadow := buffers, gradShadow := grads, optShadow := opt)
  {
  }

  lemma AllFreed(w: Worker, params: Params, buffers: map<string, Tensor>, grads: Params, opt: OptState)
    requires params == Freed(w.params, w.paramShadow) && buffers == Freed(w.buffers, w.bufferShadow)
    requires grads == Freed(w.grads, w.gradShadow) && opt == OptFreed(w.opt, w.optShadow)
    ensures GivenUp(w) ==
            w.(params := params, buffers := buffers, grads := grads, opt := opt, offloaded := true, aliased := {})
  {
  }

  lemma Woken(w: Worker, params: Params, buffers: map<string, Tensor>, grads: Params, opt: OptState)
    requires w.cpuOffload && w.offloaded && w.cuda
    requires params == Restored(w.params, w.paramShadow) && buffers == Restored(w.buffers, w.bufferShadow)
    requires grads == Restored(w.grads, w.gradShadow) && opt == OptRestored(w.opt, w.optShadow, w.host)
    ensures TrainerOffload.WakeUp(w) ==
            w.(params := params, buffers := buffers, grads := grads, opt := opt, offloaded := false,
               aliased := w.host * params.Keys * w.paramShadow.Keys)
  {
  }

  // ---------- the worker ----------

  class FFTTrainingWorker {
    const hf: HfConfig
    const fused: bool
    const delta: bool
    const cpuOffload: bool
    const cuda: bool
    const host: set<Name>
    const names: seq<Name>
    var params: Params
    var buffers: map<string, Tensor>
    var grads: Params
    var opt: OptState
    var offloaded: bool
    var aliased: set<Name>
    var paramShadow: Params
    var bufferShadow: map<string, Tensor>
    var gradShadow: Params
    var optShadow: map<OptKey, Tensor>
    var latest: Option<seq<Patch<Name>>>

    ghost function View(): Worker
      reads this
    {
      Worker(hf, fused, delta, cpuOffload, cuda, host, names, params, buffers, grads, opt, offloaded, aliased,
             paramShadow, bufferShadow, gradShadow, optShadow, latest)
    }

    constructor (hf: HfConfig, fused: bool, delta: bool, cpuOffload: bool, cuda: bool, host: set<Name>,
                 names: seq<Name>, params: Params, buffers: map<string, Tensor>)
      requires Distinct(names) && forall n :: n in names <==> n in params
      ensures View() == Prepared(hf, fused, delta, cpuOffload, cuda, host, names, params, buffers)
      ensures WorkerOk(View())
      ensures this.hf == hf && this.fused == fused && this.delta == delta && this.cpuOffload == cpuOffload && this.cuda == cuda
      ensures this.host == host && this.names == names && this.params == params && this.buffers == buffers
      ensures grads == map[] && opt == map[] && !offloaded && latest == None && paramShadow == if delta then params else map[]
    {
      this.hf, this.fused, this.delta, this.cpuOffload, this.cuda := hf, fused, delta, cpuOffload, cuda;
      this.host, this.aliased := host, {};
      this.names, this.params, this.buffers := names, params, buffers;
      this.grads, this.opt, this.offloaded := map[], map[], false;
      this.bufferShadow, this.gradShadow, this.optShadow, this.latest := map[], map[], map[], None;
      this.paramShadow := map[];
      new;
      if delta {
        this.paramShadow := CopyToHost(params, map[], {});
        assert map[] + (params - {}) == params;
      }
      PreparedOk(hf, fused, delta, cpuOffload, cuda, host, names, params, buffers);
    }

    method Sleep()
      requires WorkerOk(View())
      modifies this
      ensures View() == TrainerOffload.Sleep(old(View())) && WorkerOk(View())
    {
      SleepKeepsOk(View());
      if !cpuOffload || offloaded || !cuda {
        return;
      }
      CopyAllToHost();
      FreeAll();
    }

    /** The first phase: every device tensor is copied before any is freed. */
    method CopyAllToHost()
      modifies `paramShadow, `bufferShadow, `gradShadow, `optShadow
      ensures View() == Copied(old(View()))
    {
      ghost var before := View();
      var params', buffers', grads' := CopyTensors();
      var opt' := CopyOptToHost(opt, optShadow);
      paramShadow, bufferShadow, gradShadow, optShadow := params', buffers', grads', opt';
      AllCopied(before, params', buffers', grads', opt');
      assert View() == before.(paramShadow := params', bufferShadow := buffers', gradShadow := grads', optShadow := opt');
    }

    method CopyTensors() returns (params': Params, buffers': map<string, Tensor>, grads': Params)
      ensures params' == paramShadow + (params - host) && buffers' == bufferShadow + buffers
      ensures grads' == gradShadow + (grads - host)
    {
      params' := CopyToHost(params, paramShadow, host);
      buffers' := CopyToHost(buffers, bufferShadow, {});
      assert buffers - {} == buffers;
      grads' := CopyToHost(grads, gradShadow, host);
    }

    /** The last phase: device memory is given up for everything that has a host copy. */
    method FreeAll()
      modifies `params, `buffers, `grads, `opt, `offloaded, `aliased
      ensures View() == GivenUp(old(View()))
    {
      ghost var before := View();
      var params', buffers', grads' := FreeTensors();
      var opt' := FreeOpt(opt, optShadow);
      params, buffers, grads, opt := params', buffers', grads', opt';
      offloaded, aliased := true, {};
      AllFreed(before, params', buffers', grads', opt');
      assert View() == before.(params := params', buffers := buffers', grads := grads', opt := opt', offloaded := true, aliased := {});
    }

    method FreeTensors() returns (params': Params, buffers': map<string, Tensor>, grads': Params)
      ensures params' == Freed(params, paramShadow) && buffers' == Freed(buffers, bufferShadow)
      ensures grads' == Freed(grads, gradShadow)
    {
      params' := Free(params, paramShadow);
      buffers' := Free(buffers, bufferShadow);
      grads' := Free(grads, gradShadow);
    }

    method WakeUp()
      requires WorkerOk(View())
      modifies this
      ensures View() == TrainerOffload.WakeUp(old(View())) && WorkerOk(View())
    {
      ghost var before := View();
      WakeKeepsOk(before);
      if !cpuOffload || !offloaded || !cuda {
        return;
      }
      var params', buffers', grads' := RestoreTensors();
      var opt' := RestoreOpt(opt, optShadow, host);
      params, buffers, grads, opt := params', buffers', grads', opt';
      offloaded, aliased := false, host * params.Keys * paramShadow.Keys;
      Woken(before, params', buffers', grads', opt');
      assert View() == before.(params := params', buffers := buffers', grads := grads', opt := opt', offloaded := false,
                               aliased := before.host * params'.Keys * before.paramShadow.Keys);
    }

    method RestoreTensors() returns (params': Params, buffers': map<string, Tensor>, grads': Params)
      ensures params' == Restored(params, paramShadow) && buffers' == Restored(buffers, bufferShadow)
      ensures grads' == Restored(grads, gradShadow)
    {
      params' := Restore(params, paramShadow);
      buffers' := Restore(buffers, bufferShadow);
      grads' := Restore(grads, gradShadow);
    }

    method OptimStep(f: Optimizer)
      requires WorkerOk(View()) && !offloaded && StepFits(View(), f)
      modifies this
      ensures View() == TrainerOffload.OptimStep(old(View()), f) && WorkerOk(View())
      ensures grads == map[] && (params, opt) == f(old(params), old(grads), old(opt)) && buffers == old(buffers) && !offloaded
      ensures if delta then latest.Some? && paramShadow.Keys == params.Keys else latest == old(latest)
    {
      ghost var before := View();
      OptimKeepsOk(before, f);
      SteppedListsItsNames(before, f);
      var stepped := f(params, grads, opt);
      params, opt, grads := stepped.0, stepped.1, map[];
      paramShadow := Shared(paramShadow, aliased, params);
      if delta {
        RecordDelta();
      }
      assert View() == TrainerOffload.OptimStep(before, f);
    }

    /** Replaces the last delta by this step's, whether or not anybody saved it. */
    method RecordDelta()
      requires ListsNames(names, params, paramShadow)
      modifies `latest, `paramShadow
      ensures latest == Some(Formatted(hf, fused, StepDelta(names, Previous(params, old(paramShadow)), params)))
      ensures paramShadow == old(paramShadow) + params
    {
      var changes, copies := ComputeDelta(names, params, paramShadow);
      if fused {
        changes := RemapHfToVllmFused(hf, changes);
      }
      latest, paramShadow := Some(changes), copies;
    }

    method SaveStateDelta() returns (r: Result<DeltaFile<Name>, SaveError>)
      ensures r == SaveDelta(View())
      ensures r.Err? <==> cpuOffload && !offloaded
      ensures r.Ok? && latest.None? ==>
                && r.value.names == names && |r.value.lengths| == |names| && r.value.indices == [] && r.value.values == []
                && forall i :: 0 <= i < |names| ==> r.value.lengths[i] == 0
    {
      if cpuOffload && !offloaded {
        return Err(NotOffloaded);
      }
      if latest.Some? {
        r := Ok(Pack(latest.value));
      } else {
        r := Ok(DeltaFile(names, seq(|names|, _ => 0), [], []));
      }
    }

    /** A full save swaps the host copies in, writes the true values, and leaves everything as it was. */
    method SaveState() returns (r: Result<(Params, map<string, Tensor>), SaveError>)
      requires WorkerOk(View())
      modifies this
      ensures View() == old(View())
      ensures r == if cpuOffload && !offloaded then Err(NotOffloaded) else Ok((Awake(View()).params, Awake(View()).buffers))
    {
      if cpuOffload && !offloaded {
        return Err(NotOffloaded);
      }
      if offloaded {
        params := Restore(params, paramShadow);
        buffers := Restore(buffers, bufferShadow);
      }
      r := Ok((params, buffers));
      if offloaded {
        FreedUndoesRestored(old(params), paramShadow);
        FreedUndoesRestored(old(buffers), bufferShadow);
        params := Free(params, paramShadow);
        buffers := Free(buffers, bufferShadow);
      }
    }
  }
}
