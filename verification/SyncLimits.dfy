/**
  When the sampler can be relied on. The two hypotheses of SyncSystem's results,
  that no parameter is offloaded from host memory and that the format's offsets
  are right, are necessary: wherever a delta can be saved at all, a run without
  either goes wrong.
*/
module SyncLimits {
  import opened Wrappers
  import opened SparseDelta
  import opened FusedLayout
  import opened TrainerOffload
  import opened DeltaReceive
  import opened WeightSync
  import opened HostParameters
  import opened SyncSystem

  ghost predicate InSync(y: System)
  {
    !y.failed && (y.delivered ==> y.sampler == Fusion(Weights(y)))
  }

  ghost predicate Reaches(y: System, ops: seq<SyncOp>, z: System)
  {
    SyncLegal(y, ops) && SyncRun(y, ops) == z
  }

  lemma ReachesOneEarlier(y: System, o: SyncOp, rest: seq<SyncOp>, z: System)
    requires SyncEnabled(y, o) && Reaches(SyncStep(y, o), rest, z)
    ensures Reaches(y, [o] + rest, z)
  {
    assert ([o] + rest)[1..] == rest;
  }

  /** Without CUDA, a worker that saves only while offloaded never saves. */
  predicate CanSave(w: Worker)
  {
    !w.cpuOffload || w.cuda
  }

  /** Whatever the last delta is, it can be saved and received, and counts as delivered then. */
  lemma PendingIsDelivered(y: System, z: Worker) returns (ops: seq<SyncOp>, end: System)
    requires y.worker == z && y.sampler.Keys <= y.dtypes.Keys
    requires WorkerOk(z) && !z.offloaded && CanSave(z) && z.latest.Some?
    ensures Reaches(y, ops, end) && end.delivered && Weights(end) == z.params
    ensures var out := Receive(z.hf, y.dtypes, y.sampler, Pack(z.latest.value));
            end.sampler == out.params && end.failed == (y.failed || out.error.Some?)
  {
    var asleep := y.(worker := Sleep(z));
    var saved := asleep.(file := Some(Pack(z.latest.value)), saved := true);
    end := Received(saved);
    WakeUndoesSleep(z);
    assert SyncStep(asleep, Save) == saved && SyncStep(saved, Deliver) == end;
    ReachesOneEarlier(saved, Deliver, [], end);
    ReachesOneEarlier(asleep, Save, [Deliver] + [], end);
    ReachesOneEarlier(y, Train(DoSleep), [Save] + ([Deliver] + []), end);
    ops := [Train(DoSleep)] + ([Save] + ([Deliver] + []));
  }

  /** Raising a parameter shows in its slot of the fusion, from the first element on. */
  lemma RaisingShows(hf: HfConfig, t: Params, n: Name)
    requires TrainerOk(hf, Sizes(t)) && n in t && t[n] != []
    ensures var f, i := FusedName(n), OffsetOf(hf, n);
            && f in Fusion(t) && f in Fusion(t[n := Raised(t[n])])
            && i < |Fusion(t)[f]| == |Fusion(t[n := Raised(t[n])])[f]|
            && Fusion(t)[f][i] != Fusion(t[n := Raised(t[n])])[f][i]
  {
    var x := Raised(t[n]);
    FusionOfUpdate(hf, t, n, x);
    SlotOf(hf, t, n);
    assert x[0] != t[n][0];
  }

  // ---------- parameters kept in host memory ----------

  /** Raised after a rest, a host parameter leaves an empty delta behind. */
  lemma RaisedAfterRest(w: Worker, n: Name) returns (z: Worker)
    requires WorkerOk(w) && w.delta && w.cpuOffload && w.cuda && !w.offloaded && n in w.host && n in w.params
    ensures WorkerOk(Rested(w)) && !Rested(w).offloaded && StepFits(Rested(w), Raising(n)) && z == OptimStep(Rested(w), Raising(n))
    ensures z.latest == Some([]) && (z.hf, z.cpuOffload, z.cuda) == (w.hf, w.cpuOffload, w.cuda)
    ensures WorkerOk(z) && !z.offloaded && z.params == w.params[n := Raised(w.params[n])]
  {
    RestingAliases(w);
    RaisingRecords(Rested(w), n);
    OptimKeepsOk(Rested(w), Raising(n));
    z := OptimStep(Rested(w), Raising(n));
  }

  lemma RestThenTrain(y: System, f: Optimizer, rest: seq<SyncOp>, end: System) returns (ops: seq<SyncOp>)
    requires y.sampler.Keys <= y.dtypes.Keys && y.delivered && Enabled(Rested(y.worker), DoOptim(f))
    requires Reaches(y.(worker := OptimStep(Rested(y.worker), f), saved := false, delivered := false), rest, end)
    ensures Reaches(y, ops, end)
  {
    var slept, rested := y.(worker := Sleep(y.worker)), y.(worker := Rested(y.worker));
    assert SyncStep(rested, Train(DoOptim(f))) == y.(worker := OptimStep(Rested(y.worker), f), saved := false, delivered := false);
    ReachesOneEarlier(rested, Train(DoOptim(f)), rest, end);
    assert SyncStep(slept, Train(DoWake)) == rested && SyncStep(y, Train(DoSleep)) == slept;
    ReachesOneEarlier(slept, Train(DoWake), [Train(DoOptim(f))] + rest, end);
    ReachesOneEarlier(y, Train(DoSleep), [Train(DoWake)] + ([Train(DoOptim(f))] + rest), end);
    ops := [Train(DoSleep)] + ([Train(DoWake)] + ([Train(DoOptim(f))] + rest));
  }

  lemma NothingReceived(cfg: HfConfig, dtypes: DTypes, s: map<Name, Tensor>)
    requires s.Keys <= dtypes.Keys
    ensures Receive(cfg, dtypes, s, Pack([])) == Outcome(s, None)
  {
    ParseUndoesPack<Name>([]);
  }

  /** A run that sleeps and wakes before a step of a host parameter delivers, and leaves the sampler stale. */
  lemma HostParameterGoesMissing(y: System, n: Name) returns (ops: seq<SyncOp>)
    requires Ready(y) && y.worker.cpuOffload && y.worker.cuda
    requires n in y.worker.host && n in y.worker.params && y.worker.params[n] != []
    ensures SyncLegal(y, ops) && !InSync(SyncRun(y, ops))
  {
    var z := RaisedAfterRest(y.worker, n);
    var rest, end := PendingIsDelivered(y.(worker := z, saved := false, delivered := false), z);
    ops := RestThenTrain(y, Raising(n), rest, end);
    NothingReceived(y.worker.hf, y.dtypes, y.sampler);
    RaisingShows(y.worker.hf, y.worker.params, n);
    assert end.sampler != Fusion(Weights(end));
  }

  // ---------- native names whose offset is sized for weights ----------

  lemma TimesMore(a: nat, b: nat)
    requires a > 0 && b > 1
    ensures a * b > a
  {
    assert a * b == a + a * (b - 1);
  }

  lemma Distributes(a: nat, b: nat, c: nat)
    ensures (a + b) * c == a * c + b * c
  {
  }

  /** The sampler places a bias as many times too far as there are elements in a weight's row. */
  lemma BiasOffset(cfg: HfConfig, n: Name)
    requires Complete(cfg) && n.Piece? && n.kind.Bias?
    ensures SamplerOffset(cfg, n.part) == Some(OffsetOf(cfg, n) * cfg.hidden.value)
  {
    Distributes(cfg.heads.value * HeadDim(cfg).value, KvHeads(cfg).value * HeadDim(cfg).value, cfg.hidden.value);
  }

  lemma WeightOffset(cfg: HfConfig, n: Name)
    requires Complete(cfg) && n.Piece? && n.kind.Weight?
    ensures SamplerOffset(cfg, n.part) == Some(OffsetOf(cfg, n))
  {
  }

  /** So an offset that is wrong lies behind the start of the name's own slot. */
  lemma WrongOffsetIsLater(cfg: HfConfig, n: Name)
    requires Complete(cfg) && n.Piece? && SamplerOffset(cfg, n.part) != Some(OffsetOf(cfg, n))
    ensures SamplerOffset(cfg, n.part).Some? && SamplerOffset(cfg, n.part).value > OffsetOf(cfg, n)
  {
    if n.kind.Weight? {
      WeightOffset(cfg, n);
    } else {
      BiasOffset(cfg, n);
      var offset, hidden := OffsetOf(cfg, n), cfg.hidden.value;
      if hidden > 1 && offset > 0 {
        TimesMore(offset, hidden);
      }
    }
  }

  /** A step that changes one parameter has that parameter's patch for its delta. */
  lemma {:induction false} OnlyEntry(names: seq<Name>, k: nat, t: Params, i: nat, x: Tensor)
    requires k <= |names| && i < |names| && Distinct(names) && names[i] in t && |x| == |t[names[i]]|
    requires Comparable(names, k, t, t[names[i] := x])
    ensures Delta(names, k, t, t[names[i] := x]) == if k <= i then [] else Entry(names[i], t[names[i]], x)
  {
    if k == 0 {
    } else {
      OnlyEntry(names, k - 1, t, i, x);
      assert t[names[i] := x][names[k - 1]] == if k - 1 == i then x else t[names[k - 1]];
      if k - 1 != i {
        EntryIff(names[k - 1], t[names[k - 1]], t[names[k - 1]]);
      }
    }
  }

  lemma OneEntry(names: seq<Name>, t: Params, n: Name, x: Tensor)
    requires Distinct(names) && n in t && |x| == |t[n]| && forall m :: m in names <==> m in t
    ensures SameShapes(t, t[n := x]) && StepDelta(names, t, t[n := x]) == Entry(n, t[n], x)
  {
    AllComparable(names, |names|, t, t[n := x]);
    var i :| 0 <= i < |names| && names[i] == n;
    OnlyEntry(names, |names|, t, i, x);
  }

  lemma {:induction false} CopyLeavesAlone(t: Tensor, indices: seq<int>, offset: int, values: seq<Scalar>, j: nat)
    requires |indices| == |values| && InBounds(indices, offset, |t|) && j < |t|
    requires forall k :: 0 <= k < |indices| ==> indices[k] + offset != j
    ensures IndexCopy(t, indices, offset, values)[j] == t[j]
    decreases |indices|
  {
    if indices == [] {
    } else {
      CopyLeavesAlone(t[indices[0] + offset := values[0]], indices[1..], offset, values[1..], j);
    }
  }

  lemma OnePatch(cfg: HfConfig, sizes: map<Name, nat>, p: Patch<Name>, w: Write<Name>)
    requires p.indices != [] && p.indices == w.indices && p.values == w.values && |p.indices| == |p.values|
    requires Resolve(cfg, sizes.Keys, p.name) == Some((w.name, w.offset)) && w.name in sizes
    requires InBounds(p.indices, w.offset, sizes[w.name])
    ensures ResolveAll(cfg, sizes, [p]) == Ok([w]) && AllOk(sizes, [w])
  {
    assert [p][1..] == [] && [w] + [] == [w];
    assert ResolveAll(cfg, sizes, [p][1..]) == Ok([]);
  }

  lemma OneRefused(cfg: HfConfig, sizes: map<Name, nat>, p: Patch<Name>)
    requires p.indices != [] && Resolve(cfg, sizes.Keys, p.name).Some?
    requires var (f, offset) := Resolve(cfg, sizes.Keys, p.name).value; f in sizes && !InBounds(p.indices, offset, sizes[f])
    ensures ResolveAll(cfg, sizes, [p]) == Err(OutOfRange)
    ensures Pack([p]).indices != []
  {
    var parts := seq(1, k requires 0 <= k < 1 => [p][k].indices);
    assert parts == [p.indices];
    assert parts[1..] == [] && Concat(parts) == p.indices + [];
  }

  /** A native patch of such a name is refused, or leaves the first element of its slot as it was. */
  lemma WrongPatchMisses(cfg: HfConfig, dtypes: DTypes, t: Params, p: Patch<Name>)
    requires TrainerOk(cfg, Sizes(t)) && OneType(dtypes, Fusion(t).Keys) && p.name in t && p.name.Piece? && t[p.name] != []
    requires SamplerOffset(cfg, p.name.part) != Some(OffsetOf(cfg, p.name))
    requires p.indices != [] && |p.indices| == |p.values| && forall k :: 0 <= k < |p.indices| ==> p.indices[k] >= 0
    ensures var out, f, i := Receive(cfg, dtypes, Fusion(t), Pack([p])), FusedName(p.name), OffsetOf(cfg, p.name);
            out.error.Some? || (f in out.params && i < |out.params[f]| && f in Fusion(t) && i < |Fusion(t)[f]| &&
                                out.params[f][i] == Fusion(t)[f][i])
  {
    var s, f, i := Fusion(t), FusedName(p.name), OffsetOf(cfg, p.name);
    WrongOffsetIsLater(cfg, p.name);
    FusionNames(cfg, t, p.name);
    SlotOf(cfg, t, p.name);
    ParseUndoesPack([p]);
    var q := SamplerOffset(cfg, p.name.part).value;
    var w := Write(f, q, p.indices, p.values);
    if InBounds(p.indices, q, |s[f]|) {
      OnePatch(cfg, Sizes(s), p, w);
      ReceiveApplies(cfg, dtypes, s, [p], [w]);
      CopyLeavesAlone(s[f], p.indices, q, p.values, i);
    } else {
      OneRefused(cfg, Sizes(s), p);
    }
  }

  lemma PieceIsNotEmpty(cfg: HfConfig, t: Params, n: Name)
    requires TrainerOk(cfg, Sizes(t)) && n in t && n.Piece?
    ensures t[n] != []
  {
    assert n in Sizes(t) && |t[n]| == PieceNumel(cfg, n.part, n.kind);
    var h, hd, kv := cfg.heads.value, HeadDim(cfg).value, KvHeads(cfg).value;
    assert h * hd > 0 && kv * hd > 0;
    assert h * hd * Row(cfg, n.kind) > 0 && kv * hd * Row(cfg, n.kind) > 0 && cfg.intermediate.value * Row(cfg, n.kind) > 0;
  }

  /** Awake, a step that raises one parameter of its own storage leaves that parameter's patch, as it is, in the native format. */
  lemma RaisingSends(w: Worker, n: Name) returns (z: Worker, p: Patch<Name>)
    requires WorkerOk(w) && Traceless(w) && w.delta && !w.fused && !w.offloaded && n in w.params && w.params[n] != []
    ensures StepFits(w, Raising(n)) && z == OptimStep(w, Raising(n)) && z.latest == Some([p])
    ensures WorkerOk(z) && !z.offloaded && z.params == w.params[n := Raised(w.params[n])]
    ensures p.name == n && p.indices != [] && |p.indices| == |p.values| && forall k :: 0 <= k < |p.indices| ==> p.indices[k] >= 0
  {
    var before, after := w.params[n], Raised(w.params[n]);
    assert after[0] != before[0];
    RaisingFits(w, n);
    DeltaIsTheStepsChange(w, Raising(n));
    OptimKeepsOk(w, Raising(n));
    OneEntry(w.names, w.params, n, after);
    EntryIff(n, before, after);
    ChangedFits(before, after, |after|, 0, |after|);
    z := OptimStep(w, Raising(n));
    p := Entry(n, before, after)[0];
    assert Entry(n, before, after) == [p];
  }

  /** A run whose one step changes a bias that the native format misplaces fails, or delivers and leaves the sampler stale. */
  lemma MisplacedBiasGoesWrong(y: System, n: Name) returns (ops: seq<SyncOp>)
    requires Ready(y) && Traceless(y.worker) && CanSave(y.worker) && !y.worker.fused
    requires n in y.worker.params && n.Piece? && SamplerOffset(y.worker.hf, n.part) != Some(OffsetOf(y.worker.hf, n))
    ensures SyncLegal(y, ops) && !InSync(SyncRun(y, ops))
  {
    var w := y.worker;
    PieceIsNotEmpty(w.hf, w.params, n);
    var z, p := RaisingSends(w, n);
    var stepped := y.(worker := z, saved := false, delivered := false);
    var rest, end := PendingIsDelivered(stepped, z);
    assert SyncStep(y, Train(DoOptim(Raising(n)))) == stepped;
    ReachesOneEarlier(y, Train(DoOptim(Raising(n))), rest, end);
    ops := [Train(DoOptim(Raising(n)))] + rest;
    WrongPatchMisses(w.hf, y.dtypes, w.params, p);
    RaisingShows(w.hf, w.params, n);
  }

  // ---------- a worker that can never save ----------

  ghost predicate NothingSaved(y: System)
  {
    && WorkerOk(y.worker) && !CanSave(y.worker) && !y.failed && y.file.None?
    && (y.delivered ==> y.sampler == Fusion(Weights(y)))
  }

  lemma StepKeepsCuda(w: Worker, op: Op)
    requires Enabled(w, op)
    ensures var z := TrainerOffload.Step(w, op); z.cpuOffload == w.cpuOffload && z.cuda == w.cuda
  {
  }

  lemma StepSavesNothing(y: System, o: SyncOp)
    requires NothingSaved(y) && SyncEnabled(y, o)
    ensures NothingSaved(SyncStep(y, o))
  {
    if o.Train? {
      StepKeepsOk(y.worker, o.op);
      StepKeepsCuda(y.worker, o.op);
      if !o.op.DoOptim? {
        OtherTrainingKeepsWeights(y.worker, o.op);
      }
    }
  }

  lemma {:induction false} RunSavesNothing(y: System, ops: seq<SyncOp>)
    requires NothingSaved(y) && SyncLegal(y, ops)
    ensures NothingSaved(SyncRun(y, ops))
    decreases |ops|
  {
    if ops == [] {
    } else {
      StepSavesNothing(y, ops[0]);
      RunSavesNothing(SyncStep(y, ops[0]), ops[1..]);
    }
  }

  // ---------- the exact condition ----------

  /** No parameter with elements is offloaded from host memory, and the format's offsets are right. */
  ghost predicate Reliable(w: Worker)
  {
    Traceless(w) && FormatFits(w.hf, w.fused, w.params.Keys)
  }

  lemma SomeRunGoesWrong(y: System) returns (ops: seq<SyncOp>)
    requires Ready(y) && CanSave(y.worker) && !Reliable(y.worker)
    ensures SyncLegal(y, ops) && !InSync(SyncRun(y, ops))
  {
    var w := y.worker;
    if !Traceless(w) {
      var n :| n in w.host && n in w.paramShadow && w.paramShadow[n] != [];
      ops := HostParameterGoesMissing(y, n);
    } else {
      var n :| n in w.params && n.Piece? && SamplerOffset(w.hf, n.part) != Some(OffsetOf(w.hf, n));
      ops := MisplacedBiasGoesWrong(y, n);
    }
  }

  /** The sampler can be relied on in every run if and only if, where anything can be saved, both hypotheses hold. */
  lemma SamplerHoldsTheFusionIff(y: System)
    requires Ready(y)
    ensures (CanSave(y.worker) ==> Reliable(y.worker)) <==> forall ops :: SyncLegal(y, ops) ==> InSync(SyncRun(y, ops))
  {
    if !CanSave(y.worker) {
      forall ops | SyncLegal(y, ops) ensures InSync(SyncRun(y, ops)) {
        RunSavesNothing(y, ops);
      }
    } else if Reliable(y.worker) {
      forall ops | SyncLegal(y, ops) ensures InSync(SyncRun(y, ops)) {
        SamplerHoldsTheFusion(y, ops);
      }
    } else {
      var ops := SomeRunGoesWrong(y);
    }
  }
}
