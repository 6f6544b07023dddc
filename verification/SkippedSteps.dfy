/**
  The machine of SyncSystem without its discipline: optimizer steps come whenever
  they like, as they do when one batch of requests holds several. A step then
  overwrites a delta that nobody saved. Here is exactly what the sampler holds
  after any run, and which of its elements are the trainer's.
*/
module SkippedSteps {
  import opened Wrappers
  import opened SparseDelta
  import opened FusedLayout
  import opened TrainerOffload
  import opened DeltaReceive
  import opened WeightSync
  import opened HostParameters
  import opened SyncSystem
  import opened SyncLimits

  // ---------- runs and what they leave behind ----------

  ghost predicate PossibleRun(y: System, ops: seq<SyncOp>)
    decreases |ops|
  {
    ops == [] || (Possible(y, ops[0]) && PossibleRun(SyncStep(y, ops[0]), ops[1..]))
  }

  ghost function AnyRun(y: System, ops: seq<SyncOp>): System
    requires PossibleRun(y, ops)
    decreases |ops|
  {
    if ops == [] then y else AnyRun(SyncStep(y, ops[0]), ops[1..])
  }

  /** One optimizer step. */
  datatype Change = Change(before: Params, after: Params)

  type Element = (Name, int)

  /**
    What the trainer's side of a run says about the sampler: the parameters it
    has seen, the step whose delta is pending, the step in the file, and the
    elements that a step changed and no received file has brought up to date.
  */
  datatype History = History(seen: Params, pending: Option<Change>, filed: Option<Change>, behind: set<Element>)

  /** The elements a step changed. */
  function Touched(c: Change): set<Element>
  {
    set n, i | n in c.before && 0 <= i < |c.before[n]| && n in c.after && i < |c.after[n]| && c.before[n][i] != c.after[n][i] :: (n, i)
  }

  /** Of the elements a step changed, those that still have the value it gave them. */
  function StillCurrent(c: Change, now: Params): set<Element>
  {
    set e | e in Touched(c) && e.0 in now && e.1 < |now[e.0]| && c.after[e.0][e.1] == now[e.0][e.1] :: e
  }

  ghost function Next(h: History, w: Worker, o: SyncOp): History
    requires o.Train? ==> Enabled(w, o.op)
  {
    match o
    case Train(op) =>
      if op.DoOptim? then
        var c := Change(w.params, op.optimizer(w.params, w.grads, w.opt).0);
        h.(pending := Some(c), behind := h.behind + Touched(c))
      else h
    case Save => if SaveDelta(w).Ok? then h.(filed := h.pending) else h
    case Deliver =>
      if h.filed.None? then h
      else
        var c := h.filed.value;
        h.(seen := Overlaid(h.seen, c.before, c.after), behind := h.behind - StillCurrent(c, Awake(w).params))
  }

  ghost function HistoryOf(y: System, h: History, ops: seq<SyncOp>): History
    requires PossibleRun(y, ops)
    decreases |ops|
  {
    if ops == [] then h else HistoryOf(SyncStep(y, ops[0]), Next(h, y.worker, ops[0]), ops[1..])
  }

  /** Nothing has been trained, saved or received yet. */
  function Fresh(y: System): History
  {
    History(Weights(y), None, None, {})
  }

  // ---------- the invariant ----------

  predicate Has(t: Params, e: Element)
  {
    e.0 in t && 0 <= e.1 < |t[e.0]|
  }

  predicate SameAt(a: Params, b: Params, e: Element)
    requires Has(a, e) && Has(b, e)
  {
    a[e.0][e.1] == b[e.0][e.1]
  }

  ghost predicate ChangeOk(names: seq<Name>, c: Change, now: Params)
  {
    SameShapes(c.before, c.after) && SameShapes(c.after, now) && forall n :: n in names ==> n in c.before
  }

  /** The delta of a step, as the trainer sends it. */
  function DeltaOf(hf: HfConfig, fused: bool, names: seq<Name>, c: Change): seq<Patch<Name>>
    requires SameShapes(c.before, c.after) && forall n :: n in names ==> n in c.before
  {
    Formatted(hf, fused, StepDelta(names, c.before, c.after))
  }

  ghost predicate PendingIs(w: Worker, pending: Option<Change>, now: Params)
  {
    match pending
    case None => w.latest.None?
    case Some(c) => c.after == now && ChangeOk(w.names, c, now) && w.latest == Some(DeltaOf(w.hf, w.fused, w.names, c))
  }

  function NoDelta(names: seq<Name>): DeltaFile<Name>
  {
    DeltaFile(names, seq(|names|, _ => 0), [], [])
  }

  ghost predicate FileIs(w: Worker, file: Option<DeltaFile<Name>>, filed: Option<Change>, now: Params)
  {
    match filed
    case None => file.None? || file == Some(NoDelta(w.names))
    case Some(c) => ChangeOk(w.names, c, now) && file == Some(Pack(DeltaOf(w.hf, w.fused, w.names, c)))
  }

  /** Whatever is not behind is as the trainer has it, and receiving the file would not change that. */
  ghost predicate BehindOk(seen: Params, now: Params, filed: Option<Change>, behind: set<Element>)
  {
    forall e :: Has(now, e) && Has(seen, e) && e !in behind ==>
      && SameAt(seen, now, e)
      && (filed.Some? && e in Touched(filed.value) ==> e in StillCurrent(filed.value, now))
  }

  ghost predicate HistoryOk(y: System, h: History)
  {
    && SetupOk(y) && SameShapes(h.seen, Weights(y)) && y.sampler == Fusion(h.seen)
    && PendingIs(y.worker, h.pending, Weights(y)) && FileIs(y.worker, y.file, h.filed, Weights(y))
    && BehindOk(h.seen, Weights(y), h.filed, h.behind)
  }

  // ---------- what is behind ----------

  lemma BehindAfterStep(seen: Params, c: Change, filed: Option<Change>, behind: set<Element>)
    requires SameShapes(c.before, c.after) && SameShapes(seen, c.before) && BehindOk(seen, c.before, filed, behind)
    ensures BehindOk(seen, c.after, filed, behind + Touched(c))
  {
    forall e | Has(c.after, e) && Has(seen, e) && e !in behind + Touched(c)
      ensures SameAt(seen, c.after, e)
      ensures filed.Some? && e in Touched(filed.value) ==> e in StillCurrent(filed.value, c.after)
    {
      assert SameAt(seen, c.before, e) && SameAt(c.before, c.after, e);
    }
  }

  lemma BehindAfterSave(seen: Params, now: Params, filed: Option<Change>, pending: Option<Change>, behind: set<Element>)
    requires BehindOk(seen, now, filed, behind) && (pending.Some? ==> pending.value.after == now && SameShapes(pending.value.before, now))
    ensures BehindOk(seen, now, pending, behind)
  {
  }

  lemma OverlaidShapes(t: Params, c: Change)
    ensures SameShapes(Overlaid(t, c.before, c.after), t)
  {
  }

  lemma OverlaidElement(t: Params, c: Change, e: Element)
    requires SameShapes(c.before, c.after) && SameShapes(t, c.before) && Has(t, e)
    ensures Has(Overlaid(t, c.before, c.after), e) && Has(c.after, e)
    ensures Overlaid(t, c.before, c.after)[e.0][e.1] == if e in Touched(c) then c.after[e.0][e.1] else t[e.0][e.1]
  {
  }

  lemma BehindAfterDeliver(seen: Params, now: Params, c: Change, behind: set<Element>)
    requires SameShapes(c.before, c.after) && SameShapes(c.after, now) && SameShapes(seen, now)
    requires BehindOk(seen, now, Some(c), behind)
    ensures BehindOk(Overlaid(seen, c.before, c.after), now, Some(c), behind - StillCurrent(c, now))
  {
    var next := Overlaid(seen, c.before, c.after);
    OverlaidShapes(seen, c);
    forall e | Has(now, e) && Has(next, e) && e !in behind - StillCurrent(c, now)
      ensures SameAt(next, now, e) && (e in Touched(c) ==> e in StillCurrent(c, now))
    {
      assert Has(seen, e);
      OverlaidElement(seen, c, e);
    }
  }

  // ---------- every possible step ----------

  lemma OptimKeepsSetup(y: System, f: Optimizer)
    requires SetupOk(y) && Possible(y, Train(DoOptim(f)))
    ensures SetupOk(SyncStep(y, Train(DoOptim(f))))
    ensures SameShapes(Weights(y), Weights(SyncStep(y, Train(DoOptim(f)))))
  {
    var w := y.worker;
    var before, after := w.params, f(w.params, w.grads, w.opt).0;
    StepKeepsOk(w, DoOptim(f));
    StepKeepsTraceless(w, DoOptim(f));
    ShapesGiveSizes(before, after);
    FusionKeys(before, after);
  }

  lemma OptimKeepsHistory(y: System, h: History, f: Optimizer)
    requires HistoryOk(y, h) && Possible(y, Train(DoOptim(f)))
    ensures HistoryOk(SyncStep(y, Train(DoOptim(f))), Next(h, y.worker, Train(DoOptim(f))))
  {
    var w, o := y.worker, Train(DoOptim(f));
    var c := Change(w.params, f(w.params, w.grads, w.opt).0);
    OptimKeepsSetup(y, f);
    DeltaIsTheStepsChange(w, f);
    BehindAfterStep(h.seen, c, h.filed, h.behind);
  }

  lemma QuietKeepsHistory(y: System, h: History, op: Op)
    requires HistoryOk(y, h) && Possible(y, Train(op)) && !op.DoOptim?
    ensures HistoryOk(SyncStep(y, Train(op)), Next(h, y.worker, Train(op)))
  {
    StepKeepsOk(y.worker, op);
    StepKeepsTraceless(y.worker, op);
    OtherTrainingKeepsWeights(y.worker, op);
  }

  lemma SavedFileIs(w: Worker, pending: Option<Change>, now: Params)
    requires PendingIs(w, pending, now) && SaveDelta(w).Ok?
    ensures FileIs(w, Some(SaveDelta(w).value), pending, now)
  {
  }

  lemma SaveKeepsHistory(y: System, h: History)
    requires HistoryOk(y, h)
    ensures HistoryOk(SyncStep(y, Save), Next(h, y.worker, Save))
  {
    if SaveDelta(y.worker).Ok? {
      SavedFileIs(y.worker, h.pending, Weights(y));
      BehindAfterSave(h.seen, Weights(y), h.filed, h.pending, h.behind);
    }
  }

  /** A received file writes over what the sampler has seen exactly what its step changed. */
  lemma ReceivedOverlays(w: Worker, dtypes: DTypes, seen: Params, now: Params, c: Change)
    requires TrainerOk(w.hf, Sizes(now)) && FormatFits(w.hf, w.fused, now.Keys) && OneType(dtypes, Fusion(now).Keys)
    requires Distinct(w.names) && (forall n :: n in w.names <==> n in now)
    requires SameShapes(seen, now) && ChangeOk(w.names, c, now)
    ensures Fusion(seen).Keys <= dtypes.Keys
    ensures Receive(w.hf, dtypes, Fusion(seen), Pack(DeltaOf(w.hf, w.fused, w.names, c))) ==
            Outcome(Fusion(Overlaid(seen, c.before, c.after)), None)
    ensures SameShapes(Overlaid(seen, c.before, c.after), now) && Fusion(Overlaid(seen, c.before, c.after)).Keys == Fusion(now).Keys
  {
    ShapesGiveSizes(seen, now);
    FusionKeys(seen, now);
    OverlaidShapes(seen, c);
    FusionKeys(Overlaid(seen, c.before, c.after), seen);
    DeltaOverlays(w.hf, w.fused, dtypes, w.names, seen, c.before, c.after);
  }

  lemma SetupAfterReceive(y: System, s: map<Name, Tensor>, delivered: bool)
    requires SetupOk(y) && s.Keys == y.sampler.Keys
    ensures SetupOk(y.(sampler := s, delivered := delivered))
  {
  }

  lemma NextSeen(y: System, h: History, c: Change)
    requires SetupOk(y) && h.filed == Some(c) && SameShapes(h.seen, Weights(y)) && y.sampler == Fusion(h.seen)
    requires FileIs(y.worker, y.file, h.filed, Weights(y))
    ensures var seen := Overlaid(h.seen, c.before, c.after);
            && y.sampler.Keys <= y.dtypes.Keys && Fusion(seen).Keys == y.sampler.Keys && SameShapes(seen, Weights(y))
            && Received(y) == y.(sampler := Fusion(seen), delivered := y.delivered || y.saved)
  {
    ReceivedOverlays(y.worker, y.dtypes, h.seen, Weights(y), c);
  }

  lemma ChangeDelivered(y: System, h: History, c: Change)
    requires HistoryOk(y, h) && h.filed == Some(c)
    ensures y.sampler.Keys <= y.dtypes.Keys && HistoryOk(Received(y), Next(h, y.worker, Deliver))
  {
    NextSeen(y, h, c);
    SetupAfterReceive(y, Fusion(Overlaid(h.seen, c.before, c.after)), y.delivered || y.saved);
    BehindAfterDeliver(h.seen, Weights(y), c, h.behind);
  }

  lemma DeliverKeepsHistory(y: System, h: History)
    requires HistoryOk(y, h)
    ensures HistoryOk(SyncStep(y, Deliver), Next(h, y.worker, Deliver))
  {
    match h.filed
    case None => EmptyFileChangesNothing(y, y.worker.names);
    case Some(c) => ChangeDelivered(y, h, c);
  }

  lemma StepKeepsHistory(y: System, h: History, o: SyncOp)
    requires HistoryOk(y, h) && Possible(y, o)
    ensures HistoryOk(SyncStep(y, o), Next(h, y.worker, o))
  {
    match o
    case Train(op) =>
      if op.DoOptim? {
        OptimKeepsHistory(y, h, op.optimizer);
      } else {
        QuietKeepsHistory(y, h, op);
      }
    case Save => SaveKeepsHistory(y, h);
    case Deliver => DeliverKeepsHistory(y, h);
  }

  lemma {:induction false} RunKeepsHistory(y: System, h: History, ops: seq<SyncOp>)
    requires HistoryOk(y, h) && PossibleRun(y, ops)
    ensures HistoryOk(AnyRun(y, ops), HistoryOf(y, h, ops))
    decreases |ops|
  {
    if ops == [] {
    } else {
      StepKeepsHistory(y, h, ops[0]);
      RunKeepsHistory(SyncStep(y, ops[0]), Next(h, y.worker, ops[0]), ops[1..]);
    }
  }

  // ---------- what the sampler holds ----------

  lemma FreshOk(y: System)
    requires Initial(y)
    ensures HistoryOk(y, Fresh(y))
  {
  }

  /**
    After any run at all, no receive has failed, and the sampler holds the fusion
    of its first weights with the changes of every received step written over
    them in the order of receiving.
  */
  lemma SamplerHoldsWhatItSaw(y: System, ops: seq<SyncOp>)
    requires Initial(y) && PossibleRun(y, ops)
    ensures !AnyRun(y, ops).failed && AnyRun(y, ops).sampler == Fusion(HistoryOf(y, Fresh(y), ops).seen)
  {
    FreshOk(y);
    RunKeepsHistory(y, Fresh(y), ops);
  }

  /** The element of the sampler at which a trainer's element is kept. */
  lemma ElementInSlot(hf: HfConfig, t: Params, n: Name, i: nat)
    requires TrainerOk(hf, Sizes(t)) && n in t && i < |t[n]|
    ensures FusedName(n) in Fusion(t) && OffsetOf(hf, n) + i < |Fusion(t)[FusedName(n)]|
    ensures Fusion(t)[FusedName(n)][OffsetOf(hf, n) + i] == t[n][i]
  {
    FusionNames(hf, t, n);
    SlotOf(hf, t, n);
    InTheMiddle(Before(t, n), t[n], After(t, n), i);
  }

  lemma InTheMiddle(a: Tensor, b: Tensor, c: Tensor, i: nat)
    requires i < |b|
    ensures (a + b + c)[|a| + i] == b[i]
  {
  }

  /** The sampler's element at the place of the trainer's n, i. */
  ghost predicate Holds(hf: HfConfig, sampler: map<Name, Tensor>, n: Name, i: nat, v: Scalar)
  {
    var f, j := FusedName(n), OffsetOf(hf, n) + i;
    f in sampler && j < |sampler[f]| && sampler[f][j] == v
  }

  lemma SeenElement(hf: HfConfig, seen: Params, now: Params, n: Name, i: nat)
    requires TrainerOk(hf, Sizes(now)) && SameShapes(seen, now) && n in now && i < |now[n]|
    ensures n in seen && i < |seen[n]| && Holds(hf, Fusion(seen), n, i, seen[n][i])
  {
    ShapesGiveSizes(seen, now);
    ElementInSlot(hf, seen, n, i);
  }

  lemma HoldsOne(hf: HfConfig, sampler: map<Name, Tensor>, n: Name, i: nat, v: Scalar, x: Scalar)
    requires Holds(hf, sampler, n, i, v)
    ensures Holds(hf, sampler, n, i, x) <==> v == x
  {
  }

  lemma NotBehind(seen: Params, now: Params, filed: Option<Change>, behind: set<Element>, n: Name, i: nat)
    requires BehindOk(seen, now, filed, behind) && Has(now, (n, i)) && Has(seen, (n, i)) && (n, i) !in behind
    ensures seen[n][i] == now[n][i]
  {
    assert SameAt(seen, now, (n, i));
  }

  /**
    An element of the sampler is the trainer's if and only if what the sampler
    has seen of it is, and it is whenever no step changed it or some received
    file has written the value it still has.
  */
  ghost predicate CurrentIff(hf: HfConfig, sampler: map<Name, Tensor>, h: History, now: Params, n: Name, i: nat)
    requires n in now && i < |now[n]|
  {
    && n in h.seen && i < |h.seen[n]|
    && (Holds(hf, sampler, n, i, now[n][i]) <==> h.seen[n][i] == now[n][i])
    && ((n, i) !in h.behind ==> Holds(hf, sampler, n, i, now[n][i]))
  }

  lemma HoldsWhatItSaw(hf: HfConfig, h: History, now: Params, n: Name, i: nat)
    requires TrainerOk(hf, Sizes(now)) && SameShapes(h.seen, now) && BehindOk(h.seen, now, h.filed, h.behind)
    requires n in now && i < |now[n]|
    ensures CurrentIff(hf, Fusion(h.seen), h, now, n, i)
  {
    SeenElement(hf, h.seen, now, n, i);
    HoldsOne(hf, Fusion(h.seen), n, i, h.seen[n][i], now[n][i]);
    if (n, i) !in h.behind {
      NotBehind(h.seen, now, h.filed, h.behind, n, i);
    }
  }

  lemma {:induction false} ElementIsCurrentFrom(y: System, h: History, ops: seq<SyncOp>, n: Name, i: nat)
    requires HistoryOk(y, h) && PossibleRun(y, ops)
    requires n in Weights(AnyRun(y, ops)) && i < |Weights(AnyRun(y, ops))[n]|
    ensures var z := AnyRun(y, ops); CurrentIff(z.worker.hf, z.sampler, HistoryOf(y, h, ops), Weights(z), n, i)
    decreases |ops|
  {
    if ops == [] {
      HoldsWhatItSaw(y.worker.hf, h, Weights(y), n, i);
    } else {
      StepKeepsHistory(y, h, ops[0]);
      ElementIsCurrentFrom(SyncStep(y, ops[0]), Next(h, y.worker, ops[0]), ops[1..], n, i);
    }
  }

  /** So it is after any run at all. */
  lemma ElementIsCurrentIff(y: System, ops: seq<SyncOp>, n: Name, i: nat)
    requires Initial(y) && PossibleRun(y, ops)
    requires n in Weights(AnyRun(y, ops)) && i < |Weights(AnyRun(y, ops))[n]|
    ensures var z := AnyRun(y, ops); CurrentIff(z.worker.hf, z.sampler, HistoryOf(y, Fresh(y), ops), Weights(z), n, i)
  {
    FreshOk(y);
    ElementIsCurrentFrom(y, Fresh(y), ops, n, i);
  }

  /** Different parameters of the same shapes have different fusions. */
  lemma FusionTellsApart(hf: HfConfig, a: Params, b: Params)
    requires TrainerOk(hf, Sizes(b)) && SameShapes(a, b) && Fusion(a) == Fusion(b)
    ensures a == b
  {
    ShapesGiveSizes(a, b);
    forall n | n in a ensures a[n] == b[n] {
      forall i | 0 <= i < |a[n]| ensures a[n][i] == b[n][i] {
        ElementInSlot(hf, a, n, i);
        ElementInSlot(hf, b, n, i);
      }
    }
  }

  /** So the sampler is up to date if and only if the changes it received add up to the trainer's weights. */
  lemma SamplerIsCurrentIff(y: System, ops: seq<SyncOp>)
    requires Initial(y) && PossibleRun(y, ops)
    ensures var z := AnyRun(y, ops);
            z.sampler == Fusion(Weights(z)) <==> HistoryOf(y, Fresh(y), ops).seen == Weights(z)
  {
    FreshOk(y);
    RunKeepsHistory(y, Fresh(y), ops);
    var z, h := AnyRun(y, ops), HistoryOf(y, Fresh(y), ops);
    if z.sampler == Fusion(Weights(z)) {
      FusionTellsApart(z.worker.hf, h.seen, Weights(z));
    }
  }

  // ---------- two steps in one batch ----------

  /** A run from one system and history to another. */
  ghost predicate Leads(y: System, h: History, ops: seq<SyncOp>, z: System, g: History)
  {
    PossibleRun(y, ops) && AnyRun(y, ops) == z && HistoryOf(y, h, ops) == g
  }

  lemma LeadsOneEarlier(y: System, h: History, o: SyncOp, rest: seq<SyncOp>, z: System, g: History)
    requires Possible(y, o) && Leads(SyncStep(y, o), Next(h, y.worker, o), rest, z, g)
    ensures Leads(y, h, [o] + rest, z, g)
  {
    assert ([o] + rest)[1..] == rest;
  }

  lemma FiledIsSeen(y: System, h: History, c: Change) returns (ops: seq<SyncOp>, z: System, g: History)
    requires HistoryOk(y, h) && h.filed == Some(c) && y.saved
    ensures Leads(y, h, ops, z, g) && z.delivered && z.worker == y.worker
    ensures g.seen == Overlaid(h.seen, c.before, c.after)
  {
    NextSeen(y, h, c);
    z, g := SyncStep(y, Deliver), Next(h, y.worker, Deliver);
    LeadsOneEarlier(y, h, Deliver, [], z, g);
    ops := [Deliver] + [];
  }

  lemma SavedIsSeen(y: System, h: History, c: Change) returns (ops: seq<SyncOp>, z: System, g: History)
    requires HistoryOk(y, h) && h.pending == Some(c) && SaveDelta(y.worker).Ok?
    ensures Leads(y, h, ops, z, g) && z.delivered && z.worker == y.worker
    ensures g.seen == Overlaid(h.seen, c.before, c.after)
  {
    SaveKeepsHistory(y, h);
    var rest;
    rest, z, g := FiledIsSeen(SyncStep(y, Save), Next(h, y.worker, Save), c);
    LeadsOneEarlier(y, h, Save, rest, z, g);
    ops := [Save] + rest;
  }

  /** Sleeping, saving and receiving: the sampler sees the pending step. */
  lemma PendingIsSeen(y: System, h: History, c: Change) returns (ops: seq<SyncOp>, z: System, g: History)
    requires HistoryOk(y, h) && h.pending == Some(c) && !y.worker.offloaded && CanSave(y.worker)
    ensures Leads(y, h, ops, z, g) && z.delivered && Weights(z) == Weights(y)
    ensures g.seen == Overlaid(h.seen, c.before, c.after)
  {
    QuietKeepsHistory(y, h, DoSleep);
    WakeUndoesSleep(y.worker);
    var rest;
    rest, z, g := SavedIsSeen(SyncStep(y, Train(DoSleep)), h, c);
    LeadsOneEarlier(y, h, Train(DoSleep), rest, z, g);
    ops := [Train(DoSleep)] + rest;
  }

  lemma RaisedWorker(w: Worker, n: Name)
    requires WorkerOk(w) && !w.offloaded && n in w.params
    ensures StepFits(w, Raising(n))
    ensures var z := OptimStep(w, Raising(n));
            z.params == w.params[n := Raised(w.params[n])] && !z.offloaded && CanSave(z) == CanSave(w)
  {
    RaisingFits(w, n);
  }

  lemma RaisingStep(y: System, h: History, n: Name) returns (z: System, g: History)
    requires HistoryOk(y, h) && !y.worker.offloaded && n in y.worker.params
    ensures Possible(y, Train(DoOptim(Raising(n)))) && z == SyncStep(y, Train(DoOptim(Raising(n))))
    ensures g == Next(h, y.worker, Train(DoOptim(Raising(n)))) && HistoryOk(z, g)
    ensures !z.worker.offloaded && CanSave(z.worker) == CanSave(y.worker) && g.seen == h.seen
    ensures z.worker.params == y.worker.params[n := Raised(y.worker.params[n])]
    ensures g.pending == Some(Change(y.worker.params, z.worker.params))
  {
    RaisedWorker(y.worker, n);
    FusionKeys(h.seen, Weights(y));
    OptimKeepsHistory(y, h, Raising(n));
    z, g := SyncStep(y, Train(DoOptim(Raising(n)))), Next(h, y.worker, Train(DoOptim(Raising(n))));
  }

  /** A change the last step did not make is not in its delta. */
  lemma FirstChangeIsUnseen(t: Params, m: Name, n: Name)
    requires m in t && n in t && m != n && t[m] != []
    ensures var once := t[m := Raised(t[m])];
            Overlaid(t, once, once[n := Raised(once[n])]) != once[n := Raised(once[n])]
  {
    var once := t[m := Raised(t[m])];
    var twice := once[n := Raised(once[n])];
    UntouchedStays(t, once, twice, m);
    assert twice[m][0] != t[m][0];
  }

  lemma UntouchedStays(t: Params, before: Params, after: Params, m: Name)
    requires m in t && m in before && m in after && before[m] == after[m] && |t[m]| == |after[m]|
    ensures Overlaid(t, before, after)[m] == t[m]
  {
  }

  lemma RaisedIsSeen(y: System, h: History, n: Name) returns (ops: seq<SyncOp>, z: System, g: History)
    requires HistoryOk(y, h) && !y.worker.offloaded && CanSave(y.worker) && n in y.worker.params
    ensures Leads(y, h, ops, z, g) && z.delivered
    ensures var t := y.worker.params;
            Weights(z) == t[n := Raised(t[n])] && g.seen == Overlaid(h.seen, t, t[n := Raised(t[n])])
  {
    var y1, h1 := RaisingStep(y, h, n);
    var rest;
    rest, z, g := PendingIsSeen(y1, h1, Change(y.worker.params, y1.worker.params));
    LeadsOneEarlier(y, h, Train(DoOptim(Raising(n))), rest, z, g);
    ops := [Train(DoOptim(Raising(n)))] + rest;
  }

  /** Two steps before one save: the sampler gets the second's change, and never the first's. */
  lemma FirstStepIsLost(y: System, m: Name, n: Name) returns (ops: seq<SyncOp>)
    requires Initial(y) && CanSave(y.worker)
    requires m in y.worker.params && n in y.worker.params && m != n && y.worker.params[m] != []
    ensures PossibleRun(y, ops) && AnyRun(y, ops).delivered && AnyRun(y, ops).sampler != Fusion(Weights(AnyRun(y, ops)))
  {
    FreshOk(y);
    var y1, h1 := RaisingStep(y, Fresh(y), m);
    var rest, z, g := RaisedIsSeen(y1, h1, n);
    LeadsOneEarlier(y, Fresh(y), Train(DoOptim(Raising(m))), rest, z, g);
    ops := [Train(DoOptim(Raising(m)))] + rest;
    FirstChangeIsUnseen(y.worker.params, m, n);
    SamplerIsCurrentIff(y, ops);
  }
}
