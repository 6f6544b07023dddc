/**
  Where a trainer's parameters live in the sampler's model. The sampler packs
  the query, key and value projections of a block into one tensor, and the gate
  and up projections into another. A name is kept as its three parts: the path
  before the projection, the projection, and whether it is a weight or a bias.
*/
module FusedLayout {
  import opened Wrappers
  import opened SparseDelta

  datatype Kind = Weight | Bias

  datatype Part = Q | K | V | Gate | Up

  datatype Name =
    | Plain(path: string)
    | Piece(block: string, part: Part, kind: Kind)
    | Qkv(block: string, kind: Kind)
    | GateUp(block: string, kind: Kind)

  /** The model configuration; an attribute may be missing. */
  datatype HfConfig = HfConfig(
    hidden: Option<nat>,
    heads: Option<nat>,
    kvHeads: Option<nat>,
    headDim: Option<nat>,
    intermediate: Option<nat>)

  predicate Truthy(v: Option<nat>)
  {
    v.Some? && v.value > 0
  }

  function KvHeads(cfg: HfConfig): Option<nat>
  {
    if cfg.kvHeads.Some? then cfg.kvHeads else cfg.heads
  }

  function HeadDim(cfg: HfConfig): Option<nat>
  {
    if cfg.headDim.None? && cfg.hidden.Some? && Truthy(cfg.heads)
    then Some(cfg.hidden.value / cfg.heads.value)
    else cfg.headDim
  }

  function FusedName(n: Name): Name
  {
    match n
    case Piece(b, part, kind) => if part.Gate? || part.Up? then GateUp(b, kind) else Qkv(b, kind)
    case _ => n
  }

  // ---------- the trainer's remapping ----------

  predicate TrainerKnowsHeads(cfg: HfConfig)
  {
    Truthy(cfg.hidden) && Truthy(cfg.heads) && Truthy(KvHeads(cfg)) && Truthy(HeadDim(cfg))
  }

  predicate TrainerKnowsGate(cfg: HfConfig)
  {
    Truthy(cfg.hidden) && Truthy(cfg.intermediate)
  }

  /** Elements per output row: a bias has one, a weight the whole hidden size. */
  function Row(cfg: HfConfig, kind: Kind): nat
    requires cfg.hidden.Some?
  {
    if kind.Bias? then 1 else cfg.hidden.value
  }

  function QNumel(cfg: HfConfig, kind: Kind): nat
    requires TrainerKnowsHeads(cfg)
  {
    cfg.heads.value * HeadDim(cfg).value * Row(cfg, kind)
  }

  function KNumel(cfg: HfConfig, kind: Kind): nat
    requires TrainerKnowsHeads(cfg)
  {
    KvHeads(cfg).value * HeadDim(cfg).value * Row(cfg, kind)
  }

  function GateNumel(cfg: HfConfig, kind: Kind): nat
    requires TrainerKnowsGate(cfg)
  {
    cfg.intermediate.value * Row(cfg, kind)
  }

  /** Where a name's elements start in its fused tensor; None leaves the name as it is. */
  function TrainerOffset(cfg: HfConfig, n: Name): Option<nat>
  {
    match n
    case Piece(_, Q, _) => if TrainerKnowsHeads(cfg) then Some(0) else None
    case Piece(_, K, kind) => if TrainerKnowsHeads(cfg) then Some(QNumel(cfg, kind)) else None
    case Piece(_, V, kind) => if TrainerKnowsHeads(cfg) then Some(QNumel(cfg, kind) + KNumel(cfg, kind)) else None
    case Piece(_, Gate, _) => if TrainerKnowsGate(cfg) then Some(0) else None
    case Piece(_, Up, kind) => if TrainerKnowsGate(cfg) then Some(GateNumel(cfg, kind)) else None
    case _ => None
  }

  function Shift(indices: seq<int>, offset: int): seq<int>
  {
    seq(|indices|, k requires 0 <= k < |indices| => indices[k] + offset)
  }

  function Remap(cfg: HfConfig, p: Patch<Name>): Patch<Name>
  {
    match TrainerOffset(cfg, p.name)
    case None => p
    case Some(offset) => Patch(FusedName(p.name), Shift(p.indices, offset), p.values)
  }

  // ---------- the sampler's resolution ----------

  /** The sampler sizes every offset by the weights, whatever the kind. */
  function SamplerOffset(cfg: HfConfig, part: Part): Option<nat>
  {
    if part.Gate? || part.Up? then
      if cfg.hidden.None? || cfg.intermediate.None? then None
      else if part.Gate? then Some(0) else Some(cfg.intermediate.value * cfg.hidden.value)
    else if cfg.hidden.None? || cfg.heads.None? || HeadDim(cfg).None? then None
    else
      var q := cfg.heads.value * HeadDim(cfg).value * cfg.hidden.value;
      if part.Q? then Some(0)
      else if part.K? then Some(q)
      else Some(q + KvHeads(cfg).value * HeadDim(cfg).value * cfg.hidden.value)
  }

  /** A name as it is if the model has it, otherwise its place in a fused parameter. */
  function Resolve(cfg: HfConfig, names: set<Name>, n: Name): Option<(Name, nat)>
  {
    if n in names then Some((n, 0))
    else if n.Piece? && FusedName(n) in names && SamplerOffset(cfg, n.part).Some?
    then Some((FusedName(n), SamplerOffset(cfg, n.part).value))
    else None
  }

  // ---------- the fusion of a trainer's parameters ----------

  ghost predicate Complete(cfg: HfConfig)
  {
    TrainerKnowsHeads(cfg) && TrainerKnowsGate(cfg)
  }

  function PieceNumel(cfg: HfConfig, part: Part, kind: Kind): nat
    requires Complete(cfg)
  {
    match part
    case Q => QNumel(cfg, kind)
    case Gate => GateNumel(cfg, kind)
    case Up => GateNumel(cfg, kind)
    case _ => KNumel(cfg, kind)
  }

  predicate HasGroup(names: set<Name>, block: string, part: Part, kind: Kind)
  {
    if part.Gate? || part.Up?
    then Piece(block, Gate, kind) in names && Piece(block, Up, kind) in names
    else Piece(block, Q, kind) in names && Piece(block, K, kind) in names && Piece(block, V, kind) in names
  }

  /** HuggingFace names, whole groups, and the sizes the configuration implies. */
  ghost predicate TrainerOk(cfg: HfConfig, sizes: map<Name, nat>)
  {
    Complete(cfg) &&
    forall n :: n in sizes ==>
      (n.Plain? || n.Piece?) &&
      (n.Piece? ==> sizes[n] == PieceNumel(cfg, n.part, n.kind) && HasGroup(sizes.Keys, n.block, n.part, n.kind))
  }

  function At(t: map<Name, Tensor>, n: Name): Tensor
  {
    if n in t then t[n] else []
  }

  /** The sampler's tensor of a name: the pieces one after another. */
  function FusedAt(t: map<Name, Tensor>, f: Name): Tensor
  {
    match f
    case Qkv(b, kind) => At(t, Piece(b, Q, kind)) + At(t, Piece(b, K, kind)) + At(t, Piece(b, V, kind))
    case GateUp(b, kind) => At(t, Piece(b, Gate, kind)) + At(t, Piece(b, Up, kind))
    case _ => At(t, f)
  }

  /** The sampler's parameters: the fusion of the trainer's. */
  function Fusion(t: map<Name, Tensor>): map<Name, Tensor>
  {
    var fused := set n | n in t :: FusedName(n);
    map f | f in fused :: FusedAt(t, f)
  }

  /** The pieces in front of a name in its fused tensor. */
  function Before(t: map<Name, Tensor>, n: Name): Tensor
  {
    match n
    case Piece(b, K, kind) => At(t, Piece(b, Q, kind))
    case Piece(b, V, kind) => At(t, Piece(b, Q, kind)) + At(t, Piece(b, K, kind))
    case Piece(b, Up, kind) => At(t, Piece(b, Gate, kind))
    case _ => []
  }

  function After(t: map<Name, Tensor>, n: Name): Tensor
  {
    match n
    case Piece(b, Q, kind) => At(t, Piece(b, K, kind)) + At(t, Piece(b, V, kind))
    case Piece(b, K, kind) => At(t, Piece(b, V, kind))
    case Piece(b, Gate, kind) => At(t, Piece(b, Up, kind))
    case _ => []
  }

  function OffsetOf(cfg: HfConfig, n: Name): nat
  {
    if TrainerOffset(cfg, n).Some? then TrainerOffset(cfg, n).value else 0
  }

  lemma SlotParts(cfg: HfConfig, t: map<Name, Tensor>, n: Name)
    requires TrainerOk(cfg, Sizes(t)) && n in t
    ensures FusedAt(t, FusedName(n)) == Before(t, n) + t[n] + After(t, n)
  {
    assert n in Sizes(t);
  }

  lemma SlotStart(cfg: HfConfig, t: map<Name, Tensor>, n: Name)
    requires TrainerOk(cfg, Sizes(t)) && n in t
    ensures |Before(t, n)| == OffsetOf(cfg, n)
  {
    assert Sizes(t).Keys == t.Keys && n in Sizes(t);
  }

  /** A name's elements are one contiguous part of its fused tensor, at the trainer's offset. */
  lemma SlotOf(cfg: HfConfig, t: map<Name, Tensor>, n: Name)
    requires TrainerOk(cfg, Sizes(t)) && n in t
    ensures FusedAt(t, FusedName(n)) == Before(t, n) + t[n] + After(t, n)
    ensures |Before(t, n)| == OffsetOf(cfg, n)
    ensures OffsetOf(cfg, n) + |t[n]| <= |FusedAt(t, FusedName(n))|
  {
    SlotParts(cfg, t, n);
    SlotStart(cfg, t, n);
  }

  /** The slots of a fused tensor's names leave no gap. */
  lemma SlotsCover(cfg: HfConfig, t: map<Name, Tensor>, n: Name, j: nat) returns (m: Name)
    requires TrainerOk(cfg, Sizes(t)) && n in t && j < |FusedAt(t, FusedName(n))|
    ensures m in t && FusedName(m) == FusedName(n) && OffsetOf(cfg, m) <= j < OffsetOf(cfg, m) + |t[m]|
  {
    assert Sizes(t).Keys == t.Keys && n in Sizes(t);
    m := n;
    if n.Piece? && (n.part.Gate? || n.part.Up?) {
      m := Piece(n.block, if j < |At(t, Piece(n.block, Gate, n.kind))| then Gate else Up, n.kind);
    } else if n.Piece? {
      var q, k := |At(t, Piece(n.block, Q, n.kind))|, |At(t, Piece(n.block, K, n.kind))|;
      m := Piece(n.block, if j < q then Q else if j < q + k then K else V, n.kind);
    }
    assert m in Sizes(t);
    SlotOf(cfg, t, m);
  }

  /** The slots of two names that share a fused tensor do not overlap. */
  lemma SlotsDisjoint(cfg: HfConfig, t: map<Name, Tensor>, m: Name, n: Name)
    requires TrainerOk(cfg, Sizes(t)) && m in t && n in t && m != n && FusedName(m) == FusedName(n)
    ensures OffsetOf(cfg, m) + |t[m]| <= OffsetOf(cfg, n) || OffsetOf(cfg, n) + |t[n]| <= OffsetOf(cfg, m)
  {
    assert m in Sizes(t) && n in Sizes(t);
    assert m.Piece? && n.Piece? && m.part != n.part;
  }

  lemma NeighboursOfUpdate(t: map<Name, Tensor>, n: Name, x: Tensor)
    ensures Before(t[n := x], n) == Before(t, n) && After(t[n := x], n) == After(t, n)
  {
  }

  lemma SizesOfUpdate(t: map<Name, Tensor>, n: Name, x: Tensor)
    requires n in t && |x| == |t[n]|
    ensures Sizes(t[n := x]) == Sizes(t)
  {
  }

  lemma OtherFusedTensor(t: map<Name, Tensor>, n: Name, x: Tensor, f: Name)
    requires n in t && (n.Plain? || n.Piece?) && f != FusedName(n) && !f.Piece?
    ensures FusedAt(t[n := x], f) == FusedAt(t, f)
  {
  }

  /** Changing one parameter changes exactly its slot of the fusion. */
  lemma FusionOfUpdate(cfg: HfConfig, t: map<Name, Tensor>, n: Name, x: Tensor)
    requires TrainerOk(cfg, Sizes(t)) && n in t && |x| == |t[n]|
    ensures FusedName(n) in Fusion(t) && Fusion(t)[FusedName(n)] == Before(t, n) + t[n] + After(t, n)
    ensures Fusion(t[n := x]) == Fusion(t)[FusedName(n) := Before(t, n) + x + After(t, n)]
  {
    var t' := t[n := x];
    SizesOfUpdate(t, n, x);
    SlotOf(cfg, t, n);
    SlotOf(cfg, t', n);
    NeighboursOfUpdate(t, n, x);
    assert t'.Keys == t.Keys;
    assert Fusion(t').Keys == Fusion(t).Keys;
    assert n in Sizes(t);
    forall f | f in Fusion(t) && f != FusedName(n) ensures FusedAt(t', f) == FusedAt(t, f) {
      OtherFusedTensor(t, n, x, f);
    }
  }

  // ---------- two formats, one patch ----------

  lemma {:induction false} ShiftedCopy(t: Tensor, indices: seq<int>, offset: int, values: seq<Scalar>)
    requires |indices| == |values| && InBounds(indices, offset, |t|)
    ensures InBounds(Shift(indices, offset), 0, |t|)
    ensures IndexCopy(t, Shift(indices, offset), 0, values) == IndexCopy(t, indices, offset, values)
    decreases |indices|
  {
    if indices == [] {
    } else {
      assert Shift(indices, offset)[1..] == Shift(indices[1..], offset);
      ShiftedCopy(t[indices[0] + offset := values[0]], indices[1..], offset, values[1..]);
    }
  }

  /**
    For weights, a native patch that the sampler resolves and a patch the trainer
    remapped write the same values to the same positions of the same parameter.
  */
  lemma NativeAndFusedAgree(cfg: HfConfig, names: set<Name>, n: Name, indices: seq<int>)
    requires Complete(cfg) && n.Piece? && n.kind.Weight? && n !in names && FusedName(n) in names
    ensures Resolve(cfg, names, n) == Some((FusedName(n), OffsetOf(cfg, n)))
    ensures Resolve(cfg, names, Remap(cfg, Patch(n, indices, [])).name) == Some((FusedName(n), 0))
    ensures Remap(cfg, Patch(n, indices, [])).indices == Shift(indices, OffsetOf(cfg, n))
  {
  }

  lemma TimesOne(a: nat, b: nat)
    requires a > 0
    ensures a * b == a * 1 <==> b == 1
  {
  }

  /** A native bias lands in its slot exactly when it starts the fused tensor or the hidden size is one. */
  lemma NativeOffsetIsRightWhen(cfg: HfConfig, n: Name)
    requires Complete(cfg) && n.Piece?
    ensures SamplerOffset(cfg, n.part) == Some(OffsetOf(cfg, n)) <==>
            n.kind.Weight? || n.part.Q? || n.part.Gate? || cfg.hidden.value == 1
  {
    var h, hd, kv := cfg.heads.value, HeadDim(cfg).value, KvHeads(cfg).value;
    assert h * hd > 0 && kv * hd > 0;
    TimesOne(h * hd, cfg.hidden.value);
    TimesOne(kv * hd, cfg.hidden.value);
    TimesOne(h * hd + kv * hd, cfg.hidden.value);
    TimesOne(cfg.intermediate.value, cfg.hidden.value);
  }
}
