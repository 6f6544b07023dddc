/**
  The layout in the configuration's own fields: which configurations determine
  it, how large each parameter is, and where each starts in its fused tensor for
  the trainer and for the sampler.
*/
module LayoutMeaning {
  import opened Wrappers
  import opened SparseDelta
  import opened FusedLayout

  /** Everything given and positive; key-value heads default to the heads, and the head size to their share of the hidden size. */
  lemma CompleteMeans(cfg: HfConfig)
    ensures Complete(cfg) <==>
              && cfg.hidden.Some? && cfg.hidden.value > 0 && cfg.heads.Some? && cfg.heads.value > 0
              && cfg.intermediate.Some? && cfg.intermediate.value > 0
              && (cfg.kvHeads.Some? ==> cfg.kvHeads.value > 0)
              && (if cfg.headDim.Some? then cfg.headDim.value > 0 else cfg.hidden.value / cfg.heads.value > 0)
  {
  }

  /** The number of key-value heads and the size of a head, given or defaulted. */
  ghost predicate Heads(cfg: HfConfig, heads: nat, kvHeads: nat, headDim: nat)
  {
    && cfg.heads == Some(heads) && heads > 0 && cfg.hidden.Some?
    && (if cfg.kvHeads.Some? then cfg.kvHeads == Some(kvHeads) else kvHeads == heads)
    && (if cfg.headDim.Some? then cfg.headDim == Some(headDim) else headDim == cfg.hidden.value / heads)
  }

  lemma AddHeads(heads: nat, kvHeads: nat, headDim: nat, row: nat)
    ensures heads * headDim * row + kvHeads * headDim * row == (heads + kvHeads) * headDim * row
  {
    assert heads * headDim + kvHeads * headDim == (heads + kvHeads) * headDim;
  }

  /** Attention: q, then k, then v, each its heads times the head size times the row. */
  lemma AttentionLayout(cfg: HfConfig, heads: nat, kvHeads: nat, headDim: nat, block: string, kind: Kind)
    requires Complete(cfg) && Heads(cfg, heads, kvHeads, headDim)
    ensures var row := if kind.Bias? then 1 else cfg.hidden.value;
            && PieceNumel(cfg, Q, kind) == heads * headDim * row
            && PieceNumel(cfg, K, kind) == kvHeads * headDim * row && PieceNumel(cfg, V, kind) == kvHeads * headDim * row
            && TrainerOffset(cfg, Piece(block, Q, kind)) == Some(0)
            && TrainerOffset(cfg, Piece(block, K, kind)) == Some(heads * headDim * row)
            && TrainerOffset(cfg, Piece(block, V, kind)) == Some((heads + kvHeads) * headDim * row)
  {
    AddHeads(heads, kvHeads, headDim, if kind.Bias? then 1 else cfg.hidden.value);
  }

  /** The sampler places them by the weights' rows, whatever the kind. */
  lemma AttentionOffsets(cfg: HfConfig, heads: nat, kvHeads: nat, headDim: nat)
    requires Complete(cfg) && Heads(cfg, heads, kvHeads, headDim)
    ensures SamplerOffset(cfg, Q) == Some(0)
    ensures SamplerOffset(cfg, K) == Some(heads * headDim * cfg.hidden.value)
    ensures SamplerOffset(cfg, V) == Some((heads + kvHeads) * headDim * cfg.hidden.value)
  {
    AddHeads(heads, kvHeads, headDim, cfg.hidden.value);
  }

  /** The feed-forward pair: gate, then up, each the intermediate size times the row. */
  lemma GateLayout(cfg: HfConfig, block: string, kind: Kind)
    requires Complete(cfg)
    ensures var row := if kind.Bias? then 1 else cfg.hidden.value;
            && PieceNumel(cfg, Gate, kind) == cfg.intermediate.value * row && PieceNumel(cfg, Up, kind) == cfg.intermediate.value * row
            && TrainerOffset(cfg, Piece(block, Gate, kind)) == Some(0)
            && TrainerOffset(cfg, Piece(block, Up, kind)) == Some(cfg.intermediate.value * row)
    ensures SamplerOffset(cfg, Gate) == Some(0) && SamplerOffset(cfg, Up) == Some(cfg.intermediate.value * cfg.hidden.value)
  {
  }

  /** A grouped-query model: hidden 1024, 16 heads of 64, 8 key-value heads; v starts at three quarters of the fused tensor. */
  lemma GroupedQueryExample(block: string)
    ensures var cfg := HfConfig(Some(1024), Some(16), Some(8), Some(64), Some(4096));
            && Complete(cfg)
            && TrainerOffset(cfg, Piece(block, V, Weight)) == Some(1572864) && SamplerOffset(cfg, V) == Some(1572864)
            && PieceNumel(cfg, V, Weight) == 524288
  {
    AttentionLayout(HfConfig(Some(1024), Some(16), Some(8), Some(64), Some(4096)), 16, 8, 64, block, Weight);
    AttentionOffsets(HfConfig(Some(1024), Some(16), Some(8), Some(64), Some(4096)), 16, 8, 64);
  }

  /** What the trainer remaps without knowing the sizes: nothing. */
  lemma UnknownToTheTrainer(cfg: HfConfig, n: Name)
    ensures TrainerOffset(cfg, n).None? <==>
              !n.Piece? ||
              (if n.part.Gate? || n.part.Up? then !(cfg.hidden.Some? && cfg.hidden.value > 0 && cfg.intermediate.Some? && cfg.intermediate.value > 0)
               else !(&& cfg.hidden.Some? && cfg.hidden.value > 0 && cfg.heads.Some? && cfg.heads.value > 0
                      && (cfg.kvHeads.Some? ==> cfg.kvHeads.value > 0)
                      && (if cfg.headDim.Some? then cfg.headDim.value > 0 else cfg.hidden.value / cfg.heads.value > 0)))
  {
  }

  /** What the sampler cannot place: the sizes it needs are missing. */
  lemma UnknownToTheSampler(cfg: HfConfig, part: Part)
    ensures SamplerOffset(cfg, part).None? <==>
              (if part.Gate? || part.Up? then cfg.hidden.None? || cfg.intermediate.None?
               else cfg.hidden.None? || cfg.heads.None? || (cfg.headDim.None? && cfg.heads.value == 0))
  {
  }

  /** Which trainer parameters the results are about: known sizes, whole groups, and otherwise unfused names. */
  lemma TrainerOkMeans(cfg: HfConfig, sizes: map<Name, nat>, heads: nat, kvHeads: nat, headDim: nat)
    requires Complete(cfg) && Heads(cfg, heads, kvHeads, headDim)
    ensures TrainerOk(cfg, sizes) <==>
              forall n :: n in sizes ==>
                || n.Plain?
                || (n.Piece? &&
                    var row := if n.kind.Bias? then 1 else cfg.hidden.value;
                    if n.part.Gate? || n.part.Up? then
                      sizes[n] == cfg.intermediate.value * row &&
                      Piece(n.block, Gate, n.kind) in sizes && Piece(n.block, Up, n.kind) in sizes
                    else
                      sizes[n] == (if n.part.Q? then heads else kvHeads) * headDim * row &&
                      Piece(n.block, Q, n.kind) in sizes && Piece(n.block, K, n.kind) in sizes && Piece(n.block, V, n.kind) in sizes)
  {
  }

  /** The names: projections of attention fuse into one, gate and up into another, and everything else stays. */
  lemma FusedNames(block: string, part: Part, kind: Kind, other: Name)
    ensures FusedName(Piece(block, part, kind)) == if part == Q || part == K || part == V then Qkv(block, kind) else GateUp(block, kind)
    ensures !other.Piece? ==> FusedName(other) == other
  {
  }

  /** A fused tensor is its parts one after another, and every other parameter is itself. */
  lemma FusionMeans(t: map<Name, Tensor>, block: string, kind: Kind)
    ensures Piece(block, Q, kind) in t && Piece(block, K, kind) in t && Piece(block, V, kind) in t ==>
              Qkv(block, kind) in Fusion(t) &&
              Fusion(t)[Qkv(block, kind)] == t[Piece(block, Q, kind)] + t[Piece(block, K, kind)] + t[Piece(block, V, kind)]
    ensures Piece(block, Gate, kind) in t && Piece(block, Up, kind) in t ==>
              GateUp(block, kind) in Fusion(t) && Fusion(t)[GateUp(block, kind)] == t[Piece(block, Gate, kind)] + t[Piece(block, Up, kind)]
    ensures forall n: Name :: n.Plain? && n in t ==> n in Fusion(t) && Fusion(t)[n] == t[n]
  {
    forall n | n in t ensures FusedName(n) in Fusion(t) {
    }
  }
}
