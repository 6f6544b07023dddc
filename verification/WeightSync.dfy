/**
  The whole path of a weight update: the trainer's step, its delta, the file,
  and the sampler's patch in place.
*/
module WeightSync {
  import opened Wrappers
  import opened SparseDelta
  import opened FusedLayout
  import opened TrainerOffload
  import opened DeltaReceive

  // ---------- one patch ----------

  /**
    What the format asks of the layout: native names are resolved with offsets
    sized for weights, so every piece's slot must start there.
  */
  ghost predicate FormatFits(cfg: HfConfig, fused: bool, names: set<Name>)
  {
    !fused ==> forall n :: n in names && n.Piece? ==> SamplerOffset(cfg, n.part) == Some(OffsetOf(cfg, n))
  }

  function Sent(cfg: HfConfig, fused: bool, p: Patch<Name>): Patch<Name>
  {
    if fused then Remap(cfg, p) else p
  }

  lemma FusionNames(cfg: HfConfig, t: Params, n: Name)
    requires TrainerOk(cfg, Sizes(t)) && n in t
    ensures FusedName(n) in Fusion(t) && (n.Piece? ==> n !in Fusion(t))
  {
    assert Sizes(t).Keys == t.Keys && n in Sizes(t);
  }

  /** Either format reaches the same parameter, and the same positions of it. */
  lemma SentResolves(cfg: HfConfig, fused: bool, t: Params, p: Patch<Name>)
    requires TrainerOk(cfg, Sizes(t)) && FormatFits(cfg, fused, t.Keys) && p.name in t
    ensures var q := Sent(cfg, fused, p);
            |q.indices| == |p.indices| && q.values == p.values && Resolve(cfg, Fusion(t).Keys, q.name).Some? &&
            var (target, offset) := Resolve(cfg, Fusion(t).Keys, q.name).value;
            target == FusedName(p.name) &&
            ((offset == OffsetOf(cfg, p.name) && q.indices == p.indices) ||
             (offset == 0 && q.indices == Shift(p.indices, OffsetOf(cfg, p.name))))
  {
    assert p.name in Sizes(t);
    FusionNames(cfg, t, p.name);
  }

  /** One parameter's patch, sent and resolved, overlays exactly that parameter's slot of the fusion. */
  lemma SentPatch(cfg: HfConfig, fused: bool, t: Params, n: Name, before: Tensor, x: Tensor)
    returns (w: Write<Name>)
    requires TrainerOk(cfg, Sizes(t)) && FormatFits(cfg, fused, t.Keys)
    requires n in t && |x| == |before| == |t[n]| && Entry(n, before, x) != []
    ensures var q := Sent(cfg, fused, Entry(n, before, x)[0]);
            q.indices != [] && Resolve(cfg, Fusion(t).Keys, q.name) == Some((w.name, w.offset)) &&
            q.indices == w.indices && q.values == w.values
    ensures w.name in Fusion(t) && WriteOk(Sizes(Fusion(t)), w)
    ensures Fusion(t[n := Overlay(t[n], before, x, |x|)]) ==
            Fusion(t)[w.name := IndexCopy(Fusion(t)[w.name], w.indices, w.offset, w.values)]
  {
    var p := Entry(n, before, x)[0];
    var q := Sent(cfg, fused, p);
    SentResolves(cfg, fused, t, p);
    var (target, offset) := Resolve(cfg, Fusion(t).Keys, q.name).value;
    w := Write(target, offset, q.indices, q.values);
    FusionOfUpdate(cfg, t, n, Overlay(t[n], before, x, |x|));
    SlotOf(cfg, t, n);
    PatchOverlaysPart(Fusion(t)[target], Before(t, n), t[n], before, x, After(t, n));
    ShiftedCopy(Fusion(t)[target], p.indices, OffsetOf(cfg, n), p.values);
  }

  // ---------- a whole delta ----------

  lemma {:induction false} ResolveOneMore(cfg: HfConfig, sizes: map<Name, nat>, patches: seq<Patch<Name>>, p: Patch<Name>, w: Write<Name>)
    requires ResolveAll(cfg, sizes, patches).Ok? && p.indices != [] && w.name in sizes
    requires Resolve(cfg, sizes.Keys, p.name) == Some((w.name, w.offset)) && p.indices == w.indices && p.values == w.values
    requires InBounds(w.indices, w.offset, sizes[w.name])
    ensures ResolveAll(cfg, sizes, patches + [p]) == Ok(ResolveAll(cfg, sizes, patches).value + [w])
    decreases |patches|
  {
    var all := patches + [p];
    if patches == [] {
      assert all[0] == p && all[1..] == [];
      assert ResolveAll(cfg, sizes, all[1..]) == Ok([]) && [w] + [] == [w] && [] + [w] == [w];
    } else {
      assert all[0] == patches[0] && all[1..] == patches[1..] + [p];
      ResolveOneMore(cfg, sizes, patches[1..], p, w);
      var rest := ResolveAll(cfg, sizes, patches[1..]).value;
      if patches[0].indices != [] {
        var first := ResolveAll(cfg, sizes, patches).value[0];
        assert [first] + (rest + [w]) == ([first] + rest) + [w];
      }
    }
  }

  /** A parameter with what changed in it written over it. */
  function OverlaidAt(t: Params, before: Params, after: Params, n: Name): Tensor
    requires n in t
  {
    if n in before && n in after && |before[n]| == |after[n]| == |t[n]| then Overlay(t[n], before[n], after[n], |after[n]|) else t[n]
  }

  /** Any parameters with what a step changed written over them. */
  function Overlaid(t: Params, before: Params, after: Params): Params
  {
    map n | n in t :: OverlaidAt(t, before, after, n)
  }

  /** The first k parameters overlaid, the rest as they were. */
  function Mixed(names: seq<Name>, k: nat, t: Params, before: Params, after: Params): Params
    requires k <= |names| && Comparable(names, k, t, before)
  {
    if k == 0 then t
    else Mixed(names, k - 1, t, before, after)[names[k - 1] := OverlaidAt(t, before, after, names[k - 1])]
  }

  lemma {:induction false} MixedAt(names: seq<Name>, k: nat, t: Params, before: Params, after: Params)
    requires k <= |names| && Comparable(names, k, t, before) && Distinct(names)
    ensures var m := Mixed(names, k, t, before, after);
            && m.Keys == t.Keys && Sizes(m) == Sizes(t)
            && (forall i :: 0 <= i < k ==> names[i] in t && m[names[i]] == OverlaidAt(t, before, after, names[i]))
            && (forall i :: k <= i < |names| && names[i] in t ==> m[names[i]] == t[names[i]])
  {
    if k == 0 {
    } else {
      MixedAt(names, k - 1, t, before, after);
    }
  }

  lemma MixedAll(names: seq<Name>, t: Params, before: Params, after: Params)
    requires Comparable(names, |names|, t, before) && Distinct(names) && forall n :: n in t ==> n in names
    ensures Mixed(names, |names|, t, before, after) == Overlaid(t, before, after)
  {
    MixedAt(names, |names|, t, before, after);
  }

  function SentEntry(cfg: HfConfig, fused: bool, n: Name, before: Tensor, after: Tensor): seq<Patch<Name>>
    requires |before| == |after|
  {
    var entry := Entry(n, before, after);
    if entry == [] then [] else [Sent(cfg, fused, entry[0])]
  }

  /** The delta of the first k parameters, in the format it is sent. */
  function SentDelta(cfg: HfConfig, fused: bool, names: seq<Name>, k: nat, before: Params, after: Params): seq<Patch<Name>>
    requires k <= |names| && Comparable(names, k, before, after)
  {
    if k == 0 then []
    else
      SentDelta(cfg, fused, names, k - 1, before, after) +
      SentEntry(cfg, fused, names[k - 1], before[names[k - 1]], after[names[k - 1]])
  }

  lemma FormattedOneMore(cfg: HfConfig, fused: bool, delta: seq<Patch<Name>>, entry: seq<Patch<Name>>)
    requires |entry| <= 1
    ensures Formatted(cfg, fused, delta + entry) ==
            Formatted(cfg, fused, delta) + (if entry == [] then [] else [Sent(cfg, fused, entry[0])])
  {
  }

  lemma {:induction false} SentIsFormatted(cfg: HfConfig, fused: bool, names: seq<Name>, k: nat, before: Params, after: Params)
    requires k <= |names| && Comparable(names, k, before, after)
    ensures SentDelta(cfg, fused, names, k, before, after) == Formatted(cfg, fused, Delta(names, k, before, after))
  {
    if k == 0 {
    } else {
      var n := names[k - 1];
      var delta, entry := Delta(names, k - 1, before, after), Entry(n, before[n], after[n]);
      SentIsFormatted(cfg, fused, names, k - 1, before, after);
      FormattedOneMore(cfg, fused, delta, entry);
      assert Delta(names, k, before, after) == delta + entry;
      assert SentDelta(cfg, fused, names, k, before, after) ==
             SentDelta(cfg, fused, names, k - 1, before, after) + SentEntry(cfg, fused, n, before[n], after[n]);
    }
  }

  lemma NothingToOverlay(t: Params, n: Name, before: Tensor, x: Tensor)
    requires n in t && |x| == |before| == |t[n]| && Entry(n, before, x) == []
    ensures t[n := Overlay(t[n], before, x, |x|)] == t
  {
    PatchOverlays(t[n], before, x);
  }

  lemma SameKeys(s: map<Name, Tensor>, t: map<Name, Tensor>)
    requires Sizes(s) == Sizes(t)
    ensures Sizes(s).Keys == s.Keys == t.Keys
  {
    assert Sizes(s).Keys == s.Keys && Sizes(t).Keys == t.Keys;
  }

  /** One more parameter: resolving its patch too keeps the sampler the fusion of the parameters overlaid so far. */
  lemma NextPatch(cfg: HfConfig, fused: bool, s: map<Name, Tensor>, sizes: map<Name, nat>, names: set<Name>,
                  patches: seq<Patch<Name>>, writes: seq<Write<Name>>, t: Params, n: Name, before: Tensor, x: Tensor)
    returns (more: seq<Write<Name>>)
    requires AllOk(Sizes(s), writes) && ResolveAll(cfg, Sizes(s), patches) == Ok(writes) && Apply(s, writes) == Fusion(t)
    requires TrainerOk(cfg, sizes) && FormatFits(cfg, fused, names) && Sizes(t) == sizes && t.Keys == names
    requires n in t && |x| == |before| == |t[n]|
    ensures ResolveAll(cfg, Sizes(s), patches + SentEntry(cfg, fused, n, before, x)) == Ok(more) && AllOk(Sizes(s), more)
    ensures Apply(s, more) == Fusion(t[n := Overlay(t[n], before, x, |x|)])
  {
    if Entry(n, before, x) == [] {
      NothingToOverlay(t, n, before, x);
      assert patches + [] == patches;
      more := writes;
    } else {
      var w := SentPatch(cfg, fused, t, n, before, x);
      SameKeys(s, Fusion(t));
      ApplyAppend(s, writes, w);
      ResolveOneMore(cfg, Sizes(s), patches, Sent(cfg, fused, Entry(n, before, x)[0]), w);
      more := writes + [w];
    }
  }

  /** Whatever was resolved so far, applied to a fusion, is the fusion of the parameters overlaid so far. */
  lemma {:induction false} PrefixPatches(cfg: HfConfig, fused: bool, names: seq<Name>, k: nat, t: Params, before: Params, after: Params)
    returns (writes: seq<Write<Name>>)
    requires k <= |names| && Comparable(names, k, t, before) && Comparable(names, k, before, after) && Distinct(names)
    requires TrainerOk(cfg, Sizes(t)) && FormatFits(cfg, fused, t.Keys)
    ensures AllOk(Sizes(Fusion(t)), writes)
    ensures ResolveAll(cfg, Sizes(Fusion(t)), SentDelta(cfg, fused, names, k, before, after)) == Ok(writes)
    ensures Apply(Fusion(t), writes) == Fusion(Mixed(names, k, t, before, after))
  {
    if k == 0 {
      writes := [];
    } else {
      var n := names[k - 1];
      var earlier := PrefixPatches(cfg, fused, names, k - 1, t, before, after);
      var mixed, sent := Mixed(names, k - 1, t, before, after), SentDelta(cfg, fused, names, k - 1, before, after);
      MixedAt(names, k - 1, t, before, after);
      assert mixed[n] == t[n];
      writes := NextPatch(cfg, fused, Fusion(t), Sizes(t), t.Keys, sent, earlier, mixed, n, before[n], after[n]);
      assert Mixed(names, k, t, before, after) == mixed[n := Overlay(t[n], before[n], after[n], |after[n]|)];
      assert SentDelta(cfg, fused, names, k, before, after) == sent + SentEntry(cfg, fused, n, before[n], after[n]);
    }
  }

  // ---------- through the file ----------

  lemma {:induction false} SentIsWellFormed(cfg: HfConfig, fused: bool, names: seq<Name>, k: nat, before: Params, after: Params)
    requires k <= |names| && Comparable(names, k, before, after)
    ensures WellFormed(SentDelta(cfg, fused, names, k, before, after))
  {
    if k == 0 {
    } else {
      SentIsWellFormed(cfg, fused, names, k - 1, before, after);
    }
  }

  lemma {:induction false} NothingConcatenated<T>(parts: seq<seq<T>>, k: nat)
    requires Concat(parts) == [] && k < |parts|
    ensures parts[k] == []
  {
    if k == 0 {
    } else {
      NothingConcatenated(parts[1..], k - 1);
    }
  }

  lemma {:induction false} NothingResolved(cfg: HfConfig, sizes: map<Name, nat>, patches: seq<Patch<Name>>)
    requires forall k :: 0 <= k < |patches| ==> patches[k].indices == []
    ensures ResolveAll(cfg, sizes, patches) == Ok([])
  {
    if patches == [] {
    } else {
      NothingResolved(cfg, sizes, patches[1..]);
    }
  }

  ghost predicate OneType(dtypes: DTypes, names: set<Name>)
  {
    names <= dtypes.Keys && forall m, n :: m in names && n in names ==> dtypes[m] == dtypes[n]
  }

  /** With one type throughout, a file that resolves is applied completely. */
  lemma ReceiveApplies(cfg: HfConfig, dtypes: DTypes, s: map<Name, Tensor>, delta: seq<Patch<Name>>, writes: seq<Write<Name>>)
    requires WellFormed(delta) && OneType(dtypes, s.Keys)
    requires ResolveAll(cfg, Sizes(s), delta) == Ok(writes) && AllOk(Sizes(s), writes)
    ensures Receive(cfg, dtypes, s, Pack(delta)) == Outcome(Apply(s, writes), None)
  {
    ParseUndoesPack(delta);
    if Pack(delta).indices == [] {
      var parts := seq(|delta|, k requires 0 <= k < |delta| => delta[k].indices);
      forall k | 0 <= k < |delta| ensures delta[k].indices == [] {
        NothingConcatenated(parts, k);
        assert parts[k] == delta[k].indices;
      }
      NothingResolved(cfg, Sizes(s), delta);
    } else {
      assert forall i :: 0 <= i < |writes| ==> WriteOk(Sizes(s), writes[i]) && writes[i].name in Sizes(s);
      assert Sizes(s).Keys == s.Keys;
      var k := UniformPrefix(dtypes, writes, 0);
      assert k == |writes| && writes[..k] == writes;
    }
  }

  /**
    The diff, the remapping, the file, the resolution and the in-place patch
    together write what a step changed over whatever the sampler is the fusion of.
  */
  lemma DeltaOverlays(cfg: HfConfig, fused: bool, dtypes: DTypes, names: seq<Name>, t: Params, before: Params, after: Params)
    requires Distinct(names) && (forall n :: n in names <==> n in t) && SameShapes(t, before) && SameShapes(before, after)
    requires TrainerOk(cfg, Sizes(t)) && FormatFits(cfg, fused, t.Keys) && OneType(dtypes, Fusion(t).Keys)
    ensures Receive(cfg, dtypes, Fusion(t), Pack(Formatted(cfg, fused, StepDelta(names, before, after)))) ==
            Outcome(Fusion(Overlaid(t, before, after)), None)
  {
    AllComparable(names, |names|, t, before);
    AllComparable(names, |names|, before, after);
    var delta := SentDelta(cfg, fused, names, |names|, before, after);
    SentIsFormatted(cfg, fused, names, |names|, before, after);
    SentIsWellFormed(cfg, fused, names, |names|, before, after);
    var writes := PrefixPatches(cfg, fused, names, |names|, t, before, after);
    MixedAll(names, t, before, after);
    ReceiveApplies(cfg, dtypes, Fusion(t), delta, writes);
  }

  lemma OverlaidOld(before: Params, after: Params)
    requires SameShapes(before, after)
    ensures Overlaid(before, before, after) == after
  {
    forall n | n in before ensures Overlaid(before, before, after)[n] == after[n] {
      OverlayOfOld(before[n], after[n]);
    }
  }

  /** So they turn the fusion of the old parameters into the fusion of the new. */
  lemma DeltaCarriesTheStep(cfg: HfConfig, fused: bool, dtypes: DTypes, names: seq<Name>, before: Params, after: Params)
    requires Distinct(names) && (forall n :: n in names <==> n in before) && SameShapes(before, after)
    requires TrainerOk(cfg, Sizes(before)) && FormatFits(cfg, fused, before.Keys) && OneType(dtypes, Fusion(before).Keys)
    ensures Receive(cfg, dtypes, Fusion(before), Pack(Formatted(cfg, fused, StepDelta(names, before, after)))) ==
            Outcome(Fusion(after), None)
  {
    DeltaOverlays(cfg, fused, dtypes, names, before, before, after);
    OverlaidOld(before, after);
  }

  // ---------- what a skipped delta loses ----------

  lemma OverlayIsNewIff(t: Tensor, before: Tensor, after: Tensor)
    requires |t| == |before| == |after|
    ensures Overlay(t, before, after, |after|) == after <==>
            forall i :: 0 <= i < |after| ==> before[i] != after[i] || t[i] == after[i]
  {
    var r := Overlay(t, before, after, |after|);
    if i :| 0 <= i < |after| && !(before[i] != after[i] || t[i] == after[i]) {
      assert r[i] != after[i];
    } else {
      assert r == after;
    }
  }

  /**
    A sampler that missed a step and receives the next delta is up to date
    exactly where the last step changed it or it happened to be right already.
  */
  lemma SkippedDeltaIff(sampler: Tensor, before: Tensor, after: Tensor)
    requires |sampler| == |before| == |after|
    ensures InBounds(Changed(before, after, |after|), 0, |after|)
    ensures IndexCopy(sampler, Changed(before, after, |after|), 0, Select(after, Changed(before, after, |after|))) == after <==>
            forall i :: 0 <= i < |after| ==> before[i] != after[i] || sampler[i] == after[i]
  {
    PatchOverlays(sampler, before, after);
    OverlayIsNewIff(sampler, before, after);
  }

  /** Two steps, one delta: the first step's change never arrives. */
  lemma SkippedDeltaIsLost()
    ensures exists a: Tensor, b: Tensor, c: Tensor :: |a| == |b| == |c| && InBounds(Changed(b, c, |c|), 0, |c|) &&
              IndexCopy(a, Changed(b, c, |c|), 0, Select(c, Changed(b, c, |c|))) != c
  {
    var a, b, c := [Scalar(0), Scalar(0)], [Scalar(1), Scalar(0)], [Scalar(1), Scalar(1)];
    SkippedDeltaIff(a, b, c);
    assert b[0] == c[0] && a[0] != c[0];
    assert |a| == |b| == |c|;
  }
}
