/**
  Sparse deltas of flat tensors: which elements changed, writing them in place,
  and the flat file they travel in. Tensor values are opaque; only their
  equality is used.
*/
module SparseDelta {
  import opened Wrappers

  datatype Scalar = Scalar(bits: nat)

  type Tensor = seq<Scalar>

  predicate InBounds(indices: seq<int>, offset: int, numel: nat)
  {
    forall k :: 0 <= k < |indices| ==> 0 <= indices[k] + offset < numel
  }

  // ---------- the difference of two tensors ----------

  /** The first n positions at which two tensors differ, in increasing order. */
  function Changed(before: Tensor, after: Tensor, n: nat): seq<int>
    requires n <= |before| == |after|
  {
    if n == 0 then []
    else Changed(before, after, n - 1) + (if before[n - 1] != after[n - 1] then [n - 1] else [])
  }

  /** The values found at some positions. */
  function Select(t: Tensor, indices: seq<int>): seq<Scalar>
    requires InBounds(indices, 0, |t|)
  {
    seq(|indices|, k requires 0 <= k < |indices| => t[indices[k]])
  }

  lemma {:induction false} ChangedInRange(before: Tensor, after: Tensor, n: nat)
    requires n <= |before| == |after|
    ensures forall i :: i in Changed(before, after, n) <==> 0 <= i < n && before[i] != after[i]
  {
    if n == 0 {
    } else {
      ChangedInRange(before, after, n - 1);
    }
  }

  // ---------- writing elements in place ----------

  /** index_copy_: one element after another. */
  function IndexCopy(t: Tensor, indices: seq<int>, offset: int, values: seq<Scalar>): (r: Tensor)
    requires |indices| == |values| && InBounds(indices, offset, |t|)
    ensures |r| == |t|
    decreases |indices|
  {
    if indices == [] then t
    else
      IndexCopy(t[indices[0] + offset := values[0]], indices[1..], offset, values[1..])
  }

  lemma {:induction false} IndexCopyAppend(t: Tensor, i1: seq<int>, i2: seq<int>, offset: int, v1: seq<Scalar>, v2: seq<Scalar>)
    requires |i1| == |v1| && |i2| == |v2|
    requires InBounds(i1, offset, |t|) && InBounds(i2, offset, |t|) && InBounds(i1 + i2, offset, |t|)
    ensures IndexCopy(t, i1 + i2, offset, v1 + v2) == IndexCopy(IndexCopy(t, i1, offset, v1), i2, offset, v2)
    decreases |i1|
  {
    if i1 == [] {
      assert i1 + i2 == i2 && v1 + v2 == v2;
    } else {
      assert (i1 + i2)[1..] == i1[1..] + i2 && (v1 + v2)[1..] == v1[1..] + v2;
      IndexCopyAppend(t[i1[0] + offset := v1[0]], i1[1..], i2, offset, v1[1..], v2);
    }
  }

  /** Some tensor with what changed in the first n positions written over it. */
  function Overlay(t: Tensor, before: Tensor, after: Tensor, n: nat): (r: Tensor)
    requires n <= |before| == |after| == |t|
    ensures |r| == |t|
  {
    seq(|t|, i requires 0 <= i < |t| => if i < n && before[i] != after[i] then after[i] else t[i])
  }

  lemma OverlayNext(a: Tensor, t: Tensor, before: Tensor, after: Tensor, b: Tensor, n: nat)
    requires n < |before| == |after| == |t|
    ensures before[n] != after[n] ==>
              (a + Overlay(t, before, after, n) + b)[|a| + n := after[n]] == a + Overlay(t, before, after, n + 1) + b
    ensures before[n] == after[n] ==> Overlay(t, before, after, n) == Overlay(t, before, after, n + 1)
  {
  }

  lemma ChangedFits(before: Tensor, after: Tensor, n: nat, offset: nat, numel: nat)
    requires n <= |before| == |after| && offset + |before| <= numel
    ensures InBounds(Changed(before, after, n), offset, numel)
  {
    ChangedInRange(before, after, n);
    var indices := Changed(before, after, n);
    assert forall k :: 0 <= k < |indices| ==> indices[k] in indices;
  }

  lemma OneMoreChange(t: Tensor, before: Tensor, after: Tensor, n: nat, offset: nat)
    requires n < |before| == |after| && offset + |before| <= |t| && before[n] != after[n]
    requires InBounds(Changed(before, after, n), 0, |after|) && InBounds(Changed(before, after, n), offset, |t|)
    requires InBounds(Changed(before, after, n + 1), 0, |after|) && InBounds(Changed(before, after, n + 1), offset, |t|)
    ensures IndexCopy(t, Changed(before, after, n + 1), offset, Select(after, Changed(before, after, n + 1))) ==
            IndexCopy(t, Changed(before, after, n), offset, Select(after, Changed(before, after, n)))[n + offset := after[n]]
  {
    var earlier := Changed(before, after, n);
    assert Select(after, Changed(before, after, n + 1)) == Select(after, earlier) + [after[n]];
    IndexCopyAppend(t, earlier, [n], offset, Select(after, earlier), [after[n]]);
    var r := IndexCopy(t, earlier, offset, Select(after, earlier));
    assert IndexCopy(r, [n], offset, [after[n]]) == r[n + offset := after[n]];
  }

  lemma {:induction false} PatchPrefix(a: Tensor, t: Tensor, before: Tensor, after: Tensor, b: Tensor, n: nat)
    requires n <= |before| == |after| == |t|
    ensures InBounds(Changed(before, after, n), 0, |after|) && InBounds(Changed(before, after, n), |a|, |a + t + b|)
    ensures IndexCopy(a + t + b, Changed(before, after, n), |a|, Select(after, Changed(before, after, n))) ==
            a + Overlay(t, before, after, n) + b
  {
    ChangedFits(before, after, n, 0, |after|);
    ChangedFits(before, after, n, |a|, |a + t + b|);
    if n == 0 {
      assert Overlay(t, before, after, 0) == t;
    } else {
      PatchPrefix(a, t, before, after, b, n - 1);
      OverlayNext(a, t, before, after, b, n - 1);
      if before[n - 1] != after[n - 1] {
        OneMoreChange(a + t + b, before, after, n - 1, |a|);
      } else {
        assert Changed(before, after, n) == Changed(before, after, n - 1);
      }
    }
  }

  /** Writing what changed over any part of a larger tensor overlays that part and nothing else. */
  lemma PatchOverlaysPart(whole: Tensor, a: Tensor, t: Tensor, before: Tensor, after: Tensor, b: Tensor)
    requires |before| == |after| == |t| && whole == a + t + b
    ensures InBounds(Changed(before, after, |after|), 0, |after|) && InBounds(Changed(before, after, |after|), |a|, |whole|)
    ensures IndexCopy(whole, Changed(before, after, |after|), |a|, Select(after, Changed(before, after, |after|))) ==
            a + Overlay(t, before, after, |after|) + b
  {
    PatchPrefix(a, t, before, after, b, |after|);
  }

  /** Over the old tensor itself, the overlay is the new one. */
  lemma OverlayOfOld(before: Tensor, after: Tensor)
    requires |before| == |after|
    ensures Overlay(before, before, after, |after|) == after
  {
  }

  /** So inside a larger tensor the old part is replaced by the new one. */
  lemma PatchReplacesPart(whole: Tensor, a: Tensor, before: Tensor, after: Tensor, b: Tensor)
    requires |before| == |after| && whole == a + before + b
    ensures InBounds(Changed(before, after, |after|), 0, |after|) && InBounds(Changed(before, after, |after|), |a|, |whole|)
    ensures IndexCopy(whole, Changed(before, after, |after|), |a|, Select(after, Changed(before, after, |after|))) == a + after + b
  {
    PatchOverlaysPart(whole, a, before, before, after, b);
    OverlayOfOld(before, after);
  }

  lemma Padded(none: Tensor, t: Tensor)
    requires |none| == 0
    ensures t == none + t + none
  {
  }

  lemma PatchAlone(none: Tensor, t: Tensor, before: Tensor, after: Tensor)
    requires |before| == |after| == |t| && |none| == 0
    ensures InBounds(Changed(before, after, |after|), 0, |after|)
    ensures IndexCopy(t, Changed(before, after, |after|), 0, Select(after, Changed(before, after, |after|))) ==
            none + Overlay(t, before, after, |after|) + none
  {
    Padded(none, t);
    PatchOverlaysPart(t, none, t, before, after, none);
  }

  /** Writing what changed over any tensor of the same size overlays it. */
  lemma PatchOverlays(t: Tensor, before: Tensor, after: Tensor)
    requires |before| == |after| == |t|
    ensures InBounds(Changed(before, after, |after|), 0, |after|)
    ensures IndexCopy(t, Changed(before, after, |after|), 0, Select(after, Changed(before, after, |after|))) ==
            Overlay(t, before, after, |after|)
  {
    PatchAlone([], t, before, after);
    Padded([], Overlay(t, before, after, |after|));
  }

  /** Writing what changed turns the old tensor into the new one. */
  lemma PatchMakesEqual(before: Tensor, after: Tensor)
    requires |before| == |after|
    ensures InBounds(Changed(before, after, |after|), 0, |after|)
    ensures IndexCopy(before, Changed(before, after, |after|), 0, Select(after, Changed(before, after, |after|))) == after
  {
    PatchOverlays(before, before, after);
    OverlayOfOld(before, after);
  }

  // ---------- patches of a whole model ----------

  /** A patch whose parameter and offset are known. */
  datatype Write<N> = Write(name: N, offset: int, indices: seq<int>, values: seq<Scalar>)

  predicate WriteOk<N(==)>(sizes: map<N, nat>, w: Write<N>)
  {
    w.name in sizes && |w.indices| == |w.values| && InBounds(w.indices, w.offset, sizes[w.name])
  }

  function Sizes<N>(params: map<N, Tensor>): map<N, nat>
  {
    map n | n in params :: |params[n]|
  }

  predicate AllOk<N(==)>(sizes: map<N, nat>, writes: seq<Write<N>>)
  {
    forall i :: 0 <= i < |writes| ==> WriteOk(sizes, writes[i])
  }

  function Apply<N>(params: map<N, Tensor>, writes: seq<Write<N>>): (r: map<N, Tensor>)
    requires AllOk(Sizes(params), writes)
    ensures Sizes(r) == Sizes(params)
  {
    if writes == [] then params
    else
      var w := writes[0];
      var next := params[w.name := IndexCopy(params[w.name], w.indices, w.offset, w.values)];
      assert Sizes(next) == Sizes(params);
      Apply(next, writes[1..])
  }

  lemma {:induction false} ApplyAppend<N>(params: map<N, Tensor>, writes: seq<Write<N>>, w: Write<N>)
    requires AllOk(Sizes(params), writes) && WriteOk(Sizes(params), w)
    ensures AllOk(Sizes(params), writes + [w]) && w.name in Apply(params, writes)
    ensures |Apply(params, writes)[w.name]| == Sizes(params)[w.name]
    ensures Apply(params, writes + [w]) ==
            Apply(params, writes)[w.name := IndexCopy(Apply(params, writes)[w.name], w.indices, w.offset, w.values)]
    decreases |writes|
  {
    var all := writes + [w];
    assert w.name in Sizes(Apply(params, writes));
    if writes == [] {
      assert all[0] == w && all[1..] == [];
    } else {
      var first := writes[0];
      assert all[0] == first && all[1..] == writes[1..] + [w];
      var next := params[first.name := IndexCopy(params[first.name], first.indices, first.offset, first.values)];
      assert Sizes(next) == Sizes(params);
      ApplyAppend(next, writes[1..], w);
    }
  }

  /** What a list of writes finally leaves at a position, if it writes there at all. */
  function LastValue(indices: seq<int>, offset: int, values: seq<Scalar>, j: int): Option<Scalar>
    requires |indices| == |values|
  {
    if indices == [] then None
    else
      match LastValue(indices[1..], offset, values[1..], j)
      case Some(v) => Some(v)
      case None => if indices[0] + offset == j then Some(values[0]) else None
  }

  function Final<N(==)>(writes: seq<Write<N>>, name: N, j: int): Option<Scalar>
    requires forall i :: 0 <= i < |writes| ==> |writes[i].indices| == |writes[i].values|
  {
    if writes == [] then None
    else
      match Final(writes[1..], name, j)
      case Some(v) => Some(v)
      case None =>
        if writes[0].name == name then LastValue(writes[0].indices, writes[0].offset, writes[0].values, j) else None
  }

  function Or(v: Option<Scalar>, default: Scalar): Scalar
  {
    if v.Some? then v.value else default
  }

  lemma {:induction false} IndexCopyAt(t: Tensor, indices: seq<int>, offset: int, values: seq<Scalar>, j: int)
    requires |indices| == |values| && InBounds(indices, offset, |t|) && 0 <= j < |t|
    ensures IndexCopy(t, indices, offset, values)[j] == Or(LastValue(indices, offset, values, j), t[j])
    decreases |indices|
  {
    if indices == [] {
    } else {
      IndexCopyAt(t[indices[0] + offset := values[0]], indices[1..], offset, values[1..], j);
    }
  }

  lemma {:induction false} ApplyAt<N>(params: map<N, Tensor>, writes: seq<Write<N>>, name: N, j: int)
    requires AllOk(Sizes(params), writes) && name in params && 0 <= j < |params[name]|
    ensures name in Apply(params, writes) && j < |Apply(params, writes)[name]|
    ensures Apply(params, writes)[name][j] == Or(Final(writes, name, j), params[name][j])
  {
    assert name in Sizes(params) && name in Sizes(Apply(params, writes));
    if writes == [] {
    } else {
      var w := writes[0];
      assert w.name in Sizes(params);
      var next := params[w.name := IndexCopy(params[w.name], w.indices, w.offset, w.values)];
      assert Sizes(next) == Sizes(params);
      if name == w.name {
        IndexCopyAt(params[name], w.indices, w.offset, w.values, j);
      }
      ApplyAt(next, writes[1..], name, j);
    }
  }

  /** Applying any accepted list of writes a second time changes nothing. */
  lemma ApplyTwice<N>(params: map<N, Tensor>, writes: seq<Write<N>>)
    requires AllOk(Sizes(params), writes)
    ensures Apply(Apply(params, writes), writes) == Apply(params, writes)
  {
    var once := Apply(params, writes);
    var twice := Apply(once, writes);
    assert once.Keys == Sizes(once).Keys && twice.Keys == Sizes(twice).Keys && params.Keys == Sizes(params).Keys;
    forall n | n in once ensures twice[n] == once[n] {
      assert Sizes(once)[n] == Sizes(params)[n] == Sizes(twice)[n];
      forall j | 0 <= j < |once[n]| ensures twice[n][j] == once[n][j] {
        ApplyAt(params, writes, n, j);
        ApplyAt(once, writes, n, j);
      }
    }
  }

  // ---------- a delta and its file ----------

  /** One parameter's changed elements, under the name the trainer gives it. */
  datatype Patch<N> = Patch(name: N, indices: seq<int>, values: seq<Scalar>)

  /** The file: all indices, all values, and how many belong to each name. */
  datatype DeltaFile<N> = DeltaFile(names: seq<N>, lengths: seq<nat>, indices: seq<int>, values: seq<Scalar>)

  function Concat<T>(parts: seq<seq<T>>): seq<T>
  {
    if parts == [] then [] else parts[0] + Concat(parts[1..])
  }

  function Pack<N>(delta: seq<Patch<N>>): DeltaFile<N>
  {
    DeltaFile(seq(|delta|, k requires 0 <= k < |delta| => delta[k].name),
              seq(|delta|, k requires 0 <= k < |delta| => |delta[k].indices|),
              Concat(seq(|delta|, k requires 0 <= k < |delta| => delta[k].indices)),
              Concat(seq(|delta|, k requires 0 <= k < |delta| => delta[k].values)))
  }

  /** torch.split: pieces of the given lengths, which must add up. */
  function SplitBy<T>(flat: seq<T>, lengths: seq<nat>): Option<seq<seq<T>>>
  {
    if lengths == [] then (if flat == [] then Some([]) else None)
    else if lengths[0] > |flat| then None
    else
      match SplitBy(flat[lengths[0]..], lengths[1..])
      case None => None
      case Some(rest) => Some([flat[..lengths[0]]] + rest)
  }

  lemma {:induction false} SplitUndoesConcat<T>(parts: seq<seq<T>>, lengths: seq<nat>)
    requires |lengths| == |parts| && forall k :: 0 <= k < |parts| ==> lengths[k] == |parts[k]|
    ensures SplitBy(Concat(parts), lengths) == Some(parts)
  {
    if parts != [] {
      var flat := parts[0] + Concat(parts[1..]);
      assert flat[..lengths[0]] == parts[0] && flat[lengths[0]..] == Concat(parts[1..]);
      SplitUndoesConcat(parts[1..], lengths[1..]);
      assert parts == [parts[0]] + parts[1..];
    } else {
      assert parts == [];
    }
  }

  lemma {:induction false} SplitLengths<T>(flat: seq<T>, lengths: seq<nat>)
    ensures SplitBy(flat, lengths).Some? ==>
      var parts := SplitBy(flat, lengths).value;
      |parts| == |lengths| && forall k :: 0 <= k < |parts| ==> |parts[k]| == lengths[k]
  {
    if lengths == [] || lengths[0] > |flat| {
    } else {
      SplitLengths(flat[lengths[0]..], lengths[1..]);
    }
  }

  /** Reading the file back. With no names at all, nothing is patched. */
  function Parse<N>(file: DeltaFile<N>): Option<seq<Patch<N>>>
  {
    if file.names != [] && |file.names| != |file.lengths| then None
    else
      var indices, values := SplitBy(file.indices, file.lengths), SplitBy(file.values, file.lengths);
      if indices.None? || values.None? then None
      else if file.names == [] then Some([])
      else
        SplitLengths(file.indices, file.lengths);
        SplitLengths(file.values, file.lengths);
        Some(seq(|file.names|, k requires 0 <= k < |file.names| => Patch(file.names[k], indices.value[k], values.value[k])))
  }

  predicate WellFormed<N>(delta: seq<Patch<N>>)
  {
    forall k :: 0 <= k < |delta| ==> |delta[k].indices| == |delta[k].values|
  }

  /** The round trip through the file. */
  lemma ParseUndoesPack<N>(delta: seq<Patch<N>>)
    requires WellFormed(delta)
    ensures Parse(Pack(delta)) == Some(delta)
  {
    var file := Pack(delta);
    var indices := seq(|delta|, k requires 0 <= k < |delta| => delta[k].indices);
    var values := seq(|delta|, k requires 0 <= k < |delta| => delta[k].values);
    SplitUndoesConcat(indices, file.lengths);
    SplitUndoesConcat(values, file.lengths);
    assert Parse(file).value == delta;
  }

  /** Whatever a file parses to has as many values as indices under each name. */
  lemma ParsedIsWellFormed<N>(file: DeltaFile<N>)
    ensures Parse(file).Some? ==> WellFormed(Parse(file).value)
  {
    SplitLengths(file.indices, file.lengths);
    SplitLengths(file.values, file.lengths);
  }

  function Total(lengths: seq<nat>): nat
  {
    if lengths == [] then 0 else lengths[0] + Total(lengths[1..])
  }

  lemma {:induction false} SplitsIff<T>(flat: seq<T>, lengths: seq<nat>)
    ensures SplitBy(flat, lengths).Some? <==> Total(lengths) == |flat|
    ensures SplitBy(flat, lengths).Some? ==> Concat(SplitBy(flat, lengths).value) == flat
  {
    if lengths == [] {
    } else if lengths[0] <= |flat| {
      SplitsIff(flat[lengths[0]..], lengths[1..]);
      if SplitBy(flat, lengths).Some? {
        var rest := SplitBy(flat[lengths[0]..], lengths[1..]).value;
        assert ([flat[..lengths[0]]] + rest)[1..] == rest;
      }
    }
  }

  /**
    A file can be read exactly when its lengths add up to both of its arrays and
    there is one for each name, if it has names; it then has one patch for each
    name, in order, of the length given, and the patches are the arrays again.
  */
  lemma ParsesIff<N>(file: DeltaFile<N>)
    ensures Parse(file).Some? <==>
              (file.names == [] || |file.names| == |file.lengths|) &&
              Total(file.lengths) == |file.indices| && Total(file.lengths) == |file.values|
    ensures Parse(file).Some? && file.names != [] ==>
              var patches := Parse(file).value;
              && |patches| == |file.names|
              && (forall k :: 0 <= k < |patches| ==>
                    patches[k].name == file.names[k] && |patches[k].indices| == |patches[k].values| == file.lengths[k])
              && Concat(seq(|patches|, k requires 0 <= k < |patches| => patches[k].indices)) == file.indices
              && Concat(seq(|patches|, k requires 0 <= k < |patches| => patches[k].values)) == file.values
  {
    SplitsIff(file.indices, file.lengths);
    SplitsIff(file.values, file.lengths);
    SplitLengths(file.indices, file.lengths);
    SplitLengths(file.values, file.lengths);
    if Parse(file).Some? && file.names != [] {
      var patches := Parse(file).value;
      assert seq(|patches|, k requires 0 <= k < |patches| => patches[k].indices) == SplitBy(file.indices, file.lengths).value;
      assert seq(|patches|, k requires 0 <= k < |patches| => patches[k].values) == SplitBy(file.values, file.lengths).value;
    }
  }
}
