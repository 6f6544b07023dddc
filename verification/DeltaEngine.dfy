/**
  The engine that patches the sampler's parameters in place: one pass that
  resolves and checks, one that packs all elements into two bulk buffers, and
  one that writes slices of those buffers into the parameters' own storage.
*/
module DeltaEngine {
  import opened Wrappers
  import opened SparseDelta
  import opened FusedLayout
  import opened DeltaReceive

  /** Bounds are checked on the smallest and the largest index only. */
  method CheckIndexBounds(indices: seq<int>, offset: int, numel: nat) returns (ok: bool)
    ensures ok <==> InBounds(indices, offset, numel)
  {
    if indices == [] {
      return true;
    }
    var lo, hi := indices[0], indices[0];
    for i := 1 to |indices|
      invariant forall k :: 0 <= k < i ==> lo <= indices[k] <= hi
      invariant lo in indices && hi in indices
    {
      if indices[i] < lo {
        lo := indices[i];
      }
      if indices[i] > hi {
        hi := indices[i];
      }
    }
    ok := 0 <= lo + offset && hi + offset < numel;
  }

  /** A slice of the bulk buffers and the parameter it is for. */
  datatype Slice = Slice(name: Name, start: nat, end: nat)

  /** The first k writes' indices, each moved by its own offset. */
  function FlatIndices(writes: seq<Write<Name>>, k: nat): seq<int>
    requires k <= |writes|
  {
    if k == 0 then [] else FlatIndices(writes, k - 1) + Shift(writes[k - 1].indices, writes[k - 1].offset)
  }

  function FlatValues(writes: seq<Write<Name>>, k: nat): seq<Scalar>
    requires k <= |writes|
  {
    if k == 0 then [] else FlatValues(writes, k - 1) + writes[k - 1].values
  }

  function Slices(writes: seq<Write<Name>>, k: nat): seq<Slice>
    requires k <= |writes|
  {
    if k == 0 then []
    else
      var start := |FlatIndices(writes, k - 1)|;
      Slices(writes, k - 1) + [Slice(writes[k - 1].name, start, start + |writes[k - 1].indices|)]
  }

  /** The k-th slice holds exactly the k-th write, its indices moved by its offset. */
  ghost predicate Packs(indices: seq<int>, values: seq<Scalar>, s: Slice, w: Write<Name>)
  {
    && s.name == w.name && s.start <= s.end <= |indices| == |values|
    && indices[s.start..s.end] == Shift(w.indices, w.offset)
    && values[s.start..s.end] == w.values
  }

  ghost predicate AllPacked(indices: seq<int>, values: seq<Scalar>, slices: seq<Slice>, writes: seq<Write<Name>>)
  {
    |slices| <= |writes| && forall k :: 0 <= k < |slices| ==> Packs(indices, values, slices[k], writes[k])
  }

  method CopyAt<T>(a: array<T>, start: nat, data: seq<T>)
    requires start + |data| <= a.Length
    modifies a
    ensures a[..start + |data|] == old(a[..start]) + data
    ensures a[start + |data|..] == old(a[start + |data|..])
  {
    for i := 0 to |data|
      invariant forall j :: 0 <= j < a.Length && !(start <= j < start + i) ==> a[j] == old(a[j])
      invariant forall j :: 0 <= j < i ==> a[start + j] == data[j]
    {
      a[start + i] := data[i];
    }
  }

  /** index_copy_ on a parameter's own storage. */
  method IndexCopyInto(a: array<Scalar>, indices: seq<int>, values: seq<Scalar>)
    requires |indices| == |values| && InBounds(indices, 0, a.Length)
    modifies a
    ensures a[..] == IndexCopy(old(a[..]), indices, 0, values)
  {
    ghost var before := a[..];
    for i := 0 to |indices|
      invariant InBounds(indices[i..], 0, a.Length)
      invariant IndexCopy(a[..], indices[i..], 0, values[i..]) == IndexCopy(before, indices, 0, values)
    {
      assert indices[i..][1..] == indices[i + 1..] && values[i..][1..] == values[i + 1..];
      ghost var t := a[..];
      a[indices[i]] := values[i];
      assert a[..] == t[indices[i] := values[i]];
    }
  }

  lemma {:induction false} FlatLengths(writes: seq<Write<Name>>, k: nat)
    requires k <= |writes| && forall i :: 0 <= i < |writes| ==> |writes[i].indices| == |writes[i].values|
    ensures |FlatIndices(writes, k)| == |FlatValues(writes, k)| <= |FlatIndices(writes, |writes|)|
    decreases |writes| - k
  {
    if k < |writes| {
      FlatLengths(writes, k + 1);
    } else {
      SameLengths(writes, k);
    }
  }

  lemma {:induction false} SameLengths(writes: seq<Write<Name>>, k: nat)
    requires k <= |writes| && forall i :: 0 <= i < |writes| ==> |writes[i].indices| == |writes[i].values|
    ensures |FlatIndices(writes, k)| == |FlatValues(writes, k)|
  {
    if k == 0 {
    } else {
      SameLengths(writes, k - 1);
    }
  }

  lemma PacksMore(indices: seq<int>, values: seq<Scalar>, i: seq<int>, v: seq<Scalar>, s: Slice, w: Write<Name>)
    requires Packs(indices, values, s, w) && |i| == |v|
    ensures Packs(indices + i, values + v, s, w)
  {
    assert (indices + i)[s.start..s.end] == indices[s.start..s.end];
    assert (values + v)[s.start..s.end] == values[s.start..s.end];
  }

  /** One more write in each of the three. */
  lemma BuffersNext(writes: seq<Write<Name>>, k: nat)
    requires k < |writes|
    ensures FlatIndices(writes, k + 1) == FlatIndices(writes, k) + Shift(writes[k].indices, writes[k].offset)
    ensures FlatValues(writes, k + 1) == FlatValues(writes, k) + writes[k].values
    ensures var start := |FlatIndices(writes, k)|;
            Slices(writes, k + 1) == Slices(writes, k) + [Slice(writes[k].name, start, start + |writes[k].indices|)]
  {
  }

  lemma PacksLast(indices: seq<int>, values: seq<Scalar>, w: Write<Name>)
    requires |indices| == |values| && |w.indices| == |w.values|
    ensures Packs(indices + Shift(w.indices, w.offset), values + w.values, Slice(w.name, |indices|, |indices| + |w.indices|), w)
  {
    var i := Shift(w.indices, w.offset);
    assert (indices + i)[|indices|..] == i && (values + w.values)[|values|..] == w.values;
  }

  lemma {:induction false} SliceCount(writes: seq<Write<Name>>, n: nat)
    requires n <= |writes|
    ensures |Slices(writes, n)| == n
  {
    if n == 0 {
    } else {
      SliceCount(writes, n - 1);
    }
  }

  lemma LastSlicePacks(writes: seq<Write<Name>>, n: nat)
    requires n < |writes| && |writes[n].indices| == |writes[n].values|
    requires |FlatIndices(writes, n)| == |FlatValues(writes, n)| && |Slices(writes, n)| == n
    ensures Packs(FlatIndices(writes, n + 1), FlatValues(writes, n + 1), Slices(writes, n + 1)[n], writes[n])
  {
    PacksLast(FlatIndices(writes, n), FlatValues(writes, n), writes[n]);
    BuffersNext(writes, n);
  }

  lemma EarlierSlicePacks(writes: seq<Write<Name>>, n: nat, k: nat)
    requires k < n < |writes| && |writes[n].indices| == |writes[n].values| && |Slices(writes, n)| == n
    requires Packs(FlatIndices(writes, n), FlatValues(writes, n), Slices(writes, n)[k], writes[k])
    ensures Packs(FlatIndices(writes, n + 1), FlatValues(writes, n + 1), Slices(writes, n + 1)[k], writes[k])
  {
    var w := writes[n];
    PacksMore(FlatIndices(writes, n), FlatValues(writes, n), Shift(w.indices, w.offset), w.values, Slices(writes, n)[k], writes[k]);
    BuffersNext(writes, n);
  }

  /** The k-th slice is laid down by the k-th write, and no later write disturbs it. */
  lemma {:induction false} SlicePacks(writes: seq<Write<Name>>, n: nat, k: nat)
    requires k < n <= |writes| && forall i :: 0 <= i < |writes| ==> |writes[i].indices| == |writes[i].values|
    ensures |Slices(writes, n)| == n && Packs(FlatIndices(writes, n), FlatValues(writes, n), Slices(writes, n)[k], writes[k])
  {
    SliceCount(writes, n);
    SliceCount(writes, n - 1);
    if k == n - 1 {
      SameLengths(writes, n - 1);
      LastSlicePacks(writes, n - 1);
    } else {
      SlicePacks(writes, n - 1, k);
      EarlierSlicePacks(writes, n - 1, k);
    }
  }

  /** So the running offset gives every write its own slice. */
  lemma SlicesPack(writes: seq<Write<Name>>, n: nat)
    requires n <= |writes| && forall i :: 0 <= i < |writes| ==> |writes[i].indices| == |writes[i].values|
    ensures |Slices(writes, n)| == n && AllPacked(FlatIndices(writes, n), FlatValues(writes, n), Slices(writes, n), writes)
  {
    SliceCount(writes, n);
    forall k | 0 <= k < n ensures Packs(FlatIndices(writes, n), FlatValues(writes, n), Slices(writes, n)[k], writes[k]) {
      SlicePacks(writes, n, k);
    }
  }

  /** One write's moved indices and its values, behind those packed so far. */
  method PackOne(indices: array<int>, values: array<Scalar>, curr: nat, w: Write<Name>)
    requires |w.indices| == |w.values| && curr + |w.indices| <= indices.Length == values.Length
    modifies indices, values
    ensures indices[..curr + |w.indices|] == old(indices[..curr]) + Shift(w.indices, w.offset)
    ensures values[..curr + |w.indices|] == old(values[..curr]) + w.values
  {
    CopyAt(indices, curr, Shift(w.indices, w.offset));
    CopyAt(values, curr, w.values);
  }

  lemma FullBuffersPack(writes: seq<Write<Name>>, indices: seq<int>, values: seq<Scalar>, slices: seq<Slice>)
    requires forall k :: 0 <= k < |writes| ==> |writes[k].indices| == |writes[k].values|
    requires indices == FlatIndices(writes, |writes|) && values == FlatValues(writes, |writes|) && slices == Slices(writes, |writes|)
    ensures |slices| == |writes| && AllPacked(indices, values, slices, writes)
  {
    SlicesPack(writes, |writes|);
  }

  /** The i-th write, behind the ones before it. */
  method PackNext(indices: array<int>, values: array<Scalar>, curr: nat, writes: seq<Write<Name>>, i: nat)
    requires i < |writes| && forall k :: 0 <= k < |writes| ==> |writes[k].indices| == |writes[k].values|
    requires |FlatIndices(writes, |writes|)| == indices.Length == values.Length && curr == |FlatIndices(writes, i)| <= indices.Length
    requires indices[..curr] == FlatIndices(writes, i) && values[..curr] == FlatValues(writes, i)
    modifies indices, values
    ensures curr + |writes[i].indices| == |FlatIndices(writes, i + 1)| <= indices.Length
    ensures indices[..curr + |writes[i].indices|] == FlatIndices(writes, i + 1)
    ensures values[..curr + |writes[i].indices|] == FlatValues(writes, i + 1)
    ensures Slices(writes, i + 1) == Slices(writes, i) + [Slice(writes[i].name, curr, curr + |writes[i].indices|)]
  {
    FlatLengths(writes, i + 1);
    BuffersNext(writes, i);
    PackOne(indices, values, curr, writes[i]);
  }

  /** Packs every write's moved indices and values into one pair of buffers. */
  method BuildBulkTensorSlices(writes: seq<Write<Name>>, changed: nat)
    returns (indices: array<int>, values: array<Scalar>, slices: seq<Slice>)
    requires changed == |FlatIndices(writes, |writes|)|
    requires forall k :: 0 <= k < |writes| ==> |writes[k].indices| == |writes[k].values|
    ensures fresh(indices) && fresh(values)
    ensures |slices| == |writes| && AllPacked(indices[..], values[..], slices, writes)
  {
    indices, values, slices := new int[changed](_ => 0), new Scalar[changed](_ => Scalar(0)), [];
    var curr := 0;
    for i := 0 to |writes|
      invariant curr == |FlatIndices(writes, i)| <= changed
      invariant indices[..curr] == FlatIndices(writes, i)
      invariant values[..curr] == FlatValues(writes, i)
      invariant slices == Slices(writes, i)
    {
      var w := writes[i];
      PackNext(indices, values, curr, writes, i);
      slices := slices + [Slice(w.name, curr, curr + |w.indices|)];
      curr := curr + |w.indices|;
    }
    assert indices[..curr] == indices[..];
    assert values[..curr] == values[..];
    FullBuffersPack(writes, indices[..], values[..], slices);
  }

  /** What resolving the rest adds to the writes already collected. */
  function Prepend(writes: seq<Write<Name>>, rest: Result<seq<Write<Name>>, ReceiveError>): Result<seq<Write<Name>>, ReceiveError>
  {
    match rest
    case Err(e) => Err(e)
    case Ok(more) => Ok(writes + more)
  }

  lemma PrependNothing(writes: seq<Write<Name>>, rest: Result<seq<Write<Name>>, ReceiveError>)
    ensures Prepend([], rest) == rest && Prepend(writes, Ok([])) == Ok(writes)
  {
    if rest.Ok? {
      assert [] + rest.value == rest.value;
    }
    assert writes + [] == writes;
  }

  lemma PrependOne(writes: seq<Write<Name>>, w: Write<Name>, rest: Result<seq<Write<Name>>, ReceiveError>)
    ensures Prepend(writes, Prepend([w], rest)) == Prepend(writes + [w], rest)
  {
    if rest.Ok? {
      assert writes + ([w] + rest.value) == (writes + [w]) + rest.value;
    }
  }

  /** How many elements a delta changes. */
  function ChangedElements(patches: seq<Patch<Name>>): nat
  {
    if patches == [] then 0 else |patches[0].indices| + ChangedElements(patches[1..])
  }

  lemma {:induction false} FlatOfCons(w: Write<Name>, rest: seq<Write<Name>>, k: nat)
    requires k <= |rest|
    ensures |FlatIndices([w] + rest, k + 1)| == |w.indices| + |FlatIndices(rest, k)|
  {
    if k == 0 {
    } else {
      FlatOfCons(w, rest, k - 1);
    }
  }

  /** The bulk buffers are exactly as long as the delta's changed elements. */
  lemma {:induction false} BulkFits(cfg: HfConfig, sizes: map<Name, nat>, patches: seq<Patch<Name>>)
    ensures ResolveAll(cfg, sizes, patches).Ok? ==>
              var writes := ResolveAll(cfg, sizes, patches).value;
              |FlatIndices(writes, |writes|)| == ChangedElements(patches)
  {
    if patches == [] {
    } else {
      BulkFits(cfg, sizes, patches[1..]);
      var rest := ResolveAll(cfg, sizes, patches[1..]);
      var p := patches[0];
      if ResolveAll(cfg, sizes, patches).Ok? && p.indices != [] {
        FlatOfCons(ResolveAll(cfg, sizes, patches).value[0], rest.value, |rest.value|);
      }
    }
  }

  /** One slice of the bulk buffers writes exactly what its patch says. */
  lemma SliceWrites(t: Tensor, indices: seq<int>, values: seq<Scalar>, s: Slice, w: Write<Name>)
    requires Packs(indices, values, s, w) && |w.indices| == |w.values| && InBounds(w.indices, w.offset, |t|)
    ensures |indices[s.start..s.end]| == |values[s.start..s.end]| && InBounds(indices[s.start..s.end], 0, |t|)
    ensures IndexCopy(t, indices[s.start..s.end], 0, values[s.start..s.end]) == IndexCopy(t, w.indices, w.offset, w.values)
  {
    ShiftedCopy(t, w.indices, w.offset, w.values);
  }

  /** The sampler's engine, patching in place. */
  class DeltaSnapshotWeightTransferEngine {
    const cfg: HfConfig
    const dtypes: DTypes
    const params: map<Name, array<Scalar>>
    var currentWeightsPath: Option<string>

    /** Parameters do not share storage. */
    ghost predicate Valid()
    {
      && params.Keys <= dtypes.Keys
      && forall m, n :: m in params && n in params && m != n ==> params[m] != params[n]
    }

    ghost function Contents(): map<Name, Tensor>
      reads params.Values
    {
      map n | n in params :: params[n][..]
    }

    constructor (cfg: HfConfig, dtypes: DTypes, params: map<Name, array<Scalar>>)
      requires params.Keys <= dtypes.Keys
      requires forall m, n :: m in params && n in params && m != n ==> params[m] != params[n]
      ensures Valid() && this.params == params && this.cfg == cfg && this.dtypes == dtypes && currentWeightsPath == None
    {
      this.cfg, this.dtypes, this.params, this.currentWeightsPath := cfg, dtypes, params, None;
    }

    method ResolveAndCheck(patches: seq<Patch<Name>>) returns (r: Result<seq<Write<Name>>, ReceiveError>)
      ensures r == ResolveAll(cfg, Sizes(Contents()), patches)
    {
      ghost var sizes := Sizes(Contents());
      var writes: seq<Write<Name>> := [];
      PrependNothing([], ResolveAll(cfg, sizes, patches));
      assert patches[0..] == patches;
      for i := 0 to |patches|
        invariant ResolveAll(cfg, sizes, patches) == Prepend(writes, ResolveAll(cfg, sizes, patches[i..]))
      {
        var p := patches[i];
        assert patches[i..][0] == p && patches[i..][1..] == patches[i + 1..];
        if p.indices == [] {
          continue;
        }
        assert sizes.Keys == params.Keys;
        var target := Resolve(cfg, params.Keys, p.name);
        if target.None? {
          return Err(Unresolved);
        }
        var ok := CheckIndexBounds(p.indices, target.value.1, params[target.value.0].Length);
        if !ok {
          return Err(OutOfRange);
        }
        var w := Write(target.value.0, target.value.1, p.indices, p.values);
        PrependOne(writes, w, ResolveAll(cfg, sizes, patches[i + 1..]));
        writes := writes + [w];
      }
      PrependNothing(writes, Ok([]));
      r := Ok(writes);
    }

    /** Writes one slice into its parameter's storage. */
    method WriteSlice(w: Write<Name>, s: Slice, indices: array<int>, values: array<Scalar>)
      requires Valid() && WriteOk(Sizes(Contents()), w) && Packs(indices[..], values[..], s, w)
      requires w.name in params
      modifies params[w.name]
      ensures Contents() == old(Contents())[w.name := IndexCopy(old(Contents())[w.name], w.indices, w.offset, w.values)]
    {
      var a := params[w.name];
      SliceWrites(a[..], indices[..], values[..], s, w);
      IndexCopyInto(a, indices[s.start..s.end], values[s.start..s.end]);
      assert forall n :: n in params && n != w.name ==> params[n] != a;
    }

    /** Nothing is written before every name is resolved and every index checked. */
    method ApplyGpuInPlace(patches: seq<Patch<Name>>) returns (error: Option<ReceiveError>)
      requires Valid() && WellFormed(patches)
      modifies params.Values
      ensures var r := ResolveAll(cfg, Sizes(old(Contents())), patches);
              if r.Err? then error == Some(r.error) && Contents() == old(Contents())
              else AllOk(Sizes(old(Contents())), r.value) && Outcome(Contents(), error) == ApplyChecked(old(Contents()), dtypes, r.value)
    {
      ghost var sizes := Sizes(Contents());
      var resolved := ResolveAndCheck(patches);
      if resolved.Err? {
        return Some(resolved.error);
      }
      ResolvedAreOk(cfg, sizes, patches);
      BulkFits(cfg, sizes, patches);
      error := WriteAll(resolved.value, ChangedElements(patches));
    }

    /** The i-th slice, after the ones before it. */
    method WriteNext(ghost before: map<Name, Tensor>, writes: seq<Write<Name>>, i: nat, s: Slice,
                     indices: array<int>, values: array<Scalar>)
      requires Valid() && i < |writes| && AllOk(Sizes(before), writes)
      requires writes[i].name in params && Packs(indices[..], values[..], s, writes[i])
      requires Contents() == Apply(before, writes[..i])
      modifies params[writes[i].name]
      ensures Contents() == Apply(before, writes[..i + 1])
    {
      ApplyAppend(before, writes[..i], writes[i]);
      assert writes[..i + 1] == writes[..i] + [writes[i]];
      WriteSlice(writes[i], s, indices, values);
    }

    method WriteSlices(writes: seq<Write<Name>>, slices: seq<Slice>, indices: array<int>, values: array<Scalar>)
      returns (error: Option<ReceiveError>)
      requires Valid() && AllOk(Sizes(Contents()), writes) && values !in params.Values
      requires |slices| == |writes| && AllPacked(indices[..], values[..], slices, writes)
      requires forall i :: 0 <= i < |writes| ==> writes[i].name in params
      modifies params.Values
      ensures Outcome(Contents(), error) == ApplyChecked(old(Contents()), dtypes, writes)
    {
      ghost var before := Contents();
      for i := 0 to |writes|
        invariant UniformPrefix(dtypes, writes, i) == UniformPrefix(dtypes, writes, 0)
        invariant values[..] == old(values[..])
        invariant Contents() == Apply(before, writes[..i])
      {
        if dtypes[writes[i].name] != dtypes[writes[0].name] {
          return Some(DTypeMismatch);
        }
        WriteNext(before, writes, i, slices[i], indices, values);
      }
      error := None;
    }

    method WriteAll(writes: seq<Write<Name>>, changed: nat) returns (error: Option<ReceiveError>)
      requires Valid() && AllOk(Sizes(Contents()), writes) && changed == |FlatIndices(writes, |writes|)|
      modifies params.Values
      ensures Outcome(Contents(), error) == ApplyChecked(old(Contents()), dtypes, writes)
    {
      assert Sizes(Contents()).Keys == params.Keys;
      assert forall i :: 0 <= i < |writes| ==> WriteOk(Sizes(Contents()), writes[i]) && writes[i].name in params;
      var indices, values, slices := BuildBulkTensorSlices(writes, changed);
      error := WriteSlices(writes, slices, indices, values);
    }

    /** The whole receive in patch-in-place mode. */
    method ReceiveWeights(file: DeltaFile<Name>, target: string) returns (error: Option<ReceiveError>)
      requires Valid()
      modifies this, params.Values
      ensures Outcome(Contents(), error) == Receive(cfg, dtypes, old(Contents()), file)
      ensures currentWeightsPath == if error.None? then Some(target) else old(currentWeightsPath)
    {
      assert Contents().Keys == params.Keys;
      var patches := Parse(file);
      if patches.None? {
        return Some(Malformed);
      }
      if file.indices == [] {
        currentWeightsPath := Some(target);
        return None;
      }
      ParsedIsWellFormed(file);
      error := ApplyGpuInPlace(patches.value);
      if error.None? {
        currentWeightsPath := Some(target);
      }
    }
  }
}
