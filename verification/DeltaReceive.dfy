/**
  The sampler's side of a sparse delta: every name is resolved and every index
  checked before the first element is written. What a receive does is one
  function of the parameters and the file; DeltaEngine carries it out in place.
*/
module DeltaReceive {
  import opened Wrappers
  import opened SparseDelta
  import opened FusedLayout

  datatype ReceiveError = Malformed | Unresolved | OutOfRange | DTypeMismatch

  type DTypes = map<Name, string>

  datatype Outcome = Outcome(params: map<Name, Tensor>, error: Option<ReceiveError>)

  /** Resolves and checks each non-empty patch; the first failure refuses the whole delta. */
  function ResolveAll(cfg: HfConfig, sizes: map<Name, nat>, patches: seq<Patch<Name>>): Result<seq<Write<Name>>, ReceiveError>
  {
    if patches == [] then Ok([])
    else
      var p := patches[0];
      if p.indices == [] then ResolveAll(cfg, sizes, patches[1..])
      else
        match Resolve(cfg, sizes.Keys, p.name)
        case None => Err(Unresolved)
        case Some((target, offset)) =>
          if !InBounds(p.indices, offset, sizes[target]) then Err(OutOfRange)
          else
            match ResolveAll(cfg, sizes, patches[1..])
            case Err(e) => Err(e)
            case Ok(rest) => Ok([Write(target, offset, p.indices, p.values)] + rest)
  }

  /** How many writes come before the first whose parameter is of another type than the first one's. */
  function UniformPrefix(dtypes: DTypes, writes: seq<Write<Name>>, k: nat): (r: nat)
    requires k <= |writes|
    requires forall i :: 0 <= i < |writes| ==> writes[i].name in dtypes
    ensures k <= r <= |writes|
    ensures forall i :: k <= i < r ==> dtypes[writes[i].name] == dtypes[writes[0].name]
    ensures r < |writes| ==> dtypes[writes[r].name] != dtypes[writes[0].name]
    decreases |writes| - k
  {
    if k == |writes| || dtypes[writes[k].name] != dtypes[writes[0].name] then k
    else UniformPrefix(dtypes, writes, k + 1)
  }

  lemma {:induction false} ResolvedAreOk(cfg: HfConfig, sizes: map<Name, nat>, patches: seq<Patch<Name>>)
    requires WellFormed(patches)
    ensures ResolveAll(cfg, sizes, patches).Ok? ==> AllOk(sizes, ResolveAll(cfg, sizes, patches).value)
  {
    if patches == [] {
    } else {
      ResolvedAreOk(cfg, sizes, patches[1..]);
    }
  }

  /** Values are written in the first target's type, so another type is refused when its turn comes. */
  function ApplyChecked(params: map<Name, Tensor>, dtypes: DTypes, writes: seq<Write<Name>>): Outcome
    requires AllOk(Sizes(params), writes) && params.Keys <= dtypes.Keys
  {
    assert forall i :: 0 <= i < |writes| ==> WriteOk(Sizes(params), writes[i]) && writes[i].name in Sizes(params);
    var k := UniformPrefix(dtypes, writes, 0);
    Outcome(Apply(params, writes[..k]), if k < |writes| then Some(DTypeMismatch) else None)
  }

  function Receive(cfg: HfConfig, dtypes: DTypes, params: map<Name, Tensor>, file: DeltaFile<Name>): Outcome
    requires params.Keys <= dtypes.Keys
  {
    match Parse(file)
    case None => Outcome(params, Some(Malformed))
    case Some(patches) =>
      if file.indices == [] then Outcome(params, None)
      else
        match ResolveAll(cfg, Sizes(params), patches)
        case Err(e) => Outcome(params, Some(e))
        case Ok(writes) =>
          ParsedIsWellFormed(file);
          ResolvedAreOk(cfg, Sizes(params), patches);
          ApplyChecked(params, dtypes, writes)
  }

  /** Resolving looks at sizes only, so it gives the same writes before and after a patch. */
  lemma ReceiveKeepsSizes(cfg: HfConfig, dtypes: DTypes, params: map<Name, Tensor>, file: DeltaFile<Name>)
    requires params.Keys <= dtypes.Keys
    ensures Sizes(Receive(cfg, dtypes, params, file).params) == Sizes(params)
    ensures Receive(cfg, dtypes, params, file).params.Keys == params.Keys
  {
    var r := Receive(cfg, dtypes, params, file).params;
    assert Sizes(r).Keys == r.Keys && Sizes(params).Keys == params.Keys;
  }

  /** A delta that is malformed, names something unknown, or points outside a parameter changes nothing. */
  lemma RefusedDeltaChangesNothing(cfg: HfConfig, dtypes: DTypes, params: map<Name, Tensor>, file: DeltaFile<Name>)
    requires params.Keys <= dtypes.Keys
    requires Receive(cfg, dtypes, params, file).error.Some?
    requires Receive(cfg, dtypes, params, file).error.value != DTypeMismatch
    ensures Receive(cfg, dtypes, params, file).params == params
  {
    if Parse(file).Some? && file.indices != [] && ResolveAll(cfg, Sizes(params), Parse(file).value).Ok? {
      ParsedIsWellFormed(file);
      ResolvedAreOk(cfg, Sizes(params), Parse(file).value);
    }
  }

  /**
    The one refusal that comes too late: a later target of another type is
    reported only after the earlier targets were patched. Checking that all
    targets have one type rules it out, and nothing less does.
  */
  lemma LateRefusalIffMixedTypes(params: map<Name, Tensor>, dtypes: DTypes, writes: seq<Write<Name>>)
    requires AllOk(Sizes(params), writes) && params.Keys <= dtypes.Keys
    requires forall i :: 0 <= i < |writes| ==> writes[i].name in dtypes
    ensures ApplyChecked(params, dtypes, writes).error.Some? <==>
            exists i :: 0 <= i < |writes| && dtypes[writes[i].name] != dtypes[writes[0].name]
    ensures ApplyChecked(params, dtypes, writes).error.None? ==> ApplyChecked(params, dtypes, writes).params == Apply(params, writes)
  {
    var k := UniformPrefix(dtypes, writes, 0);
    if k == |writes| {
      assert writes[..k] == writes;
    }
  }

  /** Receiving a delta again, after it was received without an error, changes nothing. */
  lemma ReceiveTwice(cfg: HfConfig, dtypes: DTypes, params: map<Name, Tensor>, file: DeltaFile<Name>)
    requires params.Keys <= dtypes.Keys && Receive(cfg, dtypes, params, file).error.None?
    ensures Receive(cfg, dtypes, params, file).params.Keys == params.Keys
    ensures Receive(cfg, dtypes, Receive(cfg, dtypes, params, file).params, file) == Receive(cfg, dtypes, params, file)
  {
    ReceiveKeepsSizes(cfg, dtypes, params, file);
    if Parse(file).Some? && file.indices != [] {
      ParsedIsWellFormed(file);
      ResolvedAreOk(cfg, Sizes(params), Parse(file).value);
      var writes := ResolveAll(cfg, Sizes(params), Parse(file).value).value;
      assert forall i :: 0 <= i < |writes| ==> WriteOk(Sizes(params), writes[i]) && writes[i].name in Sizes(params);
      var k := UniformPrefix(dtypes, writes, 0);
      assert writes[..k] == writes;
      ApplyTwice(params, writes);
    }
  }

  // ---------- the refusal that comes too late ----------

  /** The parameters the non-empty patches of a file go to. */
  function TargetsOf(cfg: HfConfig, names: set<Name>, patches: seq<Patch<Name>>): set<Name>
  {
    if patches == [] then {}
    else
      var target := Resolve(cfg, names, patches[0].name);
      (if patches[0].indices != [] && target.Some? then {target.value.0} else {}) + TargetsOf(cfg, names, patches[1..])
  }

  function NamesOf(writes: seq<Write<Name>>): set<Name>
  {
    set w | w in writes :: w.name
  }

  lemma {:induction false} WritesGoWherePatchesDo(cfg: HfConfig, sizes: map<Name, nat>, patches: seq<Patch<Name>>)
    requires ResolveAll(cfg, sizes, patches).Ok?
    ensures NamesOf(ResolveAll(cfg, sizes, patches).value) == TargetsOf(cfg, sizes.Keys, patches)
  {
    if patches == [] {
    } else {
      WritesGoWherePatchesDo(cfg, sizes, patches[1..]);
    }
  }

  ghost predicate MixedTypes(dtypes: DTypes, targets: set<Name>)
  {
    exists m, n :: m in targets && n in targets && m in dtypes && n in dtypes && dtypes[m] != dtypes[n]
  }

  lemma MixedWrites(dtypes: DTypes, writes: seq<Write<Name>>)
    requires forall i :: 0 <= i < |writes| ==> writes[i].name in dtypes
    ensures MixedTypes(dtypes, NamesOf(writes)) <==>
            exists i :: 0 <= i < |writes| && dtypes[writes[i].name] != dtypes[writes[0].name]
  {
    if m, n :| m in NamesOf(writes) && n in NamesOf(writes) && dtypes[m] != dtypes[n] {
      var v :| v in writes && v.name == m;
      var w :| w in writes && w.name == n;
      var i :| 0 <= i < |writes| && writes[i] == v;
      var j :| 0 <= j < |writes| && writes[j] == w;
    }
    if i :| 0 <= i < |writes| && dtypes[writes[i].name] != dtypes[writes[0].name] {
      assert writes[i] in writes && writes[0] in writes;
      assert writes[i].name in NamesOf(writes) && writes[0].name in NamesOf(writes);
    }
  }

  lemma {:induction false} NothingToSplit<T>(flat: seq<T>, lengths: seq<nat>)
    requires flat == [] && SplitBy(flat, lengths).Some?
    ensures forall k :: 0 <= k < |lengths| ==> lengths[k] == 0
  {
    if lengths == [] {
    } else {
      assert flat[lengths[0]..] == [];
      NothingToSplit(flat[lengths[0]..], lengths[1..]);
    }
  }

  lemma {:induction false} NoTargets(cfg: HfConfig, names: set<Name>, patches: seq<Patch<Name>>)
    requires forall k :: 0 <= k < |patches| ==> patches[k].indices == []
    ensures TargetsOf(cfg, names, patches) == {}
  {
    if patches == [] {
    } else {
      NoTargets(cfg, names, patches[1..]);
    }
  }

  lemma EmptyFileHasNoTargets(cfg: HfConfig, names: set<Name>, file: DeltaFile<Name>)
    requires Parse(file).Some? && file.indices == []
    ensures TargetsOf(cfg, names, Parse(file).value) == {}
  {
    NothingToSplit(file.indices, file.lengths);
    SplitLengths(file.indices, file.lengths);
    NoTargets(cfg, names, Parse(file).value);
  }

  /**
    Which files are refused for a type: those that parse, resolve and fit, and
    whose non-empty patches go to parameters of more than one type.
  */
  lemma LateRefusalIff(cfg: HfConfig, dtypes: DTypes, params: map<Name, Tensor>, file: DeltaFile<Name>)
    requires params.Keys <= dtypes.Keys
    ensures Receive(cfg, dtypes, params, file).error == Some(DTypeMismatch) <==>
            Parse(file).Some? && ResolveAll(cfg, Sizes(params), Parse(file).value).Ok? &&
            MixedTypes(dtypes, TargetsOf(cfg, params.Keys, Parse(file).value))
  {
    assert Sizes(params).Keys == params.Keys;
    NeverMismatchesEarly(cfg, Sizes(params), if Parse(file).Some? then Parse(file).value else []);
    if Parse(file).Some? && ResolveAll(cfg, Sizes(params), Parse(file).value).Ok? {
      var writes := ResolveAll(cfg, Sizes(params), Parse(file).value).value;
      ParsedIsWellFormed(file);
      ResolvedAreOk(cfg, Sizes(params), Parse(file).value);
      assert forall i :: 0 <= i < |writes| ==> WriteOk(Sizes(params), writes[i]) && writes[i].name in Sizes(params);
      WritesGoWherePatchesDo(cfg, Sizes(params), Parse(file).value);
      MixedWrites(dtypes, writes);
      if file.indices == [] {
        EmptyFileHasNoTargets(cfg, params.Keys, file);
      } else {
        LateRefusalIffMixedTypes(params, dtypes, writes);
      }
    }
  }

  lemma {:induction false} NeverMismatchesEarly(cfg: HfConfig, sizes: map<Name, nat>, patches: seq<Patch<Name>>)
    ensures ResolveAll(cfg, sizes, patches).Err? ==> ResolveAll(cfg, sizes, patches).error != DTypeMismatch
  {
    if patches == [] {
    } else {
      NeverMismatchesEarly(cfg, sizes, patches[1..]);
    }
  }

  /** Every element that these writes touch ends with the value it already has. */
  ghost predicate WritesWhatIsThere(params: map<Name, Tensor>, writes: seq<Write<Name>>)
    requires AllOk(Sizes(params), writes)
  {
    forall n, j :: n in params && 0 <= j < |params[n]| ==> Or(Final(writes, n, j), params[n][j]) == params[n][j]
  }

  lemma ApplyChangesNothingIff(params: map<Name, Tensor>, writes: seq<Write<Name>>)
    requires AllOk(Sizes(params), writes)
    ensures Apply(params, writes) == params <==> WritesWhatIsThere(params, writes)
  {
    var r := Apply(params, writes);
    assert Sizes(r).Keys == r.Keys && Sizes(params).Keys == params.Keys;
    forall n, j | n in params && 0 <= j < |params[n]|
      ensures n in r && j < |r[n]| && r[n][j] == Or(Final(writes, n, j), params[n][j])
    {
      ApplyAt(params, writes, n, j);
    }
    if WritesWhatIsThere(params, writes) {
      forall n | n in params ensures r[n] == params[n] {
        assert Sizes(r)[n] == Sizes(params)[n];
      }
    }
  }

  /**
    When a refused delta changes nothing: always, unless it is refused for a
    type, and then if and only if the writes before the first other type write
    only values that are already there.
  */
  lemma RefusalChangesNothingIff(cfg: HfConfig, dtypes: DTypes, params: map<Name, Tensor>, file: DeltaFile<Name>)
    requires params.Keys <= dtypes.Keys && Receive(cfg, dtypes, params, file).error == Some(DTypeMismatch)
    ensures Parse(file).Some? && ResolveAll(cfg, Sizes(params), Parse(file).value).Ok?
    ensures var writes := ResolveAll(cfg, Sizes(params), Parse(file).value).value;
            (forall i :: 0 <= i < |writes| ==> writes[i].name in dtypes) &&
            AllOk(Sizes(params), writes[..UniformPrefix(dtypes, writes, 0)]) &&
            (Receive(cfg, dtypes, params, file).params == params <==>
             WritesWhatIsThere(params, writes[..UniformPrefix(dtypes, writes, 0)]))
  {
    LateRefusalIff(cfg, dtypes, params, file);
    var writes := ResolveAll(cfg, Sizes(params), Parse(file).value).value;
    ParsedIsWellFormed(file);
    ResolvedAreOk(cfg, Sizes(params), Parse(file).value);
    assert forall i :: 0 <= i < |writes| ==> WriteOk(Sizes(params), writes[i]) && writes[i].name in Sizes(params);
    if file.indices == [] {
      EmptyFileHasNoTargets(cfg, params.Keys, file);
    } else {
      ApplyChangesNothingIff(params, writes[..UniformPrefix(dtypes, writes, 0)]);
    }
  }

  /** A file whose refusal leaves the first of its two parameters patched. */
  lemma RefusedButPatched(cfg: HfConfig) returns (dtypes: DTypes, params: map<Name, Tensor>, file: DeltaFile<Name>)
    ensures params.Keys <= dtypes.Keys && Receive(cfg, dtypes, params, file).error == Some(DTypeMismatch)
    ensures Receive(cfg, dtypes, params, file).params != params
  {
    var a, b := Plain("a"), Plain("b");
    dtypes, params := map[a := "bfloat16", b := "float32"], map[a := [Scalar(0)], b := [Scalar(0)]];
    var delta := [Patch(a, [0], [Scalar(1)]), Patch(b, [0], [Scalar(1)])];
    file := Pack(delta);
    ParseUndoesPack(delta);
    TwoWrites(cfg, Sizes(params), delta);
    var writes := [Write(a, 0, [0], [Scalar(1)]), Write(b, 0, [0], [Scalar(1)])];
    assert file.indices != [] by {
      assert seq(|delta|, k requires 0 <= k < |delta| => delta[k].indices)[0] == [0];
    }
    assert UniformPrefix(dtypes, writes, 1) == 1 && UniformPrefix(dtypes, writes, 0) == 1;
    assert writes[..1] == [writes[0]] && [writes[0]][1..] == [];
    assert IndexCopy([Scalar(0)], [0], 0, [Scalar(1)])[0] == Scalar(1) by {
      IndexCopyAt([Scalar(0)], [0], 0, [Scalar(1)], 0);
      assert LastValue([0][1..], 0, [Scalar(1)][1..], 0) == None;
    }
    var next := params[a := IndexCopy(params[a], [0], 0, [Scalar(1)])];
    assert Apply(params, writes[..1]) == Apply(next, []);
    assert next[a][0] != params[a][0];
  }

  lemma OneWrite(cfg: HfConfig, sizes: map<Name, nat>, delta: seq<Patch<Name>>)
    requires |delta| == 1 && delta[0].indices == [0] && delta[0].name in sizes && sizes[delta[0].name] == 1
    requires Resolve(cfg, sizes.Keys, delta[0].name) == Some((delta[0].name, 0))
    ensures ResolveAll(cfg, sizes, delta) == Ok([Write(delta[0].name, 0, delta[0].indices, delta[0].values)])
  {
    var p := delta[0];
    assert InBounds(p.indices, 0, 1) && delta[1..] == [];
    assert ResolveAll(cfg, sizes, delta[1..]) == Ok([]);
    assert [Write(p.name, 0, p.indices, p.values)] + [] == [Write(p.name, 0, p.indices, p.values)];
  }

  lemma TwoWrites(cfg: HfConfig, sizes: map<Name, nat>, delta: seq<Patch<Name>>)
    requires |delta| == 2 && forall k :: 0 <= k < 2 ==> delta[k].indices == [0] && delta[k].name in sizes && sizes[delta[k].name] == 1
    ensures ResolveAll(cfg, sizes, delta) ==
            Ok([Write(delta[0].name, 0, delta[0].indices, delta[0].values), Write(delta[1].name, 0, delta[1].indices, delta[1].values)])
  {
    var w0, w1 := Write(delta[0].name, 0, delta[0].indices, delta[0].values), Write(delta[1].name, 0, delta[1].indices, delta[1].values);
    assert InBounds([0], 0, 1);
    assert delta[1..][0] == delta[1] && delta[1..][1..] == [];
    assert Resolve(cfg, sizes.Keys, w1.name) == Some((w1.name, 0)) && Resolve(cfg, sizes.Keys, w0.name) == Some((w0.name, 0));
    assert [w1] + [] == [w1] && [w0] + [w1] == [w0, w1];
    OneWrite(cfg, sizes, delta[1..]);
  }

  // ---------- what is reported ----------

  /** The patch names a parameter the sampler has, itself or as a part of one it has and can place. */
  ghost predicate Found(cfg: HfConfig, sizes: map<Name, nat>, p: Patch<Name>)
  {
    p.name in sizes || (p.name.Piece? && FusedName(p.name) in sizes && SamplerOffset(cfg, p.name.part).Some?)
  }

  /** All its indices fall inside that parameter. */
  ghost predicate Inside(cfg: HfConfig, sizes: map<Name, nat>, p: Patch<Name>)
    requires Found(cfg, sizes, p)
  {
    forall k :: 0 <= k < |p.indices| ==>
      if p.name in sizes then 0 <= p.indices[k] < sizes[p.name]
      else 0 <= p.indices[k] + SamplerOffset(cfg, p.name.part).value < sizes[FusedName(p.name)]
  }

  lemma ResolveMeans(cfg: HfConfig, sizes: map<Name, nat>, p: Patch<Name>)
    ensures Resolve(cfg, sizes.Keys, p.name).Some? <==> Found(cfg, sizes, p)
    ensures Found(cfg, sizes, p) ==>
              var (target, offset) := Resolve(cfg, sizes.Keys, p.name).value;
              target in sizes && (target, offset) == (if p.name in sizes then (p.name, 0)
                                                      else (FusedName(p.name), SamplerOffset(cfg, p.name.part).value)) &&
              (InBounds(p.indices, offset, sizes[target]) <==> Inside(cfg, sizes, p))
  {
  }

  /** The first patch with anything to write that is not found, or does not fit, decides what is reported. */
  lemma {:induction false} FirstBadPatchDecides(cfg: HfConfig, sizes: map<Name, nat>, patches: seq<Patch<Name>>, k: nat)
    requires k < |patches| && patches[k].indices != []
    requires !Found(cfg, sizes, patches[k]) || !Inside(cfg, sizes, patches[k])
    requires forall i :: 0 <= i < k && patches[i].indices != [] ==> Found(cfg, sizes, patches[i]) && Inside(cfg, sizes, patches[i])
    ensures ResolveAll(cfg, sizes, patches) == Err(if Found(cfg, sizes, patches[k]) then OutOfRange else Unresolved)
  {
    ResolveMeans(cfg, sizes, patches[0]);
    if k == 0 {
    } else {
      FirstBadPatchDecides(cfg, sizes, patches[1..], k - 1);
    }
  }

  lemma {:induction false} GoodPatchesResolve(cfg: HfConfig, sizes: map<Name, nat>, patches: seq<Patch<Name>>)
    requires forall i :: 0 <= i < |patches| && patches[i].indices != [] ==> Found(cfg, sizes, patches[i]) && Inside(cfg, sizes, patches[i])
    ensures ResolveAll(cfg, sizes, patches).Ok?
  {
    if patches == [] {
    } else {
      ResolveMeans(cfg, sizes, patches[0]);
      GoodPatchesResolve(cfg, sizes, patches[1..]);
    }
  }

  /** What a receive reports for a file that can be read: the failure of its first bad patch, and never a success past one. */
  lemma ReportsTheFirstBadPatch(cfg: HfConfig, dtypes: DTypes, params: map<Name, Tensor>, file: DeltaFile<Name>, k: nat)
    requires params.Keys <= dtypes.Keys && Parse(file).Some? && k < |Parse(file).value| && Parse(file).value[k].indices != []
    requires var patches, sizes := Parse(file).value, Sizes(params);
             && (!Found(cfg, sizes, patches[k]) || !Inside(cfg, sizes, patches[k]))
             && forall i :: 0 <= i < k && patches[i].indices != [] ==> Found(cfg, sizes, patches[i]) && Inside(cfg, sizes, patches[i])
    ensures Receive(cfg, dtypes, params, file) ==
            Outcome(params, Some(if Found(cfg, Sizes(params), Parse(file).value[k]) then OutOfRange else Unresolved))
  {
    FirstBadPatchDecides(cfg, Sizes(params), Parse(file).value, k);
    ParsesIff(file);
    SomethingToWrite(file, k);
  }

  lemma SomethingToWrite(file: DeltaFile<Name>, k: nat)
    requires Parse(file).Some? && k < |Parse(file).value| && Parse(file).value[k].indices != []
    ensures file.indices != []
  {
    ParsesIff(file);
    if file.indices == [] {
      NothingToSplit(file.indices, file.lengths);
    }
  }

  /** And a file that cannot be read is reported as malformed. */
  lemma MalformedIff(cfg: HfConfig, dtypes: DTypes, params: map<Name, Tensor>, file: DeltaFile<Name>)
    requires params.Keys <= dtypes.Keys
    ensures Receive(cfg, dtypes, params, file).error == Some(Malformed) <==>
              (file.names != [] && |file.names| != |file.lengths|) ||
              Total(file.lengths) != |file.indices| || Total(file.lengths) != |file.values|
  {
    ParsesIff(file);
    if Parse(file).Some? {
      NotMalformed(cfg, Sizes(params), Parse(file).value);
    }
  }

  lemma {:induction false} NotMalformed(cfg: HfConfig, sizes: map<Name, nat>, patches: seq<Patch<Name>>)
    ensures ResolveAll(cfg, sizes, patches) != Err(Malformed)
  {
    if patches == [] {
    } else {
      NotMalformed(cfg, sizes, patches[1..]);
    }
  }
}
