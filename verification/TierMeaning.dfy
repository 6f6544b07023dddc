/**
  What the compiled tiers and the node preferences ask for, in the fleet's own
  fields: which device sizes get a tier, with how many devices, and which nodes
  each preference names.
*/
module TierMeaning {
  import opened Wrappers
  import opened Placement
  import opened Tiers
  import opened FleetTiers

  // ---------- one size ----------

  /** A number of devices the worker may drive on one node of the size, and that hold its memory. */
  ghost predicate Holds(req: Request, m: int, deviceMemory: int, most: int)
  {
    1 <= m <= most && (m == 1 || m <= req.maxDevices) && m * deviceMemory >= req.memory
  }

  /** A size can be used exactly when some number of devices can; its tier asks for the least, and for shares that just cover the memory. */
  lemma TierOfMeans(req: Request, s: Size)
    ensures Drivable(req, s) <==> s.deviceMemory > 0 && exists m :: Holds(req, m, s.deviceMemory, s.maxPerNode)
    ensures Drivable(req, s) ==>
              var t := TierOf(req, s);
              && t.ceiling == s.deviceMemory
              && Holds(req, t.count, s.deviceMemory, s.maxPerNode)
              && (forall m :: 1 <= m < t.count ==> m * s.deviceMemory < req.memory)
              && t.count * t.floor >= req.memory && (req.memory > 0 ==> t.count * (t.floor - 1) < req.memory)
  {
    if s.deviceMemory > 0 {
      var count := DevicesFor(req.memory, s.deviceMemory);
      DevicesForIsLeast(req.memory, s.deviceMemory, count);
      assert Drivable(req, s) ==> Holds(req, count, s.deviceMemory, s.maxPerNode);
      forall m | m >= 1 ensures m * s.deviceMemory >= req.memory <==> m >= count {
        DevicesForIsLeast(req.memory, s.deviceMemory, m);
      }
      CeilDiv(req.memory, count);
    }
  }

  // ---------- one bucket of the fleet ----------

  /** The node can serve the role at all. */
  ghost predicate Serves(nodes: Nodes, role: string, n: string)
  {
    n in nodes && role in nodes[n].roles && nodes[n].deviceMemory > 0 && nodes[n].deviceCount >= 1
  }

  /** Of the nodes with devices of one size, one with the smallest and one with the most of them. */
  ghost predicate Extremes(nodes: Nodes, role: string, memory: int, small: string, wide: string)
  {
    && Serves(nodes, role, small) && CeilGiB(nodes[small].deviceMemory) == CeilGiB(memory)
    && Serves(nodes, role, wide) && CeilGiB(nodes[wide].deviceMemory) == CeilGiB(memory)
    && forall x :: Serves(nodes, role, x) && CeilGiB(nodes[x].deviceMemory) == CeilGiB(memory) ==>
         nodes[small].deviceMemory <= nodes[x].deviceMemory && nodes[x].deviceCount <= nodes[wide].deviceCount
  }

  lemma BucketIn(nodes: Nodes, role: string, bySize: map<int, Size>, n: string) returns (small: string, wide: string)
    requires IsCatalogOf(nodes, nodes.Keys, role, bySize) && Serves(nodes, role, n)
    ensures Extremes(nodes, role, nodes[n].deviceMemory, small, wide) && CeilGiB(nodes[n].deviceMemory) in bySize
    ensures bySize[CeilGiB(nodes[n].deviceMemory)] == Size(nodes[small].deviceMemory, nodes[wide].deviceCount)
  {
    var bucket := CeilGiB(nodes[n].deviceMemory);
    assert Usable(nodes[n], role) && bucket in bySize;
    var size := bySize[bucket];
    assert HasMemory(nodes, nodes.Keys, role, size.deviceMemory) && HasCount(nodes, nodes.Keys, role, bucket, size.maxPerNode);
    small :| small in nodes && Usable(nodes[small], role) && nodes[small].deviceMemory == size.deviceMemory;
    wide :| wide in nodes && Usable(nodes[wide], role) && CeilGiB(nodes[wide].deviceMemory) == bucket &&
      nodes[wide].deviceCount == size.maxPerNode;
    forall x | Serves(nodes, role, x) && CeilGiB(nodes[x].deviceMemory) == bucket
      ensures nodes[small].deviceMemory <= nodes[x].deviceMemory && nodes[x].deviceCount <= nodes[wide].deviceCount
    {
      assert Usable(nodes[x], role);
    }
  }

  /** A bucket's size in the catalog is made of its extremes. */
  lemma BucketOf(nodes: Nodes, role: string, catalog: seq<Size>, n: string) returns (size: Size, small: string, wide: string)
    requires IsCatalog(nodes, role, catalog) && Serves(nodes, role, n)
    ensures Extremes(nodes, role, nodes[n].deviceMemory, small, wide)
    ensures size in catalog && size == Size(nodes[small].deviceMemory, nodes[wide].deviceCount)
  {
    var bySize: map<int, Size> :| IsCatalogOf(nodes, nodes.Keys, role, bySize) && Lists(bySize, catalog);
    small, wide := BucketIn(nodes, role, bySize, n);
    size := bySize[CeilGiB(nodes[n].deviceMemory)];
    ListsEverything(bySize, catalog);
  }

  // ---------- every bucket's tier ----------

  /** The tier of a bucket: its smallest device for a ceiling, and the least number of them that hold the memory. */
  ghost predicate IsTierOf(req: Request, t: Tier, smallest: int, most: int)
  {
    && t.ceiling == smallest && Holds(req, t.count, smallest, most)
    && (forall m :: 1 <= m < t.count ==> m * smallest < req.memory)
    && t.count * t.floor >= req.memory && (req.memory > 0 ==> t.count * (t.floor - 1) < req.memory)
  }

  lemma SizeHasTierIff(req: Request, catalog: seq<Size>, tiers: seq<Tier>, size: Size)
    requires DistinctBuckets(catalog) && Compiled(req, catalog, tiers) && size in catalog && size.deviceMemory > 0
    ensures (exists m :: Holds(req, m, size.deviceMemory, size.maxPerNode)) <==>
            (exists t :: t in tiers && IsTierOf(req, t, size.deviceMemory, size.maxPerNode))
  {
    TierOfMeans(req, size);
    if Drivable(req, size) {
      var t := TierOf(req, size);
      DistinctBucketsAreUnambiguous(req, catalog);
      KeptAll(req, catalog, t);
      assert t in multiset(Kept(req, catalog, |catalog|)) && t in multiset(tiers);
      assert IsTierOf(req, t, size.deviceMemory, size.maxPerNode);
    }
  }

  /** Every device size of the fleet has its tier if and only if the worker can use it. */
  lemma UsableSizesHaveTiers(nodes: Nodes, req: Request, catalog: seq<Size>, tiers: seq<Tier>, n: string)
    returns (small: string, wide: string)
    requires IsCatalog(nodes, req.role, catalog) && Compiled(req, catalog, tiers) && Serves(nodes, req.role, n)
    ensures Extremes(nodes, req.role, nodes[n].deviceMemory, small, wide)
    ensures (exists m :: Holds(req, m, nodes[small].deviceMemory, nodes[wide].deviceCount)) <==>
            (exists t :: t in tiers && IsTierOf(req, t, nodes[small].deviceMemory, nodes[wide].deviceCount))
  {
    var size;
    size, small, wide := BucketOf(nodes, req.role, catalog, n);
    SizeHasTierIff(req, catalog, tiers, size);
  }

  lemma OneSizePerBucket(catalog: seq<Size>, a: Size, b: Size)
    requires DistinctBuckets(catalog) && a in catalog && b in catalog && CeilGiB(a.deviceMemory) == CeilGiB(b.deviceMemory)
    ensures a == b
  {
  }

  lemma TierHasSize(req: Request, catalog: seq<Size>, tiers: seq<Tier>, t: Tier) returns (i: nat)
    requires Compiled(req, catalog, tiers) && t in tiers
    ensures i < |catalog| && t.ceiling == catalog[i].deviceMemory && IsTierOf(req, t, catalog[i].deviceMemory, catalog[i].maxPerNode)
  {
    var kept := Kept(req, catalog, |catalog|);
    assert t in multiset(tiers) && t in multiset(kept) && t in kept;
    KeptTiers(req, catalog, |catalog|);
    i :| 0 <= i < |catalog| && Drivable(req, catalog[i]) && t == TierOf(req, catalog[i]);
    TierOfMeans(req, catalog[i]);
  }

  /** And every tier is that of some device size of the fleet. */
  lemma TiersHaveSizes(nodes: Nodes, req: Request, catalog: seq<Size>, tiers: seq<Tier>, t: Tier)
    returns (small: string, wide: string)
    requires IsCatalog(nodes, req.role, catalog) && Compiled(req, catalog, tiers) && t in tiers
    ensures Extremes(nodes, req.role, t.ceiling, small, wide)
    ensures IsTierOf(req, t, nodes[small].deviceMemory, nodes[wide].deviceCount)
  {
    var i := TierHasSize(req, catalog, tiers, t);
    var n := SizeHasNode(nodes, req.role, catalog, i);
    assert Serves(nodes, req.role, n);
    var size;
    size, small, wide := BucketOf(nodes, req.role, catalog, n);
    OneSizePerBucket(catalog, size, catalog[i]);
  }

  // ---------- the preferences ----------

  lemma RungMeans(nodes: Nodes, req: Request, tier: Tier, names: seq<string>, n: string)
    requires IsRung(nodes, req, tier, names)
    ensures n in names <==> n in nodes && req.role in nodes[n].roles && CeilGiB(nodes[n].deviceMemory) == CeilGiB(tier.ceiling)
  {
  }

  lemma TiersAscend(req: Request, catalog: seq<Size>, tiers: seq<Tier>, i: nat, j: nat)
    requires Compiled(req, catalog, tiers) && i < j < |tiers|
    ensures tiers[i].count < tiers[j].count || (tiers[i].count == tiers[j].count && tiers[i].ceiling < tiers[j].ceiling)
  {
    assert tiers[i] in multiset(tiers) && tiers[j] in multiset(tiers);
    KeptPositive(req, catalog);
    TierLessIsByCountThenCeiling(req, tiers[i], tiers[j]);
  }

  /**
    The preferences, in the fleet's own fields: all tiers but the last, fewest
    devices first and among equals the smaller device, with evenly falling
    weights; each names exactly the nodes that take the role and have devices of
    the tier's size in whole GiB.
  */
  lemma RankingMeans(nodes: Nodes, req: Request, catalog: seq<Size>, tiers: seq<Tier>, prefs: seq<NodePreference>)
    requires Compiled(req, catalog, tiers) && IsRanking(nodes, req, tiers, prefs)
    ensures forall i, j :: 0 <= i < j < |tiers| ==>
              tiers[i].count < tiers[j].count || (tiers[i].count == tiers[j].count && tiers[i].ceiling < tiers[j].ceiling)
    ensures |prefs| == if |tiers| <= 1 then 0 else |tiers| - 1
    ensures forall i :: 0 <= i < |prefs| ==> prefs[i].weight == 100 - (100 * i) / |prefs|
    ensures forall i, n :: 0 <= i < |prefs| ==>
              (n in prefs[i].nodes <==>
               n in nodes && req.role in nodes[n].roles && CeilGiB(nodes[n].deviceMemory) == CeilGiB(tiers[i].ceiling))
  {
    forall i, j | 0 <= i < j < |tiers|
      ensures tiers[i].count < tiers[j].count || (tiers[i].count == tiers[j].count && tiers[i].ceiling < tiers[j].ceiling)
    {
      TiersAscend(req, catalog, tiers, i, j);
    }
    forall i, n | 0 <= i < |prefs|
      ensures n in prefs[i].nodes <==>
              n in nodes && req.role in nodes[n].roles && CeilGiB(nodes[n].deviceMemory) == CeilGiB(tiers[i].ceiling)
    {
      RungMeans(nodes, req, tiers[i], prefs[i].nodes, n);
    }
  }
}
