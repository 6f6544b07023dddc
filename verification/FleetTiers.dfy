/**
  A fleet and a request determine the tiers and the ranking: maps are iterated
  in any order, and two results of the same calls are nevertheless the same.
*/
module FleetTiers {
  import opened Placement
  import opened Tiers

  // ---------- one catalog ----------

  lemma SmallestIsUnique(nodes: Nodes, role: string, a: map<int, Size>, b: map<int, Size>, bucket: int)
    requires IsCatalogOf(nodes, nodes.Keys, role, a) && IsCatalogOf(nodes, nodes.Keys, role, b) && bucket in a
    ensures bucket in b && b[bucket].deviceMemory <= a[bucket].deviceMemory && a[bucket].maxPerNode <= b[bucket].maxPerNode
  {
    var n :| n in nodes && Usable(nodes[n], role) && nodes[n].deviceMemory == a[bucket].deviceMemory;
    assert CeilGiB(nodes[n].deviceMemory) == bucket;
    assert HasCount(nodes, nodes.Keys, role, bucket, a[bucket].maxPerNode);
  }

  /** Each bucket's smallest device and largest count are attained by nodes, so they are what they are. */
  lemma BucketsAreUnique(nodes: Nodes, role: string, a: map<int, Size>, b: map<int, Size>)
    requires IsCatalogOf(nodes, nodes.Keys, role, a) && IsCatalogOf(nodes, nodes.Keys, role, b)
    ensures a == b
  {
    forall k ensures k in a <==> k in b {
      if k in a {
        SmallestIsUnique(nodes, role, a, b, k);
      }
      if k in b {
        SmallestIsUnique(nodes, role, b, a, k);
      }
    }
    forall k | k in a ensures a[k] == b[k] {
      SmallestIsUnique(nodes, role, a, b, k);
      SmallestIsUnique(nodes, role, b, a, k);
    }
  }

  lemma {:induction false} BucketsOf(catalog: seq<Size>) returns (buckets: set<int>)
    requires DistinctBuckets(catalog)
    ensures |buckets| == |catalog|
    ensures forall k :: k in buckets <==> exists i :: 0 <= i < |catalog| && CeilGiB(catalog[i].deviceMemory) == k
  {
    if catalog == [] {
      buckets := {};
    } else {
      var rest := BucketsOf(catalog[1..]);
      var first := CeilGiB(catalog[0].deviceMemory);
      assert first !in rest;
      buckets := rest + {first};
      forall k | k in rest ensures exists i :: 0 <= i < |catalog| && CeilGiB(catalog[i].deviceMemory) == k {
        var i :| 0 <= i < |catalog[1..]| && CeilGiB(catalog[1..][i].deviceMemory) == k;
        assert catalog[i + 1] == catalog[1..][i];
      }
      forall i | 0 <= i < |catalog| ensures CeilGiB(catalog[i].deviceMemory) in buckets {
        if i > 0 {
          assert catalog[1..][i - 1] == catalog[i];
        }
      }
    }
  }

  lemma SubsetOfSameSize<T>(a: set<T>, b: set<T>)
    requires a <= b && |a| == |b|
    ensures a == b
  {
    assert b == a + (b - a);
  }

  /** A list of as many sizes as there are buckets, no bucket twice, has them all. */
  lemma ListsEverything(bySize: map<int, Size>, catalog: seq<Size>)
    requires Lists(bySize, catalog) && DistinctBuckets(catalog)
    ensures forall s :: s in catalog <==> CeilGiB(s.deviceMemory) in bySize && bySize[CeilGiB(s.deviceMemory)] == s
  {
    var buckets := BucketsOf(catalog);
    assert |bySize.Keys| == |bySize|;
    forall k | k in buckets ensures k in bySize {
      var i :| 0 <= i < |catalog| && CeilGiB(catalog[i].deviceMemory) == k;
    }
    SubsetOfSameSize(buckets, bySize.Keys);
  }

  lemma {:induction false} CountedOnce(catalog: seq<Size>, s: Size)
    requires DistinctBuckets(catalog)
    ensures multiset(catalog)[s] == if s in catalog then 1 else 0
  {
    if catalog == [] {
    } else {
      assert catalog == [catalog[0]] + catalog[1..];
      CountedOnce(catalog[1..], s);
    }
  }

  /** Two catalogs of one fleet list the same sizes, perhaps in another order. */
  lemma FleetHasOneCatalog(nodes: Nodes, role: string, a: seq<Size>, b: seq<Size>)
    requires IsCatalog(nodes, role, a) && IsCatalog(nodes, role, b)
    ensures multiset(a) == multiset(b)
  {
    var x: map<int, Size> :| IsCatalogOf(nodes, nodes.Keys, role, x) && Lists(x, a);
    var y: map<int, Size> :| IsCatalogOf(nodes, nodes.Keys, role, y) && Lists(y, b);
    BucketsAreUnique(nodes, role, x, y);
    ListsEverything(x, a);
    ListsEverything(x, b);
    forall s ensures multiset(a)[s] == multiset(b)[s] {
      CountedOnce(a, s);
      CountedOnce(b, s);
    }
  }

  // ---------- one list of tiers ----------

  /** A fleet and a request determine the compiled tiers. */
  lemma FleetDeterminesTiers(nodes: Nodes, req: Request, a: seq<Size>, b: seq<Size>, t: seq<Tier>, u: seq<Tier>)
    requires IsCatalog(nodes, req.role, a) && IsCatalog(nodes, req.role, b)
    requires Compiled(req, a, t) && Compiled(req, b, u)
    ensures t == u
  {
    FleetHasOneCatalog(nodes, req.role, a, b);
    DistinctBucketsAreUnambiguous(req, a);
    CatalogOrderDoesNotMatter(req, a, b, t, u);
  }

  // ---------- one ranking ----------

  ghost predicate Increasing(names: seq<string>)
  {
    forall i, j :: 0 <= i < j < |names| ==> StringLess(names[i], names[j])
  }

  lemma LeastIsFirst(a: seq<string>, b: seq<string>)
    requires Increasing(a) && Increasing(b) && SameElements(a, b) && a != [] && b != []
    ensures a[0] == b[0]
  {
    assert a[0] in b && b[0] in a;
    var i :| 0 <= i < |a| && a[i] == b[0];
    var j :| 0 <= j < |b| && b[j] == a[0];
    StringsCompare(a[0], b[0]);
  }

  lemma RestWithoutFirst(s: seq<string>, n: string)
    requires Increasing(s) && s != []
    ensures n in s[1..] <==> n in s && n != s[0]
  {
    StringsCompare(s[0], s[0]);
    if n in s[1..] {
      var i :| 0 <= i < |s[1..]| && s[1..][i] == n;
      assert StringLess(s[0], s[i + 1]);
    }
  }

  lemma {:induction false} SortedNamesAreUnique(a: seq<string>, b: seq<string>)
    requires Increasing(a) && Increasing(b) && SameElements(a, b)
    ensures a == b
  {
    HasElement(a);
    HasElement(b);
    if a == [] || b == [] {
    } else {
      LeastIsFirst(a, b);
      forall n ensures n in a[1..] <==> n in b[1..] {
        RestWithoutFirst(a, n);
        RestWithoutFirst(b, n);
      }
      SortedNamesAreUnique(a[1..], b[1..]);
      assert a == [a[0]] + a[1..] && b == [b[0]] + b[1..];
    }
  }

  lemma RungIsUnique(nodes: Nodes, req: Request, tier: Tier, a: seq<string>, b: seq<string>)
    requires IsRung(nodes, req, tier, a) && IsRung(nodes, req, tier, b)
    ensures a == b
  {
    assert SameElements(a, b);
    SortedNamesAreUnique(a, b);
  }

  lemma TiersDetermineRanking(nodes: Nodes, req: Request, tiers: seq<Tier>, p: seq<NodePreference>, q: seq<NodePreference>)
    requires IsRanking(nodes, req, tiers, p) && IsRanking(nodes, req, tiers, q)
    ensures p == q
  {
    forall i | 0 <= i < |p| ensures p[i] == q[i] {
      RungIsUnique(nodes, req, tiers[i], p[i].nodes, q[i].nodes);
    }
  }

  /** However the maps are iterated, one fleet and one request get one ranking. */
  lemma FleetDeterminesRanking(nodes: Nodes, req: Request, p: seq<NodePreference>, q: seq<NodePreference>)
    requires IsTightFit(nodes, req, p) && IsTightFit(nodes, req, q)
    ensures p == q
  {
    var a, t :| IsCatalog(nodes, req.role, a) && Compiled(req, a, t) && IsRanking(nodes, req, t, p);
    var b, u :| IsCatalog(nodes, req.role, b) && Compiled(req, b, u) && IsRanking(nodes, req, u, q);
    FleetDeterminesTiers(nodes, req, a, b, t, u);
    TiersDetermineRanking(nodes, req, t, p, q);
  }
}
