/**
  The device shapes a worker's claim may ask for: the catalog of sizes present
  in the fleet, the tiers compiled from it, and the node preferences that carry
  the tier order to the scheduler.
*/
module Tiers {
  import opened Placement

  /** A device size and the most of them any one node offers. */
  datatype Size = Size(deviceMemory: int, maxPerNode: int)

  /** Count devices, each between floor and ceiling. The name is the count and the ceiling in whole GiB. */
  datatype Tier = Tier(count: int, floor: int, ceiling: int)
  {
    function Name(): (int, int)
    {
      (count, CeilGiB(ceiling))
    }
  }

  // ---------- the catalog ----------

  predicate Usable(n: Node, role: string)
  {
    n.Accepts(role) && n.deviceMemory > 0 && n.deviceCount >= 1
  }

  ghost predicate HasMemory(nodes: Nodes, seen: set<string>, role: string, memory: int)
  {
    exists n :: n in seen && n in nodes && Usable(nodes[n], role) && nodes[n].deviceMemory == memory
  }

  ghost predicate HasCount(nodes: Nodes, seen: set<string>, role: string, bucket: int, count: int)
  {
    exists n :: n in seen && n in nodes && Usable(nodes[n], role) && CeilGiB(nodes[n].deviceMemory) == bucket &&
                nodes[n].deviceCount == count
  }

  /** Each bucket's size is some visited node's, and its count some visited node's in that bucket. */
  ghost predicate Attained(nodes: Nodes, seen: set<string>, role: string, bySize: map<int, Size>)
  {
    forall b :: b in bySize ==>
      && HasMemory(nodes, seen, role, bySize[b].deviceMemory) && CeilGiB(bySize[b].deviceMemory) == b
      && HasCount(nodes, seen, role, b, bySize[b].maxPerNode)
  }

  /** No visited node has a smaller device or more of them than its bucket says. */
  ghost predicate Bounded(nodes: Nodes, seen: set<string>, role: string, bySize: map<int, Size>)
  {
    forall n :: n in seen && n in nodes && Usable(nodes[n], role) ==>
      && CeilGiB(nodes[n].deviceMemory) in bySize
      && bySize[CeilGiB(nodes[n].deviceMemory)].deviceMemory <= nodes[n].deviceMemory
      && nodes[n].deviceCount <= bySize[CeilGiB(nodes[n].deviceMemory)].maxPerNode
  }

  /**
    Of the nodes visited, each whole-GiB bucket has the smallest device and the
    largest count found in it, and there is no other bucket.
  */
  ghost predicate IsCatalogOf(nodes: Nodes, seen: set<string>, role: string, bySize: map<int, Size>)
  {
    Attained(nodes, seen, role, bySize) && Bounded(nodes, seen, role, bySize)
  }

  /** Each bucket once. */
  ghost predicate DistinctBuckets(catalog: seq<Size>)
  {
    forall i, j :: 0 <= i < j < |catalog| ==> CeilGiB(catalog[i].deviceMemory) != CeilGiB(catalog[j].deviceMemory)
  }

  /** A catalog lists the buckets' sizes, in any order. */
  ghost predicate IsCatalog(nodes: Nodes, role: string, catalog: seq<Size>)
  {
    DistinctBuckets(catalog) &&
    exists bySize: map<int, Size> :: IsCatalogOf(nodes, nodes.Keys, role, bySize) && Lists(bySize, catalog)
  }

  ghost predicate Lists(bySize: map<int, Size>, catalog: seq<Size>)
  {
    && |catalog| == |bySize|
    && forall i :: 0 <= i < |catalog| ==> CeilGiB(catalog[i].deviceMemory) in bySize && bySize[CeilGiB(catalog[i].deviceMemory)] == catalog[i]
  }

  // ---------- the tiers ----------

  predicate Drivable(req: Request, s: Size)
  {
    s.deviceMemory > 0 && s.maxPerNode >= 1 &&
    DevicesFor(req.memory, s.deviceMemory) <= req.Widest() && DevicesFor(req.memory, s.deviceMemory) <= s.maxPerNode
  }

  function TierOf(req: Request, s: Size): Tier
    requires s.deviceMemory > 0
  {
    var count := DevicesFor(req.memory, s.deviceMemory);
    Tier(count, req.PerDeviceBytes(count), s.deviceMemory)
  }

  /** Fewest devices, then least unused memory, then the smaller size. */
  predicate TierLess(req: Request, a: Tier, b: Tier)
  {
    if a.count != b.count then a.count < b.count
    else
      var wasteA, wasteB := a.count * a.ceiling - req.memory, b.count * b.ceiling - req.memory;
      if wasteA != wasteB then wasteA < wasteB else a.ceiling < b.ceiling
  }

  /** The waste is not a key of its own: among tiers of one count it orders as the ceiling does. */
  lemma TierLessIsByCountThenCeiling(req: Request, a: Tier, b: Tier)
    requires a.count >= 1 && b.count >= 1
    ensures TierLess(req, a, b) <==> a.count < b.count || (a.count == b.count && a.ceiling < b.ceiling)
  {
    if a.count == b.count && a.ceiling != b.ceiling {
      MoreWaste(a.count, a.ceiling, b.ceiling);
    }
  }

  lemma MoreWaste(count: int, x: int, y: int)
    requires count >= 1
    ensures x < y ==> count * x < count * y
    ensures y < x ==> count * y < count * x
  {
    assert count * (y - x) == count * y - count * x;
  }

  function Names(tiers: seq<Tier>): set<(int, int)>
  {
    set t | t in tiers :: t.Name()
  }

  /** The tiers of the first k sizes, a name that was already taken skipped. */
  function Kept(req: Request, catalog: seq<Size>, k: nat): seq<Tier>
    requires k <= |catalog|
  {
    if k == 0 then []
    else
      var earlier := Kept(req, catalog, k - 1);
      if !Drivable(req, catalog[k - 1]) || TierOf(req, catalog[k - 1]).Name() in Names(earlier) then earlier
      else earlier + [TierOf(req, catalog[k - 1])]
  }

  ghost predicate Ordered(req: Request, tiers: seq<Tier>)
  {
    forall i, j :: 0 <= i < j < |tiers| ==> TierLess(req, tiers[i], tiers[j])
  }

  /** Every kept tier comes from some size, and no two share a name. */
  lemma {:induction false} KeptTiers(req: Request, catalog: seq<Size>, k: nat)
    requires k <= |catalog|
    ensures forall t :: t in Kept(req, catalog, k) ==>
              exists i :: 0 <= i < k && Drivable(req, catalog[i]) && t == TierOf(req, catalog[i])
    ensures forall i :: 0 <= i < k && Drivable(req, catalog[i]) ==> TierOf(req, catalog[i]).Name() in Names(Kept(req, catalog, k))
    ensures forall i, j :: 0 <= i < j < |Kept(req, catalog, k)| ==>
              Kept(req, catalog, k)[i].Name() != Kept(req, catalog, k)[j].Name()
  {
    if k == 0 {
    } else {
      KeptTiers(req, catalog, k - 1);
    }
  }

  /** What every tier promises, whatever the catalog. */
  lemma TierFits(req: Request, s: Size)
    requires Drivable(req, s)
    ensures var t := TierOf(req, s);
            && 1 <= t.count <= req.Widest() && t.count <= s.maxPerNode
            && t.floor <= t.ceiling && t.count * t.floor >= req.memory
  {
    ShareFits(req, s.deviceMemory);
  }

  // ---------- sorting ----------

  /** Not-after is transitive, and of two elements one is not after the other. */
  ghost predicate Sortable<T(!new)>(less: (T, T) -> bool, s: seq<T>)
  {
    && (forall a, b :: a in s && b in s ==> !(less(a, b) && less(b, a)))
    && (forall a, b, c :: a in s && b in s && c in s && !less(b, a) && !less(c, b) ==> !less(c, a))
  }

  ghost predicate IsSorted<T>(less: (T, T) -> bool, s: seq<T>)
  {
    forall i, j :: 0 <= i < j < |s| ==> !less(s[j], s[i])
  }

  lemma PrefixSortable<T(!new)>(less: (T, T) -> bool, s: seq<T>, r: seq<T>)
    requires Sortable(less, s) && forall x :: x in r ==> x in s
    ensures Sortable(less, r)
  {
  }

  /** Where x goes in a sorted sequence: after everything it is not before. */
  method Place<T(!new)>(less: (T, T) -> bool, s: seq<T>, x: T) returns (k: nat)
    requires Sortable(less, s + [x]) && IsSorted(less, s)
    ensures k <= |s|
    ensures forall i :: 0 <= i < k ==> !less(x, s[i])
    ensures forall i :: k <= i < |s| ==> !less(s[i], x)
  {
    k := |s|;
    while k > 0 && less(x, s[k - 1])
      invariant 0 <= k <= |s|
      invariant forall i :: k <= i < |s| ==> less(x, s[i])
    {
      k := k - 1;
    }
    assert forall i :: 0 <= i < |s| ==> s[i] in s + [x];
    assert x in s + [x];
    if k > 0 {
      assert s[k - 1] in s + [x];
    }
  }

  lemma SortedWith<T(!new)>(less: (T, T) -> bool, s: seq<T>, x: T, k: nat)
    requires IsSorted(less, s) && k <= |s|
    requires forall i :: 0 <= i < k ==> !less(x, s[i])
    requires forall i :: k <= i < |s| ==> !less(s[i], x)
    ensures IsSorted(less, s[..k] + [x] + s[k..])
    ensures multiset(s[..k] + [x] + s[k..]) == multiset(s) + multiset{x}
  {
    assert s == s[..k] + s[k..];
  }

  method Sort<T(!new)>(less: (T, T) -> bool, s: seq<T>) returns (r: seq<T>)
    requires Sortable(less, s)
    ensures multiset(r) == multiset(s) && IsSorted(less, r)
  {
    r := [];
    for i := 0 to |s|
      invariant multiset(r) == multiset(s[..i]) && IsSorted(less, r)
    {
      assert s[..i + 1] == s[..i] + [s[i]];
      forall x | x in r + [s[i]] ensures x in s {
        assert x in r ==> x in multiset(r);
      }
      PrefixSortable(less, s, r + [s[i]]);
      var k := Place(less, r, s[i]);
      SortedWith(less, r, s[i], k);
      r := r[..k] + [s[i]] + r[k..];
    }
    assert s[..|s|] == s;
  }

  // ---------- compiling the tiers ----------

  ghost predicate Positive(tiers: seq<Tier>)
  {
    forall t :: t in tiers ==> t.count >= 1
  }

  lemma KeptPositive(req: Request, catalog: seq<Size>)
    ensures Positive(Kept(req, catalog, |catalog|))
  {
    KeptTiers(req, catalog, |catalog|);
    forall t | t in Kept(req, catalog, |catalog|) ensures t.count >= 1 {
      var i :| 0 <= i < |catalog| && Drivable(req, catalog[i]) && t == TierOf(req, catalog[i]);
      TierFits(req, catalog[i]);
    }
  }

  lemma TiersSortable(req: Request, tiers: seq<Tier>)
    requires Positive(tiers)
    ensures Sortable((a, b) => TierLess(req, a, b), tiers)
  {
    forall a, b | a in tiers && b in tiers
      ensures TierLess(req, a, b) <==> a.count < b.count || (a.count == b.count && a.ceiling < b.ceiling)
    {
      TierLessIsByCountThenCeiling(req, a, b);
    }
  }

  ghost predicate DistinctNames(tiers: seq<Tier>)
  {
    forall i, j :: 0 <= i < j < |tiers| ==> tiers[i].Name() != tiers[j].Name()
  }

  lemma {:induction false} NamesOccurOnce(s: seq<Tier>, t: Tier)
    requires DistinctNames(s)
    ensures multiset(s)[t] <= 1
    ensures forall x :: x in s && x.Name() == t.Name() && t in s ==> x == t
  {
    if s == [] {
    } else {
      assert s == [s[0]] + s[1..];
      assert DistinctNames(s[1..]);
      NamesOccurOnce(s[1..], t);
    }
  }

  lemma Twice<T>(s: seq<T>, i: nat, j: nat)
    requires i < j < |s| && s[i] == s[j]
    ensures multiset(s)[s[i]] >= 2
  {
    assert s == s[..i] + [s[i]] + s[i + 1..j] + [s[j]] + s[j + 1..];
  }

  /** Sorted without ties: distinct names of one count have distinct ceilings. */
  lemma SortedIsOrdered(req: Request, kept: seq<Tier>, r: seq<Tier>)
    requires Positive(kept) && DistinctNames(kept) && multiset(r) == multiset(kept)
    requires IsSorted((a, b) => TierLess(req, a, b), r)
    ensures Ordered(req, r)
  {
    forall i, j | 0 <= i < j < |r| ensures TierLess(req, r[i], r[j]) {
      assert r[i] in multiset(kept) && r[j] in multiset(kept);
      TierLessIsByCountThenCeiling(req, r[i], r[j]);
      TierLessIsByCountThenCeiling(req, r[j], r[i]);
      if r[i] == r[j] {
        Twice(r, i, j);
        NamesOccurOnce(kept, r[i]);
      } else {
        NamesOccurOnce(kept, r[i]);
        assert r[j] in kept && r[i] in kept;
      }
    }
  }

  /** The kept tiers, in strict order. */
  ghost predicate Compiled(req: Request, catalog: seq<Size>, tiers: seq<Tier>)
  {
    multiset(tiers) == multiset(Kept(req, catalog, |catalog|)) && Ordered(req, tiers)
  }

  /** One tier per size the worker can use, each name once, in strict order. */
  method Compile(req: Request, catalog: seq<Size>) returns (tiers: seq<Tier>)
    ensures Compiled(req, catalog, tiers)
  {
    var seen: set<(int, int)> := {};
    var kept: seq<Tier> := [];
    for i := 0 to |catalog|
      invariant kept == Kept(req, catalog, i) && seen == Names(kept)
    {
      var size := catalog[i];
      if size.deviceMemory <= 0 || size.maxPerNode < 1 {
        continue;
      }
      var count := DevicesFor(req.memory, size.deviceMemory);
      if count > req.Widest() || count > size.maxPerNode {
        continue;
      }
      var tier := TierOf(req, size);
      if tier.Name() in seen {
        continue;
      }
      seen := seen + {tier.Name()};
      kept := kept + [tier];
    }
    KeptTiers(req, catalog, |catalog|);
    KeptPositive(req, catalog);
    TiersSortable(req, kept);
    tiers := Sort((a, b) => TierLess(req, a, b), kept);
    SortedIsOrdered(req, kept, tiers);
  }

  // ---------- the order of the catalog ----------

  ghost predicate SameElements<T(!new)>(a: seq<T>, b: seq<T>)
  {
    forall t :: t in a <==> t in b
  }

  /** Two lists in the same strict order with the same elements are the same list. */
  lemma {:induction false} OrderedIsUnique(req: Request, a: seq<Tier>, b: seq<Tier>)
    requires Ordered(req, a) && Ordered(req, b) && Positive(a) && SameElements(a, b)
    ensures a == b
  {
    HasElement(a);
    HasElement(b);
    if a == [] || b == [] {
    } else {
      FirstIsShared(req, a, b);
      assert a == [a[0]] + a[1..] && b == [b[0]] + b[1..];
      forall t ensures t in a[1..] <==> t in b[1..] {
        NotFirst(req, a, t);
        NotFirst(req, b, t);
      }
      OrderedIsUnique(req, a[1..], b[1..]);
    }
  }

  lemma HasElement<T(!new)>(s: seq<T>)
    ensures s == [] || exists t :: t in s
  {
    if s != [] {
      assert s[0] in s;
    }
  }

  lemma NotFirst(req: Request, s: seq<Tier>, t: Tier)
    requires Ordered(req, s) && s != []
    ensures t in s[1..] <==> t in s && t != s[0]
  {
    if t in s[1..] {
      var i :| 0 <= i < |s[1..]| && s[1..][i] == t;
      assert TierLess(req, s[0], s[i + 1]);
    }
  }

  lemma FirstIsShared(req: Request, a: seq<Tier>, b: seq<Tier>)
    requires Ordered(req, a) && Ordered(req, b) && Positive(a) && SameElements(a, b) && a != [] && b != []
    ensures a[0] == b[0]
  {
    assert a[0] in b && b[0] in a;
    var i :| 0 <= i < |a| && a[i] == b[0];
    var j :| 0 <= j < |b| && b[j] == a[0];
    TierLessIsByCountThenCeiling(req, a[0], b[0]);
    TierLessIsByCountThenCeiling(req, b[0], a[0]);
  }

  /** Sizes that give the same tier name are the same size of device. */
  ghost predicate Unambiguous(req: Request, catalog: seq<Size>)
  {
    forall i, j :: 0 <= i < |catalog| && 0 <= j < |catalog| && Drivable(req, catalog[i]) && Drivable(req, catalog[j]) &&
                     TierOf(req, catalog[i]).Name() == TierOf(req, catalog[j]).Name() ==>
                     catalog[i].deviceMemory == catalog[j].deviceMemory
  }

  lemma DistinctBucketsAreUnambiguous(req: Request, catalog: seq<Size>)
    requires DistinctBuckets(catalog)
    ensures Unambiguous(req, catalog)
  {
  }

  /** Without ambiguity the kept tiers are those of all sizes the worker can use. */
  lemma KeptAll(req: Request, catalog: seq<Size>, t: Tier)
    requires Unambiguous(req, catalog)
    ensures t in Kept(req, catalog, |catalog|) <==> exists i :: 0 <= i < |catalog| && Drivable(req, catalog[i]) && t == TierOf(req, catalog[i])
  {
    var kept := Kept(req, catalog, |catalog|);
    KeptTiers(req, catalog, |catalog|);
    if i :| 0 <= i < |catalog| && Drivable(req, catalog[i]) && t == TierOf(req, catalog[i]) {
      assert t.Name() in Names(kept);
      var u :| u in kept && u.Name() == t.Name();
      var j :| 0 <= j < |catalog| && Drivable(req, catalog[j]) && u == TierOf(req, catalog[j]);
      assert catalog[i].deviceMemory == catalog[j].deviceMemory;
    }
  }

  lemma PermutedUnambiguous(req: Request, a: seq<Size>, b: seq<Size>)
    requires multiset(a) == multiset(b) && Unambiguous(req, a)
    ensures Unambiguous(req, b)
  {
    forall i, j | 0 <= i < |b| && 0 <= j < |b| && Drivable(req, b[i]) && Drivable(req, b[j]) &&
                    TierOf(req, b[i]).Name() == TierOf(req, b[j]).Name()
      ensures b[i].deviceMemory == b[j].deviceMemory
    {
      assert b[i] in multiset(a) && b[j] in multiset(a);
      var m :| 0 <= m < |a| && a[m] == b[i];
      var n :| 0 <= n < |a| && a[n] == b[j];
    }
  }

  lemma PermutedKept(req: Request, a: seq<Size>, b: seq<Size>, t: Tier)
    requires multiset(a) == multiset(b) && Unambiguous(req, a) && t in Kept(req, a, |a|)
    ensures t in Kept(req, b, |b|)
  {
    PermutedUnambiguous(req, a, b);
    KeptAll(req, a, t);
    KeptAll(req, b, t);
    var i :| 0 <= i < |a| && Drivable(req, a[i]) && t == TierOf(req, a[i]);
    assert a[i] in multiset(b);
    var j :| 0 <= j < |b| && b[j] == a[i];
  }

  /** The tier list is the same for every order of an unambiguous catalog. */
  lemma CatalogOrderDoesNotMatter(req: Request, a: seq<Size>, b: seq<Size>, x: seq<Tier>, y: seq<Tier>)
    requires multiset(a) == multiset(b) && Unambiguous(req, a)
    requires Compiled(req, a, x) && Compiled(req, b, y)
    ensures x == y
  {
    PermutedUnambiguous(req, a, b);
    KeptPositive(req, a);
    forall t ensures t in x <==> t in y {
      assert t in x <==> t in multiset(x);
      assert t in y <==> t in multiset(y);
      if t in x {
        PermutedKept(req, a, b, t);
      }
      if t in y {
        PermutedKept(req, b, a, t);
      }
    }
    assert forall t :: t in x ==> t in multiset(x);
    OrderedIsUnique(req, x, y);
  }

  lemma MovedToFront<T>(s: seq<T>, m: nat)
    requires m < |s|
    ensures multiset([s[m]] + s[..m] + s[m + 1..]) == multiset(s)
  {
    assert s == s[..m] + [s[m]] + s[m + 1..];
  }

  lemma OneIsDropped(req: Request, a: seq<Size>, i: nat, j: nat)
    requires i < |a| && j < |a| && Drivable(req, a[i]) && Drivable(req, a[j])
    requires TierOf(req, a[i]).Name() == TierOf(req, a[j]).Name() && a[i].deviceMemory != a[j].deviceMemory
    ensures TierOf(req, a[i]) !in Kept(req, a, |a|) || TierOf(req, a[j]) !in Kept(req, a, |a|)
  {
    KeptTiers(req, a, |a|);
    NamesOccurOnce(Kept(req, a, |a|), TierOf(req, a[i]));
  }

  /** And only then: of two sizes that share a name, whichever comes first is kept. */
  lemma CatalogOrderMatters(req: Request, a: seq<Size>) returns (b: seq<Size>, t: Tier)
    requires !Unambiguous(req, a)
    ensures multiset(b) == multiset(a) && t in Kept(req, b, |b|) && t !in Kept(req, a, |a|)
  {
    var i, j :| 0 <= i < |a| && 0 <= j < |a| && Drivable(req, a[i]) && Drivable(req, a[j]) &&
      TierOf(req, a[i]).Name() == TierOf(req, a[j]).Name() && a[i].deviceMemory != a[j].deviceMemory;
    OneIsDropped(req, a, i, j);
    var m := if TierOf(req, a[i]) in Kept(req, a, |a|) then j else i;
    t, b := TierOf(req, a[m]), [a[m]] + a[..m] + a[m + 1..];
    MovedToFront(a, m);
    FirstIsKept(req, b, |b|);
  }

  /** Two sizes in one whole-GiB bucket, both of which the worker can use, make a catalog ambiguous. */
  lemma TwoSizesOfOneName() returns (req: Request, catalog: seq<Size>)
    ensures !Unambiguous(req, catalog) && !SameTiers(req, catalog, [catalog[1], catalog[0]])
  {
    req := Request(true, "trainer", GIB, "", "w", 1, 0);
    var small, large := Size(2 * GIB - 1, 1), Size(2 * GIB, 1);
    catalog := [small, large];
    DevicesForIsLeast(req.memory, small.deviceMemory, 1);
    DevicesForIsLeast(req.memory, large.deviceMemory, 1);
    assert Drivable(req, catalog[0]) && Drivable(req, catalog[1]);
    assert TierOf(req, catalog[0]).Name() == TierOf(req, catalog[1]).Name() == (1, 2);
    FirstIsKept(req, catalog, 2);
    FirstIsKept(req, [large, small], 2);
    KeptTiers(req, catalog, 2);
    OneIsDropped(req, catalog, 0, 1);
  }

  ghost predicate SameTiers(req: Request, a: seq<Size>, b: seq<Size>)
  {
    SameElements(Kept(req, a, |a|), Kept(req, b, |b|))
  }

  /** The catalog's order never matters if and only if the catalog is unambiguous. */
  lemma CatalogOrderIff(req: Request, a: seq<Size>)
    ensures Unambiguous(req, a) <==> forall b: seq<Size> :: multiset(b) == multiset(a) ==> SameTiers(req, a, b)
  {
    if Unambiguous(req, a) {
      forall b: seq<Size> | multiset(b) == multiset(a) ensures SameTiers(req, a, b) {
        PermutedUnambiguous(req, a, b);
        forall t ensures t in Kept(req, a, |a|) <==> t in Kept(req, b, |b|) {
          if t in Kept(req, a, |a|) {
            PermutedKept(req, a, b, t);
          }
          if t in Kept(req, b, |b|) {
            PermutedKept(req, b, a, t);
          }
        }
      }
    } else {
      var b, t := CatalogOrderMatters(req, a);
      assert !SameTiers(req, a, b);
    }
  }

  lemma {:induction false} FirstIsKept(req: Request, catalog: seq<Size>, k: nat)
    requires 1 <= k <= |catalog| && Drivable(req, catalog[0])
    ensures TierOf(req, catalog[0]) in Kept(req, catalog, k)
  {
    if k > 1 {
      FirstIsKept(req, catalog, k - 1);
    } else {
      assert Kept(req, catalog, 0) == [];
    }
  }

  // ---------- reading the catalog off the fleet ----------

  /** One more node: its bucket keeps the smaller device and the larger count. */
  function Widened(bySize: map<int, Size>, n: Node): map<int, Size>
  {
    var bucket := CeilGiB(n.deviceMemory);
    var size := if bucket in bySize then bySize[bucket] else Size(0, 0);
    var memory := if size.deviceMemory == 0 || n.deviceMemory < size.deviceMemory then n.deviceMemory else size.deviceMemory;
    var most := if n.deviceCount > size.maxPerNode then n.deviceCount else size.maxPerNode;
    bySize[bucket := Size(memory, most)]
  }

  lemma SeenGrows(nodes: Nodes, seen: set<string>, role: string, n: string, memory: int, bucket: int, count: int)
    ensures HasMemory(nodes, seen, role, memory) ==> HasMemory(nodes, seen + {n}, role, memory)
    ensures HasCount(nodes, seen, role, bucket, count) ==> HasCount(nodes, seen + {n}, role, bucket, count)
    ensures n in nodes && Usable(nodes[n], role) ==>
              && HasMemory(nodes, seen + {n}, role, nodes[n].deviceMemory)
              && HasCount(nodes, seen + {n}, role, CeilGiB(nodes[n].deviceMemory), nodes[n].deviceCount)
  {
    assert n in seen + {n};
    if HasMemory(nodes, seen, role, memory) {
      var m :| m in seen && m in nodes && Usable(nodes[m], role) && nodes[m].deviceMemory == memory;
      assert m in seen + {n};
    }
    if HasCount(nodes, seen, role, bucket, count) {
      var m :| m in seen && m in nodes && Usable(nodes[m], role) && CeilGiB(nodes[m].deviceMemory) == bucket &&
        nodes[m].deviceCount == count;
      assert m in seen + {n};
    }
  }

  lemma AttainedNext(nodes: Nodes, seen: set<string>, role: string, bySize: map<int, Size>, n: string)
    requires n in nodes && Attained(nodes, seen, role, bySize) && Bounded(nodes, seen, role, bySize)
    ensures Attained(nodes, seen + {n}, role, if Usable(nodes[n], role) then Widened(bySize, nodes[n]) else bySize)
  {
    var next := if Usable(nodes[n], role) then Widened(bySize, nodes[n]) else bySize;
    forall b | b in next
      ensures HasMemory(nodes, seen + {n}, role, next[b].deviceMemory) && CeilGiB(next[b].deviceMemory) == b
      ensures HasCount(nodes, seen + {n}, role, b, next[b].maxPerNode)
    {
      SeenGrows(nodes, seen, role, n, next[b].deviceMemory, b, next[b].maxPerNode);
    }
  }

  lemma BoundedNext(nodes: Nodes, seen: set<string>, role: string, bySize: map<int, Size>, n: string)
    requires n in nodes && Attained(nodes, seen, role, bySize) && Bounded(nodes, seen, role, bySize)
    ensures Bounded(nodes, seen + {n}, role, if Usable(nodes[n], role) then Widened(bySize, nodes[n]) else bySize)
  {
    forall b | b in bySize ensures bySize[b].deviceMemory != 0 {
      assert HasMemory(nodes, seen, role, bySize[b].deviceMemory);
    }
  }

  /** The fleet's device shapes for one role; neither loop depends on the order it visits. */
  method Catalog(nodes: Nodes, role: string) returns (catalog: seq<Size>)
    ensures IsCatalog(nodes, role, catalog)
  {
    var bySize: map<int, Size> := map[];
    var todo := nodes.Keys;
    ghost var seen: set<string> := {};
    while todo != {}
      invariant todo + seen == nodes.Keys && todo !! seen
      invariant IsCatalogOf(nodes, seen, role, bySize)
    {
      var n :| n in todo;
      AttainedNext(nodes, seen, role, bySize, n);
      BoundedNext(nodes, seen, role, bySize, n);
      if Usable(nodes[n], role) {
        bySize := Widened(bySize, nodes[n]);
      }
      todo, seen := todo - {n}, seen + {n};
    }
    assert seen == nodes.Keys;
    catalog := Listed(bySize);
  }

  lemma HasMember(s: set<int>)
    ensures s == {} || exists b :: b in s
  {
    assert (forall b :: b !in s) ==> s == {};
  }

  method Listed(bySize: map<int, Size>) returns (catalog: seq<Size>)
    requires forall b :: b in bySize ==> CeilGiB(bySize[b].deviceMemory) == b
    ensures Lists(bySize, catalog) && DistinctBuckets(catalog)
    ensures forall b :: b in bySize ==> bySize[b] in catalog
  {
    catalog := [];
    var todo := bySize.Keys;
    while todo != {}
      invariant todo <= bySize.Keys && |catalog| + |todo| == |bySize|
      invariant forall i :: 0 <= i < |catalog| ==>
                  CeilGiB(catalog[i].deviceMemory) in bySize.Keys - todo && bySize[CeilGiB(catalog[i].deviceMemory)] == catalog[i]
      invariant DistinctBuckets(catalog)
      invariant forall b :: b in bySize && b !in todo ==> bySize[b] in catalog
    {
      HasMember(todo);
      var b :| b in todo;
      catalog := catalog + [bySize[b]];
      todo := todo - {b};
    }
  }

  // ---------- what a tier promises about the fleet ----------

  /** Every pool that accepts the role and fits the worker, with the devices it would take there. */
  function CandidateNodes(req: Request, nodes: Nodes): map<string, int>
  {
    map n | n in nodes && nodes[n].Accepts(req.role) && req.DevicesOn(nodes[n]) > 0 :: req.DevicesOn(nodes[n])
  }

  /** Every size of the catalog has a node with its count and with devices at least as large, in the same bucket. */
  lemma SizeHasNode(nodes: Nodes, role: string, catalog: seq<Size>, i: nat) returns (n: string)
    requires IsCatalog(nodes, role, catalog) && i < |catalog|
    ensures n in nodes && Usable(nodes[n], role) && nodes[n].deviceCount == catalog[i].maxPerNode
    ensures CeilGiB(nodes[n].deviceMemory) == CeilGiB(catalog[i].deviceMemory) && catalog[i].deviceMemory <= nodes[n].deviceMemory
  {
    var bySize: map<int, Size> :| IsCatalogOf(nodes, nodes.Keys, role, bySize) && Lists(bySize, catalog);
    var bucket := CeilGiB(catalog[i].deviceMemory);
    assert bySize[bucket] == catalog[i];
    assert HasCount(nodes, nodes.Keys, role, bucket, bySize[bucket].maxPerNode);
    n :| n in nodes && Usable(nodes[n], role) && CeilGiB(nodes[n].deviceMemory) == bucket &&
      nodes[n].deviceCount == bySize[bucket].maxPerNode;
  }

  /**
    Every tier compiled from the fleet's catalog can be met: some node that
    accepts the role has that many devices, each within the tier's bounds
    rounded to whole GiB, and the worker fits there.
  */
  lemma TierIsRealizable(req: Request, nodes: Nodes, catalog: seq<Size>, t: Tier) returns (n: string)
    requires IsCatalog(nodes, req.role, catalog) && t in Kept(req, catalog, |catalog|)
    ensures n in nodes && nodes[n].Accepts(req.role) && nodes[n].deviceCount >= t.count
    ensures t.floor <= nodes[n].deviceMemory && CeilGiB(nodes[n].deviceMemory) == CeilGiB(t.ceiling)
    ensures n in CandidateNodes(req, nodes)
  {
    KeptTiers(req, catalog, |catalog|);
    var i :| 0 <= i < |catalog| && Drivable(req, catalog[i]) && t == TierOf(req, catalog[i]);
    TierFits(req, catalog[i]);
    n := SizeHasNode(nodes, req.role, catalog, i);
    LargerDevicesNeedNoMore(req.memory, catalog[i].deviceMemory, nodes[n].deviceMemory);
  }

  lemma LargerDevicesNeedNoMore(memory: nat, small: int, large: int)
    requires 0 < small <= large
    ensures 1 <= DevicesFor(memory, large) <= DevicesFor(memory, small)
  {
    var count := DevicesFor(memory, small);
    DevicesForIsLeast(memory, small, count);
    DevicesForIsLeast(memory, large, count);
    TimesMonotonic(small, large, count);
  }

  /**
    The converse fails: a pool can fit a worker that gets no tier, because a
    slightly smaller device in the same GiB bucket sets the tier's size.
  */
  lemma CandidateWithoutTier() returns (req: Request, nodes: Nodes)
    ensures CandidateNodes(req, nodes) != map[]
    ensures forall catalog :: IsCatalog(nodes, req.role, catalog) ==> Kept(req, catalog, |catalog|) == []
  {
    var small := Node("a", 1, 2 * GIB - 1, 0, 0, {"trainer"});
    var large := Node("b", 1, 2 * GIB, 0, 0, {"trainer"});
    req := Request(true, "trainer", 2 * GIB, "", "w", 1, 0);
    nodes := map["a" := small, "b" := large];
    DevicesForIsLeast(req.memory, large.deviceMemory, 1);
    DevicesForIsLeast(req.memory, small.deviceMemory, 1);
    assert "b" in CandidateNodes(req, nodes);
    forall catalog | IsCatalog(nodes, req.role, catalog) ensures Kept(req, catalog, |catalog|) == [] {
      NothingKept(req, nodes, catalog, small);
    }
  }

  lemma NothingKept(req: Request, nodes: Nodes, catalog: seq<Size>, small: Node)
    requires IsCatalog(nodes, req.role, catalog) && req.Widest() == 1
    requires "a" in nodes && nodes["a"] == small && Usable(small, req.role) && small.deviceMemory < req.memory
    requires forall n :: n in nodes ==> CeilGiB(nodes[n].deviceMemory) == CeilGiB(small.deviceMemory)
    ensures Kept(req, catalog, |catalog|) == []
  {
    KeptTiers(req, catalog, |catalog|);
    var bySize: map<int, Size> :| IsCatalogOf(nodes, nodes.Keys, req.role, bySize) && Lists(bySize, catalog);
    forall i | 0 <= i < |catalog| ensures !Drivable(req, catalog[i]) {
      var bucket := CeilGiB(catalog[i].deviceMemory);
      assert bySize[bucket] == catalog[i];
      assert HasMemory(nodes, nodes.Keys, req.role, bySize[bucket].deviceMemory);
      assert bucket == CeilGiB(small.deviceMemory);
      if catalog[i].deviceMemory > 0 {
        DevicesForIsLeast(req.memory, catalog[i].deviceMemory, 1);
      }
    }
    HasElement(Kept(req, catalog, |catalog|));
  }

  // ---------- ranking the nodes ----------

  datatype NodePreference = NodePreference(weight: int, nodes: seq<string>)

  /** The weight of the i-th of n tiers; the last tier gets none. */
  function Weight(i: nat, n: nat): int
    requires n >= 2
  {
    100 - (100 * i) / (n - 1)
  }

  /** Division with the quotient squeezed between two products. */
  lemma Squeeze(a: nat, d: nat, lo: int, hi: int)
    requires d > 0 && lo * d <= a < hi * d
    ensures lo <= a / d < hi
  {
    var q, r := a / d, a % d;
    assert q * d + r == a && 0 <= r < d;
    assert (lo - 1) * d == lo * d - d;
    if q < lo {
      TimesMonotonic(q, lo - 1, d);
    }
    if q >= hi {
      TimesMonotonic(hi, q, d);
    }
  }

  lemma WeightInRange(i: nat, n: nat)
    requires i + 1 < n
    ensures 1 <= Weight(i, n) <= 100
  {
    Squeeze(100 * i, n - 1, 0, 100);
  }

  lemma WeightsDescend(i: nat, n: nat)
    requires i + 2 < n
    ensures Weight(i + 1, n) <= Weight(i, n)
    ensures n <= 101 ==> Weight(i + 1, n) < Weight(i, n)
  {
    var d := n - 1;
    var q, r := (100 * i) / d, (100 * i) % d;
    assert q * d + r == 100 * i && 0 <= r < d;
    var slack := if n <= 101 then q + 1 else q;
    assert (q + 1) * d == q * d + d;
    assert (100 * i + 101) * d >= 100 * i + 101;
    Squeeze(100 * (i + 1), d, slack, 100 * i + 101);
  }

  predicate InBucket(nodes: Nodes, role: string, bucket: int, n: string)
  {
    n in nodes && nodes[n].Accepts(role) && CeilGiB(nodes[n].deviceMemory) == bucket
  }

  /** A rung lists, in order, exactly the nodes whose devices match its tier. */
  ghost predicate IsRung(nodes: Nodes, req: Request, tier: Tier, names: seq<string>)
  {
    && (forall n :: n in names <==> InBucket(nodes, req.role, CeilGiB(tier.ceiling), n))
    && (forall i, j :: 0 <= i < j < |names| ==> StringLess(names[i], names[j]))
  }

  ghost predicate IsRanking(nodes: Nodes, req: Request, tiers: seq<Tier>, prefs: seq<NodePreference>)
  {
    && |prefs| == (if |tiers| < 2 then 0 else |tiers| - 1)
    && forall i :: 0 <= i < |prefs| ==> prefs[i].weight == Weight(i, |tiers|) && IsRung(nodes, req, tiers[i], prefs[i].nodes)
  }

  lemma StringsSortable(s: seq<string>)
    ensures Sortable((a, b) => StringLess(a, b), s)
  {
    forall a, b, c | a in s && b in s && c in s ensures !(StringLess(a, b) && StringLess(b, a))
      ensures !StringLess(b, a) && !StringLess(c, b) ==> !StringLess(c, a)
    {
      StringsCompare(a, b);
      StringsCompare(b, c);
      StringIrreflexive(c);
      if StringLess(a, b) && StringLess(b, c) {
        StringsTransitive(a, b, c);
        StringsCompare(a, c);
      }
    }
  }

  /** The names of one rung, sorted. */
  method RungOf(nodes: Nodes, req: Request, tier: Tier) returns (names: seq<string>)
    ensures IsRung(nodes, req, tier, names)
  {
    var found: seq<string> := [];
    var todo := nodes.Keys;
    while todo != {}
      invariant todo <= nodes.Keys
      invariant forall n :: n in found <==> n !in todo && InBucket(nodes, req.role, CeilGiB(tier.ceiling), n)
      invariant forall i, j :: 0 <= i < j < |found| ==> found[i] != found[j]
    {
      var n :| n in todo;
      if nodes[n].Accepts(req.role) && CeilGiB(nodes[n].deviceMemory) == CeilGiB(tier.ceiling) {
        found := found + [n];
      }
      todo := todo - {n};
    }
    StringsSortable(found);
    names := Sort((a, b) => StringLess(a, b), found);
    SortedNames(found, names);
  }

  lemma {:induction false} OccursOnce(s: seq<string>, x: string)
    requires forall i, j :: 0 <= i < j < |s| ==> s[i] != s[j]
    ensures multiset(s)[x] <= 1
  {
    if s == [] {
    } else {
      assert s == [s[0]] + s[1..];
      OccursOnce(s[1..], x);
    }
  }

  lemma SortedNames(found: seq<string>, names: seq<string>)
    requires multiset(names) == multiset(found) && IsSorted((a, b) => StringLess(a, b), names)
    requires forall i, j :: 0 <= i < j < |found| ==> found[i] != found[j]
    ensures SameElements(found, names)
    ensures forall i, j :: 0 <= i < j < |names| ==> StringLess(names[i], names[j])
  {
    forall n ensures n in found <==> n in names {
      assert n in found <==> n in multiset(found);
      assert n in names <==> n in multiset(names);
    }
    forall i, j | 0 <= i < j < |names| ensures StringLess(names[i], names[j]) {
      StringsCompare(names[i], names[j]);
      if names[i] == names[j] {
        Twice(names, i, j);
        OccursOnce(found, names[i]);
      }
    }
  }

  /** The preferences rank the tiers compiled from the fleet's catalog. */
  ghost predicate IsTightFit(nodes: Nodes, req: Request, prefs: seq<NodePreference>)
  {
    exists catalog: seq<Size>, tiers: seq<Tier> ::
      IsCatalog(nodes, req.role, catalog) && Compiled(req, catalog, tiers) && IsRanking(nodes, req, tiers, prefs)
  }

  /** Carries the tier order to the nodes. */
  method PreferTightFit(nodes: Nodes, req: Request) returns (prefs: seq<NodePreference>)
    ensures IsTightFit(nodes, req, prefs)
  {
    var catalog := Catalog(nodes, req.role);
    var tiers := Compile(req, catalog);
    prefs := [];
    if |tiers| >= 2 {
      for i := 0 to |tiers| - 1
        invariant |prefs| == i
        invariant forall k :: 0 <= k < i ==> prefs[k].weight == Weight(k, |tiers|) && IsRung(nodes, req, tiers[k], prefs[k].nodes)
      {
        var names := RungOf(nodes, req, tiers[i]);
        RungIsNotEmpty(nodes, req, catalog, tiers, i, names);
        if |names| > 0 {
          prefs := prefs + [NodePreference(100 - (100 * i) / (|tiers| - 1), names)];
        }
      }
    }
    assert IsRanking(nodes, req, tiers, prefs);
  }

  /** Every tier's rung has a node, so none is left out. */
  lemma RungIsNotEmpty(nodes: Nodes, req: Request, catalog: seq<Size>, tiers: seq<Tier>, i: nat, names: seq<string>)
    requires IsCatalog(nodes, req.role, catalog) && Compiled(req, catalog, tiers)
    requires i < |tiers| && IsRung(nodes, req, tiers[i], names)
    ensures |names| > 0
  {
    assert tiers[i] in multiset(tiers);
    var n := TierIsRealizable(req, nodes, catalog, tiers[i]);
    assert n in names;
  }

  /** No node is in two rungs, and the weights fall with the tiers. */
  lemma RankingIsSound(nodes: Nodes, req: Request, prefs: seq<NodePreference>, i: nat, j: nat)
    requires IsTightFit(nodes, req, prefs) && i < j < |prefs|
    ensures forall n :: !(n in prefs[i].nodes && n in prefs[j].nodes)
    ensures 1 <= prefs[j].weight <= prefs[i].weight <= 100
    ensures |prefs| <= 100 ==> prefs[j].weight < prefs[i].weight
  {
    var catalog, tiers :|
      IsCatalog(nodes, req.role, catalog) && Compiled(req, catalog, tiers) && IsRanking(nodes, req, tiers, prefs);
    WeightsInOrder(i, j, |tiers|);
    assert tiers[i] in multiset(tiers) && tiers[j] in multiset(tiers);
    BucketsDiffer(req, catalog, tiers[i], tiers[j]);
    assert TierLess(req, tiers[i], tiers[j]);
  }

  lemma RungCounts(nodes: Nodes, req: Request, catalog: seq<Size>, tiers: seq<Tier>, prefs: seq<NodePreference>, i: nat)
    requires IsCatalog(nodes, req.role, catalog) && Compiled(req, catalog, tiers) && IsRanking(nodes, req, tiers, prefs)
    requires i < |prefs|
    ensures 1 <= prefs[i].weight <= 100 && (i == 0 ==> prefs[i].weight == 100) && prefs[i].nodes != []
  {
    WeightInRange(i, |tiers|);
    RungIsNotEmpty(nodes, req, catalog, tiers, i, prefs[i].nodes);
  }

  /** Every rung, also a single one, has nodes and a weight the scheduler accepts; the first has the full weight. */
  lemma EveryRungCounts(nodes: Nodes, req: Request, prefs: seq<NodePreference>, i: nat)
    requires IsTightFit(nodes, req, prefs) && i < |prefs|
    ensures 1 <= prefs[i].weight <= 100 && (i == 0 ==> prefs[i].weight == 100) && prefs[i].nodes != []
  {
    var catalog, tiers :|
      IsCatalog(nodes, req.role, catalog) && Compiled(req, catalog, tiers) && IsRanking(nodes, req, tiers, prefs);
    RungCounts(nodes, req, catalog, tiers, prefs, i);
  }

  lemma {:induction false} WeightsInOrder(i: nat, j: nat, n: nat)
    requires i < j && j + 1 < n
    ensures 1 <= Weight(j, n) <= Weight(i, n) <= 100
    ensures n <= 101 ==> Weight(j, n) < Weight(i, n)
    decreases j
  {
    WeightsDescend(j - 1, n);
    WeightInRange(i, n);
    WeightInRange(j, n);
    if i == j - 1 {
    } else {
      WeightsInOrder(i, j - 1, n);
    }
  }

  lemma SizeOfTier(req: Request, catalog: seq<Size>, t: Tier) returns (i: nat)
    requires t in Kept(req, catalog, |catalog|)
    ensures i < |catalog| && Drivable(req, catalog[i]) && t == TierOf(req, catalog[i]) && t.ceiling == catalog[i].deviceMemory
  {
    KeptTiers(req, catalog, |catalog|);
    i :| 0 <= i < |catalog| && Drivable(req, catalog[i]) && t == TierOf(req, catalog[i]);
  }

  lemma BucketsDiffer(req: Request, catalog: seq<Size>, a: Tier, b: Tier)
    requires DistinctBuckets(catalog) && a in Kept(req, catalog, |catalog|) && b in Kept(req, catalog, |catalog|)
    ensures a == b || CeilGiB(a.ceiling) != CeilGiB(b.ceiling)
  {
    var i := SizeOfTier(req, catalog, a);
    var j := SizeOfTier(req, catalog, b);
  }
}
